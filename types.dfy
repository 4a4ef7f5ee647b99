/**
 * Shared vocabulary of the renderer model: opaque driver handles, the subset of
 * VkResult codes the core returns, formats and flag masks, and C++ integer
 * division.
 */
module VkTypes {

  /** A Vulkan or VMA object handle; 0 plays the part of VK_NULL_HANDLE. */
  type Handle = nat
  const NULL_HANDLE: Handle := 0

  /** The handles a driver oracle `make` hands out for objects 0 .. count-1. */
  function Handles(count: nat, make: nat -> Handle): (hs: seq<Handle>)
    ensures |hs| == count && forall i | 0 <= i < count :: hs[i] == make(i)
  {
    seq(count, i requires 0 <= i < count => make(i))
  }

  const UINT32_MAX: nat := 0xFFFF_FFFF

  /** A uint32_t value. */
  type U32 = n: nat | n <= UINT32_MAX

  /** The VkResult codes the modelled code produces or passes through. */
  datatype VkResult =
    | Success
    | NotReady
    | Timeout
    | Suboptimal
    | ErrorOutOfHostMemory
    | ErrorOutOfDeviceMemory
    | ErrorInitializationFailed
    | ErrorDeviceLost
    | ErrorLayerNotPresent
    | ErrorExtensionNotPresent
    | ErrorIncompatibleDriver
    | ErrorOutOfDate
    | ErrorUnknown

  datatype Option<T> = None | Some(value: T)

  /** What a handle getter hands back: the stored handle, and whether it logged the null-handle error. */
  datatype Checked = Checked(handle: Handle, loggedError: bool)

  /** The VkFormat values the core names; every other format is `Other(code)`. */
  datatype Format =
    | Undefined
    | B8G8R8A8Unorm
    | D32Sfloat
    | D32SfloatS8Uint
    | D24UnormS8Uint
    | Other(code: nat)

  datatype ColorSpace = SrgbNonlinear | OtherColorSpace(code: nat)

  datatype PresentMode = Immediate | Mailbox | Fifo | FifoRelaxed

  datatype ImageTiling = TilingOptimal | TilingLinear | TilingOther(code: nat)

  /** VkFlags / VkBool32 are 32-bit words. */
  type Flags = bv32

  // VkFenceCreateFlagBits
  const FENCE_CREATE_SIGNALED_BIT: Flags := 0x1

  // VkShaderStageFlagBits
  const SHADER_STAGE_VERTEX_BIT: Flags := 0x1
  const SHADER_STAGE_FRAGMENT_BIT: Flags := 0x10
  const SHADER_STAGE_COMPUTE_BIT: Flags := 0x20

  // VkFormatFeatureFlagBits
  const FORMAT_FEATURE_DEPTH_STENCIL_ATTACHMENT_BIT: Flags := 0x200

  // VkImageAspectFlagBits
  const IMAGE_ASPECT_COLOR_BIT: Flags := 0x1
  const IMAGE_ASPECT_DEPTH_BIT: Flags := 0x2

  function Abs(a: int): nat { if a < 0 then -a else a }

  lemma DivNonNegative(x: nat, y: nat)
    requires y > 0
    ensures x / y >= 0
  {
  }

  /**
   * `q` is `a / b` rounded toward zero: its magnitude is the quotient of the
   * magnitudes and its sign is the product of the operands' signs, or it is zero.
   */
  ghost predicate TruncatedQuotient(q: int, a: int, b: int)
    requires b != 0
  {
    && Abs(q) == Abs(a) / Abs(b)
    && ((a < 0) == (b < 0) ==> q >= 0)
    && ((a < 0) != (b < 0) ==> q <= 0)
  }

  /**
   * C++ `/` on integers truncates toward zero, while Dafny's `/` is Euclidean.
   * Division by zero is undefined behaviour in C++, hence the precondition.
   * The quotient's magnitude is the quotient of the magnitudes, its sign is
   * the product of the operands' signs (or it is zero); it agrees with
   * Dafny's `/` when both operands are non-negative.
   */
  function TDiv(a: int, b: int): (q: int)
    requires b != 0
    ensures TruncatedQuotient(q, a, b)
    ensures a >= 0 && b > 0 ==> q == a / b
  {
    DivNonNegative(Abs(a), Abs(b));
    var m := Abs(a) / Abs(b);
    if (a < 0) == (b < 0) then m else -m
  }

  /** Truncation, not flooring: -7 / 2 is -3 in C++, where Dafny's `/` gives -4. */
  lemma TDivTruncates()
    ensures TDiv(-7, 2) == -3 && -7 / 2 == -4
    ensures TDiv(7, -2) == -3 && 7 / -2 == -3
  {
  }

  /** Euclidean division undoes multiplication by a positive number. */
  lemma MulDivCancel(n: nat, m: nat)
    requires m > 0
    ensures (n * m) / m == n
  {
    var q := (n * m) / m;
    var r := (n * m) % m;
    assert n * m == q * m + r && 0 <= r < m;
    var d := n - q;
    assert d * m == n * m - q * m;
    assert d * m == r;
  }

  /** Dividing a multiple of `k` by `k` gives back the factor exactly, in either sign. */
  lemma TDivMultiple(x: int, k: int)
    requires k != 0
    ensures TDiv(x * k, k) == x
  {
    assert Abs(x * k) == Abs(x) * Abs(k);
    MulDivCancel(Abs(x), Abs(k));
  }

  /** A square is never negative, and positive exactly when its root is non-zero. */
  lemma SquarePositive(n: int)
    ensures n * n >= 0
    ensures n * n == 0 <==> n == 0
  {
    if n > 0 {
      assert n * n >= n;
    } else if n < 0 {
      assert n * n == (-n) * (-n);
      assert (-n) * (-n) >= -n;
    }
  }
}
