/**
 * VkPipelineBuilder: an ordered list of shader stages, appended to one at a
 * time, from which graphics and compute pipeline create infos are built.
 * The pipeline-state setters are declared in the builder's header but are
 * not part of this model, so their state does not appear here.
 */
module PipelineBuilder {
  import opened VkTypes

  /** VkPipelineShaderStageCreateInfo: flags 0, the stage bit, the module and the entry point. */
  datatype ShaderStage = ShaderStage(stage: Flags, shaderModule: Handle, entryPoint: string)

  /** The fields of VkGraphicsPipelineCreateInfo that the builder fills from its arguments and stage list. */
  datatype GraphicsPipelineCreateInfo = GraphicsPipelineCreateInfo(
    flags: nat, stageCount: nat, stages: seq<ShaderStage>, layout: Handle, renderPass: Handle, subpass: nat,
    basePipelineHandle: Handle, basePipelineIndex: int)

  datatype ComputePipelineCreateInfo = ComputePipelineCreateInfo(
    flags: nat, stage: ShaderStage, layout: Handle, basePipelineHandle: Handle, basePipelineIndex: int)

  /** What a build hands vkCreateGraphicsPipelines, and what the driver answers. */
  datatype GraphicsBuild = GraphicsBuild(info: GraphicsPipelineCreateInfo, result: VkResult)

  datatype BuildWarning = StageCountInvalid | StageNotCompute

  /**
   * A compute build logs its warnings in order and then either hands the
   * create info to the driver or, with no stage to read, throws
   * std::out_of_range from the bounds-checked access to stage 0.
   */
  datatype ComputeBuild =
    | ComputeBuilt(warnings: seq<BuildWarning>, info: ComputePipelineCreateInfo, result: VkResult)
    | OutOfRange(warnings: seq<BuildWarning>)

  /**
   * C++ `!stage` on a stage bit is a bool, promoted to 0 or 1 when compared
   * with the integer value of a stage bit.
   */
  function LogicalNot(stage: Flags): (r: nat)
    ensures r <= 1
    ensures r == 1 <==> stage == 0
  {
    if stage == 0 then 1 else 0
  }

  /** The compute-stage test as written: `!stage == VK_SHADER_STAGE_COMPUTE_BIT`. */
  predicate StageCheckAsWritten(stage: Flags)
  {
    LogicalNot(stage) == SHADER_STAGE_COMPUTE_BIT as nat
  }

  /** The compute-stage test as written never holds, so its warning is never logged, whatever the stage. */
  lemma StageCheckNeverFires(stage: Flags)
    ensures !StageCheckAsWritten(stage)
    ensures !StageCheckAsWritten(SHADER_STAGE_VERTEX_BIT) && StageCheckIntended(SHADER_STAGE_VERTEX_BIT)
  {
  }

  /** The test the warning's text describes: the stage is not the compute stage. */
  predicate StageCheckIntended(stage: Flags)
  {
    stage != SHADER_STAGE_COMPUTE_BIT
  }

  class VkPipelineBuilder {
    var shaderStages: seq<ShaderStage>

    constructor ()
      ensures shaderStages == []
    {
      shaderStages := [];
    }

    /** Appends one stage at the end; earlier stages stay as they were. */
    method AddShaderStage(shaderModule: Handle, stage: Flags, entryPoint: string)
      modifies this`shaderStages
      ensures shaderStages == old(shaderStages) + [ShaderStage(stage, shaderModule, entryPoint)]
    {
      shaderStages := shaderStages + [ShaderStage(stage, shaderModule, entryPoint)];
    }

    /**
     * Every stage added so far, in insertion order, with the given layout,
     * render pass and subpass; no base pipeline (null handle, index -1).
     * `driverResult` is what vkCreateGraphicsPipelines returns; it is passed
     * back unexamined.
     */
    function BuildGraphicsPipeline(layout: Handle, renderPass: Handle, subpass: nat, driverResult: VkResult)
      : (b: GraphicsBuild)
      reads this
      ensures b.info.stageCount == |b.info.stages| == |shaderStages|
      ensures forall i | 0 <= i < |shaderStages| :: b.info.stages[i] == shaderStages[i]
      ensures b.info.layout == layout && b.info.renderPass == renderPass && b.info.subpass == subpass
      ensures b.info.flags == 0 && b.info.basePipelineHandle == NULL_HANDLE && b.info.basePipelineIndex == -1
      ensures b.result == driverResult
    {
      GraphicsBuild(GraphicsPipelineCreateInfo(0, |shaderStages|, shaderStages, layout, renderPass, subpass,
                                               NULL_HANDLE, -1), driverResult)
    }

    /**
     * Warns when the stage count is not exactly one, then reads stage 0
     * (throwing when there is none) and builds from it alone. The
     * compute-stage warning is guarded by StageCheckAsWritten.
     */
    function BuildComputePipeline(layout: Handle, driverResult: VkResult): (b: ComputeBuild)
      reads this
      ensures b.OutOfRange? <==> |shaderStages| == 0
      ensures StageCountInvalid in b.warnings <==> |shaderStages| != 1
      ensures StageNotCompute !in b.warnings
      ensures b.ComputeBuilt? ==>
        && b.info.stage == shaderStages[0] && b.info.layout == layout && b.info.flags == 0
        && b.info.basePipelineHandle == NULL_HANDLE && b.info.basePipelineIndex == -1
        && b.result == driverResult
    {
      var countWarning := if |shaderStages| < 1 || |shaderStages| > 1 then [StageCountInvalid] else [];
      if |shaderStages| == 0 then OutOfRange(countWarning)
      else
        StageCheckNeverFires(shaderStages[0].stage);
        var stageWarning := if StageCheckAsWritten(shaderStages[0].stage) then [StageNotCompute] else [];
        ComputeBuilt(countWarning + stageWarning,
                     ComputePipelineCreateInfo(0, shaderStages[0], layout, NULL_HANDLE, -1), driverResult)
    }

    /** BuildComputePipeline with the compute-stage test it evidently means: the warning fires exactly for a non-compute stage 0. */
    function BuildComputePipelineIntended(layout: Handle, driverResult: VkResult): (b: ComputeBuild)
      reads this
      ensures b.OutOfRange? <==> |shaderStages| == 0
      ensures StageCountInvalid in b.warnings <==> |shaderStages| != 1
      ensures StageNotCompute in b.warnings <==> |shaderStages| > 0 && shaderStages[0].stage != SHADER_STAGE_COMPUTE_BIT
      ensures b.ComputeBuilt? ==> b.info == BuildComputePipeline(layout, driverResult).info && b.result == driverResult
    {
      var countWarning := if |shaderStages| < 1 || |shaderStages| > 1 then [StageCountInvalid] else [];
      if |shaderStages| == 0 then OutOfRange(countWarning)
      else
        var stageWarning := if StageCheckIntended(shaderStages[0].stage) then [StageNotCompute] else [];
        ComputeBuilt(countWarning + stageWarning,
                     ComputePipelineCreateInfo(0, shaderStages[0], layout, NULL_HANDLE, -1), driverResult)
    }
  }

  /**
   * A builder given a vertex then a fragment stage builds a graphics
   * pipeline over exactly those two stages in that order, and a compute
   * build from it warns about the stage count but still uses the vertex
   * stage.
   */
  method BuildTwoStagePipelines(vertex: Handle, fragment: Handle, layout: Handle, renderPass: Handle)
    returns (graphics: GraphicsBuild, compute: ComputeBuild)
    ensures graphics.info.stageCount == 2
    ensures graphics.info.stages == [ShaderStage(SHADER_STAGE_VERTEX_BIT, vertex, "main"),
                                     ShaderStage(SHADER_STAGE_FRAGMENT_BIT, fragment, "main")]
    ensures compute.ComputeBuilt? && compute.warnings == [StageCountInvalid]
    ensures compute.info.stage == ShaderStage(SHADER_STAGE_VERTEX_BIT, vertex, "main")
  {
    var builder := new VkPipelineBuilder();
    builder.AddShaderStage(vertex, SHADER_STAGE_VERTEX_BIT, "main");
    builder.AddShaderStage(fragment, SHADER_STAGE_FRAGMENT_BIT, "main");
    graphics := builder.BuildGraphicsPipeline(layout, renderPass, 0, Success);
    compute := builder.BuildComputePipeline(layout, Success);
  }
}
