/** The review result object the processor returns and the renderers read. */
module ReviewResults {
  /**
   * `{ success, template, model, originalContract, revisedContract, riskList,
   * recommendations, complianceConclusion, rawOutput }`. A property that is
   * absent reads as the empty string or the empty list.
   */
  datatype ReviewResult = ReviewResult(
    success: bool,
    template: string,
    model: string,
    originalContract: string,
    revisedContract: string,
    riskList: seq<string>,
    recommendations: seq<string>,
    complianceConclusion: string,
    rawOutput: string)
}
