/**
 * The per-function record that `main` assembles from the five analyses
 * (main.go:189-193) before printing it.
 */
module Analysis {
  import opened DeclAst
  import opened Resolver
  import opened StateSpace
  import opened Metrics

  datatype Report = Report(
    name: string,
    inputStateSpace: int,
    outputStateSpace: int,
    branchingFactor: int,
    operationalComplexity: int,
    localAssignment: int)

  /** The record of one function declaration, analysed against a symbol snapshot. */
  function ReportOf(f: FuncDecl, ctx: Context): Report
  {
    Report(
      f.name,
      SignatureStateSpace(f.params, ctx),
      SignatureStateSpace(f.results, ctx),
      BranchingFactor(f.body),
      OperationalComplexity(f.body),
      LocalAssignments(f.body))
  }

  /** How the analysis of one declaration ends: with its record, or in a panic that ends the whole run. */
  datatype Outcome = Reported(report: Report) | Crashed

  /**
   * Runs the five analyses on one declaration. It crashes exactly when
   * resolving a parameter or result type panics; otherwise both state spaces
   * are positive, and the local assignments are among the operations counted.
   */
  method AnalyzeFunction(f: FuncDecl, ctx: Context) returns (outcome: Outcome)
    ensures outcome.Crashed? <==> SignaturePanics(f.params, ctx) || SignaturePanics(f.results, ctx)
    ensures outcome.Reported? ==> outcome.report == ReportOf(f, ctx)
    ensures outcome.Reported? ==>
      && outcome.report.inputStateSpace >= 1 && outcome.report.outputStateSpace >= 1
      && outcome.report.branchingFactor >= 0
      && 0 <= outcome.report.localAssignment <= outcome.report.operationalComplexity
  {
    var inputStateSpace, inputPanicked := AnalyzeInputStateSpace(f, ctx);
    if inputPanicked {
      return Crashed;
    }
    var outputStateSpace, outputPanicked := AnalyzeOutputStateSpace(f, ctx);
    if outputPanicked {
      return Crashed;
    }
    var branchingFactor := AnalyzeBranching(f.body);
    var wtfComplexity := AnalyzeWTFComplexity(f.body);
    var localAssignment := CountLocalAssignment(f.body);
    return Reported(Report(f.name, inputStateSpace, outputStateSpace, branchingFactor, wtfComplexity, localAssignment));
  }

}
