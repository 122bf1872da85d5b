/** `audit_run` as a whole: the states and the sealed artifact, the log and everything in it, the decision views. */
module WholeAudit {
  import opened Ordering
  import opened Labels
  import opened Evidence
  import opened UsageLedger
  import opened RuntimeRecords
  import RuntimeAudit
  import RuntimeTruth
  import StateAudit
  import DecisionViewAudit

  datatype WholeCode = OfStates(states: StateAudit.StateCode) | OfRun(run: RuntimeAudit.Code) | OfViews(views: DecisionViewAudit.ViewCode)

  /** The run's files, with the file bindings its final state lists. */
  function WithFinal(f: RunFiles, final: RepoState): RunFiles { f.(finalFiles := final.files) }

  /** Everything the audit demands of a stored run. */
  ghost predicate WholeClean(c: Codec, f: RunFiles, g: StateAudit.StateFiles, views: seq<(Name, DecisionView)>, run: string) {
    && StateAudit.StatesClean(c, f, g, run)
    && var whole := WithFinal(f, StateOf(c, g.finalFile).value);
    && RuntimeAudit.RunClean(c, whole, run)
    && DecisionViewAudit.ViewsClean(c, whole, run, RuntimeAudit.PayloadsOf(c, whole, run), views)
  }

  /** What all of this says, told from the stored bytes: the two states and the sealed files, the log with its requests, tool
      calls, bindings and ledger, and the decision views. */
  ghost predicate WholeTrue(c: Codec, f: RunFiles, g: StateAudit.StateFiles, views: seq<(Name, DecisionView)>, run: string) {
    && StateAudit.StatesTrue(c, f, g, run)
    && var whole := f.(finalFiles := StateOf(c, g.finalFile).value.files);
    exists p :: RuntimeTruth.RunTrue(c, whole, run, p) && AllViewsTrue(c, whole, run, p, views)
  }

  ghost predicate AllViewsTrue(c: Codec, f: RunFiles, run: string, p: RuntimeAudit.Payloads, views: seq<(Name, DecisionView)>) {
    forall k :: 0 <= k < |views| ==> DecisionViewAudit.ViewTrue(c, f, run, p, views[k].0, views[k].1)
  }

  /** `audit_run`: nothing is reported exactly when the stored run is clean in every respect, whatever is stored. */
  method AuditWhole(c: Codec, f: RunFiles, g: StateAudit.StateFiles, views: seq<(Name, DecisionView)>, run: string) returns (codes: seq<WholeCode>)
    ensures codes == [] <==> WholeClean(c, f, g, views, run)
    ensures codes == [] ==> WholeTrue(c, f, g, views, run)
  {
    hide RuntimeAudit.RunClean, RuntimeAudit.PayloadsOf, RuntimeTruth.RunTrue, StateAudit.StatesTrue, DecisionViewAudit.ViewTrue, StateAudit.ProducerClean, StateAudit.PhaseClean, StateAudit.ArtifactClean, StateOf, DecisionViewAudit.ViewsClean;
    var states := StateAudit.AuditStates(c, f, g, run);
    codes := seq(|states|, i requires 0 <= i < |states| => OfStates(states[i]));
    var final := StateOf(c, g.finalFile);
    if final.None? { return codes; }
    var whole := WithFinal(f, final.value);
    var own, p := RuntimeAudit.AuditRun(c, whole, run);
    if own == [] { RuntimeTruth.RunTold(c, whole, run); }
    var seen := DecisionViewAudit.AuditViews(c, whole, run, p, views);
    codes := codes + seq(|own|, i requires 0 <= i < |own| => OfRun(own[i])) + seq(|seen|, i requires 0 <= i < |seen| => OfViews(seen[i]));
  }

  /** What the seal writes lists the run's own bindings, so nothing changes for it. */
  lemma OwnFinal(f: RunFiles, final: RepoState)
    requires final.files == f.finalFiles
    ensures WithFinal(f, final) == f
  {
  }

  /** A run without stored views has none that could be wrong. */
  lemma NoViews(c: Codec, f: RunFiles, run: string, p: RuntimeAudit.Payloads, views: seq<(Name, DecisionView)>)
    requires |views| == 0
    ensures DecisionViewAudit.ViewsClean(c, f, run, p, views)
  {
  }
}
