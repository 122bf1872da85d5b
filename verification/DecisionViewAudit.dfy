/** The audit of stored decision views: each is rebuilt from the sealed log and compared with its state checks. */
module DecisionViewAudit {
  import opened Ordering
  import opened Labels
  import opened Evidence
  import opened UsageLedger
  import opened RuntimeRecords
  import opened RuntimeAudit
  import opened RuntimeInvariant
  import opened RuntimeSend
  import opened RuntimeSeal
  import opened RuntimeCourse
  import V = Visibility

  datatype ViewCode =
    | ViewIdentity | ViewRequest | ViewNotVisible(why: V.Violation) | ViewDerivation | ComparisonBinding | ComparisonStateCheck
    | ComparisonEvidence | ComparisonStatusWrong

  /** One check: the code is added when the condition fails. */
  function Demand(ok: bool, code: ViewCode): (r: seq<ViewCode>)
    ensures r == [] <==> ok
  {
    if ok then [] else [code]
  }

  /** The snapshots a view can have been made for. */
  function Requests(ss: seq<Snapshot>, v: DecisionView): seq<Snapshot> {
    if ss == [] then []
    else (if ss[0].blocks == v.blocks && ss[0].cutoff == v.cutoffSeq && ss[0].before.hash == v.draftHash then [ss[0]] else []) + Requests(ss[1..], v)
  }

  function Rebuild(f: RunFiles, run: string, v: DecisionView): V.Verdict {
    V.BuildView(run, v.cutoffSeq, v.draftHash, v.blocks, v.comparisons, f.events, f.producer, v.policy, v.id)
  }

  /** The current bytes of a comparison that claims to know them. */
  ghost predicate CurrentClean(c: Codec, f: RunFiles, run: string, b: FileBinding, x: FileComparison, check: Event) {
    && x.currentRef.Some? && Loaded(c, f.blobs, x.currentRef.value).Some?
    && var r := x.currentRef.value;
    && r.source == RuntimeSource && r.key == run && r.locator == StateCheckFile(x.checkedSeq, b.path)
    && r.labels == [Label(Runtime, Some(run), Some(x.checkedSeq), [])] && r.labels == EventLabel(check)
    && x.currentSha == Some(c.digest(Loaded(c, f.blobs, r).value))
    && x.status == (if x.currentSha == Some(b.sha) then Same else Changed)
  }

  /** A comparison of a view: one block binds its file, one state check of that very content was recorded at its sequence, and
      both the historical and the current bytes are held. */
  ghost predicate ComparisonClean(c: Codec, f: RunFiles, run: string, p: Payloads, blocks: seq<ContextBlock>, x: FileComparison) {
    var bound := V.Bound(blocks, x.bindingRef);
    && |bound| == 1 && bound[0].binding.Some?
    && var b := bound[0].binding.value;
    var checks := V.Where(f.events, V.Checks(run, x.checkedSeq, b.readEvent));
    && |checks| == 1 && FieldsOf(p, checks[0]) == Some(ComparisonFields(b, x))
    && Loaded(c, f.blobs, x.bindingRef).Some? && c.digest(Loaded(c, f.blobs, x.bindingRef).value) == b.sha
    && (!x.status.Unknown? ==> CurrentClean(c, f, run, b, x, checks[0]))
  }

  /** A stored view, under the name of its file. */
  ghost predicate ViewClean(c: Codec, f: RunFiles, run: string, p: Payloads, name: Name, v: DecisionView) {
    && name == v.id && v.runId == run && v.producer == f.producer && |Requests(f.snapshots, v)| == 1
    && Rebuild(f, run, v) == V.Accepted(v)
    && forall k :: 0 <= k < |v.comparisons| ==> ComparisonClean(c, f, run, p, v.blocks, v.comparisons[k])
  }

  // ---- What silence says of a view ----

  /** This snapshot is of the request the view was made for. */
  ghost predicate MadeFor(s: Snapshot, v: DecisionView) { s.blocks == v.blocks && s.cutoff == v.cutoffSeq && s.before.hash == v.draftHash }

  ghost predicate OneRequest(ss: seq<Snapshot>, v: DecisionView, k: int) {
    0 <= k < |ss| && MadeFor(ss[k], v) && forall j :: 0 <= j < |ss| && MadeFor(ss[j], v) ==> j == k
  }

  lemma {:induction false} RequestsNone(ss: seq<Snapshot>, v: DecisionView)
    ensures Requests(ss, v) == [] <==> forall k :: 0 <= k < |ss| ==> !MadeFor(ss[k], v)
  {
    if ss != [] {
      RequestsNone(ss[1..], v);
      assert forall k :: 0 < k < |ss| ==> ss[k] == ss[1..][k - 1];
    }
  }

  lemma {:induction false} RequestsExactly(ss: seq<Snapshot>, v: DecisionView)
    ensures |Requests(ss, v)| == 1 <==> exists k :: OneRequest(ss, v, k)
  {
    if ss != [] {
      RequestsExactly(ss[1..], v);
      RequestsNone(ss[1..], v);
      hide MadeFor;
      if MadeFor(ss[0], v) {
        FirstMade(ss, v);
        if |Requests(ss, v)| == 1 { assert OneRequest(ss, v, 0); }
      } else {
        FirstNotMade(ss, v);
        if k :| OneRequest(ss[1..], v, k) { assert OneRequest(ss, v, k + 1); }
        if k :| OneRequest(ss, v, k) { assert OneRequest(ss[1..], v, k - 1); }
      }
    }
  }

  lemma FirstMade(ss: seq<Snapshot>, v: DecisionView)
    requires ss != [] && MadeFor(ss[0], v)
    ensures |Requests(ss, v)| == 1 + |Requests(ss[1..], v)|
  {
  }

  lemma FirstNotMade(ss: seq<Snapshot>, v: DecisionView)
    requires ss != [] && !MadeFor(ss[0], v)
    ensures Requests(ss, v) == Requests(ss[1..], v)
  {
  }

  /** The bytes a reference names are held, and this is their digest. */
  ghost predicate HeldAs(c: Codec, blobs: map<Hash, Blob>, r: Ref, sha: Hash) {
    r.hash in blobs && c.digest(blobs[r.hash]) == r.hash && r.hash == sha
  }

  /** The payload of a state check says all of this comparison. */
  ghost predicate CheckSays(b: FileBinding, x: FileComparison, fields: Fields) {
    && fields.Keys == {BindingKey, PathKey, HistoricalShaKey, CurrentRefKey, CurrentShaKey, StatusKey}
    && fields[BindingKey] == RefValue(x.bindingRef) && fields[PathKey] == Words(b.path) && fields[HistoricalShaKey] == Words(b.sha)
    && fields[CurrentRefKey] == (if x.currentRef.Some? then RefValue(x.currentRef.value) else Nil)
    && fields[CurrentShaKey] == (if x.currentSha.Some? then Words(x.currentSha.value) else Nil)
    && fields[StatusKey] == StatusValue(x.status)
  }

  lemma CheckIs(b: FileBinding, x: FileComparison, fields: Fields)
    ensures fields == ComparisonFields(b, x) <==> CheckSays(b, x, fields)
  {
  }

  /** The current bytes of a comparison: held, this run's own, labelled by the state check, and the same as the bytes read or
      not as the status says. */
  ghost predicate CurrentTrue(c: Codec, f: RunFiles, run: string, b: FileBinding, x: FileComparison, check: Event) {
    && x.currentRef.Some? && x.currentSha.Some? && HeldAs(c, f.blobs, x.currentRef.value, x.currentSha.value)
    && x.currentRef.value.source == RuntimeSource && x.currentRef.value.key == run
    && x.currentRef.value.locator == StateCheckFile(x.checkedSeq, b.path)
    && x.currentRef.value.labels == [Label(Runtime, Some(run), Some(x.checkedSeq), [])] && V.CarriesLabel(x.currentRef.value.labels, check)
    && (x.status == Same <==> x.currentSha.value == b.sha) && (x.status == Changed <==> x.currentSha.value != b.sha)
  }

  /** Block `m` binds the file of the comparison, whose bytes are held, and event `j` is the one state check that tells it. */
  ghost predicate ComparisonTold(c: Codec, f: RunFiles, run: string, p: Payloads, blocks: seq<ContextBlock>, x: FileComparison, m: int, j: int) {
    && V.Binds(blocks, x.bindingRef, m)
    && var b := blocks[m].binding.value;
    && V.ChecksAt(f.events, x, b.readEvent, run, j)
    && FieldsOf(p, f.events[j]).Some? && CheckSays(b, x, FieldsOf(p, f.events[j]).value) && HeldAs(c, f.blobs, x.bindingRef, b.sha)
    && (!x.status.Unknown? ==> CurrentTrue(c, f, run, b, x, f.events[j]))
  }

  ghost predicate ComparisonTrue(c: Codec, f: RunFiles, run: string, p: Payloads, blocks: seq<ContextBlock>, x: FileComparison) {
    exists m, j :: ComparisonTold(c, f, run, p, blocks, x, m, j)
  }

  /** A stored view is the run's own, under its own name, made for one request; everything it shows is visible evidence, and
      every comparison is told by its state check. */
  ghost predicate ViewTrue(c: Codec, f: RunFiles, run: string, p: Payloads, name: Name, v: DecisionView) {
    && name == v.id && v.runId == run && v.producer == f.producer && (exists k :: OneRequest(f.snapshots, v, k))
    && v.labels == [Label(Runtime, Some(run), Some(v.cutoffSeq), [])]
    && (forall i :: 0 <= i < |v.blocks| ==> V.Visible(f.events, v.blocks[i], run, v.cutoffSeq, f.producer))
    && forall k :: 0 <= k < |v.comparisons| ==>
         V.Checked(f.events, v.blocks, v.comparisons[k], run, v.cutoffSeq) && ComparisonTrue(c, f, run, p, v.blocks, v.comparisons[k])
  }

  lemma CurrentExactly(c: Codec, f: RunFiles, run: string, b: FileBinding, x: FileComparison, check: Event)
    requires !x.status.Unknown?
    ensures CurrentClean(c, f, run, b, x, check) <==> CurrentTrue(c, f, run, b, x, check)
  {
    if x.currentRef.Some? && x.currentRef.value.labels == [Label(Runtime, Some(run), Some(x.checkedSeq), [])] {
      V.LabelExactly(x.currentRef.value.labels, check);
    }
    hide EventLabel, V.CarriesLabel;
  }

  /** With its block and its check found, a comparison is clean exactly when it is told. */
  lemma ToldExactly(c: Codec, f: RunFiles, run: string, p: Payloads, blocks: seq<ContextBlock>, x: FileComparison, m: nat, j: nat)
    requires V.Binds(blocks, x.bindingRef, m) && V.ChecksAt(f.events, x, blocks[m].binding.value.readEvent, run, j)
    ensures ComparisonClean(c, f, run, p, blocks, x) <==> ComparisonTold(c, f, run, p, blocks, x, m, j)
  {
    var b := blocks[m].binding.value;
    V.BoundOnly(blocks, x.bindingRef, m);
    V.ChecksExactly(f.events, x, b.readEvent, run);
    if FieldsOf(p, f.events[j]).Some? { CheckIs(b, x, FieldsOf(p, f.events[j]).value); }
    if !x.status.Unknown? { CurrentExactly(c, f, run, b, x, f.events[j]); }
    hide CurrentClean, CurrentTrue, ComparisonFields, CheckSays, FieldsOf, V.Bound, V.Where, V.Checks, V.Binds, V.ChecksAt;
  }

  lemma ComparisonExactly(c: Codec, f: RunFiles, run: string, p: Payloads, blocks: seq<ContextBlock>, x: FileComparison)
    ensures ComparisonClean(c, f, run, p, blocks, x) <==> ComparisonTrue(c, f, run, p, blocks, x)
  {
    hide CurrentClean, CurrentTrue, ComparisonFields, CheckSays, FieldsOf, V.Bound, V.Where, V.Checks, HeldAs, Loaded;
    forall m: nat, j: nat | ComparisonTold(c, f, run, p, blocks, x, m, j) ensures ComparisonClean(c, f, run, p, blocks, x) {
      ToldExactly(c, f, run, p, blocks, x, m, j);
    }
    if ComparisonClean(c, f, run, p, blocks, x) {
      var m := V.BoundUnique(blocks, x.bindingRef);
      V.ChecksExactly(f.events, x, blocks[m].binding.value.readEvent, run);
      var j: int :| V.ChecksAt(f.events, x, blocks[m].binding.value.readEvent, run, j);
      ToldExactly(c, f, run, p, blocks, x, m, j);
    }
  }

  /** The checks of a view, taken together, say over arbitrary stored data that the view is true. */
  lemma ViewCleanExactly(c: Codec, f: RunFiles, run: string, p: Payloads, name: Name, v: DecisionView)
    ensures ViewClean(c, f, run, p, name, v) <==> ViewTrue(c, f, run, p, name, v)
  {
    hide ComparisonClean, ComparisonTrue, V.BuildView, Requests, V.Visible, V.Checked, OneRequest;
    RequestsExactly(f.snapshots, v);
    V.ViewExactly(run, v.cutoffSeq, v.draftHash, v.blocks, v.comparisons, f.events, f.producer, v.policy, v.id);
    forall k | 0 <= k < |v.comparisons|
      ensures ComparisonClean(c, f, run, p, v.blocks, v.comparisons[k]) <==> ComparisonTrue(c, f, run, p, v.blocks, v.comparisons[k])
    {
      ComparisonExactly(c, f, run, p, v.blocks, v.comparisons[k]);
    }
  }

  // ---- The audit ----

  method AuditComparison(c: Codec, f: RunFiles, run: string, p: Payloads, blocks: seq<ContextBlock>, x: FileComparison) returns (codes: seq<ViewCode>)
    ensures codes == [] <==> ComparisonClean(c, f, run, p, blocks, x)
    ensures codes == [] <==> ComparisonTrue(c, f, run, p, blocks, x)
  {
    hide ComparisonFields, EventLabel, ComparisonTrue;
    ComparisonExactly(c, f, run, p, blocks, x);
    var bound := V.Bound(blocks, x.bindingRef);
    V.BoundHolds(blocks, x.bindingRef);
    if |bound| != 1 { return [ComparisonBinding]; }
    var b := bound[0].binding.value;
    var checks := V.Where(f.events, V.Checks(run, x.checkedSeq, b.readEvent));
    if |checks| != 1 { return [ComparisonStateCheck]; }
    codes := Demand(FieldsOf(p, checks[0]) == Some(ComparisonFields(b, x)), ComparisonStateCheck)
      + Demand(Loaded(c, f.blobs, x.bindingRef).Some? && c.digest(Loaded(c, f.blobs, x.bindingRef).value) == b.sha, ComparisonBinding);
    if x.status.Unknown? { return codes; }
    if x.currentRef.None? { return codes + [ComparisonEvidence]; }
    var r := x.currentRef.value;
    var current := Loaded(c, f.blobs, r);
    if current.None? || r.source != RuntimeSource || r.key != run || r.locator != StateCheckFile(x.checkedSeq, b.path) ||
       r.labels != [Label(Runtime, Some(run), Some(x.checkedSeq), [])] || r.labels != EventLabel(checks[0]) ||
       x.currentSha != Some(c.digest(current.value)) { return codes + [ComparisonEvidence]; }
    return codes + Demand(x.status == (if x.currentSha == Some(b.sha) then Same else Changed), ComparisonStatusWrong);
  }

  method AuditView(c: Codec, f: RunFiles, run: string, p: Payloads, name: Name, v: DecisionView) returns (codes: seq<ViewCode>)
    ensures codes == [] <==> ViewClean(c, f, run, p, name, v)
    ensures codes == [] <==> ViewTrue(c, f, run, p, name, v)
  {
    hide ComparisonClean, ComparisonTrue, V.BuildView, Requests, ViewTrue;
    ViewCleanExactly(c, f, run, p, name, v);
    codes := Demand(name == v.id && v.runId == run && v.producer == f.producer, ViewIdentity)
      + Demand(|Requests(f.snapshots, v)| == 1, ViewRequest);
    var rebuilt := Rebuild(f, run, v);
    if rebuilt.Rejected? { return codes + [ViewNotVisible(rebuilt.code)]; }
    codes := codes + Demand(rebuilt.view == v, ViewDerivation);
    ghost var early := codes;
    for k := 0 to |v.comparisons|
      invariant codes == [] <==> early == [] && forall j :: 0 <= j < k ==> ComparisonClean(c, f, run, p, v.blocks, v.comparisons[j])
    {
      var more := AuditComparison(c, f, run, p, v.blocks, v.comparisons[k]);
      codes := codes + more;
    }
  }

  ghost predicate ViewsClean(c: Codec, f: RunFiles, run: string, p: Payloads, views: seq<(Name, DecisionView)>) {
    forall k :: 0 <= k < |views| ==> ViewClean(c, f, run, p, views[k].0, views[k].1)
  }

  /** `_audit_decision_views`, on the stored views in the order of their file names. */
  method AuditViews(c: Codec, f: RunFiles, run: string, p: Payloads, views: seq<(Name, DecisionView)>) returns (codes: seq<ViewCode>)
    ensures codes == [] <==> ViewsClean(c, f, run, p, views)
    ensures codes == [] <==> forall k :: 0 <= k < |views| ==> ViewTrue(c, f, run, p, views[k].0, views[k].1)
  {
    hide ViewClean, ViewTrue;
    codes := [];
    for i := 0 to |views|
      invariant codes == [] <==> forall k :: 0 <= k < i ==> ViewClean(c, f, run, p, views[k].0, views[k].1)
      invariant codes == [] <==> forall k :: 0 <= k < i ==> ViewTrue(c, f, run, p, views[k].0, views[k].1)
    {
      var more := AuditView(c, f, run, p, views[i].0, views[i].1);
      codes := codes + more;
    }
  }

  // ---- A view made while the run was going on ----

  /** The comparison was made by this run, of the file its block binds, and the bytes once read are held. */
  ghost predicate Compared(w: Setup, r: Recording, blocks: seq<ContextBlock>, x: FileComparison) {
    var bound := V.Bound(blocks, x.bindingRef);
    && |bound| == 1 && bound[0].binding.Some? && Told(w, r, bound[0].binding.value, x)
    && Loaded(w.codec, r.blobs, x.bindingRef).Some? && x.bindingRef.hash == bound[0].binding.value.sha
  }

  lemma OneCheck(w: Setup, r: Recording, b: FileBinding, x: FileComparison)
    requires LogSound(w, r) && Told(w, r, b, x)
    ensures V.Where(r.events, V.Checks(w.run, x.checkedSeq, b.readEvent)) == [r.events[x.checkedSeq]]
  {
    var p := V.Checks(w.run, x.checkedSeq, b.readEvent);
    RuntimeLabel(w, r, x.checkedSeq);
    forall j | 0 <= j < |r.events| && j != x.checkedSeq ensures !p(r.events[j]) { assert EventSound(w, r.blobs, r.events[j], j); }
    hide Told, LogSound;
    V.WhereOnly(r.events, p, x.checkedSeq);
  }

  lemma ComparedClean(w: Setup, r: Recording, f: RunFiles, blocks: seq<ContextBlock>, x: FileComparison)
    requires LogSound(w, r) && Compared(w, r, blocks, x) && SameView(Draft(w, r), f)
    ensures ComparisonClean(w.codec, f, w.run, Said(w, r), blocks, x)
  {
    var b := V.Bound(blocks, x.bindingRef)[0].binding.value;
    OneCheck(w, r, b, x);
    RuntimeLabel(w, r, x.checkedSeq);
    ViewEvents(w, r, f);
    assert w.codec.digest(Loaded(w.codec, r.blobs, x.bindingRef).value) == b.sha;
    if !x.status.Unknown? {
      var text :| CurrentIs(w, r, b, x, text);
      hide LogSound, Said, FieldsOf, ComparisonFields, EventLabel, SameView;
      assert Loaded(w.codec, r.blobs, x.currentRef.value) == Some(Bytes(text));
    }
  }

  /** The rebuild always equals the stored view: a view accepted against the log as it stood at any later point of the run
      than its cutoff, whose comparisons the run recorded and which one snapshot was made for, passes the audit of the
      finished run. */
  lemma StoredViewRebuilds(w: Setup, early: Recording, r: Recording, f: RunFiles, v: DecisionView)
    requires LogGrows(w, early, r) && SameView(Draft(w, r), f) && v.cutoffSeq < |early.events| && |Requests(f.snapshots, v)| == 1
    requires V.BuildView(w.run, v.cutoffSeq, v.draftHash, v.blocks, v.comparisons, early.events, w.producer, v.policy, v.id) == V.Accepted(v)
    requires forall k :: 0 <= k < |v.comparisons| ==> Compared(w, early, v.blocks, v.comparisons[k])
    ensures ViewClean(w.codec, f, w.run, Said(w, r), v.id, v)
  {
    RecorderLogHolds(w, r);
    GrownEvents(w, early, r);
    ViewEvents(w, r, f);
    V.PrefixOnly(w.run, v.cutoffSeq, v.draftHash, v.blocks, v.comparisons, r.events, |early.events|, w.producer, v.policy, v.id);
    BuiltFor(w.run, v.cutoffSeq, v.draftHash, v.blocks, v.comparisons, early.events, w.producer, v.policy, v.id);
    hide V.BuildView, V.RecorderLog, LogSound;
    forall k | 0 <= k < |v.comparisons| ensures ComparisonClean(w.codec, f, w.run, Said(w, r), v.blocks, v.comparisons[k]) {
      ComparedStays(w, early, r, v.blocks, v.comparisons[k]);
      ComparedClean(w, r, f, v.blocks, v.comparisons[k]);
    }
  }

  lemma BuiltFor(run: string, cutoff: nat, draft: Hash, blocks: seq<ContextBlock>, comparisons: seq<FileComparison>, events: seq<Event>,
    producer: Ref, policy: string, id: Name)
    ensures var built := V.BuildView(run, cutoff, draft, blocks, comparisons, events, producer, policy, id);
      built.Accepted? ==> built.view.runId == run && built.view.producer == producer && built.view.id == id
  {
  }

  lemma ComparedStays(w: Setup, a: Recording, b: Recording, blocks: seq<ContextBlock>, x: FileComparison)
    requires LogGrows(w, a, b) && Compared(w, a, blocks, x)
    ensures Compared(w, b, blocks, x)
  {
    ToldStays(w, a, b, V.Bound(blocks, x.bindingRef)[0].binding.value, x);
    LoadedStays(w, a, b, x.bindingRef);
    hide Told, LogGrows;
  }
}
