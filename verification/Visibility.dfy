/** Decision views: only authorized public constants and completed evidence of the same run, up to a cutoff. */
module Visibility {
  import opened Ordering
  import opened Labels
  import opened Evidence

  datatype Violation =
    | UnknownVisibility | TaintedEvidence | UnauthorizedScope | CrossRunEvidence | FutureEvidence | UnfinishedToolResult
    | OriginOccurrenceMismatch | ProvenanceLabelMismatch | FileComparisonBindingMismatch | FileComparisonStateCheckMismatch

  datatype Verdict = Accepted(view: DecisionView) | Rejected(code: Violation)

  /** One label of `_authorize_ref`. */
  function LabelIssue(l: Label, run: string, cutoff: nat): Option<Violation> {
    if l.taints != [] then Some(TaintedEvidence)
    else if l.scope == Evaluator || l.scope == Analysis then Some(UnauthorizedScope)
    else if l.scope == Public then
      if l.runId.Some? then Some(CrossRunEvidence)
      else if l.availableSeq.Some? && l.availableSeq.value > cutoff then Some(FutureEvidence)
      else None
    else if l.runId != Some(run) then Some(CrossRunEvidence)
    else if l.availableSeq.None? then Some(UnknownVisibility)
    else if l.availableSeq.value > cutoff then Some(FutureEvidence)
    else None
  }

  function LabelsIssue(ls: seq<Label>, run: string, cutoff: nat): Option<Violation> {
    if ls == [] then None
    else
      var first := LabelIssue(ls[0], run, cutoff);
      if first.Some? then first else LabelsIssue(ls[1..], run, cutoff)
  }

  /** `_authorize_ref`. */
  function RefIssue(r: Ref, run: string, cutoff: nat): Option<Violation> {
    if r.labels == [] then Some(UnknownVisibility) else LabelsIssue(r.labels, run, cutoff)
  }

  function Where(events: seq<Event>, p: Event -> bool): seq<Event> {
    if events == [] then []
    else (if p(events[0]) then [events[0]] else []) + Where(events[1..], p)
  }

  function Named(id: Name): Event -> bool { (e: Event) => e.id == id }

  /** `_completed_event` and the label comparison that follows it. */
  function OriginIssue(events: seq<Event>, b: ContextBlock, run: string, cutoff: nat): Option<Violation>
    requires b.provenance.Some?
  {
    var matches := Where(events, Named(b.origin));
    if |matches| != 1 then Some(OriginOccurrenceMismatch)
    else
      var e := matches[0];
      if e.runId != run then Some(CrossRunEvidence)
      else if e.availableSeq.None? || !e.ended then Some(UnfinishedToolResult)
      else if e.availableSeq.value > cutoff then Some(FutureEvidence)
      else if e.kind != (if b.kind == ToolResult then ToolFinish else ResponseEvent) ||
              (b.kind == ToolResult && e.callId != b.toolCall) then Some(OriginOccurrenceMismatch)
      else if b.provenance.value.labels != EventLabel(e) then Some(ProvenanceLabelMismatch)
      else None
  }

  function BlockIssue(events: seq<Event>, b: ContextBlock, run: string, cutoff: nat, producer: Ref): Option<Violation> {
    if b.producer != producer then Some(CrossRunEvidence)
    else if !b.complete || b.provenance.None? then Some(UnknownVisibility)
    else if RefIssue(b.provenance.value, run, cutoff).Some? then RefIssue(b.provenance.value, run, cutoff)
    else
      match b.kind
      case SystemPrompt => if b.provenance.value.labels != PublicLabel() then Some(ProvenanceLabelMismatch) else None
      case TaskInstruction => if b.provenance.value.labels != PublicLabel() then Some(ProvenanceLabelMismatch) else None
      case OtherBlock => Some(UnknownVisibility)
      case _ => OriginIssue(events, b, run, cutoff)
  }

  function Bound(blocks: seq<ContextBlock>, ref: Ref): seq<ContextBlock> {
    if blocks == [] then []
    else (if blocks[0].binding.Some? && blocks[0].provenance == Some(ref) then [blocks[0]] else []) + Bound(blocks[1..], ref)
  }

  function Checks(run: string, checkedSeq: nat, call: Name): Event -> bool {
    (e: Event) => e.kind == StateCheck && e.runId == run && e.availableSeq == Some(checkedSeq) && e.callId == Some(call)
  }

  function ComparisonIssue(events: seq<Event>, blocks: seq<ContextBlock>, c: FileComparison, run: string, cutoff: nat): Option<Violation> {
    if c.checkedSeq > cutoff then Some(FutureEvidence)
    else if RefIssue(c.bindingRef, run, cutoff).Some? then RefIssue(c.bindingRef, run, cutoff)
    else if c.currentRef.Some? && RefIssue(c.currentRef.value, run, cutoff).Some? then RefIssue(c.currentRef.value, run, cutoff)
    else
      var bound := Bound(blocks, c.bindingRef);
      if |bound| != 1 then Some(FileComparisonBindingMismatch)
      else
        BoundHolds(blocks, c.bindingRef);
        var b := bound[0];
        if b.binding.value.sha != c.bindingRef.hash || b.binding.value.readEvent != b.origin || c.bindingRef.key != run
        then Some(FileComparisonBindingMismatch)
        else
          var checks := Where(events, Checks(run, c.checkedSeq, b.binding.value.readEvent));
          if |checks| != 1 then Some(FileComparisonStateCheckMismatch)
          else if c.currentRef.Some? && c.currentRef.value.labels != EventLabel(checks[0]) then Some(ProvenanceLabelMismatch)
          else None
  }

  lemma BoundHolds(blocks: seq<ContextBlock>, ref: Ref)
    ensures forall i :: 0 <= i < |Bound(blocks, ref)| ==> Bound(blocks, ref)[i].binding.Some?
  {
  }

  function BlocksIssue(events: seq<Event>, blocks: seq<ContextBlock>, run: string, cutoff: nat, producer: Ref): Option<Violation> {
    if blocks == [] then None
    else
      var first := BlockIssue(events, blocks[0], run, cutoff, producer);
      if first.Some? then first else BlocksIssue(events, blocks[1..], run, cutoff, producer)
  }

  function ComparisonsIssue(events: seq<Event>, blocks: seq<ContextBlock>, cs: seq<FileComparison>, run: string, cutoff: nat): Option<Violation> {
    if cs == [] then None
    else
      var first := ComparisonIssue(events, blocks, cs[0], run, cutoff);
      if first.Some? then first else ComparisonsIssue(events, blocks, cs[1..], run, cutoff)
  }

  /** `build_view`. */
  function BuildView(run: string, cutoff: nat, draft: Hash, blocks: seq<ContextBlock>, comparisons: seq<FileComparison>,
    events: seq<Event>, producer: Ref, policy: string, id: Name): Verdict
  {
    var first := BlocksIssue(events, blocks, run, cutoff, producer);
    if first.Some? then Rejected(first.value)
    else
      var second := ComparisonsIssue(events, blocks, comparisons, run, cutoff);
      if second.Some? then Rejected(second.value)
      else Accepted(DecisionView(id, producer, run, cutoff, draft, blocks, comparisons, policy,
                                 [Label(Runtime, Some(run), Some(cutoff), [])]))
  }

  // ---- The log a recorder keeps ----

  /** Every event has its own identity, and is available from its own sequence number on, or never. */
  ghost predicate RecorderLog(events: seq<Event>) {
    && (forall i, j :: 0 <= i < j < |events| ==> events[i].id != events[j].id)
    && (forall i :: 0 <= i < |events| && events[i].availableSeq.Some? ==> events[i].availableSeq.value == i)
  }

  lemma {:induction false} WhereSplit(a: seq<Event>, b: seq<Event>, p: Event -> bool)
    ensures Where(a + b, p) == Where(a, p) + Where(b, p)
  {
    if a == [] {
      assert a + b == b;
    } else {
      assert (a + b)[0] == a[0] && (a + b)[1..] == a[1..] + b;
      WhereSplit(a[1..], b, p);
      var first := if p(a[0]) then [a[0]] else [];
      assert first + (Where(a[1..], p) + Where(b, p)) == (first + Where(a[1..], p)) + Where(b, p);
    }
  }

  lemma {:induction false} WhereNone(events: seq<Event>, p: Event -> bool)
    requires forall i :: 0 <= i < |events| ==> !p(events[i])
    ensures Where(events, p) == []
  {
    if events != [] { WhereNone(events[1..], p); }
  }

  lemma {:induction false} WhereMembers(events: seq<Event>, p: Event -> bool)
    ensures forall e :: e in Where(events, p) <==> e in events && p(e)
  {
    if events != [] {
      WhereMembers(events[1..], p);
      assert events == [events[0]] + events[1..];
    }
  }

  /** Exactly the event at `i`, when no other one satisfies the test. */
  lemma WhereOnly(events: seq<Event>, p: Event -> bool, i: nat)
    requires i < |events| && p(events[i]) && forall j :: 0 <= j < |events| && j != i ==> !p(events[j])
    ensures Where(events, p) == [events[i]]
  {
    var one := [events[i]];
    assert Where(one, p) == one by { assert Where(one[1..], p) == []; }
    hide Where;
    assert events == events[..i] + (one + events[i + 1..]);
    WhereSplit(events[..i], one + events[i + 1..], p);
    WhereSplit(one, events[i + 1..], p);
    WhereNone(events[..i], p);
    WhereNone(events[i + 1..], p);
  }

  // ---- Prefix only ----

  lemma OriginPrefix(events: seq<Event>, k: nat, b: ContextBlock, run: string, cutoff: nat)
    requires RecorderLog(events) && cutoff < k <= |events| && b.provenance.Some?
    ensures OriginIssue(events[..k], b, run, cutoff).None? <==> OriginIssue(events, b, run, cutoff).None?
  {
    var p := Named(b.origin);
    assert events == events[..k] + events[k..];
    WhereSplit(events[..k], events[k..], p);
    if j :| 0 <= j < |events| && p(events[j]) {
      WhereOnly(events, p, j);
      if j < k {
        WhereOnly(events[..k], p, j);
      } else {
        WhereNone(events[..k], p);
      }
    } else {
      WhereNone(events, p);
      WhereNone(events[..k], p);
    }
  }

  lemma {:induction false} BlocksPrefix(events: seq<Event>, k: nat, blocks: seq<ContextBlock>, run: string, cutoff: nat, producer: Ref)
    requires RecorderLog(events) && cutoff < k <= |events|
    ensures BlocksIssue(events[..k], blocks, run, cutoff, producer).None? <==> BlocksIssue(events, blocks, run, cutoff, producer).None?
  {
    if blocks != [] {
      if blocks[0].provenance.Some? { OriginPrefix(events, k, blocks[0], run, cutoff); }
      BlocksPrefix(events, k, blocks[1..], run, cutoff, producer);
    }
  }

  lemma {:induction false} ComparisonsPrefix(events: seq<Event>, k: nat, blocks: seq<ContextBlock>, cs: seq<FileComparison>, run: string, cutoff: nat)
    requires RecorderLog(events) && cutoff < k <= |events|
    ensures ComparisonsIssue(events[..k], blocks, cs, run, cutoff) == ComparisonsIssue(events, blocks, cs, run, cutoff)
  {
    if cs != [] {
      ComparisonsPrefix(events, k, blocks, cs[1..], run, cutoff);
      var bound := Bound(blocks, cs[0].bindingRef);
      if cs[0].checkedSeq <= cutoff && |bound| == 1 {
        BoundHolds(blocks, cs[0].bindingRef);
        var p := Checks(run, cs[0].checkedSeq, bound[0].binding.value.readEvent);
        assert events == events[..k] + events[k..];
        WhereSplit(events[..k], events[k..], p);
        WhereNone(events[k..], p);
      }
    }
  }

  /** A view is accepted against any prefix longer than its cutoff exactly when it is accepted against the whole log, and
      it is the same view. */
  lemma PrefixOnly(run: string, cutoff: nat, draft: Hash, blocks: seq<ContextBlock>, comparisons: seq<FileComparison>,
    events: seq<Event>, k: nat, producer: Ref, policy: string, id: Name)
    requires RecorderLog(events) && cutoff < k <= |events|
    ensures var early := BuildView(run, cutoff, draft, blocks, comparisons, events[..k], producer, policy, id);
      var late := BuildView(run, cutoff, draft, blocks, comparisons, events, producer, policy, id);
      (early.Accepted? <==> late.Accepted?) && (early.Accepted? ==> early == late)
  {
    BlocksPrefix(events, k, blocks, run, cutoff, producer);
    ComparisonsPrefix(events, k, blocks, comparisons, run, cutoff);
  }

  /** Nothing recorded after the cutoff, whatever it is, can change what is accepted or what the view says. */
  lemma FutureIrrelevant(run: string, cutoff: nat, draft: Hash, blocks: seq<ContextBlock>, comparisons: seq<FileComparison>,
    one: seq<Event>, other: seq<Event>, producer: Ref, policy: string, id: Name)
    requires RecorderLog(one) && RecorderLog(other) && cutoff < |one| && cutoff < |other| && one[..cutoff + 1] == other[..cutoff + 1]
    ensures var a := BuildView(run, cutoff, draft, blocks, comparisons, one, producer, policy, id);
      var b := BuildView(run, cutoff, draft, blocks, comparisons, other, producer, policy, id);
      (a.Accepted? <==> b.Accepted?) && (a.Accepted? ==> a == b)
  {
    PrefixOnly(run, cutoff, draft, blocks, comparisons, one, cutoff + 1, producer, policy, id);
    PrefixOnly(run, cutoff, draft, blocks, comparisons, other, cutoff + 1, producer, policy, id);
  }

  // ---- What is accepted, and what the view then holds ----

  /** Evidence a view may rest on: labelled, untainted, public, or of this run and available by the cutoff. */
  ghost predicate Authorized(r: Ref, run: string, cutoff: nat) {
    && r.labels != []
    && forall i :: 0 <= i < |r.labels| ==>
         var l := r.labels[i];
         && l.taints == [] && (l.availableSeq.Some? ==> l.availableSeq.value <= cutoff)
         && ((l.scope == Public && l.runId.None?) || (l.scope == Runtime && l.runId == Some(run) && l.availableSeq.Some?))
  }

  /** The labels an untainted event gives what it produced. */
  ghost predicate CarriesLabel(labels: seq<Label>, e: Event) {
    && |labels| == 1 && labels[0] == Label(Runtime, Some(e.runId), e.availableSeq, [])
    && forall i :: 0 <= i < |e.payload.labels| ==> e.payload.labels[i].taints == []
  }

  /** Event `j` is the one event the block names, and it is completed evidence of the block's kind, by the cutoff. */
  ghost predicate Origin(events: seq<Event>, b: ContextBlock, run: string, cutoff: nat, j: int) {
    && 0 <= j < |events| && events[j].id == b.origin && (forall k :: 0 <= k < |events| && k != j ==> events[k].id != b.origin)
    && events[j].runId == run && events[j].ended && events[j].availableSeq.Some? && events[j].availableSeq.value <= cutoff
    && (if b.kind == ToolResult then events[j].kind == ToolFinish && events[j].callId == b.toolCall else events[j].kind == ResponseEvent)
    && b.provenance.Some? && CarriesLabel(b.provenance.value.labels, events[j])
  }

  /** A block a view may show: complete, of this producer, on authorized evidence; a public constant, or a response or tool
      result of the one completed event it names. */
  ghost predicate Visible(events: seq<Event>, b: ContextBlock, run: string, cutoff: nat, producer: Ref) {
    && b.producer == producer && b.complete && b.provenance.Some? && Authorized(b.provenance.value, run, cutoff)
    && (b.kind == SystemPrompt || b.kind == TaskInstruction ==> b.provenance.value.labels == [Label(Public, None, None, [])])
    && (b.kind == AssistantResponse || b.kind == ToolResult ==> exists j :: Origin(events, b, run, cutoff, j))
    && b.kind != OtherBlock
  }

  lemma {:induction false} LabelsAllow(ls: seq<Label>, run: string, cutoff: nat)
    ensures LabelsIssue(ls, run, cutoff).None? <==> forall i :: 0 <= i < |ls| ==> LabelIssue(ls[i], run, cutoff).None?
  {
    if ls != [] { LabelsAllow(ls[1..], run, cutoff); }
  }

  lemma AuthorizedExactly(r: Ref, run: string, cutoff: nat)
    ensures RefIssue(r, run, cutoff).None? <==> Authorized(r, run, cutoff)
  {
    LabelsAllow(r.labels, run, cutoff);
  }

  /** One match in the list is one match by index. */
  lemma {:induction false} WhereUnique(events: seq<Event>, p: Event -> bool) returns (j: nat)
    requires |Where(events, p)| == 1
    ensures j < |events| && p(events[j]) && Where(events, p) == [events[j]]
    ensures forall k :: 0 <= k < |events| && k != j ==> !p(events[k])
  {
    if p(events[0]) {
      j := 0;
      WhereMembers(events[1..], p);
      forall k | 0 < k < |events| ensures !p(events[k]) { assert events[1..][k - 1] == events[k] && events[k] in events[1..]; }
    } else {
      var i := WhereUnique(events[1..], p);
      j := i + 1;
      forall k | 0 <= k < |events| && k != j ensures !p(events[k]) { if k > 0 { assert events[1..][k - 1] == events[k]; } }
    }
  }

  lemma NoTaintsExactly(labels: seq<Label>)
    ensures TaintsOf(labels) == {} <==> forall i :: 0 <= i < |labels| ==> labels[i].taints == []
  {
    forall i | 0 <= i < |labels| && labels[i].taints != [] ensures TaintsOf(labels) != {} {
      var x := labels[i].taints[0];
      assert x in labels[i].taints;
      assert x in TaintsOf(labels);
    }
  }

  /** An untainted label is the event's own exactly when the event's payload is untainted too. */
  lemma LabelExactly(labels: seq<Label>, e: Event)
    requires forall i :: 0 <= i < |labels| ==> labels[i].taints == []
    ensures labels == EventLabel(e) <==> CarriesLabel(labels, e)
  {
    NoTaintsExactly(e.payload.labels);
    if TaintsOf(e.payload.labels) != {} {
      var x :| x in TaintsOf(e.payload.labels);
      assert x in SortedKeys(TaintsOf(e.payload.labels));
    }
  }

  lemma OriginExactly(events: seq<Event>, b: ContextBlock, run: string, cutoff: nat)
    requires b.provenance.Some? && Authorized(b.provenance.value, run, cutoff) && (b.kind == AssistantResponse || b.kind == ToolResult)
    ensures OriginIssue(events, b, run, cutoff).None? <==> exists j :: Origin(events, b, run, cutoff, j)
  {
    var p := Named(b.origin);
    hide Where, EventLabel;
    if |Where(events, p)| == 1 {
      var j := WhereUnique(events, p);
      LabelExactly(b.provenance.value.labels, events[j]);
      assert OriginIssue(events, b, run, cutoff).None? <==> Origin(events, b, run, cutoff, j);
    }
    if j :| Origin(events, b, run, cutoff, j) {
      WhereOnly(events, p, j);
      LabelExactly(b.provenance.value.labels, events[j]);
    }
  }

  lemma VisibleExactly(events: seq<Event>, b: ContextBlock, run: string, cutoff: nat, producer: Ref)
    ensures BlockIssue(events, b, run, cutoff, producer).None? <==> Visible(events, b, run, cutoff, producer)
  {
    hide RefIssue, Authorized, OriginIssue, Origin;
    if b.provenance.Some? {
      AuthorizedExactly(b.provenance.value, run, cutoff);
      if Authorized(b.provenance.value, run, cutoff) && (b.kind == AssistantResponse || b.kind == ToolResult) {
        OriginExactly(events, b, run, cutoff);
      }
    }
  }

  lemma {:induction false} BlocksExactly(events: seq<Event>, blocks: seq<ContextBlock>, run: string, cutoff: nat, producer: Ref)
    ensures BlocksIssue(events, blocks, run, cutoff, producer).None? <==>
      forall i :: 0 <= i < |blocks| ==> Visible(events, blocks[i], run, cutoff, producer)
  {
    hide BlockIssue, Visible;
    if blocks != [] {
      VisibleExactly(events, blocks[0], run, cutoff, producer);
      BlocksExactly(events, blocks[1..], run, cutoff, producer);
    }
  }

  lemma AcceptedVisible(run: string, cutoff: nat, blocks: seq<ContextBlock>, events: seq<Event>, producer: Ref, i: nat)
    requires BlocksIssue(events, blocks, run, cutoff, producer).None? && i < |blocks|
    ensures Visible(events, blocks[i], run, cutoff, producer)
  {
    BlocksExactly(events, blocks, run, cutoff, producer);
    hide Visible;
  }

  /** Block `m` is the one block of the view that binds the file the comparison is about. */
  ghost predicate Binds(blocks: seq<ContextBlock>, ref: Ref, m: int) {
    && 0 <= m < |blocks| && blocks[m].binding.Some? && blocks[m].provenance == Some(ref)
    && forall k :: 0 <= k < |blocks| && k != m ==> blocks[k].binding.None? || blocks[k].provenance != Some(ref)
  }

  /** Event `j` is the one state check of this run for this read at the number the comparison carries. */
  ghost predicate ChecksAt(events: seq<Event>, c: FileComparison, read: Name, run: string, j: int) {
    && 0 <= j < |events| && IsCheck(events[j], c, read, run) && forall k :: 0 <= k < |events| && k != j ==> !IsCheck(events[k], c, read, run)
  }

  predicate IsCheck(e: Event, c: FileComparison, read: Name, run: string) {
    e.kind == StateCheck && e.runId == run && e.availableSeq == Some(c.checkedSeq) && e.callId == Some(read)
  }

  /** A comparison a view may show: made by the cutoff, on authorized evidence, of the file one block of the view binds, with
      one state check of this run that says so at the very number it carries and labels the current bytes. */
  ghost predicate Checked(events: seq<Event>, blocks: seq<ContextBlock>, c: FileComparison, run: string, cutoff: nat) {
    && c.checkedSeq <= cutoff && Authorized(c.bindingRef, run, cutoff)
    && (c.currentRef.Some? ==> Authorized(c.currentRef.value, run, cutoff))
    && c.bindingRef.key == run
    && exists m, j :: CheckedBy(events, blocks, c, run, m, j)
  }

  ghost predicate CheckedBy(events: seq<Event>, blocks: seq<ContextBlock>, c: FileComparison, run: string, m: int, j: int) {
    && Binds(blocks, c.bindingRef, m) && blocks[m].binding.value.sha == c.bindingRef.hash && blocks[m].binding.value.readEvent == blocks[m].origin
    && ChecksAt(events, c, blocks[m].origin, run, j)
    && (c.currentRef.Some? ==> CarriesLabel(c.currentRef.value.labels, events[j]))
  }

  lemma {:induction false} BoundMembers(blocks: seq<ContextBlock>, ref: Ref)
    ensures forall b :: b in Bound(blocks, ref) <==> b in blocks && b.binding.Some? && b.provenance == Some(ref)
  {
    if blocks != [] {
      BoundMembers(blocks[1..], ref);
      assert blocks == [blocks[0]] + blocks[1..];
    }
  }

  lemma {:induction false} BoundUnique(blocks: seq<ContextBlock>, ref: Ref) returns (m: nat)
    requires |Bound(blocks, ref)| == 1
    ensures Binds(blocks, ref, m) && Bound(blocks, ref) == [blocks[m]]
  {
    if blocks[0].binding.Some? && blocks[0].provenance == Some(ref) {
      m := 0;
      BoundMembers(blocks[1..], ref);
      forall k | 0 < k < |blocks| ensures blocks[k].binding.None? || blocks[k].provenance != Some(ref) {
        assert blocks[1..][k - 1] == blocks[k] && blocks[k] in blocks[1..];
      }
    } else {
      var i := BoundUnique(blocks[1..], ref);
      m := i + 1;
      forall k | 0 <= k < |blocks| && k != m ensures blocks[k].binding.None? || blocks[k].provenance != Some(ref) {
        if k > 0 { assert blocks[1..][k - 1] == blocks[k]; }
      }
    }
  }

  lemma {:induction false} BoundNone(blocks: seq<ContextBlock>, ref: Ref)
    requires forall k :: 0 <= k < |blocks| ==> blocks[k].binding.None? || blocks[k].provenance != Some(ref)
    ensures Bound(blocks, ref) == []
  {
    if blocks != [] { BoundNone(blocks[1..], ref); }
  }

  lemma {:induction false} BoundOnly(blocks: seq<ContextBlock>, ref: Ref, m: nat)
    requires Binds(blocks, ref, m)
    ensures Bound(blocks, ref) == [blocks[m]]
  {
    forall k | 0 <= k < |blocks| - 1 && k != m - 1 ensures blocks[1..][k].binding.None? || blocks[1..][k].provenance != Some(ref) {
      assert blocks[1..][k] == blocks[k + 1];
    }
    if m == 0 { BoundNone(blocks[1..], ref); } else { BoundOnly(blocks[1..], ref, m - 1); }
  }

  lemma ChecksExactly(events: seq<Event>, c: FileComparison, read: Name, run: string)
    ensures |Where(events, Checks(run, c.checkedSeq, read))| == 1 <==> exists j :: ChecksAt(events, c, read, run, j)
    ensures forall j :: ChecksAt(events, c, read, run, j) ==> Where(events, Checks(run, c.checkedSeq, read)) == [events[j]]
  {
    var p := Checks(run, c.checkedSeq, read);
    hide Where;
    if |Where(events, p)| == 1 {
      var j := WhereUnique(events, p);
      assert ChecksAt(events, c, read, run, j);
    }
    forall j | ChecksAt(events, c, read, run, j) ensures Where(events, p) == [events[j]] { WhereOnly(events, p, j); }
  }

  /** With its block found, a comparison passes exactly when its check is there and labels it. */
  lemma BoundExactly(events: seq<Event>, blocks: seq<ContextBlock>, c: FileComparison, run: string, cutoff: nat, m: nat)
    requires c.checkedSeq <= cutoff && Authorized(c.bindingRef, run, cutoff) && (c.currentRef.Some? ==> Authorized(c.currentRef.value, run, cutoff))
    requires Binds(blocks, c.bindingRef, m) && Bound(blocks, c.bindingRef) == [blocks[m]]
    ensures ComparisonIssue(events, blocks, c, run, cutoff).None? <==> c.bindingRef.key == run && exists j :: CheckedBy(events, blocks, c, run, m, j)
  {
    AuthorizedExactly(c.bindingRef, run, cutoff);
    var current := if c.currentRef.Some? then c.currentRef.value else c.bindingRef;
    AuthorizedExactly(current, run, cutoff);
    var read := blocks[m].binding.value.readEvent;
    ChecksExactly(events, c, read, run);
    hide Where, Bound, RefIssue, Binds, ChecksAt, EventLabel, CarriesLabel;
    if j :| ChecksAt(events, c, read, run, j) {
      InRange(events, c, read, run, j);
      UntaintedLabels(current, run, cutoff);
      LabelExactly(current.labels, events[j]);
      assert Where(events, Checks(run, c.checkedSeq, read)) == [events[j]];
      OneCheck(events, blocks, c, run, m, j);
    }
  }

  lemma InRange(events: seq<Event>, c: FileComparison, read: Name, run: string, j: int)
    requires ChecksAt(events, c, read, run, j)
    ensures 0 <= j < |events|
  {
  }

  lemma UntaintedLabels(r: Ref, run: string, cutoff: nat)
    requires Authorized(r, run, cutoff)
    ensures forall i :: 0 <= i < |r.labels| ==> r.labels[i].taints == []
  {
  }

  lemma OneCheck(events: seq<Event>, blocks: seq<ContextBlock>, c: FileComparison, run: string, m: nat, j: int)
    requires Binds(blocks, c.bindingRef, m) && ChecksAt(events, c, blocks[m].binding.value.readEvent, run, j)
    ensures (exists k :: CheckedBy(events, blocks, c, run, m, k)) <==> CheckedBy(events, blocks, c, run, m, j)
  {
    hide CarriesLabel;
  }

  lemma CheckedExactly(events: seq<Event>, blocks: seq<ContextBlock>, c: FileComparison, run: string, cutoff: nat)
    ensures ComparisonIssue(events, blocks, c, run, cutoff).None? <==> Checked(events, blocks, c, run, cutoff)
  {
    AuthorizedExactly(c.bindingRef, run, cutoff);
    if c.currentRef.Some? { AuthorizedExactly(c.currentRef.value, run, cutoff); }
    hide Authorized, RefIssue, Bound, Where;
    if c.checkedSeq <= cutoff && Authorized(c.bindingRef, run, cutoff) && (c.currentRef.Some? ==> Authorized(c.currentRef.value, run, cutoff)) {
      if |Bound(blocks, c.bindingRef)| == 1 {
        var m := BoundUnique(blocks, c.bindingRef);
        BoundExactly(events, blocks, c, run, cutoff, m);
        hide ComparisonIssue, ChecksAt, CarriesLabel;
        forall n, j | CheckedBy(events, blocks, c, run, n, j) ensures n == m { assert Binds(blocks, c.bindingRef, n); }
      } else {
        forall n, j | CheckedBy(events, blocks, c, run, n, j) ensures false { BoundOnly(blocks, c.bindingRef, n); }
      }
    }
  }

  lemma {:induction false} ComparisonsExactly(events: seq<Event>, blocks: seq<ContextBlock>, cs: seq<FileComparison>, run: string, cutoff: nat)
    ensures ComparisonsIssue(events, blocks, cs, run, cutoff).None? <==> forall k :: 0 <= k < |cs| ==> Checked(events, blocks, cs[k], run, cutoff)
  {
    hide ComparisonIssue, Checked;
    if cs != [] {
      CheckedExactly(events, blocks, cs[0], run, cutoff);
      ComparisonsExactly(events, blocks, cs[1..], run, cutoff);
    }
  }

  /** A view is accepted exactly when every block is visible and every comparison checked, and it then holds exactly those
      blocks and comparisons, for that draft, run, cutoff and policy. */
  lemma ViewExactly(run: string, cutoff: nat, draft: Hash, blocks: seq<ContextBlock>, comparisons: seq<FileComparison>,
    events: seq<Event>, producer: Ref, policy: string, id: Name)
    ensures var built := BuildView(run, cutoff, draft, blocks, comparisons, events, producer, policy, id);
      && (built.Accepted? <==>
            && (forall i :: 0 <= i < |blocks| ==> Visible(events, blocks[i], run, cutoff, producer))
            && (forall k :: 0 <= k < |comparisons| ==> Checked(events, blocks, comparisons[k], run, cutoff)))
      && (built.Accepted? ==>
            var v := built.view;
            && v.blocks == blocks && v.comparisons == comparisons && v.cutoffSeq == cutoff && v.draftHash == draft && v.policy == policy
            && v.id == id && v.runId == run && v.producer == producer
            && |v.labels| == 1 && v.labels[0] == Label(Runtime, Some(run), Some(cutoff), []))
  {
    BlocksExactly(events, blocks, run, cutoff, producer);
    ComparisonsExactly(events, blocks, comparisons, run, cutoff);
    hide Visible, Checked;
  }

  /** An accepted view shows only visible evidence. */
  lemma ViewVisible(run: string, cutoff: nat, draft: Hash, blocks: seq<ContextBlock>, comparisons: seq<FileComparison>,
    events: seq<Event>, producer: Ref, policy: string, id: Name)
    requires BuildView(run, cutoff, draft, blocks, comparisons, events, producer, policy, id).Accepted?
    ensures var v := BuildView(run, cutoff, draft, blocks, comparisons, events, producer, policy, id).view;
      |v.blocks| == |blocks| && forall i :: 0 <= i < |v.blocks| ==> Visible(events, v.blocks[i], v.runId, v.cutoffSeq, v.producer)
  {
    ViewExactly(run, cutoff, draft, blocks, comparisons, events, producer, policy, id);
    hide Visible, Checked, BuildView;
  }

  /** Every comparison an accepted view shows is bound by one of its blocks and backed by one state check. */
  lemma AcceptedChecked(run: string, cutoff: nat, draft: Hash, blocks: seq<ContextBlock>, comparisons: seq<FileComparison>,
    events: seq<Event>, producer: Ref, policy: string, id: Name)
    requires BuildView(run, cutoff, draft, blocks, comparisons, events, producer, policy, id).Accepted?
    ensures var v := BuildView(run, cutoff, draft, blocks, comparisons, events, producer, policy, id).view;
      |v.comparisons| == |comparisons| && forall k :: 0 <= k < |v.comparisons| ==> Checked(events, v.blocks, v.comparisons[k], v.runId, v.cutoffSeq)
  {
    ViewExactly(run, cutoff, draft, blocks, comparisons, events, producer, policy, id);
    hide Visible, Checked, BuildView;
  }
}
