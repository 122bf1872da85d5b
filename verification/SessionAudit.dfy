/** The independent session audit, and exactly when it finds nothing to report. */
module SessionAudit {
  import opened Ordering
  import opened CanonicalManifest
  import opened ForensicsRecords
  import opened SessionInvariant
  import opened SessionDeeds
  import opened SessionRun
  import HookEffects
  import SessionHooks
  import SessionTruth
  import SessionWrites

  datatype Issue =
    | UnvalidatedProfile | NoExternalBinding | ProducerEvidence | ConfigEvidence | ConfigIdentity
    | InvalidEvent(id: Id) | InvalidCheckpoint(id: Id) | InvalidReceipt(id: Id)
    | NoDurableCorrelation(operation: string) | IncompleteCorrelation | ReceiptCorrelation

  // ---- One record of each kind ----

  predicate EventClean(s: Setting, d: Disk, e: AgentEvent) {
    && e.session == s.meta.session
    && e.source.Some? && Verified(s, d, e.source.value) && e.source.value.source == HookSanitized
    && e.producer == s.meta.producerRef
    && ProvenanceClean(s, d, e.provenance, e.id, [e.source.value])
    && Stored(s, d, EventDoc(e))
    && ObservationOf(d, e).Some? && d.external == Some(ObservationOf(d, e).value.externalHash)
  }

  predicate CheckpointClean(s: Setting, d: Disk, c: Checkpoint) {
    && c.session == s.meta.session && c.producer == s.meta.producerRef
    && CanonicalText(c.gitBase, EntriesOf(c.paths)).Ok?
    && var m := ManifestDoc(CanonicalText(c.gitBase, EntriesOf(c.paths)).value);
    && s.digest(m) == c.manifestHash
    && c.manifestRef.hash in d.blobs && d.blobs[c.manifestRef.hash] == m
    && c.manifestHash in d.manifests && d.manifests[c.manifestHash] == m
    && (forall i :: 0 <= i < |c.paths| ==>
          (Verified(s, d, c.paths[i].stateRef) &&
           (c.paths[i].contentRef.Some? ==> Verified(s, d, c.paths[i].contentRef.value))))
    && Stored(s, d, CheckpointDoc(c))
    && ProvenanceClean(s, d, c.provenance, c.id, [c.manifestRef])
  }

  /** The checks on a receipt, once its checkpoint, pending marker, pre-event and result event have been found. */
  predicate ReceiptMatches(s: Setting, d: Disk, r: Receipt, c: Checkpoint, p: Pending, pre: AgentEvent, post: AgentEvent) {
    var preRef := RecordRef(s, Events, pre.id, EventDoc(pre));
    var postRef := RecordRef(s, Events, post.id, EventDoc(post));
    && r.session == s.meta.session == c.session
    && r.testedHash == c.manifestHash
    && r.configRef == Some(s.meta.configRef) && r.specHash == s.meta.configRef.hash && r.producer == s.meta.producerRef
    && p.preEventRef == preRef
    && ObservationOf(d, post).Some? && TrustedResult(ObservationOf(d, post).value) == Some((r.passed, r.exitCode))
    && Cites(r.passedRefs, postRef) && Cites(r.exitCodeRefs, postRef)
    && Cites(r.startedRefs, preRef) && Cites(r.finishedRefs, postRef)
    && p.preSequence == pre.sequence && r.sequence.Some? && r.sequence.value > post.sequence
    && d.external == Some(p.externalHash) && p.session == s.meta.session && p.checkpointId == c.id
    && p.testedHash == c.manifestHash && r.operation.Some? && p.toolUseId == r.operation.value.occurrence
    && p.specHash == r.specHash && p.command == r.command
    && Stored(s, d, ReceiptDoc(r))
    && ProvenanceClean(s, d, r.provenance, r.id, [p.preEventRef, p.checkpointRef, postRef, s.meta.configRef])
  }

  ghost predicate ReceiptClean(s: Setting, d: Disk, r: Receipt) {
    && r.checkpointId in d.checkpoints && r.operation.Some?
    && var op := r.operation.value.occurrence;
    && op in d.pending
    && exists a, b :: PreOf(d, a, op) && ResultOf(d, b, op) &&
         ReceiptMatches(s, d, r, d.checkpoints[r.checkpointId], d.pending[op], d.events[a], d.events[b])
  }

  // ---- The whole session ----

  predicate ConfigClean(s: Setting, d: Disk) {
    && Verified(s, d, s.meta.producerRef) && Verified(s, d, s.meta.configRef)
    && s.meta.producerRef.source == ProducerSource && s.meta.configRef.source == ConfigSource
    && s.meta.specHash == s.meta.configRef.hash
    && d.blobs[s.meta.configRef.hash] == VerifierSpecDoc(s.meta.verifier)
  }

  ghost predicate OnePre(d: Disk) {
    forall a, b, op :: PreOf(d, a, op) && PreOf(d, b, op) ==> a == b
  }

  ghost predicate OneResult(d: Disk) {
    forall a, b, op :: ResultOf(d, a, op) && ResultOf(d, b, op) ==> a == b
  }

  ghost predicate EventsClean(s: Setting, d: Disk) {
    (forall id :: id in d.events ==> EventClean(s, d, d.events[id])) && OnePre(d) && OneResult(d)
  }

  ghost predicate CheckpointsClean(s: Setting, d: Disk) {
    forall id :: id in d.checkpoints ==> CheckpointClean(s, d, d.checkpoints[id])
  }

  predicate SameOperation(a: Receipt, b: Receipt) {
    a.operation.Some? && b.operation.Some? && a.operation.value.occurrence == b.operation.value.occurrence
  }

  ghost predicate OneReceipt(d: Disk) {
    forall a, b :: a in d.receipts && b in d.receipts && SameOperation(d.receipts[a], d.receipts[b]) ==> a == b
  }

  ghost predicate ReceiptsClean(s: Setting, d: Disk) {
    (forall id :: id in d.receipts ==> ReceiptClean(s, d, d.receipts[id])) && OneReceipt(d)
  }

  predicate Eligible(d: Disk, id: Id) {
    id in d.events && ObservationOf(d, d.events[id]).Some? && TrustedResult(ObservationOf(d, d.events[id]).value).Some?
  }

  ghost predicate HasReceipt(d: Disk, op: string) {
    exists id :: id in d.receipts && d.receipts[id].operation.Some? && d.receipts[id].operation.value.occurrence == op
  }

  ghost predicate Correlated(d: Disk) {
    && (forall id, op :: PreOf(d, id, op) ==> op in d.pending && exists q :: ResultOf(d, q, op))
    && (forall id, op :: ResultOf(d, id, op) ==> exists q :: PreOf(d, q, op))
    && (forall id, op :: ResultOf(d, id, op) && Eligible(d, id) ==> HasReceipt(d, op))
  }

  /** Everything the audit accepts, over arbitrary stored data. */
  ghost predicate SessionClean(s: Setting, d: Disk) {
    && s.meta.validatedProfile && d.external.Some? && ConfigClean(s, d)
    && EventsClean(s, d) && CheckpointsClean(s, d) && ReceiptsClean(s, d) && Correlated(d)
  }

  // ---- What a clean session is, told over the stored data ----

  /** The event checks, taken together, say that every event is true and that no operation has two pre-events or two
      results. */
  lemma EventsExactly(s: Setting, d: Disk)
    ensures EventsClean(s, d) <==> SessionTruth.TrueEvents(s, d)
  {
    hide EventClean, PreOf, ResultOf, SessionTruth.TrueEvent, SessionTruth.PreEvent, SessionTruth.ResultEvent;
    forall e ensures EventClean(s, d, e) <==> SessionTruth.TrueEvent(s, d, e) { EventIs(s, d, e); }
    forall id, op
      ensures PreOf(d, id, op) <==> SessionTruth.PreEvent(d, id, op)
      ensures ResultOf(d, id, op) <==> SessionTruth.ResultEvent(d, id, op)
    {
      SessionTruth.VerifierEventExactly(d, id, op);
    }
  }

  lemma EventIs(s: Setting, d: Disk, e: AgentEvent)
    ensures EventClean(s, d, e) <==> SessionTruth.TrueEvent(s, d, e)
  {
    hide ProvenanceClean, SessionTruth.TrueEvent;
    SessionTruth.EventExactly(s, d, e);
  }

  lemma CheckpointIs(s: Setting, d: Disk, c: Checkpoint)
    ensures CheckpointClean(s, d, c) <==> SessionTruth.TrueCheckpoint(s, d, c)
  {
    hide ProvenanceClean, SessionTruth.Derived, CanonicalText, EntriesOf, SessionTruth.ManifestOf;
    SessionTruth.DerivedExactly(s, d, c.provenance, c.id, [c.manifestRef]);
    forall text ensures SessionTruth.ManifestOf(c, text) <==> CanonicalText(c.gitBase, EntriesOf(c.paths)) == Ok(text) {
      SessionTruth.ManifestExactly(c, text);
    }
  }

  /** The checkpoint checks say that every checkpoint is true. */
  lemma CheckpointsExactly(s: Setting, d: Disk)
    ensures CheckpointsClean(s, d) <==> forall id :: id in d.checkpoints ==> SessionTruth.TrueCheckpoint(s, d, d.checkpoints[id])
  {
    hide CheckpointClean, SessionTruth.TrueCheckpoint;
    forall c ensures CheckpointClean(s, d, c) <==> SessionTruth.TrueCheckpoint(s, d, c) { CheckpointIs(s, d, c); }
  }

  lemma MatchIs(s: Setting, d: Disk, r: Receipt, c: Checkpoint, p: Pending, pre: AgentEvent, post: AgentEvent)
    ensures ReceiptMatches(s, d, r, c, p, pre, post) <==> SessionTruth.Bound(s, d, r, c, p, pre, post)
  {
    hide ProvenanceClean, SessionTruth.Derived, TrustedResult, SessionTruth.OutcomeIs, SessionTruth.SaysOf, ObservationOf, Cites, SessionTruth.Mentions;
    var preRef, postRef := RecordRef(s, Events, pre.id, EventDoc(pre)), RecordRef(s, Events, post.id, EventDoc(post));
    SessionTruth.DerivedExactly(s, d, r.provenance, r.id, [p.preEventRef, p.checkpointRef, postRef, s.meta.configRef]);
    SessionTruth.ObservationExactly(d, post);
    forall refs, ref ensures Cites(refs, ref) <==> SessionTruth.Mentions(refs, ref) { CitesExactly(refs, ref); }
    forall o ensures TrustedResult(o) == Some((r.passed, r.exitCode)) <==> SessionTruth.OutcomeIs(o, r.passed, r.exitCode) {
      SessionTruth.OutcomeIsExactly(o, r.passed, r.exitCode);
    }
  }

  lemma CitesExactly(refs: seq<Ref>, r: Ref)
    ensures Cites(refs, r) <==> SessionTruth.Mentions(refs, r)
  {
    if Cites(refs, r) {
      var i :| 0 <= i < |refs| && Occurrence(refs[i]) == Occurrence(r);
      assert SessionTruth.SamePlace(refs[i], r);
    }
    if SessionTruth.Mentions(refs, r) {
      var i :| 0 <= i < |refs| && SessionTruth.SamePlace(refs[i], r);
      assert Occurrence(refs[i]) == Occurrence(r);
    }
  }

  lemma ReceiptIs(s: Setting, d: Disk, r: Receipt)
    ensures ReceiptClean(s, d, r) <==> SessionTruth.TrueReceipt(s, d, r)
  {
    hide ReceiptMatches, SessionTruth.Bound, IsExactEvent, SessionTruth.SaysOf;
    if r.checkpointId in d.checkpoints && r.operation.Some? && r.operation.value.occurrence in d.pending {
      var op := r.operation.value.occurrence;
      var c, p := d.checkpoints[r.checkpointId], d.pending[op];
      if ReceiptClean(s, d, r) {
        var a, b :| PreOf(d, a, op) && ResultOf(d, b, op) && ReceiptMatches(s, d, r, c, p, d.events[a], d.events[b]);
        SessionTruth.VerifierEventExactly(d, a, op);
        SessionTruth.VerifierEventExactly(d, b, op);
        MatchIs(s, d, r, c, p, d.events[a], d.events[b]);
        assert SessionTruth.PreEvent(d, a, op) && SessionTruth.ResultEvent(d, b, op) && SessionTruth.Bound(s, d, r, c, p, d.events[a], d.events[b]);
      }
      if SessionTruth.TrueReceipt(s, d, r) {
        var a, b :| SessionTruth.PreEvent(d, a, op) && SessionTruth.ResultEvent(d, b, op) && SessionTruth.Bound(s, d, r, c, p, d.events[a], d.events[b]);
        SessionTruth.VerifierEventExactly(d, a, op);
        SessionTruth.VerifierEventExactly(d, b, op);
        MatchIs(s, d, r, c, p, d.events[a], d.events[b]);
        assert PreOf(d, a, op) && ResultOf(d, b, op) && ReceiptMatches(s, d, r, c, p, d.events[a], d.events[b]);
      }
    }
  }

  /** The receipt checks say that every receipt is bound to its own checkpoint, marker, pre-event and result event, and that
      no operation has two. */
  lemma ReceiptsExactly(s: Setting, d: Disk)
    ensures ReceiptsClean(s, d) <==> SessionTruth.TrueReceipts(s, d)
  {
    hide ReceiptClean, SessionTruth.TrueReceipt;
    forall r ensures ReceiptClean(s, d, r) <==> SessionTruth.TrueReceipt(s, d, r) { ReceiptIs(s, d, r); }
    if OneReceipt(d) {
      forall a, b, op | SessionTruth.ReceiptFor(d, a, op) && SessionTruth.ReceiptFor(d, b, op) ensures a == b {
        assert SameOperation(d.receipts[a], d.receipts[b]);
      }
    }
    if SessionTruth.TrueReceipts(s, d) {
      forall a, b | a in d.receipts && b in d.receipts && SameOperation(d.receipts[a], d.receipts[b]) ensures a == b {
        var op := d.receipts[a].operation.value.occurrence;
        assert SessionTruth.ReceiptFor(d, a, op) && SessionTruth.ReceiptFor(d, b, op);
      }
    }
  }

  lemma CorrelatedExactly(d: Disk)
    ensures Correlated(d) <==> SessionTruth.Complete(d)
  {
    hide PreOf, ResultOf, SessionTruth.PreEvent, SessionTruth.ResultEvent, Eligible, SessionTruth.Conclusive;
    forall id, op
      ensures PreOf(d, id, op) <==> SessionTruth.PreEvent(d, id, op)
      ensures ResultOf(d, id, op) <==> SessionTruth.ResultEvent(d, id, op)
      ensures Eligible(d, id) <==> SessionTruth.Conclusive(d, id)
      ensures HasReceipt(d, op) <==> exists q :: SessionTruth.ReceiptFor(d, q, op)
    {
      SessionTruth.VerifierEventExactly(d, id, op);
      EligibleIs(d, id);
      ReceiptForIs(d, op);
    }
  }

  lemma EligibleIs(d: Disk, id: Id)
    ensures Eligible(d, id) <==> SessionTruth.Conclusive(d, id)
  {
    hide TrustedResult, SessionTruth.OutcomeIs, SessionTruth.SaysOf, ObservationOf;
    SessionTruth.ConclusiveExactly(d, id);
  }

  lemma ReceiptForIs(d: Disk, op: string)
    ensures HasReceipt(d, op) <==> exists q :: SessionTruth.ReceiptFor(d, q, op)
  {
    if q :| SessionTruth.ReceiptFor(d, q, op) { assert q in d.receipts && d.receipts[q].operation.Some?; }
    if HasReceipt(d, op) {
      var id :| id in d.receipts && d.receipts[id].operation.Some? && d.receipts[id].operation.value.occurrence == op;
      assert SessionTruth.ReceiptFor(d, id, op);
    }
  }

  /** All the checks of the audit, taken together, say over arbitrary stored data that the session is true. */
  lemma SilentExactly(s: Setting, d: Disk)
    ensures SessionClean(s, d) <==> SessionTruth.SessionTrue(s, d)
  {
    hide EventsClean, CheckpointsClean, ReceiptsClean, Correlated, SessionTruth.TrueEvents, SessionTruth.TrueCheckpoint, SessionTruth.TrueReceipts,
      SessionTruth.Complete;
    EventsExactly(s, d);
    CheckpointsExactly(s, d);
    ReceiptsExactly(s, d);
    CorrelatedExactly(d);
  }

  // ---- The audit itself ----

  /** The dictionaries of exact pre-events and result events, by operation. */
  ghost predicate Indexed(d: Disk, pre: map<string, Id>, post: map<string, Id>) {
    && (forall id, op :: PreOf(d, id, op) <==> op in pre && pre[op] == id)
    && (forall id, op :: ResultOf(d, id, op) <==> op in post && post[op] == id)
  }

  /** The event loop, in whatever order the files are listed. */
  method AuditEvents(s: Setting, d: Disk) returns (issues: seq<Issue>, pre: map<string, Id>, post: map<string, Id>)
    ensures issues == [] <==> EventsClean(s, d)
    ensures issues == [] <==> SessionTruth.TrueEvents(s, d)
    ensures issues == [] ==> Indexed(d, pre, post)
    ensures (forall op :: op in pre ==> pre[op] in d.events) && (forall op :: op in post ==> post[op] in d.events)
  {
    hide EventClean, IsExactEvent, SessionTruth.TrueEvents;
    EventsExactly(s, d);
    issues, pre, post := [], map[], map[];
    var ids := d.events.Keys;
    while ids != {}
      invariant ids <= d.events.Keys
      invariant (forall op :: op in pre ==> pre[op] in d.events) && (forall op :: op in post ==> post[op] in d.events)
      invariant issues == [] ==>
        && (forall id :: id in d.events && id !in ids ==> EventClean(s, d, d.events[id]))
        && (forall id, op :: (id !in ids && PreOf(d, id, op)) <==> op in pre && pre[op] == id)
        && (forall id, op :: (id !in ids && ResultOf(d, id, op)) <==> op in post && post[op] == id)
      invariant issues != [] ==> !EventsClean(s, d)
      decreases ids
    {
      var id :| id in ids;
      var e := d.events[id];
      if !EventClean(s, d, e) {
        issues := issues + [InvalidEvent(id)];
      } else if IsExactEvent(d, e) {
        var op := ExactOperation(d, e);
        if e.kind == PreToolUse {
          assert PreOf(d, id, op);
          if op in pre {
            assert issues == [] ==> PreOf(d, pre[op], op) && pre[op] != id;
            issues := issues + [InvalidEvent(id)];
          } else {
            pre := pre[op := id];
          }
        } else if IsResultEvent(e.kind) {
          assert ResultOf(d, id, op);
          if op in post {
            assert issues == [] ==> ResultOf(d, post[op], op) && post[op] != id;
            issues := issues + [InvalidEvent(id)];
          } else {
            post := post[op := id];
          }
        }
      }
      ids := ids - {id};
    }
  }

  function ExactOperation(d: Disk, e: AgentEvent): string
    requires IsExactEvent(d, e)
  {
    e.operation.value.occurrence
  }

  method AuditCheckpoints(s: Setting, d: Disk) returns (issues: seq<Issue>)
    ensures issues == [] <==> CheckpointsClean(s, d)
    ensures issues == [] <==> forall id :: id in d.checkpoints ==> SessionTruth.TrueCheckpoint(s, d, d.checkpoints[id])
  {
    hide CheckpointClean, SessionTruth.TrueCheckpoint;
    CheckpointsExactly(s, d);
    issues := [];
    var ids := d.checkpoints.Keys;
    while ids != {}
      invariant ids <= d.checkpoints.Keys
      invariant issues == [] <==> forall id :: id in d.checkpoints && id !in ids ==> CheckpointClean(s, d, d.checkpoints[id])
      decreases ids
    {
      var id :| id in ids;
      if !CheckpointClean(s, d, d.checkpoints[id]) { issues := issues + [InvalidCheckpoint(id)]; }
      ids := ids - {id};
    }
  }

  /** What the receipt loop checks of one receipt, looked up in the dictionaries. */
  predicate ReceiptFound(s: Setting, d: Disk, r: Receipt, pre: map<string, Id>, post: map<string, Id>)
    requires (forall op :: op in pre ==> pre[op] in d.events) && (forall op :: op in post ==> post[op] in d.events)
  {
    && r.checkpointId in d.checkpoints && r.operation.Some?
    && var op := r.operation.value.occurrence;
    && op in d.pending && op in pre && op in post
    && ReceiptMatches(s, d, r, d.checkpoints[r.checkpointId], d.pending[op], d.events[pre[op]], d.events[post[op]])
  }

  lemma FoundIsClean(s: Setting, d: Disk, r: Receipt, pre: map<string, Id>, post: map<string, Id>)
    requires (forall op :: op in pre ==> pre[op] in d.events) && (forall op :: op in post ==> post[op] in d.events)
    requires Indexed(d, pre, post)
    ensures ReceiptFound(s, d, r, pre, post) <==> ReceiptClean(s, d, r)
  {
    hide ReceiptMatches, PreOf, ResultOf;
    if ReceiptFound(s, d, r, pre, post) {
      var op := r.operation.value.occurrence;
      assert PreOf(d, pre[op], op) && ResultOf(d, post[op], op);
    }
  }

  /** The receipt loop: checkpoint, pending marker, pre-event and result event are looked up, then compared, and an
      operation may have one receipt. */
  method AuditReceipts(s: Setting, d: Disk, pre: map<string, Id>, post: map<string, Id>)
    returns (issues: seq<Issue>, operations: set<string>)
    requires (forall op :: op in pre ==> pre[op] in d.events) && (forall op :: op in post ==> post[op] in d.events)
    ensures Indexed(d, pre, post) ==> (issues == [] <==> ReceiptsClean(s, d))
    ensures Indexed(d, pre, post) ==> (issues == [] <==> SessionTruth.TrueReceipts(s, d))
    ensures issues == [] ==> forall op :: op in operations <==> HasReceipt(d, op)
  {
    hide ReceiptMatches, PreOf, ResultOf, Indexed, ReceiptClean, ReceiptsClean, SessionTruth.TrueReceipts, HasReceiptOutside;
    issues, operations := [], {};
    var ids := d.receipts.Keys;
    while ids != {}
      invariant ids <= d.receipts.Keys
      invariant issues == [] ==> forall id :: id in d.receipts && id !in ids ==>
        ReceiptFound(s, d, d.receipts[id], pre, post) && d.receipts[id].operation.value.occurrence in operations
      invariant issues == [] ==> forall op :: op in operations ==> HasReceiptOutside(d, op, ids)
      invariant issues == [] ==>
        forall a, b :: a in d.receipts.Keys - ids && b in d.receipts.Keys - ids && SameOperation(d.receipts[a], d.receipts[b]) ==> a == b
      invariant issues != [] && Indexed(d, pre, post) ==> !ReceiptsClean(s, d)
      decreases ids
    {
      var id :| id in ids;
      var r := d.receipts[id];
      if Indexed(d, pre, post) { FoundIsClean(s, d, r, pre, post); }
      if !ReceiptFound(s, d, r, pre, post) {
        issues := issues + [InvalidReceipt(id)];
        if Indexed(d, pre, post) { UncleanReceipt(s, d, id); }
      } else {
        var op := r.operation.value.occurrence;
        if op in operations {
          if issues == [] { TwoReceipts(s, d, op, id, ids); }
          issues := issues + [InvalidReceipt(id)];
        } else {
          operations := operations + {op};
        }
      }
      OutsideGrows(d, ids, id);
      ids := ids - {id};
    }
    if Indexed(d, pre, post) && issues == [] { AllFoundClean(s, d, pre, post); }
    ReceiptsExactly(s, d);
    OutsideAll(d);
  }

  lemma OutsideGrows(d: Disk, ids: set<Id>, id: Id)
    requires id in d.receipts
    ensures forall op :: HasReceiptOutside(d, op, ids) ==> HasReceiptOutside(d, op, ids - {id})
    ensures d.receipts[id].operation.Some? ==> HasReceiptOutside(d, d.receipts[id].operation.value.occurrence, ids - {id})
  {
  }

  lemma OutsideAll(d: Disk)
    ensures forall op :: HasReceiptOutside(d, op, {}) <==> HasReceipt(d, op)
  {
  }

  lemma UncleanReceipt(s: Setting, d: Disk, id: Id)
    requires id in d.receipts && !ReceiptClean(s, d, d.receipts[id])
    ensures !ReceiptsClean(s, d)
  {
  }

  lemma AllFoundClean(s: Setting, d: Disk, pre: map<string, Id>, post: map<string, Id>)
    requires (forall op :: op in pre ==> pre[op] in d.events) && (forall op :: op in post ==> post[op] in d.events)
    requires Indexed(d, pre, post) && OneReceipt(d) && forall id :: id in d.receipts ==> ReceiptFound(s, d, d.receipts[id], pre, post)
    ensures ReceiptsClean(s, d)
  {
    hide ReceiptFound, ReceiptClean, OneReceipt, Indexed;
    forall id | id in d.receipts ensures ReceiptClean(s, d, d.receipts[id]) {
      FoundIsClean(s, d, d.receipts[id], pre, post);
    }
  }

  ghost predicate HasReceiptOutside(d: Disk, op: string, ids: set<Id>) {
    exists id :: id in d.receipts && id !in ids && d.receipts[id].operation.Some? && d.receipts[id].operation.value.occurrence == op
  }

  lemma TwoReceipts(s: Setting, d: Disk, op: string, id: Id, ids: set<Id>)
    requires HasReceiptOutside(d, op, ids) && id in ids && id in d.receipts
    requires d.receipts[id].operation.Some? && d.receipts[id].operation.value.occurrence == op
    ensures !ReceiptsClean(s, d)
  {
    hide ReceiptClean;
    var other :| other in d.receipts && other !in ids && d.receipts[other].operation.Some? && d.receipts[other].operation.value.occurrence == op;
    assert other != id;
  }

  /** `audit_session`. It reports nothing exactly on a clean session, whatever the stored data; and that is exactly when the
      records themselves are true and correspond. */
  method AuditSession(s: Setting, d: Disk) returns (issues: seq<Issue>)
    ensures issues == [] <==> SessionClean(s, d)
    ensures issues == [] <==> SessionTruth.SessionTrue(s, d)
  {
    SilentExactly(s, d);
    hide SessionTruth.SessionTrue;
    if !s.meta.validatedProfile { return [UnvalidatedProfile]; }
    if d.external.None? { return [NoExternalBinding]; }
    hide EventsClean, CheckpointsClean, ReceiptsClean, PreOf, ResultOf, Verified, Indexed, Correlated, CorrelatedBy;
    issues := [];
    if !Verified(s, d, s.meta.producerRef) || s.meta.producerRef.source != ProducerSource { issues := issues + [ProducerEvidence]; }
    if !Verified(s, d, s.meta.configRef) || s.meta.configRef.source != ConfigSource { issues := issues + [ConfigEvidence]; }
    if s.meta.specHash != s.meta.configRef.hash || s.meta.configRef.hash !in d.blobs ||
       d.blobs[s.meta.configRef.hash] != VerifierSpecDoc(s.meta.verifier) { issues := issues + [ConfigIdentity]; }
    assert issues == [] <==> ConfigClean(s, d);
    var eventIssues, pre, post := AuditEvents(s, d);
    var checkpointIssues := AuditCheckpoints(s, d);
    var receiptIssues, operations := AuditReceipts(s, d, pre, post);
    var correlation := AuditCorrelation(d, pre, post, operations);
    if eventIssues == [] && receiptIssues == [] { CorrelatedSame(s, d, pre, post, operations); }
    issues := issues + eventIssues + checkpointIssues + receiptIssues + correlation;
  }

  ghost predicate CorrelatedBy(d: Disk, pre: map<string, Id>, post: map<string, Id>, operations: set<string>) {
    && (forall op :: op in pre ==> op in d.pending)
    && pre.Keys == post.Keys
    && (forall op :: op in operations <==> op in post && Eligible(d, post[op]))
  }

  /** The dictionary checks say what the session's correlation condition says. */
  lemma CorrelatedSame(s: Setting, d: Disk, pre: map<string, Id>, post: map<string, Id>, operations: set<string>)
    requires Indexed(d, pre, post) && ReceiptsClean(s, d)
    requires forall op :: op in operations <==> HasReceipt(d, op)
    ensures CorrelatedBy(d, pre, post, operations) <==> Correlated(d)
  {
    hide ReceiptMatches, PreOf, ResultOf, Eligible;
    assert forall op :: op in pre ==> PreOf(d, pre[op], op);
    assert forall op :: op in post ==> ResultOf(d, post[op], op);
    forall op | op in operations ensures op in post && Eligible(d, post[op]) {
      var id :| id in d.receipts && d.receipts[id].operation.Some? && d.receipts[id].operation.value.occurrence == op;
      ReceiptEligible(s, d, d.receipts[id]);
      var q :| ResultOf(d, q, op) && Eligible(d, q);
    }
  }

  lemma ReceiptEligible(s: Setting, d: Disk, r: Receipt)
    requires ReceiptClean(s, d, r)
    ensures exists q :: ResultOf(d, q, r.operation.value.occurrence) && Eligible(d, q)
  {
    hide ProvenanceClean;
    var op := r.operation.value.occurrence;
    var a, b :| PreOf(d, a, op) && ResultOf(d, b, op) &&
      ReceiptMatches(s, d, r, d.checkpoints[r.checkpointId], d.pending[op], d.events[a], d.events[b]);
    assert Eligible(d, b);
  }

  method AuditCorrelation(d: Disk, pre: map<string, Id>, post: map<string, Id>, operations: set<string>) returns (issues: seq<Issue>)
    ensures issues == [] <==> CorrelatedBy(d, pre, post, operations)
  {
    issues := [];
    var ops := SortedKeys(pre.Keys);
    hide SortedKeys, Eligible;
    for i := 0 to |ops|
      invariant issues == [] <==> forall k :: 0 <= k < i ==> ops[k] in d.pending
    {
      if ops[i] !in d.pending { issues := issues + [NoDurableCorrelation(ops[i])]; }
    }
    assert (forall k :: 0 <= k < |ops| ==> ops[k] in d.pending) <==> (forall op :: op in pre ==> op in d.pending) by {
      assert forall op :: op in pre <==> op in ops;
    }
    if pre.Keys != post.Keys { issues := issues + [IncompleteCorrelation]; }
    var eligible := set op | op in post && Eligible(d, post[op]);
    if eligible != operations { issues := issues + [ReceiptCorrelation]; }
  }

  // ---- When a recorded session passes ----

  /** Every known operation on a recorded exact-verifier event has exactly one pre-event, exactly one result event, a
      stored pending marker, and a stored receipt when its result is receipt-eligible. */
  ghost predicate OperationsComplete(d: Disk) {
    forall id, op :: PreOf(d, id, op) || ResultOf(d, id, op) ==> OperationComplete(d, op)
  }

  ghost predicate OperationComplete(d: Disk, op: string) {
    && (exists a :: PreOf(d, a, op) && forall x :: PreOf(d, x, op) ==> x == a)
    && (exists b :: ResultOf(d, b, op) && (forall x :: ResultOf(d, x, op) ==> x == b) &&
          (Eligible(d, b) ==> ReceiptId(op) in d.receipts))
    && op in d.pending
  }

  lemma SoundEventClean(s: Setting, d: Disk, captures: map<string, Found>, id: Id)
    requires Sound(s, d, captures) && id in d.events
    ensures EventClean(s, d, d.events[id]) <==> Stored(s, d, EventDoc(d.events[id]))
  {
    hide ProvenanceClean, RecordedOperation;
    SessionWrites.SoundEvent(s, d, captures, id);
    hide Sound;
  }

  lemma SoundCheckpointClean(s: Setting, d: Disk, captures: map<string, Found>, id: Id)
    requires Sound(s, d, captures) && id in d.checkpoints
    ensures CheckpointClean(s, d, d.checkpoints[id]) <==> Stored(s, d, CheckpointDoc(d.checkpoints[id]))
  {
    hide ProvenanceClean, CanonicalText;
    assert CheckpointSound(s, d, id);
  }

  /** A sound receipt that is whole passes every check against its own pre-event and result event. */
  lemma SoundReceiptMatches(s: Setting, d: Disk, captures: map<string, Found>, id: Id, q: Id)
    requires id in d.receipts && ReceiptSound(s, d, id) && Stored(s, d, ReceiptDoc(d.receipts[id]))
    requires var op := d.receipts[id].operation.value.occurrence;
      && PendingSound(s, d, captures, op) && Reports(s, d, d.receipts[id], q, op)
      && CheckpointSound(s, d, d.receipts[id].checkpointId)
      && EventSound(s, d, q) && EventSound(s, d, d.pending[op].preEventId) && s.meta.specHash == s.meta.configRef.hash
    ensures var op := d.receipts[id].operation.value.occurrence;
      ReceiptMatches(s, d, d.receipts[id], d.checkpoints[d.receipts[id].checkpointId], d.pending[op],
        d.events[d.pending[op].preEventId], d.events[q])
  {
    hide ProvenanceClean, CanonicalText, FoundManifestHash, TrustedResult;
    var r := d.receipts[id];
    var pre := d.pending[r.operation.value.occurrence].preEventId;
    var ref := RecordRef(s, Events, q, EventDoc(d.events[q]));
    var preRef := RecordRef(s, Events, pre, EventDoc(d.events[pre]));
    assert r.passedRefs[0] == ref && r.exitCodeRefs[0] == ref && r.finishedRefs[0] == ref && r.startedRefs[0] == preRef;
    assert Cites(r.passedRefs, ref) && Cites(r.exitCodeRefs, ref) && Cites(r.finishedRefs, ref) && Cites(r.startedRefs, preRef);
  }

  lemma SoundReceiptClean(s: Setting, d: Disk, captures: map<string, Found>, id: Id)
    requires Sound(s, d, captures) && id in d.receipts
    ensures ReceiptClean(s, d, d.receipts[id]) <==> Stored(s, d, ReceiptDoc(d.receipts[id]))
  {
    hide ProvenanceClean, CheckpointSound, EventSound, FoundManifestHash, TrustedResult;
    var r := d.receipts[id];
    assert ReceiptSound(s, d, id);
    var op := r.operation.value.occurrence;
    assert PendingSound(s, d, captures, op) && CheckpointSound(s, d, r.checkpointId);
    var q :| Reports(s, d, r, q, op);
    var pre := d.pending[op].preEventId;
    if Stored(s, d, ReceiptDoc(r)) {
      SoundReceiptMatches(s, d, captures, id, q);
      assert PreOf(d, pre, op) && ResultOf(d, q, op);
    }
  }

  ghost predicate EachClean(s: Setting, d: Disk) {
    && (forall id :: id in d.events ==> EventClean(s, d, d.events[id]))
    && CheckpointsClean(s, d)
    && (forall id :: id in d.receipts ==> ReceiptClean(s, d, d.receipts[id]))
  }

  /** On a sound session the records are clean, one by one, exactly when they are intact. */
  lemma EachCleanExactly(s: Setting, d: Disk, captures: map<string, Found>)
    requires Sound(s, d, captures)
    ensures EachClean(s, d) <==> RecordsIntact(s, d)
  {
    hide EventClean, CheckpointClean, ReceiptClean, Sound, Stored;
    forall id | id in d.events ensures EventClean(s, d, d.events[id]) <==> Stored(s, d, EventDoc(d.events[id])) {
      SoundEventClean(s, d, captures, id);
    }
    forall id | id in d.checkpoints ensures CheckpointClean(s, d, d.checkpoints[id]) <==> Stored(s, d, CheckpointDoc(d.checkpoints[id])) {
      SoundCheckpointClean(s, d, captures, id);
    }
    forall id | id in d.receipts ensures ReceiptClean(s, d, d.receipts[id]) <==> Stored(s, d, ReceiptDoc(d.receipts[id])) {
      SoundReceiptClean(s, d, captures, id);
    }
  }

  /** The exact characterisation, for any sound session: the audit accepts exactly when an external session is bound, no
      record is torn, and every operation is complete. */
  lemma AuditExactly(s: Setting, d: Disk, captures: map<string, Found>)
    requires Sound(s, d, captures)
    ensures SessionClean(s, d) <==> d.external.Some? && RecordsIntact(s, d) && OperationsComplete(d)
  {
    hide EventClean, CheckpointsClean, ReceiptClean, Sound, RecordsIntact, OnePre, OneResult, OneReceipt, OperationsComplete, Correlated, ConfigClean;
    SoundConfig(s, d, captures);
    EachCleanExactly(s, d, captures);
    if SessionClean(s, d) { CleanIsComplete(s, d, captures); }
    if OperationsComplete(d) {
      CompleteIsUnique(d);
      CompleteIsCorrelated(s, d, captures);
    }
  }

  lemma SoundConfig(s: Setting, d: Disk, captures: map<string, Found>)
    requires Sound(s, d, captures)
    ensures ConfigClean(s, d) && (d.external.Some? ==> s.meta.validatedProfile)
  {
  }

  lemma CleanIsComplete(s: Setting, d: Disk, captures: map<string, Found>)
    requires SessionClean(s, d) && Sound(s, d, captures)
    ensures OperationsComplete(d)
  {
    hide EventClean, CheckpointClean, ReceiptClean, PreOf, ResultOf, Eligible, Sound;
    forall id, op | PreOf(d, id, op) || ResultOf(d, id, op) ensures OperationComplete(d, op) {
      var a :| PreOf(d, a, op);
      var b :| ResultOf(d, b, op);
      if Eligible(d, b) { ReceiptNamed(s, d, captures, op); }
    }
  }

  lemma ReceiptNamed(s: Setting, d: Disk, captures: map<string, Found>, op: string)
    requires Sound(s, d, captures) && HasReceipt(d, op)
    ensures ReceiptId(op) in d.receipts
  {
    var id :| id in d.receipts && d.receipts[id].operation.Some? && d.receipts[id].operation.value.occurrence == op;
    assert ReceiptSound(s, d, id);
  }

  lemma CompleteIsUnique(d: Disk)
    requires OperationsComplete(d)
    ensures OnePre(d) && OneResult(d)
  {
    hide PreOf, ResultOf, Eligible;
    forall a, b, op | PreOf(d, a, op) && PreOf(d, b, op) ensures a == b { assert OperationComplete(d, op); }
    forall a, b, op | ResultOf(d, a, op) && ResultOf(d, b, op) ensures a == b { assert OperationComplete(d, op); }
  }

  lemma CompleteIsCorrelated(s: Setting, d: Disk, captures: map<string, Found>)
    requires OperationsComplete(d) && Sound(s, d, captures)
    ensures Correlated(d)
    ensures OneReceipt(d)
  {
    hide PreOf, ResultOf, Eligible, Sound, OperationsComplete, OneReceipt, HasReceipt;
    SoundOneReceipt(s, d, captures);
    forall id, op | PreOf(d, id, op) ensures op in d.pending && exists q :: ResultOf(d, q, op) { CompleteAt(d, id, op); }
    forall id, op | ResultOf(d, id, op) ensures exists q :: PreOf(d, q, op) { CompleteAt(d, id, op); }
    forall id, op | ResultOf(d, id, op) && Eligible(d, id) ensures HasReceipt(d, op) { CompleteReceipt(s, d, captures, id, op); }
  }

  lemma CompleteReceipt(s: Setting, d: Disk, captures: map<string, Found>, id: Id, op: string)
    requires OperationsComplete(d) && Sound(s, d, captures) && ResultOf(d, id, op) && Eligible(d, id)
    ensures HasReceipt(d, op)
  {
    hide PreOf, ResultOf, Eligible, Sound, OperationsComplete, HasReceipt;
    CompleteAt(d, id, op);
    ReceiptStored(s, d, captures, op);
  }

  lemma SoundOneReceipt(s: Setting, d: Disk, captures: map<string, Found>)
    requires Sound(s, d, captures)
    ensures OneReceipt(d)
  {
    hide Sound;
    forall a, b | a in d.receipts && b in d.receipts && SameOperation(d.receipts[a], d.receipts[b]) ensures a == b {
      OneReceiptPerOperation(s, d, captures, a, b);
    }
  }

  lemma CompleteAt(d: Disk, id: Id, op: string)
    requires OperationsComplete(d) && (PreOf(d, id, op) || ResultOf(d, id, op))
    ensures op in d.pending && (exists q :: PreOf(d, q, op)) && (exists q :: ResultOf(d, q, op))
    ensures ResultOf(d, id, op) && Eligible(d, id) ==> ReceiptId(op) in d.receipts
  {
    hide PreOf, ResultOf, Eligible;
    assert OperationComplete(d, op);
  }

  lemma ReceiptStored(s: Setting, d: Disk, captures: map<string, Found>, op: string)
    requires Sound(s, d, captures) && ReceiptId(op) in d.receipts
    ensures HasReceipt(d, op)
  {
    assert ReceiptSound(s, d, ReceiptId(op));
  }

  /** For a whole session: the audit accepts exactly when an external session was bound, no hook had the blob of a record
      refused, and every operation is complete. */
  lemma RunAuditExactly(s: Setting, hashText: string -> Hash, inputs: seq<SessionWrites.HookInput>)
    requires Initial(s)
    ensures var y := RunAfter(s, hashText, NewSession(s), inputs);
      && Stands(s, y)
      && (SessionClean(s, y.disk) <==>
            y.disk.external.Some? && NeverTorn(s, hashText, NewSession(s), inputs) && OperationsComplete(y.disk))
  {
    hide SessionClean, Sound, OperationsComplete, NeverTorn, RunAfter, NewSession, Addressed, RecordsIntact;
    NewSessionStands(s);
    RunKeeps(s, hashText, NewSession(s), inputs);
    var y := RunAfter(s, hashText, NewSession(s), inputs);
    AuditExactly(s, y.disk, y.captures);
  }

  /** The product path: a new session, its hooks one process after another, then its audit. */
  method RecordThenAudit(setting: Setting, hashText: string -> Hash, inputs: seq<SessionWrites.HookInput>)
    returns (store: SessionHooks.Store, codes: seq<int>, issues: seq<Issue>)
    requires Initial(setting)
    ensures fresh(store) && store.Valid() && store.setting == setting && store.hashText == hashText
    ensures store.State() == RunAfter(setting, hashText, NewSession(setting), inputs)
    ensures codes == Codes(setting, hashText, NewSession(setting), inputs)
    ensures HookEffects.MarkersFrom(setting, NewSession(setting).disk, store.disk, inputs)
    ensures HookEffects.ReceiptsFrom(setting, NewSession(setting).disk, store.disk, inputs)
    ensures issues == [] <==>
      store.disk.external.Some? && NeverTorn(setting, hashText, NewSession(setting), inputs) && OperationsComplete(store.disk)
  {
    hide RecordsIntact, OperationsComplete, SessionClean, Stands, NewSession, NeverTorn, RunAfter, Addressed, HookEffects.MarkersFrom, HookEffects.ReceiptsFrom;
    store := new SessionHooks.Store(setting, hashText);
    codes := store.RunHooks(inputs);
    issues := AuditSession(setting, store.disk);
    RunAuditExactly(setting, hashText, inputs);
  }

  // ---- A session that is complete and still rejected ----

  /** Four digests; the producer manifest and every event record share the first. */
  function Digest(n: nat): Hash { seq(n, _ => 'x') }

  lemma DigestsDiffer()
    ensures forall m: nat, n: nat :: Digest(m) == Digest(n) ==> m == n
  {
    forall m: nat, n: nat | Digest(m) == Digest(n) ensures m == n { assert |Digest(m)| == m && |Digest(n)| == n; }
  }

  function CollidingDigest(c: Content): Hash {
    match c
    case ProducerDoc => Digest(0)
    case EventDoc(_) => Digest(0)
    case VerifierSpecDoc(_) => Digest(1)
    case ObservationDoc(_, _) => Digest(2)
    case _ => Digest(3)
  }

  function TornSession(): string { "s" }
  function TornVerifier(): string { "v" }

  function TornSetting(): Setting {
    Setting(CollidingDigest, Metadata(TornSession(), TornVerifier(), Digest(1), Ref(Digest(0), ProducerSource, TornSession(), ProducerAt),
      Ref(Digest(1), ConfigSource, TornSession(), ConfigAt), true, Digest(4)))
  }

  function TornText(text: string): Hash { Digest(5) }

  /** The hook that reports the start of an agent session. */
  function StartHook(): SessionWrites.HookInput {
    SessionWrites.Hook(Payload(Some(SessionStart), Some(TornSession()), ".", None, None, false, None, None, false, None, 0), Digest(4), None)
  }

  function StartObservation(): Observation { Observation(SessionStart, Digest(5), ".", None, NoCommand, None, None, 0) }

  lemma TornInitial()
    ensures Initial(TornSetting())
  {
    DigestsDiffer();
    hide Digest;
  }

  lemma StartObserved()
    ensures SessionWrites.Observable(TornSetting(), TornText, NewSession(TornSetting()).disk, StartHook())
    ensures Sanitize(StartHook().payload, TornVerifier(), TornText) == Some(StartObservation())
  {
    hide Digest;
    assert |TornSession()| == 1;
  }

  /** The blobs of the new session and the digests of what the hook stores first. */
  lemma StartBlobs()
    ensures var b := NewSession(TornSetting()).disk.blobs;
      && b.Keys == {Digest(0), Digest(1)} && b[Digest(0)] == ProducerDoc && Digest(2) !in b && Digest(3) !in b && Digest(2) != Digest(3)
      && Digest(0) != Digest(2) && Digest(0) != Digest(3)
    ensures NewSession(TornSetting()).disk.events == map[]
  {
    DigestsDiffer();
    hide Digest;
  }

  /** The event record is written and its blob refused: the producer manifest has the digest. */
  lemma StartTorn()
    ensures var x := EventDeed(TornSetting(), NewSession(TornSetting()).disk.(external := Some(Digest(5))), 0, StartObservation());
      && x.WasTorn() && x.disk.external.Some? && (forall id :: id in x.disk.events ==> x.disk.events[id].operation.None?)
  {
    StartBlobs();
    hide Digest, NewSession;
    var s, o := TornSetting(), StartObservation();
    var d := NewSession(TornSetting()).disk.(external := Some(Digest(5)));
    var source := BlobDeed(s, d.(sequence := d.sequence + 1), 0, ObservationDoc(o, d.sequence + 1), HookSanitized, HookObservation(d.sequence + 1));
    assert source.Did?;
    var proof := ProvenanceDeed(s, source.disk, 1, EventId(0), [source.value]);
    assert proof.Did?;
  }

  lemma HookTorn()
    ensures var s := TornSetting();
      var x := HookDeed(s, TornText, NewSession(s).disk, NewSession(s).uuid, StartHook());
      && x.WasTorn() && x.disk.external.Some? && (forall id :: id in x.disk.events ==> x.disk.events[id].operation.None?)
  {
    StartObserved();
    StartTorn();
    assert TornSetting().meta.verifier == TornVerifier() && StartObservation().externalHash == Digest(5);
    hide Digest, EventDeed, Sanitize, TornSetting, StartHook, StartObservation, BranchDeed, SessionWrites.Observable, TornVerifier;
  }

  lemma NoOperations(d: Disk)
    requires forall id :: id in d.events ==> d.events[id].operation.None?
    ensures OperationsComplete(d)
  {
  }

  /** Complete operations alone do not make a session pass. Here the event record of the one hook of a new session has the
      producer manifest's digest, so its blob is refused while its record file stays; every operation is (vacuously)
      complete, and the audit rejects the session. */
  lemma TornRecordRejected()
    ensures var s, inputs := TornSetting(), [StartHook()];
      var y := RunAfter(s, TornText, NewSession(s), inputs);
      && Initial(s) && IsTorn(s, TornText, NewSession(s), StartHook())
      && y.disk.external.Some? && OperationsComplete(y.disk) && !SessionClean(s, y.disk)
  {
    TornInitial();
    HookTorn();
    hide Digest, HookDeed, SessionClean, TornSetting, StartHook, Stands, OperationsComplete, NewSession, SessionWrites.IsExactPre;
    var s, inputs := TornSetting(), [StartHook()];
    RunAuditExactly(s, TornText, inputs);
    var x := NewSession(s);
    assert inputs[..0] == [] && RunAfter(s, TornText, x, inputs[..0]) == x;
    assert IsTorn(s, TornText, RunAfter(s, TornText, x, inputs[..0]), inputs[0]);
    assert inputs[..|inputs| - 1] == [] && RunAfter(s, TornText, x, inputs) == HandleAfter(s, TornText, x, StartHook());
    NoOperations(RunAfter(s, TornText, x, inputs).disk);
  }
}
