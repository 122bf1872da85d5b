/** What a silent session audit vouches for, told over the stored data alone, and that the auditor's own checks say it. */
module SessionTruth {
  import opened Ordering
  import opened CanonicalManifest
  import opened ForensicsRecords
  import opened SessionInvariant

  // ---- References and evidence ----

  /** A reference of this session whose bytes are held under its hash. */
  ghost predicate Held(s: Setting, d: Disk, r: Ref) {
    r.session == s.meta.session && r.hash in d.blobs && s.digest(d.blobs[r.hash]) == r.hash
  }

  /** The record's own bytes are held as a blob too. */
  ghost predicate Copied(s: Setting, d: Disk, c: Content) { s.digest(c) in d.blobs && d.blobs[s.digest(c)] == c }

  ghost predicate SamePlace(a: Ref, b: Ref) { a.source == b.source && a.session == b.session && a.locator == b.locator }

  /** One of these references is to the place of `r`. */
  ghost predicate Mentions(refs: seq<Ref>, r: Ref) { exists i :: 0 <= i < |refs| && SamePlace(refs[i], r) }

  /** The provenance record names this session's producer and this output, cites the required inputs, and everything it cites
      is held. */
  ghost predicate Derived(s: Setting, d: Disk, p: Option<Ref>, output: Id, required: seq<Ref>) {
    && p.Some? && Held(s, d, p.value) && d.blobs[p.value.hash].ProvenanceDoc?
    && var doc := d.blobs[p.value.hash].provenance;
      && doc.producer == s.meta.producerRef && doc.output == output
      && (forall i :: 0 <= i < |required| ==> Mentions(doc.inputs, required[i]))
      && (forall i :: 0 <= i < |doc.inputs| ==> Held(s, d, doc.inputs[i]))
  }

  lemma DerivedExactly(s: Setting, d: Disk, p: Option<Ref>, output: Id, required: seq<Ref>)
    ensures ProvenanceClean(s, d, p, output, required) <==> Derived(s, d, p, output, required)
  {
    forall inputs, r ensures Cites(inputs, r) <==> Mentions(inputs, r) {
      if Cites(inputs, r) {
        var i :| 0 <= i < |inputs| && Occurrence(inputs[i]) == Occurrence(r);
        assert SamePlace(inputs[i], r);
      }
      if Mentions(inputs, r) {
        var i :| 0 <= i < |inputs| && SamePlace(inputs[i], r);
        assert Occurrence(inputs[i]) == Occurrence(r);
      }
    }
  }

  // ---- Events ----

  /** The observation an event was recorded from. */
  ghost predicate SaysOf(d: Disk, e: AgentEvent, o: Observation) {
    && e.source.Some? && e.source.value.hash in d.blobs && d.blobs[e.source.value.hash].ObservationDoc?
    && d.blobs[e.source.value.hash].observation == o
  }

  /** An event of this session, from a sanitized observation of its one external session. */
  ghost predicate TrueEvent(s: Setting, d: Disk, e: AgentEvent) {
    && e.session == s.meta.session && e.producer == s.meta.producerRef
    && e.source.Some? && e.source.value.source == HookSanitized && Held(s, d, e.source.value)
    && (exists o :: SaysOf(d, e, o) && d.external == Some(o.externalHash))
    && Copied(s, d, EventDoc(e)) && Derived(s, d, e.provenance, e.id, [e.source.value])
  }

  lemma EventExactly(s: Setting, d: Disk, e: AgentEvent)
    ensures TrueEvent(s, d, e) <==>
      && e.session == s.meta.session
      && e.source.Some? && Verified(s, d, e.source.value) && e.source.value.source == HookSanitized
      && e.producer == s.meta.producerRef
      && ProvenanceClean(s, d, e.provenance, e.id, [e.source.value])
      && Stored(s, d, EventDoc(e))
      && ObservationOf(d, e).Some? && d.external == Some(ObservationOf(d, e).value.externalHash)
  {
    hide ProvenanceClean, Derived;
    if e.source.Some? { DerivedExactly(s, d, e.provenance, e.id, [e.source.value]); }
    ObservationExactly(d, e);
  }

  lemma ObservationExactly(d: Disk, e: AgentEvent)
    ensures forall o :: SaysOf(d, e, o) <==> ObservationOf(d, e) == Some(o)
    ensures ObservationOf(d, e).Some? ==> SaysOf(d, e, ObservationOf(d, e).value)
  {
  }

  /** The event is about the configured verifier, as this operation. */
  ghost predicate VerifierEvent(d: Disk, id: Id, op: string) {
    && id in d.events && d.events[id].operation.Some? && d.events[id].operation.value.occurrence == op
    && exists o :: SaysOf(d, d.events[id], o) && o.commandClass == ExactVerifier
  }

  ghost predicate PreEvent(d: Disk, id: Id, op: string) { VerifierEvent(d, id, op) && d.events[id].kind == PreToolUse }

  ghost predicate ResultEvent(d: Disk, id: Id, op: string) {
    VerifierEvent(d, id, op) && (d.events[id].kind == PostToolUse || d.events[id].kind == PostToolUseFailure)
  }

  lemma VerifierEventExactly(d: Disk, id: Id, op: string)
    ensures PreOf(d, id, op) <==> PreEvent(d, id, op)
    ensures ResultOf(d, id, op) <==> ResultEvent(d, id, op)
  {
    if id in d.events { ObservationExactly(d, d.events[id]); }
  }

  /** The trusted outcome of an observation: success with code zero, or an exit with another code. */
  ghost predicate OutcomeIs(o: Observation, passed: bool, code: int) {
    || (o.termination == Some(Success) && o.exitCode == Some(0) && passed && code == 0)
    || (o.termination == Some(Exited) && o.exitCode == Some(code) && code != 0 && !passed)
  }

  lemma OutcomeIsExactly(o: Observation, passed: bool, code: int)
    ensures TrustedResult(o) == Some((passed, code)) <==> OutcomeIs(o, passed, code)
  {
  }

  ghost predicate TrueEvents(s: Setting, d: Disk) {
    && (forall id :: id in d.events ==> TrueEvent(s, d, d.events[id]))
    && (forall a, b, op :: PreEvent(d, a, op) && PreEvent(d, b, op) ==> a == b)
    && (forall a, b, op :: ResultEvent(d, a, op) && ResultEvent(d, b, op) ==> a == b)
  }

  // ---- Checkpoints ----

  /** The manifest entry of a captured path. */
  ghost predicate Describes(e: Entry, c: CapturedPath) {
    && e.path == c.path && e.kind == c.kind && e.state == c.state && e.executable == c.executable
    && e.contentHash == (if c.contentRef.Some? then Some(c.contentRef.value.hash) else None)
  }

  /** The canonical text of the checkpoint's base and paths. */
  ghost predicate ManifestOf(c: Checkpoint, text: string) {
    exists entries :: |entries| == |c.paths| && (forall i :: 0 <= i < |entries| ==> Describes(entries[i], c.paths[i]))
      && CanonicalText(c.gitBase, entries) == Ok(text)
  }

  /** A checkpoint of this session whose hash is that of the canonical manifest of its own base and paths, which is held. */
  ghost predicate TrueCheckpoint(s: Setting, d: Disk, c: Checkpoint) {
    && c.session == s.meta.session && c.producer == s.meta.producerRef
    && (exists text ::
          && ManifestOf(c, text) && c.manifestHash == s.digest(ManifestDoc(text))
          && c.manifestRef.hash in d.blobs && d.blobs[c.manifestRef.hash] == ManifestDoc(text)
          && c.manifestHash in d.manifests && d.manifests[c.manifestHash] == ManifestDoc(text))
    && (forall i :: 0 <= i < |c.paths| ==>
          Held(s, d, c.paths[i].stateRef) && (c.paths[i].contentRef.Some? ==> Held(s, d, c.paths[i].contentRef.value)))
    && Copied(s, d, CheckpointDoc(c)) && Derived(s, d, c.provenance, c.id, [c.manifestRef])
  }

  lemma ManifestExactly(c: Checkpoint, text: string)
    ensures ManifestOf(c, text) <==> CanonicalText(c.gitBase, EntriesOf(c.paths)) == Ok(text)
  {
    hide CanonicalText;
    var own := EntriesOf(c.paths);
    assert forall i :: 0 <= i < |own| ==> Describes(own[i], c.paths[i]);
    if ManifestOf(c, text) {
      var entries :| |entries| == |c.paths| && (forall i :: 0 <= i < |entries| ==> Describes(entries[i], c.paths[i]))
        && CanonicalText(c.gitBase, entries) == Ok(text);
      assert entries == own;
    }
  }

  // ---- Receipts ----

  /** The reference to an event's record. */
  ghost function EventRecord(s: Setting, e: AgentEvent): Ref {
    Ref(s.digest(EventDoc(e)), RecordSource, s.meta.session, RecordAt(Events, e.id))
  }

  /** The receipt says what its result event reports, of the state its marker bound, and cites the evidence of each fact. */
  ghost predicate Bound(s: Setting, d: Disk, r: Receipt, c: Checkpoint, m: Pending, pre: AgentEvent, post: AgentEvent) {
    && r.session == s.meta.session && c.session == s.meta.session && m.session == s.meta.session && r.producer == s.meta.producerRef
    && r.configRef == Some(s.meta.configRef) && r.specHash == s.meta.configRef.hash && m.specHash == r.specHash && m.command == r.command
    && r.operation.Some? && m.toolUseId == r.operation.value.occurrence && d.external == Some(m.externalHash)
    && m.checkpointId == c.id && m.testedHash == c.manifestHash && r.testedHash == c.manifestHash
    && m.preEventRef == EventRecord(s, pre) && m.preSequence == pre.sequence
    && (exists o :: SaysOf(d, post, o) && OutcomeIs(o, r.passed, r.exitCode))
    && Mentions(r.startedRefs, EventRecord(s, pre)) && Mentions(r.passedRefs, EventRecord(s, post))
    && Mentions(r.exitCodeRefs, EventRecord(s, post)) && Mentions(r.finishedRefs, EventRecord(s, post))
    && r.sequence.Some? && post.sequence < r.sequence.value
    && Copied(s, d, ReceiptDoc(r))
    && Derived(s, d, r.provenance, r.id, [m.preEventRef, m.checkpointRef, EventRecord(s, post), s.meta.configRef])
  }

  /** A receipt has its checkpoint, its marker, a pre-event and a result event of its operation, and is bound to them. */
  ghost predicate TrueReceipt(s: Setting, d: Disk, r: Receipt) {
    && r.checkpointId in d.checkpoints && r.operation.Some? && r.operation.value.occurrence in d.pending
    && exists a, b ::
         && PreEvent(d, a, r.operation.value.occurrence) && ResultEvent(d, b, r.operation.value.occurrence)
         && Bound(s, d, r, d.checkpoints[r.checkpointId], d.pending[r.operation.value.occurrence], d.events[a], d.events[b])
  }

  ghost predicate ReceiptFor(d: Disk, id: Id, op: string) {
    id in d.receipts && d.receipts[id].operation.Some? && d.receipts[id].operation.value.occurrence == op
  }

  ghost predicate TrueReceipts(s: Setting, d: Disk) {
    && (forall id :: id in d.receipts ==> TrueReceipt(s, d, d.receipts[id]))
    && (forall a, b, op :: ReceiptFor(d, a, op) && ReceiptFor(d, b, op) ==> a == b)
  }

  // ---- The whole session ----

  /** An event whose observation reports a trusted outcome. */
  ghost predicate Conclusive(d: Disk, id: Id) {
    id in d.events && exists o, passed, code :: SaysOf(d, d.events[id], o) && OutcomeIs(o, passed, code)
  }

  lemma ConclusiveExactly(d: Disk, id: Id)
    ensures Conclusive(d, id) <==>
      id in d.events && ObservationOf(d, d.events[id]).Some? && TrustedResult(ObservationOf(d, d.events[id]).value).Some?
  {
    if id in d.events {
      ObservationExactly(d, d.events[id]);
      if ObservationOf(d, d.events[id]).Some? {
        var o := ObservationOf(d, d.events[id]).value;
        forall passed, code ensures TrustedResult(o) == Some((passed, code)) <==> OutcomeIs(o, passed, code) { OutcomeIsExactly(o, passed, code); }
        if TrustedResult(o).Some? { assert OutcomeIs(o, TrustedResult(o).value.0, TrustedResult(o).value.1); }
      }
    }
  }

  /** Pre-events, markers, result events and receipts of the verifier correspond. */
  ghost predicate Complete(d: Disk) {
    && (forall id, op :: PreEvent(d, id, op) ==> op in d.pending && exists q :: ResultEvent(d, q, op))
    && (forall id, op :: ResultEvent(d, id, op) ==> exists q :: PreEvent(d, q, op))
    && (forall id, op :: ResultEvent(d, id, op) && Conclusive(d, id) ==> exists q :: ReceiptFor(d, q, op))
  }

  /** The session's producer and verifier configuration are held, and the configuration is that of the verifier. */
  ghost predicate TrueConfig(s: Setting, d: Disk) {
    && Held(s, d, s.meta.producerRef) && s.meta.producerRef.source == ProducerSource
    && Held(s, d, s.meta.configRef) && s.meta.configRef.source == ConfigSource
    && s.meta.specHash == s.meta.configRef.hash && d.blobs[s.meta.configRef.hash] == VerifierSpecDoc(s.meta.verifier)
  }

  ghost predicate SessionTrue(s: Setting, d: Disk) {
    && s.meta.validatedProfile && d.external.Some? && TrueConfig(s, d)
    && TrueEvents(s, d) && (forall id :: id in d.checkpoints ==> TrueCheckpoint(s, d, d.checkpoints[id]))
    && TrueReceipts(s, d) && Complete(d)
  }
}
