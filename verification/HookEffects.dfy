/** What one hook may leave in its session, told from its payload alone: who writes an event, a marker, a checkpoint, a receipt. */
module HookEffects {
  import opened Ordering
  import opened CanonicalManifest
  import opened ForensicsRecords
  import opened HookPayload
  import opened SessionInvariant
  import opened SessionWrites
  import opened SessionDeeds
  import opened SessionRun

  // ---- What a hook may do ----

  /** The hook's event is recorded: a validated profile, this repository, a payload that names a supported event and a
      session, and no other external session bound. */
  ghost predicate Observes(s: Setting, hashText: string -> Hash, d: Disk, i: HookInput) {
    && i.Hook? && s.meta.validatedProfile && i.repoIdentity == s.meta.repoIdentity
    && i.payload.event.Some? && i.payload.sessionId.Some? && i.payload.sessionId.value != ""
    && (d.external.Some? ==> d.external.value == hashText(i.payload.sessionId.value))
  }

  /** The pre hook of the configured verifier. */
  ghost predicate VerifierPre(s: Setting, i: HookInput) {
    i.Hook? && RunsVerifier(i.payload, s.meta.verifier) && i.payload.event == Some(PreToolUse)
  }

  /** A result hook of the configured verifier, with this result. */
  ghost predicate VerifierResult(s: Setting, i: HookInput, passed: bool, code: int) {
    i.Hook? && RunsVerifier(i.payload, s.meta.verifier) && ReportsResult(i.payload, passed, code)
  }

  /** The payload names an operation at the repository root whose pre-state has been captured (`captured`) or not yet. */
  ghost predicate AtRoot(d: Disk, p: Payload, captured: bool) {
    Known(p.toolUseId) && p.cwdScope == "." && (p.toolUseId.value in d.pending <==> captured)
  }

  /** `result` is a result hook of the verifier, from the repository root and in the same external session, for the operation
      that `pre` announced. */
  ghost predicate AnsweredBy(s: Setting, pre: HookInput, result: HookInput) {
    && pre.Hook? && result.Hook? && result.repoIdentity == pre.repoIdentity && result.payload.sessionId == pre.payload.sessionId
    && result.payload.toolUseId == pre.payload.toolUseId && result.payload.cwdScope == "."
    && exists passed, code :: VerifierResult(s, result, passed, code)
  }

  /** What the handler needs in order to do all of its work. */
  ghost predicate MaySucceed(s: Setting, hashText: string -> Hash, d: Disk, i: HookInput) {
    && Observes(s, hashText, d, i)
    && (VerifierPre(s, i) ==> AtRoot(d, i.payload, false) && i.found.Some? && Listable(i.found.value))
    && (forall passed, code :: VerifierResult(s, i, passed, code) ==> AtRoot(d, i.payload, true))
  }

  lemma ObservableExactly(s: Setting, hashText: string -> Hash, d: Disk, i: HookInput)
    ensures Observable(s, hashText, d, i) <==> Observes(s, hashText, d, i)
  {
    hide Sanitize;
    if i.Hook? { SanitizeExactly(i.payload, s.meta.verifier, hashText); }
  }

  lemma PreExactly(s: Setting, i: HookInput)
    ensures IsExactPre(s, i) <==> VerifierPre(s, i)
  {
  }

  /** An observed verifier result is receipt-eligible exactly when its payload reports some result. */
  lemma ResultExactly(s: Setting, hashText: string -> Hash, i: HookInput)
    requires i.Hook? && Sanitize(i.payload, s.meta.verifier, hashText).Some?
    ensures var o := Sanitize(i.payload, s.meta.verifier, hashText).value;
      && (IsEligibleResult(s, i, o) <==> exists passed, code :: VerifierResult(s, i, passed, code))
      && (forall passed, code :: VerifierResult(s, i, passed, code) <==> IsEligibleResult(s, i, o) && TrustedResult(o) == Some((passed, code)))
  {
    hide Sanitize, TrustedResult;
    VerifierExactly(i.payload, s.meta.verifier);
    SanitizeExactly(i.payload, s.meta.verifier, hashText);
    var o := Sanitize(i.payload, s.meta.verifier, hashText).value;
    forall passed, code
      ensures VerifierResult(s, i, passed, code) <==> RunsVerifier(i.payload, s.meta.verifier) && TrustedResult(o) == Some((passed, code))
    {
      EligibleExactly(i.payload, s.meta.verifier, hashText, passed, code);
    }
    if IsEligibleResult(s, i, o) { assert VerifierResult(s, i, TrustedResult(o).value.0, TrustedResult(o).value.1); }
  }

  lemma AnswersKnown(s: Setting, hashText: string -> Hash, d: Disk, pre: HookInput, result: HookInput)
    requires AnsweredBy(s, pre, result) && MaySucceed(s, hashText, d, pre)
    ensures Answers(s, hashText, pre, result)
  {
    hide Sanitize, IsEligibleResult, TrustedResult, RunsVerifier, AtRoot, Listable, VerifierPre;
    SanitizeExactly(result.payload, s.meta.verifier, hashText);
    ResultExactly(s, hashText, result);
  }

  lemma RootExactly(s: Setting, hashText: string -> Hash, d: Disk, i: HookInput, captured: bool)
    requires i.Hook? && Sanitize(i.payload, s.meta.verifier, hashText).Some? && RunsVerifier(i.payload, s.meta.verifier) && ToolEvent(i.payload)
    ensures Correlates(d, Sanitize(i.payload, s.meta.verifier, hashText).value, captured) <==> AtRoot(d, i.payload, captured)
  {
    hide Sanitize, RecordedOperation;
    SanitizeExactly(i.payload, s.meta.verifier, hashText);
    OperationExactly(i.payload, s.meta.verifier, hashText);
  }

  /** Which hooks can do all of their work, in the payload's own terms. */
  lemma SucceedsExactly(s: Setting, hashText: string -> Hash, d: Disk, i: HookInput)
    ensures Succeeds(s, hashText, d, i) <==> MaySucceed(s, hashText, d, i)
  {
    hide Sanitize, Correlates, AtRoot, IsEligibleResult, IsExactPre, Observes, Observable, FoundManifestHash, RunsVerifier, Listable;
    ObservableExactly(s, hashText, d, i);
    PreExactly(s, i);
    if i.Hook? && i.found.Some? { ManifestHashExactly(s.digest, i.found.value, i.found.value); }
    if Observable(s, hashText, d, i) {
      ObservedTranslated(s, hashText, d, i);
      ResultExactly(s, hashText, i);
      if RunsVerifier(i.payload, s.meta.verifier) && ToolEvent(i.payload) {
        RootExactly(s, hashText, d, i, false);
        RootExactly(s, hashText, d, i, true);
      }
    }
  }

  lemma ObservedTranslated(s: Setting, hashText: string -> Hash, d: Disk, i: HookInput)
    requires Observable(s, hashText, d, i)
    ensures i.Hook? && Sanitize(i.payload, s.meta.verifier, hashText).Some?
  {
  }

  // ---- What the hash of a captured repository says ----

  /** The same file: path and kind, and the same content and flag or both deleted. */
  ghost predicate SameFile(digest: Content -> Hash, a: FoundFile, b: FoundFile) {
    && a.path == b.path && a.kind == b.kind && (a.bytes.Some? <==> b.bytes.Some?)
    && (a.bytes.Some? && b.bytes.Some? ==> digest(FileDoc(a.bytes.value)) == digest(FileDoc(b.bytes.value)) && a.executable == b.executable)
  }

  ghost predicate FileIn(digest: Content -> Hash, x: FoundFile, files: seq<FoundFile>) {
    exists j :: 0 <= j < |files| && SameFile(digest, x, files[j])
  }

  ghost predicate FilesIn(digest: Content -> Hash, a: seq<FoundFile>, b: seq<FoundFile>) { forall i :: 0 <= i < |a| ==> FileIn(digest, a[i], b) }

  /** The same repository, in whatever order its files are listed. */
  ghost predicate SameRepository(digest: Content -> Hash, f: Found, g: Found) {
    f.gitBase == g.gitBase && FilesIn(digest, f.files, g.files) && FilesIn(digest, g.files, f.files)
  }

  /** A repository with a base and no path listed twice. */
  ghost predicate Listable(f: Found) {
    f.gitBase != "" && forall i, j :: 0 <= i < j < |f.files| ==> f.files[i].path != f.files[j].path
  }

  lemma FileFacts(digest: Content -> Hash, a: FoundFile, b: FoundFile)
    ensures SameFile(digest, a, b) <==> a.path == b.path && Facts(FoundEntry(digest, a)) == Facts(FoundEntry(digest, b))
  {
  }

  lemma OverlayAt(digest: Content -> Hash, files: seq<FoundFile>, k: nat)
    requires UniquePaths(FoundEntries(digest, files)) && k < |files|
    ensures files[k].path in Overlay(FoundEntries(digest, files))
    ensures Overlay(FoundEntries(digest, files))[files[k].path] == Facts(FoundEntry(digest, files[k]))
  {
    var es := FoundEntries(digest, files);
    assert es[k] == FoundEntry(digest, files[k]);
    OverlayMembers(es, es[k]);
  }

  lemma OverlayFrom(digest: Content -> Hash, files: seq<FoundFile>, path: string) returns (k: nat)
    requires UniquePaths(FoundEntries(digest, files)) && path in Overlay(FoundEntries(digest, files))
    ensures k < |files| && files[k].path == path
  {
    var es := FoundEntries(digest, files);
    var e :| e in es && e.path == path;
    k :| 0 <= k < |es| && es[k] == e;
  }

  lemma SameFilesOverlay(digest: Content -> Hash, a: seq<FoundFile>, b: seq<FoundFile>)
    requires UniquePaths(FoundEntries(digest, a)) && UniquePaths(FoundEntries(digest, b))
    ensures Overlay(FoundEntries(digest, a)) == Overlay(FoundEntries(digest, b)) <==> FilesIn(digest, a, b) && FilesIn(digest, b, a)
  {
    hide SameFile, FoundEntry, FoundEntries, UniquePaths, Overlay;
    var x, y := Overlay(FoundEntries(digest, a)), Overlay(FoundEntries(digest, b));
    if x == y {
      forall i | 0 <= i < |a| ensures FileIn(digest, a[i], b) { OverlayIn(digest, a, b, i); }
      forall j | 0 <= j < |b| ensures FileIn(digest, b[j], a) { OverlayIn(digest, b, a, j); }
    }
    if FilesIn(digest, a, b) && FilesIn(digest, b, a) {
      forall path | path in x ensures path in y && y[path] == x[path] { OverlayAlike(digest, a, b, path); }
      forall path | path in y ensures path in x { OverlayAlike(digest, b, a, path); }
      assert x == y;
    }
  }

  lemma OverlayIn(digest: Content -> Hash, a: seq<FoundFile>, b: seq<FoundFile>, i: nat)
    requires UniquePaths(FoundEntries(digest, a)) && UniquePaths(FoundEntries(digest, b)) && i < |a|
    requires Overlay(FoundEntries(digest, a)) == Overlay(FoundEntries(digest, b))
    ensures FileIn(digest, a[i], b)
  {
    hide SameFile, FoundEntry, FoundEntries, UniquePaths, Overlay;
    OverlayAt(digest, a, i);
    var j := OverlayFrom(digest, b, a[i].path);
    OverlayAt(digest, b, j);
    FileFacts(digest, a[i], b[j]);
  }

  lemma OverlayAlike(digest: Content -> Hash, a: seq<FoundFile>, b: seq<FoundFile>, path: string)
    requires UniquePaths(FoundEntries(digest, a)) && UniquePaths(FoundEntries(digest, b)) && FilesIn(digest, a, b)
    requires path in Overlay(FoundEntries(digest, a))
    ensures path in Overlay(FoundEntries(digest, b)) && Overlay(FoundEntries(digest, b))[path] == Overlay(FoundEntries(digest, a))[path]
  {
    hide SameFile, FoundEntry, FoundEntries, UniquePaths, Overlay;
    var i := OverlayFrom(digest, a, path);
    OverlayAt(digest, a, i);
    assert FileIn(digest, a[i], b);
    var j: nat :| j < |b| && SameFile(digest, a[i], b[j]);
    FileFacts(digest, a[i], b[j]);
    OverlayAt(digest, b, j);
  }

  lemma ListableExactly(digest: Content -> Hash, f: Found)
    ensures CanonicalText(f.gitBase, FoundEntries(digest, f.files)).Ok? <==> Listable(f)
  {
    var es := FoundEntries(digest, f.files);
    assert forall i :: 0 <= i < |es| ==> es[i].path == f.files[i].path;
  }

  /** A captured repository has a manifest hash exactly when it has a base and lists no path twice; two of them have the same
      hash when they are the same, and otherwise only if two different manifests have one digest. */
  lemma ManifestHashExactly(digest: Content -> Hash, f: Found, g: Found)
    ensures FoundManifestHash(digest, f).Some? <==> Listable(f)
    ensures Listable(f) && Listable(g) && SameRepository(digest, f, g) ==> FoundManifestHash(digest, f) == FoundManifestHash(digest, g)
    ensures Listable(f) && Listable(g) && FoundManifestHash(digest, f) == FoundManifestHash(digest, g) ==>
      SameRepository(digest, f, g) || exists a, b :: a != b && digest(ManifestDoc(a)) == digest(ManifestDoc(b))
  {
    hide CanonicalText, FilesIn, FoundEntries, Overlay;
    ListableExactly(digest, f);
    ListableExactly(digest, g);
    if Listable(f) && Listable(g) {
      var a, b := FoundEntries(digest, f.files), FoundEntries(digest, g.files);
      ListedOnce(digest, f);
      ListedOnce(digest, g);
      CanonicalIdentity(f.gitBase, a, g.gitBase, b);
      SameFilesOverlay(digest, f.files, g.files);
    }
  }

  lemma ListedOnce(digest: Content -> Hash, f: Found)
    requires Listable(f)
    ensures UniquePaths(FoundEntries(digest, f.files))
  {
  }

  // ---- What a hook leaves ----

  /** The event record of an observed payload: its kind, its time, and the operation it names. */
  ghost predicate EventTells(p: Payload, e: AgentEvent) {
    && p.event == Some(e.kind) && e.timestamp == p.observedAt
    && (e.operation.Some? <==> ToolEvent(p) && Known(p.toolUseId) && Known(p.toolName))
    && (e.operation.Some? ==> p.toolUseId == Some(e.operation.value.occurrence) && p.toolName == Some(e.operation.value.name))
  }

  /** From `a` to `b` the hook has written no more than its payload allows: an event only if it is observed; a marker and a
      checkpoint only as the verifier's pre hook, for the operation it names; a receipt only as a result hook of the
      verifier, for the operation it names, with the result it reports. */
  ghost predicate WritesOnly(s: Setting, hashText: string -> Hash, a: Disk, b: Disk, i: HookInput) {
    && (!Observes(s, hashText, a, i) ==> b == a.(anomalies := b.anomalies))
    && (forall id :: id in b.events && id !in a.events ==> i.Hook? && EventTells(i.payload, b.events[id]))
    && (b.checkpoints != a.checkpoints ==> VerifierPre(s, i))
    && (b.pending != a.pending ==> VerifierPre(s, i) && MarkerOnly(a, b, i.payload))
    && (b.receipts != a.receipts ==> i.Hook? && RunsVerifier(i.payload, s.meta.verifier) && ReceiptOnly(a, b, i.payload))
  }

  /** One marker more, of the operation the payload names. */
  ghost predicate MarkerOnly(a: Disk, b: Disk, p: Payload) {
    && AtRoot(a, p, false) && p.toolUseId.value in b.pending
    && b.pending == a.pending[p.toolUseId.value := b.pending[p.toolUseId.value]]
  }

  /** One receipt more, of the operation the payload names, with the result it reports. */
  ghost predicate ReceiptOnly(a: Disk, b: Disk, p: Payload) {
    && AtRoot(a, p, true) && ReceiptId(p.toolUseId.value) !in a.receipts && ReceiptId(p.toolUseId.value) in b.receipts
    && var r := b.receipts[ReceiptId(p.toolUseId.value)];
    b.receipts == a.receipts[ReceiptId(p.toolUseId.value) := r] && ReportsResult(p, r.passed, r.exitCode)
  }

  lemma BlobTouches(s: Setting, d: Disk, u: nat, c: Content, source: Source, locator: Locator)
    ensures var x := BlobDeed(s, d, u, c, source, locator); x.disk == d.(blobs := x.disk.blobs)
  {
  }

  lemma ProvenanceTouches(s: Setting, d: Disk, u: nat, output: Id, inputs: seq<Ref>)
    ensures var x := ProvenanceDeed(s, d, u, output, inputs); x.disk == d.(blobs := x.disk.blobs, provenance := x.disk.provenance)
  {
    hide BlobDeed;
    var p := Provenance(ProvenanceId(u), s.meta.producerRef, output, inputs, Some(s.meta.configRef));
    BlobTouches(s, d.(provenance := d.provenance[ProvenanceId(u) := p]), u + 1, ProvenanceDoc(p), RecordSource, RecordAt(ProvenanceRecords, ProvenanceId(u)));
  }

  /** The event deed writes one event of this observation, or none. */
  lemma EventTouches(s: Setting, d: Disk, u: nat, o: Observation)
    ensures var x := EventDeed(s, d, u, o);
      && OnlyEvents(d, x.disk)
      && (forall id :: id in x.disk.events && id !in d.events ==>
            var e := x.disk.events[id]; e.kind == o.event && e.timestamp == o.observedAt && e.operation == RecordedOperation(o))
  {
    hide BlobDeed, ProvenanceDeed, RecordedOperation;
    var n := d.sequence + 1;
    BlobTouches(s, d.(sequence := n), u, ObservationDoc(o, n), HookSanitized, HookObservation(n));
    var source := BlobDeed(s, d.(sequence := n), u, ObservationDoc(o, n), HookSanitized, HookObservation(n));
    if source.Did? {
      var id := EventId(source.uuid);
      ProvenanceTouches(s, source.disk, source.uuid + 1, id, [source.value]);
      var proof := ProvenanceDeed(s, source.disk, source.uuid + 1, id, [source.value]);
      if proof.Did? {
        var e := MakeEvent(s, id, o, n, Some(proof.value));
        BlobTouches(s, proof.disk.(events := proof.disk.events[e.id := e]), proof.uuid, EventDoc(e), RecordSource, RecordAt(Events, e.id));
      }
    }
  }

  lemma {:induction false} FilesTouch(s: Setting, d: Disk, u: nat, files: seq<FoundFile>)
    ensures var x := FilesDeed(s, d, u, files); x.disk == d.(blobs := x.disk.blobs)
    decreases |files|
  {
    hide BlobDeed;
    if |files| > 0 {
      var f := files[|files| - 1];
      FilesTouch(s, d, u, files[..|files| - 1]);
      var most := FilesDeed(s, d, u, files[..|files| - 1]);
      if most.Did? && f.bytes.Some? { BlobTouches(s, most.disk, most.uuid, FileDoc(f.bytes.value), CapturedFileSource, FileAt(f.path)); }
    }
  }

  lemma CaptureTouches(s: Setting, d: Disk, u: nat, found: Found, op: string)
    ensures var x := CaptureDeed(s, d, u, found, op); x.disk == d.(blobs := x.disk.blobs, manifests := x.disk.manifests)
  {
    hide BlobDeed, FilesDeed, CanonicalText;
    FilesTouch(s, d, u, found.files);
    var contents := FilesDeed(s, d, u, found.files);
    var text := CanonicalText(found.gitBase, FoundEntries(s.digest, found.files));
    if contents.Did? && text.Ok? {
      var m := ManifestDoc(text.value);
      BlobTouches(s, contents.disk.(manifests := contents.disk.manifests[s.digest(m) := m]), contents.uuid, m, ManifestSource, ManifestAt(s.digest(m)));
      var kept := ManifestDeed(s, contents.disk, contents.uuid, m);
      if kept.Did? {
        BlobTouches(s, kept.disk, kept.uuid, CaptureDoc(found.gitBase, kept.value.hash, |found.files|), CaptureSource, CaptureAt(op));
      }
    }
  }

  lemma CheckpointTouches(s: Setting, d: Disk, u: nat, found: Found, op: string)
    ensures OnlyCheckpoints(d, CheckpointDeed(s, d, u, found, op).disk)
  {
    hide BlobDeed, ProvenanceDeed, CaptureDeed, MakeCheckpoint;
    CaptureTouches(s, d, u, found, op);
    var kept := CaptureDeed(s, d, u, found, op);
    if kept.Did? {
      var id := CheckpointId(kept.uuid);
      ProvenanceTouches(s, kept.disk, kept.uuid + 1, id, kept.value.inputs);
      var proof := ProvenanceDeed(s, kept.disk, kept.uuid + 1, id, kept.value.inputs);
      if proof.Did? {
        var n := proof.disk.sequence + 1;
        var c := MakeCheckpoint(s, id, found, n, kept.value.manifest, kept.value.observed, Some(proof.value));
        var numbered := proof.disk.(sequence := n);
        BlobTouches(s, numbered.(checkpoints := numbered.checkpoints[c.id := c]), proof.uuid, CheckpointDoc(c), RecordSource, RecordAt(Checkpoints, c.id));
      }
    }
  }

  /** The pre-state deed writes a checkpoint and the marker of the observed operation, or less. */
  lemma PreTouches(s: Setting, d: Disk, u: nat, o: Observation, id: Id, found: Option<Found>)
    requires id in d.events
    ensures var x := PreDeed(s, d, u, o, id, found);
      && x.disk.receipts == d.receipts && x.disk.events == d.events && x.disk.external == d.external
      && (x.disk.pending != d.pending ==>
            && RecordedOperation(o).Some? && o.cwdScope == "."
            && var op := RecordedOperation(o).value.occurrence;
            op !in d.pending && op in x.disk.pending && x.disk.pending == d.pending[op := x.disk.pending[op]])
  {
    hide CheckpointDeed, RecordedOperation, MakePending;
    if RecordedOperation(o).Some? && found.Some? { CheckpointTouches(s, d, u, found.value, RecordedOperation(o).value.occurrence); }
  }

  /** The result deed writes the receipt of the observed operation with the observed result, or less. */
  lemma ResultTouches(s: Setting, d: Disk, u: nat, o: Observation, id: Id)
    requires id in d.events
    ensures var x := ResultDeed(s, d, u, o, id);
      && OnlyReceipts(d, x.disk)
      && (x.disk.receipts != d.receipts ==>
            && RecordedOperation(o).Some? && TrustedResult(o).Some? && o.cwdScope == "." && RecordedOperation(o).value.occurrence in d.pending
            && var rid := ReceiptId(RecordedOperation(o).value.occurrence);
            && rid !in d.receipts && rid in x.disk.receipts && x.disk.receipts == d.receipts[rid := x.disk.receipts[rid]]
            && TrustedResult(o) == Some((x.disk.receipts[rid].passed, x.disk.receipts[rid].exitCode)))
  {
    hide BlobDeed, ProvenanceDeed, RecordedOperation, TrustedResult, ReceiptInputs, RecordRef, MarkerFits, CheckpointFits;
    if RecordedOperation(o).Some? && TrustedResult(o).Some? && Fits(s, d, o, RecordedOperation(o).value.occurrence) {
      var operation, op := RecordedOperation(o).value, RecordedOperation(o).value.occurrence;
      ProvenanceTouches(s, d, u, ReceiptId(op), ReceiptInputs(s, d, op, id));
      var proof := ProvenanceDeed(s, d, u, ReceiptId(op), ReceiptInputs(s, d, op, id));
      if proof.Did? {
        var n := proof.disk.sequence + 1;
        var r := MakeReceipt(s, op, operation, d.pending[op], d.events[id], RecordRef(s, Events, id, EventDoc(d.events[id])), TrustedResult(o).value, n, Some(proof.value));
        var numbered := proof.disk.(sequence := n);
        BlobTouches(s, numbered.(receipts := numbered.receipts[r.id := r]), proof.uuid, ReceiptDoc(r), RecordSource, RecordAt(Receipts, r.id));
      }
    }
  }

  /** The branch after the event writes no more than the payload allows. */
  lemma BranchTouches(s: Setting, hashText: string -> Hash, d: Disk, u: nat, i: HookInput, o: Observation, id: Id)
    requires i.Hook? && Sanitize(i.payload, s.meta.verifier, hashText) == Some(o) && id in d.events
    ensures var x := BranchDeed(s, d, u, i, o, id);
      && x.disk.events == d.events && x.disk.external == d.external
      && (x.disk.checkpoints != d.checkpoints ==> VerifierPre(s, i))
      && (x.disk.pending != d.pending ==> VerifierPre(s, i) && MarkerOnly(d, x.disk, i.payload))
      && (x.disk.receipts != d.receipts ==> RunsVerifier(i.payload, s.meta.verifier) && ReceiptOnly(d, x.disk, i.payload))
  {
    hide Sanitize, PreDeed, ResultDeed, RecordedOperation, TrustedResult, IsExactVerifier, RunsVerifier, Known;
    SanitizeExactly(i.payload, s.meta.verifier, hashText);
    OperationExactly(i.payload, s.meta.verifier, hashText);
    VerifierExactly(i.payload, s.meta.verifier);
    PreTouches(s, d, u, o, id, i.found);
    ResultTouches(s, d, u, o, id);
    if TrustedResult(o).Some? {
      EligibleExactly(i.payload, s.meta.verifier, hashText, TrustedResult(o).value.0, TrustedResult(o).value.1);
    }
  }

  /** One hook writes no more than its payload allows. */
  lemma HookWritesOnly(s: Setting, hashText: string -> Hash, x: Session, i: HookInput)
    ensures WritesOnly(s, hashText, x.disk, HandleAfter(s, hashText, x, i).disk, i)
  {
    hide Sanitize, EventDeed, BranchDeed, Observable, Observes, VerifierPre, RunsVerifier, AtRoot, Known, RecordedOperation, CapturesAfter;
    ObservableExactly(s, hashText, x.disk, i);
    if Observable(s, hashText, x.disk, i) {
      ObservedTranslated(s, hashText, x.disk, i);
      SanitizeExactly(i.payload, s.meta.verifier, hashText);
      OperationExactly(i.payload, s.meta.verifier, hashText);
      var o := Sanitize(i.payload, s.meta.verifier, hashText).value;
      var bound := x.disk.(external := Some(o.externalHash));
      EventTouches(s, bound, x.uuid, o);
      var e := EventDeed(s, bound, x.uuid, o);
      if e.Did? {
        BranchTouches(s, hashText, e.disk, e.uuid, i, o, e.value);
        SameRoot(x.disk, e.disk, i.payload);
      }
    }
  }

  lemma SameRoot(a: Disk, b: Disk, p: Payload)
    requires a.pending == b.pending
    ensures forall captured :: AtRoot(a, p, captured) <==> AtRoot(b, p, captured)
  {
  }

  /** What one hook amounts to. It blocks the tool call, with code 2, exactly for the verifier's pre hook that could not do
      all of its work, because its payload or the stored session does not allow it or a write was refused; what it could not
      do it leaves as one anomaly. One that did its work has left its event, a pre hook its marker and checkpoint, a result
      hook its receipt. */
  ghost predicate HookDone(s: Setting, hashText: string -> Hash, x: Session, y: Session, i: HookInput, code: int) {
    var ok := MaySucceed(s, hashText, x.disk, i) && !IsRefused(s, hashText, x, i);
    && code == (if VerifierPre(s, i) && !ok then 2 else 0) && y.disk.anomalies == x.disk.anomalies + (if ok then 0 else 1)
    && WritesOnly(s, hashText, x.disk, y.disk, i)
    && (ok ==> Recorded(s, hashText, x.disk, y.disk, i)) && (ok && VerifierPre(s, i) ==> Guarded(s, x.disk, y.disk, y.captures, i))
  }

  lemma HandleDone(s: Setting, hashText: string -> Hash, x: Session, i: HookInput)
    requires Stands(s, x)
    ensures HookDone(s, hashText, x, HandleAfter(s, hashText, x, i), i, ExitCode(s, hashText, x, i))
  {
    hide Stands, HandleAfter, ExitCode, MaySucceed, Succeeds, VerifierPre, IsExactPre, IsRefused, WritesOnly, Recorded, Guarded, Grows, MapGrows, Tracks, IsTorn;
    HandleKeeps(s, hashText, x, i);
    SucceedsExactly(s, hashText, x.disk, i);
    PreExactly(s, i);
    HookWritesOnly(s, hashText, x, i);
  }

  // ---- Whole runs ----

  /** Hook `k` of the run is the verifier's pre hook for this operation. */
  ghost predicate Announces(s: Setting, inputs: seq<HookInput>, k: int, op: string) {
    0 <= k < |inputs| && VerifierPre(s, inputs[k]) && inputs[k].payload.toolUseId == Some(op)
  }

  /** Hook `k` of the run is a result hook of the verifier for this operation, with this result. */
  ghost predicate Concludes(s: Setting, inputs: seq<HookInput>, k: int, op: string, passed: bool, code: int) {
    0 <= k < |inputs| && VerifierResult(s, inputs[k], passed, code) && inputs[k].payload.toolUseId == Some(op)
  }

  ghost predicate MarkersFrom(s: Setting, a: Disk, b: Disk, inputs: seq<HookInput>) {
    forall op :: op in b.pending && op !in a.pending ==> exists k :: Announces(s, inputs, k, op)
  }

  ghost predicate ReceiptFrom(s: Setting, inputs: seq<HookInput>, id: Id, r: Receipt) {
    id.ReceiptId? && exists k :: Concludes(s, inputs, k, id.operation, r.passed, r.exitCode)
  }

  ghost predicate ReceiptsFrom(s: Setting, a: Disk, b: Disk, inputs: seq<HookInput>) {
    forall id :: id in b.receipts && id !in a.receipts ==> ReceiptFrom(s, inputs, id, b.receipts[id])
  }

  ghost predicate CheckpointsFrom(s: Setting, a: Disk, b: Disk, inputs: seq<HookInput>) {
    b.checkpoints != a.checkpoints ==> exists k :: 0 <= k < |inputs| && VerifierPre(s, inputs[k])
  }

  lemma MarkersNext(s: Setting, hashText: string -> Hash, a: Disk, b: Disk, c: Disk, most: seq<HookInput>, last: HookInput)
    requires MarkersFrom(s, a, b, most) && WritesOnly(s, hashText, b, c, last)
    ensures MarkersFrom(s, a, c, most + [last])
  {
    hide VerifierPre, Observes, EventTells, ReceiptOnly, RunsVerifier;
    forall op | op in c.pending && op !in a.pending ensures exists k :: Announces(s, most + [last], k, op) {
      if op in b.pending {
        var k :| Announces(s, most, k, op);
        assert Announces(s, most + [last], k, op);
      } else {
        assert Announces(s, most + [last], |most|, op);
      }
    }
  }

  lemma ReceiptsNext(s: Setting, hashText: string -> Hash, a: Disk, b: Disk, c: Disk, most: seq<HookInput>, last: HookInput)
    requires ReceiptsFrom(s, a, b, most) && WritesOnly(s, hashText, b, c, last) && MapGrows(b.receipts, c.receipts)
    ensures ReceiptsFrom(s, a, c, most + [last])
  {
    hide VerifierPre, Observes, EventTells, MarkerOnly, RunsVerifier, ReportsResult;
    forall id | id in c.receipts && id !in a.receipts ensures ReceiptFrom(s, most + [last], id, c.receipts[id]) {
      var r := c.receipts[id];
      if id in b.receipts {
        assert ReceiptFrom(s, most, id, r);
        var k :| Concludes(s, most, k, id.operation, r.passed, r.exitCode);
        assert Concludes(s, most + [last], k, id.operation, r.passed, r.exitCode);
      } else {
        assert Concludes(s, most + [last], |most|, id.operation, r.passed, r.exitCode);
      }
    }
  }

  lemma CheckpointsNext(s: Setting, hashText: string -> Hash, a: Disk, b: Disk, c: Disk, most: seq<HookInput>, last: HookInput)
    requires CheckpointsFrom(s, a, b, most) && WritesOnly(s, hashText, b, c, last)
    ensures CheckpointsFrom(s, a, c, most + [last])
  {
    hide VerifierPre, Observes, EventTells, MarkerOnly, ReceiptOnly, RunsVerifier;
    if c.checkpoints != b.checkpoints {
      assert VerifierPre(s, (most + [last])[|most|]);
    } else if c.checkpoints != a.checkpoints {
      var k :| 0 <= k < |most| && VerifierPre(s, most[k]);
      assert (most + [last])[k] == most[k];
    }
  }

  /** Every marker that was not there before the run was written by a pre hook of the verifier for its operation, and every
      receipt by a result hook of the verifier for its operation, which reported the result the receipt states. */
  lemma {:induction false} RunWritesOnly(s: Setting, hashText: string -> Hash, x: Session, inputs: seq<HookInput>)
    requires Stands(s, x)
    ensures var y := RunAfter(s, hashText, x, inputs);
      MarkersFrom(s, x.disk, y.disk, inputs) && ReceiptsFrom(s, x.disk, y.disk, inputs) && CheckpointsFrom(s, x.disk, y.disk, inputs)
    decreases |inputs|
  {
    hide Stands, HandleAfter, MarkersFrom, ReceiptsFrom, CheckpointsFrom, WritesOnly, Succeeds, IsExactPre, Recorded, Guarded, Tracks, IsRefused, IsTorn, ExitCode;
    if |inputs| == 0 {
      NothingWritten(s, x.disk, inputs);
    } else {
      var most, last := inputs[..|inputs| - 1], inputs[|inputs| - 1];
      assert inputs == most + [last];
      RunWritesOnly(s, hashText, x, most);
      RunKeeps(s, hashText, x, most);
      var before, y := RunAfter(s, hashText, x, most), RunAfter(s, hashText, x, inputs);
      HandleKeeps(s, hashText, before, last);
      HookWritesOnly(s, hashText, before, last);
      MarkersNext(s, hashText, x.disk, before.disk, y.disk, most, last);
      ReceiptsNext(s, hashText, x.disk, before.disk, y.disk, most, last);
      CheckpointsNext(s, hashText, x.disk, before.disk, y.disk, most, last);
    }
  }

  lemma NothingWritten(s: Setting, d: Disk, inputs: seq<HookInput>)
    ensures MarkersFrom(s, d, d, inputs) && ReceiptsFrom(s, d, d, inputs) && CheckpointsFrom(s, d, d, inputs)
  {
  }
}
