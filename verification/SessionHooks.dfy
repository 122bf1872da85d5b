/** The evidence store of one session and the Claude hook handler that writes to it. Each method does what its deed says. */
module SessionHooks {
  import opened Ordering
  import opened CanonicalManifest
  import opened ForensicsRecords
  import opened SessionInvariant
  import opened SessionWrites
  import opened SessionDeeds
  import opened SessionRun
  import opened HookPayload
  import opened HookEffects

  /** What a call returns, or the exception it raises. */
  datatype Outcome<+T> = Fine(value: T) | Raised(reason: Reason) {
    predicate IsFailure() { Raised? }

    function PropagateFailure<U>(): Outcome<U>
      requires Raised?
    {
      Raised(reason)
    }

    function Extract(): T
      requires Fine?
    {
      value
    }
  }

  class Store {
    const setting: Setting
    const hashText: string -> Hash
    var disk: Disk
    var uuid: nat
    ghost var captures: map<string, Found>

    ghost function State(): Session
      reads this
    {
      Session(disk, uuid, captures)
    }

    ghost predicate Valid()
      reads this
    {
      Stands(setting, State())
    }

    /** The call left the store as `x` says, and ended as it says. */
    ghost predicate Follows<T>(x: Deed<T>, r: Outcome<T>)
      reads this`disk, this`uuid
    {
      disk == x.disk && uuid == x.uuid && r == if x.Did? then Fine(x.value) else Raised(x.reason)
    }

    /** `initialize_session`, on an empty data root; the arguments are the session's own metadata. */
    constructor (setting: Setting, hashText: string -> Hash)
      requires Initial(setting)
      ensures this.setting == setting && this.hashText == hashText && State() == NewSession(setting) && Valid()
      ensures Addressed(setting, disk) && RecordsIntact(setting, disk)
    {
      hide Standing, Addressed, RecordsIntact;
      NewSessionStands(setting);
      this.setting, this.hashText, uuid, captures := setting, hashText, 0, map[];
      disk := Disk(map[setting.digest(ProducerDoc) := ProducerDoc,
                       setting.digest(VerifierSpecDoc(setting.meta.verifier)) := VerifierSpecDoc(setting.meta.verifier)],
                   map[], None, 0, map[], map[], map[], map[], map[], 0);
    }

    /** `ref_for_bytes`: nothing is written when the blob file already holds other bytes. */
    method RefForBytes(c: Content, source: Source, locator: Locator) returns (r: Outcome<Ref>)
      modifies this`disk
      ensures Follows(BlobDeed(setting, old(disk), old(uuid), c, source, locator), r)
    {
      var h := setting.digest(c);
      if Conflicts(disk.blobs, h, c) { return Raised(Refused(c, disk.blobs[h])); }
      disk := disk.(blobs := disk.blobs[h := c]);
      return Fine(Ref(h, source, setting.meta.session, locator));
    }

    /** `persist_provenance`, under a fresh identity. */
    method PersistProvenance(output: Id, inputs: seq<Ref>) returns (r: Outcome<Ref>)
      modifies this`disk, this`uuid
      ensures Follows(ProvenanceDeed(setting, old(disk), old(uuid), output, inputs), r)
    {
      hide BlobDeed;
      var id := ProvenanceId(uuid);
      uuid := uuid + 1;
      var p := Provenance(id, setting.meta.producerRef, output, inputs, Some(setting.meta.configRef));
      disk := disk.(provenance := disk.provenance[id := p]);
      r := RefForBytes(ProvenanceDoc(p), RecordSource, RecordAt(ProvenanceRecords, id));
    }

    /** `persist_record` of an event: the record file, then its blob. A refusal leaves the record without its blob. */
    method PersistEvent(e: AgentEvent) returns (r: Outcome<Ref>)
      modifies this`disk
      ensures Follows(EventFileDeed(setting, old(disk), old(uuid), e), r)
    {
      hide BlobDeed;
      disk := disk.(events := disk.events[e.id := e]);
      r := RefForBytes(EventDoc(e), RecordSource, RecordAt(Events, e.id));
    }

    /** `persist_record` of a checkpoint. */
    method PersistCheckpoint(c: Checkpoint) returns (r: Outcome<Ref>)
      modifies this`disk
      ensures Follows(CheckpointFileDeed(setting, old(disk), old(uuid), c), r)
    {
      hide BlobDeed;
      disk := disk.(checkpoints := disk.checkpoints[c.id := c]);
      r := RefForBytes(CheckpointDoc(c), RecordSource, RecordAt(Checkpoints, c.id));
    }

    /** `persist_record` of a receipt. */
    method PersistReceipt(x: Receipt) returns (r: Outcome<Ref>)
      modifies this`disk
      ensures Follows(ReceiptFileDeed(setting, old(disk), old(uuid), x), r)
    {
      hide BlobDeed;
      disk := disk.(receipts := disk.receipts[x.id := x]);
      r := RefForBytes(ReceiptDoc(x), RecordSource, RecordAt(Receipts, x.id));
    }

    /** `reserve_sequence`, under the session lock. */
    method ReserveSequence() returns (n: nat)
      modifies this`disk
      ensures n == old(disk.sequence) + 1 && disk == old(disk).(sequence := n)
    {
      n := disk.sequence + 1;
      disk := disk.(sequence := n);
    }

    /** `bind_external_session`: the first session bound stays; any other is refused. */
    method BindExternalSession(externalHash: Hash) returns (ok: bool)
      modifies this`disk
      ensures ok <==> old(disk.external) == None || old(disk.external) == Some(externalHash)
      ensures disk == if ok then old(disk).(external := Some(externalHash)) else old(disk)
    {
      if disk.external.Some? { return disk.external == Some(externalHash); }
      disk := disk.(external := Some(externalHash));
      return true;
    }

    /** `_event_from_observation`. */
    method EventFromObservation(o: Observation) returns (r: Outcome<Id>)
      modifies this`disk, this`uuid
      ensures Follows(EventDeed(setting, old(disk), old(uuid), o), r)
    {
      hide BlobDeed, ProvenanceDeed, EventFileDeed, MakeEvent;
      var sequence := ReserveSequence();
      var source :- RefForBytes(ObservationDoc(o, sequence), HookSanitized, HookObservation(sequence));
      var id := EventId(uuid);
      uuid := uuid + 1;
      var provenance :- PersistProvenance(id, [source]);
      var _ :- PersistEvent(MakeEvent(setting, id, o, sequence, Some(provenance)));
      return Fine(id);
    }

    /** `persist_manifest`: the manifest artifact, then its blob. */
    method PersistManifest(m: Content) returns (r: Outcome<Ref>)
      modifies this`disk
      ensures Follows(ManifestDeed(setting, old(disk), old(uuid), m), r)
    {
      hide BlobDeed;
      var h := setting.digest(m);
      if Conflicts(disk.manifests, h, m) { return Raised(Refused(m, disk.manifests[h])); }
      disk := disk.(manifests := disk.manifests[h := m]);
      r := RefForBytes(m, ManifestSource, ManifestAt(h));
    }

    /** The content half of the capture loop: every present file's bytes become a blob. */
    method StoreFiles(files: seq<FoundFile>) returns (r: Outcome<seq<Ref>>)
      modifies this`disk
      ensures Follows(FilesDeed(setting, old(disk), old(uuid), files), r)
    {
      hide BlobDeed;
      var refs: seq<Ref> := [];
      for i := 0 to |files|
        invariant Follows(FilesDeed(setting, old(disk), old(uuid), files[..i]), Fine(refs))
      {
        assert files[..i + 1][..i] == files[..i];
        if files[i].bytes.Some? {
          var stored := RefForBytes(FileDoc(files[i].bytes.value), CapturedFileSource, FileAt(files[i].path));
          if stored.Raised? {
            FilesStayUndone(setting, old(disk), old(uuid), files, i + 1);
            return Raised(stored.reason);
          }
          refs := refs + [stored.value];
        }
      }
      assert files[..|files|] == files;
      return Fine(refs);
    }

    /** The first half of a capture: store the file bytes, the canonical manifest and the capture observation. */
    method StoreCapture(found: Found, op: string) returns (r: Outcome<Capture>)
      modifies this`disk
      ensures Follows(CaptureDeed(setting, old(disk), old(uuid), found, op), r)
    {
      hide BlobDeed, ManifestDeed, FilesDeed, CanonicalText;
      var contents :- StoreFiles(found.files);
      var text := CanonicalText(found.gitBase, FoundEntries(setting.digest, found.files));
      if text.Err? { return Raised(Declined); }
      var manifest :- PersistManifest(ManifestDoc(text.value));
      var observed :- RefForBytes(CaptureDoc(found.gitBase, manifest.hash, |found.files|), CaptureSource, CaptureAt(op));
      return Fine(Capture(manifest, observed, [observed, manifest] + contents));
    }

    /** `capture_workspace_checkpoint`, once the repository has been read. */
    method CaptureCheckpoint(found: Found, op: string) returns (r: Outcome<Id>)
      modifies this`disk, this`uuid
      ensures Follows(CheckpointDeed(setting, old(disk), old(uuid), found, op), r)
      ensures r.Fine? ==> r.value in disk.checkpoints
    {
      hide CaptureDeed, ProvenanceDeed, MakeCheckpoint, BlobDeed;
      var kept :- StoreCapture(found, op);
      var id := CheckpointId(uuid);
      uuid := uuid + 1;
      var provenance :- PersistProvenance(id, kept.inputs);
      var sequence := ReserveSequence();
      var c := MakeCheckpoint(setting, id, found, sequence, kept.manifest, kept.observed, Some(provenance));
      var _ :- PersistCheckpoint(c);
      return Fine(id);
    }

    /** `persist_pending`, under the operation's name; a marker already there with other bytes stays. */
    method PersistPending(op: string, p: Pending) returns (ok: bool)
      modifies this`disk
      ensures ok <==> !Conflicts(old(disk.pending), op, p)
      ensures disk == if ok then old(disk).(pending := old(disk.pending)[op := p]) else old(disk)
    {
      if Conflicts(disk.pending, op, p) { return false; }
      disk := disk.(pending := disk.pending[op := p]);
      return true;
    }

    /** `_persist_verifier_pre_state`: a checkpoint, then the pending marker. */
    method PersistVerifierPreState(o: Observation, id: Id, found: Option<Found>) returns (r: Outcome<Id>)
      requires id in disk.events
      modifies this`disk, this`uuid
      ensures Follows(PreDeed(setting, old(disk), old(uuid), o, id, found), r)
    {
      hide CheckpointDeed, MakePending, RecordedOperation;
      var e, operation := disk.events[id], RecordedOperation(o);
      if operation.None? || o.cwdScope != "." || found.None? { return Raised(Declined); }
      var op := operation.value.occurrence;
      var checkpoint :- CaptureCheckpoint(found.value, op);
      var ok := PersistPending(op, MakePending(setting, o, e, disk.checkpoints[checkpoint], op));
      return if ok then Fine(id) else Raised(Declined);
    }

    /** `_persist_verifier_result`: the receipt of a correlated, receipt-eligible result, written once per operation. */
    method PersistVerifierResult(o: Observation, id: Id) returns (r: Outcome<Id>)
      requires id in disk.events
      modifies this`disk, this`uuid
      ensures Follows(ResultDeed(setting, old(disk), old(uuid), o, id), r)
    {
      hide ReceiptDeed, RecordedOperation, TrustedResult;
      var operation, trusted := RecordedOperation(o), TrustedResult(o);
      if operation.None? || o.cwdScope != "." || trusted.None? { return Raised(Declined); }
      var op := operation.value.occurrence;
      if op !in disk.pending { return Raised(Declined); }
      var p := disk.pending[op];
      if p.command != setting.meta.verifier || p.externalHash != o.externalHash || p.session != setting.meta.session ||
         p.toolUseId != op || p.specHash != setting.meta.specHash { return Raised(Declined); }
      if p.checkpointId !in disk.checkpoints { return Raised(Declined); }
      var c := disk.checkpoints[p.checkpointId];
      if c.session != setting.meta.session || c.manifestHash != p.testedHash ||
         setting.digest(CheckpointDoc(c)) != p.checkpointRef.hash { return Raised(Declined); }
      if ReceiptId(op) in disk.receipts { return Fine(id); }
      r := WriteReceipt(o, id, operation.value, trusted.value);
    }

    /** The writing half: provenance, a sequence number, the receipt record. */
    method WriteReceipt(o: Observation, id: Id, operation: Operation, trusted: (bool, int)) returns (r: Outcome<Id>)
      requires id in disk.events && operation.occurrence in disk.pending
      modifies this`disk, this`uuid
      ensures Follows(ReceiptDeed(setting, old(disk), old(uuid), o, id, operation, trusted), r)
    {
      hide ProvenanceDeed, ReceiptFileDeed, MakeReceipt, ReceiptInputs, RecordRef;
      var op := operation.occurrence;
      var p, e := disk.pending[op], disk.events[id];
      var provenance :- PersistProvenance(ReceiptId(op), ReceiptInputs(setting, disk, op, id));
      var sequence := ReserveSequence();
      var ref := RecordRef(setting, Events, id, EventDoc(e));
      var _ :- PersistReceipt(MakeReceipt(setting, op, operation, p, e, ref, trusted, sequence, Some(provenance)));
      return Fine(id);
    }

    /** `persist_anomaly`: a record of its own, under a random name. */
    method PersistAnomaly()
      modifies this`disk
      ensures disk == old(disk).(anomalies := old(disk.anomalies) + 1)
    {
      disk := disk.(anomalies := disk.anomalies + 1);
    }

    /** The part of `handle_claude_hook` inside its `try`. */
    method RunHook(input: HookInput) returns (r: Outcome<Id>)
      requires input.Hook?
      modifies this`disk, this`uuid
      ensures Follows(HookDeed(setting, hashText, old(disk), old(uuid), input), r)
    {
      hide EventDeed, PreDeed, ResultDeed, Sanitize, IsExactVerifier, TrustedResult;
      var exact := IsExactVerifier(input.payload, setting.meta.verifier);
      if !setting.meta.validatedProfile || input.repoIdentity != setting.meta.repoIdentity { return Raised(Declined); }
      var observed := Sanitize(input.payload, setting.meta.verifier, hashText);
      if observed.None? { return Raised(Declined); }
      var o := observed.value;
      var bound := BindExternalSession(o.externalHash);
      if !bound { return Raised(Declined); }
      var id :- EventFromObservation(o);
      if exact && o.event == PreToolUse {
        r := PersistVerifierPreState(o, id, input.found);
      } else if exact && IsResultEvent(o.event) && TrustedResult(o).Some? {
        r := PersistVerifierResult(o, id);
      } else {
        r := Fine(id);
      }
    }

    /** `handle_claude_hook`. What it did and what it returns are told from its payload; a payload that is anything but the
        verifier in the foreground leaves markers, checkpoints and receipts as they were and never blocks. */
    method HandleClaudeHook(input: HookInput) returns (code: int)
      requires Valid()
      modifies this`disk, this`uuid, this`captures
      ensures Valid() && Grows(old(disk), disk) && MapGrows(old(captures), captures)
      ensures State() == HandleAfter(setting, hashText, old(State()), input) && code == ExitCode(setting, hashText, old(State()), input)
      ensures HookDone(setting, hashText, old(State()), State(), input, code)
      ensures (!input.Hook? || input.payload.toolName != Some("Bash") || !input.payload.inputIsObject ||
               input.payload.command != Some(setting.meta.verifier) || input.payload.background == Some(true)) ==>
        disk.pending == old(disk.pending) && disk.checkpoints == old(disk.checkpoints) && disk.receipts == old(disk.receipts) && code == 0
    {
      hide HookDeed, Standing, CapturesAfter, Succeeds, IsExactPre, Recorded, Guarded, Tracks, IsRefused, IsTorn, Grows, MapGrows, MaySucceed, Observes,
        MarkerOnly, ReceiptOnly, EventTells;
      ghost var x := State();
      HandleDone(setting, hashText, x, input);
      HandleKeeps(setting, hashText, x, input);
      NoHook(setting, hashText, disk, uuid, input);
      if input.Unreadable? || input.Malformed? {
        PersistAnomaly();
        captures := CapturesAfter(setting, hashText, captures, input, false);
        return 0;
      }
      var r := RunHook(input);
      captures := CapturesAfter(setting, hashText, captures, input, r.Fine?);
      if r.Fine? { return 0; }
      PersistAnomaly();
      return if IsExactPre(setting, input) then 2 else 0;
    }

    /** Any run of hooks, one process after another: the invariant holds at the end, and nothing stored at any earlier
        point, nor any captured state bound to an operation, was altered by a later hook. */
    method RunHooks(inputs: seq<HookInput>) returns (codes: seq<int>)
      requires Valid()
      modifies this`disk, this`uuid, this`captures
      ensures Valid() && Grows(old(disk), disk) && MapGrows(old(captures), captures)
      ensures State() == RunAfter(setting, hashText, old(State()), inputs) && codes == Codes(setting, hashText, old(State()), inputs)
      ensures MarkersFrom(setting, old(disk), disk, inputs) && ReceiptsFrom(setting, old(disk), disk, inputs)
      ensures CheckpointsFrom(setting, old(disk), disk, inputs)
    {
      hide Stands, HandleAfter, ExitCode, Succeeds, IsExactPre, Recorded, Guarded, IsRefused, Grows, MapGrows, Tracks, NeverTorn, HookDone,
        VerifierPre, MarkersFrom, ReceiptsFrom, CheckpointsFrom;
      ghost var x := State();
      RunWritesOnly(setting, hashText, x, inputs);
      RunKeeps(setting, hashText, x, inputs);
      codes := [];
      for i := 0 to |inputs|
        invariant Valid() && State() == RunAfter(setting, hashText, x, inputs[..i])
        invariant codes == Codes(setting, hashText, x, inputs)[..i]
      {
        assert inputs[..i + 1][..i] == inputs[..i];
        var code := HandleClaudeHook(inputs[i]);
        assert code == Codes(setting, hashText, x, inputs)[i];
        codes := codes + [code];
      }
      assert inputs[..|inputs|] == inputs;
    }

    /** One verifier command from end to end: its pre hook, any hooks in between, its result hook. The pre hook lets the
        command through exactly when its input and the stored session allow it and none of its writes is refused. Then,
        unless a write of the result hook is refused, there is a receipt, and what it says was tested is the repository the
        pre hook found. */
    method PreThenResult(pre: HookInput, between: seq<HookInput>, result: HookInput) returns (code: int)
      requires Valid() && VerifierPre(setting, pre) && AnsweredBy(setting, pre, result)
      modifies this`disk, this`uuid, this`captures
      ensures Valid() && Grows(old(disk), disk)
      ensures code == 0 <==> MaySucceed(setting, hashText, old(disk), pre) && !IsRefused(setting, hashText, old(State()), pre)
      ensures var later := RunAfter(setting, hashText, HandleAfter(setting, hashText, old(State()), pre), between);
        && State() == HandleAfter(setting, hashText, later, result)
        && (code == 0 && !IsRefused(setting, hashText, later, result) ==>
              && pre.payload.toolUseId.Some? && pre.found.Some?
              && var id := ReceiptId(pre.payload.toolUseId.value);
              && id in disk.receipts && FoundManifestHash(setting.digest, pre.found.value) == Some(disk.receipts[id].testedHash))
    {
      hide Stands, HandleAfter, RunAfter, ExitCode, Succeeds, IsExactPre, Answers, Recorded, Guarded, IsRefused, Grows, MapGrows, Tracks, FoundManifestHash,
        MaySucceed, MarkersFrom, ReceiptsFrom, CheckpointsFrom, AnsweredBy, VerifierPre, WritesOnly;
      SucceedsExactly(setting, hashText, disk, pre);
      PreExactly(setting, pre);
      if MaySucceed(setting, hashText, disk, pre) {
        AnswersKnown(setting, hashText, disk, pre, result);
        PreThenResultBinds(setting, hashText, State(), pre, between, result);
      }
      code := HandleClaudeHook(pre);
      ghost var first := disk;
      var _ := RunHooks(between);
      GrowsTransitive(old(disk), first, disk);
      ghost var later := disk;
      var _ := HandleClaudeHook(result);
      GrowsTransitive(old(disk), later, disk);
    }
  }

  lemma {:induction false} FilesStayUndone(s: Setting, d: Disk, u: nat, files: seq<FoundFile>, n: nat)
    requires n <= |files| && FilesDeed(s, d, u, files[..n]).Undone?
    ensures FilesDeed(s, d, u, files) == FilesDeed(s, d, u, files[..n])
    decreases |files|
  {
    hide BlobDeed;
    if n == |files| {
      assert files[..n] == files;
    } else {
      var most := files[..|files| - 1];
      assert most[..n] == files[..n];
      FilesStayUndone(s, d, u, most, n);
    }
  }

  /** Input that is no hook payload gets nothing done. */
  lemma NoHook(s: Setting, hashText: string -> Hash, d: Disk, u: nat, i: HookInput)
    ensures !i.Hook? ==> HookDeed(s, hashText, d, u, i) == Undone(d, u, Declined) && !IsExactPre(s, i)
  {
  }
}
