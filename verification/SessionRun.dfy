/** A session under a run of hooks: what each hook leaves, and what holds of the whole run. */
module SessionRun {
  import opened Ordering
  import opened CanonicalManifest
  import opened ForensicsRecords
  import opened SessionInvariant
  import opened SessionWrites
  import opened SessionDeeds

  /** The session as its hooks leave it; `captures` holds what the pre hooks found, by operation. */
  datatype Session = Session(disk: Disk, uuid: nat, captures: map<string, Found>)

  /** `initialize_session`, on an empty data root. */
  function NewSession(s: Setting): Session {
    Session(Disk(map[s.digest(ProducerDoc) := ProducerDoc,
                     s.digest(VerifierSpecDoc(s.meta.verifier)) := VerifierSpecDoc(s.meta.verifier)],
                 map[], None, 0, map[], map[], map[], map[], map[], 0), 0, map[])
  }

  /** The metadata are the session's own, and its two configuration documents have digests of their own. */
  predicate Initial(s: Setting) {
    && s.digest(ProducerDoc) != s.digest(VerifierSpecDoc(s.meta.verifier))
    && s.meta.producerRef == Ref(s.digest(ProducerDoc), ProducerSource, s.meta.session, ProducerAt)
    && s.meta.configRef == Ref(s.digest(VerifierSpecDoc(s.meta.verifier)), ConfigSource, s.meta.session, ConfigAt)
    && s.meta.specHash == s.meta.configRef.hash
  }

  lemma NewSessionStands(s: Setting)
    requires Initial(s)
    ensures var x := NewSession(s); Standing(s, x.disk, x.uuid, x.captures) && Addressed(s, x.disk) && RecordsIntact(s, x.disk)
  {
    hide EventSound, CheckpointSound, PendingSound, ReceiptSound, ContentAddressed, ConfigSound;
    NewSessionConfigured(s);
  }

  lemma NewSessionConfigured(s: Setting)
    requires Initial(s)
    ensures ContentAddressed(s, NewSession(s).disk) && ConfigSound(s, NewSession(s).disk)
  {
  }

  /** `handle_claude_hook`: the session after one hook; a hook that is broken off leaves one anomaly. */
  function HandleAfter(s: Setting, hashText: string -> Hash, x: Session, i: HookInput): Session {
    var y := HookDeed(s, hashText, x.disk, x.uuid, i);
    Session(if y.Did? then y.disk else y.disk.(anomalies := y.disk.anomalies + 1), y.uuid, CapturesAfter(s, hashText, x.captures, i, y.Did?))
  }

  function ExitCode(s: Setting, hashText: string -> Hash, x: Session, i: HookInput): int {
    if HookDeed(s, hashText, x.disk, x.uuid, i).Did? || !IsExactPre(s, i) then 0 else 2
  }

  /** A write of this hook is refused. */
  predicate IsRefused(s: Setting, hashText: string -> Hash, x: Session, i: HookInput) { HookDeed(s, hashText, x.disk, x.uuid, i).WasRefused() }

  /** The refused write is a record's own blob. */
  predicate IsTorn(s: Setting, hashText: string -> Hash, x: Session, i: HookInput) { HookDeed(s, hashText, x.disk, x.uuid, i).WasTorn() }

  ghost predicate Stands(s: Setting, x: Session) { Standing(s, x.disk, x.uuid, x.captures) }

  lemma AnomalyStands(s: Setting, d: Disk, u: nat, captures: map<string, Found>)
    requires Standing(s, d, u, captures)
    ensures var b := d.(anomalies := d.anomalies + 1); Standing(s, b, u, captures) && Grows(d, b)
  {
    hide Sound;
    AnomalyAdded(s, d, captures, d.anomalies + 1);
  }

  /** One hook of the handler. It blocks the tool call, with code 2, exactly for a pre hook of the configured verifier that
      could not do all of its work; what it could not do it leaves as one anomaly. */
  lemma HandleKeeps(s: Setting, hashText: string -> Hash, x: Session, i: HookInput)
    requires Stands(s, x)
    ensures var y := HandleAfter(s, hashText, x, i);
      var ok := Succeeds(s, hashText, x.disk, i) && !IsRefused(s, hashText, x, i);
      && Stands(s, y) && Grows(x.disk, y.disk) && MapGrows(x.captures, y.captures)
      && Tracks(s, x.disk, y.disk, IsTorn(s, hashText, x, i))
      && ExitCode(s, hashText, x, i) == (if IsExactPre(s, i) && !ok then 2 else 0)
      && y.disk.anomalies == x.disk.anomalies + (if ok then 0 else 1)
      && (ok ==> Recorded(s, hashText, x.disk, y.disk, i))
      && (ok && IsExactPre(s, i) ==> Guarded(s, x.disk, y.disk, y.captures, i))
  {
    hide Standing, Met, Tracks, HookDeed, Succeeds, IsExactPre, CapturesAfter, Recorded, Guarded, Grows, MapGrows;
    HookDeedKeeps(s, hashText, x.disk, x.uuid, x.captures, i);
    var y := HookDeed(s, hashText, x.disk, x.uuid, i);
    if y.Undone? {
      AnomalyStands(s, y.disk, y.uuid, CapturesAfter(s, hashText, x.captures, i, false));
      var b := y.disk.(anomalies := y.disk.anomalies + 1);
      GrowsTransitive(x.disk, y.disk, b);
      SameRecordsAfter(s, x.disk, y.disk, b, y.WasTorn());
    }
  }

  /** A refused write names the two contents: the one this hook offered and the one its file holds, with one digest. */
  lemma RefusedMet(s: Setting, hashText: string -> Hash, x: Session, i: HookInput)
    requires Stands(s, x) && IsRefused(s, hashText, x, i)
    ensures var y := HookDeed(s, hashText, x.disk, x.uuid, i);
      Met(s, HandleAfter(s, hashText, x, i).disk, y.reason.offered, y.reason.held)
  {
    hide Standing, HookDeed, Succeeds, IsExactPre, CapturesAfter, Recorded, Guarded, Grows, MapGrows, Tracks;
    HookDeedKeeps(s, hashText, x.disk, x.uuid, x.captures, i);
  }

  lemma SameRecordsAfter(s: Setting, a: Disk, b: Disk, c: Disk, torn: bool)
    requires Tracks(s, a, b, torn) && c == b.(anomalies := c.anomalies)
    ensures Tracks(s, a, c, torn)
  {
  }

  /** The session after a run of hooks. */
  function RunAfter(s: Setting, hashText: string -> Hash, x: Session, inputs: seq<HookInput>): Session
    decreases |inputs|
  {
    if |inputs| == 0 then x
    else HandleAfter(s, hashText, RunAfter(s, hashText, x, inputs[..|inputs| - 1]), inputs[|inputs| - 1])
  }

  /** The exit code of each hook of a run. */
  function Codes(s: Setting, hashText: string -> Hash, x: Session, inputs: seq<HookInput>): seq<int> {
    seq(|inputs|, k requires 0 <= k < |inputs| => ExitCode(s, hashText, RunAfter(s, hashText, x, inputs[..k]), inputs[k]))
  }

  /** No hook of the run had the blob of a record refused. */
  ghost predicate NeverTorn(s: Setting, hashText: string -> Hash, x: Session, inputs: seq<HookInput>) {
    forall k :: 0 <= k < |inputs| ==> !IsTorn(s, hashText, RunAfter(s, hashText, x, inputs[..k]), inputs[k])
  }

  /** Any run of hooks: the invariant holds at the end, nothing stored earlier is lost or altered, and the records are
      intact exactly when they were before and none was torn. */
  lemma {:induction false} RunKeeps(s: Setting, hashText: string -> Hash, x: Session, inputs: seq<HookInput>)
    requires Stands(s, x)
    ensures var y := RunAfter(s, hashText, x, inputs);
      && Stands(s, y) && Grows(x.disk, y.disk) && MapGrows(x.captures, y.captures)
      && Tracks(s, x.disk, y.disk, !NeverTorn(s, hashText, x, inputs))
    decreases |inputs|
  {
    hide Stands, Tracks, HandleAfter, IsTorn, Grows, MapGrows, Succeeds, IsExactPre, Recorded, Guarded, IsRefused, ExitCode;
    if |inputs| == 0 {
      SameGrows(x.disk);
      SameMapGrows(x.captures);
      SameRecordsTrack(s, x.disk, x.disk);
      assert NeverTorn(s, hashText, x, inputs);
    } else {
      var most, last := inputs[..|inputs| - 1], inputs[|inputs| - 1];
      RunKeeps(s, hashText, x, most);
      var before := RunAfter(s, hashText, x, most);
      HandleKeeps(s, hashText, before, last);
      var y := HandleAfter(s, hashText, before, last);
      GrowsTransitive(x.disk, before.disk, y.disk);
      MapGrowsTransitive(x.captures, before.captures, y.captures);
      NeverTornLast(s, hashText, x, inputs);
      TracksJoined(s, x.disk, before.disk, y.disk, !NeverTorn(s, hashText, x, most), IsTorn(s, hashText, before, last));
    }
  }

  lemma MapGrowsTransitive(a: map<string, Found>, b: map<string, Found>, c: map<string, Found>)
    requires MapGrows(a, b) && MapGrows(b, c)
    ensures MapGrows(a, c)
  {
  }

  lemma TracksJoined(s: Setting, a: Disk, b: Disk, c: Disk, torn: bool, more: bool)
    requires Tracks(s, a, b, torn) && Tracks(s, b, c, more)
    ensures Tracks(s, a, c, torn || more)
  {
    hide Addressed, RecordsIntact;
  }

  lemma NeverTornLast(s: Setting, hashText: string -> Hash, x: Session, inputs: seq<HookInput>)
    requires |inputs| > 0
    ensures var most, last := inputs[..|inputs| - 1], inputs[|inputs| - 1];
      NeverTorn(s, hashText, x, inputs) <==>
        NeverTorn(s, hashText, x, most) && !IsTorn(s, hashText, RunAfter(s, hashText, x, most), last)
  {
    hide IsTorn, RunAfter;
    var most := inputs[..|inputs| - 1];
    forall k | 0 <= k < |most| ensures most[..k] == inputs[..k] && most[k] == inputs[k] { }
  }

  /** One verifier command from end to end: its pre hook, any hooks in between, its result hook. The command is let through
      exactly when the pre hook's input and the stored session allow it and none of its writes is refused; then, unless a
      write of the result hook is refused, there is a receipt, and what it says was tested is the repository the pre hook
      found. */
  lemma PreThenResultBinds(s: Setting, hashText: string -> Hash, x: Session, pre: HookInput, between: seq<HookInput>, result: HookInput)
    requires Stands(s, x) && IsExactPre(s, pre) && Answers(s, hashText, pre, result)
    ensures ExitCode(s, hashText, x, pre) == 0 <==> Succeeds(s, hashText, x.disk, pre) && !IsRefused(s, hashText, x, pre)
    ensures var later := RunAfter(s, hashText, HandleAfter(s, hashText, x, pre), between);
      var y := HandleAfter(s, hashText, later, result);
      && Stands(s, y) && Grows(x.disk, y.disk)
      && (ExitCode(s, hashText, x, pre) == 0 && !IsRefused(s, hashText, later, result) ==>
            && pre.payload.toolUseId.Some? && pre.found.Some?
            && var id := ReceiptId(pre.payload.toolUseId.value);
            && id in y.disk.receipts && FoundManifestHash(s.digest, pre.found.value) == Some(y.disk.receipts[id].testedHash))
  {
    hide Sound, FoundManifestHash, ObservationOf, Sanitize, Succeeds, Answers, IsExactPre, IsEligibleResult, RecordedOperation, HandleAfter, ExitCode,
      IsRefused, IsTorn, Tracks, NeverTorn, RunAfter;
    HandleKeeps(s, hashText, x, pre);
    var first := HandleAfter(s, hashText, x, pre);
    RunKeeps(s, hashText, first, between);
    var later := RunAfter(s, hashText, first, between);
    HandleKeeps(s, hashText, later, result);
    var y := HandleAfter(s, hashText, later, result);
    GrowsTransitive(x.disk, first.disk, later.disk);
    GrowsTransitive(x.disk, later.disk, y.disk);
    if ExitCode(s, hashText, x, pre) == 0 {
      AnswerSucceeds(s, hashText, x.disk, later.disk, pre, result);
      if !IsRefused(s, hashText, later, result) {
        NamedReceiptBinding(s, y.disk, y.captures, pre.payload.toolUseId.value);
      }
    }
  }
}
