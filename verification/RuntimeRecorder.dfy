/** The captured runtime itself: it numbers, journals, binds, sends and seals. Each method follows its course. */
module RuntimeRecorder {
  import opened Ordering
  import opened Labels
  import opened Evidence
  import opened UsageLedger
  import opened RuntimeRecords
  import opened RuntimeAudit
  import opened RuntimeInvariant
  import opened RuntimeSend
  import opened RuntimeSeal
  import opened RuntimeCourse
  import opened StateAudit
  import opened RuntimeRun
  import opened RuntimeMeaning
  import opened WholeAudit

  /** How a call ended: normally, or with one of the exceptions it can raise. A conflict names the refused content and the
      one the store holds in its place. */
  datatype Status = Done | AlreadySealed | Conflict(offered: Blob, held: Blob) | ToolFailed | ProviderBoundElsewhere

  // ---- The provider ----

  /** `CapturedProvider`: one run owns it. */
  class CapturedProvider {
    const serializer: string -> string
    var bound: Option<(string, Ref)>

    constructor (serializer: string -> string)
      ensures this.serializer == serializer && bound == None
    {
      this.serializer, bound := serializer, None;
    }

    /** `bind_capture`. */
    method BindCapture(run: string, producer: Ref) returns (ok: bool)
      modifies this`bound
      ensures ok <==> old(bound) == None || old(bound) == Some((run, producer))
      ensures bound == if ok then Some((run, producer)) else old(bound)
    {
      if bound.Some? && bound.value != (run, producer) { return false; }
      bound := Some((run, producer));
      return true;
    }
  }

  // ---- The runtime ----

  /** The physical records are those of attempts already numbered, so the next attempt's file names are unused. */
  ghost predicate Numbered(w: Setup, r: Recording) {
    forall name :: name in r.physical ==>
      name.PhysicalName? && name.attempt.AttemptName? && name.attempt.run == w.run && name.attempt.n < r.attemptSeq
  }

  /** Nothing recorded is lost. */
  ghost predicate Later(a: Recording, b: Recording) { Kept(a.blobs, b.blobs) && a.events <= b.events }

  /** What a refused write leaves: everything recorded so far, and the content it met. */
  ghost predicate Spoiled(w: Setup, a: Recording, b: Recording, offered: Blob, held: Blob) {
    && Later(a, b) && w.codec.digest(offered) in b.blobs && b.blobs[w.codec.digest(offered)] == held && offered != held
  }

  /** Contents that can be stored side by side. */
  ghost predicate Apart(w: Setup, contents: seq<Blob>) {
    forall i, j :: 0 <= i < j < |contents| && w.codec.digest(contents[i]) == w.codec.digest(contents[j]) ==> contents[i] == contents[j]
  }

  class CapturedRuntime {
    const w: Setup
    const site: Site
    const revision: string
    const initial: RepoState
    var sealed: bool
    var eventSeq: nat
    var attemptSeq: nat
    var toolCounter: nat
    var blobs: map<Hash, Blob>
    var events: seq<Event>
    var snapshots: seq<Snapshot>
    var physical: map<Name, PhysicalAttempt>
    var usages: seq<Attempt>
    var bindings: seq<FileBinding>
    var workspace: map<string, string>
    var lastEnd: Option<Transport>

    function R(): Recording
      reads this`blobs, this`events, this`snapshots, this`attemptSeq, this`physical, this`usages, this`toolCounter, this`bindings
    {
      Recording(blobs, events, snapshots, attemptSeq, physical, usages, toolCounter, bindings)
    }

    ghost predicate Valid()
      reads this`blobs, this`events, this`snapshots, this`attemptSeq, this`physical, this`usages, this`toolCounter, this`bindings, this`eventSeq
    {
      eventSeq == |events| && Numbered(w, R())
    }

    /** The call that started from `a` went as `c` says. */
    ghost predicate Follows(a: Recording, c: Course<Recording>, status: Status)
      reads this`blobs, this`events, this`snapshots, this`attemptSeq, this`physical, this`usages, this`toolCounter, this`bindings, this`eventSeq
    {
      match c
      case On(x) => status == Done && R() == x && Valid()
      case Halted(offered, held) => status == Conflict(offered, held) && Spoiled(w, a, R(), offered, held)
    }

    /** A new run stores its producer manifest, its configuration, the tree of its workspace and its initial state. */
    constructor (w: Setup, site: Site, revision: string, configText: string, workspace: map<string, string>)
      requires w.producer == RunRef(w, ManifestBytes(ProducerFields(revision)), ProducerManifest)
      requires w.config == RunRef(w, Bytes(configText), ConfigAt)
      requires var tree := TreeOf(w, site, workspace);
        Apart(w, [ManifestBytes(ProducerFields(revision)), Bytes(configText), TreeBytes(tree), StateBytes(InitialState(w, tree))])
      ensures Valid() && !sealed && attemptSeq == 0 && events == [] && this.w == w && this.site == site && this.workspace == workspace
      ensures this.revision == revision && initial == InitialState(w, TreeOf(w, site, workspace)) && Opened(w, revision, initial, blobs)
      ensures Recorded(w, R(), [])
    {
      hide TreeOf, ProducerFields, InitialState, FirstBlobs, Apart, Opened, Recorded, RunRef;
      var tree := TreeOf(w, site, workspace);
      this.w, this.site, this.revision, initial := w, site, revision, InitialState(w, tree);
      sealed, eventSeq, attemptSeq, toolCounter := false, 0, 0, 0;
      blobs := FirstBlobs(w, ManifestBytes(ProducerFields(revision)), Bytes(configText), TreeBytes(tree), StateBytes(InitialState(w, tree)));
      events, snapshots, physical, usages, bindings, this.workspace, lastEnd := [], [], map[], [], [], workspace, None;
      FirstRecorded(w, revision, configText, tree);
    }

    /** `ingest_runtime_bytes`: write once; other bytes under the same digest are refused. */
    method Ingest(b: Blob) returns (status: Status)
      requires Valid()
      modifies this`blobs
      ensures Follows(old(R()), Keep(w, old(R()), b), status)
      ensures status != Done ==> R() == old(R()) && Valid()
    {
      if Conflicts(w, blobs, b) { return Conflict(b, blobs[w.codec.digest(b)]); }
      blobs := blobs[w.codec.digest(b) := b];
      return Done;
    }

    /** `public_context_ref`: a public constant, under its own source and place. */
    method PublicContext(content: string, system: bool) returns (status: Status, turn: Turn)
      requires Valid()
      modifies this`blobs
      ensures match PublicCourse(w, old(R()), content, system)
        case On(p) => status == Done && R() == p.r && turn == p.turn && Valid()
        case Halted(offered, held) => status == Conflict(offered, held) && Spoiled(w, old(R()), R(), offered, held)
    {
      hide Conflicts;
      status := Ingest(Bytes(content));
      turn := ConstantTurn(w, content, system);
    }

    /** `record_event`: the sequence number is taken first, then the payload is stored and the event appended. Every kind
        but a tool start is recorded as completed. */
    method RecordEvent(kind: EventKind, call: Option<Name>, fields: Fields) returns (status: Status)
      requires Valid()
      modifies this`eventSeq, this`blobs, this`events
      ensures old(sealed) ==> status == AlreadySealed && R() == old(R()) && Valid()
      ensures !old(sealed) ==> Follows(old(R()), Journal(w, old(R()), kind, call, fields), status)
      ensures if status == Done then |events| == |old(events)| + 1 else events == old(events)
    {
      hide NewEvent;
      if sealed { return AlreadySealed; }
      eventSeq := eventSeq + 1;
      if Conflicts(w, blobs, PayloadBytes(fields)) { return Conflict(PayloadBytes(fields), blobs[w.codec.digest(PayloadBytes(fields))]); }
      blobs := blobs[w.codec.digest(PayloadBytes(fields)) := PayloadBytes(fields)];
      events := events + [NewEvent(w, eventSeq - 1, kind, call, fields, kind != ToolStart)];
      return Done;
    }

    /** The number and the start event of a tool call. A sealed run refuses it after the number is taken. */
    method StartTool(fields: Fields) returns (status: Status, call: Name)
      requires Valid()
      modifies this`toolCounter, this`eventSeq, this`blobs, this`events
      ensures call == ToolName(w.run, old(toolCounter))
      ensures old(sealed) ==> status == AlreadySealed && R() == old(R()).(toolCounter := old(toolCounter) + 1) && Valid()
      ensures !old(sealed) ==> Follows(old(R()), Begun(w, old(R()), fields), status)
      ensures |events| == |old(events)| + (if status == Done then 1 else 0)
    {
      hide Journal, Kept;
      call := ToolName(w.run, toolCounter);
      ghost var a := R();
      toolCounter := toolCounter + 1;
      assert R() == a.(toolCounter := a.toolCounter + 1);
      status := RecordEvent(ToolStart, Some(call), fields);
    }

    /** The call that started from `a` ended as `c` says. */
    ghost predicate Ends(a: Recording, c: Course<ToolEnd>, status: Status, result: Option<ToolOutcome>)
      reads this`blobs, this`events, this`snapshots, this`attemptSeq, this`physical, this`usages, this`toolCounter, this`bindings, this`eventSeq
    {
      match c
      case On(e) => R() == e.r && result == e.outcome && Valid() && status == if e.outcome.Some? then Done else ToolFailed
      case Halted(offered, held) => status == Conflict(offered, held) && result.None? && Spoiled(w, a, R(), offered, held)
    }

    /** The `except` branch of a tool call. */
    method FailTool(call: Name, tool: Tool, path: string) returns (status: Status)
      requires Valid() && !sealed
      modifies this`eventSeq, this`blobs, this`events
      ensures Ends(old(R()), Abandoned(w, old(R()), call, tool, path), status, None)
    {
      hide Journal, Failed, Numbered, Kept;
      status := RecordEvent(ToolFinish, Some(call), Failed(tool, path));
      if status == Done { return ToolFailed; }
    }

    /** The normal end of a call whose body is stored: its finish event is recorded, a read bound. */
    method FinishTool(call: Name, tool: Tool, path: Option<string>, text: string, sha: Option<Hash>) returns (status: Status, result: Option<ToolOutcome>)
      requires Valid() && !sealed
      modifies this`eventSeq, this`blobs, this`events, this`bindings
      ensures Ends(old(R()), Finish(w, old(R()), call, tool, path, text, sha), status, result)
    {
      hide Journal, Finished, Numbered, RunRef, NewEvent, Spoiled;
      var n, body := |events|, RunRef(w, Bytes(text), ToolBody(call));
      status := RecordEvent(ToolFinish, Some(call), Finished(tool, path, body, sha));
      if status != Done { return status, None; }
      var binding := if tool == ReadTool && path.Some? then Some(ReadBinding(w, n, path.value, text)) else None;
      if binding.Some? {
        ghost var x := R();
        bindings := bindings + [binding.value];
        SamePhysical(w, x, R());
      }
      return Done, Some(ToolOutcome(call, EventName(w.run, n), body.(labels := [Label(Runtime, Some(w.run), Some(n), [])]), binding, text));
    }

    /** The bytes a read or write is about become evidence; if they cannot be stored, the call is finished as failed. */
    method FinishWithText(call: Name, tool: Tool, path: string, text: string) returns (status: Status, result: Option<ToolOutcome>)
      requires Valid() && !sealed
      modifies this`eventSeq, this`blobs, this`events, this`bindings
      ensures var a, sha := old(R()), Some(w.codec.digest(Bytes(text)));
        Ends(a, if Conflicts(w, a.blobs, Bytes(text)) then Abandoned(w, a, call, tool, path)
                else Completed(w, a, call, tool, Some(path), text, sha), status, result)
      ensures status == Done ==> result.value.text == text
    {
      hide Abandoned, Finish, Conflicts, Spoiled, Later, Numbered;
      ghost var a := R();
      status := Ingest(Bytes(text));
      if status == Done {
        ghost var held := R();
        KeepLater(w, a, Bytes(text));
        FinishText(w, held, call, tool, Some(path), text, Some(w.codec.digest(Bytes(text))));
        status, result := FinishTool(call, tool, Some(path), text, Some(w.codec.digest(Bytes(text))));
        if status.Conflict? { SpoiledSince(w, a, held, R(), status.offered, status.held); }
        return;
      }
      result := None;
      status := FailTool(call, tool, path);
    }

    /** `RuntimeTools.read_file`. A read that cannot be done, or whose bytes cannot be stored, is finished as failed. */
    method ReadFile(path: string) returns (status: Status, result: Option<ToolOutcome>)
      requires Valid()
      modifies this`toolCounter, this`eventSeq, this`blobs, this`events, this`bindings
      ensures old(sealed) ==> status == AlreadySealed && result.None? && R() == old(R()).(toolCounter := old(toolCounter) + 1) && Valid()
      ensures !old(sealed) ==> Ends(old(R()), ToolCourse(w, old(R()), workspace, ReadCall(path)), status, result)
      ensures status == Done || status == ToolFailed ==> Recounts(w, old(R()), R(), workspace, ReadCall(path), result) && (result.Some? <==> status == Done)
      ensures status == Done ==> path in workspace && result.value.text == workspace[path]
    {
      hide Begun, Abandoned, Completed, Conflicts, Spoiled, Later, Numbered, Recounts;
      ghost var a := R();
      var started, call := StartTool(map[ToolKey := ToolValue(ReadTool), PathKey := Words(path)]);
      if started != Done { return started, None; }
      ghost var begun := R();
      BegunLater(w, a, StartFields(ReadCall(path)));
      CallRecounted(w, a, workspace, ReadCall(path));
      if path in workspace {
        status, result := FinishWithText(call, ReadTool, path, workspace[path]);
      } else {
        result := None;
        status := FailTool(call, ReadTool, path);
      }
      if status.Conflict? { SpoiledSince(w, a, begun, R(), status.offered, status.held); }
    }

    /** `RuntimeTools.write_file`: an existing file is overwritten before its new bytes are stored as evidence. */
    method WriteFile(path: string, text: string) returns (status: Status, result: Option<ToolOutcome>)
      requires Valid()
      modifies this`toolCounter, this`eventSeq, this`blobs, this`events, this`bindings, this`workspace
      ensures old(sealed) ==> status == AlreadySealed && result.None? && R() == old(R()).(toolCounter := old(toolCounter) + 1) && Valid()
      ensures !old(sealed) ==> Ends(old(R()), ToolCourse(w, old(R()), old(workspace), WriteCall(path, text)), status, result)
      ensures status == Done || status == ToolFailed ==> Recounts(w, old(R()), R(), old(workspace), WriteCall(path, text), result) && (result.Some? <==> status == Done)
      ensures workspace == if |events| > |old(events)| && path in old(workspace) then old(workspace)[path := text] else old(workspace)
      ensures |events| > |old(events)| <==> !old(sealed) && Begun(w, old(R()), StartFields(WriteCall(path, text))).On?
    {
      hide Begun, Abandoned, Completed, Conflicts, Spoiled, Later, Numbered, Recounts;
      ghost var a := R();
      var started, call := StartTool(map[ToolKey := ToolValue(WriteTool), PathKey := Words(path)]);
      if started != Done { return started, None; }
      ghost var begun := R();
      BegunLater(w, a, StartFields(WriteCall(path, text)));
      CallRecounted(w, a, workspace, WriteCall(path, text));
      if path in workspace {
        workspace := workspace[path := text];
        status, result := FinishWithText(call, WriteTool, path, text);
      } else {
        result := None;
        status := FailTool(call, WriteTool, path);
      }
      if status.Conflict? {
        SpoiledEvents(w, begun, R(), status.offered, status.held);
        SpoiledSince(w, a, begun, R(), status.offered, status.held);
      } else {
        RecountsEvents(w, a, R(), old(workspace), WriteCall(path, text), result);
      }
    }

    /** `RuntimeTools.run_test`; `raw` is the JSON text of what the sandbox returned. */
    method RunTest(raw: string) returns (status: Status, result: Option<ToolOutcome>)
      requires Valid()
      modifies this`toolCounter, this`eventSeq, this`blobs, this`events, this`bindings
      ensures old(sealed) ==> status == AlreadySealed && result.None? && R() == old(R()).(toolCounter := old(toolCounter) + 1) && Valid()
      ensures !old(sealed) ==> Ends(old(R()), ToolCourse(w, old(R()), workspace, TestCall(raw)), status, result)
      ensures status == Done || status == ToolFailed ==> Recounts(w, old(R()), R(), workspace, TestCall(raw), result) && (result.Some? <==> status == Done)
    {
      hide Begun, Abandoned, Finish, Conflicts, Spoiled, Later, Numbered, Recounts;
      ghost var a := R();
      var started, call := StartTool(map[ToolKey := ToolValue(TestTool)]);
      if started != Done { return started, None; }
      ghost var begun := R();
      BegunLater(w, a, StartFields(TestCall(raw)));
      CallRecounted(w, a, workspace, TestCall(raw));
      status := Ingest(Bytes(raw));
      if status != Done {
        SpoiledSince(w, a, begun, R(), status.offered, status.held);
        return status, None;
      }
      ghost var held := R();
      KeepLater(w, begun, Bytes(raw));
      LaterStill(a, begun, held);
      status, result := FinishTool(call, TestTool, None, raw, None);
      if status.Conflict? { SpoiledSince(w, a, held, R(), status.offered, status.held); }
    }

    /** `context_blocks`: nothing when a message has no occurrence of its own. */
    method ContextBlocks(request: Name, messages: seq<Turn>) returns (blocks: Option<seq<ContextBlock>>)
      ensures blocks.Some? <==> AllSourced(messages)
      ensures blocks.Some? ==> blocks.value == BlocksFor(w, request, messages)
      ensures blocks.Some? ==> forall k :: 0 <= k < |messages| ==> BlockTells(w, request, k, messages[k], blocks.value[k])
    {
      var made: seq<ContextBlock> := [];
      for k := 0 to |messages|
        invariant forall i :: 0 <= i < k ==> messages[i].origin.Some? && messages[i].provenance.Some?
        invariant |made| == k && forall i :: 0 <= i < k ==> made[i] == BlockFor(w, request, i, messages[i]) && BlockTells(w, request, i, messages[i], made[i])
      {
        if messages[k].origin.None? || messages[k].provenance.None? { return None; }
        BlockIs(w, request, k, messages[k]);
        made := made + [BlockFor(w, request, k, messages[k])];
      }
      return Some(made);
    }

    /** `compare_bound_file`: the file is read again, and the event that says so has the number the comparison carries. */
    method CompareBoundFile(b: FileBinding, ref: Ref) returns (status: Status, x: FileComparison)
      requires Valid()
      modifies this`eventSeq, this`blobs, this`events
      ensures x == Comparison(w, old(R()), workspace, b, ref)
      ensures old(sealed) ==> status == AlreadySealed && R() == old(R()) && Valid()
      ensures !old(sealed) ==> match CheckCourse(w, old(R()), workspace, b, ref)
        case On(c) => status == Done && R() == c.r && Valid()
        case Halted(offered, held) => status == Conflict(offered, held) && Spoiled(w, old(R()), R(), offered, held)
      ensures x.status.Same? <==> Attested(w, old(R()), b, ref) && BothThere(w, old(R()), workspace, b, ref) &&
                                  w.codec.digest(Bytes(workspace[b.path])) == b.sha
      ensures x.status.Changed? <==> Attested(w, old(R()), b, ref) && BothThere(w, old(R()), workspace, b, ref) &&
                                     w.codec.digest(Bytes(workspace[b.path])) != b.sha
    {
      hide Comparable, Loaded, Keep, Journal, ComparisonFields, Spoiled, Later, Numbered, Attested, BothThere;
      ghost var a := R();
      ComparisonExactly(w, a, workspace, b, ref);
      x := Compare(b, ref);
      if sealed { return AlreadySealed, x; }
      if !x.status.Unknown? {
        KeepLater(w, a, Bytes(workspace[b.path]));
        status := Ingest(Bytes(workspace[b.path]));
        if status != Done { return status, x; }
      } else {
        SameLater(a);
      }
      ghost var held := R();
      status := RecordEvent(StateCheck, Some(b.readEvent), ComparisonFields(b, x));
      if status != Done { SpoiledSince(w, a, held, R(), status.offered, status.held); }
    }

    /** The comparison itself. */
    method Compare(b: FileBinding, ref: Ref) returns (x: FileComparison)
      requires Valid()
      ensures x == Comparison(w, R(), workspace, b, ref)
    {
      hide Comparable, Loaded, Numbered;
      x := FileComparison(ref, None, None, eventSeq, Unknown("historical_binding_unverified"));
      if Comparable(w, b, ref, eventSeq) {
        if Loaded(w.codec, blobs, ref).None? || b.path !in workspace {
          x := FileComparison(ref, None, None, eventSeq, Unknown("current_file_unavailable_or_unsafe"));
        } else {
          var current := Bytes(workspace[b.path]);
          x := FileComparison(ref, Some(w.codec.digest(current)),
            Some(RunRef(w, current, StateCheckFile(eventSeq, b.path)).(labels := [Label(Runtime, Some(w.run), Some(eventSeq), [])])),
            eventSeq, if w.codec.digest(current) == b.sha then Same else Changed);
        }
      }
    }

    /** The transport half of a send: the bytes before, prepared and sent are stored, the attempt is entered, the transport
        acts, and its end is stored and recorded. The two physical files are created exclusively. */
    method Transmit(id: Name, body: string, sent: string, t: Transport) returns (status: Status)
      requires Valid() && id.AttemptName? && id.run == w.run && id.n < attemptSeq
      requires PhysicalName(id, Entered) !in physical && PhysicalName(id, Terminal) !in physical
      modifies this`blobs, this`physical
      ensures Follows(old(R()), TransmitCourse(w, old(R()), id, body, sent, t), status)
      ensures status == Done ==> Later(old(R()), R())
    {
      hide Keep, Spoiled, Later, EnteredRecord, EndedRecord, EndBlob, Numbered;
      ghost var r0 := R();
      status := Ingest(Bytes(body));
      if status != Done { return; }
      ghost var r1 := R();
      KeepLater(w, r0, Bytes(body));
      status := Ingest(Bytes(sent));
      if status != Done {
        SpoiledSince(w, r0, r1, R(), status.offered, status.held);
        return;
      }
      ghost var r2 := R();
      KeepLater(w, r1, Bytes(sent));
      LaterStill(r0, r1, r2);
      NumberedMore(w, r2, id, Entered, EnteredRecord(w, id, Bytes(sent)));
      physical := physical[PhysicalName(id, Entered) := EnteredRecord(w, id, Bytes(sent))];
      ghost var r3 := R();
      LogLater(r0, r2, r3);
      status := Ingest(EndBlob(t));
      if status != Done {
        SpoiledSince(w, r0, r3, R(), status.offered, status.held);
        return;
      }
      ghost var r4 := R();
      KeepLater(w, r3, EndBlob(t));
      LaterStill(r0, r3, r4);
      NumberedMore(w, r4, id, Terminal, EndedRecord(w, id, Bytes(sent), t));
      physical := physical[PhysicalName(id, Terminal) := EndedRecord(w, id, Bytes(sent), t)];
      LogLater(r0, r4, R());
    }

    /** `send_request`. A provider bound to another run is refused after the attempt has its number. */
    method SendRequest(provider: CapturedProvider, body: string, logical: Name, blocks: seq<ContextBlock>, t: Transport) returns (status: Status)
      requires Valid()
      modifies this`attemptSeq, this`eventSeq, this`blobs, this`events, this`snapshots, this`physical, this`usages, this`lastEnd, provider`bound
      ensures old(sealed) ==> status == AlreadySealed && R() == old(R()) && Valid() && provider.bound == old(provider.bound)
      ensures !old(sealed) && old(provider.bound).Some? && old(provider.bound) != Some((w.run, w.producer)) ==>
        status == ProviderBoundElsewhere && R() == old(R()).(attemptSeq := old(attemptSeq) + 1) && Valid() && provider.bound == old(provider.bound)
      ensures !old(sealed) && (old(provider.bound) == None || old(provider.bound) == Some((w.run, w.producer))) ==>
        && Follows(old(R()), SendCourse(w, old(R()), logical, body, provider.serializer(body), blocks, t), status)
        && provider.bound == Some((w.run, w.producer)) && (status == Done ==> lastEnd == Some(t))
    {
      hide TransmitCourse, PairCourse, Captured, Spoiled, Later, Numbered;
      if sealed { return AlreadySealed; }
      ghost var a := R();
      var id := AttemptName(w.run, attemptSeq);
      NextUnused(w, a, id);
      attemptSeq := attemptSeq + 1;
      var bound := provider.BindCapture(w.run, w.producer);
      if !bound { return ProviderBoundElsewhere; }
      ghost var entered := R();
      LogLater(a, a, entered);
      var sent := provider.serializer(body);
      status := Transmit(id, body, sent, t);
      if status != Done {
        SpoiledSince(w, a, entered, R(), status.offered, status.held);
        return;
      }
      ghost var transmitted := R();
      LaterStill(a, entered, transmitted);
      status := RecordAttempt(id, body, sent, logical, blocks, t);
      if status != Done {
        SpoiledSince(w, a, transmitted, R(), status.offered, status.held);
        return;
      }
      lastEnd := Some(t);
    }

    /** The recording half of a send: usage, snapshot, request event, terminal event. */
    method RecordAttempt(id: Name, body: string, sent: string, logical: Name, blocks: seq<ContextBlock>, t: Transport) returns (status: Status)
      requires Valid() && !sealed
      modifies this`eventSeq, this`blobs, this`events, this`snapshots, this`usages
      ensures Follows(old(R()), PairCourse(w, Captured(w, old(R()), id, logical, body, sent, blocks, t), id, logical, body, sent, t), status)
    {
      hide PairCourse, Spoiled, Later, UsageReport, SnapshotOf;
      ghost var a := R();
      var report := UsageReport(w, id, t);
      usages := usages + [Attempt(id, report.0, report.1)];
      snapshots := snapshots + [SnapshotOf(w, events, id, logical, Bytes(body), Bytes(sent), blocks, t)];
      ghost var captured := R();
      LogLater(a, a, captured);
      assert captured == Captured(w, a, id, logical, body, sent, blocks, t);
      status := RecordPair(id, body, sent, logical, t);
      if status != Done { SpoiledSince(w, a, captured, R(), status.offered, status.held); }
    }

    /** The request event and the terminal event. */
    method RecordPair(id: Name, body: string, sent: string, logical: Name, t: Transport) returns (status: Status)
      requires Valid() && !sealed
      modifies this`eventSeq, this`blobs, this`events
      ensures Follows(old(R()), PairCourse(w, old(R()), id, logical, body, sent, t), status)
    {
      hide Journal, Asked, Got, Spoiled, Later, Numbered;
      ghost var a := R();
      status := RecordEvent(RequestEvent, Some(logical), Asked(w, id, logical, Bytes(body), Bytes(sent), t));
      if status != Done { return; }
      ghost var asked := R();
      JournalLater(w, a, RequestEvent, Some(logical), Asked(w, id, logical, Bytes(body), Bytes(sent), t));
      status := RecordEvent(EndKind(t), Some(logical), Got(w, id, logical, t));
      if status != Done { SpoiledSince(w, a, asked, R(), status.offered, status.held); }
    }

    /** The file names of the physical-attempt directory, in an order the caller cannot know. */
    method ListPhysical() returns (names: seq<Name>)
      ensures ListsFiles(names, physical)
    {
      names := [];
      var left := physical.Keys;
      while left != {}
        invariant left <= physical.Keys && Distinct(names)
        invariant forall x :: x in names <==> x in physical && x !in left
        decreases left
      {
        var name :| name in left;
        AppendDistinct(names, name);
        names, left := names + [name], left - {name};
      }
    }

    /** `seal`: the last event, the log as one artifact, the ledger, the final tree with its files, the final state. */
    method Seal(status: string, reason: Option<string>) returns (outcome: Status, files: Option<RunFiles>, states: Option<StateFiles>)
      requires Valid()
      modifies this`sealed, this`eventSeq, this`blobs, this`events
      ensures old(sealed) ==> outcome == AlreadySealed && files.None? && R() == old(R()) && Valid() && sealed
      ensures !old(sealed) ==> Follows(old(R()), SealCourse(w, site, old(R()), workspace, status, reason), outcome)
      ensures !old(sealed) ==> (outcome == Done <==> files.Some?) && (outcome == Done <==> sealed)
      ensures outcome == Done ==>
        SealedFrom(w, R(), files.value) && states == Some(SealedStates(w, site, revision, initial, R(), workspace))
    {
      hide LogCourse, StatesCourse, Spoiled, Later, Numbered, LedgerWritten, ListsFiles, Sealed, Entries, FinalState, TreeOf;
      states := None;
      if sealed { return AlreadySealed, None, None; }
      ghost var a := R();
      outcome := CloseLog(status, reason);
      if outcome != Done { return outcome, None, None; }
      ghost var closed := R();
      LogCourseLater(w, a, status, reason);
      outcome := StoreStates();
      if outcome != Done {
        SpoiledSince(w, a, closed, R(), outcome.offered, outcome.held);
        return outcome, None, None;
      }
      var entries, aggregate := UsageEntries(usages);
      var names := ListPhysical();
      ListedFiles(names, physical);
      files := Some(Sealed(w, R(), names, entries, aggregate));
      states := Some(SealedStates(w, site, revision, initial, R(), workspace));
      assert SealedAs(w, R(), files.value, names, entries, aggregate);
      sealed := true;
    }

    /** The final tree, every file, the sealed artifact and the final state. */
    method StoreStates() returns (outcome: Status)
      requires Valid()
      modifies this`blobs
      ensures Follows(old(R()), StatesCourse(w, site, old(R()), workspace), outcome)
    {
      hide Keep, BodiesCourse, Spoiled, Later, Entries, TreeOf, FinalState, Numbered;
      ghost var r0 := R();
      var tree := TreeOf(w, site, workspace);
      outcome := Ingest(TreeBytes(tree));
      if outcome != Done { return; }
      ghost var r1 := R();
      KeepLater(w, r0, TreeBytes(tree));
      outcome := StoreBodies(site.walk(workspace.Keys));
      if outcome != Done {
        SpoiledSince(w, r0, r1, R(), outcome.offered, outcome.held);
        return;
      }
      ghost var r2 := R();
      LaterStill(r0, r1, r2);
      outcome := Ingest(SealedBytes(Entries(w, site, workspace)));
      if outcome != Done {
        SpoiledSince(w, r0, r2, R(), outcome.offered, outcome.held);
        return;
      }
      ghost var r3 := R();
      KeepLater(w, r2, SealedBytes(Entries(w, site, workspace)));
      LaterStill(r0, r2, r3);
      BodiesOnly(w, r1, workspace, site.walk(workspace.Keys));
      KeepOnly(w, r0, TreeBytes(tree));
      KeepOnly(w, r2, SealedBytes(Entries(w, site, workspace)));
      SameFinalState(w, tree, r0, r3);
      outcome := Ingest(StateBytes(FinalState(w, tree, R())));
      if outcome != Done { SpoiledSince(w, r0, r3, R(), outcome.offered, outcome.held); }
    }

    /** The text of every file, in the order of the walk. */
    method StoreBodies(paths: seq<string>) returns (outcome: Status)
      requires Valid()
      modifies this`blobs
      ensures Follows(old(R()), BodiesCourse(w, old(R()), workspace, paths), outcome)
      ensures outcome == Done ==> Later(old(R()), R())
    {
      hide Keep, Spoiled, Later, TextAt, Numbered;
      ghost var r0 := R();
      SameLater(r0);
      for i := 0 to |paths|
        invariant Valid() && Later(r0, R()) && BodiesCourse(w, r0, workspace, paths[..i]) == On(R())
      {
        assert paths[..i + 1][..i] == paths[..i];
        ghost var r1 := R();
        outcome := Ingest(Bytes(TextAt(workspace, paths[i])));
        if outcome != Done {
          BodiesStayHalted(w, r0, workspace, paths, i + 1);
          SpoiledSince(w, r0, r1, R(), outcome.offered, outcome.held);
          return;
        }
        KeepLater(w, r1, Bytes(TextAt(workspace, paths[i])));
        LaterStill(r0, r1, R());
      }
      assert paths[..|paths|] == paths;
      outcome := Done;
    }

    /** The last event, and the log as one artifact. */
    method CloseLog(status: string, reason: Option<string>) returns (outcome: Status)
      requires Valid() && !sealed
      modifies this`eventSeq, this`blobs, this`events
      ensures Follows(old(R()), LogCourse(w, old(R()), status, reason), outcome)
    {
      hide Journal, Keep, StopFields, Spoiled, Later, Numbered;
      ghost var a := R();
      outcome := RecordEvent(RunStop, None, StopFields(status, reason));
      if outcome != Done { return; }
      ghost var stopped := R();
      JournalLater(w, a, RunStop, None, StopFields(status, reason));
      outcome := Ingest(EventLogBytes(events));
      if outcome != Done { SpoiledSince(w, a, stopped, R(), outcome.offered, outcome.held); }
    }
  }

  // ---- Whole runs ----

  ghost predicate BoundHere(rt: CapturedRuntime, provider: CapturedProvider)
    reads provider`bound
  {
    provider.bound == None || provider.bound == Some((rt.w.run, rt.w.producer))
  }

  /** The step that started from `a` went as `c` says. */
  ghost predicate Arrives(rt: CapturedRuntime, a: Recording, c: Course<Journey>, status: Status, after: seq<Turn>)
    reads rt
  {
    match c
    case On(k) => status == Done && Journey(rt.R(), rt.workspace, after) == k && rt.Valid() && !rt.sealed
    case Halted(offered, held) => status == Conflict(offered, held) && Spoiled(rt.w, a, rt.R(), offered, held)
  }

  /** One operation of a run. */
  method Perform(rt: CapturedRuntime, provider: CapturedProvider, op: Op, pool: seq<Turn>) returns (status: Status, after: seq<Turn>)
    requires rt.Valid() && !rt.sealed && BoundHere(rt, provider)
    modifies rt, provider`bound
    ensures BoundHere(rt, provider)
    ensures Arrives(rt, old(rt.R()), Step(rt.w, provider.serializer, Journey(old(rt.R()), old(rt.workspace), pool), op), status, after)
  {
    hide ToolCourse, CheckCourse, SendCourse, Spoiled, Numbered, BlocksOf, Quoted, ResponseJoins, Comparison;
    match op
    case Call(tool) => status, after := PerformCall(rt, tool, pool, provider.serializer);
    case Check(binding, ref) =>
      var x;
      status, x := rt.CompareBoundFile(binding, ref);
      after := pool;
    case Send(body, logical, quoted, t) => status, after := PerformSend(rt, provider, body, logical, quoted, t, pool);
  }

  /** A tool call, and the turn its result makes. An exception it raises does not end the run. */
  method PerformCall(rt: CapturedRuntime, tool: ToolCall, pool: seq<Turn>, ghost serializer: string -> string) returns (status: Status, after: seq<Turn>)
    requires rt.Valid() && !rt.sealed
    modifies rt
    ensures Arrives(rt, old(rt.R()), Step(rt.w, serializer, Journey(old(rt.R()), old(rt.workspace), pool), Call(tool)), status, after)
  {
    hide ToolCourse, Spoiled, Numbered, ContentShown, TurnFor, Recounts;
    CourseBegun(rt.w, rt.R(), rt.workspace, tool);
    after := pool;
    var result;
    match tool {
      case ReadCall(path) => status, result := rt.ReadFile(path);
      case WriteCall(path, text) => status, result := rt.WriteFile(path, text);
      case TestCall(raw) => status, result := rt.RunTest(raw);
    }
    if !status.Conflict? {
      after := pool + ToolJoins(rt.w, tool, result);
      status := Done;
    }
  }

  lemma CourseBegun(w: Setup, r: Recording, workspace: map<string, string>, c: ToolCall)
    ensures ToolCourse(w, r, workspace, c).On? ==> Begun(w, r, StartFields(c)).On?
  {
    hide Begun, Abandoned, Completed;
  }

  /** A send of quoted turns, and the turn its response makes. */
  method PerformSend(rt: CapturedRuntime, provider: CapturedProvider, body: string, logical: Name, quoted: seq<nat>, t: Transport, pool: seq<Turn>)
    returns (status: Status, after: seq<Turn>)
    requires rt.Valid() && !rt.sealed && BoundHere(rt, provider)
    modifies rt, provider`bound
    ensures BoundHere(rt, provider)
    ensures Arrives(rt, old(rt.R()),
              Step(rt.w, provider.serializer, Journey(old(rt.R()), old(rt.workspace), pool), Send(body, logical, quoted, t)), status, after)
  {
    hide SendCourse, Spoiled, Numbered, Quoted, BlocksFor, ResponseTurnFor;
    var turns, sent := Quoted(pool, quoted), provider.serializer(body);
    var made := rt.ContextBlocks(RequestName(AttemptName(rt.w.run, rt.attemptSeq)), turns);
    var blocks := if made.Some? && sent != "" && rt.w.codec.messages(sent) == Some(Wire(turns)) then made.value else [];
    assert blocks == BlocksOf(rt.w, rt.R(), sent, turns);
    after := pool + ResponseJoins(rt.w, rt.R(), t);
    status := rt.SendRequest(provider, body, logical, blocks, t);
  }

  /** Recorder and auditor agree: whatever operations a run performs, in whatever order and with whatever outcomes, once
      sealed its log is the trace of those operations and it passes the whole audit, unless the code revision it recorded is
      blank. A run is stopped exactly when its course meets two different contents with one digest, the one it offers and the
      one its store holds; they are returned. */
  method RecordThenAudit(rt: CapturedRuntime, provider: CapturedProvider, ops: seq<Op>, opening: seq<Turn>, status: string, reason: Option<string>)
    returns (clash: Option<(Blob, Blob)>, codes: seq<WholeCode>, states: Option<StateFiles>)
    requires rt.Valid() && !rt.sealed && BoundHere(rt, provider) && UnderWay(rt.w, Journey(rt.R(), rt.workspace, opening))
    requires Opened(rt.w, rt.revision, rt.initial, rt.blobs)
    modifies rt, provider`bound
    ensures match WholeCourse(rt.w, provider.serializer, rt.site, Journey(old(rt.R()), old(rt.workspace), opening), ops, status, reason)
      case On(k) =>
        && clash.None? && (codes == [] <==> !BlankText(rt.revision)) && rt.sealed && rt.R() == k.r && rt.workspace == k.workspace
        && Traced(old(rt.events), rt.events, TraceOfAll(ops) + [RunStop])
      case Halted(offered, held) => clash == Some((offered, held)) && Clash(rt.w, offered, held) && Conflicts(rt.w, rt.blobs, offered)
    ensures clash.None? ==>
      && LastWritten(old(rt.workspace), rt.workspace, ToolCalls(ops)) && StopsWith(rt.w, rt.R(), status, reason)
      && states.Some? && (Walks(rt.site) ==> SealsText(rt.w, rt.blobs, states.value.sealedHash, rt.workspace))
  {
    hide UnderWay, Step, SealCourse, Numbered, Traced, TraceOfAll, RunClean, SealedFrom, Later, Opened, StatesClean, SealedStates, BlankText, WholeClean,
      LastWritten, StopsWith, SealsText, Walks;
    ghost var start := Journey(rt.R(), rt.workspace, opening);
    ghost var serializer := provider.serializer;
    WholeRunPasses(rt.w, serializer, rt.site, rt.revision, rt.initial, start, ops, status, reason);
    SealedTexts(rt.w, serializer, rt.site, rt.revision, rt.initial, start, ops, status, reason);
    states := None;
    var pool := opening;
    for i := 0 to |ops|
      invariant rt.Valid() && !rt.sealed && BoundHere(rt, provider)
      invariant RunCourse(rt.w, serializer, start, ops[..i]) == On(Journey(rt.R(), rt.workspace, pool))
    {
      assert ops[..i + 1][..i] == ops[..i];
      var performed, after := Perform(rt, provider, ops[i], pool);
      if performed.Conflict? {
        StaysHalted(rt.w, serializer, start, ops, i + 1);
        return Some((performed.offered, performed.held)), [], None;
      }
      pool := after;
    }
    assert ops[..|ops|] == ops;
    var outcome, files, written := rt.Seal(status, reason);
    if files.None? { return Some((outcome.offered, outcome.held)), [], None; }
    clash, states := None, written;
    WholeFromParts(rt.w, rt.site, rt.revision, rt.initial, rt.R(), rt.workspace, files.value);
    codes := AuditWhole(rt.w.codec, files.value, states.value, [], rt.w.run);
  }

  /** What a seal writes is clean as a whole exactly when its states are, once the rest is. */
  lemma WholeFromParts(w: Setup, site: Site, revision: string, initial: RepoState, r: Recording, workspace: map<string, string>, f: RunFiles)
    requires SealedFrom(w, r, f) && RunClean(w.codec, f, w.run)
    ensures var g := SealedStates(w, site, revision, initial, r, workspace);
      WholeClean(w.codec, f, g, [], w.run) <==> StatesClean(w.codec, f, g, w.run)
  {
    hide RunClean, SealedFrom, Entries, TreeOf, ProducerClean, PhaseClean, ArtifactClean;
    SealedBlobs(w, r, f);
    var final := FinalState(w, TreeOf(w, site, workspace), r);
    OwnFinal(f, final);
    CleanLog(w.codec, f, w.run);
    NoViews(w.codec, f, w.run, PayloadsOf(w.codec, f, w.run), []);
  }

  lemma CleanLog(c: Codec, f: RunFiles, run: string)
    requires RunClean(c, f, run)
    ensures LogClean(c, f, run)
  {
    hide LogClean, RequestsClean, BindingsClean, LedgerClean;
  }

  lemma LogCourseLater(w: Setup, r: Recording, status: string, reason: Option<string>)
    ensures LogCourse(w, r, status, reason).On? ==> Later(r, LogCourse(w, r, status, reason).value)
  {
    hide Journal, Keep, Later, StopFields;
    JournalLater(w, r, RunStop, None, StopFields(status, reason));
    var stopped := Journal(w, r, RunStop, None, StopFields(status, reason));
    if stopped.On? {
      KeepLater(w, stopped.value, EventLogBytes(stopped.value.events));
      if LogCourse(w, r, status, reason).On? { LaterStill(r, stopped.value, LogCourse(w, r, status, reason).value); }
    }
  }

  lemma {:induction false} BodiesStayHalted(w: Setup, r: Recording, workspace: map<string, string>, paths: seq<string>, n: nat)
    requires n <= |paths| && BodiesCourse(w, r, workspace, paths[..n]).Halted?
    ensures BodiesCourse(w, r, workspace, paths) == BodiesCourse(w, r, workspace, paths[..n])
    decreases |paths|
  {
    hide Keep;
    if n == |paths| {
      assert paths[..n] == paths;
    } else {
      var most := paths[..|paths| - 1];
      assert most[..n] == paths[..n];
      BodiesStayHalted(w, r, workspace, most, n);
    }
  }

  lemma KeepOnly(w: Setup, r: Recording, b: Blob)
    ensures Keep(w, r, b).On? ==> Keep(w, r, b).value == r.(blobs := Keep(w, r, b).value.blobs)
  {
  }

  lemma {:induction false} BodiesOnly(w: Setup, r: Recording, workspace: map<string, string>, paths: seq<string>)
    ensures var x := BodiesCourse(w, r, workspace, paths); x.On? ==> x.value == r.(blobs := x.value.blobs)
    decreases |paths|
  {
    if |paths| > 0 {
      BodiesOnly(w, r, workspace, paths[..|paths| - 1]);
    }
  }

  lemma SameFinalState(w: Setup, tree: seq<TreeFile>, a: Recording, b: Recording)
    requires b.events == a.events && b.bindings == a.bindings
    ensures FinalState(w, tree, b) == FinalState(w, tree, a)
  {
  }

  /** The blobs of a new run. */
  function FirstBlobs(w: Setup, a: Blob, b: Blob, c: Blob, d: Blob): map<Hash, Blob> {
    map[w.codec.digest(a) := a][w.codec.digest(b) := b][w.codec.digest(c) := c][w.codec.digest(d) := d]
  }

  lemma FirstHeld(w: Setup, a: Blob, b: Blob, c: Blob, d: Blob)
    requires Apart(w, [a, b, c, d])
    ensures var blobs := FirstBlobs(w, a, b, c, d);
      && Stored(w, blobs, a) && Stored(w, blobs, b) && Stored(w, blobs, c) && Stored(w, blobs, d) && ContentAddressed(w, blobs)
  {
    var s := [a, b, c, d];
    assert s[0] == a && s[1] == b && s[2] == c && s[3] == d;
  }

  lemma FirstRecorded(w: Setup, revision: string, configText: string, tree: seq<TreeFile>)
    requires w.producer == RunRef(w, ManifestBytes(ProducerFields(revision)), ProducerManifest)
    requires w.config == RunRef(w, Bytes(configText), ConfigAt)
    requires Apart(w, [ManifestBytes(ProducerFields(revision)), Bytes(configText), TreeBytes(tree), StateBytes(InitialState(w, tree))])
    ensures var blobs := FirstBlobs(w, ManifestBytes(ProducerFields(revision)), Bytes(configText), TreeBytes(tree), StateBytes(InitialState(w, tree)));
      Opened(w, revision, InitialState(w, tree), blobs) && Recorded(w, Recording(blobs, [], [], 0, map[], [], 0, []), [])
  {
    hide ProducerFields, InitialState, FirstBlobs, Apart;
    var producer, config := ManifestBytes(ProducerFields(revision)), Bytes(configText);
    FirstHeld(w, producer, config, TreeBytes(tree), StateBytes(InitialState(w, tree)));
    NothingRecorded(w, FirstBlobs(w, producer, config, TreeBytes(tree), StateBytes(InitialState(w, tree))), configText);
    hide ContentAddressed, Recorded;
  }

  lemma NothingRecorded(w: Setup, blobs: map<Hash, Blob>, configText: string)
    requires ContentAddressed(w, blobs) && Stored(w, blobs, Bytes(configText)) && w.config == RunRef(w, Bytes(configText), ConfigAt)
    ensures Recorded(w, Recording(blobs, [], [], 0, map[], [], 0, []), [])
  {
  }

  lemma SpoiledSince(w: Setup, a: Recording, b: Recording, c: Recording, offered: Blob, held: Blob)
    requires Later(a, b) && Spoiled(w, b, c, offered, held)
    ensures Spoiled(w, a, c, offered, held)
  {
  }

  lemma SpoiledEvents(w: Setup, a: Recording, b: Recording, offered: Blob, held: Blob)
    requires Spoiled(w, a, b, offered, held)
    ensures |a.events| <= |b.events|
  {
  }

  lemma KeepLater(w: Setup, r: Recording, b: Blob)
    ensures Keep(w, r, b).On? ==> Later(r, Keep(w, r, b).value)
  {
  }

  lemma JournalLater(w: Setup, r: Recording, kind: EventKind, call: Option<Name>, fields: Fields)
    ensures Journal(w, r, kind, call, fields).On? ==> Later(r, Journal(w, r, kind, call, fields).value)
  {
    hide NewEvent;
  }

  lemma BegunLater(w: Setup, r: Recording, fields: Fields)
    ensures Begun(w, r, fields).On? ==> Later(r, Begun(w, r, fields).value)
  {
    hide Journal;
    JournalLater(w, r.(toolCounter := r.toolCounter + 1), ToolStart, Some(ToolName(w.run, r.toolCounter)), fields);
  }

  lemma FinishText(w: Setup, r: Recording, call: Name, tool: Tool, path: Option<string>, text: string, sha: Option<Hash>)
    ensures var c := Finish(w, r, call, tool, path, text, sha); c.On? ==> c.value.outcome.Some? && c.value.outcome.value.text == text
  {
  }

  lemma SameLater(a: Recording)
    ensures Later(a, a)
  {
  }

  lemma LogLater(a: Recording, b: Recording, c: Recording)
    requires (Later(a, b) || b == a) && c.blobs == b.blobs && c.events == b.events
    ensures Later(a, c)
  {
  }

  lemma LaterStill(a: Recording, b: Recording, c: Recording)
    requires Later(a, b) && Later(b, c)
    ensures Later(a, c)
  {
  }

  lemma NumberedMore(w: Setup, r: Recording, id: Name, phase: Phase, x: PhysicalAttempt)
    requires Numbered(w, r) && id.AttemptName? && id.run == w.run && id.n < r.attemptSeq
    ensures Numbered(w, r.(physical := r.physical[PhysicalName(id, phase) := x]))
  {
  }

  lemma NextUnused(w: Setup, r: Recording, id: Name)
    requires Numbered(w, r) && id == AttemptName(w.run, r.attemptSeq)
    ensures PhysicalName(id, Entered) !in r.physical && PhysicalName(id, Terminal) !in r.physical
    ensures Numbered(w, r.(attemptSeq := r.attemptSeq + 1))
  {
  }

  lemma SamePhysical(w: Setup, a: Recording, b: Recording)
    requires Numbered(w, a) && b.physical == a.physical && b.attemptSeq >= a.attemptSeq
    ensures Numbered(w, b)
  {
  }
}
