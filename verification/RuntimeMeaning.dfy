/** What the operations of a captured run amount to, told without the functions that compute it: what a call and a send put on
    record, what a file holds, what a comparison says, what is sealed. */
module RuntimeMeaning {
  import opened Ordering
  import opened Labels
  import opened Evidence
  import opened UsageLedger
  import opened RuntimeRecords
  import opened RuntimeAudit
  import opened RuntimeInvariant
  import opened RuntimeSend
  import opened RuntimeSeal
  import opened RuntimeCourse
  import opened StateAudit
  import opened RuntimeRun

  // ---- The last write ----

  /** The text of the last of these calls that writes the file, or the text it had before them. */
  function LastText(calls: seq<ToolCall>, path: string, initial: string): string {
    if |calls| == 0 then initial
    else match calls[|calls| - 1]
      case WriteCall(p, text) => if p == path then text else LastText(calls[..|calls| - 1], path, initial)
      case _ => LastText(calls[..|calls| - 1], path, initial)
  }

  /** The same files as before these calls, each with the text of the last write to it. */
  ghost predicate LastWritten(before: map<string, string>, after: map<string, string>, calls: seq<ToolCall>) {
    after.Keys == before.Keys && forall p :: p in before ==> after[p] == LastText(calls, p, before[p])
  }

  /** The tool calls of a run, in order. */
  function ToolCalls(ops: seq<Op>): seq<ToolCall> {
    if |ops| == 0 then []
    else ToolCalls(ops[..|ops| - 1]) + if ops[|ops| - 1].Call? then [ops[|ops| - 1].tool] else []
  }

  lemma WrittenNext(before: map<string, string>, middle: map<string, string>, calls: seq<ToolCall>, c: ToolCall)
    requires LastWritten(before, middle, calls)
    ensures LastWritten(before, WorkspaceAfter(middle, c), calls + [c])
  {
    assert (calls + [c])[..|calls|] == calls;
  }

  /** A run leaves every file of its workspace with the text of the last write to it that began, and makes or removes none. */
  lemma {:induction false} WorkspaceHolds(w: Setup, serializer: string -> string, j: Journey, ops: seq<Op>)
    ensures match RunCourse(w, serializer, j, ops)
      case On(k) => LastWritten(j.workspace, k.workspace, ToolCalls(ops))
      case Halted(_, _) => true
    decreases |ops|
  {
    hide ToolCourse, CheckCourse, SendCourse, BlocksOf, Quoted, ToolJoins, ResponseJoins, WorkspaceAfter, LastWritten;
    if |ops| == 0 {
      assert LastWritten(j.workspace, j.workspace, []) by { NothingWritten(j.workspace); }
    } else {
      var most, last := ops[..|ops| - 1], ops[|ops| - 1];
      WorkspaceHolds(w, serializer, j, most);
      if RunCourse(w, serializer, j, ops).On? {
        var before := RunCourse(w, serializer, j, most).value;
        if last.Call? {
          WrittenNext(j.workspace, before.workspace, ToolCalls(most), last.tool);
        } else {
          assert ToolCalls(ops) == ToolCalls(most);
        }
      }
    }
  }

  lemma NothingWritten(workspace: map<string, string>)
    ensures LastWritten(workspace, workspace, [])
  {
  }

  // ---- What a call does ----

  /** Event `n` is of this kind and this call, and the payload stored for it has these fields. */
  ghost predicate EventSays(w: Setup, r: Recording, n: nat, kind: EventKind, call: Name, fields: Fields) {
    && n < |r.events| && r.events[n].kind == kind && r.events[n].callId == Some(call)
    && r.events[n].payload.hash in r.blobs && r.blobs[r.events[n].payload.hash] == PayloadBytes(fields)
  }

  /** The text a call is about: what the file holds, what is written to it, what the sandbox answered. Nothing without the
      file. */
  ghost predicate About(workspace: map<string, string>, c: ToolCall, text: string) {
    match c
    case ReadCall(path) => path in workspace && text == workspace[path]
    case WriteCall(path, written) => path in workspace && text == written
    case TestCall(raw) => text == raw
  }

  ghost function ToolNamed(c: ToolCall): Tool {
    match c
    case ReadCall(_) => ReadTool
    case WriteCall(_, _) => WriteTool
    case TestCall(_) => TestTool
  }

  /** The payload of the start event of a call. */
  ghost predicate StartSays(c: ToolCall, fields: Fields) {
    match c
    case TestCall(_) => fields == map[ToolKey := ToolValue(TestTool)]
    case _ => fields == map[ToolKey := ToolValue(ToolNamed(c)), PathKey := Words(c.path)]
  }

  /** The payload of the finish event of a call that went through with this text. */
  ghost predicate FinishSays(w: Setup, c: ToolCall, call: Name, text: string, fields: Fields) {
    var hash := w.codec.digest(Bytes(text));
    && fields.Keys == {ToolKey, PathKey, BodyKey, ShaKey, CompleteKey} && fields[ToolKey] == ToolValue(ToolNamed(c))
    && fields[CompleteKey] == Flag(true) && fields[BodyKey] == RefValue(Ref(hash, RuntimeSource, w.run, ToolBody(call), RunLabel(w.run)))
    && fields[PathKey] == (if c.TestCall? then Nil else Words(c.path)) && fields[ShaKey] == (if c.TestCall? then Nil else Words(hash))
  }

  /** Other bytes are held under the digest of these. */
  ghost predicate Refused(w: Setup, blobs: map<Hash, Blob>, b: Blob) { w.codec.digest(b) in blobs && blobs[w.codec.digest(b)] != b }

  /** The record of one call: its start event, then its finish event, which has the text the call is about as stored evidence
      or says that the call failed. A read that went through is bound to the bytes it read. */
  ghost predicate Recounts(w: Setup, a: Recording, b: Recording, workspace: map<string, string>, c: ToolCall, o: Option<ToolOutcome>) {
    var n, call := |a.events|, ToolName(w.run, a.toolCounter);
    && |b.events| == n + 2 && b.events[..n] == a.events && b.toolCounter == a.toolCounter + 1
    && (exists start :: StartSays(c, start) && EventSays(w, b, n, ToolStart, call, start))
    && match o
       case None =>
         && b.bindings == a.bindings && !c.TestCall?
         && (c.path !in workspace || exists text :: About(workspace, c, text) && Refused(w, b.blobs, Bytes(text)))
         && (exists end: Fields :: EventSays(w, b, n + 1, ToolFinish, call, end) && At(end, CompleteKey) == Flag(false) && At(end, BodyKey) == Nil)
       case Some(result) =>
         && About(workspace, c, result.text) && Stored(w, b.blobs, Bytes(result.text))
         && result.call == call && result.finish == EventName(w.run, n + 1)
         && result.bodyRef == Ref(w.codec.digest(Bytes(result.text)), RuntimeSource, w.run, ToolBody(call), [Label(Runtime, Some(w.run), Some(n + 1), [])])
         && (exists end :: FinishSays(w, c, call, result.text, end) && EventSays(w, b, n + 1, ToolFinish, call, end))
         && (if c.ReadCall?
             then result.binding == Some(FileBinding(c.path, w.codec.digest(Bytes(result.text)), "utf-8", EventName(w.run, n + 1), n + 1, true))
                  && b.bindings == a.bindings + [result.binding.value]
             else result.binding.None? && b.bindings == a.bindings)
  }

  lemma JournalSays(w: Setup, r: Recording, kind: EventKind, call: Name, fields: Fields)
    ensures match Journal(w, r, kind, Some(call), fields)
      case On(x) =>
        && Kept(r.blobs, x.blobs) && |x.events| == |r.events| + 1 && x.events[..|r.events|] == r.events
        && EventSays(w, x, |r.events|, kind, call, fields) && x == r.(blobs := x.blobs, events := x.events)
      case Halted(_, _) => true
  {
  }

  lemma SaysStill(w: Setup, a: Recording, b: Recording, n: nat, kind: EventKind, call: Name, fields: Fields)
    requires EventSays(w, a, n, kind, call, fields) && Kept(a.blobs, b.blobs) && a.events <= b.events
    ensures EventSays(w, b, n, kind, call, fields)
  {
  }

  lemma RecountsEvents(w: Setup, a: Recording, b: Recording, workspace: map<string, string>, c: ToolCall, o: Option<ToolOutcome>)
    requires Recounts(w, a, b, workspace, c, o)
    ensures |b.events| == |a.events| + 2
  {
    hide EventSays, FinishSays, StartSays, Stored, About;
  }

  lemma StartIs(c: ToolCall)
    ensures StartSays(c, StartFields(c))
  {
  }

  lemma FinishIs(w: Setup, c: ToolCall, call: Name, text: string)
    ensures FinishSays(w, c, call, text,
              Finished(ToolOf(c), PathOfCall(c), RunRef(w, Bytes(text), ToolBody(call)), if c.TestCall? then None else Some(w.codec.digest(Bytes(text)))))
  {
  }

  lemma CallAbandoned(w: Setup, r: Recording, call: Name, tool: Tool, path: string)
    ensures match Abandoned(w, r, call, tool, path)
      case On(e) =>
        && Kept(r.blobs, e.r.blobs) && |e.r.events| == |r.events| + 1 && r.events <= e.r.events && e.r.toolCounter == r.toolCounter
        && e.r.bindings == r.bindings
        && exists end: Fields :: EventSays(w, e.r, |r.events|, ToolFinish, call, end) && At(end, CompleteKey) == Flag(false) && At(end, BodyKey) == Nil
      case Halted(_, _) => true
  {
    hide Journal, EventSays, Kept;
    JournalSays(w, r, ToolFinish, call, Failed(tool, path));
  }

  lemma KeepKeeps(w: Setup, r: Recording, b: Blob)
    ensures match Keep(w, r, b)
      case On(x) => Kept(r.blobs, x.blobs) && Stored(w, x.blobs, b) && x == r.(blobs := x.blobs)
      case Halted(_, _) => true
  {
  }

  lemma CallCompleted(w: Setup, r: Recording, call: Name, c: ToolCall, text: string)
    ensures match Completed(w, r, call, ToolOf(c), PathOfCall(c), text, if c.TestCall? then None else Some(w.codec.digest(Bytes(text))))
      case On(e) =>
        && Kept(r.blobs, e.r.blobs) && |e.r.events| == |r.events| + 1 && r.events <= e.r.events && e.r.toolCounter == r.toolCounter
        && Stored(w, e.r.blobs, Bytes(text)) && e.outcome.Some?
        && (var o := e.outcome.value;
            && o.call == call && o.finish == EventName(w.run, |r.events|) && o.text == text
            && o.bodyRef == Ref(w.codec.digest(Bytes(text)), RuntimeSource, w.run, ToolBody(call), [Label(Runtime, Some(w.run), Some(|r.events|), [])])
            && (if c.ReadCall?
                then o.binding == Some(FileBinding(c.path, w.codec.digest(Bytes(text)), "utf-8", EventName(w.run, |r.events|), |r.events|, true))
                     && e.r.bindings == r.bindings + [o.binding.value]
                else o.binding.None? && e.r.bindings == r.bindings))
        && exists end :: FinishSays(w, c, call, text, end) && EventSays(w, e.r, |r.events|, ToolFinish, call, end)
      case Halted(_, _) => true
  {
    hide Journal, Keep, EventSays, Kept, Stored, FinishSays, Finished;
    var sha := if c.TestCall? then None else Some(w.codec.digest(Bytes(text)));
    KeepKeeps(w, r, Bytes(text));
    var held := Keep(w, r, Bytes(text));
    if held.On? {
      var fields := Finished(ToolOf(c), PathOfCall(c), RunRef(w, Bytes(text), ToolBody(call)), sha);
      FinishIs(w, c, call, text);
      JournalSays(w, held.value, ToolFinish, call, fields);
      var said := Journal(w, held.value, ToolFinish, Some(call), fields);
      if said.On? {
        KeptTransitive(r.blobs, held.value.blobs, said.value.blobs);
        KeptStored(w, held.value.blobs, said.value.blobs, Bytes(text));
        SameSays(w, said.value, Finish(w, held.value, call, ToolOf(c), PathOfCall(c), text, sha).value.r, |r.events|, call, fields);
      }
    }
  }

  lemma KeptStored(w: Setup, a: map<Hash, Blob>, b: map<Hash, Blob>, x: Blob)
    requires Kept(a, b) && Stored(w, a, x)
    ensures Stored(w, b, x)
  {
  }

  lemma SameSays(w: Setup, a: Recording, b: Recording, n: nat, call: Name, fields: Fields)
    requires EventSays(w, a, n, ToolFinish, call, fields) && b.blobs == a.blobs && b.events == a.events
    ensures EventSays(w, b, n, ToolFinish, call, fields)
  {
  }

  lemma BodyAbout(workspace: map<string, string>, c: ToolCall)
    ensures BodyOf(workspace, c).Some? ==> About(workspace, c, BodyOf(workspace, c).value)
  {
  }

  lemma CallFailsFor(w: Setup, r: Recording, workspace: map<string, string>, c: ToolCall)
    requires ToolCourse(w, r, workspace, c).On? && ToolCourse(w, r, workspace, c).value.outcome.None?
    ensures !c.TestCall?
    ensures c.path !in workspace || exists text :: About(workspace, c, text) && Refused(w, ToolCourse(w, r, workspace, c).value.r.blobs, Bytes(text))
  {
    hide Begun, Finish, Keep, Abandoned;
    ToolFailsFor(w, r, workspace, c);
    BodyAbout(workspace, c);
    if BodyOf(workspace, c).Some? { assert About(workspace, c, BodyOf(workspace, c).value); }
  }

  /** A call that is not refused by the store is on record, and a successful one is about the file's own text. */
  lemma CallRecounted(w: Setup, r: Recording, workspace: map<string, string>, c: ToolCall)
    ensures match ToolCourse(w, r, workspace, c)
      case On(e) => Recounts(w, r, e.r, workspace, c, e.outcome) && Kept(r.blobs, e.r.blobs)
      case Halted(_, _) => true
  {
    hide Journal, Keep, Conflicts, StartFields, Finished, Failed, StartSays, FinishSays, EventSays, Kept, Stored, ReadBinding, RunRef, At, About, Refused, BodyOf;
    var call, numbered := ToolName(w.run, r.toolCounter), r.(toolCounter := r.toolCounter + 1);
    JournalSays(w, numbered, ToolStart, call, StartFields(c));
    if ToolCourse(w, r, workspace, c).On? {
      var x := Begun(w, r, StartFields(c)).value;
      StartIs(c);
      var e := ToolCourse(w, r, workspace, c).value;
      if e.outcome.None? {
        CallAbandoned(w, x, call, ToolOf(c), if c.TestCall? then "" else c.path);
        CallFailsFor(w, r, workspace, c);
      } else {
        BodyAbout(workspace, c);
        CallCompleted(w, x, call, c, BodyOf(workspace, c).value);
      }
      KeptTransitive(r.blobs, x.blobs, e.r.blobs);
      SaysStill(w, x, e.r, |r.events|, ToolStart, call, StartFields(c));
    }
  }

  /** A run that goes through has gone through each of its operations. */
  lemma {:induction false} OnBefore(w: Setup, serializer: string -> string, j: Journey, ops: seq<Op>, n: nat)
    requires n <= |ops| && RunCourse(w, serializer, j, ops).On?
    ensures RunCourse(w, serializer, j, ops[..n]).On?
    decreases |ops|
  {
    hide Step;
    if n < |ops| {
      var most := ops[..|ops| - 1];
      assert most[..n] == ops[..n];
      OnBefore(w, serializer, j, most, n);
    } else {
      assert ops[..n] == ops;
    }
  }

  /** A read that succeeds returns, stores and shows the model the text of the last write to the file before it, or the
      initial text when there was none. */
  lemma ReadTellsLastWrite(w: Setup, serializer: string -> string, j: Journey, ops: seq<Op>, n: nat, path: string)
    requires n < |ops| && ops[n] == Call(ReadCall(path)) && RunCourse(w, serializer, j, ops).On?
    ensures RunCourse(w, serializer, j, ops[..n]).On? && RunCourse(w, serializer, j, ops[..n + 1]).On?
    ensures var before, after := RunCourse(w, serializer, j, ops[..n]).value, RunCourse(w, serializer, j, ops[..n + 1]).value;
      after.pool == before.pool ||
      (path in j.workspace && Shows(w, before, after, "TOOL RESULT read_file " + path + ":\n" + LastText(ToolCalls(ops[..n]), path, j.workspace[path]),
                                    LastText(ToolCalls(ops[..n]), path, j.workspace[path])))
  {
    hide ToolCourse, RunCourse;
    OnBefore(w, serializer, j, ops, n);
    OnBefore(w, serializer, j, ops, n + 1);
    WorkspaceHolds(w, serializer, j, ops[..n]);
    var before := RunCourse(w, serializer, j, ops[..n]).value;
    LastStep(w, serializer, j, ops, n);
    CallShows(w, serializer, before, path);
  }

  lemma LastStep(w: Setup, serializer: string -> string, j: Journey, ops: seq<Op>, n: nat)
    requires n < |ops| && RunCourse(w, serializer, j, ops[..n]).On?
    ensures RunCourse(w, serializer, j, ops[..n + 1]) == Step(w, serializer, RunCourse(w, serializer, j, ops[..n]).value, ops[n])
  {
    hide Step;
    assert ops[..n + 1][..n] == ops[..n];
  }

  lemma CallShows(w: Setup, serializer: string -> string, j: Journey, path: string)
    requires Step(w, serializer, j, Call(ReadCall(path))).On?
    ensures var k := Step(w, serializer, j, Call(ReadCall(path))).value;
      k.pool == j.pool || (path in j.workspace && Shows(w, j, k, "TOOL RESULT read_file " + path + ":\n" + j.workspace[path], j.workspace[path]))
  {
    hide ToolCourse;
    CallRecounted(w, j.r, j.workspace, ReadCall(path));
    hide Recounts;
    var e := ToolCourse(w, j.r, j.workspace, ReadCall(path)).value;
    if e.outcome.Some? { ReadRecounts(w, j.r, e.r, j.workspace, path, e.outcome.value); }
  }

  lemma ReadRecounts(w: Setup, a: Recording, b: Recording, workspace: map<string, string>, path: string, o: ToolOutcome)
    requires Recounts(w, a, b, workspace, ReadCall(path), Some(o))
    ensures path in workspace && o.text == workspace[path] && Stored(w, b.blobs, Bytes(o.text)) && o.bodyRef.hash == w.codec.digest(Bytes(o.text))
  {
    hide EventSays, FinishSays, StartSays, Stored;
  }

  /** One user message more, with this content, whose stored source is this text. */
  ghost predicate Shows(w: Setup, before: Journey, after: Journey, content: string, text: string) {
    && |after.pool| == |before.pool| + 1 && after.pool[..|before.pool|] == before.pool
    && var m := after.pool[|before.pool|];
      m.role == "user" && m.content == content && m.provenance.Some? && m.provenance.value.hash == w.codec.digest(Bytes(text)) &&
      Stored(w, after.r.blobs, Bytes(text))
  }

  // ---- What a send does ----

  /** A reference of this run to a text, at its own place. */
  ghost predicate Refers(w: Setup, r: Ref, text: string, at: Locator) {
    r == Ref(w.codec.digest(Bytes(text)), RuntimeSource, w.run, at, [Label(Runtime, Some(w.run), None, [])])
  }

  /** The last sequence number that had become available, or 0. */
  ghost predicate LastAvailable(events: seq<Event>, n: nat) {
    && (forall i :: 0 <= i < |events| && events[i].availableSeq.Some? ==> events[i].availableSeq.value <= n)
    && (n == 0 || exists i :: 0 <= i < |events| && events[i].availableSeq == Some(n))
  }

  /** The snapshot of an attempt: its names, its cutoff, its three bodies, its blocks, and what came back. */
  ghost predicate SnapshotTells(w: Setup, events: seq<Event>, id: Name, logical: Name, body: string, sent: string, blocks: seq<ContextBlock>,
    t: Transport, s: Snapshot)
  {
    && s.id == RequestName(id) && s.attempt == id && s.logicalCall == logical && s.runId == w.run && s.producer == w.producer && s.config == w.config
    && LastAvailable(events, s.cutoff) && s.blocks == blocks
    && Refers(w, s.before, body, AttemptPart(id, BeforeBody))
    && s.prepared.Some? && Refers(w, s.prepared.value, body, AttemptPart(id, PreparedBody))
    && s.sent.Some? && Refers(w, s.sent.value, sent, AttemptPart(id, SentBody))
    && (if t.Raised? then s.status == "transport_exception" && s.providerRequest.None? else s.status == t.status && s.providerRequest == t.requestId)
  }

  /** The payload of the request event. */
  ghost predicate AskedTells(w: Setup, id: Name, logical: Name, body: string, sent: string, fields: Fields) {
    && {AttemptIdKey, BeforeKey, PreparedKey, SentKey, LogicalKey} <= fields.Keys
    && fields[AttemptIdKey] == Id(id) && fields[LogicalKey] == Id(logical)
    && fields[BeforeKey].RefValue? && Refers(w, fields[BeforeKey].ref, body, AttemptPart(id, BeforeBody))
    && fields[PreparedKey].RefValue? && Refers(w, fields[PreparedKey].ref, body, AttemptPart(id, PreparedBody))
    && fields[SentKey].RefValue? && Refers(w, fields[SentKey].ref, sent, AttemptPart(id, SentBody))
  }

  /** The usage of an attempt is what the response reports, or unknown for the reason there is. */
  ghost predicate UsageTells(w: Setup, id: Name, t: Transport, usage: UsageFact, ref: Option<Ref>) {
    match t
    case Raised(_) => ref.None? && usage == Fact(None, UnknownFact, Some("transport_exception_before_response"), [])
    case Returned(_, text, _) =>
      if w.codec.usage(text).None? then ref.None? && usage == Fact(None, UnknownFact, Some("provider_did_not_report_usage"), [])
      else ref.Some? && Refers(w, ref.value, text, UsageField) && usage == Fact(w.codec.usage(text), Observed, None, [ref.value])
  }

  /** The payload of the terminal event: the response or the exception, and the usage. */
  ghost predicate GotTells(w: Setup, id: Name, logical: Name, t: Transport, u: Attempt, fields: Fields) {
    && {AttemptIdKey, ResponseKey, FailureKey, UsageRefKey, UsageKey, ProviderRequestKey, LogicalKey} <= fields.Keys
    && fields[AttemptIdKey] == Id(id) && fields[LogicalKey] == Id(logical) && fields[UsageKey] == FactValue(u.usage)
    && fields[UsageRefKey] == (if u.usageRef.Some? then RefValue(u.usageRef.value) else Nil)
    && match t
       case Raised(failure) =>
         && fields[ResponseKey] == Nil && fields[FailureKey].RefValue? && Refers(w, fields[FailureKey].ref, failure, AttemptPart(id, FailureBody))
         && fields[ProviderRequestKey] == Nil
       case Returned(_, text, requestId) =>
         && fields[FailureKey] == Nil && fields[ResponseKey].RefValue? && Refers(w, fields[ResponseKey].ref, text, AttemptPart(id, ResponseBody))
         && fields[ProviderRequestKey] == (if requestId.Some? then Words(requestId.value) else Nil)
  }

  /** A physical record of the attempt: entered with the sent bytes, or ended with them and what came back. */
  ghost predicate PhysicalTells(w: Setup, id: Name, sent: string, t: Transport, entered: bool, x: PhysicalAttempt) {
    && x.attempt == id && x.runId == w.run && x.producer == w.producer && Refers(w, x.sent, sent, AttemptPart(id, SentBody))
    && (if entered then x.outcome == OnlyEntered
        else if t.Raised? then x.outcome.Excepted? && Refers(w, x.outcome.failure, t.failure, AttemptPart(id, FailureBody))
        else x.outcome.Responded? && Refers(w, x.outcome.response, t.body, AttemptPart(id, ResponseBody)))
  }

  /** The record of one send. */
  ghost predicate RecountsSend(w: Setup, a: Recording, b: Recording, logical: Name, body: string, sent: string, blocks: seq<ContextBlock>, t: Transport) {
    var id, n := AttemptName(w.run, a.attemptSeq), |a.events|;
    && b.attemptSeq == a.attemptSeq + 1 && b.toolCounter == a.toolCounter && b.bindings == a.bindings
    && |b.snapshots| == |a.snapshots| + 1 && b.snapshots[..|a.snapshots|] == a.snapshots
    && SnapshotTells(w, a.events, id, logical, body, sent, blocks, t, b.snapshots[|a.snapshots|])
    && |b.usages| == |a.usages| + 1 && b.usages[..|a.usages|] == a.usages
    && var u := b.usages[|a.usages|];
    && u.id == id && UsageTells(w, id, t, u.usage, u.usageRef)
    && |b.events| == n + 2 && b.events[..n] == a.events
    && (exists asked :: AskedTells(w, id, logical, body, sent, asked) && EventSays(w, b, n, RequestEvent, logical, asked))
    && (exists got ::
          GotTells(w, id, logical, t, u, got) && EventSays(w, b, n + 1, if t.Raised? then FailureEvent else ResponseEvent, logical, got))
    && b.physical.Keys == a.physical.Keys + {PhysicalName(id, Entered), PhysicalName(id, Terminal)}
    && PhysicalTells(w, id, sent, t, true, b.physical[PhysicalName(id, Entered)])
    && PhysicalTells(w, id, sent, t, false, b.physical[PhysicalName(id, Terminal)])
    && Stored(w, b.blobs, Bytes(body)) && Stored(w, b.blobs, Bytes(sent)) && Stored(w, b.blobs, Bytes(if t.Raised? then t.failure else t.body))
  }

  lemma {:induction false} LastIs(events: seq<Event>)
    ensures LastAvailable(events, MaxAvailable(events))
  {
    if events != [] {
      var most, last := events[..|events| - 1], events[|events| - 1];
      LastIs(most);
      var n := MaxAvailable(most);
      forall i | 0 <= i < |events| && events[i].availableSeq.Some? ensures events[i].availableSeq.value <= MaxAvailable(events) {
        if i < |most| { assert most[i] == events[i]; }
      }
      if n != 0 {
        var i :| 0 <= i < |most| && most[i].availableSeq == Some(n);
        assert events[i].availableSeq == Some(n);
      }
    }
  }

  lemma SnapshotIs(w: Setup, events: seq<Event>, id: Name, logical: Name, body: string, sent: string, blocks: seq<ContextBlock>, t: Transport)
    ensures SnapshotTells(w, events, id, logical, body, sent, blocks, t, SnapshotOf(w, events, id, logical, Bytes(body), Bytes(sent), blocks, t))
  {
    hide MaxAvailable, LastAvailable;
    LastIs(events);
  }

  lemma AskedIs(w: Setup, id: Name, logical: Name, body: string, sent: string, t: Transport)
    ensures AskedTells(w, id, logical, body, sent, Asked(w, id, logical, Bytes(body), Bytes(sent), t))
  {
  }

  lemma UsageIs(w: Setup, id: Name, t: Transport)
    ensures UsageTells(w, id, t, UsageReport(w, id, t).0, UsageReport(w, id, t).1)
  {
  }

  lemma GotIs(w: Setup, id: Name, logical: Name, t: Transport)
    ensures GotTells(w, id, logical, t, Attempt(id, UsageReport(w, id, t).0, UsageReport(w, id, t).1), Got(w, id, logical, t))
  {
    hide UsageReport;
  }

  lemma PhysicalIs(w: Setup, id: Name, sent: string, t: Transport)
    ensures PhysicalTells(w, id, sent, t, true, EnteredRecord(w, id, Bytes(sent)))
    ensures PhysicalTells(w, id, sent, t, false, EndedRecord(w, id, Bytes(sent), t))
  {
  }

  lemma EventIs(w: Setup, r: Recording, n: nat, kind: EventKind, call: Name, fields: Fields)
    requires n < |r.events| && r.events[n] == NewEvent(w, n, kind, Some(call), fields, true) && Stored(w, r.blobs, PayloadBytes(fields))
    ensures EventSays(w, r, n, kind, call, fields)
  {
  }

  /** A send that goes through is on record: its snapshot, its usage, its two events, its two physical records, and the bytes
      they name. */
  lemma SendRecounted(w: Setup, r: Recording, logical: Name, body: string, sent: string, blocks: seq<ContextBlock>, t: Transport)
    requires LogSound(w, r) && SendCourse(w, r, logical, body, sent, blocks, t).On?
    ensures RecountsSend(w, r, SendCourse(w, r, logical, body, sent, blocks, t).value, logical, body, sent, blocks, t)
  {
    hide SendCourse;
    SendSound(w, r, logical, body, sent, blocks, t);
    SentRecounted(w, r, SendCourse(w, r, logical, body, sent, blocks, t).value, logical, body, sent, blocks, t);
  }

  lemma SentRecounted(w: Setup, a: Recording, b: Recording, logical: Name, body: string, sent: string, blocks: seq<ContextBlock>, t: Transport)
    requires Sent(w, a, b, logical, body, sent, blocks, t)
    ensures RecountsSend(w, a, b, logical, body, sent, blocks, t)
  {
    hide Asked, Got, UsageReport, EnteredRecord, EndedRecord, SnapshotOf, NewEvent, Stored, SnapshotTells, AskedTells, GotTells, UsageTells, PhysicalTells, EventSays,
      LogSound, Kept;
    var id, n := AttemptName(w.run, a.attemptSeq), |a.events|;
    SnapshotIs(w, a.events, id, logical, body, sent, blocks, t);
    AskedIs(w, id, logical, body, sent, t);
    UsageIs(w, id, t);
    GotIs(w, id, logical, t);
    PhysicalIs(w, id, sent, t);
    EventIs(w, b, n, RequestEvent, logical, Asked(w, id, logical, Bytes(body), Bytes(sent), t));
    EventIs(w, b, n + 1, EndKind(t), logical, Got(w, id, logical, t));
    GrownEvents(w, a, b);
  }

  /** Block `k` of a request describes this turn: where it comes from, what kind of message it is, and the digest of its text. */
  ghost predicate BlockTells(w: Setup, request: Name, k: nat, m: Turn, b: ContextBlock) {
    && b.requestId == request && b.occurrence == OccurrenceName(request, k) && b.pointer == MessageContent(k) && b.complete
    && m.origin == Some(b.origin) && b.provenance == m.provenance && b.toolCall == m.toolCall && b.binding == m.binding && b.role == m.role
    && b.contentHash == w.codec.digest(Bytes(m.content))
    && b.kind == (if m.toolCall.Some? then ToolResult else if m.role == "system" then SystemPrompt
                  else if m.role == "assistant" then AssistantResponse else TaskInstruction)
  }

  lemma BlockIs(w: Setup, request: Name, k: nat, m: Turn)
    requires m.origin.Some?
    ensures BlockTells(w, request, k, m, BlockFor(w, request, k, m))
  {
  }

  // ---- Comparing a bound file ----

  /** Label `k` of a reference is an untainted runtime label of this run. */
  ghost predicate OwnLabel(w: Setup, ref: Ref, k: int) {
    0 <= k < |ref.labels| && ref.labels[k].scope == Runtime && ref.labels[k].runId == Some(w.run) && ref.labels[k].taints == []
  }

  /** The binding is of a complete UTF-8 read, and the reference is this run's own evidence of the bytes read, visible from
      the very event of the read on, which is past. */
  ghost predicate Attested(w: Setup, r: Recording, b: FileBinding, ref: Ref) {
    && b.complete && b.encoding == "utf-8" && b.observedSeq <= |r.events|
    && ref.source == RuntimeSource && ref.key == w.run && ref.hash == b.sha
    && exists k :: OwnLabel(w, ref, k) && ref.labels[k].availableSeq == Some(b.observedSeq) && forall j :: OwnLabel(w, ref, j) ==> j == k
  }

  /** The bytes read are still held, and the file is still there. */
  ghost predicate BothThere(w: Setup, r: Recording, workspace: map<string, string>, b: FileBinding, ref: Ref) {
    ref.hash in r.blobs && w.codec.digest(r.blobs[ref.hash]) == ref.hash && b.path in workspace
  }

  lemma {:induction false} OwnLabelsExactly(ls: seq<Label>, run: string, w: Setup, ref: Ref)
    requires ref.labels == ls && w.run == run
    ensures OwnLabels(ls, run) == [] <==> forall k :: !OwnLabel(w, ref, k)
    ensures forall x :: OwnLabels(ls, run) == [x] <==> exists k :: OwnLabel(w, ref, k) && ls[k] == x && forall j :: OwnLabel(w, ref, j) ==> j == k
    decreases |ls|
  {
    if ls != [] {
      var more := ref.(labels := ls[1..]);
      OwnLabelsExactly(ls[1..], run, w, more);
      assert forall k :: k > 0 ==> (OwnLabel(w, ref, k) <==> OwnLabel(w, more, k - 1));
      assert forall k :: OwnLabel(w, more, k) ==> OwnLabel(w, ref, k + 1);
      forall x ensures OwnLabels(ls, run) == [x] <==> exists k :: OwnLabel(w, ref, k) && ls[k] == x && forall j :: OwnLabel(w, ref, j) ==> j == k {
        if OwnLabel(w, ref, 0) {
          var all := [ls[0]] + OwnLabels(ls[1..], run);
          assert OwnLabels(ls, run) == all && all[0] == ls[0] && |all| == 1 + |OwnLabels(ls[1..], run)|;
          if k :| OwnLabel(w, ref, k) && ls[k] == x && forall j :: OwnLabel(w, ref, j) ==> j == k {
            assert k == 0 && forall j :: !OwnLabel(w, more, j);
          }
        } else {
          if k :| OwnLabel(w, ref, k) && ls[k] == x && forall j :: OwnLabel(w, ref, j) ==> j == k {
            assert OwnLabel(w, more, k - 1) && ls[1..][k - 1] == x && forall j :: OwnLabel(w, more, j) ==> j == k - 1;
          }
          if k :| OwnLabel(w, more, k) && ls[1..][k] == x && forall j :: OwnLabel(w, more, j) ==> j == k {
            assert OwnLabel(w, ref, k + 1) && ls[k + 1] == x && forall j :: OwnLabel(w, ref, j) ==> j == k + 1;
          }
        }
      }
    }
  }

  lemma AttestedExactly(w: Setup, r: Recording, b: FileBinding, ref: Ref)
    ensures Comparable(w, b, ref, |r.events|) <==> Attested(w, r, b, ref)
  {
    OwnLabelsExactly(ref.labels, w.run, w, ref);
    var own := OwnLabels(ref.labels, w.run);
    hide OwnLabels;
    if |own| == 1 { assert own == [own[0]]; }
    if Attested(w, r, b, ref) {
      var k :| OwnLabel(w, ref, k) && ref.labels[k].availableSeq == Some(b.observedSeq) && forall j :: OwnLabel(w, ref, j) ==> j == k;
      assert own == [ref.labels[k]];
    }
  }

  /** When a bound file is the same, changed or unknown, and for which reason. */
  lemma ComparisonExactly(w: Setup, r: Recording, workspace: map<string, string>, b: FileBinding, ref: Ref)
    ensures var x := Comparison(w, r, workspace, b, ref);
      && (x.status == Unknown("historical_binding_unverified") <==> !Attested(w, r, b, ref))
      && (x.status == Unknown("current_file_unavailable_or_unsafe") <==> Attested(w, r, b, ref) && !BothThere(w, r, workspace, b, ref))
      && (x.status == Same <==>
            Attested(w, r, b, ref) && BothThere(w, r, workspace, b, ref) && w.codec.digest(Bytes(workspace[b.path])) == b.sha)
      && (x.status == Changed <==>
            Attested(w, r, b, ref) && BothThere(w, r, workspace, b, ref) && w.codec.digest(Bytes(workspace[b.path])) != b.sha)
      && x.bindingRef == ref && x.checkedSeq == |r.events|
  {
    hide Comparable, Attested;
    AttestedExactly(w, r, b, ref);
    assert "historical_binding_unverified"[0] != "current_file_unavailable_or_unsafe"[0];
  }

  // ---- What is sealed ----

  /** Entry `i` of a sealed artifact is this file with this text: its digest, and the text itself held under it. */
  ghost predicate EntryHolds(w: Setup, blobs: map<Hash, Blob>, entries: seq<SealedFile>, i: nat, path: string, text: string) {
    && i < |entries| && entries[i].file.path == path && entries[i].file.sha == w.codec.digest(Bytes(text))
    && entries[i].body == Ref(w.codec.digest(Bytes(text)), RuntimeSource, w.run, SealedFileAt(path), RunLabel(w.run))
    && w.codec.digest(Bytes(text)) in blobs && blobs[w.codec.digest(Bytes(text))] == Bytes(text)
  }

  /** The sealed artifact of this hash is held and lists each of these files once, with its text, and no other. */
  ghost predicate SealsText(w: Setup, blobs: map<Hash, Blob>, hash: Option<Hash>, workspace: map<string, string>) {
    && hash.Some? && hash.value in blobs && blobs[hash.value].SealedBytes?
    && var entries := blobs[hash.value].sealed;
      && |entries| == |workspace|
      && forall path :: path in workspace ==> exists i :: EntryHolds(w, blobs, entries, i, path, workspace[path])
  }

  lemma {:induction false} DistinctCount(paths: seq<string>, all: set<string>)
    requires RuntimeRun.Lists(paths, all)
    ensures |paths| == |all|
    decreases |paths|
  {
    if |paths| == 0 {
      assert all == {};
    } else {
      var most, last := paths[..|paths| - 1], paths[|paths| - 1];
      assert paths == most + [last];
      assert forall p :: p in most <==> p in all - {last};
      DistinctCount(most, all - {last});
    }
  }

  lemma EntryHeld(w: Setup, site: Site, workspace: map<string, string>, blobs: map<Hash, Blob>, i: nat)
    requires i < |site.walk(workspace.Keys)| && site.walk(workspace.Keys)[i] in workspace
    requires Stored(w, blobs, Bytes(TextAt(workspace, site.walk(workspace.Keys)[i])))
    ensures EntryHolds(w, blobs, Entries(w, site, workspace), i, site.walk(workspace.Keys)[i], workspace[site.walk(workspace.Keys)[i]])
  {
  }

  lemma EntryCount(w: Setup, site: Site, workspace: map<string, string>)
    ensures |Entries(w, site, workspace)| == |site.walk(workspace.Keys)|
  {
  }

  /** What is sealed is the text each file had. */
  lemma StatesSealText(w: Setup, site: Site, revision: string, initial: RepoState, r: Recording, workspace: map<string, string>, blobs: map<Hash, Blob>)
    requires StatesHeld(w, site, r, workspace, blobs) && Walks(site)
    ensures SealsText(w, blobs, SealedStates(w, site, revision, initial, r, workspace).sealedHash, workspace)
  {
    hide Entries, EntryHolds, FinalState, TreeOf, ProducerFields, TextAt;
    var entries, paths := Entries(w, site, workspace), site.walk(workspace.Keys);
    assert RuntimeRun.Lists(paths, workspace.Keys);
    DistinctCount(paths, workspace.Keys);
    EntryCount(w, site, workspace);
    forall path | path in workspace ensures exists i :: EntryHolds(w, blobs, entries, i, path, workspace[path]) {
      assert path in paths;
      var i: nat :| i < |paths| && paths[i] == path;
      EntryHeld(w, site, workspace, blobs, i);
    }
  }

  // ---- How a run ends ----

  /** The last event of a run is its stop, and it says this status and this reason. */
  ghost predicate StopsWith(w: Setup, r: Recording, status: string, reason: Option<string>) {
    && |r.events| > 0
    && var e := r.events[|r.events| - 1];
      && e.kind == RunStop && e.payload.hash in r.blobs && r.blobs[e.payload.hash].PayloadBytes?
      && var fields := r.blobs[e.payload.hash].fields;
        && At(fields, StatusKey) == Words(status)
        && At(fields, OtherKey("stop_reason")) == (if reason.Some? then Words(reason.value) else Nil)
  }

  lemma SealStops(w: Setup, site: Site, r: Recording, workspace: map<string, string>, status: string, reason: Option<string>)
    requires LogSound(w, r)
    ensures match SealCourse(w, site, r, workspace, status, reason)
      case On(x) => StopsWith(w, x, status, reason)
      case Halted(_, _) => true
  {
    hide LogSound, LogGrows, Stored, StatesCourse, StatesHeld, Keep, Kept, Journal, Said, FieldsOf, NewEvent;
    LogCourseSound(w, r, status, reason);
    var stopped := Journal(w, r, RunStop, None, StopFields(status, reason));
    if SealCourse(w, site, r, workspace, status, reason).On? {
      StopJournal(w, r, status, reason);
      KeepKeeps(w, stopped.value, EventLogBytes(stopped.value.events));
      var log := LogCourse(w, r, status, reason).value;
      StopStays(w, stopped.value, log, status, reason);
      GrowsLog(w, r, log);
      StatesSound(w, site, log, workspace);
      var x := StatesCourse(w, site, log, workspace).value;
      GrownBlobs(w, log, x);
      StopStays(w, log, x, status, reason);
    }
  }

  lemma StopJournal(w: Setup, r: Recording, status: string, reason: Option<string>)
    ensures match Journal(w, r, RunStop, None, StopFields(status, reason))
      case On(x) => StopsWith(w, x, status, reason)
      case Halted(_, _) => true
  {
  }

  lemma StopStays(w: Setup, a: Recording, b: Recording, status: string, reason: Option<string>)
    requires StopsWith(w, a, status, reason) && Kept(a.blobs, b.blobs) && b.events == a.events
    ensures StopsWith(w, b, status, reason)
  {
  }

  /** A whole run, sealed: the workspace holds the last writes, the sealed artifact holds the workspace, and the log ends as
      the caller said. */
  lemma SealedTexts(w: Setup, serializer: string -> string, site: Site, revision: string, initial: RepoState, j: Journey, ops: seq<Op>,
    status: string, reason: Option<string>)
    requires UnderWay(w, j)
    ensures match WholeCourse(w, serializer, site, j, ops, status, reason)
      case On(k) =>
        && LastWritten(j.workspace, k.workspace, ToolCalls(ops)) && StopsWith(w, k.r, status, reason)
        && (Walks(site) ==> SealsText(w, k.r.blobs, SealedStates(w, site, revision, initial, k.r, k.workspace).sealedHash, k.workspace))
      case Halted(_, _) => true
  {
    hide RunCourse, Recorded, Traced, Kept, SealCourse, LogSound, LogGrows, AllAuthentic, Stored, TraceOfAll, StatesHeld, SealsText, StopsWith, Walks,
      SealedStates, LastWritten;
    RunKeeps(w, serializer, j, ops);
    WorkspaceHolds(w, serializer, j, ops);
    if WholeCourse(w, serializer, site, j, ops, status, reason).On? {
      var end := RunCourse(w, serializer, j, ops).value;
      var at :| Recorded(w, end.r, at);
      RecordedLog(w, end.r, at);
      SealSound(w, site, end.r, end.workspace, status, reason);
      SealStops(w, site, end.r, end.workspace, status, reason);
      var x := SealCourse(w, site, end.r, end.workspace, status, reason).value;
      if Walks(site) { StatesSealText(w, site, revision, initial, x, end.workspace, x.blobs); }
    }
  }
}
