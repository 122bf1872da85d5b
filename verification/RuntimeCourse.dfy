/** What each operation of a captured run does to the recording, and why it keeps the record. */
module RuntimeCourse {
  import opened Ordering
  import opened Labels
  import opened Evidence
  import opened UsageLedger
  import opened RuntimeRecords
  import opened RuntimeAudit
  import opened RuntimeInvariant
  import opened RuntimeSend
  import opened RuntimeSeal

  /** `FileReadResult` and `ToolExecutionResult`: the call, its finishing event, the body reference as the model may see it. */
  datatype ToolOutcome = ToolOutcome(call: Name, finish: Name, bodyRef: Ref, binding: Option<FileBinding>, text: string)

  /** The message that shows a tool outcome to the model. */
  function TurnFor(x: ToolOutcome, content: string): Turn {
    Turn(UserRole(), content, Some(x.finish), Some(x.call), x.binding, Some(x.bodyRef))
  }

  // ---- Facts about a growing record ----

  lemma ToolRecorded(w: Setup, a: Recording, b: Recording, at: seq<nat>, start: Event, finish: Event)
    requires Recorded(w, a, at) && LogGrows(w, a, b) && b.events == a.events + [start, finish] && b.toolCounter == a.toolCounter + 1
    requires start.kind == ToolStart && finish.kind == ToolFinish && start.callId == Some(ToolName(w.run, a.toolCounter)) == finish.callId
    requires b.snapshots == a.snapshots && b.attemptSeq == a.attemptSeq && b.physical == a.physical && b.usages == a.usages
    requires BindingsRecorded(w, b)
    ensures Recorded(w, b, at)
  {
    hide LogGrows, AttemptsRecorded, ToolsRecorded, BindingsRecorded, LogSound, Relevant;
    ToolAdded(w, a, b, start, finish);
    forall i | |a.events| <= i < |b.events| ensures !Relevant(false, b.events[i]) && !Relevant(true, b.events[i]) {
      assert b.events[i] == start || b.events[i] == finish;
      ToolsIrrelevant(b.events[i]);
    }
    AttemptsStay(w, a, b, at);
    GrownConfig(w, a, b);
  }

  lemma ToolsIrrelevant(e: Event)
    requires e.kind != RequestEvent && e.kind != ResponseEvent && e.kind != FailureEvent
    ensures !Relevant(false, e) && !Relevant(true, e)
  {
  }

  lemma GrownConfig(w: Setup, a: Recording, b: Recording)
    requires LogGrows(w, a, b) && RunBlob(w.codec, a.blobs, w.run, w.config).Some?
    ensures LogSound(w, b) && RunBlob(w.codec, b.blobs, w.run, w.config).Some?
  {
    RunBlobStays(w, a, b, w.config);
  }

  /** One event that is neither a tool event nor part of an attempt. */
  lemma OtherRecorded(w: Setup, a: Recording, b: Recording, at: seq<nat>, e: Event)
    requires Recorded(w, a, at) && LogGrows(w, a, b) && b.events == a.events + [e] && (e.kind == StateCheck || e.kind == RunStop)
    requires b == a.(blobs := b.blobs, events := b.events)
    ensures Recorded(w, b, at)
  {
    hide LogGrows, AttemptsRecorded, ToolsRecorded, BindingsRecorded, LogSound, Relevant;
    ToolsStay(w, a, b, [e]);
    forall i | |a.events| <= i < |b.events| ensures !Relevant(false, b.events[i]) && !Relevant(true, b.events[i]) { ToolsIrrelevant(e); }
    AttemptsStay(w, a, b, at);
    BindingsStay(w, a, b);
    GrownConfig(w, a, b);
  }

  lemma SameLogRecorded(w: Setup, a: Recording, b: Recording, at: seq<nat>)
    requires Recorded(w, a, at) && LogGrows(w, a, b) && b == a.(blobs := b.blobs, attemptSeq := b.attemptSeq, toolCounter := b.toolCounter)
    requires b.attemptSeq >= a.attemptSeq && b.toolCounter >= a.toolCounter
    ensures Recorded(w, b, at)
  {
    hide LogGrows, AttemptsRecorded, ToolsRecorded, BindingsRecorded, LogSound, Relevant;
    assert b.events == a.events + [];
    ToolsStay(w, a, b, []);
    AttemptsStay(w, a, b, at);
    BindingsStay(w, a, b);
    GrownConfig(w, a, b);
  }

  lemma SendKeepsRecorded(w: Setup, a: Recording, b: Recording, at: seq<nat>, logical: Name, body: string, sent: string,
    blocks: seq<ContextBlock>, t: Transport, ms: seq<Turn>)
    requires Recorded(w, a, at) && Sent(w, a, b, logical, body, sent, blocks, t)
    requires Carries(w, a, AttemptName(w.run, a.attemptSeq), blocks, sent, ms)
    ensures Recorded(w, b, at + [|a.events|])
  {
    SendRecorded(w, a, b, at, logical, body, sent, blocks, t, ms);
    SentGrows(w, a, b, logical, body, sent, blocks, t);
    SentTail(w, a, b, logical, body, sent, blocks, t);
    hide LogGrows, AttemptsRecorded, ToolsRecorded, BindingsRecorded, LogSound, Sent, Carries;
    ToolsStay(w, a, b, b.events[|a.events|..]);
    BindingsStay(w, a, b);
    GrownConfig(w, a, b);
  }

  lemma SentTail(w: Setup, a: Recording, b: Recording, logical: Name, body: string, sent: string, blocks: seq<ContextBlock>, t: Transport)
    requires Sent(w, a, b, logical, body, sent, blocks, t)
    ensures |a.events| <= |b.events| && b.events == a.events + b.events[|a.events|..]
    ensures forall i :: 0 <= i < |b.events[|a.events|..]| ==> b.events[|a.events|..][i].kind != ToolStart && b.events[|a.events|..][i].kind != ToolFinish
    ensures b.toolCounter == a.toolCounter && b.bindings == a.bindings
  {
    hide Asked, Got, UsageReport, EndRef, PartRef, Stored, LogSound, SnapshotOf;
  }

  /** A log went on with events of these kinds. */
  predicate Traced(a: seq<Event>, b: seq<Event>, kinds: seq<EventKind>) {
    && |b| == |a| + |kinds| && b[..|a|] == a
    && forall i :: 0 <= i < |kinds| ==> b[|a| + i].kind == kinds[i]
  }

  function ToolTrace(): seq<EventKind> { [ToolStart, ToolFinish] }

  lemma TracedJoined(a: seq<Event>, b: seq<Event>, c: seq<Event>, first: seq<EventKind>, more: seq<EventKind>)
    requires Traced(a, b, first) && Traced(b, c, more)
    ensures Traced(a, c, first + more)
  {
    forall i | 0 <= i < |first + more| ensures c[|a| + i].kind == (first + more)[i] {
      if i < |first| {
        assert c[..|b|][|a| + i] == b[|a| + i];
      } else {
        assert c[|b| + (i - |first|)].kind == more[i - |first|];
      }
    }
    assert c[..|a|] == c[..|b|][..|a|];
  }

  /** The fields a finished tool call records. */
  function Finished(tool: Tool, path: Option<string>, body: Ref, sha: Option<Hash>): Fields {
    map[ToolKey := ToolValue(tool), BodyKey := RefValue(body), CompleteKey := Flag(true),
        PathKey := OptionalText(path), ShaKey := OptionalText(sha)]
  }

  function Failed(tool: Tool, path: string): Fields {
    map[ToolKey := ToolValue(tool), PathKey := Words(path), ErrorKey := Words("error"), CompleteKey := Flag(false)]
  }

  /** The binding of a finished read passes the audit of bindings. */
  lemma ReadBound(w: Setup, r: Recording, i: nat, call: Name, path: string, text: string, x: FileBinding)
    requires LogSound(w, r) && i < |r.events| && r.events[i].kind == ToolFinish && r.events[i].callId == Some(call)
    requires var body := RunRef(w, Bytes(text), ToolBody(call));
      FieldsOf(Said(w, r), r.events[i]) == Some(Finished(ReadTool, Some(path), body, Some(w.codec.digest(Bytes(text)))))
    requires Stored(w, r.blobs, Bytes(text))
    requires x == FileBinding(path, w.codec.digest(Bytes(text)), "utf-8", EventName(w.run, i), i, true)
    ensures HasTool(w.codec, Draft(w, r), w.run, Said(w, r), x)
  {
    RuntimeLabel(w, r, i);
    SaidAt(w, r, i);
    hide Said, LogSound, FieldsOf;
    assert BindingClean(w.codec, Draft(w, r), w.run, Said(w, r), x, i);
  }

  lemma FinishedSays(tool: Tool, path: Option<string>, body: Ref, sha: Option<Hash>)
    ensures var fields := Finished(tool, path, body, sha);
      At(fields, ToolKey) == ToolValue(tool) && At(fields, BodyKey) == RefValue(body) && At(fields, PathKey) == OptionalText(path)
  {
  }

  /** What a finished tool call showed can be quoted from then on. */
  lemma ToolQuotable(w: Setup, r: Recording, i: nat, call: Name, tool: Tool, path: Option<string>, text: string, sha: Option<Hash>,
    x: ToolOutcome, content: string)
    requires LogSound(w, r) && i < |r.events| && r.events[i].kind == ToolFinish && r.events[i].callId == Some(call)
    requires var body := RunRef(w, Bytes(text), ToolBody(call));
      FieldsOf(Said(w, r), r.events[i]) == Some(Finished(tool, path, body, sha))
    requires Stored(w, r.blobs, Bytes(text)) && x.call == call && x.finish == EventName(w.run, i)
    requires x.bodyRef == RunRef(w, Bytes(text), ToolBody(call)).(labels := [Label(Runtime, Some(w.run), Some(i), [])])
    requires match tool
      case ReadTool => path.Some? && content == ReadContent(path.value, text) && x.binding.Some? && x.binding.value.readEvent == EventName(w.run, i) && x.binding.value.observedSeq == i
      case WriteTool => x.binding.None? && content == WriteContent()
      case TestTool => x.binding.None? && w.codec.redumped(text).Some? && content == TestContent(w.codec.redumped(text).value)
      case _ => false
    ensures Authentic(w, r, TurnFor(x, content), |r.events|)
  {
    hide *;
    RuntimeLabel(w, r, i);
    FinishedSays(tool, path, RunRef(w, Bytes(text), ToolBody(call)), sha);
    LabelledRead(w, r, Bytes(text), ToolBody(call), EventLabel(r.events[i]));
    ShownSays(w.codec, x.binding, r.events[i], Finished(tool, path, RunRef(w, Bytes(text), ToolBody(call)), sha), tool, path, text, content);
    TurnIs(x, content);
    ToolTurnIs(w, r, TurnFor(x, content), i);
    AuthenticTool(w, r, TurnFor(x, content), i, |r.events|);
  }

  lemma TurnIs(x: ToolOutcome, content: string)
    ensures var m := TurnFor(x, content);
      m.toolCall == Some(x.call) && m.origin == Some(x.finish) && m.provenance == Some(x.bodyRef) && m.binding == x.binding && m.content == content
  {
  }

  lemma ToolTurnIs(w: Setup, r: Recording, m: Turn, i: nat)
    requires i < |r.events| && r.events[i].kind == ToolFinish && FieldsOf(Said(w, r), r.events[i]).Some?
    requires var fields := FieldsOf(Said(w, r), r.events[i]).value;
      && At(fields, BodyKey).RefValue? && m.toolCall.Some? && m.toolCall == r.events[i].callId
      && m.origin == Some(r.events[i].id) && m.provenance == Some(At(fields, BodyKey).ref.(labels := EventLabel(r.events[i])))
      && Loaded(w.codec, r.blobs, m.provenance.value).Some?
      && ToolSays(w.codec, m.binding, r.events[i], fields, Loaded(w.codec, r.blobs, m.provenance.value).value, m.content)
    ensures ToolTurn(w, r, m, i)
  {
    hide Said, FieldsOf, ToolSays, Loaded, EventLabel;
  }

  lemma AuthenticTool(w: Setup, r: Recording, m: Turn, i: nat, n: nat)
    requires ToolTurn(w, r, m, i) && i < n
    ensures Authentic(w, r, m, n)
  {
    hide ToolTurn, ResponseTurn, PublicTurn;
  }

  lemma LabelledRead(w: Setup, r: Recording, b: Blob, locator: Locator, labels: seq<Label>)
    requires Stored(w, r.blobs, b)
    ensures Loaded(w.codec, r.blobs, RunRef(w, b, locator).(labels := labels)) == Some(b)
  {
  }

  lemma ShownSays(c: Codec, binding: Option<FileBinding>, e: Event, fields: Fields, tool: Tool, path: Option<string>, text: string, content: string)
    requires At(fields, ToolKey) == ToolValue(tool) && At(fields, PathKey) == OptionalText(path)
    requires match tool
      case ReadTool => path.Some? && content == ReadContent(path.value, text) && binding.Some? && binding.value.readEvent == e.id && e.availableSeq == Some(binding.value.observedSeq)
      case WriteTool => binding.None? && content == WriteContent()
      case TestTool => binding.None? && c.redumped(text).Some? && content == TestContent(c.redumped(text).value)
      case _ => false
    ensures ToolSays(c, binding, e, fields, Bytes(text), content)
  {
    hide ReadContent, WriteContent, TestContent;
  }

  /** The run's own untainted runtime labels. */
  function OwnLabels(ls: seq<Label>, run: string): seq<Label> {
    if ls == [] then []
    else (if ls[0].scope == Runtime && ls[0].runId == Some(run) && ls[0].taints == [] then [ls[0]] else []) + OwnLabels(ls[1..], run)
  }

  /** The binding and the reference to what was read belong together, and to this run. */
  predicate Comparable(w: Setup, b: FileBinding, ref: Ref, at: nat) {
    && b.complete && b.encoding == "utf-8" && ref.source == RuntimeSource && ref.key == w.run && ref.hash == b.sha
    && |OwnLabels(ref.labels, w.run)| == 1 && OwnLabels(ref.labels, w.run)[0].availableSeq == Some(b.observedSeq) && at >= b.observedSeq
  }

  function ComparisonFields(b: FileBinding, x: FileComparison): Fields {
    map[BindingKey := RefValue(x.bindingRef), PathKey := Words(b.path), HistoricalShaKey := Words(b.sha),
        CurrentRefKey := if x.currentRef.Some? then RefValue(x.currentRef.value) else Nil,
        CurrentShaKey := OptionalText(x.currentSha), StatusKey := StatusValue(x.status)]
  }

  /** The comparison `x` of the bound file `b` as the run has recorded it: its own state-check event carries the sequence
      number it names and its very content, and the bytes it compares are held. */
  ghost predicate Told(w: Setup, r: Recording, b: FileBinding, x: FileComparison) {
    && x.checkedSeq < |r.events| && r.events[x.checkedSeq].kind == StateCheck && r.events[x.checkedSeq].callId == Some(b.readEvent)
    && FieldsOf(Said(w, r), r.events[x.checkedSeq]) == Some(ComparisonFields(b, x))
    && (if x.status.Unknown? then x.currentRef.None? && x.currentSha.None?
        else exists text :: CurrentIs(w, r, b, x, text))
  }

  ghost predicate CurrentIs(w: Setup, r: Recording, b: FileBinding, x: FileComparison, text: string) {
    && Stored(w, r.blobs, Bytes(text)) && x.currentSha == Some(w.codec.digest(Bytes(text)))
    && x.currentRef == Some(RunRef(w, Bytes(text), StateCheckFile(x.checkedSeq, b.path)).(labels := [Label(Runtime, Some(w.run), Some(x.checkedSeq), [])]))
    && x.status == (if w.codec.digest(Bytes(text)) == b.sha then Same else Changed)
  }

  lemma ToldStays(w: Setup, a: Recording, b: Recording, x: FileBinding, c: FileComparison)
    requires LogGrows(w, a, b) && Told(w, a, x, c)
    ensures Told(w, b, x, c)
  {
    FieldsStay(w, a, b, c.checkedSeq);
    if !c.status.Unknown? {
      var text :| CurrentIs(w, a, x, c, text);
      hide Said, FieldsOf, ComparisonFields;
      assert CurrentIs(w, b, x, c, text);
    }
  }

  // ---- The conversation ----

  /** The turns a send quotes. */
  function Quoted(pool: seq<Turn>, picks: seq<nat>): seq<Turn> {
    if picks == [] then []
    else (if picks[0] < |pool| then [pool[picks[0]]] else []) + Quoted(pool, picks[1..])
  }

  lemma QuotedAuthentic(w: Setup, r: Recording, pool: seq<Turn>, picks: seq<nat>, n: nat)
    requires AllAuthentic(w, r, pool, n)
    ensures AllAuthentic(w, r, Quoted(pool, picks), n)
  {
    hide Authentic;
    if picks != [] { QuotedAuthentic(w, r, pool, picks[1..], n); }
  }

  lemma AllAuthenticStay(w: Setup, a: Recording, b: Recording, pool: seq<Turn>)
    requires LogGrows(w, a, b) && AllAuthentic(w, a, pool, |a.events|)
    ensures AllAuthentic(w, b, pool, |b.events|)
  {
    GrownEvents(w, a, b);
    hide LogGrows, Authentic;
    forall k | 0 <= k < |pool| ensures Authentic(w, b, pool[k], |b.events|) { AuthenticStays(w, a, b, pool[k], |a.events|, |b.events|); }
  }

  lemma AuthenticSourced(w: Setup, r: Recording, ms: seq<Turn>, n: nat)
    requires AllAuthentic(w, r, ms, n)
    ensures AllSourced(ms)
  {
    forall k | 0 <= k < |ms| ensures ms[k].origin.Some? && ms[k].provenance.Some? { assert Authentic(w, r, ms[k], n); }
  }

  lemma AuthenticAdded(w: Setup, r: Recording, pool: seq<Turn>, turn: Turn, n: nat)
    requires AllAuthentic(w, r, pool, n) && Authentic(w, r, turn, n)
    ensures AllAuthentic(w, r, pool + [turn], n)
  {
    hide Authentic;
  }

  /** The message that shows a response to the model: the response reference, as visible from its event on. */
  function ResponseTurnFor(w: Setup, id: Name, i: nat, t: Transport, content: string): Turn {
    Turn(AssistantRole(), content, Some(EventName(w.run, i)), None, None,
         Some(EndRef(w, id, t).(labels := [Label(Runtime, Some(w.run), Some(i), [])])))
  }

  lemma GotResponse(w: Setup, id: Name, logical: Name, t: Transport)
    requires t.Returned?
    ensures At(Got(w, id, logical, t), ResponseKey) == RefValue(EndRef(w, id, t))
  {
    hide UsageReport, EndRef;
  }

  lemma EndLoaded(w: Setup, r: Recording, id: Name, t: Transport, labels: seq<Label>)
    requires Stored(w, r.blobs, EndBlob(t))
    ensures Loaded(w.codec, r.blobs, EndRef(w, id, t).(labels := labels)) == Some(EndBlob(t))
  {
  }

  lemma ResponseQuotable(w: Setup, a: Recording, b: Recording, logical: Name, body: string, sent: string, blocks: seq<ContextBlock>, t: Transport)
    requires Sent(w, a, b, logical, body, sent, blocks, t) && t.Returned? && w.codec.content(t.body).Some?
    ensures |b.events| == |a.events| + 2
    ensures Authentic(w, b, ResponseTurnFor(w, AttemptName(w.run, a.attemptSeq), |b.events| - 1, t, w.codec.content(t.body).value), |b.events|)
  {
    hide Sent, Said, LogSound, FieldsOf, EventLabel, UsageReport, Asked, Got, Stored, EndRef, SnapshotOf, EnteredRecord, EndedRecord, Loaded;
    var id, i := AttemptName(w.run, a.attemptSeq), |a.events| + 1;
    SentFields(w, a, b, logical, body, sent, blocks, t);
    SentShape(w, a, b, logical, body, sent, blocks, t);
    RuntimeLabel(w, b, i);
    GotResponse(w, id, logical, t);
    EndLoaded(w, b, id, t, EventLabel(b.events[i]));
    assert ResponseTurn(w, b, ResponseTurnFor(w, id, i, t, w.codec.content(t.body).value), i);
  }

  lemma SentTraced(w: Setup, a: Recording, b: Recording, logical: Name, body: string, sent: string, blocks: seq<ContextBlock>, t: Transport)
    requires Sent(w, a, b, logical, body, sent, blocks, t)
    ensures Traced(a.events, b.events, [RequestEvent, EndKind(t)])
  {
    hide Asked, Got, UsageReport, EndRef, PartRef, Stored, LogSound, SnapshotOf;
    GrownEvents(w, a, b);
  }

  // ---- More facts about a growing record ----

  lemma RolesDiffer()
    ensures SystemRole() != AssistantRole() && UserRole() != SystemRole() && UserRole() != AssistantRole()
  {
    assert SystemRole()[0] == 's' && AssistantRole()[0] == 'a' && UserRole()[0] == 'u';
  }

  /** Only blobs and events make the log. */
  lemma PhysicalIrrelevant(w: Setup, a: Recording, b: Recording)
    requires LogSound(w, a) && b.blobs == a.blobs && b.events == a.events
    ensures LogGrows(w, a, b) && LogSound(w, b)
  {
  }

  lemma ChainGrows(w: Setup, r: Recording, r0: Recording, r1: Recording, r2: Recording, r3: Recording, r4: Recording, r5: Recording)
    requires LogGrows(w, r, r0) && LogGrows(w, r0, r1) && LogGrows(w, r1, r2) && LogGrows(w, r2, r3) && LogGrows(w, r3, r4) && LogGrows(w, r4, r5)
    ensures LogGrows(w, r, r5)
  {
    hide LogGrows;
    LogGrowsTransitive(w, r, r0, r1);
    LogGrowsTransitive(w, r, r1, r2);
    LogGrowsTransitive(w, r, r2, r3);
    LogGrowsTransitive(w, r, r3, r4);
    LogGrowsTransitive(w, r, r4, r5);
  }

  lemma GrowsLog(w: Setup, a: Recording, b: Recording)
    requires LogGrows(w, a, b)
    ensures LogSound(w, a) && LogSound(w, b)
  {
  }

  lemma StoredAll(w: Setup, r1: Recording, r2: Recording, r3: Recording, body: string, sent: string, t: Transport)
    requires LogGrows(w, r1, r2) && LogGrows(w, r2, r3)
    requires Stored(w, r1.blobs, Bytes(body)) && Stored(w, r1.blobs, Bytes(sent)) && Stored(w, r1.blobs, EndBlob(t))
    ensures Stored(w, r3.blobs, Bytes(body)) && Stored(w, r3.blobs, Bytes(sent)) && Stored(w, r3.blobs, EndBlob(t))
  {
    hide Stored, LogGrows;
    LogGrowsTransitive(w, r1, r2, r3);
    StoredStays(w, r1, r3, Bytes(body));
    StoredStays(w, r1, r3, Bytes(sent));
    StoredStays(w, r1, r3, EndBlob(t));
  }

  /** What makes a send complete. */
  lemma SentNow(w: Setup, a: Recording, b: Recording, id: Name, logical: Name, body: string, sent: string, blocks: seq<ContextBlock>, t: Transport)
    requires id == AttemptName(w.run, a.attemptSeq) && LogGrows(w, a, b) && b.attemptSeq == a.attemptSeq + 1 && |b.events| == |a.events| + 2
    requires Stored(w, b.blobs, Bytes(body)) && Stored(w, b.blobs, Bytes(sent)) && Stored(w, b.blobs, EndBlob(t))
    requires Stored(w, b.blobs, PayloadBytes(Asked(w, id, logical, Bytes(body), Bytes(sent), t))) && Stored(w, b.blobs, PayloadBytes(Got(w, id, logical, t)))
    requires var m := |a.events|;
      && b.events[m] == NewEvent(w, m, RequestEvent, Some(logical), Asked(w, id, logical, Bytes(body), Bytes(sent), t), true)
      && b.events[m + 1] == NewEvent(w, m + 1, EndKind(t), Some(logical), Got(w, id, logical, t), true)
    requires b.snapshots == a.snapshots + [SnapshotOf(w, a.events, id, logical, Bytes(body), Bytes(sent), blocks, t)]
    requires b.physical == a.physical[PhysicalName(id, Entered) := EnteredRecord(w, id, Bytes(sent))]
                                     [PhysicalName(id, Terminal) := EndedRecord(w, id, Bytes(sent), t)]
    requires b.usages == a.usages + [Attempt(id, UsageReport(w, id, t).0, UsageReport(w, id, t).1)]
    requires b.toolCounter == a.toolCounter && b.bindings == a.bindings
    ensures Sent(w, a, b, logical, body, sent, blocks, t)
  {
    hide LogGrows, Stored, Asked, Got, UsageReport, EnteredRecord, EndedRecord, SnapshotOf, NewEvent;
  }

  lemma RecordedLog(w: Setup, r: Recording, at: seq<nat>)
    requires Recorded(w, r, at)
    ensures LogSound(w, r)
  {
  }

  lemma CounterGrows(w: Setup, r: Recording, n: nat)
    requires LogSound(w, r)
    ensures LogGrows(w, r, r.(toolCounter := n))
  {
  }

  /** The bindings take no part in the log. */
  lemma BindingsIrrelevant(w: Setup, r: Recording, bs: seq<FileBinding>)
    requires LogSound(w, r)
    ensures LogGrows(w, r, r.(bindings := bs))
    ensures forall e :: FieldsOf(Said(w, r.(bindings := bs)), e) == FieldsOf(Said(w, r), e)
  {
    assert Said(w, r.(bindings := bs)) == Said(w, r);
  }

  lemma StoredStays(w: Setup, a: Recording, b: Recording, x: Blob)
    requires LogGrows(w, a, b) && Stored(w, a.blobs, x)
    ensures Stored(w, b.blobs, x)
  {
  }

  lemma SameGrows(w: Setup, r: Recording)
    requires LogSound(w, r)
    ensures LogGrows(w, r, r)
  {
  }

  // ---- The course of an operation ----

  /** How an operation goes: to its end, or to the first content the write-once store refuses because it already holds
      another content under the same digest. */
  datatype Course<+T> = On(value: T) | Halted(offered: Blob, held: Blob) {
    predicate IsFailure() { Halted? }

    function PropagateFailure<U>(): Course<U>
      requires Halted?
    {
      Halted(offered, held)
    }

    function Extract(): T
      requires On?
    {
      value
    }
  }

  /** Two different contents with one digest. */
  predicate Clash(w: Setup, a: Blob, b: Blob) { a != b && w.codec.digest(a) == w.codec.digest(b) }

  /** `ingest_runtime_bytes`. */
  function Keep(w: Setup, r: Recording, b: Blob): Course<Recording> {
    if Conflicts(w, r.blobs, b) then Halted(b, r.blobs[w.codec.digest(b)])
    else On(r.(blobs := r.blobs[w.codec.digest(b) := b]))
  }

  /** `record_event`. */
  function Journal(w: Setup, r: Recording, kind: EventKind, call: Option<Name>, fields: Fields): Course<Recording> {
    if Conflicts(w, r.blobs, PayloadBytes(fields)) then Halted(PayloadBytes(fields), r.blobs[w.codec.digest(PayloadBytes(fields))])
    else On(Appended(w, r, kind, call, fields))
  }

  lemma KeepSound(w: Setup, r: Recording, b: Blob)
    requires LogSound(w, r)
    ensures match Keep(w, r, b)
      case On(x) => LogGrows(w, r, x) && Stored(w, x.blobs, b) && x == r.(blobs := x.blobs)
      case Halted(offered, held) => Clash(w, offered, held)
  {
    hide EventSound;
    if !Conflicts(w, r.blobs, b) { BlobAddedSound(w, r, b); }
  }

  lemma JournalSound(w: Setup, r: Recording, kind: EventKind, call: Option<Name>, fields: Fields)
    requires LogSound(w, r)
    ensures match Journal(w, r, kind, call, fields)
      case On(x) =>
        LogGrows(w, r, x) && x.events == r.events + [NewEvent(w, |r.events|, kind, call, fields, kind != ToolStart)] &&
        x == r.(blobs := x.blobs, events := x.events) &&
        FieldsOf(Said(w, x), x.events[|r.events|]) == Some(fields) && Stored(w, x.blobs, PayloadBytes(fields))
      case Halted(offered, held) => Clash(w, offered, held)
  {
    hide EventSound, Said, FieldsOf;
    if !Conflicts(w, r.blobs, PayloadBytes(fields)) { AppendedSound(w, r, kind, call, fields); }
  }

  // ---- Tool calls ----

  /** One call of `RuntimeTools`; `raw` is the JSON text of what the sandbox returned. */
  datatype ToolCall = ReadCall(path: string) | WriteCall(path: string, text: string) | TestCall(raw: string)

  function ToolOf(c: ToolCall): Tool { if c.ReadCall? then ReadTool else if c.WriteCall? then WriteTool else TestTool }

  function StartFields(c: ToolCall): Fields {
    if c.TestCall? then map[ToolKey := ToolValue(TestTool)] else map[ToolKey := ToolValue(ToolOf(c)), PathKey := Words(c.path)]
  }

  function PathOfCall(c: ToolCall): Option<string> { if c.ReadCall? then Some(c.path) else if c.WriteCall? then Some(c.path) else None }

  /** The bytes the call is about, unless the file is not there. */
  function BodyOf(workspace: map<string, string>, c: ToolCall): Option<string> {
    match c
    case ReadCall(path) => if path in workspace then Some(workspace[path]) else None
    case WriteCall(path, text) => if path in workspace then Some(text) else None
    case TestCall(raw) => Some(raw)
  }

  /** What the call shows the model. */
  function ContentShown(w: Setup, c: ToolCall, text: string): Option<string> {
    match c
    case ReadCall(path) => Some(ReadContent(path, text))
    case WriteCall(_, _) => Some(WriteContent())
    case TestCall(raw) => if w.codec.redumped(text).Some? then Some(TestContent(w.codec.redumped(text).value)) else None
  }

  /** An existing file is overwritten; nothing else changes. */
  function WorkspaceAfter(workspace: map<string, string>, c: ToolCall): map<string, string> {
    if c.WriteCall? && c.path in workspace then workspace[c.path := c.text] else workspace
  }

  /** The end of a call: no outcome is an exception. */
  datatype ToolEnd = ToolEnd(r: Recording, outcome: Option<ToolOutcome>)

  function Begun(w: Setup, r: Recording, fields: Fields): Course<Recording> {
    Journal(w, r.(toolCounter := r.toolCounter + 1), ToolStart, Some(ToolName(w.run, r.toolCounter)), fields)
  }

  /** The `except` branch. */
  function Abandoned(w: Setup, r: Recording, call: Name, tool: Tool, path: string): Course<ToolEnd> {
    var x :- Journal(w, r, ToolFinish, Some(call), Failed(tool, path));
    On(ToolEnd(x, None))
  }

  /** The normal end, once the body is stored: the finish is recorded, a read bound. */
  function Finish(w: Setup, r: Recording, call: Name, tool: Tool, path: Option<string>, text: string, sha: Option<Hash>): Course<ToolEnd> {
    var n, body := |r.events|, RunRef(w, Bytes(text), ToolBody(call));
    var x :- Journal(w, r, ToolFinish, Some(call), Finished(tool, path, body, sha));
    var binding := if tool == ReadTool && path.Some? then Some(ReadBinding(w, n, path.value, text)) else None;
    On(ToolEnd(
      if binding.Some? then x.(bindings := x.bindings + [binding.value]) else x,
      Some(ToolOutcome(call, EventName(w.run, n), body.(labels := [Label(Runtime, Some(w.run), Some(n), [])]), binding, text))))
  }

  function Completed(w: Setup, r: Recording, call: Name, tool: Tool, path: Option<string>, text: string, sha: Option<Hash>): Course<ToolEnd> {
    var held :- Keep(w, r, Bytes(text));
    Finish(w, held, call, tool, path, text, sha)
  }

  function ReadBinding(w: Setup, n: nat, path: string, text: string): FileBinding {
    FileBinding(path, w.codec.digest(Bytes(text)), "utf-8", EventName(w.run, n), n, true)
  }

  /** A whole call. A read or write whose bytes the store refuses is finished as failed, like one without its file. */
  function ToolCourse(w: Setup, r: Recording, workspace: map<string, string>, c: ToolCall): Course<ToolEnd> {
    var call := ToolName(w.run, r.toolCounter);
    var x :- Begun(w, r, StartFields(c));
    var text := BodyOf(workspace, c);
    if text.None? || (!c.TestCall? && Conflicts(w, x.blobs, Bytes(text.value)))
    then Abandoned(w, x, call, ToolOf(c), if c.TestCall? then "" else c.path)
    else Completed(w, x, call, ToolOf(c), PathOfCall(c), text.value, if c.TestCall? then None else Some(w.codec.digest(Bytes(text.value))))
  }

  /** Everything but events, blobs, tool counter and bindings is as before. */
  predicate OnlyLogged(a: Recording, b: Recording) {
    b.snapshots == a.snapshots && b.attemptSeq == a.attemptSeq && b.physical == a.physical && b.usages == a.usages
  }

  lemma BegunSound(w: Setup, r: Recording, fields: Fields)
    requires LogSound(w, r)
    ensures match Begun(w, r, fields)
      case On(x) =>
        && LogGrows(w, r, x) && OnlyLogged(r, x) && x.toolCounter == r.toolCounter + 1 && x.bindings == r.bindings
        && |x.events| == |r.events| + 1 && x.events[|r.events|].kind == ToolStart
        && x.events[|r.events|].callId == Some(ToolName(w.run, r.toolCounter))
      case Halted(offered, held) => Clash(w, offered, held)
  {
    hide LogSound, Said, FieldsOf;
    var numbered := r.(toolCounter := r.toolCounter + 1);
    CounterGrows(w, r, r.toolCounter + 1);
    GrowsLog(w, r, numbered);
    JournalSound(w, numbered, ToolStart, Some(ToolName(w.run, r.toolCounter)), fields);
    if Begun(w, r, fields).On? { LogGrowsTransitive(w, r, numbered, Begun(w, r, fields).value); }
  }

  lemma AbandonedSound(w: Setup, r: Recording, call: Name, tool: Tool, path: string)
    requires LogSound(w, r)
    ensures match Abandoned(w, r, call, tool, path)
      case On(e) =>
        && LogGrows(w, r, e.r) && OnlyLogged(r, e.r) && e.r.toolCounter == r.toolCounter && e.r.bindings == r.bindings && e.outcome.None?
        && |e.r.events| == |r.events| + 1 && e.r.events[|r.events|].kind == ToolFinish && e.r.events[|r.events|].callId == Some(call)
      case Halted(offered, held) => Clash(w, offered, held)
  {
    hide LogSound, Said, FieldsOf, Failed;
    JournalSound(w, r, ToolFinish, Some(call), Failed(tool, path));
  }

  /** What a completed call leaves. */
  ghost predicate CallShown(w: Setup, r: Recording, x: Recording, call: Name, tool: Tool, path: Option<string>, text: string, sha: Option<Hash>,
    o: ToolOutcome)
  {
    && LogGrows(w, r, x) && OnlyLogged(r, x) && x.toolCounter == r.toolCounter && Stored(w, x.blobs, Bytes(text))
    && |x.events| == |r.events| + 1 && x.events[|r.events|].kind == ToolFinish && x.events[|r.events|].callId == Some(call)
    && FieldsOf(Said(w, x), x.events[|r.events|]) == Some(Finished(tool, path, RunRef(w, Bytes(text), ToolBody(call)), sha))
    && o.call == call && o.finish == EventName(w.run, |r.events|) && o.text == text
    && o.bodyRef == RunRef(w, Bytes(text), ToolBody(call)).(labels := [Label(Runtime, Some(w.run), Some(|r.events|), [])])
    && (if tool == ReadTool && path.Some?
        then o.binding == Some(ReadBinding(w, |r.events|, path.value, text)) && x.bindings == r.bindings + [o.binding.value]
        else o.binding.None? && x.bindings == r.bindings)
  }

  /** The finish of a call that began at `r` and has stored its body since. */
  lemma FinishSound(w: Setup, r: Recording, held: Recording, call: Name, tool: Tool, path: Option<string>, text: string, sha: Option<Hash>)
    requires LogGrows(w, r, held) && held == r.(blobs := held.blobs) && Stored(w, held.blobs, Bytes(text))
    ensures match Finish(w, held, call, tool, path, text, sha)
      case On(e) => e.outcome.Some? && CallShown(w, r, e.r, call, tool, path, text, sha, e.outcome.value)
      case Halted(offered, other) => Clash(w, offered, other)
  {
    hide LogSound, LogGrows, Said, FieldsOf, Finished, Stored, ReadBinding, RunRef, Journal;
    GrowsLog(w, r, held);
    var fields := Finished(tool, path, RunRef(w, Bytes(text), ToolBody(call)), sha);
    JournalSound(w, held, ToolFinish, Some(call), fields);
    var said := Journal(w, held, ToolFinish, Some(call), fields);
    if said.On? {
      LogGrowsTransitive(w, r, held, said.value);
      StoredStays(w, held, said.value, Bytes(text));
      GrowsLog(w, r, said.value);
      var e := Finish(w, held, call, tool, path, text, sha).value;
      BindingsIrrelevant(w, said.value, e.r.bindings);
      LogGrowsTransitive(w, r, said.value, e.r);
    }
  }

  lemma CompletedSound(w: Setup, r: Recording, call: Name, tool: Tool, path: Option<string>, text: string, sha: Option<Hash>)
    requires LogSound(w, r)
    ensures match Completed(w, r, call, tool, path, text, sha)
      case On(e) => e.outcome.Some? && CallShown(w, r, e.r, call, tool, path, text, sha, e.outcome.value)
      case Halted(offered, held) => Clash(w, offered, held)
  {
    hide LogSound, LogGrows, CallShown, Finish, Stored;
    KeepSound(w, r, Bytes(text));
    if Keep(w, r, Bytes(text)).On? { FinishSound(w, r, Keep(w, r, Bytes(text)).value, call, tool, path, text, sha); }
  }

  /** A tool call keeps the log sound, adds one start and one finish, and what it shows can be quoted. */
  lemma ToolSound(w: Setup, r: Recording, workspace: map<string, string>, c: ToolCall)
    requires LogSound(w, r)
    ensures match ToolCourse(w, r, workspace, c)
      case On(e) =>
        && LogGrows(w, r, e.r) && OnlyLogged(r, e.r) && Traced(r.events, e.r.events, ToolTrace())
        && (e.outcome.Some? ==> BodyOf(workspace, c) == Some(e.outcome.value.text))
        && (e.outcome.None? ==> e.r.bindings == r.bindings)
        && (e.outcome.Some? && ContentShown(w, c, e.outcome.value.text).Some? ==>
              Authentic(w, e.r, TurnFor(e.outcome.value, ContentShown(w, c, e.outcome.value.text).value), |e.r.events|))
        && (e.outcome.Some? ==> |e.r.bindings| == |r.bindings| + (if c.ReadCall? then 1 else 0))
      case Halted(offered, held) => Clash(w, offered, held)
  {
    hide LogSound, Said, FieldsOf, Begun, Completed, Abandoned, Stored, Authentic, Finished, Traced, ReadContent, TestContent;
    var call := ToolName(w.run, r.toolCounter);
    BegunSound(w, r, StartFields(c));
    if Begun(w, r, StartFields(c)).On? {
      var x := Begun(w, r, StartFields(c)).value;
      GrowsLog(w, r, x);
      var text := BodyOf(workspace, c);
      if text.None? || (!c.TestCall? && Conflicts(w, x.blobs, Bytes(text.value))) {
        AbandonedSound(w, x, call, ToolOf(c), if c.TestCall? then "" else c.path);
        var end := Abandoned(w, x, call, ToolOf(c), if c.TestCall? then "" else c.path);
        if end.On? { CallTraced(w, r, x, end.value.r); }
      } else {
        var sha := if c.TestCall? then None else Some(w.codec.digest(Bytes(text.value)));
        CompletedCallSound(w, r, x, call, c, text.value, sha);
      }
    }
  }

  lemma CompletedCallSound(w: Setup, r: Recording, x: Recording, call: Name, c: ToolCall, text: string, sha: Option<Hash>)
    requires Begun(w, r, StartFields(c)) == On(x) && call == ToolName(w.run, r.toolCounter) && LogSound(w, r) && LogSound(w, x)
    requires sha == if c.TestCall? then None else Some(w.codec.digest(Bytes(text)))
    ensures match Completed(w, x, call, ToolOf(c), PathOfCall(c), text, sha)
      case On(e) =>
        && LogGrows(w, r, e.r) && OnlyLogged(r, e.r) && Traced(r.events, e.r.events, ToolTrace())
        && e.outcome.Some? && e.outcome.value.text == text && |e.r.bindings| == |r.bindings| + (if c.ReadCall? then 1 else 0)
        && (ContentShown(w, c, text).Some? ==> Authentic(w, e.r, TurnFor(e.outcome.value, ContentShown(w, c, text).value), |e.r.events|))
      case Halted(offered, held) => Clash(w, offered, held)
  {
    hide LogSound, LogGrows, Said, FieldsOf, Begun, Completed, Stored, Authentic, Finished, Traced, ReadContent, TestContent, ContentShown;
    BegunSound(w, r, StartFields(c));
    CompletedSound(w, x, call, ToolOf(c), PathOfCall(c), text, sha);
    var end := Completed(w, x, call, ToolOf(c), PathOfCall(c), text, sha);
    if end.On? {
      CallTraced(w, r, x, end.value.r);
      CallQuotable(w, x, end.value.r, call, c, text, sha, end.value.outcome.value);
    }
  }

  /** A call fails for one of two reasons: its file is not there, or the store holds another content under its digest. */
  lemma ToolFailsFor(w: Setup, r: Recording, workspace: map<string, string>, c: ToolCall)
    requires ToolCourse(w, r, workspace, c).On? && ToolCourse(w, r, workspace, c).value.outcome.None?
    ensures BodyOf(workspace, c).None? || (!c.TestCall? && Conflicts(w, ToolCourse(w, r, workspace, c).value.r.blobs, Bytes(BodyOf(workspace, c).value)))
  {
    hide Begun, Failed, Finished, NewEvent, RunRef, BodyOf;
  }

  lemma ToolTells(w: Setup, r: Recording, workspace: map<string, string>, c: ToolCall)
    requires ToolCourse(w, r, workspace, c).On? && ToolCourse(w, r, workspace, c).value.outcome.Some?
    ensures BodyOf(workspace, c) == Some(ToolCourse(w, r, workspace, c).value.outcome.value.text)
  {
    hide Begun, Failed, Finished, NewEvent, RunRef, BodyOf;
  }

  /** A start and a finish. */
  lemma CallTraced(w: Setup, r: Recording, x: Recording, y: Recording)
    requires LogGrows(w, r, x) && LogGrows(w, x, y) && |x.events| == |r.events| + 1 && |y.events| == |x.events| + 1
    requires x.events[|r.events|].kind == ToolStart && y.events[|x.events|].kind == ToolFinish
    ensures LogGrows(w, r, y) && Traced(r.events, y.events, ToolTrace())
  {
    hide LogSound, Kept;
    GrownEvents(w, r, x);
    GrownEvents(w, x, y);
    LogGrowsTransitive(w, r, x, y);
    GrownEvents(w, r, y);
    assert y.events[..|x.events|][|r.events|] == x.events[|r.events|];
  }

  lemma CallQuotable(w: Setup, x: Recording, y: Recording, call: Name, c: ToolCall, text: string, sha: Option<Hash>, o: ToolOutcome)
    requires CallShown(w, x, y, call, ToolOf(c), PathOfCall(c), text, sha, o)
    ensures ContentShown(w, c, text).Some? ==> Authentic(w, y, TurnFor(o, ContentShown(w, c, text).value), |y.events|)
  {
    hide LogSound, Said, FieldsOf, Finished, Stored, Authentic, RunRef, ReadContent, TestContent, TurnFor;
    GrowsLog(w, x, y);
    if ContentShown(w, c, text).Some? {
      ToolQuotable(w, y, |x.events|, call, ToolOf(c), PathOfCall(c), text, sha, o, ContentShown(w, c, text).value);
    }
  }

  /** A tool call keeps the record. */
  lemma ToolKeepsRecorded(w: Setup, r: Recording, at: seq<nat>, workspace: map<string, string>, c: ToolCall)
    requires Recorded(w, r, at) && ToolCourse(w, r, workspace, c).On?
    ensures Recorded(w, ToolCourse(w, r, workspace, c).value.r, at)
  {
    hide LogSound, Said, FieldsOf, Begun, Completed, Abandoned, Stored, Finished, AttemptsRecorded, ToolsRecorded, BindingsRecorded, LogGrows;
    RecordedLog(w, r, at);
    var call := ToolName(w.run, r.toolCounter);
    BegunSound(w, r, StartFields(c));
    var x := Begun(w, r, StartFields(c)).value;
    GrowsLog(w, r, x);
    var y := ToolCourse(w, r, workspace, c).value.r;
    var text := BodyOf(workspace, c);
    if text.None? || (!c.TestCall? && Conflicts(w, x.blobs, Bytes(text.value))) {
      AbandonedSound(w, x, call, ToolOf(c), if c.TestCall? then "" else c.path);
      LogGrowsTransitive(w, r, x, y);
      BindingsStay(w, r, y);
    } else {
      var sha := if c.TestCall? then None else Some(w.codec.digest(Bytes(text.value)));
      CompletedSound(w, x, call, ToolOf(c), PathOfCall(c), text.value, sha);
      CompletedBindings(w, r, x, y, call, c, text.value, sha, ToolCourse(w, r, workspace, c).value.outcome.value);
    }
    CallRecorded(w, r, x, y, at);
  }

  lemma CompletedBindings(w: Setup, r: Recording, x: Recording, y: Recording, call: Name, c: ToolCall, text: string, sha: Option<Hash>, o: ToolOutcome)
    requires BindingsRecorded(w, r) && LogGrows(w, r, x) && x.bindings == r.bindings && |x.events| == |r.events| + 1
    requires CallShown(w, x, y, call, ToolOf(c), PathOfCall(c), text, sha, o) && (c.ReadCall? ==> sha == Some(w.codec.digest(Bytes(text))))
    ensures LogGrows(w, r, y) && BindingsRecorded(w, y)
  {
    hide LogSound, Said, FieldsOf, BindingsRecorded, Stored, Finished, LogGrows, HasTool, RunRef;
    LogGrowsTransitive(w, r, x, y);
    if c.ReadCall? {
      GrowsLog(w, x, y);
      ReadBound(w, y, |x.events|, call, c.path, text, o.binding.value);
      BindingAdded(w, r, y, o.binding.value);
    } else {
      BindingsStay(w, r, y);
    }
  }

  lemma CallRecorded(w: Setup, r: Recording, x: Recording, y: Recording, at: seq<nat>)
    requires Recorded(w, r, at) && LogGrows(w, r, x) && LogGrows(w, x, y) && LogGrows(w, r, y) && OnlyLogged(r, y) && BindingsRecorded(w, y)
    requires |x.events| == |r.events| + 1 && |y.events| == |x.events| + 1 && y.toolCounter == r.toolCounter + 1
    requires x.events[|r.events|].kind == ToolStart && x.events[|r.events|].callId == Some(ToolName(w.run, r.toolCounter))
    requires y.events[|x.events|].kind == ToolFinish && y.events[|x.events|].callId == Some(ToolName(w.run, r.toolCounter))
    ensures Recorded(w, y, at)
  {
    hide LogSound, Kept, AttemptsRecorded, ToolsRecorded, BindingsRecorded;
    GrownEvents(w, r, x);
    GrownEvents(w, x, y);
    assert y.events[..|x.events|][|r.events|] == x.events[|r.events|];
    GrownEvents(w, r, y);
    assert y.events == r.events + [y.events[|r.events|], y.events[|x.events|]];
    ToolRecorded(w, r, y, at, y.events[|r.events|], y.events[|x.events|]);
  }

  // ---- Comparing a bound file ----

  datatype Checked = Checked(r: Recording, x: FileComparison)

  function Comparison(w: Setup, r: Recording, workspace: map<string, string>, b: FileBinding, ref: Ref): FileComparison {
    var n := |r.events|;
    if !Comparable(w, b, ref, n) then FileComparison(ref, None, None, n, Unknown("historical_binding_unverified"))
    else if Loaded(w.codec, r.blobs, ref).None? || b.path !in workspace
    then FileComparison(ref, None, None, n, Unknown("current_file_unavailable_or_unsafe"))
    else
      var current := Bytes(workspace[b.path]);
      FileComparison(ref, Some(w.codec.digest(current)),
        Some(RunRef(w, current, StateCheckFile(n, b.path)).(labels := [Label(Runtime, Some(w.run), Some(n), [])])),
        n, if w.codec.digest(current) == b.sha then Same else Changed)
  }

  /** `compare_bound_file`: the bytes now at the bound path are stored, when there is anything to compare, and the event
      tells the outcome. */
  function CheckCourse(w: Setup, r: Recording, workspace: map<string, string>, b: FileBinding, ref: Ref): Course<Checked> {
    var x := Comparison(w, r, workspace, b, ref);
    var held :- if x.status.Unknown? then On(r) else Keep(w, r, Bytes(workspace[b.path]));
    var y :- Journal(w, held, StateCheck, Some(b.readEvent), ComparisonFields(b, x));
    On(Checked(y, x))
  }

  lemma CheckSound(w: Setup, r: Recording, workspace: map<string, string>, b: FileBinding, ref: Ref)
    requires LogSound(w, r)
    ensures match CheckCourse(w, r, workspace, b, ref)
      case On(c) =>
        && LogGrows(w, r, c.r) && c.r == r.(blobs := c.r.blobs, events := c.r.events) && Traced(r.events, c.r.events, [StateCheck])
        && Told(w, c.r, b, c.x)
      case Halted(offered, held) => Clash(w, offered, held)
  {
    hide LogSound, Said, FieldsOf, ComparisonFields, Comparable, Loaded;
    SameGrows(w, r);
    var x := Comparison(w, r, workspace, b, ref);
    if !x.status.Unknown? { KeepSound(w, r, Bytes(workspace[b.path])); }
    var held := if x.status.Unknown? then On(r) else Keep(w, r, Bytes(workspace[b.path]));
    if held.On? {
      GrowsLog(w, r, held.value);
      JournalSound(w, held.value, StateCheck, Some(b.readEvent), ComparisonFields(b, x));
      var said := Journal(w, held.value, StateCheck, Some(b.readEvent), ComparisonFields(b, x));
      if said.On? {
        LogGrowsTransitive(w, r, held.value, said.value);
        GrownEvents(w, r, said.value);
        if !x.status.Unknown? {
          StoredStays(w, held.value, said.value, Bytes(workspace[b.path]));
          assert CurrentIs(w, said.value, b, x, workspace[b.path]);
        }
      }
    }
  }

  lemma CheckKeepsRecorded(w: Setup, r: Recording, at: seq<nat>, workspace: map<string, string>, b: FileBinding, ref: Ref)
    requires Recorded(w, r, at) && CheckCourse(w, r, workspace, b, ref).On?
    ensures Recorded(w, CheckCourse(w, r, workspace, b, ref).value.r, at)
  {
    hide LogSound, Said, FieldsOf, AttemptsRecorded, ToolsRecorded, BindingsRecorded, CheckCourse, Told;
    RecordedLog(w, r, at);
    CheckSound(w, r, workspace, b, ref);
    var y := CheckCourse(w, r, workspace, b, ref).value.r;
    TracedOne(r.events, y.events, StateCheck);
    OtherRecorded(w, r, y, at, y.events[|r.events|]);
  }

  lemma TracedOne(a: seq<Event>, b: seq<Event>, kind: EventKind)
    requires Traced(a, b, [kind])
    ensures |b| == |a| + 1 && b == a + [b[|a|]] && b[|a|].kind == kind
  {
    assert [kind][0] == kind && b[|a| + 0].kind == [kind][0];
  }

  // ---- Sending ----

  /** `CapturedProvider.send`: the bodies are stored and the attempt entered, the transport acts, its end is stored and
      recorded. */
  function TransmitCourse(w: Setup, r: Recording, id: Name, body: string, sent: string, t: Transport): Course<Recording> {
    var prepared :- Keep(w, r, Bytes(body));
    var serialized :- Keep(w, prepared, Bytes(sent));
    var entered := serialized.(physical := serialized.physical[PhysicalName(id, Entered) := EnteredRecord(w, id, Bytes(sent))]);
    var ended :- Keep(w, entered, EndBlob(t));
    On(ended.(physical := ended.physical[PhysicalName(id, Terminal) := EndedRecord(w, id, Bytes(sent), t)]))
  }

  /** The usage and the snapshot of a transmitted attempt; the snapshot's cutoff looks at the log as it stands. */
  function Captured(w: Setup, r: Recording, id: Name, logical: Name, body: string, sent: string, blocks: seq<ContextBlock>, t: Transport): Recording {
    r.(usages := r.usages + [Attempt(id, UsageReport(w, id, t).0, UsageReport(w, id, t).1)],
       snapshots := r.snapshots + [SnapshotOf(w, r.events, id, logical, Bytes(body), Bytes(sent), blocks, t)])
  }

  /** The request event and the terminal event. */
  function PairCourse(w: Setup, r: Recording, id: Name, logical: Name, body: string, sent: string, t: Transport): Course<Recording> {
    var asked :- Journal(w, r, RequestEvent, Some(logical), Asked(w, id, logical, Bytes(body), Bytes(sent), t));
    Journal(w, asked, EndKind(t), Some(logical), Got(w, id, logical, t))
  }

  /** `send_request`: a numbered attempt is transmitted, then its snapshot and its two events are recorded. */
  function SendCourse(w: Setup, r: Recording, logical: Name, body: string, sent: string, blocks: seq<ContextBlock>, t: Transport): Course<Recording> {
    var id := AttemptName(w.run, r.attemptSeq);
    var x :- TransmitCourse(w, r.(attemptSeq := r.attemptSeq + 1), id, body, sent, t);
    PairCourse(w, Captured(w, x, id, logical, body, sent, blocks, t), id, logical, body, sent, t)
  }

  lemma SendSound(w: Setup, r: Recording, logical: Name, body: string, sent: string, blocks: seq<ContextBlock>, t: Transport)
    requires LogSound(w, r)
    ensures match SendCourse(w, r, logical, body, sent, blocks, t)
      case On(x) => Sent(w, r, x, logical, body, sent, blocks, t)
      case Halted(offered, held) => Clash(w, offered, held)
  {
    hide LogSound, Said, FieldsOf, Asked, Got, UsageReport, EnteredRecord, EndedRecord, SnapshotOf, EndBlob, NewEvent, Sent, Keep, Journal, LogGrows, Stored;
    var id := AttemptName(w.run, r.attemptSeq);
    var report := UsageReport(w, id, t);
    var r0 := r.(attemptSeq := r.attemptSeq + 1);
    PhysicalIrrelevant(w, r, r0);
    KeepSound(w, r0, Bytes(body));
    if Keep(w, r0, Bytes(body)).On? {
      var r1 := Keep(w, r0, Bytes(body)).value;
      GrowsLog(w, r0, r1);
      KeepSound(w, r1, Bytes(sent));
      if Keep(w, r1, Bytes(sent)).On? {
        var r2 := Keep(w, r1, Bytes(sent)).value;
        GrowsLog(w, r1, r2);
        var r3 := r2.(physical := r2.physical[PhysicalName(id, Entered) := EnteredRecord(w, id, Bytes(sent))]);
        PhysicalIrrelevant(w, r2, r3);
        KeepSound(w, r3, EndBlob(t));
        if Keep(w, r3, EndBlob(t)).On? {
          var r4 := Keep(w, r3, EndBlob(t)).value;
          GrowsLog(w, r3, r4);
          var r5 := r4.(physical := r4.physical[PhysicalName(id, Terminal) := EndedRecord(w, id, Bytes(sent), t)],
            usages := r4.usages + [Attempt(id, report.0, report.1)],
            snapshots := r4.snapshots + [SnapshotOf(w, r.events, id, logical, Bytes(body), Bytes(sent), blocks, t)]);
          PhysicalIrrelevant(w, r4, r5);
          StoredChain(w, r, r0, r1, r2, r3, r4, r5, body, sent, t);
          PairSound(w, r5, id, logical, body, sent, t);
          if SendCourse(w, r, logical, body, sent, blocks, t).On? {
            var r7 := SendCourse(w, r, logical, body, sent, blocks, t).value;
            StoredAll(w, r5, r5, r7, body, sent, t);
            LogGrowsTransitive(w, r, r5, r7);
            SentNow(w, r, r7, id, logical, body, sent, blocks, t);
          }
        }
      }
    }
  }

  lemma StoredChain(w: Setup, r: Recording, r0: Recording, r1: Recording, r2: Recording, r3: Recording, r4: Recording, r5: Recording,
    body: string, sent: string, t: Transport)
    requires LogGrows(w, r, r0) && LogGrows(w, r0, r1) && LogGrows(w, r1, r2) && LogGrows(w, r2, r3) && LogGrows(w, r3, r4) && LogGrows(w, r4, r5)
    requires Stored(w, r1.blobs, Bytes(body)) && Stored(w, r2.blobs, Bytes(sent)) && Stored(w, r4.blobs, EndBlob(t))
    ensures LogGrows(w, r, r5) && LogGrows(w, r5, r5) && LogSound(w, r5)
    ensures Stored(w, r5.blobs, Bytes(body)) && Stored(w, r5.blobs, Bytes(sent)) && Stored(w, r5.blobs, EndBlob(t))
  {
    hide LogGrows, Stored, LogSound;
    ChainGrows(w, r, r0, r1, r2, r3, r4, r5);
    LogGrowsTransitive(w, r1, r2, r3);
    LogGrowsTransitive(w, r1, r3, r4);
    LogGrowsTransitive(w, r1, r4, r5);
    LogGrowsTransitive(w, r2, r3, r4);
    LogGrowsTransitive(w, r2, r4, r5);
    StoredStays(w, r1, r5, Bytes(body));
    StoredStays(w, r2, r5, Bytes(sent));
    StoredStays(w, r4, r5, EndBlob(t));
    GrowsLog(w, r4, r5);
    SameGrows(w, r5);
  }

  lemma PairSound(w: Setup, r: Recording, id: Name, logical: Name, body: string, sent: string, t: Transport)
    requires LogSound(w, r)
    ensures match PairCourse(w, r, id, logical, body, sent, t)
      case On(x) =>
        && LogGrows(w, r, x) && |x.events| == |r.events| + 2 && x == r.(blobs := x.blobs, events := x.events)
        && x.events[|r.events|] == NewEvent(w, |r.events|, RequestEvent, Some(logical), Asked(w, id, logical, Bytes(body), Bytes(sent), t), true)
        && x.events[|r.events| + 1] == NewEvent(w, |r.events| + 1, EndKind(t), Some(logical), Got(w, id, logical, t), true)
        && Stored(w, x.blobs, PayloadBytes(Asked(w, id, logical, Bytes(body), Bytes(sent), t))) && Stored(w, x.blobs, PayloadBytes(Got(w, id, logical, t)))
      case Halted(offered, held) => Clash(w, offered, held)
  {
    hide LogSound, Said, FieldsOf, Asked, Got, NewEvent, Journal, LogGrows, Stored;
    var asked, got := Asked(w, id, logical, Bytes(body), Bytes(sent), t), Got(w, id, logical, t);
    JournalSound(w, r, RequestEvent, Some(logical), asked);
    if Journal(w, r, RequestEvent, Some(logical), asked).On? {
      var x := Journal(w, r, RequestEvent, Some(logical), asked).value;
      GrowsLog(w, r, x);
      JournalSound(w, x, EndKind(t), Some(logical), got);
      if Journal(w, x, EndKind(t), Some(logical), got).On? {
        var y := Journal(w, x, EndKind(t), Some(logical), got).value;
        LogGrowsTransitive(w, r, x, y);
        StoredStays(w, x, y, PayloadBytes(asked));
      }
    }
  }

  /** A send keeps the record when its blocks are clean; without that it still keeps the log sound. */
  lemma SendKeeps(w: Setup, r: Recording, at: seq<nat>, logical: Name, body: string, sent: string, blocks: seq<ContextBlock>, t: Transport,
    turns: seq<Turn>)
    requires Recorded(w, r, at) && SendCourse(w, r, logical, body, sent, blocks, t).On?
    requires Carries(w, r, AttemptName(w.run, r.attemptSeq), blocks, sent, turns)
    ensures Recorded(w, SendCourse(w, r, logical, body, sent, blocks, t).value, at + [|r.events|])
  {
    hide Recorded, Sent, SendCourse, Carries;
    RecordedLog(w, r, at);
    SendSound(w, r, logical, body, sent, blocks, t);
    SendKeepsRecorded(w, r, SendCourse(w, r, logical, body, sent, blocks, t).value, at, logical, body, sent, blocks, t, turns);
  }

  /** What the response to a send shows the model, if it shows anything. */
  function ResponseOf(w: Setup, t: Transport): Option<string> { if t.Raised? then None else w.codec.content(t.body) }

  /** The turn that joins the conversation after the send that started from `r`. */
  function ResponseJoins(w: Setup, r: Recording, t: Transport): seq<Turn> {
    if ResponseOf(w, t).None? then []
    else [ResponseTurnFor(w, AttemptName(w.run, r.attemptSeq), |r.events| + 1, t, ResponseOf(w, t).value)]
  }

  lemma ResponseJoinsAuthentic(w: Setup, r: Recording, pool: seq<Turn>, logical: Name, body: string, sent: string, blocks: seq<ContextBlock>, t: Transport)
    requires LogSound(w, r) && AllAuthentic(w, r, pool, |r.events|) && SendCourse(w, r, logical, body, sent, blocks, t).On?
    ensures var x := SendCourse(w, r, logical, body, sent, blocks, t).value;
      LogGrows(w, r, x) && AllAuthentic(w, x, pool + ResponseJoins(w, r, t), |x.events|)
  {
    hide LogSound, LogGrows, AllAuthentic, Authentic, Sent, SendCourse, ResponseTurnFor;
    SendSound(w, r, logical, body, sent, blocks, t);
    var x := SendCourse(w, r, logical, body, sent, blocks, t).value;
    SentGrows(w, r, x, logical, body, sent, blocks, t);
    AllAuthenticStay(w, r, x, pool);
    if ResponseOf(w, t).Some? {
      ResponseQuotable(w, r, x, logical, body, sent, blocks, t);
      AuthenticAdded(w, x, pool, ResponseJoins(w, r, t)[0], |x.events|);
    } else {
      assert pool + ResponseJoins(w, r, t) == pool;
    }
  }

  // ---- Public constants ----

  datatype Constant = Constant(r: Recording, turn: Turn)

  /** `public_context_ref`, and the message that shows the constant. */
  function PublicCourse(w: Setup, r: Recording, content: string, system: bool): Course<Constant> {
    var x :- Keep(w, r, Bytes(content));
    On(Constant(x, ConstantTurn(w, content, system)))
  }

  function ConstantTurn(w: Setup, content: string, system: bool): Turn {
    var hash := w.codec.digest(Bytes(content));
    if system
    then Turn(SystemRole(), content, Some(SystemConstant), None, None, Some(Ref(hash, ConfigSource, ProtocolKey(), SystemPromptAt, PublicLabel())))
    else Turn(UserRole(), content, Some(TaskConstant(w.task)), None, None, Some(Ref(hash, PublicTaskSource, w.task, InstructionAt, PublicLabel())))
  }

  lemma PublicSound(w: Setup, r: Recording, content: string, system: bool)
    requires LogSound(w, r)
    ensures match PublicCourse(w, r, content, system)
      case On(p) => LogGrows(w, r, p.r) && PublicTurn(w, p.r, p.turn) && p.r == r.(blobs := p.r.blobs)
      case Halted(offered, held) => Clash(w, offered, held)
  {
    hide LogSound, Keep;
    KeepSound(w, r, Bytes(content));
    RolesDiffer();
  }

  lemma PublicKeepsRecorded(w: Setup, r: Recording, at: seq<nat>, content: string, system: bool)
    requires Recorded(w, r, at) && PublicCourse(w, r, content, system).On?
    ensures Recorded(w, PublicCourse(w, r, content, system).value.r, at)
  {
    hide LogSound, AttemptsRecorded, ToolsRecorded, BindingsRecorded, PublicTurn, PublicCourse;
    RecordedLog(w, r, at);
    PublicSound(w, r, content, system);
    SameLogRecorded(w, r, PublicCourse(w, r, content, system).value.r, at);
  }
}
