/** What a captured send writes, and why the audit finds it clean. */
module RuntimeSend {
  import opened Ordering
  import opened Labels
  import opened Evidence
  import opened UsageLedger
  import opened RuntimeRecords
  import opened RuntimeAudit
  import opened RuntimeInvariant
  import Visibility

  // ---- Conversation turns and their context blocks ----

  /** `ConversationMessage`. */
  datatype Turn = Turn(role: string, content: string, origin: Option<Name>, toolCall: Option<Name>, binding: Option<FileBinding>,
    provenance: Option<Ref>)

  function SystemRole(): string { "system" }
  function AssistantRole(): string { "assistant" }
  function UserRole(): string { "user" }

  /** The type `context_blocks` gives a message. */
  function TypeOf(m: Turn): BlockType {
    if m.toolCall.Some? then ToolResult
    else if m.role == SystemRole() then SystemPrompt
    else if m.role == AssistantRole() then AssistantResponse
    else TaskInstruction
  }

  function BlockFor(w: Setup, request: Name, k: nat, m: Turn): ContextBlock
    requires m.origin.Some?
  {
    ContextBlock(BlockName(request, k), w.producer, m.provenance, request, OccurrenceName(request, k), m.origin.value, m.role,
      TypeOf(m), m.toolCall, MessageContent(k), w.codec.digest(Bytes(m.content)), true, m.binding)
  }

  predicate AllSourced(ms: seq<Turn>) { forall k :: 0 <= k < |ms| ==> ms[k].origin.Some? && ms[k].provenance.Some? }

  function BlocksFor(w: Setup, request: Name, ms: seq<Turn>): seq<ContextBlock>
    requires AllSourced(ms)
  {
    seq(|ms|, k requires 0 <= k < |ms| => BlockFor(w, request, k, ms[k]))
  }

  /** The messages of a body that carries these turns. */
  function Wire(ms: seq<Turn>): seq<Message> {
    seq(|ms|, k requires 0 <= k < |ms| => Message(Some(ms[k].role), Some(ms[k].content)))
  }

  // ---- Turns that quote what the run has really seen ----

  /** A public constant, ingested under its own name. */
  ghost predicate PublicTurn(w: Setup, r: Recording, m: Turn) {
    && m.toolCall.None? && m.binding.None? && Stored(w, r.blobs, Bytes(m.content))
    && (if m.role == SystemRole()
        then m.origin == Some(SystemConstant)
             && m.provenance == Some(Ref(w.codec.digest(Bytes(m.content)), ConfigSource, ProtocolKey(), SystemPromptAt, PublicLabel()))
        else m.role != AssistantRole() && m.origin == Some(TaskConstant(w.task))
             && m.provenance == Some(Ref(w.codec.digest(Bytes(m.content)), PublicTaskSource, w.task, InstructionAt, PublicLabel())))
  }

  /** The content of the response that event `i` records. */
  ghost predicate ResponseTurn(w: Setup, r: Recording, m: Turn, i: nat) {
    && i < |r.events| && r.events[i].kind == ResponseEvent && r.events[i].callId.Some? && FieldsOf(Said(w, r), r.events[i]).Some?
    && var fields := FieldsOf(Said(w, r), r.events[i]).value;
    && At(fields, ResponseKey).RefValue? && m.role == AssistantRole() && m.toolCall.None? && m.binding.None?
    && m.origin == Some(r.events[i].id) && m.provenance == Some(At(fields, ResponseKey).ref.(labels := EventLabel(r.events[i])))
    && Loaded(w.codec, r.blobs, m.provenance.value).Some?
    && ContentOf(w.codec, Loaded(w.codec, r.blobs, m.provenance.value).value) == Some(m.content)
  }

  /** The result of the tool call that event `i` finishes. */
  ghost predicate ToolTurn(w: Setup, r: Recording, m: Turn, i: nat) {
    && i < |r.events| && r.events[i].kind == ToolFinish && FieldsOf(Said(w, r), r.events[i]).Some?
    && var fields := FieldsOf(Said(w, r), r.events[i]).value;
    && At(fields, BodyKey).RefValue? && m.toolCall.Some? && m.toolCall == r.events[i].callId
    && m.origin == Some(r.events[i].id) && m.provenance == Some(At(fields, BodyKey).ref.(labels := EventLabel(r.events[i])))
    && Loaded(w.codec, r.blobs, m.provenance.value).Some?
    && ToolSays(w.codec, m.binding, r.events[i], fields, Loaded(w.codec, r.blobs, m.provenance.value).value, m.content)
  }

  /** A turn that is a public constant, or quotes one of the first `n` events of the run. */
  ghost predicate Authentic(w: Setup, r: Recording, m: Turn, n: nat) {
    PublicTurn(w, r, m) || exists i: nat :: i < n && (ResponseTurn(w, r, m, i) || ToolTurn(w, r, m, i))
  }

  ghost predicate AllAuthentic(w: Setup, r: Recording, ms: seq<Turn>, n: nat) {
    forall k :: 0 <= k < |ms| ==> Authentic(w, r, ms[k], n)
  }

  lemma PublicTurnStays(w: Setup, a: Recording, b: Recording, m: Turn)
    requires LogGrows(w, a, b) && PublicTurn(w, a, m)
    ensures PublicTurn(w, b, m)
  {
  }

  lemma QuotingTurnStays(w: Setup, a: Recording, b: Recording, m: Turn, i: nat)
    requires LogGrows(w, a, b)
    ensures ResponseTurn(w, a, m, i) ==> ResponseTurn(w, b, m, i)
    ensures ToolTurn(w, a, m, i) ==> ToolTurn(w, b, m, i)
  {
    if i < |a.events| {
      FieldsStay(w, a, b, i);
      hide Said, ToolSays, FieldsOf;
    }
  }

  lemma AuthenticStays(w: Setup, a: Recording, b: Recording, m: Turn, n: nat, l: nat)
    requires LogGrows(w, a, b) && Authentic(w, a, m, n) && n <= l
    ensures Authentic(w, b, m, l)
  {
    hide PublicTurn, ResponseTurn, ToolTurn;
    if PublicTurn(w, a, m) {
      PublicTurnStays(w, a, b, m);
    } else {
      var i: nat :| i < n && (ResponseTurn(w, a, m, i) || ToolTurn(w, a, m, i));
      QuotingTurnStays(w, a, b, m, i);
    }
  }

  lemma RuntimeLabel(w: Setup, r: Recording, i: nat)
    requires LogSound(w, r) && i < |r.events| && r.events[i].kind != ToolStart
    ensures r.events[i].availableSeq == Some(i) && r.events[i].ended && r.events[i].runId == w.run && r.events[i].id == EventName(w.run, i)
    ensures EventLabel(r.events[i]) == [Label(Runtime, Some(w.run), Some(i), [])]
  {
    assert EventSound(w, r.blobs, r.events[i], i);
    assert TaintsOf(RunLabel(w.run)) == {};
  }

  lemma OneMatch(w: Setup, r: Recording, i: nat)
    requires LogSound(w, r) && i < |r.events|
    ensures Visibility.Where(r.events, Visibility.Named(EventName(w.run, i))) == [r.events[i]]
  {
    forall j | 0 <= j < |r.events| ensures r.events[j].id == EventName(w.run, j) { assert EventSound(w, r.blobs, r.events[j], j); }
    Visibility.WhereOnly(r.events, Visibility.Named(EventName(w.run, i)), i);
  }

  lemma OneLabel(r: Ref, l: Label, run: string, cutoff: nat)
    requires r.labels == [l] && Visibility.LabelIssue(l, run, cutoff).None?
    ensures Visibility.RefIssue(r, run, cutoff).None?
  {
    assert [l][1..] == [] && r.labels[0] == l;
    assert Visibility.LabelsIssue([], run, cutoff).None?;
  }

  /** The block of an authentic turn is visible at any cutoff its event has reached, and the audit accepts it. */
  lemma PublicTurnClean(w: Setup, r: Recording, m: Turn, request: Name, k: nat, cutoff: nat)
    requires LogSound(w, r) && PublicTurn(w, r, m)
    ensures var b := BlockFor(w, request, k, m);
      Visibility.BlockIssue(r.events, b, w.run, cutoff, w.producer).None? && ContextClean(w.codec, Draft(w, r), Said(w, r), b, Some(m.content))
  {
    OneLabel(m.provenance.value, Label(Public, None, None, []), w.run, cutoff);
    hide Visibility.RefIssue;
  }

  lemma ResponseTurnVisible(w: Setup, r: Recording, m: Turn, i: nat, request: Name, k: nat, cutoff: nat)
    requires LogSound(w, r) && ResponseTurn(w, r, m, i) && i <= cutoff
    ensures Visibility.BlockIssue(r.events, BlockFor(w, request, k, m), w.run, cutoff, w.producer).None?
  {
    hide Visibility.Where, Visibility.Named, Said, LogSound, EventLabel, FieldsOf, Visibility.RefIssue, Loaded, ContentOf;
    RuntimeLabel(w, r, i);
    OneMatch(w, r, i);
    OneLabel(m.provenance.value, Label(Runtime, Some(w.run), Some(i), []), w.run, cutoff);
    assert TypeOf(m) == AssistantResponse by { assert SystemRole()[0] != AssistantRole()[0]; }
  }

  lemma ResponseTurnClean(w: Setup, r: Recording, m: Turn, i: nat, request: Name, k: nat)
    requires LogSound(w, r) && ResponseTurn(w, r, m, i)
    ensures ContextClean(w.codec, Draft(w, r), Said(w, r), BlockFor(w, request, k, m), Some(m.content))
  {
    hide Visibility.Where, Visibility.Named, Said, LogSound, EventLabel, FieldsOf, Loaded, ContentOf;
    RuntimeLabel(w, r, i);
    OneMatch(w, r, i);
    assert TypeOf(m) == AssistantResponse by { assert SystemRole()[0] != AssistantRole()[0]; }
  }

  lemma ToolTurnVisible(w: Setup, r: Recording, m: Turn, i: nat, request: Name, k: nat, cutoff: nat)
    requires LogSound(w, r) && ToolTurn(w, r, m, i) && i <= cutoff
    ensures Visibility.BlockIssue(r.events, BlockFor(w, request, k, m), w.run, cutoff, w.producer).None?
  {
    hide Visibility.Where, Visibility.Named, Said, LogSound, EventLabel, FieldsOf, Visibility.RefIssue, ToolSays, Loaded;
    RuntimeLabel(w, r, i);
    OneMatch(w, r, i);
    OneLabel(m.provenance.value, Label(Runtime, Some(w.run), Some(i), []), w.run, cutoff);
  }

  lemma ToolTurnClean(w: Setup, r: Recording, m: Turn, i: nat, request: Name, k: nat)
    requires LogSound(w, r) && ToolTurn(w, r, m, i)
    ensures ContextClean(w.codec, Draft(w, r), Said(w, r), BlockFor(w, request, k, m), Some(m.content))
  {
    hide Visibility.Where, Visibility.Named, Said, LogSound, EventLabel, FieldsOf, ToolSays, Loaded;
    RuntimeLabel(w, r, i);
    OneMatch(w, r, i);
  }

  lemma TurnClean(w: Setup, r: Recording, m: Turn, n: nat, request: Name, k: nat, cutoff: nat)
    requires LogSound(w, r) && Authentic(w, r, m, n) && n <= |r.events|
    requires forall i :: 0 <= i < n && r.events[i].availableSeq.Some? ==> i <= cutoff
    ensures m.origin.Some? && m.provenance.Some?
    ensures var b := BlockFor(w, request, k, m);
      Visibility.BlockIssue(r.events, b, w.run, cutoff, w.producer).None? && ContextClean(w.codec, Draft(w, r), Said(w, r), b, Some(m.content))
  {
    hide Visibility.BlockIssue, ContextClean, Said, BlockFor;
    if PublicTurn(w, r, m) {
      PublicTurnClean(w, r, m, request, k, cutoff);
    } else {
      var i: nat :| i < n && (ResponseTurn(w, r, m, i) || ToolTurn(w, r, m, i));
      RuntimeLabel(w, r, i);
      if ResponseTurn(w, r, m, i) {
        ResponseTurnVisible(w, r, m, i, request, k, cutoff);
        ResponseTurnClean(w, r, m, i, request, k);
      } else {
        ToolTurnVisible(w, r, m, i, request, k, cutoff);
        ToolTurnClean(w, r, m, i, request, k);
      }
    }
  }

  lemma {:induction false} BlocksVisible(events: seq<Event>, blocks: seq<ContextBlock>, run: string, cutoff: nat, producer: Ref)
    requires forall k :: 0 <= k < |blocks| ==> Visibility.BlockIssue(events, blocks[k], run, cutoff, producer).None?
    ensures Visibility.BlocksIssue(events, blocks, run, cutoff, producer).None?
  {
    hide Visibility.BlockIssue;
    if blocks != [] { BlocksVisible(events, blocks[1..], run, cutoff, producer); }
  }

  /** The context blocks of authentic turns pass the audit of a snapshot whose sent body carries those turns. */
  lemma TurnsClean(w: Setup, r: Recording, ms: seq<Turn>, n: nat, s: Snapshot)
    requires LogSound(w, r) && AllAuthentic(w, r, ms, n) && n <= |r.events|
    requires forall i :: 0 <= i < n && r.events[i].availableSeq.Some? ==> i <= s.cutoff
    ensures AllSourced(ms)
    ensures s.blocks == BlocksFor(w, s.id, ms) ==> ContextsClean(w.codec, Draft(w, r), w.run, Said(w, r), s, Some(Wire(ms)))
  {
    hide Authentic, LogSound, Said, ContextClean, Visibility.BlockIssue;
    forall k | 0 <= k < |ms|
      ensures ms[k].origin.Some? && ms[k].provenance.Some?
      ensures Visibility.BlockIssue(r.events, BlockFor(w, s.id, k, ms[k]), w.run, s.cutoff, w.producer).None?
      ensures ContextClean(w.codec, Draft(w, r), Said(w, r), BlockFor(w, s.id, k, ms[k]), Some(ms[k].content))
    {
      TurnClean(w, r, ms[k], n, s.id, k, s.cutoff);
    }
    if s.blocks == BlocksFor(w, s.id, ms) {
      BlocksVisible(r.events, s.blocks, w.run, s.cutoff, w.producer);
      forall k | 0 <= k < |s.blocks| ensures BlockClean(w.codec, Draft(w, r), Said(w, r), s, k, s.blocks[k], Wire(ms)[k]) {
        assert s.blocks[k] == BlockFor(w, s.id, k, ms[k]);
      }
    }
  }

  // ---- One captured send ----

  /** What the transport did with the sent bytes. */
  datatype Transport = Raised(failure: string) | Returned(status: string, body: string, requestId: Option<string>)

  function ExceptionStatus(): string { "transport_exception" }
  function StatusOf(t: Transport): string { if t.Raised? then ExceptionStatus() else t.status }
  function RequestIdOf(t: Transport): Option<string> { if t.Raised? then None else t.requestId }
  function OptionalText(t: Option<string>): Value { if t.Some? then Words(t.value) else Nil }

  function PartRef(w: Setup, id: Name, part: Part, b: Blob): Ref { RunRef(w, b, AttemptPart(id, part)) }

  /** The bytes the transport left behind, and where they go. */
  function EndBlob(t: Transport): Blob { Bytes(if t.Raised? then t.failure else t.body) }
  function EndRef(w: Setup, id: Name, t: Transport): Ref { PartRef(w, id, if t.Raised? then FailureBody else ResponseBody, EndBlob(t)) }

  /** `_observed_usage`, or the reason of the transport failure. */
  function UsageReport(w: Setup, id: Name, t: Transport): (UsageFact, Option<Ref>) {
    if t.Raised? then (Fact(None, UnknownFact, Some(TransportReason()), []), None)
    else
      var usage := w.codec.usage(t.body);
      if usage.None? then (Fact(None, UnknownFact, Some(NoUsageReason()), []), None)
      else
        var ref := EndRef(w, id, t).(locator := UsageField);
        (Fact(usage, Observed, None, [ref]), Some(ref))
  }

  /** `max((event.available_seq or 0 for event in events), default=0)`. */
  function MaxAvailable(events: seq<Event>): nat {
    if events == [] then 0
    else
      var rest := MaxAvailable(events[..|events| - 1]);
      var last := events[|events| - 1].availableSeq;
      if last.Some? && last.value > rest then last.value else rest
  }

  lemma {:induction false} MaxAvailableBounds(events: seq<Event>, i: nat)
    requires i < |events| && events[i].availableSeq.Some?
    ensures events[i].availableSeq.value <= MaxAvailable(events)
  {
    if i < |events| - 1 {
      assert events[..|events| - 1][i] == events[i];
      MaxAvailableBounds(events[..|events| - 1], i);
    }
  }

  lemma {:induction false} MaxAvailableReached(w: Setup, r: Recording, n: nat)
    requires LogSound(w, r) && n <= |r.events|
    ensures MaxAvailable(r.events[..n]) <= n
    ensures n > 0 ==> MaxAvailable(r.events[..n]) < n
  {
    if n > 0 {
      MaxAvailableReached(w, r, n - 1);
      assert r.events[..n][..n - 1] == r.events[..n - 1] && r.events[..n][n - 1] == r.events[n - 1];
      assert EventSound(w, r.blobs, r.events[n - 1], n - 1);
    }
  }

  function Asked(w: Setup, id: Name, logical: Name, body: Blob, sent: Blob, t: Transport): Fields {
    map[AttemptIdKey := Id(id), BeforeKey := RefValue(PartRef(w, id, BeforeBody, body)),
        PreparedKey := RefValue(PartRef(w, id, PreparedBody, body)), SentKey := RefValue(PartRef(w, id, SentBody, sent)),
        TransportKey := Words(StatusOf(t)), LogicalKey := Id(logical)]
  }

  function Got(w: Setup, id: Name, logical: Name, t: Transport): Fields {
    map[AttemptIdKey := Id(id),
        ResponseKey := if t.Raised? then Nil else RefValue(EndRef(w, id, t)),
        FailureKey := if t.Raised? then RefValue(EndRef(w, id, t)) else Nil,
        UsageRefKey := if UsageReport(w, id, t).1.Some? then RefValue(UsageReport(w, id, t).1.value) else Nil,
        UsageKey := FactValue(UsageReport(w, id, t).0),
        TransportKey := Words(StatusOf(t)), ProviderRequestKey := OptionalText(RequestIdOf(t)), LogicalKey := Id(logical)]
  }

  function EndKind(t: Transport): EventKind { if t.Raised? then FailureEvent else ResponseEvent }

  function EnteredRecord(w: Setup, id: Name, sent: Blob): PhysicalAttempt {
    PhysicalAttempt(PhysicalName(id, Entered), w.producer, w.run, id, OnlyEntered, PartRef(w, id, SentBody, sent))
  }

  function EndedRecord(w: Setup, id: Name, sent: Blob, t: Transport): PhysicalAttempt {
    PhysicalAttempt(PhysicalName(id, Terminal), w.producer, w.run, id,
      if t.Raised? then Excepted(EndRef(w, id, t)) else Responded(EndRef(w, id, t)), PartRef(w, id, SentBody, sent))
  }

  function SnapshotOf(w: Setup, events: seq<Event>, id: Name, logical: Name, body: Blob, sent: Blob, blocks: seq<ContextBlock>, t: Transport): Snapshot {
    Snapshot(RequestName(id), w.producer, w.run, logical, id, MaxAvailable(events), PartRef(w, id, BeforeBody, body),
      Some(PartRef(w, id, PreparedBody, body)), Some(PartRef(w, id, SentBody, sent)), blocks, w.config, StatusOf(t), RequestIdOf(t))
  }

  /** The blocks of a send are clean as they stand: there are none, or they are those of authentic turns which the sent
      bytes carry. */
  ghost predicate Carries(w: Setup, r: Recording, id: Name, blocks: seq<ContextBlock>, sent: string, ms: seq<Turn>) {
    || blocks == []
    || (&& AllAuthentic(w, r, ms, |r.events|) && AllSourced(ms) && blocks == BlocksFor(w, RequestName(id), ms)
        && sent != "" && w.codec.messages(sent) == Some(Wire(ms)))
  }

  /** `b` is `a` after the send of `body`, whose serialized bytes are `sent`. */
  ghost predicate Sent(w: Setup, a: Recording, b: Recording, logical: Name, body: string, sent: string, blocks: seq<ContextBlock>, t: Transport) {
    var id, m := AttemptName(w.run, a.attemptSeq), |a.events|;
    var report := UsageReport(w, id, t);
    && LogGrows(w, a, b) && b.attemptSeq == a.attemptSeq + 1
    && Stored(w, b.blobs, Bytes(body)) && Stored(w, b.blobs, Bytes(sent)) && Stored(w, b.blobs, EndBlob(t))
    && Stored(w, b.blobs, PayloadBytes(Asked(w, id, logical, Bytes(body), Bytes(sent), t))) && Stored(w, b.blobs, PayloadBytes(Got(w, id, logical, t)))
    && |b.events| == m + 2
    && b.events[m] == NewEvent(w, m, RequestEvent, Some(logical), Asked(w, id, logical, Bytes(body), Bytes(sent), t), true)
    && b.events[m + 1] == NewEvent(w, m + 1, EndKind(t), Some(logical), Got(w, id, logical, t), true)
    && b.snapshots == a.snapshots + [SnapshotOf(w, a.events, id, logical, Bytes(body), Bytes(sent), blocks, t)]
    && b.physical == a.physical[PhysicalName(id, Entered) := EnteredRecord(w, id, Bytes(sent))]
                               [PhysicalName(id, Terminal) := EndedRecord(w, id, Bytes(sent), t)]
    && b.usages == a.usages + [Attempt(id, report.0, report.1)]
    && b.toolCounter == a.toolCounter && b.bindings == a.bindings
  }

  lemma SentFields(w: Setup, a: Recording, b: Recording, logical: Name, body: string, sent: string, blocks: seq<ContextBlock>, t: Transport)
    requires Sent(w, a, b, logical, body, sent, blocks, t)
    ensures var id, m := AttemptName(w.run, a.attemptSeq), |a.events|;
      && m + 1 < |b.events|
      && FieldsOf(Said(w, b), b.events[m]) == Some(Asked(w, id, logical, Bytes(body), Bytes(sent), t))
      && FieldsOf(Said(w, b), b.events[m + 1]) == Some(Got(w, id, logical, t))
  {
    SaidAt(w, b, |a.events|);
    SaidAt(w, b, |a.events| + 1);
    hide Asked, Got, SnapshotOf;
  }

  lemma PartHeld(w: Setup, r: Recording, id: Name, part: Part, b: Blob)
    requires LogSound(w, r) && Stored(w, r.blobs, b)
    ensures RunBlob(w.codec, r.blobs, w.run, PartRef(w, id, part, b)) == Some(b)
  {
  }

  lemma BodiesClean(w: Setup, r: Recording, s: Snapshot, id: Name, logical: Name, body: string, sent: string, t: Transport)
    requires LogSound(w, r) && Stored(w, r.blobs, Bytes(body)) && Stored(w, r.blobs, Bytes(sent)) && s.attempt == id
    ensures var asked := Asked(w, id, logical, Bytes(body), Bytes(sent), t);
      && BodyClean(w.codec, Draft(w, r), w.run, s, asked, BeforeBody, BeforeKey, Some(PartRef(w, id, BeforeBody, Bytes(body))))
      && BodyClean(w.codec, Draft(w, r), w.run, s, asked, PreparedBody, PreparedKey, Some(PartRef(w, id, PreparedBody, Bytes(body))))
      && BodyClean(w.codec, Draft(w, r), w.run, s, asked, SentBody, SentKey, Some(PartRef(w, id, SentBody, Bytes(sent))))
  {
    PartHeld(w, r, id, BeforeBody, Bytes(body));
    PartHeld(w, r, id, PreparedBody, Bytes(body));
    PartHeld(w, r, id, SentBody, Bytes(sent));
    hide LogSound, Stored, UsageReport;
  }

  lemma EndClean(w: Setup, r: Recording, s: Snapshot, id: Name, logical: Name, t: Transport)
    requires LogSound(w, r) && Stored(w, r.blobs, EndBlob(t)) && s.attempt == id
    ensures TerminalClean(w.codec, Draft(w, r), w.run, s, EndKind(t), Got(w, id, logical, t),
              Some(if t.Raised? then Excepted(EndRef(w, id, t)) else Responded(EndRef(w, id, t))))
    ensures ValidFact(UsageReport(w, id, t).0)
    ensures UsageReport(w, id, t).1.Some? <==> ObservedUsage(UsageReport(w, id, t).0).Some?
  {
    PartHeld(w, r, id, if t.Raised? then FailureBody else ResponseBody, EndBlob(t));
    ReasonsGiven();
    hide LogSound, Stored, PartRef;
  }

  /** The usage of an attempt is what its terminal event says. */
  lemma UsageSaid(w: Setup, r: Recording, i: nat, id: Name, logical: Name, t: Transport)
    requires i < |r.events| && FieldsOf(Said(w, r), r.events[i]) == Some(Got(w, id, logical, t)) && ValidFact(UsageReport(w, id, t).0)
    ensures UsageAt(Said(w, r), r.events[i]) == Some(UsageReport(w, id, t).0)
  {
    hide Said, UsageReport, EndRef, ValidFact;
  }

  lemma CutoffReaches(w: Setup, a: Recording, b: Recording, i: nat)
    requires LogGrows(w, a, b) && i < |a.events| && b.events[i].availableSeq.Some?
    ensures i <= MaxAvailable(a.events)
  {
    assert b.events[..|a.events|][i] == a.events[i] && EventSound(w, a.blobs, a.events[i], i);
    MaxAvailableBounds(a.events, i);
  }

  lemma SentContexts(w: Setup, a: Recording, b: Recording, logical: Name, body: string, sent: string, blocks: seq<ContextBlock>, t: Transport,
    ms: seq<Turn>)
    requires Sent(w, a, b, logical, body, sent, blocks, t) && Carries(w, a, AttemptName(w.run, a.attemptSeq), blocks, sent, ms)
    ensures var s := b.snapshots[|a.snapshots|];
      ContextsClean(w.codec, Draft(w, b), w.run, Said(w, b), s, SentMessages(w.codec, Draft(w, b), w.run, s))
  {
    SentGrows(w, a, b, logical, body, sent, blocks, t);
    SentShape(w, a, b, logical, body, sent, blocks, t);
    var s := b.snapshots[|a.snapshots|];
    hide Sent, Said, LogGrows, LogSound, PartRef, Stored, Authentic, ContextClean, BlocksFor, MaxAvailable, Visibility.BuildView, Asked, Got;
    if blocks != [] {
      GrowsBoth(w, a, b);
      forall k | 0 <= k < |ms| ensures Authentic(w, b, ms[k], |a.events|) { AuthenticStays(w, a, b, ms[k], |a.events|, |a.events|); }
      forall i | 0 <= i < |a.events| && b.events[i].availableSeq.Some? ensures i <= s.cutoff { CutoffReaches(w, a, b, i); }
      TurnsClean(w, b, ms, |a.events|, s);
      PartHeld(w, b, AttemptName(w.run, a.attemptSeq), SentBody, Bytes(sent));
    }
  }

  lemma GrowsBoth(w: Setup, a: Recording, b: Recording)
    requires LogGrows(w, a, b)
    ensures LogSound(w, b) && |a.events| <= |b.events|
  {
  }

  lemma LogicalSaid(w: Setup, id: Name, logical: Name, body: Blob, sent: Blob, t: Transport)
    ensures At(Asked(w, id, logical, body, sent, t), LogicalKey) == Id(logical) && At(Got(w, id, logical, t), LogicalKey) == Id(logical)
    ensures At(Asked(w, id, logical, body, sent, t), AttemptIdKey) == Id(id) && At(Got(w, id, logical, t), AttemptIdKey) == Id(id)
  {
    hide UsageReport, PartRef, EndRef;
  }

  /** The shape of the last snapshot, events and physical records after a send. */
  lemma SentShape(w: Setup, a: Recording, b: Recording, logical: Name, body: string, sent: string, blocks: seq<ContextBlock>, t: Transport)
    requires Sent(w, a, b, logical, body, sent, blocks, t)
    ensures var id, m := AttemptName(w.run, a.attemptSeq), |a.events|;
      && LogSound(w, b) && |b.events| == m + 2
      && |b.snapshots| == |a.snapshots| + 1 && b.snapshots[|a.snapshots|] == SnapshotOf(w, a.events, id, logical, Bytes(body), Bytes(sent), blocks, t)
      && b.events[m].callId == Some(logical) && b.events[m].kind == RequestEvent
      && b.events[m + 1].callId == Some(logical) && b.events[m + 1].kind == EndKind(t)
      && Stored(w, b.blobs, Bytes(body)) && Stored(w, b.blobs, Bytes(sent)) && Stored(w, b.blobs, EndBlob(t))
      && |b.usages| == |a.usages| + 1 && b.usages[|a.usages|] == Attempt(id, UsageReport(w, id, t).0, UsageReport(w, id, t).1)
  {
    hide Asked, Got, UsageReport, EndRef, PartRef, Stored, LogSound, MaxAvailable;
  }

  lemma SentSnapshotClean(w: Setup, a: Recording, b: Recording, logical: Name, body: string, sent: string, blocks: seq<ContextBlock>, t: Transport,
    ms: seq<Turn>)
    requires Sent(w, a, b, logical, body, sent, blocks, t) && Carries(w, a, AttemptName(w.run, a.attemptSeq), blocks, sent, ms)
    ensures var id, m, n := AttemptName(w.run, a.attemptSeq), |a.events|, |a.snapshots|;
      && n < |b.snapshots| && m + 1 < |b.events|
      && SnapshotClean(w.codec, Draft(w, b), w.run, Said(w, b), b.snapshots[n], b.events[m], b.events[m + 1],
        Some(EnteredRecord(w, id, Bytes(sent))), Some(EndedRecord(w, id, Bytes(sent), t)))
  {
    var id, m := AttemptName(w.run, a.attemptSeq), |a.events|;
    hide Carries, Sent, Said, ContextsClean, BodyClean, TerminalClean, UsageReport, FieldsOf, SentMessages, Stored, LogSound, Asked, Got, MaxAvailable;
    SentShape(w, a, b, logical, body, sent, blocks, t);
    SentFields(w, a, b, logical, body, sent, blocks, t);
    SentContexts(w, a, b, logical, body, sent, blocks, t, ms);
    LogicalSaid(w, id, logical, Bytes(body), Bytes(sent), t);
    BodiesClean(w, b, b.snapshots[|a.snapshots|], id, logical, body, sent, t);
    EndClean(w, b, b.snapshots[|a.snapshots|], id, logical, t);
  }

  lemma SentGrows(w: Setup, a: Recording, b: Recording, logical: Name, body: string, sent: string, blocks: seq<ContextBlock>, t: Transport)
    requires Sent(w, a, b, logical, body, sent, blocks, t)
    ensures LogGrows(w, a, b) && LogSound(w, a) && LogSound(w, b)
  {
  }

  /** A send keeps the record of attempts. */
  lemma SendRecorded(w: Setup, a: Recording, b: Recording, at: seq<nat>, logical: Name, body: string, sent: string, blocks: seq<ContextBlock>,
    t: Transport, ms: seq<Turn>)
    requires AttemptsRecorded(w, a, at) && Sent(w, a, b, logical, body, sent, blocks, t)
    requires Carries(w, a, AttemptName(w.run, a.attemptSeq), blocks, sent, ms)
    ensures AttemptsRecorded(w, b, at + [|a.events|])
  {
    hide AttemptsRecorded, AttemptSound;
    SentSound(w, a, b, logical, body, sent, blocks, t, ms);
    hide Carries, Asked, Got, UsageReport, EnteredRecord, EndedRecord, Stored, LogGrows;
    var id := AttemptName(w.run, a.attemptSeq);
    AttemptAdded(w, a, b, at, at + [|a.events|], SnapshotOf(w, a.events, id, logical, Bytes(body), Bytes(sent), blocks, t),
      Attempt(id, UsageReport(w, id, t).0, UsageReport(w, id, t).1), EnteredRecord(w, id, Bytes(sent)), EndedRecord(w, id, Bytes(sent), t));
  }

  lemma SpeaksSaid(p: Payloads, events: seq<Event>, terminal: bool, i: nat, id: Name, fields: Fields)
    requires i < |events| && FieldsOf(p, events[i]) == Some(fields) && At(fields, AttemptIdKey) == Id(id) && Relevant(terminal, events[i])
    ensures Speaks(p, events, terminal, i, id)
  {
  }

  lemma RecordsSound(w: Setup, r: Recording, id: Name, sent: string, t: Transport)
    requires LogSound(w, r) && Stored(w, r.blobs, Bytes(sent))
    ensures PhysicalSound(w.codec, Draft(w, r), w.run, EnteredRecord(w, id, Bytes(sent)))
    ensures PhysicalSound(w.codec, Draft(w, r), w.run, EndedRecord(w, id, Bytes(sent), t))
  {
    PartHeld(w, r, id, SentBody, Bytes(sent));
  }

  lemma SentSpeaks(w: Setup, a: Recording, b: Recording, logical: Name, body: string, sent: string, blocks: seq<ContextBlock>, t: Transport)
    requires Sent(w, a, b, logical, body, sent, blocks, t)
    ensures var id, m := AttemptName(w.run, a.attemptSeq), |a.events|;
      && m + 1 < |b.events| && Relevant(false, b.events[m]) && Relevant(true, b.events[m + 1])
      && Speaks(Said(w, b), b.events, false, m, id) && Speaks(Said(w, b), b.events, true, m + 1, id)
      && UsageAt(Said(w, b), b.events[m + 1]) == Some(UsageReport(w, id, t).0)
      && (UsageReport(w, id, t).1.Some? <==> ObservedUsage(UsageReport(w, id, t).0).Some?)
  {
    var id, m := AttemptName(w.run, a.attemptSeq), |a.events|;
    hide Sent, Said, UsageReport, FieldsOf, Stored, LogSound, Asked, Got, MaxAvailable, UsageAt, Speaks, TerminalClean, PartRef, EndRef;
    SentShape(w, a, b, logical, body, sent, blocks, t);
    SentFields(w, a, b, logical, body, sent, blocks, t);
    LogicalSaid(w, id, logical, Bytes(body), Bytes(sent), t);
    SpeaksSaid(Said(w, b), b.events, false, m, id, Asked(w, id, logical, Bytes(body), Bytes(sent), t));
    SpeaksSaid(Said(w, b), b.events, true, m + 1, id, Got(w, id, logical, t));
    EndClean(w, b, b.snapshots[|a.snapshots|], id, logical, t);
    UsageSaid(w, b, m + 1, id, logical, t);
  }

  lemma CutoffReached(w: Setup, r: Recording)
    requires LogSound(w, r)
    ensures MaxAvailable(r.events) <= |r.events|
  {
    MaxAvailableReached(w, r, |r.events|);
    assert r.events[..|r.events|] == r.events;
  }

  lemma SentSound(w: Setup, a: Recording, b: Recording, logical: Name, body: string, sent: string, blocks: seq<ContextBlock>, t: Transport, ms: seq<Turn>)
    requires Sent(w, a, b, logical, body, sent, blocks, t) && Carries(w, a, AttemptName(w.run, a.attemptSeq), blocks, sent, ms)
    ensures var id, m := AttemptName(w.run, a.attemptSeq), |a.events|;
      && m + 1 < |b.events|
      && AttemptSound(w, b, m, SnapshotOf(w, a.events, id, logical, Bytes(body), Bytes(sent), blocks, t), EnteredRecord(w, id, Bytes(sent)),
           EndedRecord(w, id, Bytes(sent), t), Attempt(id, UsageReport(w, id, t).0, UsageReport(w, id, t).1))
      && Relevant(false, b.events[m]) && Relevant(true, b.events[m + 1])
  {
    var id := AttemptName(w.run, a.attemptSeq);
    assert b.attemptSeq == a.attemptSeq + 1 && LogSound(w, a);
    hide Carries, Sent, Said, SnapshotClean, UsageReport, Stored, LogSound, MaxAvailable, UsageAt, PhysicalSound, Speaks, PartRef, EndRef, Relevant;
    CutoffReached(w, a);
    SentShape(w, a, b, logical, body, sent, blocks, t);
    SentSpeaks(w, a, b, logical, body, sent, blocks, t);
    SentSnapshotClean(w, a, b, logical, body, sent, blocks, t, ms);
    RecordsSound(w, b, id, sent, t);
  }
}
