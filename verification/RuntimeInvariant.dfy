/** What a captured runtime keeps true of its own records, stated with the audit's conditions. */
module RuntimeInvariant {
  import opened Ordering
  import opened Labels
  import opened Evidence
  import opened UsageLedger
  import opened RuntimeRecords
  import opened RuntimeAudit
  import Visibility

  /** The fixed part of a run. */
  datatype Setup = Setup(codec: Codec, run: string, task: string, producer: Ref, config: Ref)

  /** The growing part. */
  datatype Recording = Recording(
    blobs: map<Hash, Blob>, events: seq<Event>, snapshots: seq<Snapshot>, attemptSeq: nat, physical: map<Name, PhysicalAttempt>,
    usages: seq<Attempt>, toolCounter: nat, bindings: seq<FileBinding>)

  ghost predicate Kept<K, V>(a: map<K, V>, b: map<K, V>) { forall k :: k in a ==> k in b && b[k] == a[k] }

  ghost predicate Stored(w: Setup, blobs: map<Hash, Blob>, b: Blob) {
    w.codec.digest(b) in blobs && blobs[w.codec.digest(b)] == b
  }

  ghost predicate ContentAddressed(w: Setup, blobs: map<Hash, Blob>) {
    forall h :: h in blobs ==> w.codec.digest(blobs[h]) == h
  }

  function RunRef(w: Setup, b: Blob, locator: Locator): Ref {
    Ref(w.codec.digest(b), RuntimeSource, w.run, locator, RunLabel(w.run))
  }

  /** The event `record_event` appends at position `n`. */
  function NewEvent(w: Setup, n: nat, kind: EventKind, call: Option<Name>, fields: Fields, completed: bool): Event {
    Event(EventName(w.run, n), w.producer, w.run, n, kind, call, RunRef(w, PayloadBytes(fields), EventPayload(n)),
          if completed then Some(n) else None, completed)
  }

  // ---- The log ----

  ghost predicate EventSound(w: Setup, blobs: map<Hash, Blob>, e: Event, n: nat) {
    && e.payload.hash in blobs && blobs[e.payload.hash].PayloadBytes?
    && e == NewEvent(w, n, e.kind, e.callId, blobs[e.payload.hash].fields, e.kind != ToolStart)
    && Stored(w, blobs, blobs[e.payload.hash])
  }

  ghost predicate LogSound(w: Setup, r: Recording) {
    && ContentAddressed(w, r.blobs)
    && (forall i :: 0 <= i < |r.events| ==> EventSound(w, r.blobs, r.events[i], i))
  }

  /** The run's artifacts as they stand; what the audit reads of them while the run is going on. */
  ghost function Draft(w: Setup, r: Recording): RunFiles {
    RunFiles(r.blobs, Run(w.run, w.task, w.producer, w.config, w.producer), w.producer, r.events, r.snapshots, r.bindings, [],
             [], Aggregate(0, false, None), r.bindings)
  }

  ghost function Said(w: Setup, r: Recording): Payloads { PayloadPrefix(w.codec, Draft(w, r), w.run, |r.events|) }

  /** The fields of event `i`. */
  ghost function FieldsIn(r: Recording, i: nat): Fields
    requires i < |r.events| && r.events[i].payload.hash in r.blobs && r.blobs[r.events[i].payload.hash].PayloadBytes?
  {
    r.blobs[r.events[i].payload.hash].fields
  }

  lemma SaidAt(w: Setup, r: Recording, i: nat)
    requires LogSound(w, r) && i < |r.events|
    ensures EventSound(w, r.blobs, r.events[i], i)
    ensures i in Said(w, r) && Said(w, r)[i] == Object(FieldsIn(r, i)) && r.events[i].number == i
    ensures FieldsOf(Said(w, r), r.events[i]) == Some(FieldsIn(r, i))
  {
  }

  /** `b` is `a` with more blobs and more events. */
  ghost predicate LogGrows(w: Setup, a: Recording, b: Recording) {
    LogSound(w, a) && LogSound(w, b) && Kept(a.blobs, b.blobs) && |a.events| <= |b.events| && b.events[..|a.events|] == a.events
  }

  lemma FieldsStay(w: Setup, a: Recording, b: Recording, i: nat)
    requires LogGrows(w, a, b) && i < |a.events|
    ensures i < |b.events| && b.events[i] == a.events[i]
    ensures FieldsOf(Said(w, a), a.events[i]).Some? && FieldsOf(Said(w, b), b.events[i]) == FieldsOf(Said(w, a), a.events[i])
  {
    SaidAt(w, a, i);
    SaidAt(w, b, i);
    assert b.events[..|a.events|][i] == a.events[i];
  }

  lemma RunBlobStays(w: Setup, a: Recording, b: Recording, r: Ref)
    requires LogGrows(w, a, b) && RunBlob(w.codec, a.blobs, w.run, r).Some?
    ensures RunBlob(w.codec, b.blobs, w.run, r) == RunBlob(w.codec, a.blobs, w.run, r)
  {
  }

  lemma RecorderLogHolds(w: Setup, r: Recording)
    requires LogSound(w, r)
    ensures Visibility.RecorderLog(r.events)
  {
    forall i | 0 <= i < |r.events| ensures r.events[i].id == EventName(w.run, i) && (r.events[i].availableSeq.Some? ==> r.events[i].availableSeq.value == i) {
      assert EventSound(w, r.blobs, r.events[i], i);
    }
  }

  /** Appending one event. */
  function Appended(w: Setup, r: Recording, kind: EventKind, call: Option<Name>, fields: Fields): Recording {
    var b := PayloadBytes(fields);
    r.(blobs := r.blobs[w.codec.digest(b) := b], events := r.events + [NewEvent(w, |r.events|, kind, call, fields, kind != ToolStart)])
  }

  predicate Conflicts(w: Setup, blobs: map<Hash, Blob>, b: Blob) { w.codec.digest(b) in blobs && blobs[w.codec.digest(b)] != b }

  lemma BlobAddedSound(w: Setup, r: Recording, b: Blob)
    requires LogSound(w, r) && !Conflicts(w, r.blobs, b)
    ensures var after := r.(blobs := r.blobs[w.codec.digest(b) := b]); LogGrows(w, r, after) && Stored(w, after.blobs, b)
  {
  }

  lemma AppendedSound(w: Setup, r: Recording, kind: EventKind, call: Option<Name>, fields: Fields)
    requires LogSound(w, r) && !Conflicts(w, r.blobs, PayloadBytes(fields))
    ensures var after := Appended(w, r, kind, call, fields);
      LogGrows(w, r, after) && FieldsOf(Said(w, after), after.events[|r.events|]) == Some(fields)
  {
    var after := Appended(w, r, kind, call, fields);
    forall i | 0 <= i < |after.events| ensures EventSound(w, after.blobs, after.events[i], i) {
      if i < |r.events| { assert EventSound(w, r.blobs, r.events[i], i); }
    }
    SaidAt(w, after, |r.events|);
  }

  lemma LogGrowsTransitive(w: Setup, a: Recording, b: Recording, c: Recording)
    requires LogGrows(w, a, b) && LogGrows(w, b, c)
    ensures LogGrows(w, a, c)
  {
    assert c.events[..|a.events|] == b.events[..|a.events|];
  }

  // ---- Tool calls ----

  ghost predicate CallsKnown(w: Setup, calls: seq<Option<Name>>, n: nat) {
    forall i :: 0 <= i < |calls| ==> calls[i].Some? && calls[i].value.ToolName? && calls[i].value.run == w.run && calls[i].value.n < n
  }

  /** Every tool call so far has started and finished, under its own number. */
  ghost predicate ToolsRecorded(w: Setup, r: Recording) {
    && CallsOf(r.events, ToolStart) == CallsOf(r.events, ToolFinish) && Distinct(CallsOf(r.events, ToolStart))
    && CallsKnown(w, CallsOf(r.events, ToolStart), r.toolCounter)
  }

  lemma {:induction false} CallsSplit(a: seq<Event>, b: seq<Event>, kind: EventKind)
    ensures CallsOf(a + b, kind) == CallsOf(a, kind) + CallsOf(b, kind)
  {
    if a == [] {
      assert a + b == b;
    } else {
      assert (a + b)[0] == a[0] && (a + b)[1..] == a[1..] + b;
      CallsSplit(a[1..], b, kind);
      var first := if a[0].kind == kind then [a[0].callId] else [];
      assert first + (CallsOf(a[1..], kind) + CallsOf(b, kind)) == (first + CallsOf(a[1..], kind)) + CallsOf(b, kind);
    }
  }

  /** The events of one complete tool call. */
  lemma ToolAdded(w: Setup, a: Recording, b: Recording, start: Event, finish: Event)
    requires ToolsRecorded(w, a) && b.events == a.events + [start, finish] && b.toolCounter == a.toolCounter + 1
    requires start.kind == ToolStart && finish.kind == ToolFinish
    requires start.callId == Some(ToolName(w.run, a.toolCounter)) == finish.callId
    ensures ToolsRecorded(w, b)
  {
    CallsSplit(a.events, [start, finish], ToolStart);
    CallsSplit(a.events, [start, finish], ToolFinish);
    CallsSplit([start], [finish], ToolStart);
    CallsSplit([start], [finish], ToolFinish);
    assert [start] + [finish] == [start, finish];
    assert CallsOf([start], ToolStart) == [start.callId] && CallsOf([finish], ToolStart) == [];
    assert CallsOf([start], ToolFinish) == [] && CallsOf([finish], ToolFinish) == [finish.callId];
    AppendDistinct(CallsOf(a.events, ToolStart), start.callId);
  }

  lemma ToolsStay(w: Setup, a: Recording, b: Recording, tail: seq<Event>)
    requires ToolsRecorded(w, a) && b.events == a.events + tail && b.toolCounter >= a.toolCounter
    requires forall i :: 0 <= i < |tail| ==> tail[i].kind != ToolStart && tail[i].kind != ToolFinish
    ensures ToolsRecorded(w, b)
  {
    CallsSplit(a.events, tail, ToolStart);
    CallsSplit(a.events, tail, ToolFinish);
    NoCalls(tail, ToolStart);
    NoCalls(tail, ToolFinish);
  }

  lemma {:induction false} NoCalls(tail: seq<Event>, kind: EventKind)
    requires forall i :: 0 <= i < |tail| ==> tail[i].kind != kind
    ensures CallsOf(tail, kind) == []
  {
    if tail != [] { NoCalls(tail[1..], kind); }
  }

  // ---- File bindings ----

  ghost predicate BindingsRecorded(w: Setup, r: Recording) {
    && (forall k :: 0 <= k < |r.bindings| ==> HasTool(w.codec, Draft(w, r), w.run, Said(w, r), r.bindings[k]))
    && (forall k, l :: 0 <= k < l < |r.bindings| ==> r.bindings[k].readEvent != r.bindings[l].readEvent)
  }

  lemma HasToolStays(w: Setup, a: Recording, b: Recording, x: FileBinding)
    requires LogGrows(w, a, b) && HasTool(w.codec, Draft(w, a), w.run, Said(w, a), x)
    ensures HasTool(w.codec, Draft(w, b), w.run, Said(w, b), x)
    ensures x.readEvent.EventName? && x.readEvent.number < |a.events|
  {
    var i: nat :| BindingClean(w.codec, Draft(w, a), w.run, Said(w, a), x, i);
    FieldsStay(w, a, b, i);
    SaidAt(w, a, i);
    hide Said;
    assert BindingClean(w.codec, Draft(w, b), w.run, Said(w, b), x, i);
  }

  lemma BindingsStay(w: Setup, a: Recording, b: Recording)
    requires BindingsRecorded(w, a) && LogGrows(w, a, b) && b.bindings == a.bindings
    ensures BindingsRecorded(w, b)
  {
    hide HasTool;
    forall k | 0 <= k < |b.bindings| ensures HasTool(w.codec, Draft(w, b), w.run, Said(w, b), b.bindings[k]) {
      HasToolStays(w, a, b, a.bindings[k]);
    }
  }

  lemma BindingAdded(w: Setup, a: Recording, b: Recording, x: FileBinding)
    requires BindingsRecorded(w, a) && LogGrows(w, a, b) && b.bindings == a.bindings + [x]
    requires HasTool(w.codec, Draft(w, b), w.run, Said(w, b), x) && x.readEvent.EventName? && x.readEvent.number >= |a.events|
    ensures BindingsRecorded(w, b)
  {
    hide HasTool;
    forall k | 0 <= k < |b.bindings| ensures HasTool(w.codec, Draft(w, b), w.run, Said(w, b), b.bindings[k]) {
      if k < |a.bindings| { HasToolStays(w, a, b, a.bindings[k]); }
    }
    forall k | 0 <= k < |a.bindings| ensures a.bindings[k].readEvent != x.readEvent { HasToolStays(w, a, b, a.bindings[k]); }
  }

  // ---- Attempts ----

  lemma BodyStays(w: Setup, a: Recording, b: Recording, s: Snapshot, request: Fields, part: Part, key: Key, ref: Option<Ref>)
    requires LogGrows(w, a, b) && BodyClean(w.codec, Draft(w, a), w.run, s, request, part, key, ref)
    ensures BodyClean(w.codec, Draft(w, b), w.run, s, request, part, key, ref)
  {
    RunBlobStays(w, a, b, ref.value);
  }

  lemma TerminalStays(w: Setup, a: Recording, b: Recording, s: Snapshot, kind: EventKind, fields: Fields, physical: Option<Outcome>)
    requires LogGrows(w, a, b) && TerminalClean(w.codec, Draft(w, a), w.run, s, kind, fields, physical)
    ensures TerminalClean(w.codec, Draft(w, b), w.run, s, kind, fields, physical)
  {
    hide UsageClean;
    if kind == FailureEvent {
      RunBlobStays(w, a, b, At(fields, FailureKey).ref);
    } else {
      RunBlobStays(w, a, b, At(fields, ResponseKey).ref);
    }
  }

  lemma MatchStays(w: Setup, a: Recording, b: Recording, id: Name)
    requires LogGrows(w, a, b) && |Visibility.Where(a.events, Visibility.Named(id))| == 1
    ensures Visibility.Where(b.events, Visibility.Named(id)) == Visibility.Where(a.events, Visibility.Named(id))
    ensures exists j :: 0 <= j < |a.events| && Visibility.Where(a.events, Visibility.Named(id))[0] == a.events[j]
  {
    var p := Visibility.Named(id);
    var matches := Visibility.Where(a.events, p);
    Visibility.WhereMembers(a.events, p);
    assert matches[0] in matches && matches[0] in a.events;
    var j :| 0 <= j < |a.events| && a.events[j] == matches[0];
    RecorderLogHolds(w, b);
    assert b.events[..|a.events|][j] == a.events[j];
    Visibility.WhereOnly(b.events, p, j);
  }

  lemma LoadedStays(w: Setup, a: Recording, b: Recording, r: Ref)
    requires LogGrows(w, a, b) && Loaded(w.codec, a.blobs, r).Some?
    ensures Loaded(w.codec, b.blobs, r) == Loaded(w.codec, a.blobs, r)
  {
  }

  lemma QuoteStays(w: Setup, a: Recording, b: Recording, x: ContextBlock, r: Ref, raw: Blob, content: string, j: nat)
    requires LogGrows(w, a, b) && j < |a.events| && QuoteClean(w.codec, Said(w, a), x, r, raw, content, a.events[j])
    ensures QuoteClean(w.codec, Said(w, b), x, r, raw, content, a.events[j])
  {
    FieldsStay(w, a, b, j);
    hide Said, ToolSays, EventLabel, ContentOf, FieldsOf, LogGrows;
  }

  lemma ContextStays(w: Setup, a: Recording, b: Recording, x: ContextBlock, content: Option<string>)
    requires LogGrows(w, a, b) && ContextClean(w.codec, Draft(w, a), Said(w, a), x, content)
    ensures ContextClean(w.codec, Draft(w, b), Said(w, b), x, content)
  {
    hide Said, QuoteClean, LogGrows, Visibility.Where, Loaded;
    LoadedStays(w, a, b, x.provenance.value);
    if x.kind != SystemPrompt && x.kind != TaskInstruction {
      MatchStays(w, a, b, x.origin);
      var matches := Visibility.Where(a.events, Visibility.Named(x.origin));
      var j :| 0 <= j < |a.events| && matches[0] == a.events[j];
      QuoteStays(w, a, b, x, x.provenance.value, Loaded(w.codec, a.blobs, x.provenance.value).value, content.value, j);
    }
  }

  lemma ContextsStay(w: Setup, a: Recording, b: Recording, s: Snapshot, messages: Option<seq<Message>>)
    requires LogGrows(w, a, b) && ContextsClean(w.codec, Draft(w, a), w.run, Said(w, a), s, messages) && s.cutoff < |a.events|
    ensures ContextsClean(w.codec, Draft(w, b), w.run, Said(w, b), s, messages)
  {
    hide ContextClean, Said;
    if s.blocks != [] {
      RecorderLogHolds(w, b);
      Visibility.PrefixOnly(w.run, s.cutoff, s.before.hash, s.blocks, [], b.events, |a.events|, w.producer, "decision_view_v1", AuditView(s.id));
      hide Visibility.BuildView, Visibility.RecorderLog;
      forall k | 0 <= k < |s.blocks| ensures BlockClean(w.codec, Draft(w, b), Said(w, b), s, k, s.blocks[k], messages.value[k]) {
        assert BlockClean(w.codec, Draft(w, a), Said(w, a), s, k, s.blocks[k], messages.value[k]);
        ContextStays(w, a, b, s.blocks[k], messages.value[k].content);
      }
    }
  }

  lemma SnapshotStays(w: Setup, a: Recording, b: Recording, s: Snapshot, i: nat, j: nat, x: PhysicalAttempt, y: PhysicalAttempt)
    requires LogGrows(w, a, b) && i < |a.events| && j < |a.events| && s.cutoff < |a.events|
    requires SnapshotClean(w.codec, Draft(w, a), w.run, Said(w, a), s, a.events[i], a.events[j], Some(x), Some(y))
    ensures i < |b.events| && j < |b.events|
    ensures SnapshotClean(w.codec, Draft(w, b), w.run, Said(w, b), s, b.events[i], b.events[j], Some(x), Some(y))
  {
    hide BodyClean, ContextsClean, TerminalClean, SentMessages, OutcomeOf;
    FieldsStay(w, a, b, i);
    FieldsStay(w, a, b, j);
    hide Said, LogGrows, FieldsOf;
    var asked, got := FieldsOf(Said(w, a), a.events[i]).value, FieldsOf(Said(w, a), a.events[j]).value;
    BodyStays(w, a, b, s, asked, BeforeBody, BeforeKey, Some(s.before));
    BodyStays(w, a, b, s, asked, PreparedBody, PreparedKey, s.prepared);
    BodyStays(w, a, b, s, asked, SentBody, SentKey, s.sent);
    TerminalStays(w, a, b, s, a.events[j].kind, got, OutcomeOf(Some(y)));
    ContextsStay(w, a, b, s, SentMessages(w.codec, Draft(w, a), w.run, s));
    SentMessagesStay(w, a, b, s, asked);
  }

  lemma SentMessagesStay(w: Setup, a: Recording, b: Recording, s: Snapshot, asked: Fields)
    requires LogGrows(w, a, b) && BodyClean(w.codec, Draft(w, a), w.run, s, asked, SentBody, SentKey, s.sent)
    ensures SentMessages(w.codec, Draft(w, b), w.run, s) == SentMessages(w.codec, Draft(w, a), w.run, s)
  {
    RunBlobStays(w, a, b, s.sent.value);
  }

  /** The physical pair and the usage of attempt `k`, whose request event is at `i` and whose terminal event follows it. */
  ghost predicate AttemptSound(w: Setup, r: Recording, i: nat, s: Snapshot, x: PhysicalAttempt, y: PhysicalAttempt, u: Attempt) {
    && i + 1 < |r.events| && s.cutoff <= i
    && s.attempt.AttemptName? && s.attempt.run == w.run && s.attempt.n < r.attemptSeq
    && Speaks(Said(w, r), r.events, false, i, s.attempt) && Speaks(Said(w, r), r.events, true, i + 1, s.attempt)
    && SlotOf(x) == (s.attempt, Entered) && SlotOf(y) == (s.attempt, Terminal) && x.sent == y.sent
    && PhysicalSound(w.codec, Draft(w, r), w.run, x) && PhysicalSound(w.codec, Draft(w, r), w.run, y)
    && SnapshotClean(w.codec, Draft(w, r), w.run, Said(w, r), s, r.events[i], r.events[i + 1], Some(x), Some(y))
    && u.id == s.attempt && UsageAt(Said(w, r), r.events[i + 1]) == Some(u.usage) && (u.usageRef.Some? <==> ObservedUsage(u.usage).Some?)
  }

  ghost predicate Listed(at: seq<nat>, i: int) { exists k :: 0 <= k < |at| && at[k] == i }

  /** Both physical records of the attempt are there, and everything about it is sound. */
  ghost predicate AttemptKept(w: Setup, r: Recording, i: nat, s: Snapshot, u: Attempt) {
    && PhysicalName(s.attempt, Entered) in r.physical && PhysicalName(s.attempt, Terminal) in r.physical
    && AttemptSound(w, r, i, s, r.physical[PhysicalName(s.attempt, Entered)], r.physical[PhysicalName(s.attempt, Terminal)], u)
  }

  ghost predicate PhysicalOwned(ss: seq<Snapshot>, name: Name) {
    name.PhysicalName? && exists k :: 0 <= k < |ss| && ss[k].attempt == name.attempt
  }

  /** `at[k]` is the position of the request event of snapshot `k`; there are no other request or terminal events, and no
      other physical records. */
  ghost predicate AttemptsRecorded(w: Setup, r: Recording, at: seq<nat>) {
    && |at| == |r.snapshots| == |r.usages|
    && (forall k :: 0 <= k < |at| ==> AttemptKept(w, r, at[k], r.snapshots[k], r.usages[k]))
    && (forall k, l :: 0 <= k < l < |at| ==> r.snapshots[k].attempt != r.snapshots[l].attempt)
    && (forall i :: 0 <= i < |r.events| && Relevant(false, r.events[i]) ==> Listed(at, i))
    && (forall i :: 0 <= i < |r.events| && Relevant(true, r.events[i]) ==> Listed(at, i - 1))
    && (forall name :: name in r.physical ==> PhysicalOwned(r.snapshots, name))
  }

  lemma SpeaksStays(w: Setup, a: Recording, b: Recording, terminal: bool, i: nat, id: Name)
    requires LogGrows(w, a, b) && Speaks(Said(w, a), a.events, terminal, i, id)
    ensures Speaks(Said(w, b), b.events, terminal, i, id)
    ensures UsageAt(Said(w, b), b.events[i]) == UsageAt(Said(w, a), a.events[i])
  {
    FieldsStay(w, a, b, i);
    hide Said, LogGrows, FieldsOf;
  }

  lemma PhysicalStays(w: Setup, a: Recording, b: Recording, x: PhysicalAttempt)
    requires LogGrows(w, a, b) && PhysicalSound(w.codec, Draft(w, a), w.run, x)
    ensures PhysicalSound(w.codec, Draft(w, b), w.run, x)
  {
    RunBlobStays(w, a, b, x.sent);
  }

  lemma AttemptStays(w: Setup, a: Recording, b: Recording, i: nat, s: Snapshot, x: PhysicalAttempt, y: PhysicalAttempt, u: Attempt)
    requires LogGrows(w, a, b) && b.attemptSeq >= a.attemptSeq && AttemptSound(w, a, i, s, x, y, u)
    ensures AttemptSound(w, b, i, s, x, y, u)
  {
    hide SnapshotClean, Speaks, PhysicalSound, UsageAt, Said, LogSound, Kept, Draft;
    SpeaksStays(w, a, b, false, i, s.attempt);
    SpeaksStays(w, a, b, true, i + 1, s.attempt);
    PhysicalStays(w, a, b, x);
    PhysicalStays(w, a, b, y);
    SnapshotStays(w, a, b, s, i, i + 1, x, y);
  }

  lemma AttemptNumbered(w: Setup, r: Recording, i: nat, s: Snapshot, u: Attempt)
    requires AttemptKept(w, r, i, s, u)
    ensures s.attempt.AttemptName? && s.attempt.run == w.run && s.attempt.n < r.attemptSeq
  {
    hide SnapshotClean, Speaks;
  }

  lemma KeptStays(w: Setup, a: Recording, b: Recording, i: nat, s: Snapshot, u: Attempt)
    requires LogGrows(w, a, b) && b.attemptSeq >= a.attemptSeq && Kept(a.physical, b.physical) && AttemptKept(w, a, i, s, u)
    ensures AttemptKept(w, b, i, s, u)
  {
    hide AttemptSound, LogGrows;
    AttemptStays(w, a, b, i, s, a.physical[PhysicalName(s.attempt, Entered)], a.physical[PhysicalName(s.attempt, Terminal)], u);
  }

  lemma AttemptsStay(w: Setup, a: Recording, b: Recording, at: seq<nat>)
    requires AttemptsRecorded(w, a, at) && LogGrows(w, a, b) && b.attemptSeq >= a.attemptSeq
    requires b.snapshots == a.snapshots && b.physical == a.physical && b.usages == a.usages
    requires forall i :: |a.events| <= i < |b.events| ==> !Relevant(false, b.events[i]) && !Relevant(true, b.events[i])
    ensures AttemptsRecorded(w, b, at)
  {
    hide AttemptKept, Relevant, Listed, PhysicalOwned;
    forall k | 0 <= k < |at| ensures AttemptKept(w, b, at[k], b.snapshots[k], b.usages[k]) {
      KeptStays(w, a, b, at[k], a.snapshots[k], a.usages[k]);
    }
    forall i | 0 <= i < |a.events| ensures b.events[i] == a.events[i] { assert b.events[..|a.events|][i] == a.events[i]; }
  }

  /** No attempt number or physical file name of the past comes back. */
  lemma NextAttemptFresh(w: Setup, r: Recording, at: seq<nat>)
    requires AttemptsRecorded(w, r, at)
    ensures var id := AttemptName(w.run, r.attemptSeq);
      && (forall k :: 0 <= k < |r.snapshots| ==> r.snapshots[k].attempt != id)
      && PhysicalName(id, Entered) !in r.physical && PhysicalName(id, Terminal) !in r.physical
  {
    hide AttemptKept, Relevant, Listed;
    forall k | 0 <= k < |r.snapshots| ensures r.snapshots[k].attempt != AttemptName(w.run, r.attemptSeq) {
      AttemptNumbered(w, r, at[k], r.snapshots[k], r.usages[k]);
    }
  }

  ghost predicate AttemptJoins(w: Setup, a: Recording, b: Recording, s: Snapshot, u: Attempt, x: PhysicalAttempt, y: PhysicalAttempt) {
    && |b.events| == |a.events| + 2 && b.attemptSeq == a.attemptSeq + 1 && s.attempt == AttemptName(w.run, a.attemptSeq)
    && b.snapshots == a.snapshots + [s] && b.usages == a.usages + [u]
    && b.physical == a.physical[PhysicalName(s.attempt, Entered) := x][PhysicalName(s.attempt, Terminal) := y]
    && Relevant(false, b.events[|a.events|]) && Relevant(true, b.events[|a.events| + 1])
    && AttemptSound(w, b, |a.events|, s, x, y, u)
  }

  /** A request event, its terminal event, their snapshot, its physical pair and its usage are added together. */
  lemma AttemptAdded(w: Setup, a: Recording, b: Recording, at: seq<nat>, now: seq<nat>, s: Snapshot, u: Attempt, x: PhysicalAttempt, y: PhysicalAttempt)
    requires now == at + [|a.events|]
    requires AttemptsRecorded(w, a, at) && LogGrows(w, a, b) && AttemptJoins(w, a, b, s, u, x, y)
    ensures AttemptsRecorded(w, b, now)
  {
    hide AttemptSound, LogGrows, Listed, Relevant, PhysicalOwned;
    NextAttemptFresh(w, a, at);
    assert AttemptKept(w, b, |a.events|, s, u);
    hide AttemptKept;
    assert Kept(a.physical, b.physical);
    var m := |at|;
    forall k | 0 <= k < |now| ensures AttemptKept(w, b, now[k], b.snapshots[k], b.usages[k]) {
      if k < m { KeptStays(w, a, b, at[k], a.snapshots[k], a.usages[k]); }
    }
    assert b.snapshots[m] == s;
    forall k, l | 0 <= k < l < |now| ensures b.snapshots[k].attempt != b.snapshots[l].attempt {
      assert b.snapshots[k] == a.snapshots[k];
      if l < m { assert b.snapshots[l] == a.snapshots[l]; }
    }
    GrownEvents(w, a, b);
    ListedGrows(a, b, at);
    OwnedGrows(a, b, s);
  }

  lemma OwnedGrows(a: Recording, b: Recording, s: Snapshot)
    requires b.snapshots == a.snapshots + [s]
    requires forall name :: name in b.physical ==> name in a.physical || (name.PhysicalName? && name.attempt == s.attempt)
    requires forall name :: name in a.physical ==> PhysicalOwned(a.snapshots, name)
    ensures forall name :: name in b.physical ==> PhysicalOwned(b.snapshots, name)
  {
    forall name | name in b.physical ensures PhysicalOwned(b.snapshots, name) {
      if name in a.physical {
        assert PhysicalOwned(a.snapshots, name);
        var k :| 0 <= k < |a.snapshots| && a.snapshots[k].attempt == name.attempt;
        assert b.snapshots[k] == a.snapshots[k];
      } else {
        assert b.snapshots[|a.snapshots|] == s;
      }
    }
  }

  lemma GrownEvents(w: Setup, a: Recording, b: Recording)
    requires LogGrows(w, a, b)
    ensures |a.events| <= |b.events| && b.events[..|a.events|] == a.events
  {
  }

  lemma ListedGrows(a: Recording, b: Recording, at: seq<nat>)
    requires |b.events| == |a.events| + 2 && b.events[..|a.events|] == a.events
    requires Relevant(false, b.events[|a.events|]) && Relevant(true, b.events[|a.events| + 1])
    requires forall i :: 0 <= i < |a.events| && Relevant(false, a.events[i]) ==> Listed(at, i)
    requires forall i :: 0 <= i < |a.events| && Relevant(true, a.events[i]) ==> Listed(at, i - 1)
    ensures var now := at + [|a.events|];
      && (forall i :: 0 <= i < |b.events| && Relevant(false, b.events[i]) ==> Listed(now, i))
      && (forall i :: 0 <= i < |b.events| && Relevant(true, b.events[i]) ==> Listed(now, i - 1))
  {
    var now := at + [|a.events|];
    assert now[|at|] == |a.events|;
    forall i | Listed(at, i) ensures Listed(now, i) {
      var k :| 0 <= k < |at| && at[k] == i;
      assert now[k] == i;
    }
    forall i | 0 <= i < |a.events| ensures b.events[i] == a.events[i] { assert b.events[..|a.events|][i] == a.events[i]; }
  }

  ghost predicate Recorded(w: Setup, r: Recording, at: seq<nat>) {
    && LogSound(w, r) && ToolsRecorded(w, r) && BindingsRecorded(w, r) && AttemptsRecorded(w, r, at)
    && RunBlob(w.codec, r.blobs, w.run, w.config).Some? && w.config.locator == ConfigAt
  }
}
