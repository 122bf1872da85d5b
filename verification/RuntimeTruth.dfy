/** What a silent audit of a run says of it, told from the stored bytes alone: who recorded what, under which name, with which
    bytes. */
module RuntimeTruth {
  import opened Ordering
  import opened Labels
  import opened Evidence
  import opened UsageLedger
  import opened RuntimeRecords
  import opened RuntimeAudit

  // ---- The log ----

  /** The field is there and says this. */
  ghost predicate Gives(fields: Fields, key: Key, v: Value) { key in fields && fields[key] == v }

  /** The field is missing or null. */
  ghost predicate Empty(fields: Fields, key: Key) { key in fields ==> fields[key] == Nil }

  ghost predicate IsJson(c: Codec, b: Blob) {
    match b
    case Bytes(text) => c.parse(text) != NotJson
    case PayloadBytes(_) => true
    case ManifestBytes(_) => true
    case _ => c.document(b) != NotJson
  }

  /** Event `i` has number `i` and its name from it, belongs to this run, and its payload is stored JSON of its own place. */
  ghost predicate EventTrue(c: Codec, f: RunFiles, run: string, i: nat)
    requires i < |f.events|
  {
    var e := f.events[i];
    && e.number == i && e.runId == run && e.producer == f.producer && e.id == EventName(run, i) && e.payload.locator == EventPayload(i)
    && exists b :: Owns(c, f.blobs, run, e.payload, b) && IsJson(c, b)
  }

  /** The log is the one stored for this run, ends with the stop of the run, and its configuration is stored. */
  ghost predicate LogTrue(c: Codec, f: RunFiles, run: string) {
    && f.run.id == run && f.run.eventsRef.locator == EventLog && Owns(c, f.blobs, run, f.run.eventsRef, EventLogBytes(f.events))
    && f.run.config.locator == ConfigAt && (exists b :: Owns(c, f.blobs, run, f.run.config, b))
    && |f.events| > 0 && f.events[|f.events| - 1].kind == RunStop && forall i :: 0 <= i < |f.events| ==> EventTrue(c, f, run, i)
  }

  lemma EventExactly(c: Codec, f: RunFiles, run: string, i: nat)
    requires i < |f.events|
    ensures f.events[i].number == i && EventClean(c, f, run, f.events[i]) <==> EventTrue(c, f, run, i)
  {
    OwnsExactly(c, f.blobs, run, f.events[i].payload);
    hide RunBlob, Owns;
  }

  lemma LogExactly(c: Codec, f: RunFiles, run: string)
    ensures LogClean(c, f, run) <==> LogTrue(c, f, run)
  {
    OwnsExactly(c, f.blobs, run, f.run.eventsRef);
    OwnsExactly(c, f.blobs, run, f.run.config);
    hide EventClean, EventTrue, RunBlob, Owns;
    forall i | 0 <= i < |f.events| ensures f.events[i].number == i && EventClean(c, f, run, f.events[i]) <==> EventTrue(c, f, run, i) {
      EventExactly(c, f, run, i);
    }
  }

  // ---- Tool calls and bindings ----

  /** Event `i` is of this kind and of this call. */
  ghost predicate IsCall(events: seq<Event>, kind: EventKind, i: int, call: Option<Name>) {
    0 <= i < |events| && events[i].kind == kind && events[i].callId == call
  }

  ghost predicate OneOf(events: seq<Event>, kind: EventKind) {
    forall i, j, call :: IsCall(events, kind, i, call) && IsCall(events, kind, j, call) ==> i == j
  }

  /** Tool starts and finishes name their calls, no two of a kind the same, and every call that starts finishes and the other
      way round. */
  ghost predicate ToolsPaired(events: seq<Event>) {
    && (forall i :: !IsCall(events, ToolStart, i, None) && !IsCall(events, ToolFinish, i, None))
    && OneOf(events, ToolStart) && OneOf(events, ToolFinish)
    && (forall i, call :: IsCall(events, ToolStart, i, call) ==> exists j :: IsCall(events, ToolFinish, j, call))
    && (forall i, call :: IsCall(events, ToolFinish, i, call) ==> exists j :: IsCall(events, ToolStart, j, call))
  }

  lemma {:induction false} CallsMember(events: seq<Event>, kind: EventKind, call: Option<Name>)
    ensures call in CallsOf(events, kind) <==> exists i :: IsCall(events, kind, i, call)
  {
    if events != [] {
      var rest := events[1..];
      CallsMember(rest, kind, call);
      if i :| IsCall(rest, kind, i, call) { assert IsCall(events, kind, i + 1, call); }
      if i :| IsCall(events, kind, i, call) {
        if i > 0 { assert IsCall(rest, kind, i - 1, call); }
      }
      if IsCall(events, kind, 0, call) { assert CallsOf(events, kind)[0] == call; }
    }
  }

  lemma {:induction false} CallsDistinct(events: seq<Event>, kind: EventKind)
    ensures Distinct(CallsOf(events, kind)) <==> OneOf(events, kind)
  {
    if events != [] {
      var rest := events[1..];
      CallsDistinct(rest, kind);
      assert forall i, call :: IsCall(rest, kind, i, call) <==> i >= 0 && IsCall(events, kind, i + 1, call);
      var calls, most := CallsOf(events, kind), CallsOf(rest, kind);
      if events[0].kind == kind {
        CallsMember(rest, kind, events[0].callId);
        assert calls == [events[0].callId] + most;
        DistinctCons(events[0].callId, most);
        if OneOf(rest, kind) && events[0].callId !in most { FirstAlone(events, kind); }
        if OneOf(events, kind) { RestOne(events, kind); }
      } else {
        assert calls == most;
        if OneOf(rest, kind) { FirstOther(events, kind); }
        if OneOf(events, kind) { RestOne(events, kind); }
      }
    }
  }

  lemma DistinctCons<T>(x: T, s: seq<T>)
    ensures Distinct([x] + s) <==> x !in s && Distinct(s)
  {
    var all := [x] + s;
    assert forall i :: 0 <= i < |s| ==> all[i + 1] == s[i];
    if Distinct(all) {
      forall i | 0 <= i < |s| ensures s[i] != x { assert all[0] != all[i + 1]; }
      forall i, j | 0 <= i < j < |s| ensures s[i] != s[j] { assert all[i + 1] != all[j + 1]; }
    }
  }

  lemma FirstAlone(events: seq<Event>, kind: EventKind)
    requires events != [] && OneOf(events[1..], kind) && forall i :: !IsCall(events[1..], kind, i, events[0].callId)
    ensures OneOf(events, kind)
  {
    forall i, j, call | IsCall(events, kind, i, call) && IsCall(events, kind, j, call) ensures i == j {
      if i > 0 { assert IsCall(events[1..], kind, i - 1, call); }
      if j > 0 { assert IsCall(events[1..], kind, j - 1, call); }
    }
  }

  lemma FirstOther(events: seq<Event>, kind: EventKind)
    requires events != [] && OneOf(events[1..], kind) && events[0].kind != kind
    ensures OneOf(events, kind)
  {
    forall i, j, call | IsCall(events, kind, i, call) && IsCall(events, kind, j, call) ensures i == j {
      assert IsCall(events[1..], kind, i - 1, call) && IsCall(events[1..], kind, j - 1, call);
    }
  }

  lemma RestOne(events: seq<Event>, kind: EventKind)
    requires events != [] && OneOf(events, kind)
    ensures OneOf(events[1..], kind)
    ensures events[0].kind == kind ==> forall i :: !IsCall(events[1..], kind, i, events[0].callId)
  {
    forall i, j, call | IsCall(events[1..], kind, i, call) && IsCall(events[1..], kind, j, call) ensures i == j {
      assert IsCall(events, kind, i + 1, call) && IsCall(events, kind, j + 1, call);
    }
    if events[0].kind == kind {
      forall i | IsCall(events[1..], kind, i, events[0].callId) ensures false {
        assert IsCall(events, kind, i + 1, events[0].callId) && IsCall(events, kind, 0, events[0].callId);
      }
    }
  }

  lemma SameMembers<T>(a: seq<T>, b: seq<T>)
    requires Distinct(a) && Distinct(b)
    ensures multiset(a) == multiset(b) <==> forall x :: x in a <==> x in b
  {
    if forall x :: x in a <==> x in b {
      forall x ensures multiset(a)[x] == multiset(b)[x] {
        DistinctOnce(a, x);
        DistinctOnce(b, x);
        assert x in a <==> x in multiset(a);
        assert x in b <==> x in multiset(b);
      }
    }
    if multiset(a) == multiset(b) {
      forall x ensures x in a <==> x in b { assert x in multiset(a) <==> x in multiset(b); }
    }
  }

  lemma ToolsExactly(events: seq<Event>)
    ensures ToolsClean(events) <==> ToolsPaired(events)
  {
    var starts, finishes := CallsOf(events, ToolStart), CallsOf(events, ToolFinish);
    CallsDistinct(events, ToolStart);
    CallsDistinct(events, ToolFinish);
    forall call
      ensures call in starts <==> exists i :: IsCall(events, ToolStart, i, call)
      ensures call in finishes <==> exists i :: IsCall(events, ToolFinish, i, call)
    {
      CallsMember(events, ToolStart, call);
      CallsMember(events, ToolFinish, call);
    }
    hide CallsOf, IsCall, Distinct, OneOf;
    if Distinct(starts) && Distinct(finishes) {
      SameMembers(starts, finishes);
      if ToolsPaired(events) {
        forall call ensures call in starts <==> call in finishes {}
      }
      if ToolsClean(events) {
        forall i, call | IsCall(events, ToolStart, i, call) ensures exists j :: IsCall(events, ToolFinish, j, call) { assert call in finishes; }
        forall i, call | IsCall(events, ToolFinish, i, call) ensures exists j :: IsCall(events, ToolStart, j, call) { assert call in starts; }
      }
    }
  }

  /** Event `i` is the finished tool call a binding names: its payload says the path and the digest, and names the very bytes,
      which are stored at the call's own place. */
  ghost predicate BindingTrue(c: Codec, f: RunFiles, run: string, b: FileBinding, i: int, fields: Fields, r: Ref, x: Blob) {
    && 0 <= i < |f.events| && f.events[i].kind == ToolFinish && f.events[i].id == b.readEvent
    && f.events[i].number == b.observedSeq && f.events[i].availableSeq == Some(b.observedSeq)
    && HoldsFields(c, f, run, f.events[i], fields)
    && Gives(fields, CompleteKey, Flag(true)) && Gives(fields, PathKey, Words(b.path)) && Gives(fields, ShaKey, Words(b.sha))
    && Gives(fields, BodyKey, RefValue(r)) && Owns(c, f.blobs, run, r, x) && c.digest(x) == b.sha
    && f.events[i].callId.Some? && r.locator == ToolBody(f.events[i].callId.value)
  }

  ghost predicate Backed(c: Codec, f: RunFiles, run: string, b: FileBinding) {
    exists i, fields, r, x :: BindingTrue(c, f, run, b, i, fields, r, x)
  }

  lemma BindingExactly(c: Codec, f: RunFiles, run: string, p: Payloads, b: FileBinding, i: nat, fields: Fields, r: Ref, x: Blob)
    requires i < |f.events| && FieldsOf(p, f.events[i]) == Some(fields) && HoldsFields(c, f, run, f.events[i], fields)
    requires Gives(fields, BodyKey, RefValue(r)) && Owns(c, f.blobs, run, r, x)
    ensures BindingClean(c, f, run, p, b, i) <==> BindingTrue(c, f, run, b, i, fields, r, x)
  {
    OwnsExactly(c, f.blobs, run, r);
    hide FieldsOf, HoldsFields, RunBlob, Owns;
  }

  lemma BackedExactly(c: Codec, f: RunFiles, run: string, b: FileBinding)
    requires LogClean(c, f, run)
    ensures HasTool(c, f, run, PayloadsOf(c, f, run), b) <==> Backed(c, f, run, b)
  {
    var p := PayloadsOf(c, f, run);
    hide LogClean, FieldsOf, RunBlob, HoldsFields, PayloadsOf, Owns, BindingTrue, BindingClean;
    if i: nat :| BindingClean(c, f, run, p, b, i) {
      var fields, r, x := BindingParts(c, f, run, p, b, i);
      PayloadExactly(c, f, run, i, fields);
      BindingExactly(c, f, run, p, b, i, fields, r, x);
    }
    if i, fields, r, x :| BindingTrue(c, f, run, b, i, fields, r, x) {
      BindingHolds(c, f, run, b, i, fields, r, x);
      PayloadExactly(c, f, run, i, fields);
      BindingExactly(c, f, run, p, b, i, fields, r, x);
    }
  }

  lemma BindingParts(c: Codec, f: RunFiles, run: string, p: Payloads, b: FileBinding, i: nat) returns (fields: Fields, r: Ref, x: Blob)
    requires BindingClean(c, f, run, p, b, i)
    ensures i < |f.events| && FieldsOf(p, f.events[i]) == Some(fields) && Gives(fields, BodyKey, RefValue(r)) && Owns(c, f.blobs, run, r, x)
  {
    fields := FieldsOf(p, f.events[i]).value;
    r := At(fields, BodyKey).ref;
    x := RunBlob(c, f.blobs, run, r).value;
    OwnsExactly(c, f.blobs, run, r);
    hide FieldsOf, RunBlob, Owns;
  }

  lemma BindingHolds(c: Codec, f: RunFiles, run: string, b: FileBinding, i: int, fields: Fields, r: Ref, x: Blob)
    requires BindingTrue(c, f, run, b, i, fields, r, x)
    ensures 0 <= i < |f.events| && HoldsFields(c, f, run, f.events[i], fields) && Gives(fields, BodyKey, RefValue(r)) && Owns(c, f.blobs, run, r, x)
  {
    hide HoldsFields, Owns;
  }

  // ---- Requests ----

  /** A body of the attempt: stored, at its own place, and the one the request event names. */
  ghost predicate BodyTrue(c: Codec, f: RunFiles, run: string, s: Snapshot, asked: Fields, part: Part, key: Key, ref: Option<Ref>) {
    && ref.Some? && ref.value.locator == AttemptPart(s.attempt, part) && Gives(asked, key, RefValue(ref.value))
    && exists b :: Owns(c, f.blobs, run, ref.value, b)
  }

  /** The usage told is what the response reports, or unknown for the stated reason. */
  ghost predicate UsageTrue(c: Codec, r: Ref, b: Blob, got: Fields) {
    var reported := if b.Bytes? then c.usage(b.text) else None;
    if reported.None?
    then Gives(got, UsageKey, FactValue(Fact(None, UnknownFact, Some("provider_did_not_report_usage"), []))) && Empty(got, UsageRefKey)
    else
      && Gives(got, UsageRefKey, RefValue(r.(locator := UsageField)))
      && exists reason :: Gives(got, UsageKey, FactValue(Fact(reported, Observed, reason, [r.(locator := UsageField)])))
  }

  /** The attempt ended in a transport exception, which is stored and which the physical record names. */
  ghost predicate FailedWith(c: Codec, f: RunFiles, run: string, s: Snapshot, got: Fields, y: PhysicalAttempt, r: Ref) {
    && Gives(got, FailureKey, RefValue(r)) && y.outcome == Excepted(r) && r.locator == AttemptPart(s.attempt, FailureBody)
    && (exists b :: Owns(c, f.blobs, run, r, b))
    && Empty(got, ResponseKey) && Empty(got, UsageRefKey) && Empty(got, ProviderRequestKey)
    && Gives(got, UsageKey, FactValue(Fact(None, UnknownFact, Some("transport_exception_before_response"), [])))
  }

  /** The attempt got this response, which is stored and which the physical record names. */
  ghost predicate RespondedWith(c: Codec, f: RunFiles, run: string, s: Snapshot, got: Fields, y: PhysicalAttempt, r: Ref, b: Blob) {
    && Gives(got, ResponseKey, RefValue(r)) && y.outcome == Responded(r) && r.locator == AttemptPart(s.attempt, ResponseBody)
    && Owns(c, f.blobs, run, r, b) && Empty(got, FailureKey) && UsageTrue(c, r, b, got)
  }

  /** A physical record of the attempt, of this run and producer, under its own name, with the sent bytes. */
  ghost predicate RecordTrue(f: RunFiles, run: string, s: Snapshot, x: PhysicalAttempt, entered: bool) {
    && x.attempt == s.attempt && x.runId == run && x.producer == f.producer && s.sent == Some(x.sent) && (x.outcome.OnlyEntered? <==> entered)
    && x.id == PhysicalName(s.attempt, if entered then Entered else Terminal)
  }

  /** Snapshot `s`, its request event `i` saying `asked`, its terminal event `j` saying `got`, and its physical records `x` and
      `y`. */
  ghost predicate RequestTrue(c: Codec, f: RunFiles, run: string, s: Snapshot, i: nat, asked: Fields, j: nat, got: Fields, x: nat, y: nat) {
    && s.runId == run && s.producer == f.producer && s.config == f.run.config
    && i < |f.events| && f.events[i].kind == RequestEvent && HoldsFields(c, f, run, f.events[i], asked)
    && j < |f.events| && f.events[j].kind in {ResponseEvent, FailureEvent} && HoldsFields(c, f, run, f.events[j], got)
    && Gives(asked, AttemptIdKey, Id(s.attempt)) && Gives(got, AttemptIdKey, Id(s.attempt))
    && f.events[i].callId == Some(s.logicalCall) && f.events[j].callId == Some(s.logicalCall)
    && Gives(asked, LogicalKey, Id(s.logicalCall)) && Gives(got, LogicalKey, Id(s.logicalCall))
    && BodyTrue(c, f, run, s, asked, BeforeBody, BeforeKey, Some(s.before)) && BodyTrue(c, f, run, s, asked, PreparedBody, PreparedKey, s.prepared)
    && BodyTrue(c, f, run, s, asked, SentBody, SentKey, s.sent)
    && x < |f.physical| && RecordTrue(f, run, s, f.physical[x], true) && y < |f.physical| && RecordTrue(f, run, s, f.physical[y], false)
    && (if f.events[j].kind == FailureEvent then exists r :: FailedWith(c, f, run, s, got, f.physical[y], r)
        else exists r, b :: RespondedWith(c, f, run, s, got, f.physical[y], r, b))
  }

  /** Block `n` of a snapshot is about message `n` of the sent body: its place, its role and the digest of its text. */
  ghost predicate BlockTrue(c: Codec, s: Snapshot, n: nat, m: Message)
    requires n < |s.blocks|
  {
    var b := s.blocks[n];
    && b.requestId == s.id && b.occurrence == OccurrenceName(s.id, n) && b.pointer == MessageContent(n)
    && m.Message? && m.role == Some(b.role) && m.content.Some? && b.contentHash == c.digest(Bytes(m.content.value))
  }

  /** The messages of the sent body, which its blocks account for one by one. */
  ghost predicate BlocksTrue(c: Codec, f: RunFiles, run: string, p: Payloads, s: Snapshot) {
    s.blocks != [] ==>
      s.sent.Some? && exists text, messages: seq<Message> ::
        && Owns(c, f.blobs, run, s.sent.value, Bytes(text)) && text != "" && c.messages(text) == Some(messages) && |messages| == |s.blocks|
        && forall n :: 0 <= n < |messages| ==> BlockTrue(c, s, n, messages[n]) && Sourced(c, f, run, p, s, s.blocks[n], messages[n].content.value)
  }

  lemma BodyTold(c: Codec, f: RunFiles, run: string, s: Snapshot, asked: Fields, part: Part, key: Key, ref: Option<Ref>)
    requires BodyClean(c, f, run, s, asked, part, key, ref)
    ensures BodyTrue(c, f, run, s, asked, part, key, ref)
  {
    OwnsExactly(c, f.blobs, run, ref.value);
    hide RunBlob, Owns;
    assert Owns(c, f.blobs, run, ref.value, RunBlob(c, f.blobs, run, ref.value).value);
  }

  lemma FailureTold(c: Codec, f: RunFiles, run: string, s: Snapshot, got: Fields, y: PhysicalAttempt) returns (r: Ref)
    requires FailureClean(c, f, run, s, got, Some(y.outcome))
    ensures FailedWith(c, f, run, s, got, y, r)
  {
    r := At(got, FailureKey).ref;
    OwnsExactly(c, f.blobs, run, r);
    hide RunBlob, Owns;
    assert Owns(c, f.blobs, run, r, RunBlob(c, f.blobs, run, r).value);
  }

  lemma UsageTold(c: Codec, r: Ref, b: Blob, got: Fields)
    requires UsageClean(UsageOf(c, b), r, got)
    ensures UsageTrue(c, r, b, got)
  {
    var fact := At(got, UsageKey).fact;
    if UsageOf(c, b).Some? {
      assert Gives(got, UsageKey, FactValue(Fact(UsageOf(c, b), Observed, fact.reason, [r.(locator := UsageField)])));
    }
  }

  lemma ResponseTold(c: Codec, f: RunFiles, run: string, s: Snapshot, got: Fields, y: PhysicalAttempt) returns (r: Ref, b: Blob)
    requires ResponseClean(c, f, run, s, got, Some(y.outcome))
    ensures RespondedWith(c, f, run, s, got, y, r, b)
  {
    r := At(got, ResponseKey).ref;
    b := RunBlob(c, f.blobs, run, r).value;
    OwnsExactly(c, f.blobs, run, r);
    UsageTold(c, r, b, got);
    hide RunBlob, Owns, UsageClean, UsageTrue, UsageOf;
  }

  lemma RecordTold(c: Codec, f: RunFiles, run: string, p: Payloads, s: Snapshot, i: nat, j: nat, x: nat, y: nat)
    requires PhysicalClean(c, f, run) && Counterparts(p, f, s, i, j, x, y) && s.sent == Some(f.physical[x].sent)
    ensures RecordTrue(f, run, s, f.physical[x], true) && RecordTrue(f, run, s, f.physical[y], false)
  {
    hide RunBlob, SlotsDistinct, BothPhases, Speaks;
    assert PhysicalSound(c, f, run, f.physical[x]) && PhysicalSound(c, f, run, f.physical[y]);
  }

  lemma SpokenKinds(p: Payloads, events: seq<Event>, i: nat, j: nat, id: Name)
    requires Speaks(p, events, false, i, id) && Speaks(p, events, true, j, id)
    ensures i < |events| && events[i].kind == RequestEvent && FieldsOf(p, events[i]).Some?
    ensures j < |events| && events[j].kind in {ResponseEvent, FailureEvent} && FieldsOf(p, events[j]).Some?
    ensures Gives(FieldsOf(p, events[i]).value, AttemptIdKey, Id(id)) && Gives(FieldsOf(p, events[j]).value, AttemptIdKey, Id(id))
  {
  }

  lemma SnapshotParts(c: Codec, f: RunFiles, run: string, p: Payloads, s: Snapshot, e: Event, asked: Fields, g: Event, got: Fields,
    x: PhysicalAttempt, y: PhysicalAttempt)
    requires FieldsOf(p, e) == Some(asked) && FieldsOf(p, g) == Some(got) && SnapshotClean(c, f, run, p, s, e, g, Some(x), Some(y))
    ensures s.runId == run && s.producer == f.producer && s.config == f.run.config && s.sent == Some(x.sent)
    ensures e.callId == Some(s.logicalCall) && g.callId == Some(s.logicalCall)
    ensures Gives(asked, LogicalKey, Id(s.logicalCall)) && Gives(got, LogicalKey, Id(s.logicalCall))
    ensures BodyClean(c, f, run, s, asked, BeforeBody, BeforeKey, Some(s.before)) && BodyClean(c, f, run, s, asked, PreparedBody, PreparedKey, s.prepared)
    ensures BodyClean(c, f, run, s, asked, SentBody, SentKey, s.sent)
    ensures if g.kind == FailureEvent then FailureClean(c, f, run, s, got, Some(y.outcome)) else ResponseClean(c, f, run, s, got, Some(y.outcome))
  {
    hide FieldsOf, BodyClean, ContextsClean, FailureClean, ResponseClean, SentMessages;
  }

  lemma BodiesTold(c: Codec, f: RunFiles, run: string, s: Snapshot, asked: Fields)
    requires BodyClean(c, f, run, s, asked, BeforeBody, BeforeKey, Some(s.before)) && BodyClean(c, f, run, s, asked, PreparedBody, PreparedKey, s.prepared)
    requires BodyClean(c, f, run, s, asked, SentBody, SentKey, s.sent)
    ensures BodyTrue(c, f, run, s, asked, BeforeBody, BeforeKey, Some(s.before)) && BodyTrue(c, f, run, s, asked, PreparedBody, PreparedKey, s.prepared)
    ensures BodyTrue(c, f, run, s, asked, SentBody, SentKey, s.sent)
  {
    BodyTold(c, f, run, s, asked, BeforeBody, BeforeKey, Some(s.before));
    BodyTold(c, f, run, s, asked, PreparedBody, PreparedKey, s.prepared);
    BodyTold(c, f, run, s, asked, SentBody, SentKey, s.sent);
    hide BodyClean, BodyTrue;
  }

  lemma RequestTold(c: Codec, f: RunFiles, run: string, p: Payloads, s: Snapshot, i: nat, asked: Fields, j: nat, got: Fields, x: nat, y: nat)
    requires PhysicalClean(c, f, run) && Counterparts(p, f, s, i, j, x, y)
    requires FieldsOf(p, f.events[i]) == Some(asked) && HoldsFields(c, f, run, f.events[i], asked)
    requires FieldsOf(p, f.events[j]) == Some(got) && HoldsFields(c, f, run, f.events[j], got)
    requires SnapshotClean(c, f, run, p, s, f.events[i], f.events[j], Some(f.physical[x]), Some(f.physical[y]))
    ensures RequestTrue(c, f, run, s, i, asked, j, got, x, y)
  {
    hide PhysicalClean, FieldsOf, HoldsFields, Speaks, SlotOf, BodyClean, BodyTrue, FailureClean, ResponseClean, RecordTrue, FailedWith, RespondedWith, RunBlob,
      SnapshotClean, Gives, At;
    SpokenKinds(p, f.events, i, j, s.attempt);
    SnapshotParts(c, f, run, p, s, f.events[i], asked, f.events[j], got, f.physical[x], f.physical[y]);
    RecordTold(c, f, run, p, s, i, j, x, y);
    BodiesTold(c, f, run, s, asked);
    if f.events[j].kind == FailureEvent {
      var _ := FailureTold(c, f, run, s, got, f.physical[y]);
    } else {
      var _, _ := ResponseTold(c, f, run, s, got, f.physical[y]);
    }
  }

  lemma MessagesTold(c: Codec, f: RunFiles, run: string, s: Snapshot) returns (text: string)
    requires SentMessages(c, f, run, s).Some?
    ensures s.sent.Some? && Owns(c, f.blobs, run, s.sent.value, Bytes(text)) && text != "" && c.messages(text) == SentMessages(c, f, run, s)
  {
    text := RunBlob(c, f.blobs, run, s.sent.value).value.text;
  }

  lemma CleanContexts(c: Codec, f: RunFiles, run: string, p: Payloads, s: Snapshot, n: nat)
    requires Corresponds(c, f, run, p, s) && n < |s.blocks|
    ensures SentMessages(c, f, run, s).Some? && |SentMessages(c, f, run, s).value| == |s.blocks|
    ensures BlockTrue(c, s, n, SentMessages(c, f, run, s).value[n])
  {
    var i: nat, j: nat, x: nat, y: nat :| Counterparts(p, f, s, i, j, x, y)
      && SnapshotClean(c, f, run, p, s, f.events[i], f.events[j], Some(f.physical[x]), Some(f.physical[y]));
    hide Corresponds, Counterparts, TerminalClean, BodyClean, BlockClean, BlockTrue, SentMessages;
    assert ContextsClean(c, f, run, p, s, SentMessages(c, f, run, s));
    PlaceTold(c, f, p, s, n, SentMessages(c, f, run, s).value[n]);
  }

  lemma BlockTold(c: Codec, f: RunFiles, run: string, p: Payloads, k: nat, n: nat)
    requires RequestsClean(c, f, run, p) && k < |f.snapshots| && n < |f.snapshots[k].blocks|
    ensures var s := f.snapshots[k];
      && SentMessages(c, f, run, s).Some? && |SentMessages(c, f, run, s).value| == |s.blocks|
      && var m := SentMessages(c, f, run, s).value[n];
      BlockTrue(c, s, n, m) && m.Message? && m.content.Some? && Sourced(c, f, run, p, s, s.blocks[n], m.content.value)
  {
    assert Corresponds(c, f, run, p, f.snapshots[k]);
    hide Corresponds, RequestsClean, Sourced, SentMessages;
    CleanContexts(c, f, run, p, f.snapshots[k], n);
    SentMessagesSourced(c, f, run, p, k, n);
  }

  lemma BlocksTold(c: Codec, f: RunFiles, run: string, p: Payloads, k: nat)
    requires RequestsClean(c, f, run, p) && k < |f.snapshots|
    ensures BlocksTrue(c, f, run, p, f.snapshots[k])
  {
    hide RequestsClean, Sourced, BlockTrue, SentMessages, Owns;
    var s := f.snapshots[k];
    if s.blocks != [] {
      BlockTold(c, f, run, p, k, 0);
      var text := MessagesTold(c, f, run, s);
      forall n | 0 <= n < |s.blocks|
        ensures var m := SentMessages(c, f, run, s).value[n];
          BlockTrue(c, s, n, m) && m.Message? && m.content.Some? && Sourced(c, f, run, p, s, s.blocks[n], m.content.value)
      {
        BlockTold(c, f, run, p, k, n);
      }
    }
  }

  lemma PlaceTold(c: Codec, f: RunFiles, p: Payloads, s: Snapshot, n: nat, m: Message)
    requires n < |s.blocks| && BlockClean(c, f, p, s, n, s.blocks[n], m)
    ensures BlockTrue(c, s, n, m)
  {
    hide ContextClean;
  }

  lemma CounterpartFields(p: Payloads, f: RunFiles, s: Snapshot, i: nat, j: nat, x: nat, y: nat)
    requires Counterparts(p, f, s, i, j, x, y)
    ensures i < |f.events| && j < |f.events| && x < |f.physical| && y < |f.physical|
    ensures FieldsOf(p, f.events[i]).Some? && FieldsOf(p, f.events[j]).Some?
  {
    SpokenKinds(p, f.events, i, j, s.attempt);
    hide FieldsOf;
  }

  /** The story of one snapshot, and that nothing else is about its attempt. */
  ghost predicate StoryTrue(c: Codec, f: RunFiles, run: string, p: Payloads, s: Snapshot) {
    exists i: nat, asked, j: nat, got, x: nat, y: nat :: RequestTrue(c, f, run, s, i, asked, j, got, x, y) && NoOther(p, f, s.attempt, i, j, x, y)
  }

  lemma StoryTold(c: Codec, f: RunFiles, run: string, k: nat)
    requires LogClean(c, f, run) && RequestsClean(c, f, run, PayloadsOf(c, f, run)) && k < |f.snapshots|
    ensures StoryTrue(c, f, run, PayloadsOf(c, f, run), f.snapshots[k])
  {
    var p, s := PayloadsOf(c, f, run), f.snapshots[k];
    hide LogClean, PayloadsOf, InventoryClean, PhysicalClean, SnapshotClean, Counterparts, RequestTrue, NoOther, HoldsFields, FieldsOf;
    assert Corresponds(c, f, run, p, s);
    var i: nat, j: nat, x: nat, y: nat :| Counterparts(p, f, s, i, j, x, y)
      && SnapshotClean(c, f, run, p, s, f.events[i], f.events[j], Some(f.physical[x]), Some(f.physical[y]));
    CounterpartFields(p, f, s, i, j, x, y);
    var asked, got := FieldsOf(p, f.events[i]).value, FieldsOf(p, f.events[j]).value;
    PayloadExactly(c, f, run, i, asked);
    PayloadExactly(c, f, run, j, got);
    RequestTold(c, f, run, p, s, i, asked, j, got, x, y);
    CleanHasNoOther(c, f, run, p, s, i, j, x, y);
  }

  // ---- The ledger ----

  /** The usage fact an attempt ended with: that of the terminal event that names it. */
  ghost predicate EndedWith(c: Codec, f: RunFiles, run: string, id: Name, fact: UsageFact) {
    exists j, got :: TerminalSays(c, f, run, id, j, got, fact)
  }

  ghost predicate TerminalSays(c: Codec, f: RunFiles, run: string, id: Name, j: int, got: Fields, fact: UsageFact) {
    && 0 <= j < |f.events| && f.events[j].kind in {ResponseEvent, FailureEvent} && HoldsFields(c, f, run, f.events[j], got)
    && Gives(got, AttemptIdKey, Id(id)) && Gives(got, UsageKey, FactValue(fact))
  }

  /** The attempt ended with a usage the provider reported, with this number for the category. */
  ghost predicate Used(c: Codec, f: RunFiles, run: string, id: Name, category: Category, amount: real) {
    exists fact, raw :: EndedWith(c, f, run, id, fact) && fact.status == Observed && fact.value == Some(raw) && Counts(raw, category, amount)
  }

  ghost function SumReals(xs: seq<real>): real { if xs == [] then 0.0 else xs[0] + SumReals(xs[1..]) }

  /** These are the numbers reported for the attempts of the snapshots, in order. */
  ghost predicate Amounts(c: Codec, f: RunFiles, run: string, category: Category, amounts: seq<real>) {
    |amounts| == |f.snapshots| && forall k :: 0 <= k < |amounts| ==> Used(c, f, run, f.snapshots[k].attempt, category, amounts[k])
  }

  ghost predicate Summed(c: Codec, f: RunFiles, run: string, category: Category) { exists amounts :: Amounts(c, f, run, category, amounts) }

  ghost predicate Accounted(f: RunFiles, id: Name) { exists i :: 0 <= i < |f.entries| && f.entries[i].attempt == id }

  /** The ledger is about the attempts made, and its totals are the sums of what was reported for them; there are totals exactly
      when every attempt was reported in every category. */
  ghost predicate LedgerTrue(c: Codec, f: RunFiles, run: string) {
    && f.aggregate.count == |f.snapshots|
    && (forall i :: 0 <= i < |f.entries| ==> HasSnapshot(f, f.entries[i].attempt))
    && (forall k :: 0 <= k < |f.snapshots| ==> Accounted(f, f.snapshots[k].attempt))
    && (f.aggregate.complete <==> forall category: Category :: Summed(c, f, run, category))
    && (f.aggregate.totals.Some? <==> f.aggregate.complete)
    && (f.aggregate.complete ==> forall category, amounts :: Amounts(c, f, run, category, amounts) ==>
          category in f.aggregate.totals.value && f.aggregate.totals.value[category] == SumReals(amounts))
  }

  /** Where the ledger audit finds the usage of an attempt. */
  lemma UsageIndexed(c: Codec, f: RunFiles, run: string, p: Payloads, id: Name) returns (j: nat, got: Fields)
    requires id in UsagesOf(p, f)
    ensures Speaks(p, f.events, true, j, id) && FieldsOf(p, f.events[j]) == Some(got) && At(got, UsageKey) == FactValue(UsagesOf(p, f)[id])
  {
    hide ValidFact, SnapshotIds;
    j := TerminalIndex(p, f.events, id);
    got := FieldsOf(p, f.events[j]).value;
  }

  lemma SaidBy(c: Codec, f: RunFiles, run: string, p: Payloads, id: Name, j: nat, got: Fields, fact: UsageFact)
    requires Speaks(p, f.events, true, j, id) && FieldsOf(p, f.events[j]) == Some(got) && HoldsFields(c, f, run, f.events[j], got)
    ensures TerminalSays(c, f, run, id, j, got, fact) <==> At(got, UsageKey) == FactValue(fact)
  {
    hide HoldsFields;
  }

  lemma SaysSpeaks(c: Codec, f: RunFiles, run: string, p: Payloads, id: Name, j: int, got: Fields, fact: UsageFact)
    requires TerminalSays(c, f, run, id, j, got, fact) && FieldsOf(p, f.events[j]) == Some(got)
    ensures Speaks(p, f.events, true, j, id)
  {
    hide HoldsFields;
  }

  lemma SaysHolds(c: Codec, f: RunFiles, run: string, id: Name, j: int, got: Fields, fact: UsageFact)
    requires TerminalSays(c, f, run, id, j, got, fact)
    ensures 0 <= j < |f.events| && HoldsFields(c, f, run, f.events[j], got)
  {
    hide HoldsFields;
  }

  lemma SpeaksWhere(p: Payloads, events: seq<Event>, j: int, id: Name)
    requires Speaks(p, events, true, j, id)
    ensures 0 <= j < |events|
  {
  }

  /** What the ledger audit works from is what the terminal event of the attempt says. */
  lemma UsageOfAttempt(c: Codec, f: RunFiles, run: string, id: Name, fact: UsageFact)
    requires LogClean(c, f, run)
    requires OnceEach(PayloadsOf(c, f, run), f.events, true) && id in UsagesOf(PayloadsOf(c, f, run), f)
    ensures EndedWith(c, f, run, id, fact) <==> UsagesOf(PayloadsOf(c, f, run), f)[id] == fact
  {
    var p := PayloadsOf(c, f, run);
    hide LogClean, PayloadsOf, HoldsFields, UsagesOf, Speaks, FieldsOf, TerminalSays;
    var j, got := UsageIndexed(c, f, run, p, id);
    SpeaksWhere(p, f.events, j, id);
    PayloadExactly(c, f, run, j, got);
    SaidBy(c, f, run, p, id, j, got, fact);
    if i, said :| TerminalSays(c, f, run, id, i, said, fact) {
      SaysHolds(c, f, run, id, i, said, fact);
      PayloadExactly(c, f, run, i, said);
      SaysSpeaks(c, f, run, p, id, i, said, fact);
    }
  }

  /** These are the usage facts the attempts ended with. */
  ghost predicate UsagesTell(c: Codec, f: RunFiles, run: string, usages: map<Name, UsageFact>) {
    forall id, fact :: id in usages ==> (EndedWith(c, f, run, id, fact) <==> usages[id] == fact)
  }

  lemma UsagesTold(c: Codec, f: RunFiles, run: string)
    requires LogClean(c, f, run) && OnceEach(PayloadsOf(c, f, run), f.events, true)
    ensures UsagesTell(c, f, run, UsagesOf(PayloadsOf(c, f, run), f))
  {
    hide LogClean, PayloadsOf, UsagesOf, OnceEach, EndedWith;
    var usages := UsagesOf(PayloadsOf(c, f, run), f);
    forall id, fact | id in usages ensures EndedWith(c, f, run, id, fact) <==> usages[id] == fact { UsageOfAttempt(c, f, run, id, fact); }
  }

  /** The number used is the number the ledger audit counts. */
  lemma UsedExactly(c: Codec, f: RunFiles, run: string, usages: map<Name, UsageFact>, id: Name, category: Category, amount: real)
    requires UsagesTell(c, f, run, usages) && id in usages
    ensures Used(c, f, run, id, category, amount) <==> Worth(usages[id], category) == Some(amount)
  {
    hide EndedWith, Tokens, Counts;
    var usage := usages[id];
    assert EndedWith(c, f, run, id, usage);
    if usage.value.Some? { TokensExactly(usage.value.value, category, amount); }
  }

  lemma {:induction false} SumIsTotal(ids: seq<Name>, usages: map<Name, UsageFact>, category: Category, amounts: seq<real>)
    requires |amounts| == |ids| && forall k :: 0 <= k < |ids| ==> ids[k] in usages && Worth(usages[ids[k]], category) == Some(amounts[k])
    ensures UsageLedger.Total(ids, usages, category) == SumReals(amounts)
  {
    hide Worth;
    if |ids| > 0 { SumIsTotal(ids[1..], usages, category, amounts[1..]); }
  }

  lemma AttemptsListed(f: RunFiles)
    requires SnapshotsDistinct(f.snapshots)
    ensures Lists(AttemptsOf(f.snapshots), SnapshotIds(f.snapshots)) && |SnapshotIds(f.snapshots)| == |f.snapshots|
  {
    var names := AttemptsOf(f.snapshots);
    assert forall i :: 0 <= i < |names| ==> names[i] == f.snapshots[i].attempt;
    assert Distinct(names);
    SizeDistinct(names);
    assert Elements(names) == SnapshotIds(f.snapshots);
  }

  /** The numbers of a category are known exactly when each attempt is worth one, and their sum is then its total. */
  lemma AmountsExactly(c: Codec, f: RunFiles, run: string, usages: map<Name, UsageFact>, ids: set<Name>, names: seq<Name>, category: Category)
    requires UsagesTell(c, f, run, usages) && ids <= usages.Keys && Lists(names, ids)
    requires |names| == |f.snapshots| && forall k :: 0 <= k < |names| ==> names[k] == f.snapshots[k].attempt
    ensures Summed(c, f, run, category) <==> forall id :: id in ids ==> Worth(usages[id], category).Some?
    ensures forall amounts :: Amounts(c, f, run, category, amounts) ==> SumReals(amounts) == TotalOf(names, ids, usages, category)
  {
    hide UsagesTell, Used, Worth, SumReals;
    assert forall k :: 0 <= k < |names| ==> names[k] in names && names[k] in usages;
    forall k, x: real | 0 <= k < |names| ensures Used(c, f, run, names[k], category, x) <==> Worth(usages[names[k]], category) == Some(x) {
      UsedExactly(c, f, run, usages, names[k], category, x);
    }
    forall amounts | Amounts(c, f, run, category, amounts)
      ensures SumReals(amounts) == TotalOf(names, ids, usages, category) && forall id :: id in ids ==> Worth(usages[id], category).Some?
    {
      assert forall k :: 0 <= k < |names| ==> Worth(usages[names[k]], category) == Some(amounts[k]);
      SumIsTotal(names, usages, category, amounts);
    }
    if forall id :: id in ids ==> Worth(usages[id], category).Some? {
      var amounts := seq(|names|, k requires 0 <= k < |names| => Worth(usages[names[k]], category).value);
      assert Amounts(c, f, run, category, amounts);
    }
  }

  lemma CategoriesTold(c: Codec, f: RunFiles, run: string, usages: map<Name, UsageFact>, ids: set<Name>, names: seq<Name>)
    requires UsagesTell(c, f, run, usages) && ids <= usages.Keys && Lists(names, ids)
    requires |names| == |f.snapshots| && forall k :: 0 <= k < |names| ==> names[k] == f.snapshots[k].attempt
    ensures (forall category: Category :: Summed(c, f, run, category)) <==> AllReported(ids, usages)
    ensures forall category, amounts :: Amounts(c, f, run, category, amounts) ==> SumReals(amounts) == TotalOf(names, ids, usages, category)
  {
    hide UsagesTell, Lists, Worth, Amounts, Summed, SumReals, TotalOf, AllReported;
    forall category: Category
      ensures Summed(c, f, run, category) <==> forall id :: id in ids ==> Worth(usages[id], category).Some?
      ensures forall amounts :: Amounts(c, f, run, category, amounts) ==> SumReals(amounts) == TotalOf(names, ids, usages, category)
    {
      AmountsExactly(c, f, run, usages, ids, names, category);
    }
    ReportedExactly(ids, usages);
    if forall category: Category :: Summed(c, f, run, category) {
      forall category: Category, id | id in ids ensures Worth(usages[id], category).Some? { assert Summed(c, f, run, category); }
    }
  }

  lemma LedgerTold(c: Codec, f: RunFiles, run: string, usages: map<Name, UsageFact>)
    requires UsagesTell(c, f, run, usages) && SnapshotsDistinct(f.snapshots)
    requires LedgerClean(SnapshotIds(f.snapshots), usages, f.entries, f.aggregate)
    ensures LedgerTrue(c, f, run)
  {
    AttemptsListed(f);
    AttemptsAre(f);
    EntriesAccounted(f);
    hide UsagesTell, SnapshotsDistinct, SnapshotIds, AttemptsOf, Lists, AllReported, Amounts, Summed, SumReals, TotalOf, Accounted, HasSnapshot;
    var ids, names := SnapshotIds(f.snapshots), AttemptsOf(f.snapshots);
    CategoriesTold(c, f, run, usages, ids, names);
    if f.aggregate.complete {
      forall category: Category, amounts | Amounts(c, f, run, category, amounts)
        ensures category in f.aggregate.totals.value && f.aggregate.totals.value[category] == SumReals(amounts)
      {
        assert Lists(names, ids);
      }
    }
  }

  lemma ReportedExactly(ids: set<Name>, usages: map<Name, UsageFact>)
    requires ids <= usages.Keys
    ensures AllReported(ids, usages) <==> forall category: Category, id :: id in ids ==> Worth(usages[id], category).Some?
  {
    hide Worth;
    if forall category: Category, id :: id in ids ==> Worth(usages[id], category).Some? {
      forall id | id in ids ensures Reported(usages[id]) {}
    }
  }

  lemma AttemptsAre(f: RunFiles)
    ensures |AttemptsOf(f.snapshots)| == |f.snapshots| && forall k :: 0 <= k < |f.snapshots| ==> AttemptsOf(f.snapshots)[k] == f.snapshots[k].attempt
  {
  }

  lemma RequestsDistinct(c: Codec, f: RunFiles, run: string, p: Payloads)
    requires RequestsClean(c, f, run, p)
    ensures SnapshotsDistinct(f.snapshots)
  {
    hide PhysicalClean, Corresponds, OnceEach, AllNamed, SameAttempts;
  }

  lemma EntriesAccounted(f: RunFiles)
    requires (set i | 0 <= i < |f.entries| :: f.entries[i].attempt) == SnapshotIds(f.snapshots)
    ensures forall i :: 0 <= i < |f.entries| ==> HasSnapshot(f, f.entries[i].attempt)
    ensures forall k :: 0 <= k < |f.snapshots| ==> Accounted(f, f.snapshots[k].attempt)
  {
    var all := set i | 0 <= i < |f.entries| :: f.entries[i].attempt;
    forall i | 0 <= i < |f.entries| ensures HasSnapshot(f, f.entries[i].attempt) { assert f.entries[i].attempt in all; }
    forall k | 0 <= k < |f.snapshots| ensures Accounted(f, f.snapshots[k].attempt) { assert f.snapshots[k].attempt in all; }
  }

  // ---- The whole run ----

  /** What the payloads are taken to be is what is stored for each event. */
  ghost predicate Read(c: Codec, f: RunFiles, run: string, p: Payloads) {
    forall i, fields :: 0 <= i < |f.events| ==> (Says(p, i, fields) <==> HoldsFields(c, f, run, f.events[i], fields))
  }

  ghost predicate Says(p: Payloads, i: int, fields: Fields) { i in p && p[i] == Object(fields) }

  /** Everything a silent audit says of the log, the requests, the tool calls, the bindings and the ledger of a run. */
  ghost predicate RunTrue(c: Codec, f: RunFiles, run: string, p: Payloads) {
    && LogTrue(c, f, run) && Read(c, f, run, p) && ToolsPaired(f.events) && f.finalFiles == f.bindings
    && (forall i, j :: 0 <= i < j < |f.bindings| ==> f.bindings[i].readEvent != f.bindings[j].readEvent)
    && (forall k :: 0 <= k < |f.bindings| ==> Backed(c, f, run, f.bindings[k]))
    && (forall k :: 0 <= k < |f.snapshots| ==> StoryTrue(c, f, run, p, f.snapshots[k]) && BlocksTrue(c, f, run, p, f.snapshots[k]))
    && (forall k, l :: 0 <= k < l < |f.snapshots| ==> f.snapshots[k].attempt != f.snapshots[l].attempt)
    && (forall x :: 0 <= x < |f.physical| ==> HasSnapshot(f, f.physical[x].attempt))
    && LedgerTrue(c, f, run)
  }

  lemma FieldsAre(p: Payloads, e: Event, fields: Fields)
    ensures FieldsOf(p, e) == Some(fields) <==> Says(p, e.number, fields)
  {
  }

  lemma PayloadsRead(c: Codec, f: RunFiles, run: string)
    requires LogClean(c, f, run)
    ensures Read(c, f, run, PayloadsOf(c, f, run))
  {
    var p := PayloadsOf(c, f, run);
    hide LogClean, PayloadsOf, HoldsFields, FieldsOf, Says;
    forall i, fields | 0 <= i < |f.events| ensures Says(p, i, fields) <==> HoldsFields(c, f, run, f.events[i], fields) {
      PayloadExactly(c, f, run, i, fields);
      FieldsAre(p, f.events[i], fields);
    }
  }

  lemma RunParts(c: Codec, f: RunFiles, run: string)
    requires RunClean(c, f, run)
    ensures LogClean(c, f, run)
    ensures var p := PayloadsOf(c, f, run);
      && RequestsClean(c, f, run, p) && BindingsClean(c, f, run, p)
      && LedgerClean(SnapshotIds(f.snapshots), UsagesOf(p, f), f.entries, f.aggregate)
  {
    hide LogClean, PayloadsOf, RequestsClean, BindingsClean, LedgerClean, UsagesOf;
  }

  lemma BindingsTold(c: Codec, f: RunFiles, run: string)
    requires LogClean(c, f, run) && BindingsClean(c, f, run, PayloadsOf(c, f, run))
    ensures ToolsPaired(f.events) && f.finalFiles == f.bindings
    ensures forall i, j :: 0 <= i < j < |f.bindings| ==> f.bindings[i].readEvent != f.bindings[j].readEvent
    ensures forall k :: 0 <= k < |f.bindings| ==> Backed(c, f, run, f.bindings[k])
  {
    hide LogClean, PayloadsOf, ToolsClean, ToolsPaired, HasTool, Backed;
    ToolsExactly(f.events);
    forall k | 0 <= k < |f.bindings| ensures Backed(c, f, run, f.bindings[k]) { BackedExactly(c, f, run, f.bindings[k]); }
  }

  /** A clean run is a true one. */
  lemma RunTold(c: Codec, f: RunFiles, run: string)
    requires RunClean(c, f, run)
    ensures RunTrue(c, f, run, PayloadsOf(c, f, run))
  {
    hide *;
    RunParts(c, f, run);
    var p := PayloadsOf(c, f, run);
    LogExactly(c, f, run);
    PayloadsRead(c, f, run);
    BindingsTold(c, f, run);
    NoRecordAlone(c, f, run, p);
    RequestsOnce(c, f, run, p);
    RequestsDistinct(c, f, run, p);
    UsagesTold(c, f, run);
    LedgerTold(c, f, run, UsagesOf(p, f));
    forall k | 0 <= k < |f.snapshots| ensures StoryTrue(c, f, run, p, f.snapshots[k]) && BlocksTrue(c, f, run, p, f.snapshots[k]) {
      StoryTold(c, f, run, k);
      BlocksTold(c, f, run, p, k);
    }
    AllTrue(c, f, run, p);
  }

  lemma AllTrue(c: Codec, f: RunFiles, run: string, p: Payloads)
    requires LogTrue(c, f, run) && Read(c, f, run, p) && ToolsPaired(f.events) && f.finalFiles == f.bindings
    requires forall i, j :: 0 <= i < j < |f.bindings| ==> f.bindings[i].readEvent != f.bindings[j].readEvent
    requires forall k :: 0 <= k < |f.bindings| ==> Backed(c, f, run, f.bindings[k])
    requires forall k :: 0 <= k < |f.snapshots| ==> StoryTrue(c, f, run, p, f.snapshots[k]) && BlocksTrue(c, f, run, p, f.snapshots[k])
    requires forall k, l :: 0 <= k < l < |f.snapshots| ==> f.snapshots[k].attempt != f.snapshots[l].attempt
    requires forall x :: 0 <= x < |f.physical| ==> HasSnapshot(f, f.physical[x].attempt)
    requires LedgerTrue(c, f, run)
    ensures RunTrue(c, f, run, p)
  {
    hide LogTrue, Read, ToolsPaired, Backed, StoryTrue, BlocksTrue, HasSnapshot, LedgerTrue;
  }
}
