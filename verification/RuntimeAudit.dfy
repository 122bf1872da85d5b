/** The audit of a persisted run: it re-derives every correspondence from the stored artifacts alone. */
module RuntimeAudit {
  import opened Ordering
  import opened Labels
  import opened Evidence
  import opened UsageLedger
  import opened RuntimeRecords
  import Visibility

  datatype Code =
    | WrongRunReference | IdentityMismatch | PayloadMismatch | MalformedEvidence | EventsArtifactMismatch | RunNotClosed
    | SequenceMismatch | ConfigMismatch | DuplicateAttemptId | DuplicateRequestEvent | DuplicateTerminalEvent
    | AttemptSetMismatch | OrphanRequestEvent | OrphanTerminalEvent | AttemptOccurrenceMissing | PhysicalInventoryMismatch
    | OrphanPhysicalAttempt | AttemptWithoutPhysical | PhysicalIdentityMismatch | DuplicatePhysical | PhysicalTerminalMissing
    | PhysicalSentMismatch | PhysicalTerminalMismatch | LogicalCallMismatch | RequestEvidenceMissing | RequestOccurrenceMismatch
    | SendBoundaryMismatch | ContextMappingMismatch | NotVisible(why: Visibility.Violation) | ContextMismatch | FailureEvidenceMissing
    | FailureIdentityMismatch | FailureSemanticsMismatch | ResponseMissing | ResponseIdentityMismatch | UsageInvented
    | UsageMismatch | ToolIncomplete | ToolDuplicate | BindingDuplicate | BindingMismatch | FinalBindingsMismatch
    | Ledger(block: UsageLedger.Block)

  /** One check: the code is added when the condition fails. */
  function Unless(ok: bool, code: Code): (r: seq<Code>)
    ensures r == [] <==> ok
    ensures forall x :: x in r <==> !ok && x == code
  {
    if ok then [] else [code]
  }

  type Payloads = map<nat, Parsed>

  /** `payloads.get(event.event_seq)` when it is an object. */
  function FieldsOf(p: Payloads, e: Event): Option<Fields> {
    if e.number in p && p[e.number].Object? then Some(p[e.number].fields) else None
  }

  // ---- The event log ----

  ghost predicate EventClean(c: Codec, f: RunFiles, run: string, e: Event) {
    && e.runId == run && e.producer == f.producer && e.id == EventName(run, e.number) && e.payload.locator == EventPayload(e.number)
    && !PayloadOf(c, f, run, e).NotJson?
  }

  ghost predicate LogClean(c: Codec, f: RunFiles, run: string) {
    && f.run.id == run && f.run.eventsRef.locator == EventLog
    && f.run.config.locator == ConfigAt && RunBlob(c, f.blobs, run, f.run.config).Some?
    && RunBlob(c, f.blobs, run, f.run.eventsRef) == Some(EventLogBytes(f.events))
    && f.events != [] && f.events[|f.events| - 1].kind == RunStop
    && (forall i :: 0 <= i < |f.events| ==> f.events[i].number == i && EventClean(c, f, run, f.events[i]))
  }

  function PayloadOf(c: Codec, f: RunFiles, run: string, e: Event): Parsed {
    var own := RunBlob(c, f.blobs, run, e.payload);
    if own.Some? then ParsedBlob(c, own.value) else NotJson
  }

  ghost function PayloadPrefix(c: Codec, f: RunFiles, run: string, n: nat): Payloads
    requires n <= |f.events|
  {
    map i: nat | i < n && !PayloadOf(c, f, run, f.events[i]).NullJson? :: PayloadOf(c, f, run, f.events[i])
  }

  /** What the payload artifacts say, event by event. */
  ghost function PayloadsOf(c: Codec, f: RunFiles, run: string): Payloads
    requires LogClean(c, f, run)
  {
    PayloadPrefix(c, f, run, |f.events|)
  }

  /** The first part of `_audit_runtime`: the log itself, and the payload index. */
  method AuditLog(c: Codec, f: RunFiles, run: string) returns (blocks: seq<Code>, payloads: Payloads)
    ensures blocks == [] <==> LogClean(c, f, run)
    ensures blocks == [] ==> payloads == PayloadsOf(c, f, run)
  {
    hide EventClean, PayloadOf, RunBlob;
    blocks := Unless(f.run.id == run && f.run.eventsRef.locator == EventLog, IdentityMismatch)
      + Unless(f.run.config.locator == ConfigAt && RunBlob(c, f.blobs, run, f.run.config).Some?, ConfigMismatch)
      + Unless(RunBlob(c, f.blobs, run, f.run.eventsRef) == Some(EventLogBytes(f.events)), EventsArtifactMismatch)
      + Unless(f.events != [] && f.events[|f.events| - 1].kind == RunStop, RunNotClosed);
    ghost var early := blocks;
    payloads := map[];
    for i := 0 to |f.events|
      invariant blocks == [] <==> early == [] && forall k :: 0 <= k < i ==> f.events[k].number == k && EventClean(c, f, run, f.events[k])
      invariant blocks == [] ==> payloads == PayloadPrefix(c, f, run, i)
    {
      var e := f.events[i];
      var more := AuditEvent(c, f, run, e);
      var parsed := PayloadOf(c, f, run, e);
      if !parsed.NotJson? && !parsed.NullJson? { payloads := payloads[e.number := parsed]; }
      blocks := blocks + Unless(e.number == i, SequenceMismatch) + more;
      if blocks == [] {
        assert !parsed.NotJson? by { ParsedClean(c, f, run, e); }
        assert payloads == PayloadPrefix(c, f, run, i + 1);
      }
    }
  }

  lemma ParsedClean(c: Codec, f: RunFiles, run: string, e: Event)
    requires EventClean(c, f, run, e)
    ensures !PayloadOf(c, f, run, e).NotJson?
  {
  }

  method AuditEvent(c: Codec, f: RunFiles, run: string, e: Event) returns (blocks: seq<Code>)
    ensures blocks == [] <==> EventClean(c, f, run, e)
  {
    var own := RunBlob(c, f.blobs, run, e.payload);
    return Unless(e.runId == run && e.producer == f.producer, WrongRunReference)
      + Unless(e.id == EventName(run, e.number), IdentityMismatch) + Unless(e.payload.locator == EventPayload(e.number), PayloadMismatch)
      + Unless(own.Some?, WrongRunReference) + Unless(own.None? || !ParsedBlob(c, own.value).NotJson?, MalformedEvidence);
  }

  // ---- Attempt ids of request events and of terminal events ----

  /** Request events, or response and failure events. */
  predicate Relevant(terminal: bool, e: Event) {
    if terminal then e.kind == ResponseEvent || e.kind == FailureEvent else e.kind == RequestEvent
  }

  /** Only events with an object payload take part. */
  predicate TakesPart(p: Payloads, terminal: bool, e: Event) { Relevant(terminal, e) && FieldsOf(p, e).Some? }

  function AttemptValue(p: Payloads, e: Event): Value { if FieldsOf(p, e).Some? then At(FieldsOf(p, e).value, AttemptIdKey) else Nil }

  /** Event `i` is a request (or terminal) event of attempt `id`. */
  predicate Speaks(p: Payloads, events: seq<Event>, terminal: bool, i: int, id: Name) {
    0 <= i < |events| && TakesPart(p, terminal, events[i]) && AttemptValue(p, events[i]) == Id(id)
  }

  ghost predicate AllNamed(p: Payloads, events: seq<Event>, terminal: bool) {
    forall i :: 0 <= i < |events| && TakesPart(p, terminal, events[i]) ==> AttemptValue(p, events[i]).Id?
  }

  ghost predicate OnceEach(p: Payloads, events: seq<Event>, terminal: bool) {
    forall i, j, id :: Speaks(p, events, terminal, i, id) && Speaks(p, events, terminal, j, id) ==> i == j
  }

  ghost predicate Spoken(p: Payloads, events: seq<Event>, terminal: bool, id: Name) {
    exists i :: Speaks(p, events, terminal, i, id)
  }

  function Elements<T>(s: seq<T>): set<T> { set x | x in s }

  lemma {:induction false} SizeDistinct<T>(s: seq<T>)
    ensures |Elements(s)| <= |s| && (|Elements(s)| == |s| <==> Distinct(s))
  {
    if s != [] {
      var n := |s| - 1;
      var init := s[..n];
      SizeDistinct(init);
      assert s == init + [s[n]];
      assert Elements(s) == Elements(init) + {s[n]};
      if s[n] in init {
        var k :| 0 <= k < n && init[k] == s[n];
        assert s[k] == s[n];
      }
    } else {
      assert Elements(s) == {};
    }
  }

  /** The list of ids and the dictionary, after the first `n` events. */
  ghost predicate IndexedTo(p: Payloads, events: seq<Event>, terminal: bool, n: nat, ids: seq<Name>, byId: map<Name, nat>) {
    && (forall id :: id in byId ==> byId[id] < n && Speaks(p, events, terminal, byId[id], id))
    && (forall k, id :: k < n && Speaks(p, events, terminal, k, id) ==> id in byId)
    && Elements(ids) == byId.Keys
    && (Distinct(ids) <==> forall k, id :: k < n && Speaks(p, events, terminal, k, id) ==> byId[id] == k)
  }

  lemma IndexSkips(p: Payloads, events: seq<Event>, terminal: bool, n: nat, ids: seq<Name>, byId: map<Name, nat>)
    requires IndexedTo(p, events, terminal, n, ids, byId) && forall id :: !Speaks(p, events, terminal, n, id)
    ensures IndexedTo(p, events, terminal, n + 1, ids, byId)
  {
    hide Elements, Distinct, Speaks;
    assert forall k, id :: k < n + 1 && Speaks(p, events, terminal, k, id) ==> k < n;
  }

  lemma OneName(p: Payloads, events: seq<Event>, terminal: bool, n: nat, id: Name)
    requires Speaks(p, events, terminal, n, id)
    ensures forall other :: Speaks(p, events, terminal, n, other) <==> other == id
  {
  }

  lemma IndexGrows(p: Payloads, events: seq<Event>, terminal: bool, n: nat, ids: seq<Name>, byId: map<Name, nat>, id: Name)
    requires IndexedTo(p, events, terminal, n, ids, byId) && Speaks(p, events, terminal, n, id)
    ensures IndexedTo(p, events, terminal, n + 1, ids + [id], byId[id := n])
  {
    OneName(p, events, terminal, n, id);
    AppendDistinct(ids, id);
    hide Elements, Distinct, Speaks;
    var later := byId[id := n];
    assert id in ids <==> id in byId;
    if id !in byId {
      forall k, other | k < n + 1 && Speaks(p, events, terminal, k, other)
        ensures other in later && (later[other] == k <==> (k == n || byId[other] == k)) {}
    } else {
      assert byId[id] < n && later[id] != byId[id];
    }
  }

  /** The list of attempt ids and the dictionary from id to event; the last event of an id wins. */
  method IndexAttempts(p: Payloads, events: seq<Event>, terminal: bool) returns (named: bool, ids: seq<Name>, byId: map<Name, nat>)
    ensures named <==> AllNamed(p, events, terminal)
    ensures forall id :: id in byId <==> Spoken(p, events, terminal, id)
    ensures forall id :: id in byId ==> Speaks(p, events, terminal, byId[id], id)
    ensures Elements(ids) == byId.Keys
    ensures |ids| == |Elements(ids)| <==> OnceEach(p, events, terminal)
  {
    named, ids, byId := true, [], map[];
    assert IndexedTo(p, events, terminal, 0, ids, byId);
    hide IndexedTo, AttemptValue, TakesPart;
    for i := 0 to |events|
      invariant named <==> forall k :: 0 <= k < i && TakesPart(p, terminal, events[k]) ==> AttemptValue(p, events[k]).Id?
      invariant IndexedTo(p, events, terminal, i, ids, byId)
    {
      var e := events[i];
      if TakesPart(p, terminal, e) && AttemptValue(p, e).Id? {
        IndexGrows(p, events, terminal, i, ids, byId, AttemptValue(p, e).name);
        ids, byId := ids + [AttemptValue(p, e).name], byId[AttemptValue(p, e).name := i];
      } else {
        if TakesPart(p, terminal, e) { named := false; }
        IndexSkips(p, events, terminal, i, ids, byId);
      }
    }
    IndexedAll(p, events, terminal, ids, byId);
  }

  lemma IndexedAll(p: Payloads, events: seq<Event>, terminal: bool, ids: seq<Name>, byId: map<Name, nat>)
    requires IndexedTo(p, events, terminal, |events|, ids, byId)
    ensures forall id :: id in byId <==> Spoken(p, events, terminal, id)
    ensures forall id :: id in byId ==> Speaks(p, events, terminal, byId[id], id)
    ensures Elements(ids) == byId.Keys && (|ids| == |Elements(ids)| <==> OnceEach(p, events, terminal))
  {
    SizeDistinct(ids);
    assert forall k, id :: Speaks(p, events, terminal, k, id) ==> 0 <= k < |events|;
    hide Elements, Distinct, Speaks;
    if OnceEach(p, events, terminal) {
      assert forall k: nat, id :: k < |events| && Speaks(p, events, terminal, k, id) ==> byId[id] == k;
    }
  }

  lemma AppendDistinct<T>(s: seq<T>, x: T)
    ensures Distinct(s + [x]) <==> Distinct(s) && x !in s
    ensures Elements(s + [x]) == Elements(s) + {x} && (x in s <==> x in Elements(s))
  {
    if Distinct(s + [x]) {
      forall i, j | 0 <= i < j < |s| ensures s[i] != s[j] { assert (s + [x])[i] != (s + [x])[j]; }
      forall i | 0 <= i < |s| ensures s[i] != x { assert (s + [x])[i] != (s + [x])[|s|]; }
    }
  }

  // ---- The physical inventory ----

  /** The two entries the dictionary of one attempt can have. */
  datatype Group = Group(entered: Option<PhysicalAttempt>, terminal: Option<PhysicalAttempt>)
  type Groups = map<Name, Group>

  function Slot(g: Group, ph: Phase): Option<PhysicalAttempt> { if ph == Entered then g.entered else g.terminal }

  function Put(groups: Groups, a: PhysicalAttempt): Groups {
    var g := if a.attempt in groups then groups[a.attempt] else Group(None, None);
    groups[a.attempt := if PhaseOf(a) == Entered then g.(entered := Some(a)) else g.(terminal := Some(a))]
  }

  ghost predicate PhysicalSound(c: Codec, f: RunFiles, run: string, a: PhysicalAttempt) {
    && a.runId == run && a.producer == f.producer && a.id == PhysicalName(a.attempt, PhaseOf(a))
    && a.sent.locator == AttemptPart(a.attempt, SentBody) && RunBlob(c, f.blobs, run, a.sent).Some?
  }

  function SlotOf(a: PhysicalAttempt): (Name, Phase) { (a.attempt, PhaseOf(a)) }

  ghost predicate SlotsDistinct(ps: seq<PhysicalAttempt>) {
    forall i, j :: 0 <= i < j < |ps| ==> SlotOf(ps[i]) != SlotOf(ps[j])
  }

  ghost predicate Filled(ps: seq<PhysicalAttempt>, slot: (Name, Phase)) {
    exists i :: 0 <= i < |ps| && SlotOf(ps[i]) == slot
  }

  /** Every group has an entered and a terminal record. */
  ghost predicate BothPhases(ps: seq<PhysicalAttempt>) {
    forall i :: 0 <= i < |ps| ==> Filled(ps, (ps[i].attempt, Entered)) && Filled(ps, (ps[i].attempt, Terminal))
  }

  ghost predicate SentAgree(ps: seq<PhysicalAttempt>) {
    forall i, j :: 0 <= i < |ps| && 0 <= j < |ps| && ps[i].attempt == ps[j].attempt ==> ps[i].sent == ps[j].sent
  }

  ghost predicate PhysicalClean(c: Codec, f: RunFiles, run: string) {
    && (forall i :: 0 <= i < |f.physical| ==> PhysicalSound(c, f, run, f.physical[i]))
    && SlotsDistinct(f.physical) && BothPhases(f.physical) && SentAgree(f.physical)
  }

  function PhysicalIds(ps: seq<PhysicalAttempt>): set<Name> { set i | 0 <= i < |ps| :: ps[i].attempt }

  /** The dictionary holds, for each attempt and phase, one of its records. */
  ghost predicate Grouped(ps: seq<PhysicalAttempt>, groups: Groups) {
    && groups.Keys == PhysicalIds(ps)
    && (forall i :: 0 <= i < |ps| ==> Slot(groups[ps[i].attempt], PhaseOf(ps[i])).Some?)
    && (forall a, ph :: a in groups && Slot(groups[a], ph).Some? ==> Holds(ps, a, ph, Slot(groups[a], ph).value))
  }

  ghost predicate Holds(ps: seq<PhysicalAttempt>, id: Name, ph: Phase, a: PhysicalAttempt) {
    a.attempt == id && PhaseOf(a) == ph && exists i :: 0 <= i < |ps| && ps[i] == a
  }

  /** The counter knows the slots filled, and whether one was filled twice. */
  ghost predicate Counted(ps: seq<PhysicalAttempt>, counts: map<(Name, Phase), nat>) {
    && (forall k :: k in counts <==> Filled(ps, k))
    && (forall k :: k in counts ==> counts[k] >= 1)
    && ((forall k :: k in counts ==> counts[k] == 1) <==> SlotsDistinct(ps))
  }

  lemma FilledAppend(ps: seq<PhysicalAttempt>, a: PhysicalAttempt, k: (Name, Phase))
    ensures Filled(ps + [a], k) <==> Filled(ps, k) || k == SlotOf(a)
  {
    var all := ps + [a];
    assert all[|ps|] == a;
    if Filled(ps, k) {
      var i :| 0 <= i < |ps| && SlotOf(ps[i]) == k;
      assert all[i] == ps[i];
    }
  }

  lemma SlotsAppend(ps: seq<PhysicalAttempt>, a: PhysicalAttempt)
    ensures SlotsDistinct(ps + [a]) <==> SlotsDistinct(ps) && !Filled(ps, SlotOf(a))
  {
    var all := ps + [a];
    if SlotsDistinct(all) {
      forall i, j | 0 <= i < j < |ps| ensures SlotOf(ps[i]) != SlotOf(ps[j]) { assert SlotOf(all[i]) != SlotOf(all[j]); }
      forall i | 0 <= i < |ps| ensures SlotOf(ps[i]) != SlotOf(a) { assert SlotOf(all[i]) != SlotOf(all[|ps|]); }
    }
  }

  lemma CountedGrows(ps: seq<PhysicalAttempt>, counts: map<(Name, Phase), nat>, a: PhysicalAttempt)
    requires Counted(ps, counts)
    ensures Counted(ps + [a], counts[SlotOf(a) := (if SlotOf(a) in counts then counts[SlotOf(a)] else 0) + 1])
  {
    var slot, all := SlotOf(a), ps + [a];
    var after := counts[slot := (if slot in counts then counts[slot] else 0) + 1];
    forall k ensures k in after <==> Filled(all, k) { FilledAppend(ps, a, k); }
    SlotsAppend(ps, a);
    hide Filled, SlotsDistinct;
    if slot in counts {
      assert after[slot] != 1;
    } else if forall k :: k in after ==> after[k] == 1 {
      assert forall k :: k in counts ==> counts[k] == after[k];
    }
  }

  lemma IdsAppend(ps: seq<PhysicalAttempt>, a: PhysicalAttempt)
    ensures PhysicalIds(ps + [a]) == PhysicalIds(ps) + {a.attempt}
  {
    var all := ps + [a];
    assert all[|ps|] == a;
    forall id | id in PhysicalIds(ps) ensures id in PhysicalIds(all) {
      var i :| 0 <= i < |ps| && ps[i].attempt == id;
      assert all[i] == ps[i];
    }
  }

  lemma GroupedGrows(ps: seq<PhysicalAttempt>, groups: Groups, a: PhysicalAttempt)
    requires Grouped(ps, groups)
    ensures Grouped(ps + [a], Put(groups, a))
  {
    var all, after := ps + [a], Put(groups, a);
    IdsAppend(ps, a);
    assert all[|ps|] == a;
    forall id, ph | id in after && Slot(after[id], ph).Some? ensures Holds(all, id, ph, Slot(after[id], ph).value) {
      var x := Slot(after[id], ph).value;
      if id in groups && Slot(groups[id], ph) == Some(x) {
        assert Holds(ps, id, ph, x);
        var i :| 0 <= i < |ps| && ps[i] == x;
        assert all[i] == x;
      } else {
        assert x == a;
      }
    }
    forall i | 0 <= i < |all| ensures Slot(after[all[i].attempt], PhaseOf(all[i])).Some? {
      assert all[i].attempt in PhysicalIds(all);
      if i < |ps| { assert all[i] == ps[i] && Slot(groups[ps[i].attempt], PhaseOf(ps[i])).Some?; }
    }
  }

  predicate PhysicalSoundNow(c: Codec, f: RunFiles, run: string, a: PhysicalAttempt)
    ensures PhysicalSoundNow(c, f, run, a) <==> PhysicalSound(c, f, run, a)
  {
    && a.runId == run && a.producer == f.producer && a.id == PhysicalName(a.attempt, PhaseOf(a))
    && a.sent.locator == AttemptPart(a.attempt, SentBody) && RunBlob(c, f.blobs, run, a.sent).Some?
  }

  /** `_physical_attempt_index`. */
  method IndexPhysical(c: Codec, f: RunFiles, run: string) returns (blocks: seq<Code>, groups: Groups)
    ensures blocks == [] <==> PhysicalClean(c, f, run)
    ensures Grouped(f.physical, groups)
  {
    hide Counted, Grouped, PhysicalSound, GroupsClean, SlotsDistinct, BothPhases, SentAgree, Put;
    blocks, groups := [], map[];
    var counts: map<(Name, Phase), nat> := map[];
    NothingYet(f.physical);
    for i := 0 to |f.physical|
      invariant blocks == [] <==> forall k :: 0 <= k < i ==> PhysicalSound(c, f, run, f.physical[k])
      invariant Counted(f.physical[..i], counts) && Grouped(f.physical[..i], groups)
    {
      var a := f.physical[i];
      var slot := SlotOf(a);
      CountedGrows(f.physical[..i], counts, a);
      GroupedGrows(f.physical[..i], groups, a);
      assert f.physical[..i + 1] == f.physical[..i] + [a];
      counts := counts[slot := (if slot in counts then counts[slot] else 0) + 1];
      blocks := blocks + Unless(PhysicalSoundNow(c, f, run, a), PhysicalIdentityMismatch);
      groups := Put(groups, a);
    }
    assert f.physical[..|f.physical|] == f.physical;
    CountedSlots(f.physical, counts);
    var more := CheckGroups(groups);
    if SlotsDistinct(f.physical) { GroupsExactly(f.physical, groups); }
    blocks := blocks + Unless(forall k :: k in counts ==> counts[k] == 1, DuplicatePhysical) + more;
  }

  lemma NothingYet(ps: seq<PhysicalAttempt>)
    ensures Counted(ps[..0], map[]) && Grouped(ps[..0], map[])
  {
  }

  lemma CountedSlots(ps: seq<PhysicalAttempt>, counts: map<(Name, Phase), nat>)
    requires Counted(ps, counts)
    ensures (forall k :: k in counts ==> counts[k] == 1) <==> SlotsDistinct(ps)
  {
  }

  ghost predicate GroupsClean(groups: Groups) {
    forall a :: a in groups ==>
      groups[a].entered.Some? && groups[a].terminal.Some? && groups[a].entered.value.sent == groups[a].terminal.value.sent
  }

  method CheckGroups(groups: Groups) returns (blocks: seq<Code>)
    ensures blocks == [] <==> GroupsClean(groups)
  {
    blocks := [];
    var rest := groups.Keys;
    while rest != {}
      invariant rest <= groups.Keys
      invariant blocks == [] <==> forall a :: a in groups && a !in rest ==>
        groups[a].entered.Some? && groups[a].terminal.Some? && groups[a].entered.value.sent == groups[a].terminal.value.sent
      decreases rest
    {
      var a :| a in rest;
      rest := rest - {a};
      if groups[a].entered.None? || groups[a].terminal.None? {
        blocks := blocks + [PhysicalTerminalMissing];
      } else {
        blocks := blocks + Unless(groups[a].entered.value.sent == groups[a].terminal.value.sent, PhysicalSentMismatch);
      }
    }
  }

  lemma InSlot(ps: seq<PhysicalAttempt>, groups: Groups, i: nat)
    requires Grouped(ps, groups) && SlotsDistinct(ps) && i < |ps|
    ensures ps[i].attempt in groups && Slot(groups[ps[i].attempt], PhaseOf(ps[i])) == Some(ps[i])
  {
    assert ps[i].attempt in PhysicalIds(ps);
    var x := Slot(groups[ps[i].attempt], PhaseOf(ps[i])).value;
    assert Holds(ps, ps[i].attempt, PhaseOf(ps[i]), x);
    var j :| 0 <= j < |ps| && ps[j] == x;
    assert SlotOf(ps[i]) == SlotOf(ps[j]);
    assert !(i < j) && !(j < i);
  }

  lemma FilledSlot(ps: seq<PhysicalAttempt>, groups: Groups, a: Name, ph: Phase)
    requires Grouped(ps, groups) && SlotsDistinct(ps) && a in groups
    ensures Filled(ps, (a, ph)) <==> Slot(groups[a], ph).Some?
  {
    hide SlotsDistinct;
    if Filled(ps, (a, ph)) {
      var i :| 0 <= i < |ps| && SlotOf(ps[i]) == (a, ph);
      InSlot(ps, groups, i);
    }
    if Slot(groups[a], ph).Some? {
      assert Holds(ps, a, ph, Slot(groups[a], ph).value);
      var j :| 0 <= j < |ps| && ps[j] == Slot(groups[a], ph).value;
      assert SlotOf(ps[j]) == (a, ph);
    }
  }

  lemma GroupsExactly(ps: seq<PhysicalAttempt>, groups: Groups)
    requires Grouped(ps, groups) && SlotsDistinct(ps)
    ensures GroupsClean(groups) <==> BothPhases(ps) && SentAgree(ps)
  {
    if GroupsClean(groups) { CleanGroupsPaired(ps, groups); }
    if BothPhases(ps) && SentAgree(ps) { PairedGroupsClean(ps, groups); }
  }

  lemma CleanGroupsPaired(ps: seq<PhysicalAttempt>, groups: Groups)
    requires Grouped(ps, groups) && SlotsDistinct(ps) && GroupsClean(groups)
    ensures BothPhases(ps) && SentAgree(ps)
  {
    hide Grouped, SlotsDistinct, Filled;
    forall i | 0 <= i < |ps| ensures Filled(ps, (ps[i].attempt, Entered)) && Filled(ps, (ps[i].attempt, Terminal)) {
      InSlot(ps, groups, i);
      FilledSlot(ps, groups, ps[i].attempt, Entered);
      FilledSlot(ps, groups, ps[i].attempt, Terminal);
    }
    forall i, j | 0 <= i < |ps| && 0 <= j < |ps| && ps[i].attempt == ps[j].attempt ensures ps[i].sent == ps[j].sent {
      InSlot(ps, groups, i);
      InSlot(ps, groups, j);
    }
  }

  lemma PairedGroup(ps: seq<PhysicalAttempt>, groups: Groups, a: Name)
    requires Grouped(ps, groups) && SlotsDistinct(ps) && BothPhases(ps) && SentAgree(ps) && a in groups
    ensures groups[a].entered.Some? && groups[a].terminal.Some? && groups[a].entered.value.sent == groups[a].terminal.value.sent
  {
    assert a in PhysicalIds(ps);
    var i :| 0 <= i < |ps| && ps[i].attempt == a;
    assert Filled(ps, (a, Entered)) && Filled(ps, (a, Terminal));
    hide BothPhases, Filled, SlotsDistinct;
    FilledSlot(ps, groups, a, Entered);
    FilledSlot(ps, groups, a, Terminal);
    var k := SlotIndex(ps, groups, a, Entered);
    var l := SlotIndex(ps, groups, a, Terminal);
  }

  lemma PairedGroupsClean(ps: seq<PhysicalAttempt>, groups: Groups)
    requires Grouped(ps, groups) && SlotsDistinct(ps) && BothPhases(ps) && SentAgree(ps)
    ensures GroupsClean(groups)
  {
    hide Grouped, SlotsDistinct, BothPhases, SentAgree;
    forall a | a in groups
      ensures groups[a].entered.Some? && groups[a].terminal.Some? && groups[a].entered.value.sent == groups[a].terminal.value.sent
    {
      PairedGroup(ps, groups, a);
    }
  }

  lemma SlotIndex(ps: seq<PhysicalAttempt>, groups: Groups, a: Name, ph: Phase) returns (i: nat)
    requires Grouped(ps, groups) && a in groups && Slot(groups[a], ph).Some?
    ensures i < |ps| && ps[i] == Slot(groups[a], ph).value && SlotOf(ps[i]) == (a, ph)
  {
    assert Holds(ps, a, ph, Slot(groups[a], ph).value);
    i :| 0 <= i < |ps| && ps[i] == Slot(groups[a], ph).value;
  }

  // ---- The inventory of attempts ----

  function SnapshotIds(ss: seq<Snapshot>): set<Name> { set i | 0 <= i < |ss| :: ss[i].attempt }

  function AttemptsOf(ss: seq<Snapshot>): seq<Name> { seq(|ss|, i requires 0 <= i < |ss| => ss[i].attempt) }

  ghost predicate SnapshotsDistinct(ss: seq<Snapshot>) {
    forall i, j :: 0 <= i < j < |ss| ==> ss[i].attempt != ss[j].attempt
  }

  /** Snapshots, request events, terminal events and physical records are about the same attempts. */
  ghost predicate SameAttempts(p: Payloads, f: RunFiles) {
    && (forall id :: id in SnapshotIds(f.snapshots) <==> Spoken(p, f.events, false, id))
    && (forall id :: id in SnapshotIds(f.snapshots) <==> Spoken(p, f.events, true, id))
    && SnapshotIds(f.snapshots) == PhysicalIds(f.physical)
  }

  ghost predicate InventoryClean(p: Payloads, f: RunFiles) {
    && AllNamed(p, f.events, false) && AllNamed(p, f.events, true)
    && SnapshotsDistinct(f.snapshots) && OnceEach(p, f.events, false) && OnceEach(p, f.events, true)
    && SameAttempts(p, f)
  }

  lemma SnapshotCount(ss: seq<Snapshot>)
    ensures Elements(AttemptsOf(ss)) == SnapshotIds(ss)
    ensures |AttemptsOf(ss)| == |Elements(AttemptsOf(ss))| <==> SnapshotsDistinct(ss)
  {
    var ids := AttemptsOf(ss);
    SizeDistinct(ids);
    if Distinct(ids) {
      forall i, j | 0 <= i < j < |ss| ensures ss[i].attempt != ss[j].attempt { assert ids[i] != ids[j]; }
    }
    forall id ensures id in Elements(ids) <==> id in SnapshotIds(ss) {
      if id in SnapshotIds(ss) {
        var k :| 0 <= k < |ss| && ss[k].attempt == id;
        assert ids[k] == id;
      }
    }
  }

  lemma NoneLeft(a: set<Name>, b: set<Name>)
    ensures a - b == {} <==> !exists id :: id in a && id !in b
  {
    if a - b != {} {
      var id :| id in a - b;
    }
    if id :| id in a && id !in b {
      assert id in a - b;
    }
  }

  function MismatchCodes(same: bool, noRequestLeft: bool, noTerminalLeft: bool, allOccur: bool, samePhysical: bool, noPhysicalLeft: bool,
    allPhysical: bool): (r: seq<Code>)
    ensures r == [] <==> same && noRequestLeft && noTerminalLeft && allOccur && samePhysical && noPhysicalLeft && allPhysical
    ensures OrphanRequestEvent in r <==> !noRequestLeft
    ensures OrphanTerminalEvent in r <==> !noTerminalLeft
    ensures OrphanPhysicalAttempt in r <==> !noPhysicalLeft
    ensures DuplicateAttemptId !in r && DuplicateRequestEvent !in r && DuplicateTerminalEvent !in r
  {
    var a := Both(same, AttemptSetMismatch, noRequestLeft, OrphanRequestEvent);
    var b := Both(noTerminalLeft, OrphanTerminalEvent, allOccur, AttemptOccurrenceMissing);
    var c := Both(samePhysical, PhysicalInventoryMismatch, noPhysicalLeft, OrphanPhysicalAttempt);
    var d := Unless(allPhysical, AttemptWithoutPhysical);
    hide Both, Unless;
    FourJoined(a, b, c, d);
    (a + b) + (c + d)
  }

  lemma FourJoined(a: seq<Code>, b: seq<Code>, c: seq<Code>, d: seq<Code>)
    ensures forall x :: x in (a + b) + (c + d) <==> x in a || x in b || x in c || x in d
    ensures (a + b) + (c + d) == [] <==> a == [] && b == [] && c == [] && d == []
  {
  }

  function Both(ok: bool, code: Code, also: bool, other: Code): (r: seq<Code>)
    ensures r == [] <==> ok && also
    ensures forall x :: x in r <==> (!ok && x == code) || (!also && x == other)
  {
    Joined(Unless(ok, code), Unless(also, other));
    Unless(ok, code) + Unless(also, other)
  }

  lemma Joined(a: seq<Code>, b: seq<Code>)
    ensures forall x :: x in a + b <==> x in a || x in b
    ensures a + b == [] <==> a == [] && b == []
  {
  }

  /** The comparisons of the four sets of attempt ids. */
  function SetCodes(snapshots: set<Name>, requests: set<Name>, terminals: set<Name>, physical: set<Name>): (r: seq<Code>)
    ensures r == [] <==> snapshots == requests == terminals == physical
    ensures OrphanRequestEvent in r <==> exists id :: id in requests && id !in snapshots
    ensures OrphanTerminalEvent in r <==> exists id :: id in terminals && id !in snapshots
    ensures OrphanPhysicalAttempt in r <==> exists id :: id in physical && id !in snapshots
    ensures DuplicateAttemptId !in r && DuplicateRequestEvent !in r && DuplicateTerminalEvent !in r
  {
    NoneLeft(requests, snapshots);
    NoneLeft(terminals, snapshots);
    NoneLeft(physical, snapshots);
    MismatchCodes(
      snapshots == requests && snapshots == terminals, requests - snapshots == {}, terminals - snapshots == {},
      snapshots - requests == {} && snapshots - terminals == {}, physical == snapshots && physical == requests && physical == terminals,
      physical - snapshots == {}, snapshots - physical == {} && requests - physical == {} && terminals - physical == {})
  }

  function RepeatCodes(snapshots: bool, requests: bool, terminals: bool): (r: seq<Code>)
    ensures r == [] <==> snapshots && requests && terminals
    ensures DuplicateAttemptId in r <==> !snapshots
    ensures DuplicateRequestEvent in r <==> !requests
    ensures DuplicateTerminalEvent in r <==> !terminals
    ensures OrphanRequestEvent !in r && OrphanTerminalEvent !in r && OrphanPhysicalAttempt !in r
  {
    Unless(snapshots, DuplicateAttemptId) + Unless(requests, DuplicateRequestEvent) + Unless(terminals, DuplicateTerminalEvent)
  }

  /** The first half of `_audit_requests`. Every code it adds is added for exactly its own reason. */
  method AuditInventory(p: Payloads, f: RunFiles, groups: Groups)
    returns (blocks: seq<Code>, requestBy: map<Name, nat>, terminalBy: map<Name, nat>, readable: bool)
    requires groups.Keys == PhysicalIds(f.physical)
    ensures blocks == [] <==> InventoryClean(p, f)
    ensures readable <==> AllNamed(p, f.events, false) && AllNamed(p, f.events, true)
    ensures forall id :: id in requestBy <==> Spoken(p, f.events, false, id)
    ensures forall id :: id in requestBy ==> Speaks(p, f.events, false, requestBy[id], id)
    ensures forall id :: id in terminalBy <==> Spoken(p, f.events, true, id)
    ensures forall id :: id in terminalBy ==> Speaks(p, f.events, true, terminalBy[id], id)
    ensures !readable ==> blocks == [MalformedEvidence]
    ensures readable ==> (DuplicateAttemptId in blocks <==> !SnapshotsDistinct(f.snapshots))
    ensures readable ==> (DuplicateRequestEvent in blocks <==> !OnceEach(p, f.events, false))
    ensures readable ==> (DuplicateTerminalEvent in blocks <==> !OnceEach(p, f.events, true))
    ensures readable ==> (OrphanRequestEvent in blocks <==> exists id :: Spoken(p, f.events, false, id) && id !in SnapshotIds(f.snapshots))
    ensures readable ==> (OrphanTerminalEvent in blocks <==> exists id :: Spoken(p, f.events, true, id) && id !in SnapshotIds(f.snapshots))
    ensures readable ==> (OrphanPhysicalAttempt in blocks <==> exists id :: id in PhysicalIds(f.physical) && id !in SnapshotIds(f.snapshots))
  {
    hide AllNamed, Spoken, Speaks, OnceEach, SnapshotsDistinct, Elements;
    var requestsNamed, requestIds, byRequest := IndexAttempts(p, f.events, false);
    var terminalsNamed, terminalIds, byTerminal := IndexAttempts(p, f.events, true);
    requestBy, terminalBy, readable := byRequest, byTerminal, requestsNamed && terminalsNamed;
    if !readable { return [MalformedEvidence], requestBy, terminalBy, readable; }
    SnapshotCount(f.snapshots);
    var snapshotIds := AttemptsOf(f.snapshots);
    var snapshots, requests, terminals, physical := Elements(snapshotIds), Elements(requestIds), Elements(terminalIds), groups.Keys;
    hide SetCodes, RepeatCodes;
    blocks := RepeatCodes(|snapshotIds| == |snapshots|, |requestIds| == |requests|, |terminalIds| == |terminals|)
      + SetCodes(snapshots, requests, terminals, physical);
    SameSets(p, f, snapshots, requests, terminals, physical);
  }

  lemma SameSets(p: Payloads, f: RunFiles, snapshots: set<Name>, requests: set<Name>, terminals: set<Name>, physical: set<Name>)
    requires snapshots == SnapshotIds(f.snapshots) && physical == PhysicalIds(f.physical)
    requires forall id :: id in requests <==> Spoken(p, f.events, false, id)
    requires forall id :: id in terminals <==> Spoken(p, f.events, true, id)
    ensures SameAttempts(p, f) <==> snapshots == requests == terminals == physical
  {
    hide Spoken;
  }

  // ---- Context blocks ----

  /** What a system or task block must say: a public constant of its own place, with the very bytes of the message. */
  ghost predicate PublicClean(c: Codec, f: RunFiles, b: ContextBlock, r: Ref, raw: Blob, content: string) {
    && r.labels == PublicLabel() && raw == Bytes(content)
    && (if b.kind == SystemPrompt
        then b.origin == SystemConstant && r.source == ConfigSource && r.key == ProtocolKey() && r.locator == SystemPromptAt
        else b.origin == TaskConstant(f.run.task) && r.source == PublicTaskSource && r.key == f.run.task && r.locator == InstructionAt)
  }

  /** What the tool result of a finished tool call must say. */
  predicate ToolSays(c: Codec, binding: Option<FileBinding>, e: Event, fields: Fields, raw: Blob, content: string) {
    match At(fields, ToolKey)
    case ToolValue(ReadTool) =>
      raw.Bytes? && binding.Some? && binding.value.readEvent == e.id && e.availableSeq == Some(binding.value.observedSeq)
      && content == ReadContent(Shown(c, At(fields, PathKey)), raw.text)
    case ToolValue(WriteTool) => binding.None? && content == WriteContent()
    case ToolValue(TestTool) => RedumpedOf(c, raw).Some? && binding.None? && content == TestContent(RedumpedOf(c, raw).value)
    case _ => false
  }

  /** What a block must say that quotes the event `e`. */
  ghost predicate QuoteClean(c: Codec, p: Payloads, b: ContextBlock, r: Ref, raw: Blob, content: string, e: Event) {
    && FieldsOf(p, e).Some? && r.labels == EventLabel(e)
    && var fields := FieldsOf(p, e).value;
    if b.kind == AssistantResponse then
      At(fields, ResponseKey).RefValue? && e.kind == ResponseEvent && e.callId.Some? && SameOccurrence(r, At(fields, ResponseKey).ref)
      && ContentOf(c, raw) == Some(content)
    else
      b.kind == ToolResult && e.kind == ToolFinish && At(fields, BodyKey).RefValue? && e.callId == b.toolCall
      && SameOccurrence(r, At(fields, BodyKey).ref) && ToolSays(c, b.binding, e, fields, raw, content)
  }

  /** `_audit_context_block` finds nothing. */
  ghost predicate ContextClean(c: Codec, f: RunFiles, p: Payloads, b: ContextBlock, content: Option<string>) {
    && b.provenance.Some? && b.provenance.value.labels != [] && content.Some?
    && var r := b.provenance.value;
    && Loaded(c, f.blobs, r).Some?
    && var raw := Loaded(c, f.blobs, r).value;
    if b.kind == SystemPrompt || b.kind == TaskInstruction then PublicClean(c, f, b, r, raw, content.value)
    else
      var matches := Visibility.Where(f.events, Visibility.Named(b.origin));
      |matches| == 1 && QuoteClean(c, p, b, r, raw, content.value, matches[0])
  }

  method AuditContext(c: Codec, f: RunFiles, p: Payloads, b: ContextBlock, content: Option<string>) returns (blocks: seq<Code>)
    ensures blocks == [] <==> ContextClean(c, f, p, b, content)
  {
    if b.provenance.None? { return [ContextMismatch]; }
    var r := b.provenance.value;
    var loaded := Loaded(c, f.blobs, r);
    if loaded.None? { return [WrongRunReference]; }
    blocks := Unless(r.labels != [], ContextMismatch);
    if content.None? { return blocks + [ContextMappingMismatch]; }
    if b.kind == SystemPrompt {
      return blocks + Unless(b.origin == SystemConstant && r.source == ConfigSource && r.key == ProtocolKey() && r.locator == SystemPromptAt &&
        loaded.value == Bytes(content.value) && r.labels == PublicLabel(), ContextMismatch);
    }
    if b.kind == TaskInstruction {
      return blocks + Unless(b.origin == TaskConstant(f.run.task) && r.source == PublicTaskSource && r.key == f.run.task &&
        r.locator == InstructionAt && loaded.value == Bytes(content.value) && r.labels == PublicLabel(), ContextMismatch);
    }
    var matches := Visibility.Where(f.events, Visibility.Named(b.origin));
    if |matches| != 1 { return blocks + [ContextMismatch]; }
    var more := AuditQuote(c, p, b, r, loaded.value, content.value, matches[0]);
    return blocks + more;
  }

  method AuditQuote(c: Codec, p: Payloads, b: ContextBlock, r: Ref, raw: Blob, content: string, e: Event) returns (blocks: seq<Code>)
    ensures blocks == [] <==> QuoteClean(c, p, b, r, raw, content, e)
  {
    if FieldsOf(p, e).None? { return [ContextMismatch]; }
    var fields := FieldsOf(p, e).value;
    blocks := Unless(r.labels == EventLabel(e), ContextMismatch);
    if b.kind == AssistantResponse {
      var response := At(fields, ResponseKey);
      return blocks + Unless(response.RefValue? && e.kind == ResponseEvent && e.callId.Some? && SameOccurrence(r, response.ref) &&
        ContentOf(c, raw) == Some(content), ContextMismatch);
    }
    if b.kind != ToolResult || e.kind != ToolFinish { return blocks + [ContextMismatch]; }
    var body := At(fields, BodyKey);
    if !body.RefValue? { return blocks + [ContextMismatch]; }
    if e.callId != b.toolCall || !SameOccurrence(r, body.ref) { return blocks + [ContextMismatch]; }
    return blocks + Unless(ToolSays(c, b.binding, e, fields, raw, content), ContextMismatch);
  }

  /** Block `k` of a snapshot describes message `k` of the sent body. */
  ghost predicate BlockClean(c: Codec, f: RunFiles, p: Payloads, s: Snapshot, k: nat, b: ContextBlock, m: Message) {
    && b.requestId == s.id && b.occurrence == OccurrenceName(s.id, k) && b.pointer == MessageContent(k)
    && m.Message? && m.role == Some(b.role) && m.content.Some? && b.contentHash == c.digest(Bytes(m.content.value))
    && ContextClean(c, f, p, b, m.content)
  }

  ghost predicate ContextsClean(c: Codec, f: RunFiles, run: string, p: Payloads, s: Snapshot, messages: Option<seq<Message>>) {
    s.blocks == [] ||
    (&& messages.Some? && |messages.value| == |s.blocks|
     && Visibility.BuildView(run, s.cutoff, s.before.hash, s.blocks, [], f.events, f.producer, "decision_view_v1", AuditView(s.id)).Accepted?
     && forall k :: 0 <= k < |s.blocks| ==> BlockClean(c, f, p, s, k, s.blocks[k], messages.value[k]))
  }

  method AuditContexts(c: Codec, f: RunFiles, run: string, p: Payloads, s: Snapshot, messages: Option<seq<Message>>) returns (blocks: seq<Code>)
    ensures blocks == [] <==> ContextsClean(c, f, run, p, s, messages)
  {
    hide ContextClean, Visibility.BuildView;
    if s.blocks == [] { return []; }
    if messages.None? || |messages.value| != |s.blocks| { return [ContextMappingMismatch]; }
    var verdict := Visibility.BuildView(run, s.cutoff, s.before.hash, s.blocks, [], f.events, f.producer, "decision_view_v1", AuditView(s.id));
    blocks := if verdict.Rejected? then [NotVisible(verdict.code)] else [];
    for k := 0 to |s.blocks|
      invariant blocks == [] <==> verdict.Accepted? && forall j :: 0 <= j < k ==> BlockClean(c, f, p, s, j, s.blocks[j], messages.value[j])
    {
      var b, m := s.blocks[k], messages.value[k];
      if !m.Message? {
        blocks := blocks + [ContextMappingMismatch];
      } else {
        blocks := blocks + Unless(b.requestId == s.id && b.occurrence == OccurrenceName(s.id, k) && b.pointer == MessageContent(k) &&
          m.role == Some(b.role) && m.content.Some? && b.contentHash == c.digest(Bytes(m.content.value)), ContextMappingMismatch);
        var more := AuditContext(c, f, p, b, m.content);
        blocks := blocks + more;
      }
    }
  }

  // ---- Terminal evidence ----

  ghost predicate FailureClean(c: Codec, f: RunFiles, run: string, s: Snapshot, fields: Fields, physical: Option<Outcome>) {
    && At(fields, ResponseKey).Nil? && At(fields, FailureKey).RefValue? && physical == Some(Excepted(At(fields, FailureKey).ref))
    && At(fields, FailureKey).ref.locator == AttemptPart(s.attempt, FailureBody)
    && RunBlob(c, f.blobs, run, At(fields, FailureKey).ref).Some?
    && At(fields, UsageRefKey).Nil? && At(fields, ProviderRequestKey).Nil?
    && At(fields, UsageKey).FactValue? && At(fields, UsageKey).fact == Fact(None, UnknownFact, Some(TransportReason()), [])
  }

  /** The usage fact is what the response bytes say, or says why it is unknown. */
  ghost predicate UsageClean(usage: Option<Usage>, response: Ref, fields: Fields) {
    && At(fields, UsageKey).FactValue? && ValidFact(At(fields, UsageKey).fact)
    && var fact := At(fields, UsageKey).fact;
    if usage.None? then fact == Fact(None, UnknownFact, Some(NoUsageReason()), []) && At(fields, UsageRefKey).Nil?
    else
      var expected := response.(locator := UsageField);
      At(fields, UsageRefKey) == RefValue(expected) && fact.refs == [expected] && fact.status == Observed && fact.value == usage
  }

  ghost predicate ResponseClean(c: Codec, f: RunFiles, run: string, s: Snapshot, fields: Fields, physical: Option<Outcome>) {
    && At(fields, ResponseKey).RefValue? && At(fields, FailureKey).Nil? && physical == Some(Responded(At(fields, ResponseKey).ref))
    && At(fields, ResponseKey).ref.locator == AttemptPart(s.attempt, ResponseBody)
    && RunBlob(c, f.blobs, run, At(fields, ResponseKey).ref).Some?
    && UsageClean(UsageOf(c, RunBlob(c, f.blobs, run, At(fields, ResponseKey).ref).value), At(fields, ResponseKey).ref, fields)
  }

  ghost predicate TerminalClean(c: Codec, f: RunFiles, run: string, s: Snapshot, kind: EventKind, fields: Fields, physical: Option<Outcome>) {
    if kind == FailureEvent then FailureClean(c, f, run, s, fields, physical) else ResponseClean(c, f, run, s, fields, physical)
  }

  /** `_audit_usage`. */
  method AuditUsage(usage: Option<Usage>, response: Ref, fields: Fields) returns (blocks: seq<Code>)
    ensures blocks == [] <==> UsageClean(usage, response, fields)
  {
    var value := At(fields, UsageKey);
    if !value.FactValue? || !ValidFact(value.fact) { return [MalformedEvidence]; }
    var fact, raw := value.fact, At(fields, UsageRefKey);
    if usage.None? {
      return Unless(fact.status == UnknownFact && fact.value.None? && fact.reason == Some(NoUsageReason()) && fact.refs == [] && raw.Nil?,
        UsageInvented);
    }
    if !raw.RefValue? { return [UsageMismatch]; }
    var expected := response.(locator := UsageField);
    return Unless(raw.ref == expected && fact.refs == [expected] && fact.status == Observed, UsageMismatch)
      + Unless(fact.value == usage, UsageMismatch);
  }

  lemma ReasonsGiven()
    ensures !Blank(TransportReason()) && !Blank(NoUsageReason())
  {
    assert TransportReason()[0] == 't' && NoUsageReason()[0] == 'p';
  }

  /** `_audit_terminal_attempt`. */
  method AuditTerminal(c: Codec, f: RunFiles, run: string, s: Snapshot, kind: EventKind, fields: Fields, physical: Option<Outcome>)
    returns (blocks: seq<Code>)
    ensures blocks == [] <==> TerminalClean(c, f, run, s, kind, fields, physical)
  {
    var response, failure := At(fields, ResponseKey), At(fields, FailureKey);
    ReasonsGiven();
    if kind == FailureEvent {
      blocks := Unless(physical.Some? && physical.value.Excepted?, PhysicalTerminalMismatch);
      if !response.Nil? || !failure.RefValue? {
        blocks := blocks + [FailureEvidenceMissing];
      } else {
        blocks := blocks + Unless(RunBlob(c, f.blobs, run, failure.ref).Some?, WrongRunReference)
          + Unless(failure.ref.locator == AttemptPart(s.attempt, FailureBody), FailureIdentityMismatch)
          + Unless(physical.None? || physical == Some(Excepted(failure.ref)), PhysicalTerminalMismatch);
      }
      blocks := blocks + Unless(At(fields, UsageRefKey).Nil? && At(fields, ProviderRequestKey).Nil?, FailureSemanticsMismatch);
      var usage := At(fields, UsageKey);
      if !usage.FactValue? || !ValidFact(usage.fact) { return blocks + [MalformedEvidence]; }
      return blocks + Unless(usage.fact.status == UnknownFact && usage.fact.value.None? && usage.fact.reason == Some(TransportReason()) &&
        usage.fact.refs == [], FailureSemanticsMismatch);
    }
    if !response.RefValue? || !failure.Nil? { return [ResponseMissing]; }
    var own := RunBlob(c, f.blobs, run, response.ref);
    if own.None? { return [WrongRunReference]; }
    var usage := AuditUsage(UsageOf(c, own.value), response.ref, fields);
    return Unless(response.ref.locator == AttemptPart(s.attempt, ResponseBody), ResponseIdentityMismatch)
      + Unless(physical == Some(Responded(response.ref)), PhysicalTerminalMismatch) + usage;
  }

  // ---- Snapshots ----

  /** A body reference of the snapshot: held, at its own place, and the one the request event names. */
  ghost predicate BodyClean(c: Codec, f: RunFiles, run: string, s: Snapshot, request: Fields, part: Part, key: Key, ref: Option<Ref>) {
    ref.Some? && RunBlob(c, f.blobs, run, ref.value).Some? && ref.value.locator == AttemptPart(s.attempt, part)
    && At(request, key) == RefValue(ref.value)
  }

  method AuditBody(c: Codec, f: RunFiles, run: string, s: Snapshot, request: Fields, part: Part, key: Key, ref: Option<Ref>) returns (blocks: seq<Code>)
    ensures blocks == [] <==> BodyClean(c, f, run, s, request, part, key, ref)
  {
    hide RunBlob, At;
    if ref.None? { return [RequestEvidenceMissing]; }
    var r := ref.value;
    var held, placed, told := RunBlob(c, f.blobs, run, r).Some?, r.locator == AttemptPart(s.attempt, part), At(request, key) == RefValue(r);
    if !held { return [RequestEvidenceMissing]; }
    return Unless(placed, RequestOccurrenceMismatch) + Unless(told, SendBoundaryMismatch);
  }

  /** The messages of the bytes that were sent, when they can be read. */
  function SentMessages(c: Codec, f: RunFiles, run: string, s: Snapshot): Option<seq<Message>> {
    if s.sent.Some? && RunBlob(c, f.blobs, run, s.sent.value).Some? then MessagesOf(c, RunBlob(c, f.blobs, run, s.sent.value).value) else None
  }

  function OutcomeOf(a: Option<PhysicalAttempt>): Option<Outcome> { if a.Some? then Some(a.value.outcome) else None }

  /** The snapshot agrees with its request event, its terminal event and its two physical records. */
  ghost predicate SnapshotClean(c: Codec, f: RunFiles, run: string, p: Payloads, s: Snapshot, request: Event, terminal: Event,
    entered: Option<PhysicalAttempt>, ended: Option<PhysicalAttempt>)
  {
    && s.runId == run && s.producer == f.producer && s.config == f.run.config
    && FieldsOf(p, request).Some? && FieldsOf(p, terminal).Some?
    && var asked, got := FieldsOf(p, request).value, FieldsOf(p, terminal).value;
    && request.callId == Some(s.logicalCall) && terminal.callId == Some(s.logicalCall)
    && At(asked, LogicalKey) == Id(s.logicalCall) && At(got, LogicalKey) == Id(s.logicalCall)
    && BodyClean(c, f, run, s, asked, BeforeBody, BeforeKey, Some(s.before))
    && BodyClean(c, f, run, s, asked, PreparedBody, PreparedKey, s.prepared)
    && BodyClean(c, f, run, s, asked, SentBody, SentKey, s.sent)
    && ContextsClean(c, f, run, p, s, SentMessages(c, f, run, s))
    && (entered.Some? ==> s.sent == Some(entered.value.sent))
    && TerminalClean(c, f, run, s, terminal.kind, got, OutcomeOf(ended))
  }

  /** The body of the snapshot loop, its four counterparts given. */
  method AuditSnapshot(c: Codec, f: RunFiles, run: string, p: Payloads, s: Snapshot, request: Event, terminal: Event,
    entered: Option<PhysicalAttempt>, ended: Option<PhysicalAttempt>) returns (blocks: seq<Code>)
    requires FieldsOf(p, request).Some? && FieldsOf(p, terminal).Some?
    ensures blocks == [] <==> SnapshotClean(c, f, run, p, s, request, terminal, entered, ended)
  {
    hide BodyClean, ContextsClean, TerminalClean, FieldsOf, SentMessages;
    if s.runId != run || s.producer != f.producer { return [WrongRunReference]; }
    var asked, got := FieldsOf(p, request).value, FieldsOf(p, terminal).value;
    var before := AuditBody(c, f, run, s, asked, BeforeBody, BeforeKey, Some(s.before));
    var prepared := AuditBody(c, f, run, s, asked, PreparedBody, PreparedKey, s.prepared);
    var sent := AuditBody(c, f, run, s, asked, SentBody, SentKey, s.sent);
    var contexts := AuditContexts(c, f, run, p, s, SentMessages(c, f, run, s));
    var end := AuditTerminal(c, f, run, s, terminal.kind, got, OutcomeOf(ended));
    return Unless(s.config == f.run.config, ConfigMismatch)
      + Unless(request.callId == Some(s.logicalCall) && terminal.callId == Some(s.logicalCall) &&
               At(asked, LogicalKey) == Id(s.logicalCall) && At(got, LogicalKey) == Id(s.logicalCall), LogicalCallMismatch)
      + before + prepared + sent + contexts + Unless(entered.None? || s.sent == Some(entered.value.sent), PhysicalSentMismatch) + end;
  }

  /** Snapshot `s` and its counterparts: request event `i`, terminal event `j`, physical records `x` and `y`. */
  ghost predicate Counterparts(p: Payloads, f: RunFiles, s: Snapshot, i: nat, j: nat, x: nat, y: nat) {
    && i < |f.events| && j < |f.events| && Speaks(p, f.events, false, i, s.attempt) && Speaks(p, f.events, true, j, s.attempt)
    && x < |f.physical| && y < |f.physical|
    && SlotOf(f.physical[x]) == (s.attempt, Entered) && SlotOf(f.physical[y]) == (s.attempt, Terminal)
  }

  ghost predicate Corresponds(c: Codec, f: RunFiles, run: string, p: Payloads, s: Snapshot) {
    exists i: nat, j: nat, x: nat, y: nat :: Counterparts(p, f, s, i, j, x, y)
      && SnapshotClean(c, f, run, p, s, f.events[i], f.events[j], Some(f.physical[x]), Some(f.physical[y]))
  }

  ghost predicate RequestsClean(c: Codec, f: RunFiles, run: string, p: Payloads) {
    && InventoryClean(p, f) && PhysicalClean(c, f, run)
    && forall k :: 0 <= k < |f.snapshots| ==> Corresponds(c, f, run, p, f.snapshots[k])
  }

  lemma SlotUnique(ps: seq<PhysicalAttempt>, i: nat, j: nat)
    requires SlotsDistinct(ps) && i < |ps| && j < |ps| && SlotOf(ps[i]) == SlotOf(ps[j])
    ensures i == j
  {
    assert !(i < j) && !(j < i);
  }

  /** With a clean inventory the counterparts of a snapshot are unique. */
  lemma CounterpartsUnique(c: Codec, f: RunFiles, run: string, p: Payloads, s: Snapshot, i: nat, j: nat, x: nat, y: nat)
    requires InventoryClean(p, f) && PhysicalClean(c, f, run) && Counterparts(p, f, s, i, j, x, y)
    ensures Corresponds(c, f, run, p, s) <==> SnapshotClean(c, f, run, p, s, f.events[i], f.events[j], Some(f.physical[x]), Some(f.physical[y]))
  {
    hide SnapshotClean, Speaks, PhysicalSound, AllNamed, SameAttempts, BothPhases, SentAgree;
    if Corresponds(c, f, run, p, s) {
      var i2: nat, j2: nat, x2: nat, y2: nat :| Counterparts(p, f, s, i2, j2, x2, y2)
        && SnapshotClean(c, f, run, p, s, f.events[i2], f.events[j2], Some(f.physical[x2]), Some(f.physical[y2]));
      assert i2 == i && j2 == j;
      SlotUnique(f.physical, x, x2);
      SlotUnique(f.physical, y, y2);
    }
  }

  lemma CounterpartsFound(c: Codec, f: RunFiles, run: string, p: Payloads, groups: Groups, s: Snapshot, i: nat, j: nat) returns (x: nat, y: nat)
    requires InventoryClean(p, f) && PhysicalClean(c, f, run) && Grouped(f.physical, groups) && s in f.snapshots
    requires Speaks(p, f.events, false, i, s.attempt) && Speaks(p, f.events, true, j, s.attempt)
    ensures Counterparts(p, f, s, i, j, x, y) && s.attempt in groups
    ensures groups[s.attempt] == Group(Some(f.physical[x]), Some(f.physical[y]))
  {
    hide SnapshotClean, Speaks, PhysicalSound, AllNamed, SentAgree, OnceEach, Filled;
    assert s.attempt in SnapshotIds(f.snapshots) && s.attempt in PhysicalIds(f.physical);
    var k :| 0 <= k < |f.physical| && f.physical[k].attempt == s.attempt;
    FilledSlot(f.physical, groups, s.attempt, Entered);
    FilledSlot(f.physical, groups, s.attempt, Terminal);
    SpeaksFields(p, f.events, false, i, s.attempt);
    SpeaksFields(p, f.events, true, j, s.attempt);
    x := SlotIndex(f.physical, groups, s.attempt, Entered);
    y := SlotIndex(f.physical, groups, s.attempt, Terminal);
  }

  lemma SpeaksFields(p: Payloads, events: seq<Event>, terminal: bool, i: nat, id: Name)
    requires Speaks(p, events, terminal, i, id)
    ensures i < |events| && FieldsOf(p, events[i]).Some?
  {
  }

  /** With a clean inventory every snapshot finds its counterparts in the three dictionaries. */
  lemma SnapshotPlaced(c: Codec, f: RunFiles, run: string, p: Payloads, groups: Groups, requestBy: map<Name, nat>, terminalBy: map<Name, nat>, k: nat)
    requires InventoryClean(p, f) && PhysicalClean(c, f, run) && Grouped(f.physical, groups) && k < |f.snapshots|
    requires forall id :: id in requestBy <==> Spoken(p, f.events, false, id)
    requires forall id :: id in requestBy ==> Speaks(p, f.events, false, requestBy[id], id)
    requires forall id :: id in terminalBy <==> Spoken(p, f.events, true, id)
    requires forall id :: id in terminalBy ==> Speaks(p, f.events, true, terminalBy[id], id)
    ensures var id := f.snapshots[k].attempt;
      && id in requestBy && id in terminalBy && id in groups && requestBy[id] < |f.events| && terminalBy[id] < |f.events|
      && (Corresponds(c, f, run, p, f.snapshots[k]) <==>
          SnapshotClean(c, f, run, p, f.snapshots[k], f.events[requestBy[id]], f.events[terminalBy[id]], groups[id].entered, groups[id].terminal))
  {
    hide PhysicalClean, Grouped, Corresponds, SnapshotClean, Speaks, Spoken, AllNamed, OnceEach, SnapshotsDistinct;
    var s := f.snapshots[k];
    assert s.attempt in SnapshotIds(f.snapshots);
    SpeaksFields(p, f.events, false, requestBy[s.attempt], s.attempt);
    SpeaksFields(p, f.events, true, terminalBy[s.attempt], s.attempt);
    var x, y := CounterpartsFound(c, f, run, p, groups, s, requestBy[s.attempt], terminalBy[s.attempt]);
    CounterpartsUnique(c, f, run, p, s, requestBy[s.attempt], terminalBy[s.attempt], x, y);
  }

  /** `_audit_requests`. */
  method AuditRequests(c: Codec, f: RunFiles, run: string, p: Payloads) returns (blocks: seq<Code>)
    ensures blocks == [] <==> RequestsClean(c, f, run, p)
  {
    hide InventoryClean, PhysicalClean, Corresponds, SnapshotClean, Speaks, PhysicalIds, AllNamed, OnceEach, SnapshotsDistinct;
    var physical, groups := IndexPhysical(c, f, run);
    assert groups.Keys == PhysicalIds(f.physical);
    hide Grouped;
    var inventory, requestBy, terminalBy, readable := AuditInventory(p, f, groups);
    if !readable { return inventory; }
    blocks := inventory + physical;
    ghost var clean := blocks == [];
    for k := 0 to |f.snapshots|
      invariant blocks == [] <==> clean && forall j :: 0 <= j < k ==> Corresponds(c, f, run, p, f.snapshots[j])
    {
      var s := f.snapshots[k];
      if clean { SnapshotPlaced(c, f, run, p, groups, requestBy, terminalBy, k); }
      if s.attempt in requestBy && s.attempt in terminalBy {
        SpeaksFields(p, f.events, false, requestBy[s.attempt], s.attempt);
        SpeaksFields(p, f.events, true, terminalBy[s.attempt], s.attempt);
        var group := if s.attempt in groups then groups[s.attempt] else Group(None, None);
        var more := AuditSnapshot(c, f, run, p, s, f.events[requestBy[s.attempt]], f.events[terminalBy[s.attempt]], group.entered, group.terminal);
        blocks := blocks + more;
      } else {
        blocks := blocks + [AttemptOccurrenceMissing];
      }
    }
  }

  // ---- Tool calls and file bindings ----

  function CallsOf(events: seq<Event>, kind: EventKind): seq<Option<Name>> {
    if events == [] then [] else (if events[0].kind == kind then [events[0].callId] else []) + CallsOf(events[1..], kind)
  }

  /** Every tool call starts once and finishes once. */
  ghost predicate ToolsClean(events: seq<Event>) {
    var starts, finishes := CallsOf(events, ToolStart), CallsOf(events, ToolFinish);
    None !in starts && None !in finishes && multiset(starts) == multiset(finishes) && Distinct(starts) && Distinct(finishes)
  }

  /** Event `i` is the tool result a binding names. */
  ghost predicate BindingClean(c: Codec, f: RunFiles, run: string, p: Payloads, b: FileBinding, i: nat) {
    && i < |f.events| && f.events[i].kind == ToolFinish && f.events[i].id == b.readEvent && FieldsOf(p, f.events[i]).Some?
    && var e, fields := f.events[i], FieldsOf(p, f.events[i]).value;
    && At(fields, CompleteKey) == Flag(true) && At(fields, BodyKey).RefValue?
    && var r := At(fields, BodyKey).ref;
    && RunBlob(c, f.blobs, run, r).Some? && e.callId.Some? && r.locator == ToolBody(e.callId.value)
    && b.observedSeq == e.number && e.availableSeq == Some(b.observedSeq)
    && c.digest(RunBlob(c, f.blobs, run, r).value) == b.sha && At(fields, ShaKey) == Words(b.sha) && At(fields, PathKey) == Words(b.path)
  }

  ghost predicate HasTool(c: Codec, f: RunFiles, run: string, p: Payloads, b: FileBinding) {
    exists i: nat :: BindingClean(c, f, run, p, b, i)
  }

  ghost predicate BindingsClean(c: Codec, f: RunFiles, run: string, p: Payloads) {
    && ToolsClean(f.events) && f.finalFiles == f.bindings
    && (forall i, j :: 0 <= i < j < |f.bindings| ==> f.bindings[i].readEvent != f.bindings[j].readEvent)
    && (forall k :: 0 <= k < |f.bindings| ==> HasTool(c, f, run, p, f.bindings[k]))
  }

  predicate AllOnce<T(==)>(s: seq<T>) { forall x :: x in s ==> multiset(s)[x] == 1 }

  lemma {:induction false} OnceDistinct<T>(s: seq<T>)
    ensures AllOnce(s) <==> Distinct(s)
  {
    if Distinct(s) {
      forall x | x in s ensures multiset(s)[x] == 1 { DistinctOnce(s, x); }
    }
    if AllOnce(s) {
      forall i, j | 0 <= i < j < |s| ensures s[i] != s[j] { if s[i] == s[j] { CountedTwice(s, i, j); } }
    }
  }

  /** The pairing half of `_audit_file_bindings`. */
  method AuditTools(events: seq<Event>) returns (blocks: seq<Code>)
    ensures blocks == [] <==> ToolsClean(events)
  {
    var starts := Calls(events, ToolStart);
    var finishes := Calls(events, ToolFinish);
    OnceDistinct(starts);
    OnceDistinct(finishes);
    return Unless(None !in starts && None !in finishes && multiset(starts) == multiset(finishes), ToolIncomplete)
      + Unless(AllOnce(starts) && AllOnce(finishes), ToolDuplicate);
  }

  method Calls(events: seq<Event>, kind: EventKind) returns (calls: seq<Option<Name>>)
    ensures calls == CallsOf(events, kind)
  {
    calls := [];
    for i := 0 to |events|
      invariant calls + CallsOf(events[i..], kind) == CallsOf(events, kind)
    {
      assert events[i..][0] == events[i] && events[i..][1..] == events[i + 1..];
      if events[i].kind == kind {
        assert calls + ([events[i].callId] + CallsOf(events[i + 1..], kind)) == (calls + [events[i].callId]) + CallsOf(events[i + 1..], kind);
        calls := calls + [events[i].callId];
      }
    }
  }

  /** `{event.id: ... for finished tool events}`; with distinct event ids it finds the one event. */
  method IndexFinishes(events: seq<Event>) returns (byId: map<Name, nat>)
    ensures forall id :: id in byId ==> byId[id] < |events| && events[byId[id]].kind == ToolFinish && events[byId[id]].id == id
    ensures forall i :: 0 <= i < |events| && events[i].kind == ToolFinish ==> events[i].id in byId
  {
    byId := map[];
    for i := 0 to |events|
      invariant forall id :: id in byId ==> byId[id] < i && events[byId[id]].kind == ToolFinish && events[byId[id]].id == id
      invariant forall k :: 0 <= k < i && events[k].kind == ToolFinish ==> events[k].id in byId
    {
      if events[i].kind == ToolFinish { byId := byId[events[i].id := i]; }
    }
  }

  ghost predicate IdsDistinct(events: seq<Event>) {
    forall i, j :: 0 <= i < j < |events| ==> events[i].id != events[j].id
  }

  method AuditBinding(c: Codec, f: RunFiles, run: string, p: Payloads, b: FileBinding, byId: map<Name, nat>) returns (blocks: seq<Code>)
    requires forall id :: id in byId ==> byId[id] < |f.events| && f.events[byId[id]].kind == ToolFinish && f.events[byId[id]].id == id
    requires forall i :: 0 <= i < |f.events| && f.events[i].kind == ToolFinish ==> f.events[i].id in byId
    ensures IdsDistinct(f.events) ==> (blocks == [] <==> HasTool(c, f, run, p, b))
  {
    if b.readEvent !in byId { return [BindingMismatch]; }
    var i := byId[b.readEvent];
    forall k | IdsDistinct(f.events) && BindingClean(c, f, run, p, b, k) ensures k == i {
      assert !(k < i) && !(i < k);
    }
    var e := f.events[i];
    if FieldsOf(p, e).None? { return [BindingMismatch]; }
    var fields := FieldsOf(p, e).value;
    if At(fields, CompleteKey) != Flag(true) || !At(fields, BodyKey).RefValue? { return [BindingMismatch]; }
    var r := At(fields, BodyKey).ref;
    var own := RunBlob(c, f.blobs, run, r);
    if own.None? { return [WrongRunReference]; }
    blocks := Unless(e.callId.Some? && r.locator == ToolBody(e.callId.value), BindingMismatch)
      + Unless(b.observedSeq == e.number && e.availableSeq == Some(b.observedSeq), BindingMismatch)
      + Unless(c.digest(own.value) == b.sha && At(fields, ShaKey) == Words(b.sha), BindingMismatch)
      + Unless(At(fields, PathKey) == Words(b.path), BindingMismatch);
    assert blocks == [] <==> BindingClean(c, f, run, p, b, i);
  }

  function BindingEvents(bs: seq<FileBinding>): seq<Name> { seq(|bs|, i requires 0 <= i < |bs| => bs[i].readEvent) }

  /** `_audit_file_bindings`. */
  method AuditBindings(c: Codec, f: RunFiles, run: string, p: Payloads) returns (blocks: seq<Code>)
    ensures IdsDistinct(f.events) ==> (blocks == [] <==> BindingsClean(c, f, run, p))
  {
    hide ToolsClean, HasTool;
    var tools := AuditTools(f.events);
    var byId := IndexFinishes(f.events);
    var named := BindingEvents(f.bindings);
    BindingsNamed(f.bindings);
    blocks := tools + Unless(|Elements(named)| == |named|, BindingDuplicate) + Unless(f.finalFiles == f.bindings, FinalBindingsMismatch);
    ghost var early := blocks;
    for k := 0 to |f.bindings|
      invariant IdsDistinct(f.events) ==>
        (blocks == [] <==> early == [] && forall j :: 0 <= j < k ==> HasTool(c, f, run, p, f.bindings[j]))
    {
      var more := AuditBinding(c, f, run, p, f.bindings[k], byId);
      blocks := blocks + more;
    }
  }

  lemma BindingsNamed(bs: seq<FileBinding>)
    ensures |Elements(BindingEvents(bs))| == |BindingEvents(bs)| <==> forall i, j :: 0 <= i < j < |bs| ==> bs[i].readEvent != bs[j].readEvent
  {
    var names := BindingEvents(bs);
    SizeDistinct(names);
    if Distinct(names) {
      forall i, j | 0 <= i < j < |bs| ensures bs[i].readEvent != bs[j].readEvent { assert names[i] != names[j]; }
    }
  }

  // ---- The whole audit ----

  function UsageAt(p: Payloads, e: Event): Option<UsageFact> {
    if FieldsOf(p, e).Some? && At(FieldsOf(p, e).value, UsageKey).FactValue? && ValidFact(At(FieldsOf(p, e).value, UsageKey).fact)
    then Some(At(FieldsOf(p, e).value, UsageKey).fact) else None
  }

  ghost function TerminalIndex(p: Payloads, events: seq<Event>, id: Name): int
    requires Spoken(p, events, true, id)
  {
    var j :| Speaks(p, events, true, j, id);
    j
  }

  /** The usage fact in the terminal event of an attempt, where there is a valid one. */
  ghost function UsageFor(p: Payloads, events: seq<Event>, id: Name): Option<UsageFact> {
    if Spoken(p, events, true, id) then UsageAt(p, events[TerminalIndex(p, events, id)]) else None
  }

  ghost function UsagesOf(p: Payloads, f: RunFiles): map<Name, UsageFact> {
    map id | id in SnapshotIds(f.snapshots) && UsageFor(p, f.events, id).Some? :: UsageFor(p, f.events, id).value
  }

  /** Everything the audit demands of a run. */
  ghost predicate RunClean(c: Codec, f: RunFiles, run: string) {
    && LogClean(c, f, run)
    && var p := PayloadsOf(c, f, run);
    && RequestsClean(c, f, run, p) && BindingsClean(c, f, run, p)
    && LedgerClean(SnapshotIds(f.snapshots), UsagesOf(p, f), f.entries, f.aggregate)
  }

  /** The usage facts the ledger audit works from. */
  method TerminalUsages(p: Payloads, f: RunFiles) returns (usages: map<Name, UsageFact>)
    ensures OnceEach(p, f.events, true) ==> usages == UsagesOf(p, f)
  {
    var named, ids, byId := IndexAttempts(p, f.events, true);
    usages := map id | id in SnapshotIds(f.snapshots) && id in byId && UsageAt(p, f.events[byId[id]]).Some? ::
      UsageAt(p, f.events[byId[id]]).value;
    if OnceEach(p, f.events, true) { UsagesSame(p, f, byId, usages); }
  }

  lemma UsagesSame(p: Payloads, f: RunFiles, byId: map<Name, nat>, usages: map<Name, UsageFact>)
    requires OnceEach(p, f.events, true)
    requires forall id :: id in byId <==> Spoken(p, f.events, true, id)
    requires forall id :: id in byId ==> byId[id] < |f.events| && Speaks(p, f.events, true, byId[id], id)
    requires usages == map id | id in SnapshotIds(f.snapshots) && id in byId && UsageAt(p, f.events[byId[id]]).Some? ::
      UsageAt(p, f.events[byId[id]]).value
    ensures usages == UsagesOf(p, f)
  {
    hide SnapshotIds, UsageAt, Speaks, Spoken;
    forall id ensures UsageFor(p, f.events, id) == if id in byId then UsageAt(p, f.events[byId[id]]) else None {
      if id in byId { assert Speaks(p, f.events, true, byId[id], id) && Speaks(p, f.events, true, TerminalIndex(p, f.events, id), id); }
    }
    hide OnceEach, UsageFor;
    assert forall id :: id in usages <==> id in UsagesOf(p, f);
  }

  function LedgerCodes(blocks: seq<UsageLedger.Block>): (r: seq<Code>)
    ensures r == [] <==> blocks == []
  {
    seq(|blocks|, i requires 0 <= i < |blocks| => Ledger(blocks[i]))
  }

  /** The audit of the log, the requests, the bindings and the ledger: nothing is reported exactly when they are clean,
      whatever is stored. What the payloads say goes on to the audit of the decision views. */
  method AuditRun(c: Codec, f: RunFiles, run: string) returns (blocks: seq<Code>, p: Payloads)
    ensures blocks == [] <==> RunClean(c, f, run)
    ensures blocks == [] ==> p == PayloadsOf(c, f, run)
  {
    hide RequestsClean, BindingsClean, LedgerClean;
    var log;
    log, p := AuditLog(c, f, run);
    var requests := AuditRequests(c, f, run, p);
    var bindings := AuditBindings(c, f, run, p);
    var usages := TerminalUsages(p, f);
    var ledger := AuditUsageLedger(SnapshotIds(f.snapshots), usages, f.entries, f.aggregate);
    if log == [] {
      assert IdsDistinct(f.events) by { forall i | 0 <= i < |f.events| ensures f.events[i].id == EventName(run, i) { assert EventClean(c, f, run, f.events[i]); } }
      if requests == [] { assert OnceEach(p, f.events, true) by { RequestsOnce(c, f, run, p); } }
    }
    blocks := log + requests + bindings + LedgerCodes(ledger);
  }

  lemma RequestsOnce(c: Codec, f: RunFiles, run: string, p: Payloads)
    requires RequestsClean(c, f, run, p)
    ensures OnceEach(p, f.events, true)
  {
    hide PhysicalClean, Corresponds, OnceEach;
  }

  // ---- What a clean audit guarantees, whatever is stored ----

  /** The payload stored for an event is this JSON object: evidence of this run, held under its hash. */
  ghost predicate HoldsFields(c: Codec, f: RunFiles, run: string, e: Event, fields: Fields) {
    && e.payload.source == RuntimeSource && e.payload.key == run && e.payload.hash in f.blobs
    && c.digest(f.blobs[e.payload.hash]) == e.payload.hash
    && match f.blobs[e.payload.hash]
       case PayloadBytes(own) => own == fields
       case ManifestBytes(own) => own == fields
       case Bytes(text) => c.parse(text) == Object(fields)
       case b => c.document(b) == Object(fields)
  }

  /** What the audit takes an event to say is what is stored for it. */
  lemma PayloadExactly(c: Codec, f: RunFiles, run: string, i: nat, fields: Fields)
    requires LogClean(c, f, run) && i < |f.events|
    ensures f.events[i].number == i
    ensures FieldsOf(PayloadsOf(c, f, run), f.events[i]) == Some(fields) <==> HoldsFields(c, f, run, f.events[i], fields)
  {
    ParsedExactly(c, f, run, f.events[i], fields);
    hide PayloadOf, HoldsFields, EventClean, RunBlob;
  }

  lemma ParsedExactly(c: Codec, f: RunFiles, run: string, e: Event, fields: Fields)
    ensures PayloadOf(c, f, run, e) == Object(fields) <==> HoldsFields(c, f, run, e, fields)
  {
  }

  /** Event `i` is of one of these kinds and its payload names this attempt. */
  ghost predicate Names(p: Payloads, f: RunFiles, kinds: set<EventKind>, i: int, id: Name) {
    && 0 <= i < |f.events| && f.events[i].kind in kinds && f.events[i].number in p && p[f.events[i].number].Object?
    && AttemptIdKey in p[f.events[i].number].fields && p[f.events[i].number].fields[AttemptIdKey] == Id(id)
  }

  lemma NamesExactly(p: Payloads, f: RunFiles, i: int, id: Name)
    ensures Speaks(p, f.events, false, i, id) <==> Names(p, f, {RequestEvent}, i, id)
    ensures Speaks(p, f.events, true, i, id) <==> Names(p, f, {ResponseEvent, FailureEvent}, i, id)
  {
  }

  /** Snapshot `s`, request event `i`, terminal event `j` and physical records `x` and `y` tell one story: they name its
      attempt, the same sent bytes everywhere, and a terminal event of the kind the physical boundary observed. */
  ghost predicate OneStory(p: Payloads, f: RunFiles, s: Snapshot, i: nat, j: nat, x: nat, y: nat) {
    && Names(p, f, {RequestEvent}, i, s.attempt) && Names(p, f, {ResponseEvent, FailureEvent}, j, s.attempt)
    && x < |f.physical| && f.physical[x].attempt == s.attempt && f.physical[x].outcome.OnlyEntered?
    && y < |f.physical| && f.physical[y].attempt == s.attempt && !f.physical[y].outcome.OnlyEntered?
    && s.sent == Some(f.physical[x].sent) && s.sent == Some(f.physical[y].sent)
    && SentKey in p[f.events[i].number].fields && p[f.events[i].number].fields[SentKey] == RefValue(f.physical[x].sent)
    && (f.events[j].kind == FailureEvent ==> f.physical[y].outcome.Excepted?)
    && (f.events[j].kind == ResponseEvent ==> f.physical[y].outcome.Responded?)
  }

  /** No other event or physical record is about the attempt. */
  ghost predicate NoOther(p: Payloads, f: RunFiles, id: Name, i: nat, j: nat, x: nat, y: nat) {
    && (forall k :: Names(p, f, {RequestEvent}, k, id) ==> k == i)
    && (forall k :: Names(p, f, {ResponseEvent, FailureEvent}, k, id) ==> k == j)
    && (forall k :: 0 <= k < |f.physical| && f.physical[k].attempt == id ==> k == if f.physical[k].outcome.OnlyEntered? then x else y)
  }

  /** Every snapshot has exactly one request event, one terminal event, one entered and one terminal physical record. */
  lemma SnapshotHasOneStory(c: Codec, f: RunFiles, run: string, p: Payloads, k: nat)
    requires RequestsClean(c, f, run, p) && k < |f.snapshots|
    ensures exists i: nat, j: nat, x: nat, y: nat :: OneStory(p, f, f.snapshots[k], i, j, x, y) && NoOther(p, f, f.snapshots[k].attempt, i, j, x, y)
  {
    var s := f.snapshots[k];
    assert Corresponds(c, f, run, p, s);
    var i: nat, j: nat, x: nat, y: nat :| Counterparts(p, f, s, i, j, x, y)
      && SnapshotClean(c, f, run, p, s, f.events[i], f.events[j], Some(f.physical[x]), Some(f.physical[y]));
    CleanTellsStory(c, f, run, p, s, i, j, x, y);
    hide Corresponds, SnapshotClean, OneStory;
    CleanHasNoOther(c, f, run, p, s, i, j, x, y);
  }

  lemma CleanHasNoOther(c: Codec, f: RunFiles, run: string, p: Payloads, s: Snapshot, i: nat, j: nat, x: nat, y: nat)
    requires RequestsClean(c, f, run, p) && Counterparts(p, f, s, i, j, x, y)
    ensures NoOther(p, f, s.attempt, i, j, x, y)
  {
    hide RequestsClean, Names, Speaks, SlotOf;
    CleanOnce(c, f, run, p);
    hide OnceEach, SlotsDistinct;
    OnlyEvents(p, f, s.attempt, i, j);
    OnlyRecords(f.physical, s.attempt, x, y);
  }

  lemma CleanOnce(c: Codec, f: RunFiles, run: string, p: Payloads)
    requires RequestsClean(c, f, run, p)
    ensures OnceEach(p, f.events, false) && OnceEach(p, f.events, true) && SlotsDistinct(f.physical)
  {
    hide Corresponds, OnceEach, SlotsDistinct, AllNamed, SameAttempts, SnapshotsDistinct, PhysicalSound, BothPhases, SentAgree;
  }

  lemma OnlyEvents(p: Payloads, f: RunFiles, id: Name, i: nat, j: nat)
    requires OnceEach(p, f.events, false) && OnceEach(p, f.events, true) && Speaks(p, f.events, false, i, id) && Speaks(p, f.events, true, j, id)
    ensures forall k :: Names(p, f, {RequestEvent}, k, id) ==> k == i
    ensures forall k :: Names(p, f, {ResponseEvent, FailureEvent}, k, id) ==> k == j
  {
    hide Speaks, Names;
    forall k | Names(p, f, {RequestEvent}, k, id) ensures k == i { NamesExactly(p, f, k, id); }
    forall k | Names(p, f, {ResponseEvent, FailureEvent}, k, id) ensures k == j { NamesExactly(p, f, k, id); }
  }

  lemma OnlyRecords(ps: seq<PhysicalAttempt>, id: Name, x: nat, y: nat)
    requires SlotsDistinct(ps) && x < |ps| && y < |ps| && SlotOf(ps[x]) == (id, Entered) && SlotOf(ps[y]) == (id, Terminal)
    ensures forall k :: 0 <= k < |ps| && ps[k].attempt == id ==> k == if ps[k].outcome.OnlyEntered? then x else y
  {
    forall k | 0 <= k < |ps| && ps[k].attempt == id ensures k == if ps[k].outcome.OnlyEntered? then x else y {
      SlotUnique(ps, k, if ps[k].outcome.OnlyEntered? then x else y);
    }
  }

  lemma CleanTellsStory(c: Codec, f: RunFiles, run: string, p: Payloads, s: Snapshot, i: nat, j: nat, x: nat, y: nat)
    requires PhysicalClean(c, f, run) && Counterparts(p, f, s, i, j, x, y)
    requires SnapshotClean(c, f, run, p, s, f.events[i], f.events[j], Some(f.physical[x]), Some(f.physical[y]))
    ensures OneStory(p, f, s, i, j, x, y)
  {
    hide ContextsClean, UsageClean, PhysicalSound, SlotsDistinct, BothPhases;
    NamesExactly(p, f, i, s.attempt);
    NamesExactly(p, f, j, s.attempt);
  }

  ghost predicate HasSnapshot(f: RunFiles, id: Name) { exists k :: 0 <= k < |f.snapshots| && f.snapshots[k].attempt == id }

  /** Event `i` is a request or terminal event with an object payload. */
  ghost predicate AboutAttempt(p: Payloads, f: RunFiles, i: int) {
    && 0 <= i < |f.events| && f.events[i].kind in {RequestEvent, ResponseEvent, FailureEvent} && f.events[i].number in p && p[f.events[i].number].Object?
  }

  /** Conversely no request event, terminal event with an object payload, or physical record stands alone: each names the
      attempt of a snapshot, and no two snapshots share one. */
  lemma NoRecordAlone(c: Codec, f: RunFiles, run: string, p: Payloads)
    requires RequestsClean(c, f, run, p)
    ensures forall i :: AboutAttempt(p, f, i) ==> exists id :: Names(p, f, {RequestEvent, ResponseEvent, FailureEvent}, i, id) && HasSnapshot(f, id)
    ensures forall x :: 0 <= x < |f.physical| ==> HasSnapshot(f, f.physical[x].attempt)
    ensures forall k, l :: 0 <= k < l < |f.snapshots| ==> f.snapshots[k].attempt != f.snapshots[l].attempt
  {
    hide PhysicalClean, Corresponds, OnceEach;
    forall id | id in SnapshotIds(f.snapshots) ensures HasSnapshot(f, id) {
      var k :| 0 <= k < |f.snapshots| && f.snapshots[k].attempt == id;
    }
    forall i | AboutAttempt(p, f, i) ensures exists id :: Names(p, f, {RequestEvent, ResponseEvent, FailureEvent}, i, id) && HasSnapshot(f, id) {
      var terminal := f.events[i].kind != RequestEvent;
      assert TakesPart(p, terminal, f.events[i]);
      assert AttemptValue(p, f.events[i]).Id?;
      assert Speaks(p, f.events, terminal, i, AttemptValue(p, f.events[i]).name);
      assert Names(p, f, {RequestEvent, ResponseEvent, FailureEvent}, i, AttemptValue(p, f.events[i]).name);
    }
    forall x | 0 <= x < |f.physical| ensures HasSnapshot(f, f.physical[x].attempt) {
      assert f.physical[x].attempt in PhysicalIds(f.physical);
    }
  }

  /** The content is what the model answered: that of the response stored for this event. */
  ghost predicate QuotesResponse(c: Codec, b: ContextBlock, e: Event, fields: Fields, raw: Blob, content: string)
    requires b.provenance.Some?
  {
    && e.kind == ResponseEvent && ResponseKey in fields && fields[ResponseKey].RefValue? && fields[ResponseKey].ref.hash == b.provenance.value.hash
    && raw.Bytes? && c.content(raw.text) == Some(content)
  }

  /** The path as the message names it. */
  ghost function PathShown(c: Codec, fields: Fields): string {
    if PathKey !in fields then c.shown(Nil) else if fields[PathKey].Words? then fields[PathKey].text else c.shown(fields[PathKey])
  }

  /** The content is what the tool of this event gave: the text read, that it was written, or what the test answered. */
  ghost predicate QuotesTool(c: Codec, b: ContextBlock, e: Event, fields: Fields, raw: Blob, content: string)
    requires b.provenance.Some?
  {
    && e.kind == ToolFinish && e.callId == b.toolCall && BodyKey in fields && fields[BodyKey].RefValue? && fields[BodyKey].ref.hash == b.provenance.value.hash
    && ToolKey in fields
    && (|| (fields[ToolKey] == ToolValue(ReadTool) && raw.Bytes? && content == "TOOL RESULT read_file " + PathShown(c, fields) + ":\n" + raw.text &&
            b.binding.Some? && b.binding.value.readEvent == e.id && e.availableSeq == Some(b.binding.value.observedSeq))
        || (fields[ToolKey] == ToolValue(WriteTool) && b.binding.None? && content == "TOOL RESULT write_file completed")
        || (fields[ToolKey] == ToolValue(TestTool) && b.binding.None? && raw.Bytes? && c.redumped(raw.text).Some? &&
            content == "TOOL RESULT run_test: " + c.redumped(raw.text).value))
  }

  /** Where the text of a sent message comes from: a public constant of its own place, or an event of this run that was
      available to the request. */
  ghost predicate Sourced(c: Codec, f: RunFiles, run: string, p: Payloads, s: Snapshot, b: ContextBlock, content: string) {
    && b.provenance.Some? && b.provenance.value.hash in f.blobs && c.digest(f.blobs[b.provenance.value.hash]) == b.provenance.value.hash
    && var raw, r := f.blobs[b.provenance.value.hash], b.provenance.value;
    match b.kind
    case SystemPrompt => raw == Bytes(content) && r.source == ConfigSource && r.key == "deepseek_command_protocol_v1" && r.locator == SystemPromptAt
    case TaskInstruction => raw == Bytes(content) && r.source == PublicTaskSource && r.key == f.run.task && r.locator == InstructionAt
    case _ =>
      exists j ::
        && 0 <= j < |f.events| && f.events[j].id == b.origin && f.events[j].runId == run
        && f.events[j].availableSeq.Some? && f.events[j].availableSeq.value <= s.cutoff
        && f.events[j].number in p && p[f.events[j].number].Object?
        && (if b.kind == AssistantResponse then QuotesResponse(c, b, f.events[j], p[f.events[j].number].fields, raw, content)
            else QuotesTool(c, b, f.events[j], p[f.events[j].number].fields, raw, content))
  }

  /** Every message of a sent body that has context blocks is a public constant, or quotes one completed event of this run
      from before the request. */
  lemma SentMessagesSourced(c: Codec, f: RunFiles, run: string, p: Payloads, k: nat, n: nat)
    requires RequestsClean(c, f, run, p) && k < |f.snapshots| && n < |f.snapshots[k].blocks|
    ensures var s := f.snapshots[k];
      && SentMessages(c, f, run, s).Some? && |SentMessages(c, f, run, s).value| == |s.blocks|
      && var m := SentMessages(c, f, run, s).value[n];
      m.Message? && m.content.Some? && m.role == Some(s.blocks[n].role) && Sourced(c, f, run, p, s, s.blocks[n], m.content.value)
  {
    var s := f.snapshots[k];
    assert Corresponds(c, f, run, p, s);
    var i: nat, j: nat, x: nat, y: nat :| Counterparts(p, f, s, i, j, x, y)
      && SnapshotClean(c, f, run, p, s, f.events[i], f.events[j], Some(f.physical[x]), Some(f.physical[y]));
    hide RequestsClean, Counterparts, TerminalClean, BodyClean;
    assert ContextsClean(c, f, run, p, s, SentMessages(c, f, run, s));
    BlockSourced(c, f, run, p, s, SentMessages(c, f, run, s), n);
  }

  lemma BlockSourced(c: Codec, f: RunFiles, run: string, p: Payloads, s: Snapshot, messages: Option<seq<Message>>, n: nat)
    requires ContextsClean(c, f, run, p, s, messages) && n < |s.blocks|
    ensures messages.Some? && |messages.value| == |s.blocks|
    ensures var m := messages.value[n];
      m.Message? && m.content.Some? && m.role == Some(s.blocks[n].role) && Sourced(c, f, run, p, s, s.blocks[n], m.content.value)
  {
    hide Visibility.BuildView, ContextClean;
    var b, m := s.blocks[n], messages.value[n];
    assert BlockClean(c, f, p, s, n, b, m);
    CleanContextSourced(c, f, run, p, s, n, m.content.value);
  }

  lemma CleanContextSourced(c: Codec, f: RunFiles, run: string, p: Payloads, s: Snapshot, n: nat, content: string)
    requires n < |s.blocks| && ContextClean(c, f, p, s.blocks[n], Some(content))
    requires Visibility.BuildView(run, s.cutoff, s.before.hash, s.blocks, [], f.events, f.producer, "decision_view_v1", AuditView(s.id)).Accepted?
    ensures Sourced(c, f, run, p, s, s.blocks[n], content)
  {
    var b := s.blocks[n];
    Visibility.AcceptedVisible(run, s.cutoff, s.blocks, f.events, f.producer, n);
    hide Visibility.BuildView, Visibility.BlocksIssue, QuoteClean, Visibility.Where, Loaded;
    if b.kind != SystemPrompt && b.kind != TaskInstruction {
      var j :| 0 <= j < |f.events| && f.events[j].id == b.origin && f.events[j].runId == run && f.events[j].ended
            && f.events[j].availableSeq.Some? && f.events[j].availableSeq.value <= s.cutoff
            && f.events[j].kind == (if b.kind == ToolResult then ToolFinish else ResponseEvent)
            && b.provenance.value.labels == EventLabel(f.events[j]);
      OnlyMatch(f.events, b.origin, j);
      QuoteTells(c, p, b, Loaded(c, f.blobs, b.provenance.value).value, content, f.events[j]);
    }
  }

  lemma QuoteTells(c: Codec, p: Payloads, b: ContextBlock, raw: Blob, content: string, e: Event)
    requires b.provenance.Some? && QuoteClean(c, p, b, b.provenance.value, raw, content, e)
    ensures e.number in p && p[e.number].Object?
    ensures if b.kind == AssistantResponse then QuotesResponse(c, b, e, p[e.number].fields, raw, content)
            else QuotesTool(c, b, e, p[e.number].fields, raw, content)
  {
  }

  /** An identity that one event has finds that event. */
  lemma OnlyMatch(events: seq<Event>, origin: Name, j: nat)
    requires j < |events| && events[j].id == origin && |Visibility.Where(events, Visibility.Named(origin))| == 1
    ensures Visibility.Where(events, Visibility.Named(origin))[0] == events[j]
  {
    var matches := Visibility.Where(events, Visibility.Named(origin));
    Visibility.WhereMembers(events, Visibility.Named(origin));
    assert events[j] in matches;
    assert matches == [matches[0]];
  }
}
