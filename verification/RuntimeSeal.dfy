/** Agreement: what a captured runtime has recorded and sealed passes the audit. */
module RuntimeSeal {
  import opened Ordering
  import opened Labels
  import opened Evidence
  import opened UsageLedger
  import opened RuntimeRecords
  import opened RuntimeAudit
  import opened RuntimeInvariant
  import Visibility

  /** A listing of the physical-attempt directory, in whatever order the file names sort. */
  ghost predicate ListsFiles(names: seq<Name>, files: map<Name, PhysicalAttempt>) {
    Distinct(names) && forall x :: x in names <==> x in files
  }

  function Records(names: seq<Name>, files: map<Name, PhysicalAttempt>): seq<PhysicalAttempt>
    requires forall i :: 0 <= i < |names| ==> names[i] in files
  {
    seq(|names|, i requires 0 <= i < |names| => files[names[i]])
  }

  lemma ListedFiles(names: seq<Name>, files: map<Name, PhysicalAttempt>)
    requires ListsFiles(names, files)
    ensures forall i :: 0 <= i < |names| ==> names[i] in files
  {
    forall i | 0 <= i < |names| ensures names[i] in files { assert names[i] in names; }
  }

  /** The artifacts `seal` persists, the physical records listed as `names`. */
  function Sealed(w: Setup, r: Recording, names: seq<Name>, entries: seq<CostEntry>, aggregate: Aggregate): RunFiles
    requires forall i :: 0 <= i < |names| ==> names[i] in r.physical
  {
    RunFiles(r.blobs, Run(w.run, w.task, w.producer, w.config, RunRef(w, EventLogBytes(r.events), EventLog)), w.producer, r.events,
             r.snapshots, r.bindings, Records(names, r.physical), entries, aggregate, r.bindings)
  }

  /** The parts of the artifacts that the per-attempt conditions read. */
  ghost predicate SameView(f: RunFiles, g: RunFiles) {
    f.blobs == g.blobs && f.producer == g.producer && f.events == g.events && f.run.config == g.run.config && f.run.task == g.run.task
  }

  lemma BodySame(c: Codec, f: RunFiles, g: RunFiles, run: string, s: Snapshot, request: Fields, part: Part, key: Key, ref: Option<Ref>)
    requires SameView(f, g) && BodyClean(c, f, run, s, request, part, key, ref)
    ensures BodyClean(c, g, run, s, request, part, key, ref)
  {
  }

  lemma TerminalSame(c: Codec, f: RunFiles, g: RunFiles, run: string, s: Snapshot, kind: EventKind, fields: Fields, physical: Option<Outcome>)
    requires SameView(f, g) && TerminalClean(c, f, run, s, kind, fields, physical)
    ensures TerminalClean(c, g, run, s, kind, fields, physical)
  {
  }

  lemma ContextSame(c: Codec, f: RunFiles, g: RunFiles, p: Payloads, b: ContextBlock, content: Option<string>)
    requires SameView(f, g) && ContextClean(c, f, p, b, content)
    ensures ContextClean(c, g, p, b, content)
  {
    hide QuoteClean, Visibility.Where, Loaded;
  }

  lemma ContextsSame(c: Codec, f: RunFiles, g: RunFiles, run: string, p: Payloads, s: Snapshot, messages: Option<seq<Message>>)
    requires SameView(f, g) && ContextsClean(c, f, run, p, s, messages)
    ensures ContextsClean(c, g, run, p, s, messages)
  {
    hide ContextClean, Visibility.BuildView;
    if s.blocks != [] {
      forall k | 0 <= k < |s.blocks| ensures BlockClean(c, g, p, s, k, s.blocks[k], messages.value[k]) {
        assert BlockClean(c, f, p, s, k, s.blocks[k], messages.value[k]);
        ContextSame(c, f, g, p, s.blocks[k], messages.value[k].content);
      }
    }
  }

  lemma SnapshotSame(c: Codec, f: RunFiles, g: RunFiles, run: string, p: Payloads, s: Snapshot, request: Event, terminal: Event,
    x: Option<PhysicalAttempt>, y: Option<PhysicalAttempt>)
    requires SameView(f, g) && SnapshotClean(c, f, run, p, s, request, terminal, x, y)
    ensures SnapshotClean(c, g, run, p, s, request, terminal, x, y)
  {
    hide BodyClean, TerminalClean, ContextsClean, OutcomeOf, FieldsOf;
    var asked, got := FieldsOf(p, request).value, FieldsOf(p, terminal).value;
    BodySame(c, f, g, run, s, asked, BeforeBody, BeforeKey, Some(s.before));
    BodySame(c, f, g, run, s, asked, PreparedBody, PreparedKey, s.prepared);
    BodySame(c, f, g, run, s, asked, SentBody, SentKey, s.sent);
    TerminalSame(c, f, g, run, s, terminal.kind, got, OutcomeOf(y));
    ContextsSame(c, f, g, run, p, s, SentMessages(c, f, run, s));
    assert SentMessages(c, g, run, s) == SentMessages(c, f, run, s);
  }

  lemma ToolSame(c: Codec, f: RunFiles, g: RunFiles, run: string, p: Payloads, b: FileBinding)
    requires SameView(f, g) && HasTool(c, f, run, p, b)
    ensures HasTool(c, g, run, p, b)
  {
    var i: nat :| BindingClean(c, f, run, p, b, i);
    assert BindingClean(c, g, run, p, b, i);
  }

  // ---- The inventory of a recording ----

  lemma AttemptAt(w: Setup, r: Recording, at: seq<nat>, k: nat)
    requires AttemptsRecorded(w, r, at) && k < |at|
    ensures |at| == |r.snapshots| == |r.usages| && AttemptKept(w, r, at[k], r.snapshots[k], r.usages[k])
  {
    hide AttemptKept;
  }

  lemma AttemptSpeaks(w: Setup, r: Recording, at: seq<nat>, k: nat)
    requires AttemptsRecorded(w, r, at) && k < |at|
    ensures |at| == |r.snapshots|
    ensures Speaks(Said(w, r), r.events, false, at[k], r.snapshots[k].attempt)
    ensures Speaks(Said(w, r), r.events, true, at[k] + 1, r.snapshots[k].attempt)
  {
    AttemptAt(w, r, at, k);
    hide AttemptsRecorded, Speaks, SnapshotClean;
  }

  /** The two physical records of a snapshot. */
  lemma AttemptRecords(w: Setup, r: Recording, at: seq<nat>, k: nat, ph: Phase)
    requires AttemptsRecorded(w, r, at) && k < |r.snapshots|
    ensures var id := r.snapshots[k].attempt;
      && PhysicalName(id, ph) in r.physical && SlotOf(r.physical[PhysicalName(id, ph)]) == (id, ph)
      && PhysicalName(id, Entered) in r.physical && r.physical[PhysicalName(id, ph)].sent == r.physical[PhysicalName(id, Entered)].sent
      && PhysicalSound(w.codec, Draft(w, r), w.run, r.physical[PhysicalName(id, ph)])
  {
    AttemptAt(w, r, at, k);
    hide AttemptsRecorded, Speaks, SnapshotClean, PhysicalSound;
    assert ph == Entered || ph == Terminal;
  }

  /** Whatever request or terminal event speaks of an attempt is the one of its own snapshot. */
  lemma SpeakerListed(w: Setup, r: Recording, at: seq<nat>, terminal: bool, i: nat) returns (k: nat)
    requires AttemptsRecorded(w, r, at) && i < |r.events| && Relevant(terminal, r.events[i])
    ensures k < |at| && at[k] == (if terminal then i - 1 else i) && |at| == |r.snapshots|
    ensures Speaks(Said(w, r), r.events, terminal, i, r.snapshots[k].attempt)
  {
    hide AttemptSound, Relevant, Speaks;
    var want := if terminal then i - 1 else i;
    assert Listed(at, want);
    k :| 0 <= k < |at| && at[k] == want;
    AttemptSpeaks(w, r, at, k);
  }

  lemma InventoryRecorded(w: Setup, r: Recording, at: seq<nat>, f: RunFiles, names: seq<Name>)
    requires AttemptsRecorded(w, r, at) && f.events == r.events && f.snapshots == r.snapshots && ListsFiles(names, r.physical)
    requires (forall i :: 0 <= i < |names| ==> names[i] in r.physical) && f.physical == Records(names, r.physical)
    ensures InventoryClean(Said(w, r), f)
  {
    var p := Said(w, r);
    hide AttemptsRecorded, Said;
    forall terminal: bool ensures AllNamed(p, f.events, terminal) && OnceEach(p, f.events, terminal) {
      NamedOnce(w, r, at, terminal);
    }
    assert AllNamed(p, f.events, false) && AllNamed(p, f.events, true) && OnceEach(p, f.events, false) && OnceEach(p, f.events, true);
    hide AllNamed, OnceEach;
    assert SnapshotsDistinct(f.snapshots) by { RecordedDistinct(w, r, at); }
    SpokenExactly(w, r, at, false);
    SpokenExactly(w, r, at, true);
    PhysicalExactly(w, r, at, names);
  }

  lemma RecordedDistinct(w: Setup, r: Recording, at: seq<nat>)
    requires AttemptsRecorded(w, r, at)
    ensures SnapshotsDistinct(r.snapshots)
  {
    hide AttemptSound;
  }

  lemma NamedOnce(w: Setup, r: Recording, at: seq<nat>, terminal: bool)
    requires AttemptsRecorded(w, r, at)
    ensures AllNamed(Said(w, r), r.events, terminal) && OnceEach(Said(w, r), r.events, terminal)
  {
    hide AttemptsRecorded, AllNamed, OnceEach;
    EachNamed(w, r, at, terminal);
    EachOnce(w, r, at, terminal);
  }

  lemma EachNamed(w: Setup, r: Recording, at: seq<nat>, terminal: bool)
    requires AttemptsRecorded(w, r, at)
    ensures AllNamed(Said(w, r), r.events, terminal)
  {
    hide AttemptsRecorded, Said, SnapshotIds;
    forall i | 0 <= i < |r.events| && TakesPart(Said(w, r), terminal, r.events[i]) ensures AttemptValue(Said(w, r), r.events[i]).Id? {
      var k := SpeakerListed(w, r, at, terminal, i);
    }
  }

  lemma EachOnce(w: Setup, r: Recording, at: seq<nat>, terminal: bool)
    requires AttemptsRecorded(w, r, at)
    ensures OnceEach(Said(w, r), r.events, terminal)
  {
    RecordedDistinct(w, r, at);
    hide AttemptsRecorded, Said;
    forall i, j, id | Speaks(Said(w, r), r.events, terminal, i, id) && Speaks(Said(w, r), r.events, terminal, j, id) ensures i == j {
      var k := SpeakerListed(w, r, at, terminal, i);
      var l := SpeakerListed(w, r, at, terminal, j);
      assert r.snapshots[k].attempt == id == r.snapshots[l].attempt;
      assert !(k < l) && !(l < k);
    }
  }

  lemma SpokenExactly(w: Setup, r: Recording, at: seq<nat>, terminal: bool)
    requires AttemptsRecorded(w, r, at)
    ensures forall id :: id in SnapshotIds(r.snapshots) <==> Spoken(Said(w, r), r.events, terminal, id)
  {
    assert |at| == |r.snapshots|;
    hide AttemptsRecorded, Said;
    forall id ensures id in SnapshotIds(r.snapshots) <==> Spoken(Said(w, r), r.events, terminal, id) {
      if id in SnapshotIds(r.snapshots) {
        var k :| 0 <= k < |r.snapshots| && r.snapshots[k].attempt == id;
        AttemptSpeaks(w, r, at, k);
      }
      if Spoken(Said(w, r), r.events, terminal, id) {
        var i :| Speaks(Said(w, r), r.events, terminal, i, id);
        var k := SpeakerListed(w, r, at, terminal, i);
      }
    }
  }

  /** What the record behind a listed file name is. */
  lemma RecordAt(w: Setup, r: Recording, at: seq<nat>, name: Name) returns (k: nat)
    requires AttemptsRecorded(w, r, at) && name in r.physical
    ensures k < |r.snapshots| && name.PhysicalName? && r.snapshots[k].attempt == name.attempt
    ensures SlotOf(r.physical[name]) == (name.attempt, name.phase)
    ensures PhysicalName(name.attempt, Entered) in r.physical && r.physical[name].sent == r.physical[PhysicalName(name.attempt, Entered)].sent
    ensures PhysicalSound(w.codec, Draft(w, r), w.run, r.physical[name])
  {
    assert PhysicalOwned(r.snapshots, name);
    k :| 0 <= k < |r.snapshots| && r.snapshots[k].attempt == name.attempt;
    AttemptRecords(w, r, at, k, name.phase);
  }

  lemma PhysicalExactly(w: Setup, r: Recording, at: seq<nat>, names: seq<Name>)
    requires AttemptsRecorded(w, r, at) && ListsFiles(names, r.physical) && forall i :: 0 <= i < |names| ==> names[i] in r.physical
    ensures SnapshotIds(r.snapshots) == PhysicalIds(Records(names, r.physical))
  {
    hide AttemptsRecorded, Said, PhysicalSound;
    var ps := Records(names, r.physical);
    forall id ensures id in SnapshotIds(r.snapshots) <==> id in PhysicalIds(ps) {
      if id in SnapshotIds(r.snapshots) {
        var k :| 0 <= k < |r.snapshots| && r.snapshots[k].attempt == id;
        AttemptRecords(w, r, at, k, Entered);
        assert PhysicalName(id, Entered) in names;
        var i :| 0 <= i < |names| && names[i] == PhysicalName(id, Entered);
        assert ps[i].attempt == id;
      }
      if id in PhysicalIds(ps) {
        var x :| 0 <= x < |ps| && ps[x].attempt == id;
        var k := RecordAt(w, r, at, names[x]);
      }
    }
  }

  /** What the audit finds at position `x` of the listing. */
  ghost predicate ListedRecord(w: Setup, r: Recording, f: RunFiles, names: seq<Name>, x: nat)
    requires x < |names| && x < |f.physical|
  {
    var a := f.physical[x];
    && PhysicalSound(w.codec, f, w.run, a) && names[x].PhysicalName? && SlotOf(a) == (names[x].attempt, names[x].phase)
    && PhysicalName(names[x].attempt, Entered) in r.physical && a.sent == r.physical[PhysicalName(names[x].attempt, Entered)].sent
    && Filled(f.physical, (a.attempt, Entered)) && Filled(f.physical, (a.attempt, Terminal))
  }

  lemma RecordListed(w: Setup, r: Recording, at: seq<nat>, f: RunFiles, names: seq<Name>, x: nat)
    requires AttemptsRecorded(w, r, at) && SameView(Draft(w, r), f) && ListsFiles(names, r.physical) && x < |names|
    requires (forall i :: 0 <= i < |names| ==> names[i] in r.physical) && f.physical == Records(names, r.physical)
    ensures ListedRecord(w, r, f, names, x)
  {
    hide AttemptsRecorded, Said, Filled, ListsFiles;
    var k := RecordAt(w, r, at, names[x]);
    FilledListed(w, r, at, names, k, Entered);
    FilledListed(w, r, at, names, k, Terminal);
  }

  lemma PhysicalRecorded(w: Setup, r: Recording, at: seq<nat>, f: RunFiles, names: seq<Name>)
    requires AttemptsRecorded(w, r, at) && SameView(Draft(w, r), f) && ListsFiles(names, r.physical)
    requires (forall i :: 0 <= i < |names| ==> names[i] in r.physical) && f.physical == Records(names, r.physical)
    ensures PhysicalClean(w.codec, f, w.run)
  {
    hide AttemptsRecorded, Said, PhysicalSound, Filled, SameView;
    var ps := f.physical;
    assert |ps| == |names|;
    forall x | 0 <= x < |ps| ensures ListedRecord(w, r, f, names, x) { RecordListed(w, r, at, f, names, x); }
    forall x, y | 0 <= x < y < |ps| ensures SlotOf(ps[x]) != SlotOf(ps[y]) {
      assert names[x] != names[y] && ListedRecord(w, r, f, names, x) && ListedRecord(w, r, f, names, y);
    }
    forall x, y | 0 <= x < |ps| && 0 <= y < |ps| && ps[x].attempt == ps[y].attempt ensures ps[x].sent == ps[y].sent {
      assert ListedRecord(w, r, f, names, x) && ListedRecord(w, r, f, names, y);
      assert SlotOf(ps[x]).0 == names[x].attempt && SlotOf(ps[y]).0 == names[y].attempt;
    }
    forall x | 0 <= x < |ps|
      ensures PhysicalSound(w.codec, f, w.run, ps[x]) && Filled(ps, (ps[x].attempt, Entered)) && Filled(ps, (ps[x].attempt, Terminal))
    {
      assert ListedRecord(w, r, f, names, x);
    }
  }

  lemma FilledListed(w: Setup, r: Recording, at: seq<nat>, names: seq<Name>, k: nat, ph: Phase)
    requires AttemptsRecorded(w, r, at) && ListsFiles(names, r.physical) && k < |r.snapshots|
    requires forall i :: 0 <= i < |names| ==> names[i] in r.physical
    ensures Filled(Records(names, r.physical), (r.snapshots[k].attempt, ph))
  {
    AttemptRecords(w, r, at, k, ph);
    hide AttemptsRecorded, PhysicalSound;
    var name := PhysicalName(r.snapshots[k].attempt, ph);
    assert name in names;
    var i :| 0 <= i < |names| && names[i] == name;
    assert SlotOf(Records(names, r.physical)[i]) == (r.snapshots[k].attempt, ph);
  }

  lemma RecordIndex(w: Setup, r: Recording, at: seq<nat>, names: seq<Name>, k: nat, ph: Phase) returns (x: nat)
    requires AttemptsRecorded(w, r, at) && ListsFiles(names, r.physical) && k < |r.snapshots|
    ensures PhysicalName(r.snapshots[k].attempt, ph) in r.physical && SlotOf(r.physical[PhysicalName(r.snapshots[k].attempt, ph)]) == (r.snapshots[k].attempt, ph)
    ensures x < |names| && names[x] == PhysicalName(r.snapshots[k].attempt, ph)
  {
    AttemptRecords(w, r, at, k, ph);
    hide AttemptsRecorded, PhysicalSound;
    assert PhysicalName(r.snapshots[k].attempt, ph) in names;
    x :| 0 <= x < |names| && names[x] == PhysicalName(r.snapshots[k].attempt, ph);
  }

  lemma AttemptSnapshot(w: Setup, r: Recording, at: seq<nat>, k: nat)
    requires AttemptsRecorded(w, r, at) && k < |r.snapshots|
    ensures |at| == |r.snapshots| && at[k] + 1 < |r.events|
    ensures var s := r.snapshots[k];
      && PhysicalName(s.attempt, Entered) in r.physical && PhysicalName(s.attempt, Terminal) in r.physical
      && SnapshotClean(w.codec, Draft(w, r), w.run, Said(w, r), s, r.events[at[k]], r.events[at[k] + 1],
           Some(r.physical[PhysicalName(s.attempt, Entered)]), Some(r.physical[PhysicalName(s.attempt, Terminal)]))
  {
    AttemptAt(w, r, at, k);
    hide AttemptsRecorded, Speaks, SnapshotClean, PhysicalSound;
  }

  lemma AttemptCorresponds(w: Setup, r: Recording, at: seq<nat>, f: RunFiles, names: seq<Name>, k: nat)
    requires AttemptsRecorded(w, r, at) && k < |r.snapshots| && SameView(Draft(w, r), f) && ListsFiles(names, r.physical)
    requires (forall i :: 0 <= i < |names| ==> names[i] in r.physical) && f.physical == Records(names, r.physical)
    ensures Corresponds(w.codec, f, w.run, Said(w, r), r.snapshots[k])
  {
    hide AttemptsRecorded, SnapshotClean, Said, SameView, Speaks, ListsFiles, Draft;
    AttemptSnapshot(w, r, at, k);
    AttemptSpeaks(w, r, at, k);
    var x := RecordIndex(w, r, at, names, k, Entered);
    var y := RecordIndex(w, r, at, names, k, Terminal);
    var i, s := at[k], r.snapshots[k];
    ViewEvents(w, r, f);
    SnapshotSame(w.codec, Draft(w, r), f, w.run, Said(w, r), s, r.events[i], r.events[i + 1],
      Some(r.physical[PhysicalName(s.attempt, Entered)]), Some(r.physical[PhysicalName(s.attempt, Terminal)]));
    assert Counterparts(Said(w, r), f, s, i, i + 1, x, y);
  }

  lemma ViewEvents(w: Setup, r: Recording, f: RunFiles)
    requires SameView(Draft(w, r), f)
    ensures f.events == r.events && f.blobs == r.blobs
  {
  }

  // ---- The sealed run ----

  lemma LogSealed(w: Setup, r: Recording, f: RunFiles)
    requires LogSound(w, r) && SameView(Draft(w, r), f) && f.run.id == w.run
    requires f.run.eventsRef == RunRef(w, EventLogBytes(r.events), EventLog) && Stored(w, r.blobs, EventLogBytes(r.events))
    requires r.events != [] && r.events[|r.events| - 1].kind == RunStop
    requires w.config.locator == ConfigAt && RunBlob(w.codec, r.blobs, w.run, w.config).Some?
    ensures LogClean(w.codec, f, w.run) && PayloadsOf(w.codec, f, w.run) == Said(w, r)
  {
    LogStored(w, r, f);
    forall i | 0 <= i < |r.events| ensures r.events[i].number == i && EventClean(w.codec, f, w.run, r.events[i]) { EventSealed(w, r, f, i); }
    hide LogSound, EventClean, PayloadOf, Stored, RunBlob;
    PrefixSame(w, r, f);
  }

  lemma LogStored(w: Setup, r: Recording, f: RunFiles)
    requires LogSound(w, r) && SameView(Draft(w, r), f)
    requires f.run.eventsRef == RunRef(w, EventLogBytes(r.events), EventLog) && Stored(w, r.blobs, EventLogBytes(r.events))
    ensures f.events == r.events && f.blobs == r.blobs && f.run.config == w.config
    ensures RunBlob(w.codec, f.blobs, w.run, f.run.eventsRef) == Some(EventLogBytes(f.events))
  {
  }

  lemma EventSealed(w: Setup, r: Recording, f: RunFiles, i: nat)
    requires LogSound(w, r) && SameView(Draft(w, r), f) && i < |r.events|
    ensures r.events[i].number == i && EventClean(w.codec, f, w.run, r.events[i])
  {
    assert EventSound(w, r.blobs, r.events[i], i);
  }

  lemma PrefixSame(w: Setup, r: Recording, f: RunFiles)
    requires SameView(Draft(w, r), f)
    ensures f.events == r.events && PayloadPrefix(w.codec, f, w.run, |r.events|) == Said(w, r)
  {
    hide ParsedBlob;
  }

  lemma BindingsSealed(w: Setup, r: Recording, f: RunFiles)
    requires BindingsRecorded(w, r) && ToolsRecorded(w, r) && SameView(Draft(w, r), f) && f.bindings == r.bindings == f.finalFiles
    ensures BindingsClean(w.codec, f, w.run, Said(w, r))
  {
    hide HasTool, Said;
    forall k | 0 <= k < |f.bindings| ensures HasTool(w.codec, f, w.run, Said(w, r), f.bindings[k]) {
      ToolSame(w.codec, Draft(w, r), f, w.run, Said(w, r), r.bindings[k]);
    }
    var calls := CallsOf(r.events, ToolStart);
    assert None !in calls;
  }

  lemma UsageIds(ss: seq<Snapshot>, us: seq<Attempt>)
    requires |ss| == |us| && forall k :: 0 <= k < |us| ==> us[k].id == ss[k].attempt
    ensures Ids(us) == SnapshotIds(ss)
    ensures SnapshotsDistinct(ss) ==> DistinctIds(us)
  {
    forall id ensures id in Ids(us) <==> id in SnapshotIds(ss) {
      if id in Ids(us) { var k :| 0 <= k < |us| && us[k].id == id; assert ss[k].attempt == id; }
      if id in SnapshotIds(ss) { var k :| 0 <= k < |ss| && ss[k].attempt == id; assert us[k].id == id; }
    }
  }

  /** The usages the audit finds in the terminal events are those the ledger was built from. */
  lemma UsagesSealed(w: Setup, r: Recording, at: seq<nat>, f: RunFiles)
    requires AttemptsRecorded(w, r, at) && f.events == r.events && f.snapshots == r.snapshots
    ensures DistinctIds(r.usages) && WellReferenced(r.usages) && SameUsages(r.usages, UsagesOf(Said(w, r), f))
    ensures Ids(r.usages) == SnapshotIds(r.snapshots)
  {
    RecordedDistinct(w, r, at);
    NamedOnce(w, r, at, true);
    assert |at| == |r.snapshots| == |r.usages|;
    hide AttemptsRecorded, Said, UsageFor, SnapshotsDistinct, AllNamed, OnceEach;
    forall k | 0 <= k < |r.usages|
      ensures r.usages[k].id == r.snapshots[k].attempt && (r.usages[k].usageRef.Some? <==> ObservedUsage(r.usages[k].usage).Some?)
      ensures UsageFor(Said(w, r), r.events, r.usages[k].id) == Some(r.usages[k].usage)
    {
      UsageSealed(w, r, at, k);
    }
    UsageIds(r.snapshots, r.usages);
    hide ObservedUsage;
    forall k | 0 <= k < |r.usages| ensures r.usages[k].id in SnapshotIds(f.snapshots) { assert r.usages[k].id in Ids(r.usages); }
  }

  lemma UsageSealed(w: Setup, r: Recording, at: seq<nat>, k: nat)
    requires AttemptsRecorded(w, r, at) && OnceEach(Said(w, r), r.events, true) && k < |r.usages|
    ensures k < |r.snapshots| && r.usages[k].id == r.snapshots[k].attempt
    ensures r.usages[k].usageRef.Some? <==> ObservedUsage(r.usages[k].usage).Some?
    ensures UsageFor(Said(w, r), r.events, r.usages[k].id) == Some(r.usages[k].usage)
  {
    AttemptAt(w, r, at, k);
    hide AttemptsRecorded, Said, SnapshotClean, PhysicalSound, UsageAt;
    var id := r.usages[k].id;
    assert Speaks(Said(w, r), r.events, true, at[k] + 1, id);
    assert Spoken(Said(w, r), r.events, true, id);
    assert TerminalIndex(Said(w, r), r.events, id) == at[k] + 1;
  }

  lemma RequestsSealed(w: Setup, r: Recording, at: seq<nat>, f: RunFiles, names: seq<Name>)
    requires AttemptsRecorded(w, r, at) && SameView(Draft(w, r), f) && ListsFiles(names, r.physical) && f.snapshots == r.snapshots
    requires (forall i :: 0 <= i < |names| ==> names[i] in r.physical) && f.physical == Records(names, r.physical)
    ensures RequestsClean(w.codec, f, w.run, Said(w, r))
  {
    hide AttemptsRecorded, InventoryClean, PhysicalClean, Corresponds, Said, SameView, ListsFiles, Draft;
    ViewEvents(w, r, f);
    InventoryRecorded(w, r, at, f, names);
    PhysicalRecorded(w, r, at, f, names);
    forall k | 0 <= k < |f.snapshots| ensures Corresponds(w.codec, f, w.run, Said(w, r), f.snapshots[k]) {
      AttemptCorresponds(w, r, at, f, names, k);
    }
  }

  /** What is sealed: a recorded run that has been closed, its log and its ledger. */
  ghost predicate Closed(w: Setup, r: Recording, at: seq<nat>, names: seq<Name>, entries: seq<CostEntry>, aggregate: Aggregate) {
    && Recorded(w, r, at) && w.config.locator == ConfigAt && Stored(w, r.blobs, EventLogBytes(r.events))
    && r.events != [] && r.events[|r.events| - 1].kind == RunStop
    && ListsFiles(names, r.physical) && (forall i :: 0 <= i < |names| ==> names[i] in r.physical)
    && LedgerWritten(r.usages, entries, aggregate)
  }

  lemma ClosedLog(w: Setup, r: Recording, at: seq<nat>, names: seq<Name>, entries: seq<CostEntry>, aggregate: Aggregate)
    requires Closed(w, r, at, names, entries, aggregate)
    ensures var f := Sealed(w, r, names, entries, aggregate); LogClean(w.codec, f, w.run) && PayloadsOf(w.codec, f, w.run) == Said(w, r)
  {
    hide LogSound, AttemptsRecorded, LedgerWritten, LogClean, Said, ListsFiles, BindingsRecorded, ToolsRecorded;
    LogSealed(w, r, Sealed(w, r, names, entries, aggregate));
  }

  lemma ClosedRequests(w: Setup, r: Recording, at: seq<nat>, names: seq<Name>, entries: seq<CostEntry>, aggregate: Aggregate)
    requires Closed(w, r, at, names, entries, aggregate)
    ensures RequestsClean(w.codec, Sealed(w, r, names, entries, aggregate), w.run, Said(w, r))
  {
    hide LogSound, AttemptsRecorded, LedgerWritten, RequestsClean, Said, ListsFiles, BindingsRecorded, ToolsRecorded;
    RequestsSealed(w, r, at, Sealed(w, r, names, entries, aggregate), names);
  }

  lemma ClosedBindings(w: Setup, r: Recording, at: seq<nat>, names: seq<Name>, entries: seq<CostEntry>, aggregate: Aggregate)
    requires Closed(w, r, at, names, entries, aggregate)
    ensures BindingsClean(w.codec, Sealed(w, r, names, entries, aggregate), w.run, Said(w, r))
  {
    hide LogSound, AttemptsRecorded, LedgerWritten, BindingsClean, Said, ListsFiles, BindingsRecorded, ToolsRecorded;
    BindingsSealed(w, r, Sealed(w, r, names, entries, aggregate));
  }

  lemma ClosedLedger(w: Setup, r: Recording, at: seq<nat>, names: seq<Name>, entries: seq<CostEntry>, aggregate: Aggregate)
    requires Closed(w, r, at, names, entries, aggregate)
    ensures var f := Sealed(w, r, names, entries, aggregate);
      LedgerClean(SnapshotIds(f.snapshots), UsagesOf(Said(w, r), f), f.entries, f.aggregate)
  {
    hide LogSound, AttemptsRecorded, LedgerWritten, LedgerClean, Said, ListsFiles, BindingsRecorded, ToolsRecorded, UsagesOf, SnapshotIds, Ids,
      DistinctIds, WellReferenced, SameUsages;
    var f := Sealed(w, r, names, entries, aggregate);
    UsagesSealed(w, r, at, f);
    LedgerRebuilds(r.usages, UsagesOf(Said(w, r), f), entries, aggregate);
  }

  /** Agreement: a recorded run, sealed, is clean in every respect the audit examines. */
  lemma SealedClean(w: Setup, r: Recording, at: seq<nat>, names: seq<Name>, entries: seq<CostEntry>, aggregate: Aggregate)
    requires Closed(w, r, at, names, entries, aggregate)
    ensures RunClean(w.codec, Sealed(w, r, names, entries, aggregate), w.run)
  {
    ClosedLog(w, r, at, names, entries, aggregate);
    ClosedRequests(w, r, at, names, entries, aggregate);
    ClosedBindings(w, r, at, names, entries, aggregate);
    ClosedLedger(w, r, at, names, entries, aggregate);
    hide LogClean, RequestsClean, BindingsClean, LedgerClean, Said, PayloadsOf, Sealed, UsagesOf, SnapshotIds, Recorded, ListsFiles;
  }
}
