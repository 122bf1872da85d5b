/** What a repository checkpoint captures, and what it records as a gap. */
module Checkpoint {
  import opened Ordering
  import opened CanonicalManifest
  import opened ForensicsRecords

  // ---- The tracked index ----

  /** One NUL-terminated record of the index listing; a path that is no safe repository path is `None`. */
  datatype IndexRecord = Malformed | Record(mode: string, stage: string, path: Option<string>)

  datatype IndexReason = UnmergedOrDuplicate | UnsupportedMode(mode: string)

  predicate RegularMode(mode: string) { mode == "100644" || mode == "100755" }

  predicate Readable(records: seq<IndexRecord>) {
    forall i :: 0 <= i < |records| ==> records[i].Record? && records[i].path.Some?
  }

  /** The records of a path. */
  ghost predicate Mentions(records: seq<IndexRecord>, i: int, path: string) {
    0 <= i < |records| && records[i].Record? && records[i].path == Some(path)
  }

  /** Exactly one record mentions the path: the one at `i`. */
  ghost predicate Sole(records: seq<IndexRecord>, i: int, path: string) {
    Mentions(records, i, path) && forall j :: Mentions(records, j, path) ==> j == i
  }

  ghost predicate Known(records: seq<IndexRecord>, path: string) { exists i :: Mentions(records, i, path) }

  /** The path has one record, at stage zero, and this is its mode. */
  ghost predicate Staged(records: seq<IndexRecord>, path: string, mode: string) {
    exists i :: Sole(records, i, path) && records[i].stage == "0" && records[i].mode == mode
  }

  /** A regular file, executable or not. */
  ghost predicate FileMode(mode: string) { mode == "100644" || mode == "100755" }

  /** The path is captured as tracked. */
  ghost predicate Regular(records: seq<IndexRecord>, path: string, mode: string) { Staged(records, path, mode) && FileMode(mode) }

  /** Why a path that is not captured is not: its one record has another mode, or it has no one record at stage zero. */
  ghost predicate ReasonFits(records: seq<IndexRecord>, path: string, why: IndexReason) {
    match why
    case UnsupportedMode(mode) => Staged(records, path, mode) && !FileMode(mode)
    case UnmergedOrDuplicate => forall mode :: !Staged(records, path, mode)
  }

  /** The two dictionaries after some records: regular paths with their modes, and all the other known paths, each with its
      reason. */
  ghost predicate Indexed(records: seq<IndexRecord>, modes: map<string, string>, unsupported: map<string, IndexReason>) {
    && (forall path :: path in modes ==> Regular(records, path, modes[path]))
    && (forall path, mode :: Regular(records, path, mode) ==> path in modes)
    && (forall path :: path in unsupported <==> Known(records, path) && path !in modes)
    && (forall path :: path in unsupported ==> ReasonFits(records, path, unsupported[path]))
  }

  lemma MentionsAppend(records: seq<IndexRecord>, r: IndexRecord, j: int, path: string)
    ensures Mentions(records + [r], j, path) <==>
      Mentions(records, j, path) || (j == |records| && r.Record? && r.path == Some(path))
  {
  }

  /** Another path's record changes nothing for this path. */
  lemma OtherRecord(records: seq<IndexRecord>, r: IndexRecord, path: string, mode: string)
    requires r.Record? && r.path != Some(path)
    ensures Staged(records + [r], path, mode) <==> Staged(records, path, mode)
    ensures Known(records + [r], path) <==> Known(records, path)
  {
    var all := records + [r];
    forall j ensures Mentions(all, j, path) <==> Mentions(records, j, path) { MentionsAppend(records, r, j, path); }
    hide Mentions;
    forall i ensures Sole(all, i, path) <==> Sole(records, i, path) {}
    hide Sole;
    if Staged(all, path, mode) {
      var i :| Sole(all, i, path) && all[i].stage == "0" && all[i].mode == mode;
      SoleInRange(records, i, path);
      assert all[i] == records[i];
    }
    if Staged(records, path, mode) {
      var i :| Sole(records, i, path) && records[i].stage == "0" && records[i].mode == mode;
      SoleInRange(records, i, path);
      assert all[i] == records[i];
    }
  }

  lemma SoleInRange(records: seq<IndexRecord>, i: int, path: string)
    requires Sole(records, i, path)
    ensures 0 <= i < |records|
  {
  }

  /** A path's own record: it is known; it is staged only when this is its first record, at stage zero. */
  lemma OwnRecord(records: seq<IndexRecord>, r: IndexRecord, path: string, mode: string)
    requires r.Record? && r.path == Some(path)
    ensures Known(records + [r], path)
    ensures Staged(records + [r], path, mode) <==> !Known(records, path) && r.stage == "0" && r.mode == mode
  {
    var all := records + [r];
    MentionsAppend(records, r, |records|, path);
    assert Mentions(all, |records|, path);
    if Known(records, path) {
      var k :| Mentions(records, k, path);
      MentionsAppend(records, r, k, path);
      assert forall i :: !Sole(all, i, path) by {
        forall i ensures !Sole(all, i, path) { assert Mentions(all, k, path) && Mentions(all, |records|, path); }
      }
    } else {
      forall j | Mentions(all, j, path) ensures j == |records| { MentionsAppend(records, r, j, path); }
      assert Sole(all, |records|, path);
    }
  }

  function Dropped(modes: map<string, string>, path: string): map<string, string> { map p | p in modes && p != path :: modes[p] }

  lemma IndexedGrows(records: seq<IndexRecord>, modes: map<string, string>, unsupported: map<string, IndexReason>, r: IndexRecord)
    requires Indexed(records, modes, unsupported) && r.Record? && r.path.Some?
    ensures var path := r.path.value;
      if r.stage != "0" || path in modes || path in unsupported
      then Indexed(records + [r], Dropped(modes, path), unsupported[path := UnmergedOrDuplicate])
      else if RegularMode(r.mode) then Indexed(records + [r], modes[path := r.mode], unsupported)
      else Indexed(records + [r], modes, unsupported[path := UnsupportedMode(r.mode)])
  {
    var path := r.path.value;
    if r.stage != "0" || path in modes || path in unsupported {
      if path in modes { StagedKnown(records, path, modes[path]); }
      DroppedGrows(records, modes, unsupported, r);
    } else {
      FirstGrows(records, modes, unsupported, r);
    }
  }

  lemma ModeExactly(mode: string)
    ensures RegularMode(mode) <==> FileMode(mode)
  {
  }

  /** The first record of a path, at stage zero. */
  lemma FirstGrows(records: seq<IndexRecord>, modes: map<string, string>, unsupported: map<string, IndexReason>, r: IndexRecord)
    requires Indexed(records, modes, unsupported) && r.Record? && r.path.Some?
    requires r.stage == "0" && r.path.value !in modes && r.path.value !in unsupported
    ensures if RegularMode(r.mode) then Indexed(records + [r], modes[r.path.value := r.mode], unsupported)
            else Indexed(records + [r], modes, unsupported[r.path.value := UnsupportedMode(r.mode)])
  {
    ModeExactly(r.mode);
    OneMore(records, r);
    hide Staged, Known, RegularMode, FileMode;
    forall other, why | other != r.path.value && ReasonFits(records, other, why) ensures ReasonFits(records + [r], other, why) {}
  }

  /** What one more record changes: nothing for other paths, and what its own path is now. */
  lemma OneMore(records: seq<IndexRecord>, r: IndexRecord)
    requires r.Record? && r.path.Some?
    ensures forall other {:trigger Known(records + [r], other)} ::
      Known(records + [r], other) <==> Known(records, other) || other == r.path.value
    ensures forall other, mode {:trigger Staged(records + [r], other, mode)} ::
      Staged(records + [r], other, mode) <==>
        if other == r.path.value then !Known(records, other) && r.stage == "0" && r.mode == mode
        else Staged(records, other, mode)
  {
    hide Staged, Known;
    forall other, mode
      ensures Known(records + [r], other) <==> Known(records, other) || other == r.path.value
      ensures Staged(records + [r], other, mode) <==>
        if other == r.path.value then !Known(records, other) && r.stage == "0" && r.mode == mode
        else Staged(records, other, mode)
    {
      if other == r.path.value { OwnRecord(records, r, other, mode); } else { OtherRecord(records, r, other, mode); }
    }
    forall other ensures Known(records + [r], other) <==> Known(records, other) || other == r.path.value {
      if other == r.path.value { OwnRecord(records, r, other, r.mode); } else { OtherRecord(records, r, other, r.mode); }
    }
  }

  /** A record that leaves its path without one record at stage zero. */
  lemma DroppedGrows(records: seq<IndexRecord>, modes: map<string, string>, unsupported: map<string, IndexReason>, r: IndexRecord)
    requires Indexed(records, modes, unsupported) && r.Record? && r.path.Some?
    requires r.stage != "0" || Known(records, r.path.value)
    ensures Indexed(records + [r], Dropped(modes, r.path.value), unsupported[r.path.value := UnmergedOrDuplicate])
  {
    var path := r.path.value;
    var all, after := records + [r], Dropped(modes, path);
    OneMore(records, r);
    hide Staged, Known, FileMode;
    forall other ensures other in unsupported[path := UnmergedOrDuplicate] <==> Known(all, other) && other !in after {
      assert other in after <==> other in modes && other != path;
      assert other in unsupported <==> Known(records, other) && other !in modes;
    }
    forall other, mode | Regular(all, other, mode) ensures other in after { assert other != path; }
    forall other | other in after ensures Regular(all, other, after[other]) { assert Regular(records, other, modes[other]); }
    forall other, why | other != path && ReasonFits(records, other, why) ensures ReasonFits(all, other, why) {}
    assert ReasonFits(all, path, UnmergedOrDuplicate);
  }

  lemma StagedKnown(records: seq<IndexRecord>, path: string, mode: string)
    requires Regular(records, path, mode)
    ensures Known(records, path)
  {
    var i :| Sole(records, i, path) && records[i].stage == "0" && records[i].mode == mode;
  }

  /** `_tracked_index`: an unreadable listing is an error; otherwise the regular paths are exactly those with a single
      stage-zero record of a regular mode, and every other known path is unsupported. */
  method TrackedIndex(records: seq<IndexRecord>) returns (ok: bool, modes: map<string, string>, unsupported: map<string, IndexReason>)
    ensures ok <==> Readable(records)
    ensures ok ==> Indexed(records, modes, unsupported)
  {
    modes, unsupported := map[], map[];
    assert Indexed(records[..0], modes, unsupported);
    hide Indexed, RegularMode;
    for i := 0 to |records|
      invariant Readable(records[..i])
      invariant Indexed(records[..i], modes, unsupported)
    {
      var r := records[i];
      if r.Malformed? || r.path.None? { return false, modes, unsupported; }
      IndexedGrows(records[..i], modes, unsupported, r);
      assert records[..i + 1] == records[..i] + [r];
      var path := r.path.value;
      if r.stage != "0" || path in modes || path in unsupported {
        unsupported := unsupported[path := UnmergedOrDuplicate];
        modes := Dropped(modes, path);
      } else if RegularMode(r.mode) {
        modes := modes[path := r.mode];
      } else {
        unsupported := unsupported[path := UnsupportedMode(r.mode)];
      }
    }
    assert records[..|records|] == records;
    return true, modes, unsupported;
  }

  // ---- The capture loop ----

  datatype Area = TrackedFiles | SelectedFiles
  datatype GapReason = IndexGap(why: IndexReason) | GitIgnored | SensitivePath | UnsupportedFile(reason: string) | SensitiveContent
  datatype Gap = Gap(area: Area, path: string, reason: GapReason)

  datatype ReadResult = Present(bytes: string, executable: bool) | Deleted | Unsupported(reason: string)

  /** What the capture asks of the outside: whether a configured path is a safe repository path, whether git ignores a path,
      the path and content policies, and the read. */
  datatype World = World(safe: string -> bool, ignored: string -> bool, excluded: string -> bool, secret: string -> bool, read: string -> ReadResult)

  function AreaOf(k: PathKind): Area { if k == Tracked then TrackedFiles else SelectedFiles }

  /** Occurrences of a path among the gaps of an area. */
  function GapCount(gaps: seq<Gap>, area: Area, path: string): nat {
    if gaps == [] then 0
    else GapCount(gaps[..|gaps| - 1], area, path) + (if gaps[|gaps| - 1].area == area && gaps[|gaps| - 1].path == path then 1 else 0)
  }

  /** Occurrences of a path among the captured entries of an area. */
  function EntryCount(entries: seq<FoundFile>, area: Area, path: string): nat {
    if entries == [] then 0
    else EntryCount(entries[..|entries| - 1], area, path) +
         (if AreaOf(entries[|entries| - 1].kind) == area && entries[|entries| - 1].path == path then 1 else 0)
  }

  lemma GapAdded(gaps: seq<Gap>, g: Gap, area: Area, path: string)
    ensures GapCount(gaps + [g], area, path) == GapCount(gaps, area, path) + (if g.area == area && g.path == path then 1 else 0)
  {
    assert (gaps + [g])[..|gaps|] == gaps;
  }

  lemma EntryAdded(entries: seq<FoundFile>, e: FoundFile, area: Area, path: string)
    ensures EntryCount(entries + [e], area, path) == EntryCount(entries, area, path) + (if AreaOf(e.kind) == area && e.path == path then 1 else 0)
  {
    assert (entries + [e])[..|entries|] == entries;
  }

  /** The scope: known index paths, and selected paths that are not tracked. */
  predicate Scoped(modes: map<string, string>, unsupported: map<string, IndexReason>, selected: seq<string>, area: Area, path: string) {
    if area == TrackedFiles then path in modes || path in unsupported else path in selected && path !in modes
  }

  /** How often a path is accounted for: once when it is in scope, but an ignored selected path as often as it is listed. */
  function Mentioned(w: World, modes: map<string, string>, unsupported: map<string, IndexReason>, selected: seq<string>, area: Area, path: string): nat {
    if !Scoped(modes, unsupported, selected, area, path) then 0
    else if area == SelectedFiles && w.ignored(path) then multiset(selected)[path]
    else 1
  }

  predicate AllSafe(w: World, selected: seq<string>) { forall i :: 0 <= i < |selected| ==> w.safe(selected[i]) }

  /** The classification before the reads: what is to be read, and the gaps already certain. */
  ghost predicate Classified(modes: map<string, string>, unsupported: map<string, IndexReason>, selected: seq<string>, w: World,
    kinds: map<string, PathKind>, gaps: seq<Gap>)
  {
    && (forall path :: path in modes ==> path in kinds && kinds[path] == Tracked)
    && (forall path :: path in kinds ==> if kinds[path] == Tracked then path in modes else path in selected && path !in modes && !w.ignored(path))
    && (forall path :: path in selected && path !in modes && !w.ignored(path) ==> path in kinds)
    && (forall path :: GapCount(gaps, TrackedFiles, path) == if path in unsupported then 1 else 0)
    && (forall path :: GapCount(gaps, SelectedFiles, path) == if path !in modes && w.ignored(path) then multiset(selected)[path] else 0)
  }

  /** The gaps of the index, one for each unsupported path, in some order. */
  method IndexGaps(unsupported: map<string, IndexReason>, ghost w: World) returns (gaps: seq<Gap>)
    ensures AllJustified(w, unsupported, gaps)
    ensures forall path :: GapCount(gaps, TrackedFiles, path) == if path in unsupported then 1 else 0
    ensures forall path :: GapCount(gaps, SelectedFiles, path) == 0
  {
    gaps := [];
    var rest := unsupported.Keys;
    while rest != {}
      invariant rest <= unsupported.Keys && AllJustified(w, unsupported, gaps)
      invariant forall path :: GapCount(gaps, TrackedFiles, path) == if path in unsupported && path !in rest then 1 else 0
      invariant forall path :: GapCount(gaps, SelectedFiles, path) == 0
      decreases rest
    {
      var path :| path in rest;
      var g := Gap(TrackedFiles, path, IndexGap(unsupported[path]));
      forall area, other ensures GapCount(gaps + [g], area, other) == GapCount(gaps, area, other) + (if g.area == area && g.path == other then 1 else 0) {
        GapAdded(gaps, g, area, other);
      }
      gaps, rest := gaps + [g], rest - {path};
    }
  }

  /** The selection loop: an unsafe path is an error, an ignored one a gap. */
  method Classify(modes: map<string, string>, unsupported: map<string, IndexReason>, selected: seq<string>, w: World)
    returns (ok: bool, kinds: map<string, PathKind>, gaps: seq<Gap>)
    ensures ok <==> AllSafe(w, selected)
    ensures ok ==> Classified(modes, unsupported, selected, w, kinds, gaps) && AllJustified(w, unsupported, gaps)
  {
    hide GapCount, Classified, AllJustified;
    kinds := map path | path in modes :: Tracked;
    gaps := IndexGaps(unsupported, w);
    NothingSelected(modes, unsupported, selected[..0], w, kinds, gaps);
    for i := 0 to |selected|
      invariant forall k :: 0 <= k < i ==> w.safe(selected[k])
      invariant Classified(modes, unsupported, selected[..i], w, kinds, gaps) && AllJustified(w, unsupported, gaps)
    {
      var path := selected[i];
      if !w.safe(path) { return false, kinds, gaps; }
      assert selected[..i + 1] == selected[..i] + [path];
      ClassifiedGrows(modes, unsupported, selected[..i], w, kinds, gaps, path);
      if path !in kinds {
        if w.ignored(path) {
          IgnoredJustified(w, unsupported, gaps, path);
          gaps := gaps + [Gap(SelectedFiles, path, GitIgnored)];
        } else {
          kinds := kinds[path := SelectedUntracked];
        }
      }
    }
    assert selected[..|selected|] == selected;
    ok := true;
  }

  lemma NothingSelected(modes: map<string, string>, unsupported: map<string, IndexReason>, none: seq<string>, w: World,
    kinds: map<string, PathKind>, gaps: seq<Gap>)
    requires |none| == 0 && kinds == map path | path in modes :: Tracked
    requires forall path :: GapCount(gaps, TrackedFiles, path) == if path in unsupported then 1 else 0
    requires forall path :: GapCount(gaps, SelectedFiles, path) == 0
    ensures Classified(modes, unsupported, none, w, kinds, gaps)
  {
    hide GapCount;
    assert multiset(none) == multiset{};
  }

  lemma IgnoredJustified(w: World, unsupported: map<string, IndexReason>, gaps: seq<Gap>, path: string)
    requires AllJustified(w, unsupported, gaps) && w.ignored(path)
    ensures AllJustified(w, unsupported, gaps + [Gap(SelectedFiles, path, GitIgnored)])
  {
  }

  lemma ClassifiedGrows(modes: map<string, string>, unsupported: map<string, IndexReason>, done: seq<string>, w: World,
    kinds: map<string, PathKind>, gaps: seq<Gap>, path: string)
    requires Classified(modes, unsupported, done, w, kinds, gaps)
    ensures path in kinds ==> Classified(modes, unsupported, done + [path], w, kinds, gaps)
    ensures path !in kinds && w.ignored(path) ==>
      Classified(modes, unsupported, done + [path], w, kinds, gaps + [Gap(SelectedFiles, path, GitIgnored)])
    ensures path !in kinds && !w.ignored(path) ==> Classified(modes, unsupported, done + [path], w, kinds[path := SelectedUntracked], gaps)
  {
    var more := done + [path];
    GapsWith(gaps, Gap(SelectedFiles, path, GitIgnored));
    hide GapCount;
    assert forall x :: x in more <==> x in done || x == path;
    assert multiset(more) == multiset(done) + multiset{path};
    if path in kinds {
      assert Classified(modes, unsupported, more, w, kinds, gaps);
    } else if w.ignored(path) {
      assert Classified(modes, unsupported, more, w, kinds, gaps + [Gap(SelectedFiles, path, GitIgnored)]);
    } else {
      assert Classified(modes, unsupported, more, w, kinds[path := SelectedUntracked], gaps);
    }
  }

  lemma GapsWith(gaps: seq<Gap>, g: Gap)
    ensures forall area, path {:trigger GapCount(gaps + [g], area, path)} ::
      GapCount(gaps + [g], area, path) == GapCount(gaps, area, path) + (if g.area == area && g.path == path then 1 else 0)
  {
    forall area, path ensures GapCount(gaps + [g], area, path) == GapCount(gaps, area, path) + (if g.area == area && g.path == path then 1 else 0) {
      GapAdded(gaps, g, area, path);
    }
  }

  /** After the reads of some of the paths: each of them is an entry or a gap of its area, once. */
  ghost predicate Divided(kinds: map<string, PathKind>, gaps0: seq<Gap>, done: seq<string>, entries: seq<FoundFile>, gaps: seq<Gap>) {
    forall area, path ::
      EntryCount(entries, area, path) + GapCount(gaps, area, path)
      == GapCount(gaps0, area, path) + (if path in done && path in kinds && AreaOf(kinds[path]) == area then 1 else 0)
  }

  /** A captured entry is what the read found: an absent file, or the very bytes and flag of an allowed one. */
  predicate Faithful(w: World, e: FoundFile) {
    && !w.excluded(e.path)
    && (if e.bytes.None? then w.read(e.path).Deleted?
        else w.read(e.path) == ReadResult.Present(e.bytes.value, e.executable) && !w.secret(e.bytes.value))
  }

  /** A gap's reason is true of its path. */
  predicate Justified(w: World, unsupported: map<string, IndexReason>, g: Gap) {
    match g.reason
    case IndexGap(why) => g.path in unsupported && unsupported[g.path] == why
    case GitIgnored => w.ignored(g.path)
    case SensitivePath => w.excluded(g.path)
    case UnsupportedFile(reason) => !w.excluded(g.path) && w.read(g.path) == Unsupported(reason)
    case SensitiveContent => !w.excluded(g.path) && w.read(g.path).Present? && w.secret(w.read(g.path).bytes)
  }

  predicate AllJustified(w: World, unsupported: map<string, IndexReason>, gaps: seq<Gap>) {
    forall k :: 0 <= k < |gaps| ==> Justified(w, unsupported, gaps[k])
  }

  predicate AllFaithful(w: World, entries: seq<FoundFile>) {
    forall k :: 0 <= k < |entries| ==> Faithful(w, entries[k])
  }

  lemma OneJustified(w: World, unsupported: map<string, IndexReason>, kind: PathKind, path: string)
    ensures var one := CaptureOne(w, kind, path);
      (one.0.Some? ==> Faithful(w, one.0.value)) && (one.1.Some? ==> Justified(w, unsupported, one.1.value))
  {
  }

  lemma AccountGrows(w: World, unsupported: map<string, IndexReason>, entries: seq<FoundFile>, gaps: seq<Gap>, kind: PathKind, path: string)
    requires AllFaithful(w, entries) && AllJustified(w, unsupported, gaps)
    ensures var one := CaptureOne(w, kind, path);
      && (one.0.Some? ==> AllFaithful(w, entries + [one.0.value])) && (one.1.Some? ==> AllJustified(w, unsupported, gaps + [one.1.value]))
  {
    OneJustified(w, unsupported, kind, path);
    hide CaptureOne, Faithful, Justified;
  }

  /** One path of the capture loop. */
  function CaptureOne(w: World, kind: PathKind, path: string): (Option<FoundFile>, Option<Gap>) {
    var area := AreaOf(kind);
    if w.excluded(path) then (None, Some(Gap(area, path, SensitivePath)))
    else
      match w.read(path)
      case Unsupported(reason) => (None, Some(Gap(area, path, UnsupportedFile(reason))))
      case Deleted => (Some(FoundFile(path, kind, None, false)), None)
      case Present(bytes, executable) =>
        if w.secret(bytes) then (None, Some(Gap(area, path, SensitiveContent)))
        else (Some(FoundFile(path, kind, Some(bytes), executable)), None)
  }

  /** The capture loop over the sorted paths. */
  method CapturePaths(kinds: map<string, PathKind>, gaps0: seq<Gap>, w: World, ghost unsupported: map<string, IndexReason>)
    returns (entries: seq<FoundFile>, gaps: seq<Gap>)
    requires AllJustified(w, unsupported, gaps0)
    ensures AllJustified(w, unsupported, gaps) && AllFaithful(w, entries)
    ensures Divided(kinds, gaps0, SortedKeys(kinds.Keys), entries, gaps)
    ensures forall i, j :: 0 <= i < j < |entries| ==> entries[i].path != entries[j].path && StrLeq(entries[i].path, entries[j].path)
  {
    var paths := SortedKeys(kinds.Keys);
    entries, gaps := [], gaps0;
    assert Divided(kinds, gaps0, paths[..0], entries, gaps) && Ascending(entries, paths[..0]) && AllFaithful(w, entries);
    SortedKeysOrder(kinds.Keys);
    hide GapCount, EntryCount, StrLeq, Divided, CaptureOne, SortedKeys, AllFaithful, AllJustified, Ascending, Distinct, Sorted;
    for n := 0 to |paths|
      invariant Divided(kinds, gaps0, paths[..n], entries, gaps)
      invariant Ascending(entries, paths[..n])
      invariant AllJustified(w, unsupported, gaps) && AllFaithful(w, entries)
    {
      var path := paths[n];
      NextPath(kinds.Keys, n);
      var one := CaptureOne(w, kinds[path], path);
      DividedGrows(kinds, gaps0, paths[..n], entries, gaps, w, path);
      AscendingGrows(entries, paths, n, one.0);
      AccountGrows(w, unsupported, entries, gaps, kinds[path], path);
      if one.0.Some? { entries := entries + [one.0.value]; } else { gaps := gaps + [one.1.value]; }
    }
    assert paths[..|paths|] == paths;
    AscendingOrder(entries, paths);
  }

  lemma SortedKeysOrder(keys: set<string>)
    ensures Sorted(SortedKeys(keys), StrLeq) && Distinct(SortedKeys(keys))
  {
  }

  lemma AscendingOrder(entries: seq<FoundFile>, done: seq<string>)
    requires Ascending(entries, done)
    ensures forall i, j :: 0 <= i < j < |entries| ==> entries[i].path != entries[j].path && StrLeq(entries[i].path, entries[j].path)
  {
    hide StrLeq;
  }

  /** The entries come in path order, and from the paths already done. */
  ghost predicate Ascending(entries: seq<FoundFile>, done: seq<string>) {
    && (forall k :: 0 <= k < |entries| ==> entries[k].path in done)
    && (forall i, j :: 0 <= i < j < |entries| ==> entries[i].path != entries[j].path && StrLeq(entries[i].path, entries[j].path))
  }

  lemma NextPath(keys: set<string>, n: nat)
    requires n < |SortedKeys(keys)|
    ensures var paths := SortedKeys(keys);
      paths[n] in keys && paths[n] !in paths[..n] && paths[..n + 1] == paths[..n] + [paths[n]]
  {
    hide StrLeq;
    var paths := SortedKeys(keys);
    assert paths[n] in paths;
    forall k | 0 <= k < n ensures paths[k] != paths[n] {}
  }

  lemma AscendingGrows(entries: seq<FoundFile>, paths: seq<string>, n: nat, one: Option<FoundFile>)
    requires n < |paths| && Ascending(entries, paths[..n]) && Sorted(paths, StrLeq) && Distinct(paths)
    requires one.Some? ==> one.value.path == paths[n]
    ensures Ascending(if one.Some? then entries + [one.value] else entries, paths[..n + 1])
  {
    hide StrLeq;
    forall k | 0 <= k < |entries| ensures entries[k].path in paths[..n + 1] && entries[k].path != paths[n] && StrLeq(entries[k].path, paths[n]) {
      var i :| 0 <= i < n && paths[..n][i] == entries[k].path;
      assert paths[..n + 1][i] == entries[k].path;
    }
    assert paths[..n + 1][n] == paths[n];
  }

  lemma DividedGrows(kinds: map<string, PathKind>, gaps0: seq<Gap>, done: seq<string>, entries: seq<FoundFile>, gaps: seq<Gap>, w: World, path: string)
    requires Divided(kinds, gaps0, done, entries, gaps) && path in kinds && path !in done
    ensures var one := CaptureOne(w, kinds[path], path);
      && (one.0.Some? <==> one.1.None?) && (one.0.Some? ==> one.0.value.path == path)
      && (one.0.Some? ==> Divided(kinds, gaps0, done + [path], entries + [one.0.value], gaps))
      && (one.1.Some? ==> Divided(kinds, gaps0, done + [path], entries, gaps + [one.1.value]))
  {
    var one := CaptureOne(w, kinds[path], path);
    forall area, other
      ensures one.0.Some? ==>
        EntryCount(entries + [one.0.value], area, other)
        == EntryCount(entries, area, other) + (if AreaOf(kinds[path]) == area && path == other then 1 else 0)
      ensures one.1.Some? ==>
        GapCount(gaps + [one.1.value], area, other)
        == GapCount(gaps, area, other) + (if AreaOf(kinds[path]) == area && path == other then 1 else 0)
    {
      if one.0.Some? { EntryAdded(entries, one.0.value, area, other); } else { GapAdded(gaps, one.1.value, area, other); }
    }
    hide EntryCount, GapCount;
  }

  /** The capture as a whole: every scoped path of an area is exactly one of captured or gap, once (an ignored selected path
      as often as it is listed), and nothing else is either; what is captured is what was read and has a canonical manifest,
      and every gap's reason is true. It fails exactly for an unreadable index, a missing base or an unsafe selected path. */
  method CaptureRepository(records: seq<IndexRecord>, selected: seq<string>, w: World, gitBase: string, digest: Content -> Hash)
    returns (ok: bool, entries: seq<FoundFile>, gaps: seq<Gap>, ghost modes: map<string, string>, ghost unsupported: map<string, IndexReason>)
    ensures ok <==> Readable(records) && gitBase != "" && AllSafe(w, selected)
    ensures ok ==> Indexed(records, modes, unsupported)
    ensures ok ==> forall area, path ::
      EntryCount(entries, area, path) + GapCount(gaps, area, path) == Mentioned(w, modes, unsupported, selected, area, path)
    ensures ok ==> AllJustified(w, unsupported, gaps) && AllFaithful(w, entries)
    ensures ok ==> FoundManifestHash(digest, Found(gitBase, entries)).Some?
  {
    hide Justified, Faithful, Indexed, GapCount, EntryCount, StrLeq, Sort, ManifestText;
    entries, gaps, modes, unsupported := [], [], map[], map[];
    if gitBase == "" { return false, [], [], map[], map[]; }
    var readable, regular, others := TrackedIndex(records);
    if !readable { return false, [], [], map[], map[]; }
    modes, unsupported := regular, others;
    var safe, kinds, early := Classify(regular, others, selected, w);
    if !safe { return false, [], [], map[], map[]; }
    entries, gaps := CapturePaths(kinds, early, w, others);
    AllDivided(regular, others, selected, w, kinds, early, entries, gaps, records);
    UniqueEntries(digest, entries);
    ok := true;
  }

  lemma AllDivided(modes: map<string, string>, unsupported: map<string, IndexReason>, selected: seq<string>, w: World,
    kinds: map<string, PathKind>, gaps0: seq<Gap>, entries: seq<FoundFile>, gaps: seq<Gap>, records: seq<IndexRecord>)
    requires Classified(modes, unsupported, selected, w, kinds, gaps0) && Divided(kinds, gaps0, SortedKeys(kinds.Keys), entries, gaps)
    requires Indexed(records, modes, unsupported)
    ensures forall area, path ::
      EntryCount(entries, area, path) + GapCount(gaps, area, path) == Mentioned(w, modes, unsupported, selected, area, path)
  {
    hide EntryCount, GapCount, Regular, Known;
    forall path ensures path in SortedKeys(kinds.Keys) <==> path in kinds {}
    hide SortedKeys;
    forall area, path
      ensures EntryCount(entries, area, path) + GapCount(gaps, area, path) == Mentioned(w, modes, unsupported, selected, area, path)
    {
      assert area == TrackedFiles || area == SelectedFiles;
      assert !(path in modes && path in unsupported);
    }
  }

  lemma UniqueEntries(digest: Content -> Hash, entries: seq<FoundFile>)
    requires forall i, j :: 0 <= i < j < |entries| ==> entries[i].path != entries[j].path
    ensures UniquePaths(FoundEntries(digest, entries))
  {
  }
}
