/** The archive adapter and the coverage totals: nothing is counted twice, nothing is lost. */
module Coverage {
  import opened Ordering
  import opened Candidates

  // ---- Raw events ----

  datatype Action = NoAction | NotAName | ReadAction | EditAction | RunAction | OtherAction(text: string)
  datatype Observation = ReadObservation | OtherObservation(text: string)
  /** `fullView` stands for start 0, end -1 and no view range. */
  datatype Args = Args(path: Option<string>, fullView: bool)
  datatype Raw =
    | NotObject
    | Raw(id: Option<int>, hasSource: bool, hasMessage: bool, action: Action, args: Option<Args>, cause: Option<int>,
          observation: Option<Observation>, content: Option<string>)

  /** SHA-256, the encoded size, and the line-number test of a listing, as arbitrary functions. */
  datatype Reader = Reader(digest: string -> Hash, size: string -> nat, numbered: string -> bool)

  predicate WellFormed(e: Raw) {
    && e.Raw? && e.id.Some? && e.hasSource && e.hasMessage
    && (e.action.NoAction? || (!e.action.NotAName? && e.args.Some?))
  }

  predicate HasId(e: Raw, x: int) { e.Raw? && e.id.Some? && e.id.value == x }

  ghost predicate Seen(document: seq<Raw>, n: nat, x: int) {
    exists k :: 0 <= k < n && k < |document| && HasId(document[k], x)
  }

  ghost predicate Accepted(document: seq<Raw>) {
    && (forall i :: 0 <= i < |document| ==> WellFormed(document[i]))
    && (forall i, j :: 0 <= i < j < |document| ==> document[i].id != document[j].id)
  }

  /** `_validate_events`. */
  method ValidateEvents(document: seq<Raw>) returns (ok: bool)
    ensures ok <==> Accepted(document)
  {
    var identifiers: set<int> := {};
    for i := 0 to |document|
      invariant forall k :: 0 <= k < i ==> WellFormed(document[k])
      invariant forall k, l :: 0 <= k < l < i ==> document[k].id != document[l].id
      invariant forall x :: x in identifiers <==> Seen(document, i, x)
    {
      var e := document[i];
      if !e.Raw? { return false; }
      if e.id.Some? && e.id.value in identifiers {
        assert Seen(document, i, e.id.value);
        ghost var k :| 0 <= k < i && HasId(document[k], e.id.value);
        assert document[k].id == document[i].id;
        return false;
      }
      if e.id.None? || !e.hasSource || !e.hasMessage { return false; }
      assert forall k :: 0 <= k < i && HasId(document[k], e.id.value) ==> e.id.value in identifiers;
      if !e.action.NoAction? && (e.action.NotAName? || e.args.None?) { return false; }
      identifiers := identifiers + {e.id.value};
    }
    return true;
  }

  // ---- Paths ----

  /** The non-empty, non-`.` components of a path. */
  function Parts(s: string, part: string): seq<string> {
    if s == "" then Kept(part)
    else if s[0] == '/' then Kept(part) + Parts(s[1..], "")
    else Parts(s[1..], part + [s[0]])
  }

  function Kept(part: string): seq<string> { if part == "" || part == "." then [] else [part] }

  function Join(parts: seq<string>): string {
    if parts == [] then "" else if |parts| == 1 then parts[0] else parts[0] + "/" + Join(parts[1..])
  }

  function WorkspacePrefix(): string { "/workspace/" }

  /** `_normalize_path`: what follows the workspace and the repository directory. */
  function Normalize(path: Option<string>): Option<string> {
    if path.None? || !(WorkspacePrefix() <= path.value) then None
    else
      var parts := Parts(path.value, "");
      if ".." in parts || |parts| < 3 then None else Some(Join(parts[2..]))
  }

  /** No component of a path names a parent or is empty or has a slash in it. */
  lemma {:induction false} PartsPlain(s: string, part: string)
    requires '/' !in part
    ensures forall i :: 0 <= i < |Parts(s, part)| ==> Parts(s, part)[i] != "" && Parts(s, part)[i] != "." && '/' !in Parts(s, part)[i]
  {
    if s != "" {
      if s[0] == '/' { PartsPlain(s[1..], ""); } else { PartsPlain(s[1..], part + [s[0]]); }
    }
  }

  lemma {:induction false} JoinSplits(parts: seq<string>)
    requires parts != [] && forall i :: 0 <= i < |parts| ==> parts[i] != "" && parts[i] != "." && '/' !in parts[i]
    ensures Parts(Join(parts), "") == parts
    ensures Join(parts) != ""
  {
    if |parts| == 1 {
      PartsOne(parts[0], "");
      assert "" + parts[0] == parts[0] && parts == [parts[0]];
    } else {
      JoinSplits(parts[1..]);
      PartsNext(parts[0], Join(parts[1..]));
      assert parts == [parts[0]] + parts[1..];
      assert Join(parts) == parts[0] + "/" + Join(parts[1..]);
    }
  }

  lemma PartsNext(a: string, rest: string)
    requires '/' !in a && a != "" && a != "."
    ensures Parts(a + "/" + rest, "") == [a] + Parts(rest, "")
  {
    PartsThen(a, "", rest);
    assert "" + a == a;
  }

  lemma {:induction false} PartsOne(a: string, part: string)
    requires '/' !in a
    ensures Parts(a, part) == Kept(part + a)
  {
    if a == "" {
      assert part + a == part;
    } else {
      PartsOne(a[1..], part + [a[0]]);
      assert part + [a[0]] + a[1..] == part + a;
    }
  }

  lemma {:induction false} PartsThen(a: string, part: string, rest: string)
    requires '/' !in a
    ensures Parts(a + "/" + rest, part) == Kept(part + a) + Parts(rest, "")
  {
    var s := a + "/" + rest;
    if a == "" {
      assert s[0] == '/' && s[1..] == rest && part + a == part;
    } else {
      assert s[0] == a[0] && s[1..] == a[1..] + "/" + rest;
      PartsThen(a[1..], part + [a[0]], rest);
      assert part + [a[0]] + a[1..] == part + a;
    }
  }

  /** The components that name something. */
  function NonTrivial(raw: seq<string>): seq<string> {
    if raw == [] then [] else (if raw[0] == "" || raw[0] == "." then [] else [raw[0]]) + NonTrivial(raw[1..])
  }

  ghost predicate Slashless(raw: seq<string>) { raw != [] && forall i :: 0 <= i < |raw| ==> '/' !in raw[i] }

  /** Every text is a list of components with slashes between them. */
  lemma {:induction false} SplitAtSlashes(s: string) returns (raw: seq<string>)
    ensures Slashless(raw) && Join(raw) == s
  {
    if s == "" {
      raw := [""];
    } else {
      var rest := SplitAtSlashes(s[1..]);
      if s[0] == '/' {
        raw := [""] + rest;
        assert raw[1..] == rest;
      } else {
        raw := [[s[0]] + rest[0]] + rest[1..];
        assert raw[1..] == rest[1..];
      }
    }
  }

  lemma {:induction false} PartsOfJoin(raw: seq<string>)
    requires Slashless(raw)
    ensures Parts(Join(raw), "") == NonTrivial(raw)
  {
    if |raw| == 1 {
      PartsOne(raw[0], "");
      assert "" + raw[0] == raw[0] && raw[1..] == [];
    } else {
      PartsOfJoin(raw[1..]);
      PartsThen(raw[0], "", Join(raw[1..]));
      assert "" + raw[0] == raw[0] && Join(raw) == raw[0] + "/" + Join(raw[1..]);
    }
  }

  lemma FirstSlash(a: string, rest: string, n: nat)
    requires '/' !in a && n < |a + "/" + rest| && (a + "/" + rest)[n] == '/'
    ensures n >= |a|
  {
  }

  lemma SlashKept(a: string, s: string)
    ensures a <= s && '/' in a ==> '/' in s
  {
    if a <= s && '/' in a {
      var i :| 0 <= i < |a| && a[i] == '/';
      assert s[i] == '/';
    }
  }

  /** A text starts with a component and a slash exactly when that is its first component and not its last. */
  lemma FirstComponent(raw: seq<string>, first: string)
    requires Slashless(raw) && '/' !in first
    ensures first + "/" <= Join(raw) <==> |raw| >= 2 && raw[0] == first
  {
    var s, head := Join(raw), first + "/";
    assert head[|first|] == '/';
    if |raw| == 1 {
      SlashKept(head, s);
    } else {
      var rest := Join(raw[1..]);
      assert s == raw[0] + "/" + rest;
      SameStart(first, raw[0], rest);
    }
  }

  lemma SameStart(first: string, a: string, rest: string)
    requires '/' !in first && '/' !in a
    ensures first + "/" <= a + "/" + rest <==> first == a
  {
    var s, head := a + "/" + rest, first + "/" + "";
    assert head == first + "/" && s[|a|] == '/' && head[|first|] == '/';
    if head <= s {
      FirstSlash(a, rest, |first|);
      assert head[|a|] == s[|a|];
      FirstSlash(first, "", |a|);
      assert first == s[..|first|] && a == s[..|a|];
    }
  }

  /** What a path is normalized to: below the workspace, with at least two components after it and no parent among them,
      what follows the first of the two; and nothing otherwise. */
  lemma NormalizeExactly(raw: seq<string>)
    requires Slashless(raw)
    ensures var named := NonTrivial(raw);
      Normalize(Some(Join(raw))) ==
        if |raw| >= 3 && raw[0] == "" && raw[1] == "workspace" && |named| >= 3 && ".." !in named then Some(Join(named[2..])) else None
  {
    PartsOfJoin(raw);
    FirstComponent(raw, "");
    assert "" + "/" == "/" && WorkspacePrefix()[..1] == "/";
    if |raw| >= 2 && raw[0] == "" {
      FirstComponent(raw[1..], "workspace");
      PrefixBelow(Join(raw[1..]));
    } else {
      assert WorkspacePrefix() <= Join(raw) ==> "/" <= Join(raw);
    }
  }

  lemma PrefixBelow(rest: string)
    ensures WorkspacePrefix() <= "" + "/" + rest <==> "workspace" + "/" <= rest
  {
    var s := "" + "/" + rest;
    assert WorkspacePrefix() == "/" + ("workspace" + "/") && s[1..] == rest;
    if WorkspacePrefix() <= s { assert WorkspacePrefix()[1..] <= s[1..]; }
  }

  /** A normalized path is relative and stays inside the repository; normalizing it again below any repository directory
      gives it back. */
  lemma NormalizedInside(path: Option<string>, repository: string)
    requires Normalize(path).Some? && '/' !in repository && repository != "" && repository != "." && repository != ".."
    ensures var n := Normalize(path).value;
      && n != "" && ".." !in Parts(n, "")
      && Normalize(Some(WorkspacePrefix() + repository + "/" + n)) == Some(n)
  {
    var n, parts := Normalize(path).value, Parts(path.value, "");
    PartsPlain(path.value, "");
    JoinSplits(parts[2..]);
    var full := WorkspacePrefix() + repository + "/" + n;
    var workspace := "workspace";
    assert full == "" + "/" + (workspace + "/" + (repository + "/" + n));
    PartsThen("", "", workspace + "/" + (repository + "/" + n));
    PartsNext(workspace, repository + "/" + n);
    PartsNext(repository, n);
    assert "" + "" == "" && Kept("") == [];
    assert Parts(full, "") == [workspace] + ([repository] + parts[2..]);
    assert Parts(full, "") == [workspace, repository] + parts[2..];
    assert ([workspace, repository] + parts[2..])[2..] == parts[2..];
    assert WorkspacePrefix() <= full;
    assert workspace != "..";
  }

  // ---- The adapter ----

  function SourceId(): string { "multi_swe_bench_flash_openhands" }
  function Header(): string { "Here's the result of running `cat -n` on " }

  /** `_file_output`: hash, size and completeness of a full listing of the very path. */
  function FileOutput(r: Reader, content: Option<string>, path: Option<string>, fullView: bool): Option<(Hash, nat, bool)> {
    if content.None? || path.None? || path.value == "" || '\n' in path.value || !(Header() + path.value + ":\n" <= content.value) then None
    else
      var body := content.value[|Header() + path.value + ":\n"|..];
      Some((r.digest(content.value), r.size(content.value), fullView && r.numbered(body)))
  }

  predicate IsReadAction(e: Raw) { e.Raw? && e.action.ReadAction? && e.args.Some? }
  predicate IsEditAction(e: Raw) { e.Raw? && e.action.EditAction? && e.args.Some? }
  predicate IsRunAction(e: Raw) { e.Raw? && e.action.RunAction? }

  /** The positions of the results that name `id` as their cause, as the dictionary collects them. */
  function ResultsOf(events: seq<Raw>, n: nat, id: int): seq<nat>
    requires n <= |events|
  {
    if n == 0 then []
    else ResultsOf(events, n - 1, id) + (if events[n - 1].Raw? && events[n - 1].cause == Some(id) then [n - 1] else [])
  }

  function Under(byCause: map<int, seq<nat>>, id: int): seq<nat> { if id in byCause then byCause[id] else [] }

  method IndexResults(events: seq<Raw>) returns (byCause: map<int, seq<nat>>)
    ensures forall id :: Under(byCause, id) == ResultsOf(events, |events|, id)
  {
    byCause := map[];
    assert forall id :: ResultsOf(events, 0, id) == [];
    hide ResultsOf;
    for i := 0 to |events|
      invariant forall id :: Under(byCause, id) == ResultsOf(events, i, id)
    {
      ghost var before := byCause;
      if events[i].Raw? && events[i].cause.Some? {
        var cause := events[i].cause.value;
        byCause := byCause[cause := Under(byCause, cause) + [i]];
      }
      forall id ensures Under(byCause, id) == ResultsOf(events, i + 1, id) { ResultsGrow(events, i, id); }
    }
  }

  lemma ResultsGrow(events: seq<Raw>, n: nat, id: int)
    requires n < |events|
    ensures ResultsOf(events, n + 1, id) == ResultsOf(events, n, id) + (if events[n].Raw? && events[n].cause == Some(id) then [n] else [])
  {
  }

  /** Among those, the ones that are read observations. */
  function ReadResults(events: seq<Raw>, ps: seq<nat>): seq<nat>
    requires forall k :: 0 <= k < |ps| ==> ps[k] < |events|
  {
    if ps == [] then []
    else (if events[ps[0]].Raw? && events[ps[0]].observation == Some(ReadObservation) then [ps[0]] else []) + ReadResults(events, ps[1..])
  }

  lemma {:induction false} ResultsInRange(events: seq<Raw>, n: nat, id: int)
    requires n <= |events|
    ensures forall k :: 0 <= k < |ResultsOf(events, n, id)| ==> ResultsOf(events, n, id)[k] < n
  {
    if n > 0 { ResultsInRange(events, n - 1, id); }
  }

  lemma {:induction false} ReadResultsInRange(events: seq<Raw>, ps: seq<nat>)
    requires forall k :: 0 <= k < |ps| ==> ps[k] < |events|
    ensures forall k :: 0 <= k < |ReadResults(events, ps)| ==> ReadResults(events, ps)[k] < |events| && events[ReadResults(events, ps)[k]].Raw?
  {
    if ps != [] { ReadResultsInRange(events, ps[1..]); }
  }

  /** What the adapter can prove of the read action at `i`: nothing unless exactly one read result names it, and that result
      is a full listing of the very path. Everything only a live request could show stays unobserved. */
  function AdaptedRead(r: Reader, events: seq<Raw>, i: nat, trajectory: string, show: int -> string): Option<Read>
    requires i < |events| && IsReadAction(events[i]) && events[i].id.Some?
  {
    ResultsInRange(events, |events|, events[i].id.value);
    var matching := ReadResults(events, ResultsOf(events, |events|, events[i].id.value));
    ReadResultsInRange(events, ResultsOf(events, |events|, events[i].id.value));
    if |matching| != 1 then None
    else
      var path := events[i].args.value.path;
      var parsed := FileOutput(r, events[matching[0]].content, path, events[i].args.value.fullView);
      if Normalize(path).None? || parsed.None? then None
      else
        Some(Read(trajectory, show(events[i].id.value), i, Normalize(path), Some(parsed.value.0), Some(parsed.value.1), None,
                  Some(parsed.value.2), None, None, None, [(SourceId(), trajectory, show(i)), (SourceId(), trajectory, show(matching[0]))]))
  }

  // ---- What is kept of a read, told over the events alone ----

  /** Event `j` is a read result that names `id` as its cause. */
  ghost predicate ReadResult(events: seq<Raw>, j: int, id: int) {
    0 <= j < |events| && events[j].Raw? && events[j].cause == Some(id) && events[j].observation == Some(ReadObservation)
  }

  lemma {:induction false} ReadResultsJoined(events: seq<Raw>, a: seq<nat>, b: seq<nat>)
    requires (forall k :: 0 <= k < |a| ==> a[k] < |events|) && (forall k :: 0 <= k < |b| ==> b[k] < |events|)
    ensures forall k :: 0 <= k < |a + b| ==> (a + b)[k] < |events|
    ensures ReadResults(events, a + b) == ReadResults(events, a) + ReadResults(events, b)
  {
    if a == [] {
      assert a + b == b;
    } else {
      assert (a + b)[1..] == a[1..] + b;
      ReadResultsJoined(events, a[1..], b);
    }
  }

  lemma SingleJoined(a: seq<nat>, b: seq<nat>)
    requires |b| <= 1
    ensures a + b == [] <==> a == [] && b == []
    ensures forall j :: a + b == [j] <==> (a == [j] && b == []) || (a == [] && b == [j])
  {
    assert b == [] ==> a + b == a;
    assert a == [] ==> a + b == b;
    assert a != [] && b != [] ==> |a + b| >= 2;
  }

  /** The read results among the first `n` events that name `id` as their cause. */
  ghost function MatchingOf(events: seq<Raw>, n: nat, id: int): seq<nat>
    requires n <= |events|
  {
    ResultsInRange(events, n, id);
    ReadResults(events, ResultsOf(events, n, id))
  }

  lemma MatchingGrows(events: seq<Raw>, n: nat, id: int)
    requires n < |events|
    ensures MatchingOf(events, n + 1, id) == MatchingOf(events, n, id) + (if ReadResult(events, n, id) then [n] else [])
  {
    ResultsInRange(events, n + 1, id);
    ResultsInRange(events, n, id);
    var own: seq<nat> := if events[n].Raw? && events[n].cause == Some(id) then [n] else [];
    ReadResultsJoined(events, ResultsOf(events, n, id), own);
    assert own != [] ==> own[1..] == [];
  }

  ghost predicate NoneYet(events: seq<Raw>, n: nat, id: int) { forall k: nat :: k < n ==> !ReadResult(events, k, id) }

  ghost predicate OnlyOne(events: seq<Raw>, n: nat, j: nat, id: int) {
    j < n && ReadResult(events, j, id) && forall k: nat :: k < n && ReadResult(events, k, id) ==> k == j
  }

  lemma OnlyMore(events: seq<Raw>, n: nat, id: int)
    ensures NoneYet(events, n + 1, id) <==> NoneYet(events, n, id) && !ReadResult(events, n, id)
    ensures forall j :: OnlyOne(events, n + 1, j, id) <==>
      (OnlyOne(events, n, j, id) && !ReadResult(events, n, id)) || (NoneYet(events, n, id) && ReadResult(events, n, id) && j == n)
  {
    hide ReadResult;
  }

  /** Exactly one read result is found when exactly one event is one. */
  lemma {:induction false} OneResult(events: seq<Raw>, n: nat, id: int)
    requires n <= |events|
    ensures MatchingOf(events, n, id) == [] <==> NoneYet(events, n, id)
    ensures forall j: nat :: MatchingOf(events, n, id) == [j] <==> OnlyOne(events, n, j, id)
    decreases n
  {
    if n > 0 {
      OneResult(events, n - 1, id);
      MatchingGrows(events, n - 1, id);
      OnlyMore(events, n - 1, id);
      var last: seq<nat> := if ReadResult(events, n - 1, id) then [n - 1] else [];
      SingleJoined(MatchingOf(events, n - 1, id), last);
      hide MatchingOf, NoneYet, OnlyOne, ReadResult;
      assert forall j: nat :: last == [j] <==> ReadResult(events, n - 1, id) && j == n - 1;
    }
  }

  /** The content is a listing of this path, with this body under its header. */
  ghost predicate Listing(content: Option<string>, path: string, body: string) {
    content == Some("Here's the result of running `cat -n` on " + path + ":\n" + body) && path != "" && '\n' !in path
  }

  /** What the read action at `i` and its result at `j` prove. */
  ghost predicate Proves(r: Reader, events: seq<Raw>, i: nat, j: nat, body: string, trajectory: string, show: int -> string, x: Read)
    requires i < |events| && IsReadAction(events[i]) && events[i].id.Some?
  {
    var id, path := events[i].id.value, events[i].args.value.path;
    && ReadResult(events, j, id) && (forall k :: ReadResult(events, k, id) ==> k == j)
    && path.Some? && Listing(events[j].content, path.value, body) && Normalize(path).Some?
    && x.trajectory == trajectory && x.occurrence == show(id) && x.position == i && x.path == Normalize(path)
    && x.outputHash == Some(r.digest(events[j].content.value)) && x.outputBytes == Some(r.size(events[j].content.value))
    && x.complete == Some(events[i].args.value.fullView && r.numbered(body))
    && x.fileHash.None? && x.encoding.None? && x.membership.None? && x.currentHash.None?
    && x.refs == [("multi_swe_bench_flash_openhands", trajectory, show(i)), ("multi_swe_bench_flash_openhands", trajectory, show(j))]
  }

  lemma OutputExactly(r: Reader, content: Option<string>, path: Option<string>, fullView: bool, x: (Hash, nat, bool))
    ensures FileOutput(r, content, path, fullView) == Some(x) <==>
      path.Some? && exists body :: Listing(content, path.value, body) && x == (r.digest(content.value), r.size(content.value), fullView && r.numbered(body))
  {
    if path.Some? && content.Some? {
      var head := "Here's the result of running `cat -n` on " + path.value + ":\n";
      assert head == Header() + path.value + ":\n";
      if head <= content.value {
        assert content.value == head + content.value[|head|..];
        if path.value != "" && '\n' !in path.value { assert Listing(content, path.value, content.value[|head|..]); }
      }
      forall body | Listing(content, path.value, body) ensures head <= content.value && body == content.value[|head|..] {
        assert content.value == head + body;
      }
    }
  }

  /** A read action is kept exactly when one read result names it and lists the very path in full, and then as what the two
      events prove. */
  lemma AdaptedExactly(r: Reader, events: seq<Raw>, i: nat, trajectory: string, show: int -> string, x: Read)
    requires i < |events| && IsReadAction(events[i]) && events[i].id.Some?
    ensures AdaptedRead(r, events, i, trajectory, show) == Some(x) <==>
      exists j: nat, body :: Proves(r, events, i, j, body, trajectory, show, x)
  {
    hide FileOutput, Normalize;
    var id, path, fullView := events[i].id.value, events[i].args.value.path, events[i].args.value.fullView;
    OneResult(events, |events|, id);
    var matching := MatchingOf(events, |events|, id);
    hide ReadResults, ResultsOf;
    if AdaptedRead(r, events, i, trajectory, show) == Some(x) {
      var j := matching[0];
      assert matching == [j] && OnlyOne(events, |events|, j, id);
      var parsed := FileOutput(r, events[j].content, path, fullView).value;
      OutputExactly(r, events[j].content, path, fullView, parsed);
      var body :| Listing(events[j].content, path.value, body) &&
        parsed == (r.digest(events[j].content.value), r.size(events[j].content.value), fullView && r.numbered(body));
      assert Proves(r, events, i, j, body, trajectory, show, x);
    }
    if j: nat, body :| Proves(r, events, i, j, body, trajectory, show, x) {
      assert OnlyOne(events, |events|, j, id) && matching == [j];
      var parsed := (r.digest(events[j].content.value), r.size(events[j].content.value), fullView && r.numbered(body));
      OutputExactly(r, events[j].content, path, fullView, parsed);
    }
  }

  datatype Trajectory = Trajectory(kept: seq<Read>, changes: seq<Change>, unsupported: nat, eventCount: nat)

  function ReadActions(events: seq<Raw>, n: nat): nat
    requires n <= |events|
  {
    if n == 0 then 0 else ReadActions(events, n - 1) + (if IsReadAction(events[n - 1]) then 1 else 0)
  }

  function ChangeActions(events: seq<Raw>, n: nat): nat
    requires n <= |events|
  {
    if n == 0 then 0 else ChangeActions(events, n - 1) + (if IsEditAction(events[n - 1]) || IsRunAction(events[n - 1]) then 1 else 0)
  }

  /** The read actions among the first `n` events. */
  ghost function ReadsAmong(events: seq<Raw>, n: nat): set<int> {
    set i | 0 <= i < n && i < |events| && events[i].Raw? && events[i].action.ReadAction? && events[i].args.Some?
  }

  /** The edits and commands among the first `n` events. */
  ghost function ChangesAmong(events: seq<Raw>, n: nat): set<int> {
    set i | 0 <= i < n && i < |events| && events[i].Raw? && (events[i].action.RunAction? || (events[i].action.EditAction? && events[i].args.Some?))
  }

  lemma ReadsNext(events: seq<Raw>, n: nat)
    requires n < |events|
    ensures ReadsAmong(events, n + 1) == ReadsAmong(events, n) + if IsReadAction(events[n]) then {n} else {}
  {
  }

  lemma {:induction false} ReadsCounted(events: seq<Raw>, n: nat)
    requires n <= |events|
    ensures ReadActions(events, n) == |ReadsAmong(events, n)|
  {
    if n > 0 {
      ReadsCounted(events, n - 1);
      ReadsNext(events, n - 1);
      assert n - 1 !in ReadsAmong(events, n - 1);
      hide ReadsAmong, IsReadAction;
    }
  }

  lemma {:induction false} ChangesCounted(events: seq<Raw>, n: nat)
    requires n <= |events|
    ensures ChangeActions(events, n) == |ChangesAmong(events, n)|
  {
    if n > 0 {
      ChangesCounted(events, n - 1);
      if IsEditAction(events[n - 1]) || IsRunAction(events[n - 1]) {
        assert ChangesAmong(events, n) == ChangesAmong(events, n - 1) + {n - 1};
      } else {
        assert ChangesAmong(events, n) == ChangesAmong(events, n - 1);
      }
    }
  }

  /** An adapter read: what only a live request could show is unobserved. */
  predicate OfArchive(x: Read, trajectory: string) {
    && x.trajectory == trajectory && x.path.Some? && x.outputHash.Some? && x.fileHash.None? && x.encoding.None? && x.membership.None?
    && x.currentHash.None?
  }

  /** The reads an adapter keeps of the first `n` events. */
  ghost predicate Adapts(r: Reader, events: seq<Raw>, n: nat, trajectory: string, show: int -> string, kept: seq<Read>)
    requires n <= |events|
  {
    && (forall k :: 0 <= k < |kept| ==> Stems(r, events, n, trajectory, show, kept[k]))
    && (forall k, l :: 0 <= k < l < |kept| ==> kept[k].position < kept[l].position)
    && (forall i :: 0 <= i < n && IsReadAction(events[i]) && events[i].id.Some? && AdaptedRead(r, events, i, trajectory, show).Some? ==>
          AdaptedRead(r, events, i, trajectory, show).value in kept)
  }

  /** A kept read is what the adapter makes of the read action at its own position. */
  ghost predicate Stems(r: Reader, events: seq<Raw>, n: nat, trajectory: string, show: int -> string, x: Read) {
    && OfArchive(x, trajectory) && x.position < n <= |events| && IsReadAction(events[x.position]) && events[x.position].id.Some?
    && AdaptedRead(r, events, x.position, trajectory, show) == Some(x)
  }

  /** The changes of the first `n` events: each of them its own, in order, none left out. */
  ghost predicate ChangesSound(events: seq<Raw>, n: nat, show: int -> string, changes: seq<Change>) {
    && (forall k :: 0 <= k < |changes| ==> ChangeSound(events, n, show, changes[k]))
    && (forall k, l :: 0 <= k < l < |changes| ==> changes[k].position < changes[l].position)
    && (forall i :: 0 <= i < n && i < |events| && (IsEditAction(events[i]) || IsRunAction(events[i])) ==>
          exists k :: 0 <= k < |changes| && changes[k].position == i)
  }

  /** A change is the edit or the command at its own position; of a command nothing is known about the path. */
  ghost predicate ChangeSound(events: seq<Raw>, n: nat, show: int -> string, c: Change) {
    && c.position < n <= |events|
    && var e := events[c.position];
      && e.Raw? && e.id.Some? && c.occurrence == show(e.id.value)
      && (if e.action.EditAction? then e.args.Some? && c.kind == EditChange && c.path == Normalize(e.args.value.path)
          else e.action.RunAction? && c.kind == UnknownChange && c.path.None?)
  }

  lemma ChangeStays(events: seq<Raw>, n: nat, show: int -> string, c: Change)
    requires n < |events| && ChangeSound(events, n, show, c)
    ensures ChangeSound(events, n + 1, show, c) && c.position < n
  {
    hide Normalize;
  }

  lemma ChangesGrow(events: seq<Raw>, n: nat, show: int -> string, changes: seq<Change>, more: seq<Change>)
    requires n < |events| && ChangesSound(events, n, show, changes)
    requires if IsEditAction(events[n]) || IsRunAction(events[n]) then |more| == 1 && more[0].position == n && ChangeSound(events, n + 1, show, more[0])
             else more == []
    ensures ChangesSound(events, n + 1, show, changes + more)
  {
    hide ChangeSound;
    var all := changes + more;
    forall k | 0 <= k < |all| ensures ChangeSound(events, n + 1, show, all[k]) && (k < |changes| ==> all[k].position < n) {
      if k < |changes| {
        assert all[k] == changes[k];
        ChangeStays(events, n, show, changes[k]);
      } else {
        assert all[k] == more[0];
      }
    }
    forall i | 0 <= i < n + 1 && (IsEditAction(events[i]) || IsRunAction(events[i])) ensures exists k :: 0 <= k < |all| && all[k].position == i {
      if i < n {
        var k :| 0 <= k < |changes| && changes[k].position == i;
        assert all[k] == changes[k];
      } else {
        assert all[|changes|] == more[0];
      }
    }
  }

  lemma AdaptsGrows(r: Reader, events: seq<Raw>, n: nat, trajectory: string, show: int -> string, kept: seq<Read>)
    requires n < |events| && Adapts(r, events, n, trajectory, show, kept)
    ensures !IsReadAction(events[n]) ==> Adapts(r, events, n + 1, trajectory, show, kept)
    ensures IsReadAction(events[n]) && events[n].id.Some? ==>
      var one := AdaptedRead(r, events, n, trajectory, show);
      && (one.None? ==> Adapts(r, events, n + 1, trajectory, show, kept))
      && (one.Some? && OfArchive(one.value, trajectory) && one.value.position == n ==> Adapts(r, events, n + 1, trajectory, show, kept + [one.value]))
  {
    hide AdaptedRead, OfArchive, IsReadAction;
  }

  /** The loop of `adapt_trajectory`: every read action is kept or counted as unsupported, never both. */
  method Adapt(r: Reader, events: seq<Raw>, trajectory: string, show: int -> string) returns (t: Trajectory)
    requires Accepted(events)
    ensures |t.kept| + t.unsupported == ReadActions(events, |events|) == |ReadsAmong(events, |events|)|
    ensures |t.changes| == |ChangesAmong(events, |events|)|
    ensures Adapts(r, events, |events|, trajectory, show, t.kept)
    ensures t.eventCount == |events|
    ensures ChangesSound(events, |events|, show, t.changes) && |t.changes| == ChangeActions(events, |events|)
  {
    hide *;
    ReadsCounted(events, |events|);
    ChangesCounted(events, |events|);
    NothingAdapted(r, events, trajectory, show);
    var byCause := IndexResults(events);
    var kept: seq<Read>, changes: seq<Change>, unsupported := [], [], 0;
    for i := 0 to |events|
      invariant |kept| + unsupported == ReadActions(events, i)
      invariant Adapts(r, events, i, trajectory, show, kept)
      invariant ChangesSound(events, i, show, changes) && |changes| == ChangeActions(events, i)
    {
      AdaptsGrows(r, events, i, trajectory, show, kept);
      ActionsKnown(events, i);
      if IsReadAction(events[i]) {
        ChangesGrow(events, i, show, changes, []);
        assert changes + [] == changes;
        var one := ReadOne(r, events, i, trajectory, show, byCause);
        if one.None? { unsupported := unsupported + 1; } else { kept := kept + [one.value]; }
      } else {
        var one := ChangeAt(events, i, show);
        ChangesGrow(events, i, show, changes, one);
        changes := changes + one;
      }
    }
    return Trajectory(kept, changes, unsupported, |events|);
  }

  lemma NothingAdapted(r: Reader, events: seq<Raw>, trajectory: string, show: int -> string)
    ensures Adapts(r, events, 0, trajectory, show, []) && ChangesSound(events, 0, show, [])
    ensures ReadActions(events, 0) == 0 == ChangeActions(events, 0)
  {
    hide Stems, ChangeSound;
  }

  lemma ActionsKnown(events: seq<Raw>, i: nat)
    requires Accepted(events) && i < |events|
    ensures events[i].Raw? && events[i].id.Some? && (IsReadAction(events[i]) ==> !IsEditAction(events[i]) && !IsRunAction(events[i]))
    ensures ReadActions(events, i + 1) == ReadActions(events, i) + (if IsReadAction(events[i]) then 1 else 0)
    ensures ChangeActions(events, i + 1) == ChangeActions(events, i) + (if IsEditAction(events[i]) || IsRunAction(events[i]) then 1 else 0)
  {
    assert WellFormed(events[i]);
  }

  /** The change the event makes, if it makes one. */
  function ChangeAt(events: seq<Raw>, i: nat, show: int -> string): (cs: seq<Change>)
    requires i < |events| && events[i].Raw? && events[i].id.Some?
    ensures forall k :: 0 <= k < |cs| ==> ChangeSound(events, i + 1, show, cs[k]) && cs[k].position == i
    ensures |cs| == if IsEditAction(events[i]) || IsRunAction(events[i]) then 1 else 0
  {
    var e := events[i];
    if IsEditAction(e) then [Change(show(e.id.value), i, EditChange, Normalize(e.args.value.path))]
    else if IsRunAction(e) then [Change(show(e.id.value), i, UnknownChange, None)]
    else []
  }

  /** The read branch of the loop. */
  method ReadOne(r: Reader, events: seq<Raw>, i: nat, trajectory: string, show: int -> string, byCause: map<int, seq<nat>>) returns (one: Option<Read>)
    requires i < |events| && IsReadAction(events[i]) && events[i].id.Some?
    requires forall id :: Under(byCause, id) == ResultsOf(events, |events|, id)
    ensures one == AdaptedRead(r, events, i, trajectory, show)
    ensures one.Some? ==> OfArchive(one.value, trajectory) && one.value.position == i
  {
    hide Normalize, FileOutput;
    var id, path := events[i].id.value, events[i].args.value.path;
    var results := Under(byCause, id);
    ResultsInRange(events, |events|, id);
    var matching := ReadResults(events, results);
    ReadResultsInRange(events, results);
    var parsed: Option<(Hash, nat, bool)> := None;
    if |matching| == 1 { parsed := FileOutput(r, events[matching[0]].content, path, events[i].args.value.fullView); }
    if Normalize(path).None? || parsed.None? { return None; }
    return Some(Read(trajectory, show(id), i, Normalize(path), Some(parsed.value.0), Some(parsed.value.1), None, Some(parsed.value.2), None, None,
                     None, [(SourceId(), trajectory, show(i)), (SourceId(), trajectory, show(matching[0]))]));
  }

  /** No pair of archive reads can be a candidate, whatever lies between them: the fixed verdict is the count. */
  lemma ArchiveNeverCandidate(older: Read, newer: Read, changes: seq<Change>, trajectory: string)
    requires OfArchive(older, trajectory) && OfArchive(newer, trajectory)
    ensures Assess(older, newer, changes).status == Rejected || Assess(older, newer, changes).status == Unknown
  {
    CandidateExactly(older, newer, changes);
  }

  /** Every assessment of an adapted trajectory is rejected or unknown. */
  method AssessTrajectory(r: Reader, document: seq<Raw>, trajectory: string, show: int -> string) returns (readable: bool, t: Trajectory, found: seq<Assessment>)
    ensures readable <==> Accepted(document)
    ensures readable ==> forall k :: 0 <= k < |found| ==> found[k].verdict.status == Rejected || found[k].verdict.status == Unknown
    ensures readable ==> |t.kept| + t.unsupported == ReadActions(document, |document|) && |found| <= |t.kept|
  {
    t, found := Trajectory([], [], 0, 0), [];
    readable := ValidateEvents(document);
    if !readable { return; }
    t := Adapt(r, document, trajectory, show);
    found := DetectDuplicates(t.kept, t.changes);
    hide Sort, AdaptedRead, AllDetected, OfArchive;
    assert forall k :: 0 <= k < |t.kept| ==> OfArchive(t.kept[k], trajectory);
    AllSettled(t.kept, t.changes, found, trajectory);
  }

  lemma AllSettled(kept: seq<Read>, changes: seq<Change>, found: seq<Assessment>, trajectory: string)
    requires forall k :: 0 <= k < |kept| ==> OfArchive(kept[k], trajectory)
    requires AllDetected(Sort(kept, Earlier), changes, found)
    ensures |found| <= |kept| && forall k :: 0 <= k < |found| ==> found[k].verdict.status == Rejected || found[k].verdict.status == Unknown
  {
    hide Sort, Earlier, OfArchive, IsPartner, Assess, Between;
    var ordered := Sort(kept, Earlier);
    EarlierSorts(kept);
    var at: seq<(nat, nat)> :| Detected(ordered, |ordered|, changes, at, found);
    DetectedCount(ordered, changes, at, found);
    PathedAtMost(ordered, |ordered|);
    forall k | 0 <= k < |found| ensures found[k].verdict.status == Rejected || found[k].verdict.status == Unknown {
      var i, j := at[k].0, at[k].1;
      PartnerEarlier(ordered, j, i);
      OrderedMember(kept, ordered, i);
      OrderedMember(kept, ordered, j);
      ArchiveNeverCandidate(ordered[i], ordered[j], Between(changes, ordered[i].position, ordered[j].position), trajectory);
    }
  }

  lemma OrderedMember(a: seq<Read>, b: seq<Read>, i: nat)
    requires multiset(a) == multiset(b) && i < |b|
    ensures exists k :: 0 <= k < |a| && a[k] == b[i]
  {
    assert b[i] in multiset(b) && b[i] in multiset(a) && b[i] in a;
  }

  lemma {:induction false} PathedAtMost(rs: seq<Read>, n: nat)
    requires n <= |rs|
    ensures Pathed(rs, n) <= n
  {
    if n > 0 { PathedAtMost(rs, n - 1); }
  }

  // ---- Totals ----

  /** The counts of one trajectory that the report adds up. */
  datatype Row = Row(repository: string, fileReads: nat, repeated: nat, exact: nat, strict: nat, rejected: nat, unknown: nat)
  datatype Totals = Totals(trajectories: nat, fileReads: nat, repeated: nat, exact: nat, strict: nat)

  function CountStatus(found: seq<Assessment>, s: Status): nat {
    if found == [] then 0 else CountStatus(found[..|found| - 1], s) + (if found[|found| - 1].verdict.status == s then 1 else 0)
  }

  /** Both outputs were observed, with the same hash and the same size. */
  ghost predicate EqualOutput(a: Assessment) {
    a.older.outputHash.Some? && a.newer.outputHash == a.older.outputHash && a.newer.outputBytes == a.older.outputBytes
  }

  ghost function CountExact(found: seq<Assessment>): nat {
    if found == [] then 0 else CountExact(found[..|found| - 1]) + (if EqualOutput(found[|found| - 1]) then 1 else 0)
  }

  /** The statuses partition the assessments. */
  lemma {:induction false} StatusesPartition(found: seq<Assessment>)
    ensures CountStatus(found, Candidate) + CountStatus(found, Rejected) + CountStatus(found, Unknown) == |found|
    ensures (forall k :: 0 <= k < |found| ==> found[k].verdict.status != Candidate) ==> CountStatus(found, Candidate) == 0
  {
    if found != [] { StatusesPartition(found[..|found| - 1]); }
  }

  /** `_assessment_counts` of one trajectory. */
  method AssessmentCounts(repository: string, fileReads: nat, found: seq<Assessment>) returns (row: Row)
    ensures row.repeated == |found| == row.strict + row.rejected + row.unknown
    ensures row.strict == CountStatus(found, Candidate) && row.rejected == CountStatus(found, Rejected) && row.unknown == CountStatus(found, Unknown)
    ensures row.exact == CountExact(found) && row.repository == repository && row.fileReads == fileReads
  {
    var exact, strict, rejected, unknown := 0, 0, 0, 0;
    for i := 0 to |found|
      invariant exact == CountExact(found[..i]) && strict == CountStatus(found[..i], Candidate)
      invariant rejected == CountStatus(found[..i], Rejected) && unknown == CountStatus(found[..i], Unknown)
    {
      assert found[..i + 1][..i] == found[..i];
      if SameOutput(found[i].older, found[i].newer) { exact := exact + 1; }
      match found[i].verdict.status
      case Candidate => strict := strict + 1;
      case Rejected => rejected := rejected + 1;
      case Unknown => unknown := unknown + 1;
    }
    assert found[..|found|] == found;
    StatusesPartition(found);
    return Row(repository, fileReads, |found|, exact, strict, rejected, unknown);
  }

  function Add(t: Totals, row: Row): Totals {
    Totals(t.trajectories + 1, t.fileReads + row.fileReads, t.repeated + row.repeated, t.exact + row.exact, t.strict + row.strict)
  }

  function Plus(a: Totals, b: Totals): Totals {
    Totals(a.trajectories + b.trajectories, a.fileReads + b.fileReads, a.repeated + b.repeated, a.exact + b.exact, a.strict + b.strict)
  }

  function Zero(): Totals { Totals(0, 0, 0, 0, 0) }

  /** All rows together. */
  function GlobalTotals(rows: seq<Row>): Totals {
    if rows == [] then Zero() else Add(GlobalTotals(rows[..|rows| - 1]), rows[|rows| - 1])
  }

  /** The rows of one repository. */
  function RepositoryTotals(rows: seq<Row>, name: string): Totals {
    if rows == [] then Zero()
    else
      var before := RepositoryTotals(rows[..|rows| - 1], name);
      if rows[|rows| - 1].repository == name then Add(before, rows[|rows| - 1]) else before
  }

  function SumOver(names: seq<string>, rows: seq<Row>): Totals {
    if names == [] then Zero() else Plus(RepositoryTotals(rows, names[0]), SumOver(names[1..], rows))
  }

  /** Over any list of the repositories without repeats, their totals add up to the global ones. */
  lemma {:induction false} TotalsConserved(names: seq<string>, rows: seq<Row>)
    requires Distinct(names) && forall i :: 0 <= i < |rows| ==> rows[i].repository in names
    ensures SumOver(names, rows) == GlobalTotals(rows)
    decreases |rows|
  {
    if rows == [] {
      SumNothing(names, rows);
    } else {
      var n := |rows| - 1;
      TotalsConserved(names, rows[..n]);
      SumOne(names, rows);
    }
  }

  lemma {:induction false} SumNothing(names: seq<string>, rows: seq<Row>)
    requires |rows| == 0
    ensures SumOver(names, rows) == Zero()
  {
    if names != [] { SumNothing(names[1..], rows); }
  }

  lemma {:induction false} SumOne(names: seq<string>, rows: seq<Row>)
    requires Distinct(names) && rows != []
    ensures var before := SumOver(names, rows[..|rows| - 1]);
      SumOver(names, rows) == if rows[|rows| - 1].repository in names then Add(before, rows[|rows| - 1]) else before
  {
    if names != [] {
      assert Distinct(names[1..]) by { forall i, j | 0 <= i < j < |names| - 1 ensures names[1..][i] != names[1..][j] { assert names[i + 1] != names[j + 1]; } }
      SumOne(names[1..], rows);
      assert names == [names[0]] + names[1..];
      assert names[0] !in names[1..];
    }
  }

  // ---- What the totals count ----

  /** The sum of one count over some rows. */
  function SumOf(rows: seq<Row>, count: Row -> nat): nat { if rows == [] then 0 else SumOf(rows[..|rows| - 1], count) + count(rows[|rows| - 1]) }

  /** The rows of one repository, in order. */
  function RowsOf(rows: seq<Row>, name: string): seq<Row> {
    if rows == [] then [] else RowsOf(rows[..|rows| - 1], name) + (if rows[|rows| - 1].repository == name then [rows[|rows| - 1]] else [])
  }

  /** The totals are the number of these rows and the sums of their own counts. */
  ghost predicate Tallies(t: Totals, rows: seq<Row>) {
    && t.trajectories == |rows| && t.fileReads == SumOf(rows, (r: Row) => r.fileReads) && t.repeated == SumOf(rows, (r: Row) => r.repeated)
    && t.exact == SumOf(rows, (r: Row) => r.exact) && t.strict == SumOf(rows, (r: Row) => r.strict)
  }

  lemma TalliesMore(t: Totals, rows: seq<Row>, row: Row)
    requires Tallies(t, rows)
    ensures Tallies(Add(t, row), rows + [row])
  {
    assert (rows + [row])[..|rows|] == rows;
  }

  /** The global totals count all rows, a repository's totals its own. */
  lemma {:induction false} TotalsExactly(rows: seq<Row>, name: string)
    ensures Tallies(GlobalTotals(rows), rows) && Tallies(RepositoryTotals(rows, name), RowsOf(rows, name))
  {
    hide Tallies, Add;
    if rows == [] {
      assert Tallies(Zero(), []) by { NothingTallied(); }
    } else {
      var most, last := rows[..|rows| - 1], rows[|rows| - 1];
      TotalsExactly(most, name);
      TalliesMore(GlobalTotals(most), most, last);
      assert rows == most + [last];
      if last.repository == name {
        TalliesMore(RepositoryTotals(most, name), RowsOf(most, name), last);
      } else {
        assert RowsOf(rows, name) == RowsOf(most, name);
      }
    }
  }

  lemma NothingTallied()
    ensures Tallies(Zero(), [])
  {
  }

  /** The accumulation of `scan_archive`: a counter for each repository and the global ones, which agree. */
  method Accumulate(rows: seq<Row>) returns (distribution: seq<(string, Totals)>, total: Totals)
    ensures total == GlobalTotals(rows) && Tallies(total, rows)
    ensures forall i :: 0 <= i < |distribution| ==>
      distribution[i].1 == RepositoryTotals(rows, distribution[i].0) && Tallies(distribution[i].1, RowsOf(rows, distribution[i].0))
    ensures forall name :: HasEntry(distribution, name) <==> HasRow(rows, name)
    ensures SumPairs(distribution) == total
    ensures forall i, j :: 0 <= i < j < |distribution| ==> StrLeq(distribution[i].0, distribution[j].0) && distribution[i].0 != distribution[j].0
  {
    hide RepositoryTotals, GlobalTotals, SumOver, SumPairs, StrLeq, Tallies, RowsOf, HasEntry, HasRow;
    TotalsExactly(rows, "");
    forall name ensures Tallies(RepositoryTotals(rows, name), RowsOf(rows, name)) { TotalsExactly(rows, name); }
    var repositories: map<string, Totals>;
    repositories, total := CountRepositories(rows);
    var names := SortedKeys(repositories.Keys);
    distribution := seq(|names|, i requires 0 <= i < |names| => (names[i], Held(repositories, names[i])));
    RowsNamed(rows, names);
    TotalsConserved(names, rows);
    PairsSum(names, distribution, rows);
    DistributionNames(names, distribution);
  }

  ghost predicate HasRow(rows: seq<Row>, name: string) { exists i :: 0 <= i < |rows| && rows[i].repository == name }

  ghost predicate HasEntry(distribution: seq<(string, Totals)>, name: string) {
    exists k :: 0 <= k < |distribution| && distribution[k].0 == name
  }

  lemma RowsNamed(rows: seq<Row>, names: seq<string>)
    requires forall name :: name in names <==> HasRow(rows, name)
    ensures forall i :: 0 <= i < |rows| ==> rows[i].repository in names
  {
    forall i | 0 <= i < |rows| ensures rows[i].repository in names { assert HasRow(rows, rows[i].repository); }
  }

  lemma DistributionNames(names: seq<string>, distribution: seq<(string, Totals)>)
    requires |distribution| == |names| && forall k :: 0 <= k < |names| ==> distribution[k].0 == names[k]
    ensures forall name :: HasEntry(distribution, name) <==> name in names
  {
    forall name | name in names ensures HasEntry(distribution, name) {
      var k :| 0 <= k < |names| && names[k] == name;
      assert distribution[k].0 == name;
    }
  }

  function Held(repositories: map<string, Totals>, name: string): Totals { if name in repositories then repositories[name] else Zero() }

  /** The loop over the trajectories. */
  method CountRepositories(rows: seq<Row>) returns (repositories: map<string, Totals>, total: Totals)
    ensures total == GlobalTotals(rows)
    ensures forall name :: Held(repositories, name) == RepositoryTotals(rows, name)
    ensures forall name :: name in repositories <==> HasRow(rows, name)
  {
    repositories, total := map[], Zero();
    for i := 0 to |rows|
      invariant total == GlobalTotals(rows[..i])
      invariant forall name :: Held(repositories, name) == RepositoryTotals(rows[..i], name)
      invariant forall k :: 0 <= k < i ==> rows[k].repository in repositories
      invariant forall name :: name in repositories ==> HasRow(rows, name)
    {
      hide Add, Zero;
      var name := rows[i].repository;
      ghost var before := repositories;
      RowCounted(rows, i);
      repositories := repositories[name := Add(Held(repositories, name), rows[i])];
      total := Add(total, rows[i]);
      forall other ensures Held(repositories, other) == RepositoryTotals(rows[..i + 1], other) {
        assert Held(before, other) == RepositoryTotals(rows[..i], other);
      }
    }
    assert rows[..|rows|] == rows;
  }

  lemma RowCounted(rows: seq<Row>, i: nat)
    requires i < |rows|
    ensures GlobalTotals(rows[..i + 1]) == Add(GlobalTotals(rows[..i]), rows[i])
    ensures forall name ::
      RepositoryTotals(rows[..i + 1], name)
      == if rows[i].repository == name then Add(RepositoryTotals(rows[..i], name), rows[i]) else RepositoryTotals(rows[..i], name)
  {
    hide Add, Zero;
    assert rows[..i + 1][..i] == rows[..i];
  }

  function SumPairs(pairs: seq<(string, Totals)>): Totals {
    if pairs == [] then Zero() else Plus(pairs[0].1, SumPairs(pairs[1..]))
  }

  lemma {:induction false} PairsSum(names: seq<string>, pairs: seq<(string, Totals)>, rows: seq<Row>)
    requires |names| == |pairs| && forall i :: 0 <= i < |names| ==> pairs[i].1 == RepositoryTotals(rows, names[i])
    ensures SumPairs(pairs) == SumOver(names, rows)
  {
    if names != [] { PairsSum(names[1..], pairs[1..], rows); }
  }
}
