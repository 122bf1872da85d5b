/** The demo builder's changed-file list and its choice of a verification transition. */
module DemoData {
  import opened Ordering
  import opened CanonicalManifest

  datatype ChangeType = Added | Removed | Modified
  datatype Change = Change(
    path: string, beforeHash: Option<string>, beforeExecutable: Option<bool>,
    afterHash: Option<string>, afterExecutable: Option<bool>, changeType: ChangeType)

  /** The rule every captured path obeys: content and flag exactly when the file is present. */
  ghost predicate Coherent(es: seq<Entry>) {
    UniquePaths(es) &&
    forall e :: e in es ==> (e.state == Present <==> e.contentHash.Some?) && (e.state == Present <==> e.executable.Some?)
  }

  function IndexByPath(es: seq<Entry>): map<string, Entry>
    requires UniquePaths(es)
  {
    map e | e in es :: e.path := e
  }

  /** State, content hash and executable flag of a path in a checkpoint, when the checkpoint lists it. */
  function Identity(index: map<string, Entry>, path: string): Option<(PathState, Option<string>, Option<bool>)> {
    if path in index then Some((index[path].state, index[path].contentHash, index[path].executable)) else None
  }

  /** A present file as the demo shows it: its content hash and its flag. */
  datatype Shown = Shown(hash: Option<string>, executable: Option<bool>)

  /** The files a checkpoint holds as present. */
  function PresentFiles(index: map<string, Entry>): map<string, Shown> {
    map p | p in index && index[p].state == Present :: Shown(index[p].contentHash, index[p].executable)
  }

  /** Apply the after side of a change list, entry by entry. */
  function Patched(files: map<string, Shown>, changes: seq<Change>): map<string, Shown> {
    if changes == [] then files
    else
      var c := changes[|changes| - 1];
      var rest := Patched(files, changes[..|changes| - 1]);
      if c.afterHash.Some? then rest[c.path := Shown(c.afterHash, c.afterExecutable)] else rest - {c.path}
  }

  /** The same list read backwards: apply its before side. */
  function Unpatched(files: map<string, Shown>, changes: seq<Change>): map<string, Shown> {
    if changes == [] then files
    else
      var c := changes[|changes| - 1];
      var rest := Unpatched(files, changes[..|changes| - 1]);
      if c.beforeHash.Some? then rest[c.path := Shown(c.beforeHash, c.beforeExecutable)] else rest - {c.path}
  }

  /** `after` on the listed paths, `before` on the others. */
  ghost function Mixed(before: map<string, Shown>, after: map<string, Shown>, paths: seq<string>): map<string, Shown> {
    map p | p in before.Keys + after.Keys && (if p in paths then p in after else p in before) ::
      if p in paths then after[p] else before[p]
  }

  ghost predicate TypedRight(c: Change) {
    c.changeType == if c.beforeHash.None? && c.afterHash.Some? then Added
                    else if c.beforeHash.Some? && c.afterHash.None? then Removed
                    else Modified
  }

  /** What a change list says about two checkpoints, over the paths looked at. */
  ghost predicate Listed(before: map<string, Entry>, after: map<string, Entry>, paths: seq<string>, changed: seq<Change>) {
    && (forall i, j :: 0 <= i < j < |changed| ==> StrLeq(changed[i].path, changed[j].path) && changed[i].path != changed[j].path)
    && (forall i :: 0 <= i < |changed| ==>
          changed[i].path in paths && Identity(before, changed[i].path) != Identity(after, changed[i].path) && TypedRight(changed[i]))
    && (forall p :: p in paths && Identity(before, p) != Identity(after, p) ==>
          exists i :: 0 <= i < |changed| && changed[i].path == p)
  }

  lemma ListedSkip(before: map<string, Entry>, after: map<string, Entry>, paths: seq<string>, changed: seq<Change>, path: string)
    requires Listed(before, after, paths, changed) && Identity(before, path) == Identity(after, path)
    ensures Listed(before, after, paths + [path], changed)
  {
  }

  lemma ListedMore(before: map<string, Entry>, after: map<string, Entry>, paths: seq<string>, changed: seq<Change>, c: Change)
    requires Listed(before, after, paths, changed) && Identity(before, c.path) != Identity(after, c.path) && TypedRight(c)
    requires c.path !in paths && forall p :: p in paths ==> StrLeq(p, c.path)
    ensures Listed(before, after, paths + [c.path], changed + [c])
  {
    var more := changed + [c];
    assert more[|changed|] == c;
    forall p | p in paths && Identity(before, p) != Identity(after, p)
      ensures exists i :: 0 <= i < |more| && more[i].path == p
    {
      var i :| 0 <= i < |changed| && changed[i].path == p;
      assert more[i].path == p;
    }
  }

  lemma PatchedMore(files: map<string, Shown>, target: map<string, Shown>, paths: seq<string>, changed: seq<Change>, c: Change)
    requires Patched(files, changed) == Mixed(files, target, paths) && c.path !in paths
    requires if c.afterHash.Some? then c.path in target && target[c.path] == Shown(c.afterHash, c.afterExecutable)
             else c.path !in target
    ensures Patched(files, changed + [c]) == Mixed(files, target, paths + [c.path])
  {
    assert (changed + [c])[..|changed|] == changed;
  }

  lemma UnpatchedMore(files: map<string, Shown>, target: map<string, Shown>, paths: seq<string>, changed: seq<Change>, c: Change)
    requires Unpatched(files, changed) == Mixed(files, target, paths) && c.path !in paths
    requires if c.beforeHash.Some? then c.path in target && target[c.path] == Shown(c.beforeHash, c.beforeExecutable)
             else c.path !in target
    ensures Unpatched(files, changed + [c]) == Mixed(files, target, paths + [c.path])
  {
    assert (changed + [c])[..|changed|] == changed;
  }

  /** A path on which the two maps agree does not change the mix. */
  lemma MixedSkip(files: map<string, Shown>, target: map<string, Shown>, paths: seq<string>, path: string)
    requires (path in files <==> path in target) && (path in files ==> files[path] == target[path])
    ensures Mixed(files, target, paths + [path]) == Mixed(files, target, paths)
  {
  }

  ghost predicate CoherentIndex(index: map<string, Entry>) {
    forall p :: p in index ==> (index[p].state == Present <==> index[p].contentHash.Some?)
  }

  /** The change list over `paths`: what it lists, and that it patches either checkpoint's files into the other's. */
  ghost predicate Patches(before: map<string, Entry>, after: map<string, Entry>, paths: seq<string>, changed: seq<Change>) {
    && Listed(before, after, paths, changed)
    && Patched(PresentFiles(before), changed) == Mixed(PresentFiles(before), PresentFiles(after), paths)
    && Unpatched(PresentFiles(after), changed) == Mixed(PresentFiles(after), PresentFiles(before), paths)
  }

  /** The entry of a path that differs. */
  function ChangeAt(before: map<string, Entry>, after: map<string, Entry>, path: string): Change {
    var beforePresent := path in before && before[path].state == Present;
    var afterPresent := path in after && after[path].state == Present;
    Change(path,
      if path in before then before[path].contentHash else None, if path in before then before[path].executable else None,
      if path in after then after[path].contentHash else None, if path in after then after[path].executable else None,
      if !beforePresent && afterPresent then Added else if beforePresent && !afterPresent then Removed else Modified)
  }

  /** Looking at one more path keeps the list right, whether or not the path differs. */
  lemma ChangeStep(before: map<string, Entry>, after: map<string, Entry>, paths: seq<string>, path: string, changed: seq<Change>)
    requires CoherentIndex(before) && CoherentIndex(after) && Patches(before, after, paths, changed)
    requires path !in paths && forall p :: p in paths ==> StrLeq(p, path)
    ensures Patches(before, after, paths + [path],
      if Identity(before, path) != Identity(after, path) then changed + [ChangeAt(before, after, path)] else changed)
  {
    hide StrLeq, Patched, Unpatched, Listed, Mixed;
    var first, second := PresentFiles(before), PresentFiles(after);
    if Identity(before, path) == Identity(after, path) {
      ListedSkip(before, after, paths, changed, path);
      MixedSkip(first, second, paths, path);
      MixedSkip(second, first, paths, path);
    } else {
      var c := ChangeAt(before, after, path);
      ListedMore(before, after, paths, changed, c);
      PatchedMore(first, second, paths, changed, c);
      UnpatchedMore(second, first, paths, changed, c);
    }
  }

  /** The comparison loop, over the sorted union of both checkpoints' paths. */
  method ListChanges(before: map<string, Entry>, after: map<string, Entry>) returns (changed: seq<Change>)
    requires CoherentIndex(before) && CoherentIndex(after)
    ensures Patches(before, after, SortedKeys(before.Keys + after.Keys), changed)
  {
    var paths := SortedKeys(before.Keys + after.Keys);
    hide *;
    changed := [];
    NothingYet(before, after);
    for i := 0 to |paths|
      invariant Patches(before, after, paths[..i], changed)
    {
      var path := paths[i];
      EarlierKeys(paths, i);
      ChangeStep(before, after, paths[..i], path, changed);
      assert paths[..i + 1] == paths[..i] + [path];
      if Identity(before, path) != Identity(after, path) { changed := changed + [ChangeAt(before, after, path)]; }
    }
    assert paths[..|paths|] == paths;
  }

  /** `_changed_files`: one entry per path whose state, hash or flag differs, in path order. The list is a patch from
      the first checkpoint's files to the second's, and read backwards a patch from the second's to the first's. */
  method ChangedFiles(passing: seq<Entry>, failing: seq<Entry>) returns (changed: seq<Change>)
    requires Coherent(passing) && Coherent(failing)
    ensures Listed(IndexByPath(passing), IndexByPath(failing),
              SortedKeys(IndexByPath(passing).Keys + IndexByPath(failing).Keys), changed)
    ensures Patched(PresentFiles(IndexByPath(passing)), changed) == PresentFiles(IndexByPath(failing))
    ensures Unpatched(PresentFiles(IndexByPath(failing)), changed) == PresentFiles(IndexByPath(passing))
  {
    var before, after := IndexByPath(passing), IndexByPath(failing);
    assert CoherentIndex(before) && CoherentIndex(after);
    hide IndexByPath, Coherent, Listed, Patched, Unpatched, Mixed, SortedKeys;
    changed := ListChanges(before, after);
    MixedAll(before, after, SortedKeys(before.Keys + after.Keys));
    MixedAll(after, before, SortedKeys(before.Keys + after.Keys));
  }

  lemma NothingYet(before: map<string, Entry>, after: map<string, Entry>)
    ensures Patches(before, after, [], [])
  {
  }

  lemma MixedAll(before: map<string, Entry>, after: map<string, Entry>, paths: seq<string>)
    requires forall p :: p in before || p in after ==> p in paths
    ensures Mixed(PresentFiles(before), PresentFiles(after), paths) == PresentFiles(after)
  {
  }

  lemma EarlierKeys(paths: seq<string>, i: nat)
    requires i < |paths| && Sorted(paths, StrLeq) && Distinct(paths)
    ensures paths[i] !in paths[..i] && forall p :: p in paths[..i] ==> StrLeq(p, paths[i])
  {
  }

  /** The list has one entry for each path on which the checkpoints differ, so it is empty exactly when they agree on
      state, hash and flag of every path. */
  lemma ListedExactly(before: map<string, Entry>, after: map<string, Entry>, changed: seq<Change>)
    requires Listed(before, after, SortedKeys(before.Keys + after.Keys), changed)
    ensures forall p :: Identity(before, p) != Identity(after, p) <==> exists i :: 0 <= i < |changed| && changed[i].path == p
    ensures changed == [] <==> forall p :: Identity(before, p) == Identity(after, p)
  {
    var paths := SortedKeys(before.Keys + after.Keys);
    forall p ensures Identity(before, p) != Identity(after, p) <==> exists i :: 0 <= i < |changed| && changed[i].path == p {
      assert p !in paths ==> Identity(before, p) == Identity(after, p);
    }
    if changed != [] { assert Identity(before, changed[0].path) != Identity(after, changed[0].path); }
  }

  // ---- The transition ----

  datatype Receipt = Receipt(id: string, passed: Option<bool>, sequence: int)
  datatype Transition = FailureBoundary(passing: Receipt, failing: Receipt) | HealthyTransition(first: Receipt, last: Receipt)

  predicate BySequence(a: Receipt, b: Receipt) { a.sequence <= b.sequence }

  predicate Passes(r: Receipt) { r.passed.Some? && r.passed.value }
  predicate Fails(r: Receipt) { r.passed.Some? && !r.passed.value }

  /** Some PASS comes before position `j`. */
  ghost predicate PassBefore(s: seq<Receipt>, j: int) {
    exists i :: 0 <= i < j && i < |s| && Passes(s[i])
  }

  ghost predicate NoRegressionBefore(s: seq<Receipt>, j: int) {
    forall k :: 0 <= k < j && k < |s| && Fails(s[k]) ==> !PassBefore(s, k)
  }

  /** The first FAIL that has a PASS before it and the last such PASS, with no observed result between the two. */
  ghost predicate BoundaryAt(s: seq<Receipt>, i: int, j: int) {
    0 <= i < j < |s| && Passes(s[i]) && Fails(s[j]) && NoRegressionBefore(s, j) && forall k :: i < k < j ==> s[k].passed == None
  }

  /** The first and the last PASS. */
  ghost predicate HealthyAt(s: seq<Receipt>, i: int, j: int) {
    0 <= i < j < |s| && Passes(s[i]) && Passes(s[j]) && forall k :: 0 <= k < i || j < k < |s| ==> !Passes(s[k])
  }

  ghost predicate Chosen(s: seq<Receipt>, t: Option<Transition>) {
    match t
    case Some(FailureBoundary(p, f)) => exists i, j :: BoundaryAt(s, i, j) && s[i] == p && s[j] == f
    case Some(HealthyTransition(p, q)) =>
      NoRegressionBefore(s, |s|) && exists i, j :: HealthyAt(s, i, j) && s[i] == p && s[j] == q
    case None =>
      NoRegressionBefore(s, |s|) && forall i, j :: 0 <= i < j < |s| ==> !(Passes(s[i]) && Passes(s[j]))
  }

  /** `_select_transition`, over the positions of the receipts in sequence order. */
  method SelectTransition(receipts: seq<Receipt>) returns (t: Option<Transition>)
    ensures Chosen(Sort(receipts, BySequence), t)
  {
    var s := Sort(receipts, BySequence);
    hide Sort;
    for j := 0 to |s|
      invariant NoRegressionBefore(s, j)
    {
      if Fails(s[j]) {
        var last := -1;
        for i := 0 to j
          invariant -1 <= last < i
          invariant last >= 0 ==> Passes(s[last])
          invariant forall k :: last < k < i ==> !Passes(s[k])
        {
          if Passes(s[i]) { last := i; }
        }
        if last >= 0 {
          forall k | last < k < j ensures s[k].passed == None {
            assert PassBefore(s, k) by { assert Passes(s[last]); }
          }
          assert BoundaryAt(s, last, j);
          return Some(FailureBoundary(s[last], s[j]));
        }
      }
    }
    var first, last := -1, -1;
    for i := 0 to |s|
      invariant -1 <= first <= last < i && (first == -1 <==> last == -1)
      invariant first >= 0 ==> Passes(s[first]) && Passes(s[last])
      invariant forall k :: 0 <= k < i && (first == -1 || k < first || last < k) ==> !Passes(s[k])
    {
      if Passes(s[i]) { first, last := if first == -1 then i else first, i; }
    }
    if first < last {
      assert HealthyAt(s, first, last);
      return Some(HealthyTransition(s[first], s[last]));
    }
    return None;
  }

  ghost predicate DistinctSequences(receipts: seq<Receipt>) {
    forall i, j :: 0 <= i < j < |receipts| ==> receipts[i].sequence != receipts[j].sequence
  }

  /** A PASS that comes before a FAIL, by sequence number. */
  ghost predicate Regression(receipts: seq<Receipt>, p: Receipt, f: Receipt) {
    p in receipts && f in receipts && Passes(p) && Fails(f) && p.sequence < f.sequence
  }

  lemma SortedBySequence(receipts: seq<Receipt>)
    ensures var s := Sort(receipts, BySequence);
      (forall i, j :: 0 <= i < j < |s| ==> s[i].sequence <= s[j].sequence) && (forall r :: r in s <==> r in receipts)
    ensures DistinctSequences(receipts) ==> DistinctSequences(Sort(receipts, BySequence))
  {
    SortIsSortedPermutation(receipts, BySequence);
    var s := Sort(receipts, BySequence);
    assert forall i, j :: 0 <= i < j < |s| ==> BySequence(s[i], s[j]);
    if DistinctSequences(receipts) {
      assert Distinct(receipts);
      PermutedDistinct(receipts, s);
      assert forall i :: 0 <= i < |s| ==> s[i] in receipts;
    }
  }

  lemma PositionOf(receipts: seq<Receipt>, r: Receipt) returns (k: int)
    requires r in receipts
    ensures var s := Sort(receipts, BySequence); 0 <= k < |s| && s[k] == r
  {
    SortedBySequence(receipts);
    k :| 0 <= k < |Sort(receipts, BySequence)| && Sort(receipts, BySequence)[k] == r;
  }

  lemma RegressionSeen(receipts: seq<Receipt>, p: Receipt, f: Receipt) returns (j: int)
    requires Regression(receipts, p, f)
    ensures var s := Sort(receipts, BySequence); 0 <= j < |s| && s[j] == f && PassBefore(s, j)
  {
    SortedBySequence(receipts);
    var k := PositionOf(receipts, p);
    j := PositionOf(receipts, f);
  }

  /** With distinct sequences and observed results, a boundary is reported exactly when some PASS precedes some FAIL;
      the reported two are neighbours in sequence order, and no pair like it ends earlier. Without one, every FAIL
      precedes every PASS. */
  lemma FailureBoundaryMinimal(receipts: seq<Receipt>, t: Option<Transition>)
    requires DistinctSequences(receipts) && forall r :: r in receipts ==> r.passed.Some?
    requires Chosen(Sort(receipts, BySequence), t)
    ensures (t.Some? && t.value.FailureBoundary?) <==> exists p, f :: Regression(receipts, p, f)
    ensures t.Some? && t.value.FailureBoundary? ==>
              var p, f := t.value.passing, t.value.failing;
              && Regression(receipts, p, f)
              && (forall r :: r in receipts ==> !(p.sequence < r.sequence < f.sequence))
              && (forall q, g :: Regression(receipts, q, g) ==> f.sequence <= g.sequence)
    ensures !(t.Some? && t.value.FailureBoundary?) ==>
              forall f, q :: f in receipts && Fails(f) && q in receipts && Passes(q) ==> f.sequence < q.sequence
  {
    if t.Some? && t.value.FailureBoundary? {
      BoundaryIsMinimal(receipts, t.value.passing, t.value.failing);
    } else {
      NoBoundaryNoRegression(receipts);
    }
  }

  lemma BoundaryIsMinimal(receipts: seq<Receipt>, p: Receipt, f: Receipt)
    requires DistinctSequences(receipts) && forall r :: r in receipts ==> r.passed.Some?
    requires Chosen(Sort(receipts, BySequence), Some(FailureBoundary(p, f)))
    ensures Regression(receipts, p, f)
    ensures forall r :: r in receipts ==> !(p.sequence < r.sequence < f.sequence)
    ensures forall q, g :: Regression(receipts, q, g) ==> f.sequence <= g.sequence
  {
    var s := Sort(receipts, BySequence);
    SortedBySequence(receipts);
    hide Sort;
    var i, j :| BoundaryAt(s, i, j) && s[i] == p && s[j] == f;
    assert s[i] in receipts && s[j] in receipts;
    assert s[i].sequence < s[j].sequence;
    assert i + 1 == j by {
      assert s[i + 1] in s && s[i + 1].passed.Some?;
    }
    forall r | r in receipts ensures !(p.sequence < r.sequence < f.sequence) {
      var k := PositionOf(receipts, r);
    }
    forall q, g | Regression(receipts, q, g) ensures f.sequence <= g.sequence {
      var l := RegressionSeen(receipts, q, g);
      assert j <= l;
    }
  }

  lemma NoBoundaryNoRegression(receipts: seq<Receipt>)
    requires DistinctSequences(receipts) && NoRegressionBefore(Sort(receipts, BySequence), |Sort(receipts, BySequence)|)
    ensures forall f, q :: f in receipts && Fails(f) && q in receipts && Passes(q) ==> f.sequence < q.sequence
    ensures forall p, f :: !Regression(receipts, p, f)
  {
    var s := Sort(receipts, BySequence);
    SortedBySequence(receipts);
    hide Sort;
    forall f, q | f in receipts && Fails(f) && q in receipts && Passes(q) ensures f.sequence < q.sequence {
      var a := PositionOf(receipts, q);
      var b := PositionOf(receipts, f);
      assert !PassBefore(s, b);
      assert b < a;
    }
  }
}
