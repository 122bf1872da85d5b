/** The reality probe: capture a repository overlay, restore it from stored evidence, capture again. */
module RealityProbe {
  import opened Ordering
  import opened CanonicalManifest

  /** Permission bits; the bytes of a file are modelled as text. */
  type Mode = bv12
  datatype File = File(content: string, mode: Mode)

  const EXECUTABLE_BITS: Mode := 0x49 // 0o111

  predicate Executable(mode: Mode) { mode & EXECUTABLE_BITS != 0 }

  function WithExecutable(mode: Mode, on: bool): Mode {
    if on then mode | EXECUTABLE_BITS else mode & !EXECUTABLE_BITS
  }

  /** The bit operations recover the flag, and change no other permission. */
  lemma ExecutableRecovered(mode: Mode, on: bool)
    ensures Executable(WithExecutable(mode, on)) == on
    ensures WithExecutable(mode, on) & !EXECUTABLE_BITS == mode & !EXECUTABLE_BITS
  {
    assert on ==> (mode | EXECUTABLE_BITS) & EXECUTABLE_BITS == EXECUTABLE_BITS;
  }

  predicate Excluded(path: string) {
    path == ".env" || ".acr-probe/" <= path || ".claude/" <= path || ".git/" <= path
  }

  /** Its owner, its group or anybody else may execute the file. */
  ghost predicate MayExecute(mode: Mode) { mode & 0x40 != 0 || mode & 0x8 != 0 || mode & 0x1 != 0 }

  /** The permissions to read and write, and the special ones. */
  ghost function OtherBits(mode: Mode): Mode { mode & 0xFB6 }

  lemma ExecutableExactly(mode: Mode)
    ensures Executable(mode) <==> MayExecute(mode)
  {
  }

  lemma ModeRestored(mode: Mode, original: Mode)
    ensures MayExecute(WithExecutable(mode, Executable(original))) <==> MayExecute(original)
    ensures OtherBits(WithExecutable(mode, Executable(original))) == OtherBits(mode)
  {
    ExecutableExactly(original);
    ExecutableExactly(WithExecutable(mode, Executable(original)));
    ExecutableRecovered(mode, Executable(original));
  }

  /** The environment file, and what lies below the probe's, the agent's and git's own directories. */
  ghost predicate OutOfScope(path: string) {
    path == ".env" || exists below :: path == ".acr-probe/" + below || path == ".claude/" + below || path == ".git/" + below
  }

  lemma PrefixExactly(prefix: string, path: string)
    ensures prefix <= path <==> exists below :: path == prefix + below
  {
    if prefix <= path { assert path == prefix + path[|prefix|..]; }
  }

  lemma ExcludedExactly(path: string)
    ensures Excluded(path) <==> OutOfScope(path)
  {
    PrefixExactly(".acr-probe/", path);
    PrefixExactly(".claude/", path);
    PrefixExactly(".git/", path);
  }

  /** The captured scope: tracked paths that are not excluded, then the selected ones. */
  ghost function Scope(tracked: seq<string>, selected: seq<string>): map<string, PathKind> {
    map p | p in tracked + selected && ((p in tracked && !OutOfScope(p)) || p in selected) ::
      if p in tracked && !OutOfScope(p) then Tracked else SelectedUntracked
  }

  function EntryOf(digest: string -> string, files: map<string, File>, path: string, kind: PathKind): Entry {
    if path in files
    then Entry(Some(digest(files[path].content)), Some(Executable(files[path].mode)), path, kind, Present)
    else Entry(None, None, path, kind, Deleted)
  }

  /** The overlay of a repository, in path order. */
  ghost function Captured(digest: string -> string, files: map<string, File>, kinds: map<string, PathKind>): seq<Entry> {
    var paths := SortedKeys(kinds.Keys);
    seq(|paths|, i requires 0 <= i < |paths| => EntryOf(digest, files, paths[i], kinds[paths[i]]))
  }

  lemma CapturedInOrder(digest: string -> string, files: map<string, File>, kinds: map<string, PathKind>)
    ensures UniquePaths(Captured(digest, files, kinds)) && Sorted(Captured(digest, files, kinds), ByPath)
    ensures forall p :: p in kinds ==> EntryOf(digest, files, p, kinds[p]) in Captured(digest, files, kinds)
  {
    var paths := SortedKeys(kinds.Keys);
    var entries := Captured(digest, files, kinds);
    hide StrLeq, SortedKeys;
    assert forall i :: 0 <= i < |entries| ==> entries[i].path == paths[i];
    forall i, j | 0 <= i < j < |entries| ensures entries[i].path != entries[j].path && ByPath(entries[i], entries[j]) {
      assert StrLeq(paths[i], paths[j]) && paths[i] != paths[j];
    }
    forall p | p in kinds ensures EntryOf(digest, files, p, kinds[p]) in Captured(digest, files, kinds) {
      assert p in paths;
      var i :| 0 <= i < |paths| && paths[i] == p;
      assert Captured(digest, files, kinds)[i] == EntryOf(digest, files, p, kinds[p]);
    }
  }

  lemma CapturedAt(digest: string -> string, files: map<string, File>, kinds: map<string, PathKind>, i: nat)
    requires i < |SortedKeys(kinds.Keys)|
    ensures var path := SortedKeys(kinds.Keys)[i];
      path in kinds && i < |Captured(digest, files, kinds)| && Captured(digest, files, kinds)[i] == EntryOf(digest, files, path, kinds[path])
  {
    assert SortedKeys(kinds.Keys)[i] in SortedKeys(kinds.Keys);
  }

  /** One listed path after a restore: the recorded bytes and flag with its other permissions kept, or gone. */
  ghost predicate EntryRestored(e: Entry, before: map<string, File>, after: map<string, File>,
    blobs: map<string, string>, creation: Mode)
  {
    if e.state == Deleted then e.path !in after
    else
      && e.contentHash.Some? && e.contentHash.value in blobs && e.path in after
      && after[e.path].content == blobs[e.contentHash.value]
      && after[e.path].mode ==
           WithExecutable(if e.path in before then before[e.path].mode else creation, e.executable == Some(true))
  }

  predicate Lists(entries: seq<Entry>, path: string) {
    exists i :: 0 <= i < |entries| && entries[i].path == path
  }

  ghost predicate SameAt(before: map<string, File>, after: map<string, File>, path: string) {
    (path in after <==> path in before) && (path in after ==> after[path] == before[path])
  }

  /** What a restore of `entries` does to the files: every listed path is restored, every other path stays as it was. */
  ghost predicate RestoredAs(before: map<string, File>, after: map<string, File>, entries: seq<Entry>,
    blobs: map<string, string>, creation: Mode)
  {
    && (forall p :: !Lists(entries, p) ==> SameAt(before, after, p))
    && (forall i :: 0 <= i < |entries| ==> EntryRestored(entries[i], before, after, blobs, creation))
  }

  lemma RestoreStep(before: map<string, File>, mid: map<string, File>, after: map<string, File>, entries: seq<Entry>,
    e: Entry, blobs: map<string, string>, creation: Mode)
    requires UniquePaths(entries + [e]) && RestoredAs(before, mid, entries, blobs, creation)
    requires EntryRestored(e, mid, after, blobs, creation)
    requires forall p :: p != e.path ==> SameAt(mid, after, p)
    ensures RestoredAs(before, after, entries + [e], blobs, creation)
  {
    var more := entries + [e];
    assert more[|entries|] == e;
    assert forall i :: 0 <= i < |entries| ==> more[i] == entries[i];
    forall i | 0 <= i < |entries| ensures entries[i].path != e.path {
      assert more[i].path != more[|entries|].path;
    }
    assert SameAt(before, mid, e.path);
    forall i | 0 <= i < |more| ensures EntryRestored(more[i], before, after, blobs, creation) {
      if i < |entries| {
        assert EntryRestored(entries[i], before, mid, blobs, creation);
        assert SameAt(mid, after, entries[i].path);
      }
    }
    forall p | !Lists(more, p) ensures SameAt(before, after, p) {
      assert forall i :: 0 <= i < |more| ==> more[i].path != p;
      assert forall i :: 0 <= i < |entries| ==> entries[i].path == more[i].path;
      assert SameAt(before, mid, p) && SameAt(mid, after, p);
    }
  }

  ghost predicate Restorable(entries: seq<Entry>, blobs: map<string, string>) {
    forall e :: e in entries && e.state == Present ==> e.contentHash.Some? && e.contentHash.value in blobs
  }

  /** The bytes behind a captured overlay are stored under their hashes. */
  ghost predicate Backed(digest: string -> string, files: map<string, File>, kinds: map<string, PathKind>,
    blobs: map<string, string>)
  {
    forall p :: p in kinds && p in files ==> Stored(digest, blobs, files[p].content)
  }

  predicate Stored(digest: string -> string, blobs: map<string, string>, content: string) {
    digest(content) in blobs && blobs[digest(content)] == content
  }

  lemma BackedRestorable(digest: string -> string, files: map<string, File>, kinds: map<string, PathKind>,
    blobs: map<string, string>)
    requires Backed(digest, files, kinds, blobs)
    ensures Restorable(Captured(digest, files, kinds), blobs)
  {
    var paths := SortedKeys(kinds.Keys);
    var entries := Captured(digest, files, kinds);
    forall e | e in entries && e.state == Present ensures e.contentHash.Some? && e.contentHash.value in blobs {
      var i :| 0 <= i < |paths| && entries[i] == e;
      assert paths[i] in kinds;
    }
  }

  /** The file is as it was: there or not, with the same bytes, executable or not as before; its other permissions are those it
      had in between. */
  ghost predicate BroughtBack(original: map<string, File>, changed: map<string, File>, restored: map<string, File>, path: string, creation: Mode) {
    && (path in restored <==> path in original)
    && (path in restored ==>
          && restored[path].content == original[path].content && (MayExecute(restored[path].mode) <==> MayExecute(original[path].mode))
          && OtherBits(restored[path].mode) == OtherBits(if path in changed then changed[path].mode else creation))
  }

  lemma RecapturedEntry(digest: string -> string, original: map<string, File>, changed: map<string, File>,
    restored: map<string, File>, path: string, kind: PathKind, blobs: map<string, string>, creation: Mode)
    requires path in original ==>
      digest(original[path].content) in blobs && blobs[digest(original[path].content)] == original[path].content
    requires EntryRestored(EntryOf(digest, original, path, kind), changed, restored, blobs, creation)
    ensures EntryOf(digest, restored, path, kind) == EntryOf(digest, original, path, kind)
    ensures path in restored <==> path in original
    ensures path in restored ==> restored[path].content == original[path].content
  {
    if path in original {
      ExecutableRecovered(if path in changed then changed[path].mode else creation, Executable(original[path].mode));
    }
  }

  lemma EntryBroughtBack(digest: string -> string, original: map<string, File>, changed: map<string, File>,
    restored: map<string, File>, path: string, kind: PathKind, blobs: map<string, string>, creation: Mode)
    requires path in original ==>
      digest(original[path].content) in blobs && blobs[digest(original[path].content)] == original[path].content
    requires EntryRestored(EntryOf(digest, original, path, kind), changed, restored, blobs, creation)
    ensures BroughtBack(original, changed, restored, path, creation)
  {
    hide Executable, WithExecutable, MayExecute, OtherBits;
    if path in original { ModeRestored(if path in changed then changed[path].mode else creation, original[path].mode); }
  }

  /** Whatever happened to the files in between, restoring a captured overlay and capturing again gives it back. */
  lemma RecapturedEqual(digest: string -> string, original: map<string, File>, changed: map<string, File>,
    restored: map<string, File>, kinds: map<string, PathKind>, blobs: map<string, string>, creation: Mode)
    requires Backed(digest, original, kinds, blobs)
    requires RestoredAs(changed, restored, Captured(digest, original, kinds), blobs, creation)
    ensures Captured(digest, restored, kinds) == Captured(digest, original, kinds)
    ensures Backed(digest, restored, kinds, blobs)
    ensures forall p :: p !in kinds ==> SameAt(changed, restored, p)
    ensures forall p :: p in kinds ==> BroughtBack(original, changed, restored, p, creation)
  {
    hide BroughtBack;
    var entries := Captured(digest, original, kinds);
    var paths := SortedKeys(kinds.Keys);
    forall i | 0 <= i < |paths|
      ensures EntryOf(digest, restored, paths[i], kinds[paths[i]]) == entries[i]
      ensures paths[i] in restored <==> paths[i] in original
      ensures paths[i] in restored ==> restored[paths[i]].content == original[paths[i]].content
      ensures BroughtBack(original, changed, restored, paths[i], creation)
    {
      assert EntryRestored(entries[i], changed, restored, blobs, creation);
      RecapturedEntry(digest, original, changed, restored, paths[i], kinds[paths[i]], blobs, creation);
      EntryBroughtBack(digest, original, changed, restored, paths[i], kinds[paths[i]], blobs, creation);
    }
    assert Captured(digest, restored, kinds) == entries;
    forall p | p in kinds && p in restored
      ensures digest(restored[p].content) in blobs && blobs[digest(restored[p].content)] == restored[p].content
    {
      assert p in paths;
    }
    forall p | p !in kinds ensures SameAt(changed, restored, p) {
      assert !Lists(entries, p) by { assert forall i :: 0 <= i < |entries| ==> entries[i].path in kinds; }
    }
  }

  /** A stored value under a key is the same bytes, or nothing: the write-once rule. */
  predicate Writable(store: map<string, string>, key: string, value: string) {
    key in store ==> store[key] == value
  }

  /** No two contents among those of the scope and those stored differ under one digest. */
  ghost predicate Storable(digest: string -> string, files: map<string, File>, kinds: map<string, PathKind>, blobs: map<string, string>) {
    && (forall p :: p in kinds && p in files ==> Writable(blobs, digest(files[p].content), files[p].content))
    && (forall p, q :: p in kinds && p in files && q in kinds && q in files && digest(files[p].content) == digest(files[q].content) ==>
          files[p].content == files[q].content)
  }

  lemma BackedStorable(digest: string -> string, files: map<string, File>, kinds: map<string, PathKind>, blobs: map<string, string>)
    requires Backed(digest, files, kinds, blobs)
    ensures Storable(digest, files, kinds, blobs)
  {
  }

  /** Nothing stored was lost or altered. */
  ghost predicate Grown(before: map<string, string>, after: map<string, string>) {
    forall h :: h in before ==> h in after && after[h] == before[h]
  }

  /** `blobs` is `before` with the contents of the present files among `done`, and nothing else. */
  ghost predicate Filled(digest: string -> string, files: map<string, File>, done: seq<string>, before: map<string, string>, blobs: map<string, string>) {
    && Grown(before, blobs)
    && (forall p :: p in done && p in files ==>
          Stored(digest, blobs, files[p].content) && Writable(before, digest(files[p].content), files[p].content))
    && (forall h :: h in blobs && h !in before ==> FilledFrom(digest, files, done, blobs, h))
  }

  ghost predicate FilledFrom(digest: string -> string, files: map<string, File>, done: seq<string>, blobs: map<string, string>, h: string)
    requires h in blobs
  {
    exists p :: p in done && p in files && digest(files[p].content) == h && files[p].content == blobs[h]
  }

  /** The first `i` paths of the scope, in order. */
  ghost function FirstPaths(kinds: map<string, PathKind>, i: nat): seq<string>
    requires i <= |SortedKeys(kinds.Keys)|
  {
    SortedKeys(kinds.Keys)[..i]
  }

  lemma NothingFilled(digest: string -> string, files: map<string, File>, kinds: map<string, PathKind>, blobs: map<string, string>)
    ensures Filled(digest, files, FirstPaths(kinds, 0), blobs, blobs) && |Captured(digest, files, kinds)| == |SortedKeys(kinds.Keys)|
  {
  }

  lemma FilledMore(digest: string -> string, files: map<string, File>, done: seq<string>, path: string, before: map<string, string>, blobs: map<string, string>)
    requires Filled(digest, files, done, before, blobs)
    requires path in files ==> Writable(blobs, digest(files[path].content), files[path].content)
    ensures Filled(digest, files, done + [path], before,
              if path in files then blobs[digest(files[path].content) := files[path].content] else blobs)
  {
    var after := if path in files then blobs[digest(files[path].content) := files[path].content] else blobs;
    forall h | h in after && h !in before ensures FilledFrom(digest, files, done + [path], after, h) {
      if h in blobs { assert FilledFrom(digest, files, done, blobs, h); }
    }
  }

  lemma FilledNext(digest: string -> string, files: map<string, File>, kinds: map<string, PathKind>, i: nat, before: map<string, string>, blobs: map<string, string>)
    requires i < |SortedKeys(kinds.Keys)| && Filled(digest, files, FirstPaths(kinds, i), before, blobs)
    requires var path := SortedKeys(kinds.Keys)[i]; path in files ==> Writable(blobs, digest(files[path].content), files[path].content)
    ensures var path := SortedKeys(kinds.Keys)[i];
      Filled(digest, files, FirstPaths(kinds, i + 1), before,
        if path in files then blobs[digest(files[path].content) := files[path].content] else blobs)
  {
    hide Filled;
    var paths := SortedKeys(kinds.Keys);
    FilledMore(digest, files, paths[..i], paths[i], before, blobs);
    assert paths[..i + 1] == paths[..i] + [paths[i]];
  }

  lemma FilledRefused(digest: string -> string, files: map<string, File>, kinds: map<string, PathKind>, i: nat,
    before: map<string, string>, blobs: map<string, string>)
    requires i < |SortedKeys(kinds.Keys)| && Filled(digest, files, FirstPaths(kinds, i), before, blobs)
    requires var path := SortedKeys(kinds.Keys)[i]; path in files && !Writable(blobs, digest(files[path].content), files[path].content)
    ensures !Storable(digest, files, kinds, before) && Grown(before, blobs)
  {
    var paths := SortedKeys(kinds.Keys);
    var path := paths[i];
    var h := digest(files[path].content);
    assert path in paths && forall p :: p in paths[..i] ==> p in paths;
    hide SortedKeys;
    if h !in before { assert FilledFrom(digest, files, paths[..i], blobs, h); }
  }

  lemma FilledAll(digest: string -> string, files: map<string, File>, kinds: map<string, PathKind>, before: map<string, string>, blobs: map<string, string>)
    requires Filled(digest, files, FirstPaths(kinds, |SortedKeys(kinds.Keys)|), before, blobs)
    ensures Storable(digest, files, kinds, before) && Backed(digest, files, kinds, blobs) && Grown(before, blobs)
    ensures Filled(digest, files, SortedKeys(kinds.Keys), before, blobs)
  {
    var paths := SortedKeys(kinds.Keys);
    assert paths[..|paths|] == paths;
  }

  /** A working tree and the probe's evidence directory. */
  class Probe {
    const digest: string -> string
    const creation: Mode
    var files: map<string, File>
    var blobs: map<string, string>
    var manifests: map<string, string>

    constructor (digest: string -> string, creation: Mode, files: map<string, File>)
      ensures this.digest == digest && this.creation == creation && this.files == files && blobs == map[] && manifests == map[]
    {
      this.digest, this.creation, this.files, blobs, manifests := digest, creation, files, map[], map[];
    }

    /** `path_kinds` of a capture, built key by key. */
    method PathKinds(tracked: seq<string>, selected: seq<string>) returns (kinds: map<string, PathKind>)
      ensures kinds == Scope(tracked, selected)
    {
      kinds := map[];
      for i := 0 to |tracked|
        invariant forall p :: p in kinds <==> p in tracked[..i] && !OutOfScope(p)
        invariant forall p :: p in kinds ==> kinds[p] == Tracked
      {
        ExcludedExactly(tracked[i]);
        if !Excluded(tracked[i]) { kinds := kinds[tracked[i] := Tracked]; }
      }
      assert tracked[..|tracked|] == tracked;
      for i := 0 to |selected|
        invariant forall p :: p in kinds <==> (p in tracked && !OutOfScope(p)) || p in selected[..i]
        invariant forall p :: p in kinds ==> kinds[p] == if p in tracked && !OutOfScope(p) then Tracked else SelectedUntracked
      {
        if selected[i] !in kinds { kinds := kinds[selected[i] := SelectedUntracked]; }
      }
      assert selected[..|selected|] == selected;
    }

    /** The capture loop: one entry per scoped path in path order, its bytes stored under their hash and nothing else
        stored. It fails exactly when two different contents, of the scope or stored before, have one digest. */
    method CaptureEntries(kinds: map<string, PathKind>) returns (ok: bool, entries: seq<Entry>)
      modifies this`blobs
      ensures ok <==> Storable(digest, files, kinds, old(blobs))
      ensures ok ==> entries == Captured(digest, files, kinds) && Backed(digest, files, kinds, blobs)
      ensures Grown(old(blobs), blobs)
      ensures ok ==> Filled(digest, files, SortedKeys(kinds.Keys), old(blobs), blobs)
    {
      hide Storable, Backed, Filled, Writable, Captured, Executable, SortedKeys, FirstPaths, Grown;
      var paths := SortedKeys(kinds.Keys);
      ghost var all := Captured(digest, files, kinds);
      NothingFilled(digest, files, kinds, blobs);
      entries := [];
      for i := 0 to |paths|
        invariant entries == all[..i]
        invariant Filled(digest, files, FirstPaths(kinds, i), old(blobs), blobs)
      {
        var path := paths[i];
        CapturedAt(digest, files, kinds, i);
        if path in files {
          var content := files[path].content;
          if !Writable(blobs, digest(content), content) {
            FilledRefused(digest, files, kinds, i, old(blobs), blobs);
            return false, [];
          }
          FilledNext(digest, files, kinds, i, old(blobs), blobs);
          blobs := blobs[digest(content) := content];
          entries := entries + [Entry(Some(digest(content)), Some(Executable(files[path].mode)), path, kinds[path], Present)];
        } else {
          FilledNext(digest, files, kinds, i, old(blobs), blobs);
          entries := entries + [Entry(None, None, path, kinds[path], Deleted)];
        }
      }
      FilledAll(digest, files, kinds, old(blobs), blobs);
      return true, entries;
    }

    /** `capture_state`. The result is the manifest hash; it is missing exactly when two different contents of the scope or
        the store have one digest, or the manifest's file already holds other bytes. */
    method CaptureState(gitBase: string, tracked: seq<string>, selected: seq<string>) returns (hash: Option<string>)
      modifies this`blobs, this`manifests
      ensures hash.Some? <==> Capturable(gitBase, tracked, selected, old(blobs), old(manifests))
      ensures var text := ManifestText(gitBase, Captured(digest, files, Scope(tracked, selected)));
        if hash.Some? then hash == Some(digest(text)) && manifests == old(manifests)[digest(text) := text] else manifests == old(manifests)
      ensures hash.Some? ==> Backed(digest, files, Scope(tracked, selected), blobs)
      ensures Grown(old(blobs), blobs) && Grown(old(manifests), manifests)
    {
      hide ManifestText, Captured, Scope, Backed, Storable;
      var kinds := PathKinds(tracked, selected);
      var ok, entries := CaptureEntries(kinds);
      if !ok { return None; }
      var text := ManifestText(gitBase, entries);
      if !Writable(manifests, digest(text), text) { return None; }
      manifests := manifests[digest(text) := text];
      return Some(digest(text));
    }

    /** What `capture_state` needs of the files and the evidence directory. */
    ghost predicate Capturable(gitBase: string, tracked: seq<string>, selected: seq<string>, blobs: map<string, string>, manifests: map<string, string>)
      reads this`files
    {
      && Storable(digest, files, Scope(tracked, selected), blobs)
      && var text := ManifestText(gitBase, Captured(digest, files, Scope(tracked, selected)));
      Writable(manifests, digest(text), text)
    }

    /** `restore_manifest`. False when the manifest or a content blob cannot be read. */
    method RestoreManifest(hash: string) returns (ok: bool)
      modifies this`files
      ensures ok <==> hash in manifests && ReadManifest(manifests[hash]).Some? &&
                      Restorable(ReadManifest(manifests[hash]).value.1, blobs)
      ensures ok && UniquePaths(ReadManifest(manifests[hash]).value.1) ==>
              RestoredAs(old(files), files, ReadManifest(manifests[hash]).value.1, blobs, creation)
    {
      hide ReadManifest, WithExecutable;
      if hash !in manifests { return false; }
      var parsed := ReadManifest(manifests[hash]);
      if parsed.None? { return false; }
      var entries := parsed.value.1;
      for i := 0 to |entries|
        invariant Restorable(entries[..i], blobs)
        invariant UniquePaths(entries) ==> RestoredAs(old(files), files, entries[..i], blobs, creation)
      {
        var e := entries[i];
        ghost var mid := files;
        assert entries[..i + 1] == entries[..i] + [e];
        if e.state == Deleted {
          files := files - {e.path};
        } else {
          if e.contentHash.None? || e.contentHash.value !in blobs {
            assert e in entries;
            return false;
          }
          var mode := if e.path in files then files[e.path].mode else creation;
          files := files[e.path := File(blobs[e.contentHash.value], WithExecutable(mode, e.executable == Some(true)))];
        }
        if UniquePaths(entries) { RestoreStep(old(files), mid, files, entries[..i], e, blobs, creation); }
      }
      assert entries[..|entries|] == entries;
      return true;
    }

    /** Capture, let the files become anything at all, restore, capture again. Whenever the first capture can be made the
        restore succeeds, the manifest hash is the same, and no path outside the captured scope is touched by the restore. */
    method CaptureChangeRestoreRecapture(gitBase: string, tracked: seq<string>, selected: seq<string>,
      changed: map<string, File>) returns (first: Option<string>, restored: bool, second: Option<string>)
      modifies this
      ensures first.Some? <==> old(Capturable(gitBase, tracked, selected, blobs, manifests))
      ensures first.Some? ==> restored && second == first
      ensures first.Some? ==> forall p :: p !in Scope(tracked, selected) ==> SameAt(changed, files, p)
      ensures first.Some? ==> Captured(digest, files, Scope(tracked, selected)) == Captured(digest, old(files), Scope(tracked, selected))
      ensures first.Some? ==> forall p :: p in Scope(tracked, selected) ==> BroughtBack(old(files), changed, files, p, creation)
    {
      hide ManifestText, ReadManifest, Captured, Scope, Backed, RestoredAs, Storable;
      restored, second := false, None;
      ghost var original, kinds := files, Scope(tracked, selected);
      first := CaptureState(gitBase, tracked, selected);
      if first.None? { return; }
      ghost var entries := Captured(digest, original, kinds);
      ManifestRead(gitBase, entries);
      CapturedInOrder(digest, original, kinds);
      BackedRestorable(digest, original, kinds, blobs);
      files := changed;
      restored := RestoreManifest(first.value);
      RecapturedEqual(digest, original, changed, files, kinds, blobs, creation);
      assert Captured(digest, files, kinds) == entries;
      BackedStorable(digest, files, kinds, blobs);
      second := CaptureState(gitBase, tracked, selected);
    }
  }
}
