/** The canonical captured-state manifest: its printer, character by character, a reader for it, and the identity it gives. */
module CanonicalManifest {
  import opened Ordering

  datatype PathKind = Tracked | SelectedUntracked
  datatype PathState = Present | Deleted

  /** The fields of a captured path that take part in the manifest. */
  datatype Entry = Entry(
    contentHash: Option<string>, executable: Option<bool>, path: string, kind: PathKind, state: PathState)

  /** What the manifest says about one path, once the path itself is the key. */
  datatype PathFacts = PathFacts(kind: PathKind, state: PathState, contentHash: Option<string>, executable: Option<bool>)

  datatype ManifestError = EmptyGitBase | RepeatedPath
  datatype Outcome<+T> = Ok(value: T) | Err(error: ManifestError)

  // ---- Printing. Every printer takes the text that follows it. ----

  function HexDigits(): string { "0123456789abcdef" }

  /** `json.dumps(..., ensure_ascii=False)` on one character: section 7 of RFC 8259, with the short escapes. */
  function EscapeChar(c: char, rest: string): string {
    if c == '"' then "\\\"" + rest
    else if c == '\\' then "\\\\" + rest
    else if c == '\n' then "\\n" + rest
    else if c == '\r' then "\\r" + rest
    else if c == '\t' then "\\t" + rest
    else if c == '\U{8}' then "\\b" + rest
    else if c == '\U{C}' then "\\f" + rest
    else if c < ' ' then ['\\', 'u', '0', '0', HexDigits()[c as int / 16], HexDigits()[c as int % 16]] + rest
    else [c] + rest
  }

  function EscapeText(s: string, rest: string): string {
    if s == "" then rest else EscapeChar(s[0], EscapeText(s[1..], rest))
  }

  function Quoted(s: string, rest: string): string {
    ['"'] + EscapeText(s, ['"'] + rest)
  }

  function HashText(h: Option<string>, rest: string): string {
    match h case None => "null" + rest case Some(v) => Quoted(v, rest)
  }

  function FlagText(b: Option<bool>, rest: string): string {
    match b case None => "null" + rest case Some(true) => "true" + rest case Some(false) => "false" + rest
  }

  function KindText(k: PathKind, rest: string): string {
    match k case Tracked => "\"tracked\"" + rest case SelectedUntracked => "\"selected_untracked\"" + rest
  }

  function StateText(s: PathState, rest: string): string {
    match s case Present => "\"present\"" + rest case Deleted => "\"deleted\"" + rest
  }

  function HashKey(): string { "{\"content_hash\":" }
  function ExecutableKey(): string { ",\"executable\":" }
  function PathKey(): string { ",\"path\":" }
  function KindKey(): string { ",\"path_kind\":" }
  function StateKey(): string { ",\"state\":" }
  function BaseKey(): string { "{\"format\":\"acr.captured-state-manifest/0.2-provisional\",\"git_base\":" }
  function PathsKey(): string { ",\"paths\":[" }
  function End(): string { "]}\n" }

  /** One path object, its keys in sorted order and no spaces. */
  function EntryText(e: Entry, rest: string): string {
    HashKey() + HashText(e.contentHash,
      ExecutableKey() + FlagText(e.executable,
        PathKey() + Quoted(e.path,
          KindKey() + KindText(e.kind,
            StateKey() + StateText(e.state, ['}'] + rest)))))
  }

  function MoreEntriesText(es: seq<Entry>, rest: string): string {
    if es == [] then rest else [','] + EntryText(es[0], MoreEntriesText(es[1..], rest))
  }

  function EntriesText(es: seq<Entry>, rest: string): string {
    if es == [] then rest else EntryText(es[0], MoreEntriesText(es[1..], rest))
  }

  /** The JSON text of a manifest whose path list is printed in the order given. */
  function ManifestText(gitBase: string, entries: seq<Entry>): string {
    BaseKey() + Quoted(gitBase, PathsKey() + EntriesText(entries, End()))
  }

  predicate ByPath(a: Entry, b: Entry) { StrLeq(a.path, b.path) }

  predicate UniquePaths(es: seq<Entry>) {
    forall i, j :: 0 <= i < j < |es| ==> es[i].path != es[j].path
  }

  /** `canonical_captured_state_manifest_bytes`, as text. */
  function CanonicalText(gitBase: string, entries: seq<Entry>): Outcome<string> {
    if gitBase == "" then Err(EmptyGitBase)
    else if !UniquePaths(entries) then Err(RepeatedPath)
    else Ok(ManifestText(gitBase, Sort(entries, ByPath)))
  }

  // ---- Reading the printed text back. ----

  type Reading<T> = Option<(T, string)>

  function Literal(lit: string, s: string): Option<string> {
    if lit <= s then Some(s[|lit|..]) else None
  }

  function HexValue(c: char): Option<int> {
    if '0' <= c <= '9' then Some(c as int - '0' as int)
    else if 'a' <= c <= 'f' then Some(c as int - 'a' as int + 10)
    else None
  }

  function ReadChar(s: string): (r: Reading<char>)
    ensures r.Some? ==> |r.value.1| < |s|
  {
    if s == "" || s[0] < ' ' then None
    else if s[0] != '\\' then Some((s[0], s[1..]))
    else if |s| < 2 then None
    else if s[1] == '"' then Some(('"', s[2..]))
    else if s[1] == '\\' then Some(('\\', s[2..]))
    else if s[1] == 'n' then Some(('\n', s[2..]))
    else if s[1] == 'r' then Some(('\r', s[2..]))
    else if s[1] == 't' then Some(('\t', s[2..]))
    else if s[1] == 'b' then Some(('\U{8}', s[2..]))
    else if s[1] == 'f' then Some(('\U{C}', s[2..]))
    else if s[1] == 'u' && |s| >= 6 && s[2] == '0' && s[3] == '0' then
      match (HexValue(s[4]), HexValue(s[5]))
      case (Some(h), Some(l)) => Some(((16 * h + l) as char, s[6..]))
      case _ => None
    else None
  }

  function ReadBody(s: string): (r: Reading<string>)
    ensures r.Some? ==> |r.value.1| < |s|
    decreases |s|
  {
    if s == "" then None
    else if s[0] == '"' then Some(("", s[1..]))
    else
      match ReadChar(s)
      case None => None
      case Some((c, rest)) =>
        match ReadBody(rest)
        case None => None
        case Some((cs, after)) => Some(([c] + cs, after))
  }

  function ReadQuoted(s: string): (r: Reading<string>)
    ensures r.Some? ==> |r.value.1| < |s|
  {
    if s == "" || s[0] != '"' then None else ReadBody(s[1..])
  }

  function ReadHash(s: string): (r: Reading<Option<string>>)
    ensures r.Some? ==> |r.value.1| < |s|
  {
    match Literal("null", s)
    case Some(rest) => Some((None, rest))
    case None =>
      match ReadQuoted(s)
      case None => None
      case Some((h, rest)) => Some((Some(h), rest))
  }

  function ReadFlag(s: string): (r: Reading<Option<bool>>)
    ensures r.Some? ==> |r.value.1| < |s|
  {
    match Literal("null", s)
    case Some(rest) => Some((None, rest))
    case None =>
      match Literal("true", s)
      case Some(rest) => Some((Some(true), rest))
      case None =>
        match Literal("false", s)
        case Some(rest) => Some((Some(false), rest))
        case None => None
  }

  function ReadKind(s: string): (r: Reading<PathKind>)
    ensures r.Some? ==> |r.value.1| < |s|
  {
    match Literal("\"tracked\"", s)
    case Some(rest) => Some((Tracked, rest))
    case None =>
      match Literal("\"selected_untracked\"", s)
      case Some(rest) => Some((SelectedUntracked, rest))
      case None => None
  }

  function ReadState(s: string): (r: Reading<PathState>)
    ensures r.Some? ==> |r.value.1| < |s|
  {
    match Literal("\"present\"", s)
    case Some(rest) => Some((Present, rest))
    case None =>
      match Literal("\"deleted\"", s)
      case Some(rest) => Some((Deleted, rest))
      case None => None
  }

  /** Read a literal, then a value. */
  function After<T>(lit: string, s: string, read: string -> Reading<T>): (r: Reading<T>) {
    match Literal(lit, s) case None => None case Some(rest) => read(rest)
  }

  function ReadEntry(s: string): Reading<Entry> {
    match After(HashKey(), s, ReadHash) case None => None case Some((hash, s1)) =>
    match After(ExecutableKey(), s1, ReadFlag) case None => None case Some((flag, s2)) =>
    match After(PathKey(), s2, ReadQuoted) case None => None case Some((path, s3)) =>
    match After(KindKey(), s3, ReadKind) case None => None case Some((kind, s4)) =>
    match After(StateKey(), s4, ReadState) case None => None case Some((state, s5)) =>
    match Literal("}", s5) case None => None case Some(s6) =>
    Some((Entry(hash, flag, path, kind, state), s6))
  }

  /** The entries that follow the first one; a reader that does not advance gives up. */
  function ReadMoreEntries(s: string): Reading<seq<Entry>>
    decreases |s|
  {
    match Literal(",", s)
    case None => Some(([], s))
    case Some(rest) =>
      match ReadEntry(rest)
      case None => None
      case Some((e, after)) =>
        if |after| >= |s| then None
        else
          match ReadMoreEntries(after)
          case None => None
          case Some((es, end)) => Some(([e] + es, end))
  }

  function ReadEntries(s: string): Reading<seq<Entry>> {
    if End() <= s then Some(([], s))
    else
      match ReadEntry(s)
      case None => None
      case Some((e, after)) =>
        match ReadMoreEntries(after)
        case None => None
        case Some((es, end)) => Some(([e] + es, end))
  }

  /** `json.loads` on a manifest: the Git base and the path list. */
  function ReadManifest(s: string): Option<(string, seq<Entry>)> {
    match After(BaseKey(), s, ReadQuoted) case None => None case Some((base, s1)) =>
    match After(PathsKey(), s1, ReadEntries) case None => None case Some((entries, s2)) =>
    if s2 == End() then Some((base, entries)) else None
  }

  // ---- The reader undoes the printer. ----

  lemma LiteralRead(lit: string, rest: string)
    ensures Literal(lit, lit + rest) == Some(rest)
  {
    assert (lit + rest)[|lit|..] == rest;
  }

  lemma CharRead(c: char, rest: string)
    ensures ReadChar(EscapeChar(c, rest)) == Some((c, rest))
    ensures EscapeChar(c, rest)[0] != '"'
  {
    var s := EscapeChar(c, rest);
    if |s| - |rest| == 6 {
      var h, l := c as int / 16, c as int % 16;
      assert HexValue(HexDigits()[h]) == Some(h) && HexValue(HexDigits()[l]) == Some(l);
      assert s[6..] == rest;
    } else if |s| - |rest| == 2 {
      assert s[2..] == rest;
    } else {
      assert s[1..] == rest;
    }
  }

  lemma {:induction false} TextRead(s: string, rest: string)
    ensures ReadBody(EscapeText(s, ['"'] + rest)) == Some((s, rest))
  {
    if s == "" {
      assert (['"'] + rest)[1..] == rest;
    } else {
      TextRead(s[1..], rest);
      CharRead(s[0], EscapeText(s[1..], ['"'] + rest));
      assert s == [s[0]] + s[1..];
    }
  }

  /** Any string survives quoting and reading, whatever follows it. */
  lemma QuotedRead(s: string, rest: string)
    ensures ReadQuoted(Quoted(s, rest)) == Some((s, rest))
  {
    TextRead(s, rest);
    assert Quoted(s, rest)[1..] == EscapeText(s, ['"'] + rest);
  }

  lemma HashRead(h: Option<string>, rest: string)
    ensures ReadHash(HashText(h, rest)) == Some((h, rest))
  {
    match h
    case None => LiteralRead("null", rest);
    case Some(v) => QuotedRead(v, rest); assert HashText(h, rest)[0] == '"';
  }

  lemma FlagRead(b: Option<bool>, rest: string)
    ensures ReadFlag(FlagText(b, rest)) == Some((b, rest))
  {
    match b
    case None => LiteralRead("null", rest);
    case Some(true) => LiteralRead("true", rest); assert FlagText(b, rest)[0] == 't';
    case Some(false) => LiteralRead("false", rest); assert FlagText(b, rest)[0] == 'f';
  }

  lemma KindRead(k: PathKind, rest: string)
    ensures ReadKind(KindText(k, rest)) == Some((k, rest))
  {
    match k
    case Tracked => LiteralRead("\"tracked\"", rest);
    case SelectedUntracked => LiteralRead("\"selected_untracked\"", rest); assert KindText(k, rest)[1] == 's';
  }

  lemma StateRead(st: PathState, rest: string)
    ensures ReadState(StateText(st, rest)) == Some((st, rest))
  {
    match st
    case Present => LiteralRead("\"present\"", rest);
    case Deleted => LiteralRead("\"deleted\"", rest); assert StateText(st, rest)[1] == 'd';
  }

  lemma EntryRead(e: Entry, rest: string)
    ensures ReadEntry(EntryText(e, rest)) == Some((e, rest))
    ensures |EntryText(e, rest)| > 0 && EntryText(e, rest)[0] == '{'
  {
    var t5 := StateText(e.state, ['}'] + rest);
    var t4 := KindText(e.kind, StateKey() + t5);
    var t3 := Quoted(e.path, KindKey() + t4);
    var t2 := FlagText(e.executable, PathKey() + t3);
    var t1 := HashText(e.contentHash, ExecutableKey() + t2);
    LiteralRead(HashKey(), t1);
    HashRead(e.contentHash, ExecutableKey() + t2);
    LiteralRead(ExecutableKey(), t2);
    FlagRead(e.executable, PathKey() + t3);
    LiteralRead(PathKey(), t3);
    QuotedRead(e.path, KindKey() + t4);
    LiteralRead(KindKey(), t4);
    KindRead(e.kind, StateKey() + t5);
    LiteralRead(StateKey(), t5);
    StateRead(e.state, ['}'] + rest);
    LiteralRead("}", rest);
  }

  lemma {:induction false} EscapeLonger(s: string, rest: string)
    ensures |EscapeText(s, rest)| >= |rest|
  {
    if s != "" { EscapeLonger(s[1..], rest); }
  }

  lemma EntryLonger(e: Entry, rest: string)
    ensures |EntryText(e, rest)| > |rest|
  {
    var t5 := StateText(e.state, ['}'] + rest);
    var t4 := KindText(e.kind, StateKey() + t5);
    EscapeLonger(e.path, ['"'] + (KindKey() + t4));
    var t3 := Quoted(e.path, KindKey() + t4);
    var t2 := FlagText(e.executable, PathKey() + t3);
    if e.contentHash.Some? { EscapeLonger(e.contentHash.value, ['"'] + (ExecutableKey() + t2)); }
  }

  lemma {:induction false} MoreEntriesRead(es: seq<Entry>)
    ensures ReadMoreEntries(MoreEntriesText(es, End())) == Some((es, End()))
  {
    hide EntryText, ReadEntry;
    if es == [] {
      assert End()[0] == ']';
    } else {
      var more := MoreEntriesText(es[1..], End());
      MoreEntriesRead(es[1..]);
      LiteralRead(",", EntryText(es[0], more));
      EntryRead(es[0], more);
      EntryLonger(es[0], more);
      assert es == [es[0]] + es[1..];
    }
  }

  lemma EntriesRead(es: seq<Entry>)
    ensures ReadEntries(EntriesText(es, End())) == Some((es, End()))
  {
    hide EntryText, ReadEntry, MoreEntriesText, ReadMoreEntries;
    if es != [] {
      var more := MoreEntriesText(es[1..], End());
      var text := EntryText(es[0], more);
      EntryRead(es[0], more);
      MoreEntriesRead(es[1..]);
      assert es == [es[0]] + es[1..];
      assert !(End() <= text) by { assert End()[0] == ']' && text[0] == '{'; }
    }
  }

  /** The printed text determines the Git base and the path list, for every base and every list. */
  lemma ManifestRead(gitBase: string, entries: seq<Entry>)
    ensures ReadManifest(ManifestText(gitBase, entries)) == Some((gitBase, entries))
  {
    hide EntriesText, ReadEntries, Quoted, ReadQuoted;
    var t1 := PathsKey() + EntriesText(entries, End());
    LiteralRead(BaseKey(), Quoted(gitBase, t1));
    QuotedRead(gitBase, t1);
    LiteralRead(PathsKey(), EntriesText(entries, End()));
    EntriesRead(entries);
  }

  // ---- The identity the canonical text gives. ----

  function Facts(e: Entry): PathFacts { PathFacts(e.kind, e.state, e.contentHash, e.executable) }

  /** The overlay a path list describes, the order of the list forgotten. */
  ghost function Overlay(es: seq<Entry>): map<string, PathFacts>
    requires UniquePaths(es)
  {
    map e | e in es :: e.path := Facts(e)
  }

  lemma OverlayMembers(es: seq<Entry>, e: Entry)
    requires UniquePaths(es)
    ensures e in es <==> e.path in Overlay(es) && Overlay(es)[e.path] == Facts(e)
  {
    if e.path in Overlay(es) && Overlay(es)[e.path] == Facts(e) {
      var f :| f in es && f.path == e.path && Facts(f) == Facts(e);
      assert f == e;
    }
  }

  lemma ByPathIsOrder()
    ensures Total(ByPath) && Transitive(ByPath)
  {
    forall x, y ensures ByPath(x, y) || ByPath(y, x) { StrLeqTotal(x.path, y.path); }
    forall x, y, z | ByPath(x, y) && ByPath(y, z) ensures ByPath(x, z) { StrLeqTransitive(x.path, y.path, z.path); }
  }

  /** Sorting by path keeps a list without repeated paths a listing of the same paths, in path order. */
  lemma SortByPathKeeps(es: seq<Entry>)
    requires UniquePaths(es)
    ensures var s := Sort(es, ByPath);
            UniquePaths(s) && Sorted(s, ByPath) && (forall e :: e in s <==> e in es) && Overlay(s) == Overlay(es)
  {
    ByPathIsOrder();
    SortIsSortedPermutation(es, ByPath);
    var s := Sort(es, ByPath);
    PermutedDistinct(es, s);
    assert forall i :: 0 <= i < |s| ==> s[i] in es;
    assert UniquePaths(s);
    assert Overlay(s) == Overlay(es);
  }

  /** A path list in path order is what sorting any listing of the same overlay gives. */
  lemma SortedFormUnique(a: seq<Entry>, b: seq<Entry>)
    requires UniquePaths(a) && UniquePaths(b) && Overlay(a) == Overlay(b)
    requires Sorted(a, ByPath) && Sorted(b, ByPath)
    ensures a == b
  {
    forall e ensures e in a <==> e in b { OverlayMembers(a, e); OverlayMembers(b, e); }
    forall x, y | x in a && y in a && ByPath(x, y) && ByPath(y, x) ensures x == y {
      StrLeqAntisymmetric(x.path, y.path);
    }
    SortedListingUnique(a, b, ByPath);
  }

  /** The reader recovers the Git base and the overlay in path order from the canonical text. */
  lemma CanonicalRead(gitBase: string, es: seq<Entry>)
    requires CanonicalText(gitBase, es).Ok?
    ensures ReadManifest(CanonicalText(gitBase, es).value) == Some((gitBase, Sort(es, ByPath)))
  {
    ManifestRead(gitBase, Sort(es, ByPath));
  }

  /** The identity: canonical texts are equal exactly when the Git bases are equal and the overlays are
      equal as maps, whatever the order of the two lists. */
  lemma CanonicalIdentity(base1: string, es1: seq<Entry>, base2: string, es2: seq<Entry>)
    requires CanonicalText(base1, es1).Ok? && CanonicalText(base2, es2).Ok?
    ensures CanonicalText(base1, es1).value == CanonicalText(base2, es2).value
            <==> base1 == base2 && Overlay(es1) == Overlay(es2)
  {
    CanonicalRead(base1, es1);
    CanonicalRead(base2, es2);
    SortByPathKeeps(es1);
    SortByPathKeeps(es2);
    if base1 == base2 && Overlay(es1) == Overlay(es2) {
      SortedFormUnique(Sort(es1, ByPath), Sort(es2, ByPath));
    }
  }

  /** A manifest whose list is already in path order, as the probe prints it, is the canonical text of every
      listing of that overlay. */
  lemma ProbeTextIsCanonical(gitBase: string, inOrder: seq<Entry>, es: seq<Entry>)
    requires gitBase != "" && UniquePaths(inOrder) && Sorted(inOrder, ByPath)
    requires UniquePaths(es) && Overlay(es) == Overlay(inOrder)
    ensures CanonicalText(gitBase, es) == Ok(ManifestText(gitBase, inOrder))
  {
    SortByPathKeeps(es);
    SortedFormUnique(Sort(es, ByPath), inOrder);
  }
}
