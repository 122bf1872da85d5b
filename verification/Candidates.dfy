/** Exact duplicate reads: the three-valued pair assessment and the one-pass detector. */
module Candidates {
  import opened Ordering

  type Hash = string
  /** Source, trajectory and locator of a piece of evidence. */
  type RefId = (string, string, string)

  datatype Read = Read(
    trajectory: string, occurrence: string, position: nat, path: Option<string>, outputHash: Option<Hash>, outputBytes: Option<nat>,
    fileHash: Option<Hash>, complete: Option<bool>, encoding: Option<string>, membership: Option<bool>, currentHash: Option<Hash>,
    refs: seq<RefId>)

  datatype ChangeKind = WriteChange | EditChange | FileChange | UnknownChange
  datatype Change = Change(occurrence: string, position: nat, kind: ChangeKind, path: Option<string>)

  datatype Reason =
    | CrossTrajectory | PathUnobserved | PathMismatch | SameOccurrence | OutputUnobserved | OutputChanged | InterveningChange
    | IncompleteRead | CompletenessUnobserved | ChangeUnresolved | EncodingUnobserved | UnsupportedEncoding | FileUnobserved
    | FileChanged | NotCoPresent | MembershipUnobserved | CurrentUnverified | CurrentChanged | StrictDuplicate
  datatype Status = Candidate | Rejected | Unknown
  datatype Verdict = Verdict(status: Status, reason: Reason)

  function Lower(c: char): char { if 'A' <= c <= 'Z' then (c as int + 32) as char else c }

  /** `encoding.lower() == "utf-8"`. */
  predicate IsUtf8(e: string) {
    |e| == 5 && Lower(e[0]) == 'u' && Lower(e[1]) == 't' && Lower(e[2]) == 'f' && e[3] == '-' && e[4] == '8'
  }

  predicate IsFileChange(c: Change) { c.kind == WriteChange || c.kind == EditChange || c.kind == FileChange }

  function RefSet(r: Read): set<RefId> { set x | x in r.refs }

  predicate SameEvidence(a: Read, b: Read) {
    a.occurrence == b.occurrence || a.position == b.position || (RefSet(a) != {} && RefSet(b) != {} && RefSet(a) == RefSet(b))
  }

  predicate Denied(x: Option<bool>) { x.Some? && !x.value }
  predicate Granted(x: Option<bool>) { x.Some? && x.value }

  /** A recorded change of the file in between. */
  predicate Touched(changes: seq<Change>, path: Option<string>) {
    exists i :: 0 <= i < |changes| && changes[i].path == path && IsFileChange(changes[i])
  }

  predicate Unresolved(changes: seq<Change>) { exists i :: 0 <= i < |changes| && changes[i].kind == UnknownChange }

  /** `assess_duplicate_pair`, branch by branch. */
  function Assess(older: Read, newer: Read, changes: seq<Change>): Verdict {
    if older.trajectory != newer.trajectory then Verdict(Rejected, CrossTrajectory)
    else if older.path.None? || newer.path.None? then Verdict(Unknown, PathUnobserved)
    else if older.path != newer.path then Verdict(Rejected, PathMismatch)
    else if SameEvidence(older, newer) then Verdict(Rejected, SameOccurrence)
    else if older.outputHash.None? || newer.outputHash.None? then Verdict(Unknown, OutputUnobserved)
    else if older.outputHash != newer.outputHash || older.outputBytes != newer.outputBytes then Verdict(Rejected, OutputChanged)
    else if Touched(changes, newer.path) then Verdict(Rejected, InterveningChange)
    else if Denied(older.complete) || Denied(newer.complete) then Verdict(Rejected, IncompleteRead)
    else if older.complete.None? || newer.complete.None? then Verdict(Unknown, CompletenessUnobserved)
    else if Unresolved(changes) then Verdict(Unknown, ChangeUnresolved)
    else if older.encoding.None? || newer.encoding.None? then Verdict(Unknown, EncodingUnobserved)
    else if !IsUtf8(older.encoding.value) || !IsUtf8(newer.encoding.value) then Verdict(Rejected, UnsupportedEncoding)
    else if older.fileHash.None? || newer.fileHash.None? then Verdict(Unknown, FileUnobserved)
    else if older.fileHash != newer.fileHash then Verdict(Rejected, FileChanged)
    else if Denied(older.membership) || Denied(newer.membership) then Verdict(Rejected, NotCoPresent)
    else if older.membership.None? || newer.membership.None? then Verdict(Unknown, MembershipUnobserved)
    else if newer.currentHash.None? then Verdict(Unknown, CurrentUnverified)
    else if newer.currentHash != newer.fileHash then Verdict(Rejected, CurrentChanged)
    else Verdict(Candidate, StrictDuplicate)
  }

  // ---- What the verdicts mean ----

  ghost predicate FilledIn<T>(a: Option<T>, b: Option<T>) { a.Some? ==> b == a }

  /** `b` is `a` with some of its missing evidence supplied. */
  ghost predicate Fills(a: Read, b: Read) {
    && b.trajectory == a.trajectory && b.occurrence == a.occurrence && b.position == a.position && b.outputBytes == a.outputBytes && b.refs == a.refs
    && FilledIn(a.path, b.path) && FilledIn(a.outputHash, b.outputHash) && FilledIn(a.fileHash, b.fileHash) && FilledIn(a.complete, b.complete)
    && FilledIn(a.encoding, b.encoding) && FilledIn(a.membership, b.membership) && FilledIn(a.currentHash, b.currentHash)
  }

  /** More evidence can settle an open verdict but never overturns a settled one, nor changes its reason. */
  lemma EvidenceMonotone(older: Read, newer: Read, older2: Read, newer2: Read, changes: seq<Change>)
    requires Fills(older, older2) && Fills(newer, newer2)
    ensures Assess(older, newer, changes).status != Unknown ==> Assess(older2, newer2, changes) == Assess(older, newer, changes)
  {
    hide IsUtf8;
  }

  /** A candidate, without reference to the order of the checks: two occurrences of the same complete UTF-8 read of the same
      unchanged file, both in the request, with the file still as it was. */
  lemma CandidateExactly(older: Read, newer: Read, changes: seq<Change>)
    ensures Assess(older, newer, changes).status == Candidate <==>
      && older.trajectory == newer.trajectory && older.path.Some? && older.path == newer.path && !SameEvidence(older, newer)
      && older.outputHash.Some? && older.outputHash == newer.outputHash && older.outputBytes == newer.outputBytes
      && Granted(older.complete) && Granted(newer.complete)
      && !Unresolved(changes) && !Touched(changes, newer.path)
      && older.encoding.Some? && newer.encoding.Some? && IsUtf8(older.encoding.value) && IsUtf8(newer.encoding.value)
      && older.fileHash.Some? && older.fileHash == newer.fileHash == newer.currentHash
      && Granted(older.membership) && Granted(newer.membership)
  {
    hide IsUtf8;
  }

  /** The spellings whose lower case is "utf-8". */
  function Utf8Spellings(): set<string> { {"utf-8", "Utf-8", "uTf-8", "utF-8", "UTf-8", "UtF-8", "uTF-8", "UTF-8"} }

  lemma SpellsUtf8(e: string)
    ensures IsUtf8(e) <==> e in Utf8Spellings()
  {
    if IsUtf8(e) {
      assert (e[0] == 'u' || e[0] == 'U') && (e[1] == 't' || e[1] == 'T') && (e[2] == 'f' || e[2] == 'F');
      assert e == [e[0], e[1], e[2], '-', '8'];
    }
  }

  /** What each reason says of the pair, in terms of the evidence alone. */
  ghost predicate Says(reason: Reason, older: Read, newer: Read, changes: seq<Change>) {
    match reason
    case CrossTrajectory => older.trajectory != newer.trajectory
    case PathUnobserved => older.path.None? || newer.path.None?
    case PathMismatch => older.path.Some? && newer.path.Some? && older.path != newer.path
    case SameOccurrence =>
      || older.occurrence == newer.occurrence || older.position == newer.position
      || (older.refs != [] && newer.refs != [] && forall x :: x in older.refs <==> x in newer.refs)
    case OutputUnobserved => older.outputHash.None? || newer.outputHash.None?
    case OutputChanged => older.outputHash.Some? && newer.outputHash.Some? && (older.outputHash != newer.outputHash || older.outputBytes != newer.outputBytes)
    case InterveningChange =>
      exists i :: 0 <= i < |changes| && changes[i].path == newer.path
        && (changes[i].kind == WriteChange || changes[i].kind == EditChange || changes[i].kind == FileChange)
    case IncompleteRead => older.complete == Some(false) || newer.complete == Some(false)
    case CompletenessUnobserved => older.complete.None? || newer.complete.None?
    case ChangeUnresolved => exists i :: 0 <= i < |changes| && changes[i].kind == UnknownChange
    case EncodingUnobserved => older.encoding.None? || newer.encoding.None?
    case UnsupportedEncoding =>
      (older.encoding.Some? && older.encoding.value !in Utf8Spellings()) || (newer.encoding.Some? && newer.encoding.value !in Utf8Spellings())
    case FileUnobserved => older.fileHash.None? || newer.fileHash.None?
    case FileChanged => older.fileHash.Some? && newer.fileHash.Some? && older.fileHash != newer.fileHash
    case NotCoPresent => older.membership == Some(false) || newer.membership == Some(false)
    case MembershipUnobserved => older.membership.None? || newer.membership.None?
    case CurrentUnverified => newer.currentHash.None?
    case CurrentChanged => newer.currentHash.Some? && newer.fileHash.Some? && newer.currentHash != newer.fileHash
    case StrictDuplicate => older.path.Some? && older.path == newer.path && newer.currentHash.Some? && older.fileHash == newer.fileHash == newer.currentHash
  }

  /** Reasons that settle against a candidate, and reasons that leave the pair open. */
  function StatusFor(reason: Reason): Status {
    match reason
    case StrictDuplicate => Candidate
    case PathUnobserved => Unknown case OutputUnobserved => Unknown case CompletenessUnobserved => Unknown case ChangeUnresolved => Unknown
    case EncodingUnobserved => Unknown case FileUnobserved => Unknown case MembershipUnobserved => Unknown case CurrentUnverified => Unknown
    case _ => Rejected
  }

  /** Which of two reasons is given when both are true of a pair: the one earlier in this list. */
  function ReasonOrder(): seq<Reason> {
    [CrossTrajectory, PathUnobserved, PathMismatch, SameOccurrence, OutputUnobserved, OutputChanged, InterveningChange,
     IncompleteRead, CompletenessUnobserved, ChangeUnresolved, EncodingUnobserved, UnsupportedEncoding, FileUnobserved,
     FileChanged, NotCoPresent, MembershipUnobserved, CurrentUnverified, CurrentChanged, StrictDuplicate]
  }

  /** The reason at `k` is true of the pair, and none before it is. */
  ghost predicate FirstTrue(k: int, older: Read, newer: Read, changes: seq<Change>) {
    && 0 <= k < |ReasonOrder()| && Says(ReasonOrder()[k], older, newer, changes)
    && forall j :: 0 <= j < k ==> !Says(ReasonOrder()[j], older, newer, changes)
  }

  /** The verdict gives the first reason of the order that is true of the pair, and the status that goes with it. */
  ghost predicate IsVerdict(v: Verdict, older: Read, newer: Read, changes: seq<Change>) {
    v.status == StatusFor(v.reason) && exists k :: FirstTrue(k, older, newer, changes) && ReasonOrder()[k] == v.reason
  }

  lemma SameEvidenceSays(older: Read, newer: Read, changes: seq<Change>)
    ensures SameEvidence(older, newer) <==> Says(SameOccurrence, older, newer, changes)
  {
    var a, b := RefSet(older), RefSet(newer);
    assert forall x :: x in a <==> x in older.refs;
    assert forall x :: x in b <==> x in newer.refs;
    if older.refs != [] { assert older.refs[0] in a; }
    if newer.refs != [] { assert newer.refs[0] in b; }
  }

  lemma ChangesSay(older: Read, newer: Read, changes: seq<Change>)
    ensures Touched(changes, newer.path) <==> Says(InterveningChange, older, newer, changes)
    ensures Unresolved(changes) <==> Says(ChangeUnresolved, older, newer, changes)
  {
    if i :| 0 <= i < |changes| && changes[i].path == newer.path &&
            (changes[i].kind == WriteChange || changes[i].kind == EditChange || changes[i].kind == FileChange) {
      assert IsFileChange(changes[i]);
    }
  }

  /** The place of a reason in the order. */
  lemma PlaceOf(reason: Reason) returns (k: nat)
    ensures k < |ReasonOrder()| && ReasonOrder()[k] == reason
    ensures forall j :: 0 <= j < k ==> ReasonOrder()[j] != reason
  {
    k := match reason
      case CrossTrajectory => 0 case PathUnobserved => 1 case PathMismatch => 2 case SameOccurrence => 3 case OutputUnobserved => 4
      case OutputChanged => 5 case InterveningChange => 6 case IncompleteRead => 7 case CompletenessUnobserved => 8
      case ChangeUnresolved => 9 case EncodingUnobserved => 10 case UnsupportedEncoding => 11 case FileUnobserved => 12
      case FileChanged => 13 case NotCoPresent => 14 case MembershipUnobserved => 15 case CurrentUnverified => 16
      case CurrentChanged => 17 case StrictDuplicate => 18;
  }

  /** What the helper predicates of the chain say. */
  ghost predicate Spelled(older: Read, newer: Read, changes: seq<Change>) {
    && (SameEvidence(older, newer) <==> Says(SameOccurrence, older, newer, changes))
    && (Touched(changes, newer.path) <==> Says(InterveningChange, older, newer, changes))
    && (Unresolved(changes) <==> Says(ChangeUnresolved, older, newer, changes))
    && (older.encoding.Some? ==> (IsUtf8(older.encoding.value) <==> older.encoding.value in Utf8Spellings()))
    && (newer.encoding.Some? ==> (IsUtf8(newer.encoding.value) <==> newer.encoding.value in Utf8Spellings()))
  }

  lemma AllSpelled(older: Read, newer: Read, changes: seq<Change>)
    ensures Spelled(older, newer, changes)
  {
    if older.encoding.Some? { SpellsUtf8(older.encoding.value); }
    if newer.encoding.Some? { SpellsUtf8(newer.encoding.value); }
    SameEvidenceSays(older, newer, changes);
    ChangesSay(older, newer, changes);
    hide IsUtf8, Utf8Spellings, Touched, Unresolved, SameEvidence, Says;
  }

  lemma StatusGiven(older: Read, newer: Read, changes: seq<Change>)
    ensures Assess(older, newer, changes).status == StatusFor(Assess(older, newer, changes).reason)
  {
    hide IsUtf8, Touched, Unresolved, SameEvidence;
  }

  lemma OwnReason(older: Read, newer: Read, changes: seq<Change>)
    ensures Says(Assess(older, newer, changes).reason, older, newer, changes)
  {
    AllSpelled(older, newer, changes);
    hide IsUtf8, Utf8Spellings, Touched, Unresolved, SameEvidence;
  }

  lemma EarlyPassed(older: Read, newer: Read, changes: seq<Change>, k: nat)
    requires k < |ReasonOrder()| && ReasonOrder()[k] == Assess(older, newer, changes).reason
    ensures forall j :: 0 <= j < k && j < 9 ==> !Says(ReasonOrder()[j], older, newer, changes)
  {
    AllSpelled(older, newer, changes);
    hide IsUtf8, Utf8Spellings, Touched, Unresolved, SameEvidence;
  }

  lemma LatePassed(older: Read, newer: Read, changes: seq<Change>, k: nat)
    requires k < |ReasonOrder()| && ReasonOrder()[k] == Assess(older, newer, changes).reason
    ensures forall j :: 9 <= j < k ==> !Says(ReasonOrder()[j], older, newer, changes)
  {
    AllSpelled(older, newer, changes);
    hide IsUtf8, Utf8Spellings, Touched, Unresolved, SameEvidence;
  }

  /** The verdict is the first true reason of the declared order, and that reason decides the status. */
  lemma ReasonTrue(older: Read, newer: Read, changes: seq<Change>)
    ensures IsVerdict(Assess(older, newer, changes), older, newer, changes)
  {
    var v := Assess(older, newer, changes);
    var k := PlaceOf(v.reason);
    EarlyPassed(older, newer, changes, k);
    LatePassed(older, newer, changes, k);
    OwnReason(older, newer, changes);
    StatusGiven(older, newer, changes);
    hide Says, Assess, StatusFor;
    assert FirstTrue(k, older, newer, changes);
  }

  /** There is only one such verdict, so the conditions on the evidence determine it. */
  lemma VerdictUnique(a: Verdict, b: Verdict, older: Read, newer: Read, changes: seq<Change>)
    requires IsVerdict(a, older, newer, changes) && IsVerdict(b, older, newer, changes)
    ensures a == b
  {
    hide Says, ReasonOrder, StatusFor;
    var k :| FirstTrue(k, older, newer, changes) && ReasonOrder()[k] == a.reason;
    var l :| FirstTrue(l, older, newer, changes) && ReasonOrder()[l] == b.reason;
    assert k == l;
  }

  /** A pair is rejected exactly when some rejecting reason is true of it and none listed before that one is. */
  lemma RejectedExactly(older: Read, newer: Read, changes: seq<Change>)
    ensures Assess(older, newer, changes).status == Rejected <==>
      exists k :: FirstTrue(k, older, newer, changes) && StatusFor(ReasonOrder()[k]) == Rejected
  {
    ReasonTrue(older, newer, changes);
    hide Assess, Says, ReasonOrder, StatusFor;
    var v := Assess(older, newer, changes);
    if k :| FirstTrue(k, older, newer, changes) && StatusFor(ReasonOrder()[k]) == Rejected {
      VerdictUnique(v, Verdict(Rejected, ReasonOrder()[k]), older, newer, changes);
    }
  }

  /** What is missing of a read that could make a verdict `Unknown`. */
  predicate Lacks(r: Read) {
    r.path.None? || r.outputHash.None? || r.fileHash.None? || r.complete.None? || r.encoding.None? || r.membership.None?
  }

  /** An open verdict always has a gap behind it: with complete evidence and no unresolved change, every pair is settled. */
  lemma UnknownHasAGap(older: Read, newer: Read, changes: seq<Change>)
    requires Assess(older, newer, changes).status == Unknown
    ensures Lacks(older) || Lacks(newer) || newer.currentHash.None? || Unresolved(changes)
  {
    hide IsUtf8;
  }

  // ---- The quadratic specification of the detector ----

  predicate SameOutput(older: Read, newer: Read) {
    older.outputHash.Some? && older.outputHash == newer.outputHash && older.outputBytes == newer.outputBytes
  }

  /** Reads `k` and `j` are known to have given the same output. */
  ghost predicate GaveSame(ordered: seq<Read>, k: int, j: int) {
    && 0 <= k < |ordered| && 0 <= j < |ordered|
    && ordered[k].outputHash.Some? && ordered[j].outputHash.Some? && ordered[k].outputHash.value == ordered[j].outputHash.value
    && ordered[k].outputBytes == ordered[j].outputBytes
  }

  /** `i` is the read that read `j` is compared with: the latest earlier read of its path with the same output, or, when
      there is none, the latest earlier read of its path. */
  ghost predicate IsPartner(ordered: seq<Read>, j: nat, i: nat) {
    && i < j < |ordered| && ordered[j].path.Some? && ordered[i].path == ordered[j].path
    && (if exists k :: 0 <= k < j && ordered[k].path == ordered[j].path && GaveSame(ordered, k, j)
        then GaveSame(ordered, i, j)
             && forall k :: i < k < j && ordered[k].path == ordered[j].path ==> !GaveSame(ordered, k, j)
        else forall k :: i < k < j ==> ordered[k].path != ordered[j].path)
  }

  ghost predicate Repeats(ordered: seq<Read>, j: nat) {
    j < |ordered| && ordered[j].path.Some? && exists i :: 0 <= i < j && ordered[i].path == ordered[j].path
  }

  function Between(changes: seq<Change>, lo: nat, hi: nat): seq<Change> {
    if changes == [] then []
    else (if lo < changes[0].position < hi then [changes[0]] else []) + Between(changes[1..], lo, hi)
  }

  /** `some` are the changes strictly between the two positions, all of them, in the order they are given. */
  ghost predicate StrictlyBetween(some: seq<Change>, changes: seq<Change>, lo: nat, hi: nat) {
    exists places :: Picks(some, changes, lo, hi, places)
  }

  ghost predicate Picks(some: seq<Change>, changes: seq<Change>, lo: nat, hi: nat, places: seq<nat>) {
    && |places| == |some| && (forall k :: 0 <= k < |some| ==> places[k] < |changes| && some[k] == changes[places[k]])
    && (forall k, l :: 0 <= k < l < |places| ==> places[k] < places[l])
    && (forall i: nat :: i in places <==> Inside(changes, i, lo, hi))
  }

  predicate Inside(changes: seq<Change>, i: nat, lo: nat, hi: nat) { i < |changes| && lo < changes[i].position < hi }

  lemma {:induction false} BetweenPicks(changes: seq<Change>, lo: nat, hi: nat) returns (places: seq<nat>)
    ensures Picks(Between(changes, lo, hi), changes, lo, hi, places)
  {
    if changes == [] {
      places := [];
    } else {
      var ps := BetweenPicks(changes[1..], lo, hi);
      places := PicksMore(changes, Between(changes[1..], lo, hi), lo, hi, ps);
      hide Picks;
    }
  }

  lemma PicksMore(changes: seq<Change>, some: seq<Change>, lo: nat, hi: nat, ps: seq<nat>) returns (places: seq<nat>)
    requires changes != [] && Picks(some, changes[1..], lo, hi, ps)
    ensures Picks((if lo < changes[0].position < hi then [changes[0]] else []) + some, changes, lo, hi, places)
  {
    var later := Shifted(ps);
    LaterChanges(changes, some, lo, hi, ps);
    forall i: nat ensures i in later <==> i > 0 && Inside(changes, i, lo, hi) { LaterInside(changes, some, lo, hi, ps, i); }
    hide Shifted;
    places := FirstToo(changes, some, lo, hi, later);
  }

  lemma LaterChanges(changes: seq<Change>, some: seq<Change>, lo: nat, hi: nat, ps: seq<nat>)
    requires changes != [] && Picks(some, changes[1..], lo, hi, ps)
    ensures |Shifted(ps)| == |some|
    ensures forall k :: 0 <= k < |some| ==> Shifted(ps)[k] < |changes| && some[k] == changes[Shifted(ps)[k]]
    ensures forall k, l :: 0 <= k < l < |Shifted(ps)| ==> Shifted(ps)[k] < Shifted(ps)[l]
  {
    hide Inside;
    forall k | 0 <= k < |some| ensures Shifted(ps)[k] < |changes| && some[k] == changes[Shifted(ps)[k]] {
      assert Shifted(ps)[k] == ps[k] + 1;
    }
  }

  lemma LaterInside(changes: seq<Change>, some: seq<Change>, lo: nat, hi: nat, ps: seq<nat>, i: nat)
    requires changes != [] && Picks(some, changes[1..], lo, hi, ps)
    ensures i in Shifted(ps) <==> i > 0 && Inside(changes, i, lo, hi)
  {
    ShiftedMember(ps, i);
    hide Shifted;
    if i > 0 { assert i - 1 in ps <==> Inside(changes[1..], i - 1, lo, hi); }
  }

  lemma FirstToo(changes: seq<Change>, some: seq<Change>, lo: nat, hi: nat, later: seq<nat>) returns (places: seq<nat>)
    requires changes != [] && |later| == |some|
    requires forall k :: 0 <= k < |some| ==> later[k] < |changes| && some[k] == changes[later[k]]
    requires forall k, l :: 0 <= k < l < |later| ==> later[k] < later[l]
    requires forall i: nat :: i in later <==> i > 0 && Inside(changes, i, lo, hi)
    ensures Picks((if lo < changes[0].position < hi then [changes[0]] else []) + some, changes, lo, hi, places)
  {
    assert Inside(changes, 0, lo, hi) <==> lo < changes[0].position < hi;
    hide Inside;
    if lo < changes[0].position < hi {
      places := [0] + later;
      forall k | 0 <= k < |later| ensures 0 < later[k] { assert later[k] in later; }
    } else {
      places := later;
      assert [] + some == some;
    }
  }

  lemma ShiftedMember(ps: seq<nat>, i: nat)
    ensures i in Shifted(ps) <==> i > 0 && i - 1 in ps
  {
    if i > 0 && i - 1 in ps {
      var k :| 0 <= k < |ps| && ps[k] == i - 1;
      assert Shifted(ps)[k] == i;
    }
  }

  datatype Assessment = Assessment(older: Read, newer: Read, verdict: Verdict, changes: seq<Change>)

  function Compared(older: Read, newer: Read, changes: seq<Change>): Assessment {
    var between := Between(changes, older.position, newer.position);
    Assessment(older, newer, Assess(older, newer, between), between)
  }

  /** The assessments of the first `n` reads: one for each that repeats a path, with its partner, in order. */
  ghost predicate Detected(ordered: seq<Read>, n: nat, changes: seq<Change>, at: seq<(nat, nat)>, found: seq<Assessment>) {
    && |at| == |found| && n <= |ordered|
    && (forall k :: 0 <= k < |at| ==> at[k].1 < n && IsPartner(ordered, at[k].1, at[k].0))
    && (forall k :: 0 <= k < |at| ==> found[k] == Compared(ordered[at[k].0], ordered[at[k].1], changes))
    && (forall k, l :: 0 <= k < l < |at| ==> at[k].1 < at[l].1)
    && (forall j :: 0 <= j < n && Repeats(ordered, j) ==> exists k :: 0 <= k < |at| && at[k].1 == j)
  }

  /** The whole specification: there are positions `at` of the pairs that make `found` the assessments of all the reads. */
  ghost predicate AllDetected(ordered: seq<Read>, changes: seq<Change>, found: seq<Assessment>) {
    exists at :: Detected(ordered, |ordered|, changes, at, found)
  }

  /** The specification in full, in terms of the evidence alone: the reads in source order, those at one position as they
      were given; one assessment for each read that repeats a path, in order; each of it and its partner, with the changes
      strictly between them, and the verdict of the declared order of reasons. */
  ghost predicate Told(history: seq<Read>, changes: seq<Change>, found: seq<Assessment>) {
    exists ordered, places, at :: InSourceOrder(history, ordered, places) && TellsAll(ordered, changes, found, at)
  }

  ghost predicate InSourceOrder(history: seq<Read>, ordered: seq<Read>, places: seq<nat>) {
    && |places| == |history| == |ordered| && Distinct(places)
    && (forall k :: 0 <= k < |places| ==> places[k] < |history| && ordered[k] == history[places[k]])
    && forall k, l :: 0 <= k < l < |ordered| ==>
         ordered[k].position < ordered[l].position || (ordered[k].position == ordered[l].position && places[k] < places[l])
  }

  ghost predicate TellsAll(ordered: seq<Read>, changes: seq<Change>, found: seq<Assessment>, at: seq<(nat, nat)>) {
    && |at| == |found|
    && (forall k :: 0 <= k < |at| ==> at[k].1 < |ordered| && IsPartner(ordered, at[k].1, at[k].0))
    && (forall k, l :: 0 <= k < l < |at| ==> at[k].1 < at[l].1)
    && (forall j :: 0 <= j < |ordered| && Repeats(ordered, j) ==> exists k :: 0 <= k < |at| && at[k].1 == j)
    && (forall k :: 0 <= k < |at| ==> Tells(found[k], ordered[at[k].0], ordered[at[k].1], changes))
  }

  ghost predicate Tells(a: Assessment, older: Read, newer: Read, changes: seq<Change>) {
    && a.older == older && a.newer == newer && StrictlyBetween(a.changes, changes, older.position, newer.position)
    && IsVerdict(a.verdict, older, newer, a.changes)
  }

  lemma ComparedTells(older: Read, newer: Read, changes: seq<Change>)
    ensures Tells(Compared(older, newer, changes), older, newer, changes)
  {
    var places := BetweenPicks(changes, older.position, newer.position);
    ReasonTrue(older, newer, Between(changes, older.position, newer.position));
    hide Assess, IsVerdict, Between, Picks;
  }

  lemma DetectedTells(history: seq<Read>, changes: seq<Change>, found: seq<Assessment>)
    requires AllDetected(Sort(history, Earlier), changes, found)
    ensures Told(history, changes, found)
  {
    hide Sort, IsPartner, Repeats, Compared, Tells, StablySorted;
    var ordered := Sort(history, Earlier);
    var at: seq<(nat, nat)> :| Detected(ordered, |ordered|, changes, at, found);
    forall k | 0 <= k < |at| ensures at[k].0 < |ordered| && Tells(found[k], ordered[at[k].0], ordered[at[k].1], changes) {
      PartnerEarlier(ordered, at[k].1, at[k].0);
      ComparedTells(ordered[at[k].0], ordered[at[k].1], changes);
    }
    var places := SortIsStable(history, Earlier);
    StableInOrder(history, ordered, places);
    assert TellsAll(ordered, changes, found, at);
  }

  lemma PartnerEarlier(ordered: seq<Read>, j: nat, i: nat)
    requires IsPartner(ordered, j, i)
    ensures i < j < |ordered|
  {
  }

  lemma StableInOrder(history: seq<Read>, ordered: seq<Read>, places: seq<nat>)
    requires StablySorted(history, ordered, places, Earlier)
    ensures InSourceOrder(history, ordered, places)
  {
    forall k, l | 0 <= k < l < |ordered|
      ensures ordered[k].position < ordered[l].position || (ordered[k].position == ordered[l].position && places[k] < places[l])
    {
      assert Earlier(ordered[k], ordered[l]) && (Earlier(ordered[l], ordered[k]) ==> places[k] < places[l]);
    }
  }

  lemma PartnerUnique(ordered: seq<Read>, j: nat, a: nat, b: nat)
    requires IsPartner(ordered, j, a) && IsPartner(ordered, j, b)
    ensures a == b
  {
  }

  // ---- The one pass ----

  function Matching(prior: seq<Read>, newer: Read): seq<Read> {
    if prior == [] then [] else (if SameOutput(prior[0], newer) then [prior[0]] else []) + Matching(prior[1..], newer)
  }

  /** The positions below `n` that read `path`. */
  function Positions(ordered: seq<Read>, n: nat, path: string): seq<nat>
    requires n <= |ordered|
  {
    if n == 0 then []
    else Positions(ordered, n - 1, path) + (if ordered[n - 1].path == Some(path) then [n - 1] else [])
  }

  lemma {:induction false} PositionsExactly(ordered: seq<Read>, n: nat, path: string)
    requires n <= |ordered|
    ensures forall i :: i in Positions(ordered, n, path) <==> 0 <= i < n && ordered[i].path == Some(path)
    ensures forall k, l :: 0 <= k < l < |Positions(ordered, n, path)| ==> Positions(ordered, n, path)[k] < Positions(ordered, n, path)[l]
    ensures forall k :: 0 <= k < |Positions(ordered, n, path)| ==> Positions(ordered, n, path)[k] < n
  {
    if n > 0 { PositionsExactly(ordered, n - 1, path); }
  }

  function At(ordered: seq<Read>, ps: seq<nat>): seq<Read>
    requires forall k :: 0 <= k < |ps| ==> ps[k] < |ordered|
  {
    seq(|ps|, k requires 0 <= k < |ps| => ordered[ps[k]])
  }

  lemma {:induction false} MatchingSplit(a: seq<Read>, b: seq<Read>, newer: Read)
    ensures Matching(a + b, newer) == Matching(a, newer) + Matching(b, newer)
  {
    if a == [] {
      assert a + b == b;
    } else {
      assert (a + b)[0] == a[0] && (a + b)[1..] == a[1..] + b;
      MatchingSplit(a[1..], b, newer);
      var first := if SameOutput(a[0], newer) then [a[0]] else [];
      assert first + (Matching(a[1..], newer) + Matching(b, newer)) == (first + Matching(a[1..], newer)) + Matching(b, newer);
    }
  }

  /** The last match is the latest. */
  lemma {:induction false} LastMatch(prior: seq<Read>, newer: Read) returns (k: nat)
    requires Matching(prior, newer) != []
    ensures k < |prior| && Matching(prior, newer)[|Matching(prior, newer)| - 1] == prior[k] && SameOutput(prior[k], newer)
    ensures forall l :: k < l < |prior| ==> !SameOutput(prior[l], newer)
  {
    var n := |prior|;
    assert prior == prior[..n - 1] + [prior[n - 1]];
    MatchingSplit(prior[..n - 1], [prior[n - 1]], newer);
    assert [prior[n - 1]][1..] == [];
    if SameOutput(prior[n - 1], newer) {
      k := n - 1;
    } else {
      k := LastMatch(prior[..n - 1], newer);
    }
  }

  lemma {:induction false} NoMatch(prior: seq<Read>, newer: Read)
    requires Matching(prior, newer) == []
    ensures forall l :: 0 <= l < |prior| ==> !SameOutput(prior[l], newer)
  {
    if prior != [] { NoMatch(prior[1..], newer); }
  }

  function Chosen(prior: seq<Read>, newer: Read): Read
    requires prior != []
  {
    var matching := Matching(prior, newer);
    if matching != [] then matching[|matching| - 1] else prior[|prior| - 1]
  }

  /** The read the pass picks is the partner of the specification. */
  lemma ChosenIsPartner(ordered: seq<Read>, j: nat, prior: seq<Read>) returns (i: nat)
    requires j < |ordered| && ordered[j].path.Some?
    requires forall k :: 0 <= k < |Positions(ordered, j, ordered[j].path.value)| ==> Positions(ordered, j, ordered[j].path.value)[k] < |ordered|
    requires prior == At(ordered, Positions(ordered, j, ordered[j].path.value)) && prior != []
    ensures IsPartner(ordered, j, i) && ordered[i] == Chosen(prior, ordered[j])
  {
    var path := ordered[j].path.value;
    var ps := Positions(ordered, j, path);
    PositionsExactly(ordered, j, path);
    hide Positions, SameOutput;
    if Matching(prior, ordered[j]) != [] {
      var k := LastMatch(prior, ordered[j]);
      i := ps[k];
      assert i in ps;
      forall m | i < m < j && ordered[m].path == ordered[j].path ensures !SameOutput(ordered[m], ordered[j]) {
        assert m in ps;
        var l :| 0 <= l < |ps| && ps[l] == m;
        assert l > k && prior[l] == ordered[m];
      }
    } else {
      NoMatch(prior, ordered[j]);
      i := ps[|ps| - 1];
      assert i in ps;
      forall m | 0 <= m < j && ordered[m].path == ordered[j].path ensures m <= i && !SameOutput(ordered[m], ordered[j]) {
        assert m in ps;
        var l :| 0 <= l < |ps| && ps[l] == m;
        assert prior[l] == ordered[m];
      }
    }
  }

  predicate Earlier(a: Read, b: Read) { a.position <= b.position }

  ghost predicate ReadsOf(list: seq<Read>, ordered: seq<Read>, n: nat, path: string)
    requires n <= |ordered|
  {
    && (forall k :: 0 <= k < |Positions(ordered, n, path)| ==> Positions(ordered, n, path)[k] < |ordered|)
    && list == At(ordered, Positions(ordered, n, path))
  }

  /** The dictionary holds, for every path, its reads so far in order; an empty list may be missing. */
  ghost predicate Remembers(ordered: seq<Read>, n: nat, prior: map<string, seq<Read>>) {
    n <= |ordered| && forall path :: ReadsOf(if path in prior then prior[path] else [], ordered, n, path)
  }

  lemma ReadsOfGrows(list: seq<Read>, ordered: seq<Read>, n: nat, path: string)
    requires n < |ordered| && ReadsOf(list, ordered, n, path)
    ensures ReadsOf(if ordered[n].path == Some(path) then list + [ordered[n]] else list, ordered, n + 1, path)
  {
    assert Positions(ordered, n + 1, path) == Positions(ordered, n, path) + (if ordered[n].path == Some(path) then [n] else []);
  }

  lemma RememberGrows(ordered: seq<Read>, n: nat, prior: map<string, seq<Read>>)
    requires Remembers(ordered, n, prior) && n < |ordered|
    ensures ordered[n].path.None? ==> Remembers(ordered, n + 1, prior)
    ensures ordered[n].path.Some? ==>
      var path := ordered[n].path.value;
      Remembers(ordered, n + 1, prior[path := (if path in prior then prior[path] else []) + [ordered[n]]])
  {
    hide ReadsOf;
    forall path
      ensures ReadsOf(if ordered[n].path == Some(path) then (if path in prior then prior[path] else []) + [ordered[n]]
                      else if path in prior then prior[path] else [], ordered, n + 1, path)
    {
      ReadsOfGrows(if path in prior then prior[path] else [], ordered, n, path);
    }
  }

  lemma PriorRepeats(ordered: seq<Read>, n: nat, prior: map<string, seq<Read>>)
    requires Remembers(ordered, n, prior) && n < |ordered| && ordered[n].path.Some?
    ensures var path := ordered[n].path.value;
      Repeats(ordered, n) <==> path in prior && prior[path] != []
  {
    var path := ordered[n].path.value;
    PositionsExactly(ordered, n, path);
    assert ReadsOf(if path in prior then prior[path] else [], ordered, n, path);
    var ps := Positions(ordered, n, path);
    if Repeats(ordered, n) {
      var i :| 0 <= i < n && ordered[i].path == ordered[n].path;
      assert i in ps;
    }
    if ps != [] { assert ps[0] in ps; }
  }

  /** `detect_duplicate_reads`: the dictionary-driven pass finds what the quadratic specification says, on the reads in
      source order. */
  method DetectDuplicates(history: seq<Read>, changes: seq<Change>) returns (found: seq<Assessment>)
    ensures AllDetected(Sort(history, Earlier), changes, found) && Told(history, changes, found)
  {
    var ordered := Sort(history, Earlier);
    EarlierSorts(history);
    var prior: map<string, seq<Read>> := map[];
    found := [];
    ghost var at: seq<(nat, nat)> := [];
    NothingSeen(ordered, changes);
    hide Remembers, Detected, ReadsOf, IsPartner, Compared, Told;
    for n := 0 to |ordered|
      invariant Remembers(ordered, n, prior)
      invariant Detected(ordered, n, changes, at, found)
    {
      var newer := ordered[n];
      RememberGrows(ordered, n, prior);
      if newer.path.None? {
        DetectedSkips(ordered, n, changes, at, found);
      } else {
        PriorRepeats(ordered, n, prior);
        var path := newer.path.value;
        var earlier := if path in prior then prior[path] else [];
        if earlier != [] {
          ghost var i := Picked(ordered, n, prior);
          DetectedGrows(ordered, n, changes, at, found, i);
          found := found + [Compared(Chosen(earlier, newer), newer, changes)];
          at := at + [(i, n)];
        } else {
          DetectedSkips(ordered, n, changes, at, found);
        }
        prior := prior[path := earlier + [newer]];
      }
    }
    DetectedTells(history, changes, found);
  }

  lemma NothingSeen(ordered: seq<Read>, changes: seq<Change>)
    ensures Remembers(ordered, 0, map[]) && Detected(ordered, 0, changes, [], [])
  {
  }

  lemma Picked(ordered: seq<Read>, n: nat, prior: map<string, seq<Read>>) returns (i: nat)
    requires Remembers(ordered, n, prior) && n < |ordered| && ordered[n].path.Some?
    requires ordered[n].path.value in prior && prior[ordered[n].path.value] != []
    ensures IsPartner(ordered, n, i) && ordered[i] == Chosen(prior[ordered[n].path.value], ordered[n])
  {
    var path := ordered[n].path.value;
    assert ReadsOf(if path in prior then prior[path] else [], ordered, n, path);
    i := ChosenIsPartner(ordered, n, prior[path]);
  }

  lemma EarlierSorts(rs: seq<Read>)
    ensures |Sort(rs, Earlier)| == |rs| && Sorted(Sort(rs, Earlier), Earlier) && multiset(Sort(rs, Earlier)) == multiset(rs)
  {
    SortIsSortedPermutation(rs, Earlier);
  }

  lemma DetectedSkips(ordered: seq<Read>, n: nat, changes: seq<Change>, at: seq<(nat, nat)>, found: seq<Assessment>)
    requires Detected(ordered, n, changes, at, found) && n < |ordered| && !Repeats(ordered, n)
    ensures Detected(ordered, n + 1, changes, at, found)
  {
    hide IsPartner, Repeats;
  }

  lemma DetectedGrows(ordered: seq<Read>, n: nat, changes: seq<Change>, at: seq<(nat, nat)>, found: seq<Assessment>, i: nat)
    requires Detected(ordered, n, changes, at, found) && n < |ordered| && IsPartner(ordered, n, i)
    ensures Detected(ordered, n + 1, changes, at + [(i, n)], found + [Compared(ordered[i], ordered[n], changes)])
  {
    hide IsPartner, Repeats, Compared;
    var after := at + [(i, n)];
    forall j | 0 <= j < n + 1 && Repeats(ordered, j) ensures exists k :: 0 <= k < |after| && after[k].1 == j {
      if j < n {
        var k :| 0 <= k < |at| && at[k].1 == j;
        assert after[k].1 == j;
      } else {
        assert after[|at|].1 == n;
      }
    }
  }

  // ---- How many ----

  function Pathed(rs: seq<Read>, n: nat): nat
    requires n <= |rs|
  {
    if n == 0 then 0 else Pathed(rs, n - 1) + (if rs[n - 1].path.Some? then 1 else 0)
  }

  function Paths(rs: seq<Read>, n: nat): set<string>
    requires n <= |rs|
  {
    set i | 0 <= i < n && rs[i].path.Some? :: rs[i].path.value
  }

  function Repeaters(rs: seq<Read>, n: nat): set<nat>
    requires n <= |rs|
  {
    set i: nat | i < n && rs[i].path.Some? && rs[i].path.value in Paths(rs, i)
  }

  lemma {:induction false} RepeatersCount(rs: seq<Read>, n: nat)
    requires n <= |rs|
    ensures |Repeaters(rs, n)| + |Paths(rs, n)| == Pathed(rs, n)
  {
    if n == 0 {
      assert Repeaters(rs, 0) == {} && Paths(rs, 0) == {};
    } else {
      RepeatersCount(rs, n - 1);
      if rs[n - 1].path.None? {
        assert Paths(rs, n) == Paths(rs, n - 1) && Repeaters(rs, n) == Repeaters(rs, n - 1);
      } else {
        var path := rs[n - 1].path.value;
        assert Paths(rs, n) == Paths(rs, n - 1) + {path};
        if path in Paths(rs, n - 1) {
          assert Paths(rs, n) == Paths(rs, n - 1);
          assert Repeaters(rs, n) == Repeaters(rs, n - 1) + {n - 1};
        } else {
          assert Repeaters(rs, n) == Repeaters(rs, n - 1);
        }
      }
    }
  }

  /** There is one assessment for each pathed read beyond the first of its path. */
  lemma DetectedCount(ordered: seq<Read>, changes: seq<Change>, at: seq<(nat, nat)>, found: seq<Assessment>)
    requires Detected(ordered, |ordered|, changes, at, found)
    ensures |found| == Pathed(ordered, |ordered|) - |Paths(ordered, |ordered|)|
  {
    var n := |ordered|;
    RepeatersCount(ordered, n);
    var newer := set k | 0 <= k < |at| :: at[k].1;
    SecondsCount(at);
    forall j ensures j in newer <==> j in Repeaters(ordered, n) {
      if j in newer {
        var k :| 0 <= k < |at| && at[k].1 == j;
        assert ordered[at[k].0].path == ordered[j].path;
      }
      if j in Repeaters(ordered, n) {
        var i :| 0 <= i < j && ordered[i].path.Some? && ordered[i].path.value == ordered[j].path.value;
        assert Repeats(ordered, j);
      }
    }
    assert newer == Repeaters(ordered, n);
  }

  lemma {:induction false} SecondsCount(at: seq<(nat, nat)>)
    requires forall k, l :: 0 <= k < l < |at| ==> at[k].1 < at[l].1
    ensures |set k | 0 <= k < |at| :: at[k].1| == |at|
  {
    var n := |at|;
    if n > 0 {
      var init := at[..n - 1];
      SecondsCount(init);
      var all, some := set k | 0 <= k < n :: at[k].1, set k | 0 <= k < n - 1 :: init[k].1;
      forall x ensures x in all <==> x in some + {at[n - 1].1} {
        if x in some { var k :| 0 <= k < n - 1 && init[k].1 == x; assert at[k].1 == x; }
        if x in all { var k :| 0 <= k < n && at[k].1 == x; if k < n - 1 { assert init[k].1 == x; } }
      }
      assert all == some + {at[n - 1].1} && at[n - 1].1 !in some;
    } else {
      assert |at| == 0;
    }
  }

  /** The counts do not depend on the order the reads are given in: as many assessments as pathed reads less their distinct
      paths. */
  method DetectAndCount(history: seq<Read>, changes: seq<Change>) returns (found: seq<Assessment>)
    ensures |found| + |set i | 0 <= i < |history| && history[i].path.Some? :: history[i].path.value| == Pathed(history, |history|)
  {
    found := DetectDuplicates(history, changes);
    ghost var ordered := Sort(history, Earlier);
    ghost var at: seq<(nat, nat)> :| Detected(ordered, |ordered|, changes, at, found);
    EarlierSorts(history);
    DetectedCount(ordered, changes, at, found);
    RepeatersCount(ordered, |ordered|);
    SameCounts(history, ordered);
  }

  lemma {:induction false} PathedSplit(rs: seq<Read>, k: nat)
    requires k < |rs|
    ensures Pathed(rs, |rs|) == Pathed(rs[..k] + rs[k + 1..], |rs| - 1) + (if rs[k].path.Some? then 1 else 0)
    decreases |rs|
  {
    var n := |rs| - 1;
    var rest := rs[..k] + rs[k + 1..];
    var init := rs[..n];
    PathedPrefix(rs, init, n);
    if k < n {
      assert rest == (init[..k] + init[k + 1..]) + [rs[n]];
      PathedPrefix(rest, init[..k] + init[k + 1..], n - 1);
      PathedSplit(init, k);
    } else {
      assert rest == init;
    }
  }

  lemma {:induction false} PathedPrefix(a: seq<Read>, b: seq<Read>, n: nat)
    requires n <= |a| && n <= |b| && a[..n] == b[..n]
    ensures Pathed(a, n) == Pathed(b, n)
  {
    if n > 0 {
      assert a[..n - 1] == a[..n][..n - 1] && b[..n - 1] == b[..n][..n - 1];
      assert a[n - 1] == a[..n][n - 1] && b[n - 1] == b[..n][n - 1];
      PathedPrefix(a, b, n - 1);
    }
  }

  lemma {:induction false} SameCounts(a: seq<Read>, b: seq<Read>)
    requires multiset(a) == multiset(b) && |a| == |b|
    ensures Pathed(a, |a|) == Pathed(b, |b|)
    ensures (set i | 0 <= i < |a| && a[i].path.Some? :: a[i].path.value) == Paths(b, |b|)
    decreases |a|
  {
    PathedPermuted(a, b);
    forall path ensures path in (set i | 0 <= i < |a| && a[i].path.Some? :: a[i].path.value) <==> path in Paths(b, |b|) {
      if path in Paths(b, |b|) {
        var i :| 0 <= i < |b| && b[i].path.Some? && b[i].path.value == path;
        assert b[i] in multiset(b) && b[i] in a;
      }
      if path in (set i | 0 <= i < |a| && a[i].path.Some? :: a[i].path.value) {
        var i :| 0 <= i < |a| && a[i].path.Some? && a[i].path.value == path;
        assert a[i] in multiset(a) && a[i] in b;
      }
    }
  }

  lemma RemovedAt(b: seq<Read>, k: nat)
    requires k < |b|
    ensures multiset(b[..k] + b[k + 1..]) == multiset(b) - multiset{b[k]}
  {
    assert b == b[..k] + ([b[k]] + b[k + 1..]);
  }

  lemma {:induction false} PathedPermuted(a: seq<Read>, b: seq<Read>)
    requires multiset(a) == multiset(b) && |a| == |b|
    ensures Pathed(a, |a|) == Pathed(b, |b|)
    decreases |a|
  {
    if a != [] {
      var n := |a| - 1;
      assert a[n] in multiset(a) && a[n] in multiset(b);
      var k :| 0 <= k < |b| && b[k] == a[n];
      var rest := b[..k] + b[k + 1..];
      RemovedAt(b, k);
      RemovedAt(a, n);
      assert a[..n] + a[n + 1..] == a[..n];
      PathedPermuted(a[..n], rest);
      PathedSplit(b, k);
      PathedPrefix(a, a[..n], n);
    }
  }
}
