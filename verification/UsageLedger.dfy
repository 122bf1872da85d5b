/** The usage ledger a run persists, and the audit that rebuilds its totals in any order. */
module UsageLedger {
  import opened Ordering
  import opened Evidence

  // ---- Facts and provider usage ----

  datatype FactStatus = Observed | DerivedFact | Estimated | UnknownFact | NotApplicable
  datatype Fact<T> = Fact(value: Option<T>, status: FactStatus, reason: Option<string>, refs: seq<Ref>)

  predicate Blank(s: string) { forall i :: 0 <= i < |s| ==> s[i] == ' ' || s[i] == '\t' || s[i] == '\n' || s[i] == '\r' }

  /** `Fact.enforce_status_semantics`. */
  predicate ValidFact<T(==)>(f: Fact<T>) {
    match f.status
    case UnknownFact => f.value.None? && f.reason.Some? && !Blank(f.reason.value)
    case NotApplicable => f.value.None?
    case _ => f.value.Some? && (f.status == Observed || f.status == DerivedFact ==> f.refs != [])
  }

  /** A JSON value as the token accounting sees it: null, a number, or anything else. */
  datatype Amount = Null | Number(value: real) | NotNumber
  type Usage = map<string, Amount>
  type UsageFact = Fact<Usage>

  datatype Category = InputTokens | OutputTokens | TotalTokens

  function Categories(): seq<Category> { [InputTokens, OutputTokens, TotalTokens] }

  lemma EveryCategory(c: Category)
    ensures c in Categories()
  {
    assert Categories()[0] == InputTokens && Categories()[1] == OutputTokens && Categories()[2] == TotalTokens;
  }

  lemma AllCategories()
    ensures forall c: Category :: c in Categories()
  {
    forall c: Category ensures c in Categories() { EveryCategory(c); }
  }

  function Zeros(): (m: map<Category, real>)
    ensures forall c: Category :: c in m && m[c] == 0.0
  {
    AllCategories();
    map c: Category | c in Categories() :: 0.0
  }

  /** `raw.get(key)`. */
  function Get(raw: Usage, key: string): Amount { if key in raw then raw[key] else Null }

  /** `raw.get(key, raw.get(other))`: a present null does not fall back. */
  function GetOr(raw: Usage, key: string, other: string): Amount { if key in raw then raw[key] else Get(raw, other) }

  /** The normalized token value of one category: the provider's own total, or the sum of a reported input and output. */
  function Tokens(raw: Usage, c: Category): Amount {
    var input, output := GetOr(raw, "input_tokens", "prompt_tokens"), GetOr(raw, "output_tokens", "completion_tokens");
    match c
    case InputTokens => input
    case OutputTokens => output
    case TotalTokens =>
      var total := Get(raw, "total_tokens");
      if total.Null? && input.Number? && output.Number? then Number(input.value + output.value) else total
  }

  /** The dictionary a fact observes, if it observes one. */
  function ObservedUsage(f: UsageFact): Option<Usage> { if f.status == Observed then f.value else None }

  /** What an observed fact is worth in a category; nothing when no number was reported. */
  function Worth(f: UsageFact, c: Category): Option<real> {
    if ObservedUsage(f).Some? && Tokens(ObservedUsage(f).value, c).Number? then Some(Tokens(ObservedUsage(f).value, c).value) else None
  }

  function OrZero(x: Option<real>): real { if x.Some? then x.value else 0.0 }

  /** Every category of the fact is a reported number. */
  predicate Reported(f: UsageFact) { forall c: Category :: Worth(f, c).Some? }

  // ---- Totals over a listing of attempts ----

  ghost function Total(ids: seq<Name>, usages: map<Name, UsageFact>, c: Category): real
    requires forall i :: 0 <= i < |ids| ==> ids[i] in usages
  {
    if ids == [] then 0.0 else OrZero(Worth(usages[ids[0]], c)) + Total(ids[1..], usages, c)
  }

  ghost predicate AllReported(ids: set<Name>, usages: map<Name, UsageFact>)
    requires ids <= usages.Keys
  {
    forall id :: id in ids ==> Reported(usages[id])
  }

  /** A listing of a set, in some order. */
  ghost predicate Lists(s: seq<Name>, ids: set<Name>) {
    Distinct(s) && forall x :: x in s <==> x in ids
  }

  lemma {:induction false} TotalSplit(a: seq<Name>, b: seq<Name>, usages: map<Name, UsageFact>, c: Category)
    requires (forall i :: 0 <= i < |a| ==> a[i] in usages) && (forall i :: 0 <= i < |b| ==> b[i] in usages)
    ensures forall i :: 0 <= i < |a + b| ==> (a + b)[i] in usages
    ensures Total(a + b, usages, c) == Total(a, usages, c) + Total(b, usages, c)
  {
    if a == [] {
      assert a + b == b;
    } else {
      assert (a + b)[1..] == a[1..] + b;
      TotalSplit(a[1..], b, usages, c);
    }
  }

  lemma TotalWithout(t: seq<Name>, k: nat, usages: map<Name, UsageFact>, c: Category)
    requires k < |t| && forall i :: 0 <= i < |t| ==> t[i] in usages
    ensures var rest := t[..k] + t[k + 1..];
      (forall i :: 0 <= i < |rest| ==> rest[i] in usages) && Total(t, usages, c) == OrZero(Worth(usages[t[k]], c)) + Total(rest, usages, c)
  {
    assert t == t[..k] + ([t[k]] + t[k + 1..]);
    TotalSplit(t[..k], [t[k]] + t[k + 1..], usages, c);
    TotalSplit([t[k]], t[k + 1..], usages, c);
    TotalSplit(t[..k], t[k + 1..], usages, c);
  }

  lemma ListedKnown(s: seq<Name>, ids: set<Name>, usages: map<Name, UsageFact>)
    requires Lists(s, ids) && ids <= usages.Keys
    ensures forall i :: 0 <= i < |s| ==> s[i] in usages
  {
    forall i | 0 <= i < |s| ensures s[i] in usages { assert s[i] in s; }
  }

  /** The order of the listing does not matter. */
  lemma {:induction false} TotalAnyOrder(s: seq<Name>, t: seq<Name>, ids: set<Name>, usages: map<Name, UsageFact>, c: Category)
    requires Lists(s, ids) && Lists(t, ids) && ids <= usages.Keys
    ensures (forall i :: 0 <= i < |s| ==> s[i] in usages) && (forall i :: 0 <= i < |t| ==> t[i] in usages)
    ensures Total(s, usages, c) == Total(t, usages, c)
    decreases |s|
  {
    ListedKnown(s, ids, usages);
    ListedKnown(t, ids, usages);
    if s == [] {
      assert ids == {} by { assert forall x :: x in ids ==> x in s; }
      SomeMember(t);
    } else {
      assert s[0] in s && s[0] in t;
      var k :| 0 <= k < |t| && t[k] == s[0];
      TotalWithout(t, k, usages, c);
      RestLists(s, t, k, ids);
      hide Lists, Worth, Distinct;
      TotalAnyOrder(s[1..], t[..k] + t[k + 1..], ids - {s[0]}, usages, c);
    }
  }

  lemma SomeMember<T>(t: seq<T>)
    ensures t != [] ==> exists x :: x in t
  {
    if t != [] { assert t[0] in t; }
  }

  lemma RestLists(s: seq<Name>, t: seq<Name>, k: nat, ids: set<Name>)
    requires Lists(s, ids) && Lists(t, ids) && s != [] && k < |t| && t[k] == s[0]
    ensures Lists(s[1..], ids - {s[0]}) && Lists(t[..k] + t[k + 1..], ids - {s[0]})
  {
    var rest := t[..k] + t[k + 1..];
    assert s == [s[0]] + s[1..] && t == t[..k] + [t[k]] + t[k + 1..];
    forall x ensures x in rest <==> x in ids - {s[0]} {
      assert x in t <==> x in t[..k] || x == t[k] || x in t[k + 1..];
    }
    forall x ensures x in s[1..] <==> x in ids - {s[0]} {
      assert x in s <==> x == s[0] || x in s[1..];
    }
  }

  // ---- The ledger the recorder writes ----

  /** One captured attempt: its usage, and the reference to the usage field of its response. */
  datatype Attempt = Attempt(id: Name, usage: UsageFact, usageRef: Option<Ref>)

  /** The quantity is derived from the provider's usage, or unknown. */
  datatype CostEntry = CostEntry(attempt: Name, category: Category, quantity: Option<real>, usageRef: Option<Ref>)

  datatype Aggregate = Aggregate(count: nat, complete: bool, totals: Option<map<Category, real>>)

  /** A quantity is counted only when it is a reported number and the usage can be referred to. */
  function Quantity(a: Attempt, c: Category): Option<real> {
    if a.usageRef.Some? then Worth(a.usage, c) else None
  }

  ghost function Counted(attempts: seq<Attempt>, c: Category): real {
    if attempts == [] then 0.0 else Counted(attempts[..|attempts| - 1], c) + OrZero(Quantity(attempts[|attempts| - 1], c))
  }

  predicate Full(a: Attempt) { forall c: Category :: Quantity(a, c).Some? }

  /** The usage reference is there exactly when usage is observed: what `send` returns. */
  ghost predicate WellReferenced(attempts: seq<Attempt>) {
    forall i :: 0 <= i < |attempts| ==> (attempts[i].usageRef.Some? <==> ObservedUsage(attempts[i].usage).Some?)
  }

  ghost predicate DistinctIds(attempts: seq<Attempt>) {
    forall i, j :: 0 <= i < j < |attempts| ==> attempts[i].id != attempts[j].id
  }

  function Ids(attempts: seq<Attempt>): set<Name> { set i | 0 <= i < |attempts| :: attempts[i].id }

  /** The three entries of one attempt, in category order. */
  function EntriesFor(a: Attempt): seq<CostEntry> {
    seq(3, k requires 0 <= k < 3 => CostEntry(a.id, Categories()[k], Quantity(a, Categories()[k]), a.usageRef))
  }

  ghost function AllEntries(attempts: seq<Attempt>): seq<CostEntry> {
    if attempts == [] then [] else AllEntries(attempts[..|attempts| - 1]) + EntriesFor(attempts[|attempts| - 1])
  }

  /** The ledger of the attempts: three entries each, and totals only when every quantity is known. */
  ghost predicate LedgerWritten(attempts: seq<Attempt>, entries: seq<CostEntry>, aggregate: Aggregate) {
    && entries == AllEntries(attempts) && aggregate.count == |attempts|
    && (aggregate.complete <==> forall i :: 0 <= i < |attempts| ==> Full(attempts[i]))
    && (aggregate.totals.Some? <==> aggregate.complete)
    && (aggregate.complete ==> forall c: Category :: c in aggregate.totals.value && aggregate.totals.value[c] == Counted(attempts, c))
  }

  // ---- Which field feeds which category ----

  /** The provider reported this number under this key. */
  ghost predicate Reports(raw: Usage, key: string, x: real) { key in raw && raw[key] == Number(x) }

  /** So under the newer name of a field, or, when that is missing altogether, under the older one. */
  ghost predicate ReportsEither(raw: Usage, newer: string, older: string, x: real) {
    Reports(raw, newer, x) || (newer !in raw && Reports(raw, older, x))
  }

  /** The tokens of a category; a total that is missing or null is the sum of a reported input and a reported output. */
  ghost predicate Counts(raw: Usage, c: Category, x: real) {
    match c
    case InputTokens => ReportsEither(raw, "input_tokens", "prompt_tokens", x)
    case OutputTokens => ReportsEither(raw, "output_tokens", "completion_tokens", x)
    case TotalTokens =>
      || Reports(raw, "total_tokens", x)
      || (("total_tokens" !in raw || raw["total_tokens"] == Null) &&
          exists i, o :: ReportsEither(raw, "input_tokens", "prompt_tokens", i) && ReportsEither(raw, "output_tokens", "completion_tokens", o) && x == i + o)
  }

  /** The quantity of a category is the number the provider's fields give for it, and nothing else is a number. */
  lemma TokensExactly(raw: Usage, c: Category, x: real)
    ensures Tokens(raw, c) == Number(x) <==> Counts(raw, c, x)
  {
    var input, output := Tokens(raw, InputTokens), Tokens(raw, OutputTokens);
    if c == TotalTokens && input.Number? && output.Number? {
      assert ReportsEither(raw, "input_tokens", "prompt_tokens", input.value) && ReportsEither(raw, "output_tokens", "completion_tokens", output.value);
    }
  }

  /** An entry of this attempt and category: its quantity is the reported number, when the usage is observed and can be
      referred to. */
  ghost predicate EntryTells(a: Attempt, c: Category, e: CostEntry) {
    && e.attempt == a.id && e.category == c && e.usageRef == a.usageRef
    && forall x :: e.quantity == Some(x) <==> a.usageRef.Some? && a.usage.status == Observed && a.usage.value.Some? && Counts(a.usage.value.value, c, x)
  }

  /** Three entries for each attempt, in order. */
  ghost predicate EntriesTell(attempts: seq<Attempt>, entries: seq<CostEntry>) {
    && |entries| == 3 * |attempts|
    && forall i :: 0 <= i < |attempts| ==>
         EntryTells(attempts[i], InputTokens, entries[3 * i]) && EntryTells(attempts[i], OutputTokens, entries[3 * i + 1]) &&
         EntryTells(attempts[i], TotalTokens, entries[3 * i + 2])
  }

  lemma EntryTold(a: Attempt, c: Category)
    ensures EntryTells(a, c, CostEntry(a.id, c, Quantity(a, c), a.usageRef))
  {
    hide Tokens, Counts;
    if ObservedUsage(a.usage).Some? {
      forall x ensures Tokens(a.usage.value.value, c) == Number(x) <==> Counts(a.usage.value.value, c, x) { TokensExactly(a.usage.value.value, c, x); }
    }
  }

  lemma {:induction false} AllTold(attempts: seq<Attempt>)
    ensures EntriesTell(attempts, AllEntries(attempts))
    decreases |attempts|
  {
    hide Quantity, EntryTells;
    if attempts != [] {
      var most, last := attempts[..|attempts| - 1], attempts[|attempts| - 1];
      AllTold(most);
      EntryTold(last, InputTokens);
      EntryTold(last, OutputTokens);
      EntryTold(last, TotalTokens);
      var entries, own := AllEntries(attempts), EntriesFor(last);
      assert own[0] == CostEntry(last.id, InputTokens, Quantity(last, InputTokens), last.usageRef);
      assert own[1] == CostEntry(last.id, OutputTokens, Quantity(last, OutputTokens), last.usageRef);
      assert own[2] == CostEntry(last.id, TotalTokens, Quantity(last, TotalTokens), last.usageRef);
      forall i | 0 <= i < |attempts|
        ensures EntryTells(attempts[i], InputTokens, entries[3 * i]) && EntryTells(attempts[i], OutputTokens, entries[3 * i + 1])
        ensures EntryTells(attempts[i], TotalTokens, entries[3 * i + 2])
      {
        if i < |most| { assert attempts[i] == most[i]; } else { assert entries[3 * i..] == own; }
      }
    }
  }

  /** `usage_entries`. */
  method UsageEntries(attempts: seq<Attempt>) returns (entries: seq<CostEntry>, aggregate: Aggregate)
    ensures LedgerWritten(attempts, entries, aggregate) && EntriesTell(attempts, entries)
  {
    hide EntriesTell;
    entries := [];
    var totals := Zeros();
    var observed := true;
    for i := 0 to |attempts|
      invariant entries == AllEntries(attempts[..i])
      invariant forall c: Category :: c in totals && totals[c] == Counted(attempts[..i], c)
      invariant observed <==> forall k :: 0 <= k < i ==> Full(attempts[k])
    {
      entries, totals, observed := AddEntries(entries, totals, observed, attempts[i]);
      assert attempts[..i + 1][..i] == attempts[..i];
    }
    assert attempts[..|attempts|] == attempts;
    AllTold(attempts);
    aggregate := Aggregate(|attempts|, observed, if observed then Some(totals) else None);
  }

  /** The inner loop, over the three categories of one attempt. */
  method AddEntries(before: seq<CostEntry>, earlier: map<Category, real>, seen: bool, a: Attempt)
    returns (entries: seq<CostEntry>, totals: map<Category, real>, observed: bool)
    requires forall c: Category :: c in earlier
    ensures entries == before + EntriesFor(a)
    ensures forall c: Category :: c in totals && totals[c] == earlier[c] + OrZero(Quantity(a, c))
    ensures observed <==> seen && Full(a)
  {
    entries, totals, observed := before, earlier, seen;
    if ObservedUsage(a.usage).None? {
      assert Quantity(a, InputTokens).None?;
      observed := false;
    }
    var k := 0;
    while k < 3
      invariant 0 <= k <= 3 && entries == before + EntriesFor(a)[..k]
      invariant forall c: Category :: c in totals && totals[c] == earlier[c] + (if c in Categories()[..k] then OrZero(Quantity(a, c)) else 0.0)
      invariant observed <==> seen && ObservedUsage(a.usage).Some? && forall j :: 0 <= j < k ==> Quantity(a, Categories()[j]).Some?
    {
      var c := Categories()[k];
      var quantity := Quantity(a, c);
      if quantity.Some? { totals := totals[c := totals[c] + quantity.value]; }
      entries := entries + [CostEntry(a.id, c, quantity, a.usageRef)];
      if quantity.None? { observed := false; }
      assert EntriesFor(a)[..k + 1] == EntriesFor(a)[..k] + [EntriesFor(a)[k]];
      assert Categories()[..k + 1] == Categories()[..k] + [c] && c !in Categories()[..k];
      k := k + 1;
    }
    assert Categories()[..3] == Categories() && EntriesFor(a)[..3] == EntriesFor(a);
    AllCategories();
    assert Full(a) <==> forall j :: 0 <= j < 3 ==> Quantity(a, Categories()[j]).Some?;
  }

  // ---- The audit ----

  datatype Block = LedgerAttemptMismatch | AggregateMismatch | LedgerMalformed

  /** The totals and the completeness flag rebuilt from the terminal events: every attempt has a valid usage, every usage is
      fully reported, and the persisted totals are the sums in whatever order. */
  ghost predicate Rebuilt(ids: set<Name>, usages: map<Name, UsageFact>, aggregate: Aggregate)
    requires ids <= usages.Keys
  {
    && (aggregate.complete <==> AllReported(ids, usages))
    && (if aggregate.complete
        then aggregate.totals.Some? && forall c: Category, s :: Lists(s, ids) ==>
               c in aggregate.totals.value && aggregate.totals.value[c] == TotalOf(s, ids, usages, c)
        else aggregate.totals.None?)
  }

  ghost function TotalOf(s: seq<Name>, ids: set<Name>, usages: map<Name, UsageFact>, c: Category): real
    requires Lists(s, ids) && ids <= usages.Keys
  {
    ListedKnown(s, ids, usages);
    Total(s, usages, c)
  }

  ghost predicate LedgerClean(ids: set<Name>, usages: map<Name, UsageFact>, entries: seq<CostEntry>, aggregate: Aggregate) {
    && aggregate.count == |ids| && (set i | 0 <= i < |entries| :: entries[i].attempt) == ids
    && ids <= usages.Keys && Rebuilt(ids, usages, aggregate)
  }

  /** `_audit_usage_ledger`, on the usage facts of the terminal events; a missing or invalid one is not in `usages`. */
  method AuditUsageLedger(ids: set<Name>, usages: map<Name, UsageFact>, entries: seq<CostEntry>, aggregate: Aggregate) returns (blocks: seq<Block>)
    ensures blocks == [] <==> LedgerClean(ids, usages, entries, aggregate)
  {
    blocks := [];
    if aggregate.count != |ids| { blocks := blocks + [AggregateMismatch]; }
    if (set i | 0 <= i < |entries| :: entries[i].attempt) != ids { blocks := blocks + [LedgerAttemptMismatch]; }
    var known, totals, complete, listing := RebuildTotals(ids, usages);
    if !known { blocks := blocks + [LedgerMalformed]; }
    if aggregate.complete != complete || aggregate.totals != (if complete then Some(totals) else None) {
      blocks := blocks + [AggregateMismatch];
    }
    if known { RebuiltExactly(ids, usages, aggregate, totals, listing); }
  }

  lemma RebuiltExactly(ids: set<Name>, usages: map<Name, UsageFact>, aggregate: Aggregate, totals: map<Category, real>, listing: seq<Name>)
    requires ids <= usages.Keys && Lists(listing, ids)
    requires forall c: Category :: c in totals && totals[c] == TotalOf(listing, ids, usages, c)
    ensures Rebuilt(ids, usages, aggregate) <==>
      (aggregate.complete <==> AllReported(ids, usages)) && aggregate.totals == (if AllReported(ids, usages) then Some(totals) else None)
  {
    hide Worth, Total;
    forall c: Category, s | Lists(s, ids) ensures totals[c] == TotalOf(s, ids, usages, c) { TotalAnyOrder(s, listing, ids, usages, c); }
    if Rebuilt(ids, usages, aggregate) && aggregate.complete {
      assert forall c: Category :: c in aggregate.totals.value && aggregate.totals.value[c] == totals[c];
      assert aggregate.totals.value == totals;
    }
  }

  /** The loop over the attempt ids, a set: their order is arbitrary. */
  method RebuildTotals(ids: set<Name>, usages: map<Name, UsageFact>)
    returns (known: bool, totals: map<Category, real>, complete: bool, ghost listing: seq<Name>)
    ensures known <==> ids <= usages.Keys
    ensures forall c: Category :: c in totals
    ensures known ==> Lists(listing, ids) && (complete <==> AllReported(ids, usages))
    ensures known ==> forall c: Category :: totals[c] == TotalOf(listing, ids, usages, c)
  {
    totals := Zeros();
    known, complete, listing := true, true, [];
    var rest := ids;
    while rest != {}
      invariant rest <= ids && Lists(listing, ids - rest)
      invariant known <==> ids - rest <= usages.Keys
      invariant known ==> (complete <==> AllReported(ids - rest, usages))
      invariant forall c: Category :: c in totals
      invariant known ==> forall c: Category :: totals[c] == TotalOf(listing, ids - rest, usages, c)
      decreases rest
    {
      var id :| id in rest;
      ghost var before, seen, done := totals, listing, ids - rest;
      rest := rest - {id};
      assert ids - rest == done + {id};
      listing := listing + [id];
      if id !in usages {
        known := false;
      } else {
        totals, complete := AddUsage(totals, complete, usages[id]);
        if known {
          forall c: Category ensures totals[c] == TotalOf(listing, ids - rest, usages, c) {
            ListedKnown(seen, done, usages);
            TotalSplit(seen, [id], usages, c);
            assert before[c] == TotalOf(seen, done, usages, c);
          }
        }
      }
    }
    assert ids - rest == ids;
  }

  /** The body of that loop: an unobserved or partial usage makes the totals incomplete. */
  method AddUsage(totals: map<Category, real>, complete: bool, f: UsageFact) returns (sums: map<Category, real>, stillComplete: bool)
    requires forall c: Category :: c in totals
    ensures forall c: Category :: c in sums && sums[c] == totals[c] + OrZero(Worth(f, c))
    ensures stillComplete <==> complete && Reported(f)
  {
    sums, stillComplete := totals, complete;
    if ObservedUsage(f).None? {
      assert Worth(f, InputTokens).None?;
      return sums, false;
    }
    var k := 0;
    while k < 3
      invariant 0 <= k <= 3
      invariant forall c: Category :: c in sums && sums[c] == totals[c] + (if c in Categories()[..k] then OrZero(Worth(f, c)) else 0.0)
      invariant stillComplete <==> complete && forall j :: 0 <= j < k ==> Worth(f, Categories()[j]).Some?
    {
      var c := Categories()[k];
      var value := Tokens(ObservedUsage(f).value, c);
      if value.Number? { sums := sums[c := sums[c] + value.value]; } else { stillComplete := false; }
      assert Categories()[..k + 1] == Categories()[..k] + [c] && c !in Categories()[..k];
      k := k + 1;
    }
    assert Categories()[..3] == Categories();
    AllCategories();
    assert Reported(f) <==> forall j :: 0 <= j < 3 ==> Worth(f, Categories()[j]).Some?;
  }

  // ---- Recorder and audit agree ----

  ghost predicate SameUsages(attempts: seq<Attempt>, usages: map<Name, UsageFact>) {
    forall i :: 0 <= i < |attempts| ==> attempts[i].id in usages && usages[attempts[i].id] == attempts[i].usage
  }

  function IdsInOrder(attempts: seq<Attempt>): seq<Name> {
    seq(|attempts|, i requires 0 <= i < |attempts| => attempts[i].id)
  }

  lemma {:induction false} CountedIsTotal(attempts: seq<Attempt>, usages: map<Name, UsageFact>, c: Category)
    requires SameUsages(attempts, usages) && WellReferenced(attempts)
    ensures Counted(attempts, c) == Total(IdsInOrder(attempts), usages, c)
  {
    var n := |attempts|;
    if n > 0 {
      var init := attempts[..n - 1];
      CountedIsTotal(init, usages, c);
      assert IdsInOrder(attempts) == IdsInOrder(init) + [attempts[n - 1].id];
      TotalSplit(IdsInOrder(init), [attempts[n - 1].id], usages, c);
    } else {
      assert IdsInOrder(attempts) == [];
    }
  }

  lemma IdsGrow(attempts: seq<Attempt>)
    requires attempts != []
    ensures Ids(attempts) == Ids(attempts[..|attempts| - 1]) + {attempts[|attempts| - 1].id}
  {
    var init := attempts[..|attempts| - 1];
    forall id | id in Ids(init) ensures id in Ids(attempts) {
      var k :| 0 <= k < |init| && init[k].id == id;
      assert attempts[k].id == id;
    }
  }

  lemma {:induction false} EntriesCover(attempts: seq<Attempt>)
    ensures (set i | 0 <= i < |AllEntries(attempts)| :: AllEntries(attempts)[i].attempt) == Ids(attempts)
  {
    var n, all := |attempts|, AllEntries(attempts);
    if n > 0 {
      var init := attempts[..n - 1];
      var before := AllEntries(init);
      EntriesCover(init);
      IdsGrow(attempts);
      var last := EntriesFor(attempts[n - 1]);
      assert all == before + last;
      assert all[|before|] == last[0];
      forall id ensures id in (set i | 0 <= i < |all| :: all[i].attempt) <==> id in Ids(attempts) {
        if id in Ids(init) {
          assert id in (set i | 0 <= i < |before| :: before[i].attempt);
          var i :| 0 <= i < |before| && before[i].attempt == id;
          assert all[i] == before[i];
          var k :| 0 <= k < n - 1 && init[k].id == id;
          assert attempts[k].id == id;
        }
        if id in (set i | 0 <= i < |all| :: all[i].attempt) {
          var i :| 0 <= i < |all| && all[i].attempt == id;
          if i < |before| {
            assert before[i].attempt in (set j | 0 <= j < |before| :: before[j].attempt);
            var k :| 0 <= k < n - 1 && init[k].id == id;
            assert attempts[k].id == id;
          }
        }
        if id == attempts[n - 1].id {
          assert all[|before|].attempt == id;
        }
      }
    }
  }

  lemma {:induction false} IdsCount(attempts: seq<Attempt>)
    requires DistinctIds(attempts)
    ensures |Ids(attempts)| == |attempts|
  {
    var n := |attempts|;
    if n > 0 {
      var init := attempts[..n - 1];
      IdsCount(init);
      assert attempts[n - 1].id !in Ids(init);
      IdsGrow(attempts);
    } else {
      assert Ids(attempts) == {};
    }
  }

  lemma InOrderLists(attempts: seq<Attempt>)
    requires DistinctIds(attempts)
    ensures Lists(IdsInOrder(attempts), Ids(attempts))
  {
    forall x ensures x in IdsInOrder(attempts) <==> x in Ids(attempts) {
      if x in Ids(attempts) {
        var k :| 0 <= k < |attempts| && attempts[k].id == x;
        assert IdsInOrder(attempts)[k] == x;
      }
    }
  }

  /** For attempts with distinct ids and a usage reference exactly where usage is observed, the persisted entries and
      aggregate are what the audit rebuilds from the terminal events, in any order. */
  lemma LedgerRebuilds(attempts: seq<Attempt>, usages: map<Name, UsageFact>, entries: seq<CostEntry>, aggregate: Aggregate)
    requires DistinctIds(attempts) && WellReferenced(attempts) && SameUsages(attempts, usages)
    requires LedgerWritten(attempts, entries, aggregate)
    ensures LedgerClean(Ids(attempts), usages, entries, aggregate)
  {
    var ids := Ids(attempts);
    IdsCount(attempts);
    EntriesCover(attempts);
    assert ids <= usages.Keys;
    forall i | 0 <= i < |attempts| ensures Full(attempts[i]) <==> Reported(usages[attempts[i].id]) {
      FullIsReported(attempts[i]);
    }
    assert aggregate.complete <==> AllReported(ids, usages) by {
      if AllReported(ids, usages) {
        forall i | 0 <= i < |attempts| ensures Full(attempts[i]) { assert attempts[i].id in ids; }
      }
    }
    var listing := IdsInOrder(attempts);
    InOrderLists(attempts);
    forall c: Category, s | aggregate.complete && Lists(s, ids) ensures aggregate.totals.value[c] == TotalOf(s, ids, usages, c) {
      CountedIsTotal(attempts, usages, c);
      TotalAnyOrder(s, listing, ids, usages, c);
    }
  }

  lemma FullIsReported(a: Attempt)
    requires a.usageRef.Some? <==> ObservedUsage(a.usage).Some?
    ensures Full(a) <==> Reported(a.usage)
  {
    if a.usageRef.None? { assert Worth(a.usage, InputTokens).None? && Quantity(a, InputTokens).None?; }
    else { assert forall c: Category :: Quantity(a, c) == Worth(a.usage, c); }
  }

  /** Recording the ledger and then auditing it against the same usages finds nothing. */
  method LedgerRoundTrip(attempts: seq<Attempt>, usages: map<Name, UsageFact>) returns (blocks: seq<Block>)
    requires DistinctIds(attempts) && WellReferenced(attempts) && SameUsages(attempts, usages)
    ensures blocks == []
  {
    var entries, aggregate := UsageEntries(attempts);
    LedgerRebuilds(attempts, usages, entries, aggregate);
    blocks := AuditUsageLedger(Ids(attempts), usages, entries, aggregate);
  }
}
