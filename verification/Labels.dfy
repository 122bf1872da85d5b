/** Information labels and their conservative derivation. */
module Labels {
  import opened Ordering

  datatype Scope = Public | Runtime | Analysis | Evaluator
  datatype Label = Label(scope: Scope, runId: Option<string>, availableSeq: Option<nat>, taints: seq<string>)

  datatype LabelError = NoInputs | SeveralRuns
  datatype Derivation = Derived(info: Label) | Refused(error: LabelError)

  /** How far a scope restricts its readers. */
  function Restriction(s: Scope): nat {
    match s case Public => 0 case Runtime => 1 case Analysis => 2 case Evaluator => 3
  }

  function RunsOf(ls: seq<Label>): set<string> {
    set i | 0 <= i < |ls| && ls[i].runId.Some? :: ls[i].runId.value
  }

  function TaintsOf(ls: seq<Label>): set<string> {
    set i, t | 0 <= i < |ls| && t in ls[i].taints :: t
  }

  /** `max(labels, key=restriction).scope`: the first of the most restrictive. */
  function ScopeOf(ls: seq<Label>): Scope
    requires ls != []
  {
    if |ls| == 1 then ls[0].scope
    else
      var rest := ScopeOf(ls[1..]);
      if Restriction(ls[0].scope) >= Restriction(rest) then ls[0].scope else rest
  }

  /** The latest sequence, unknown as soon as one of them is. */
  function SeqOf(ls: seq<Label>): Option<nat>
    requires ls != []
  {
    if |ls| == 1 || ls[0].availableSeq.None? then ls[0].availableSeq
    else
      var rest := SeqOf(ls[1..]);
      if rest.Some? && rest.value < ls[0].availableSeq.value then ls[0].availableSeq else rest
  }

  /** `propagate_label`. */
  function Propagate(ls: seq<Label>): Derivation {
    if ls == [] then Refused(NoInputs)
    else
      var runs := SortedKeys(RunsOf(ls));
      if |runs| > 1 then Refused(SeveralRuns)
      else Derived(Label(ScopeOf(ls), if runs == [] then None else Some(runs[0]), SeqOf(ls), SortedKeys(TaintsOf(ls))))
  }

  // ---- Two lists that a derivation cannot tell apart ----

  ghost predicate Alike(a: seq<Label>, b: seq<Label>) {
    && RunsOf(a) == RunsOf(b) && TaintsOf(a) == TaintsOf(b) && (a == [] <==> b == [])
    && (a != [] ==> ScopeOf(a) == ScopeOf(b) && SeqOf(a) == SeqOf(b))
  }

  lemma SplitRuns(a: seq<Label>, b: seq<Label>)
    ensures RunsOf(a + b) == RunsOf(a) + RunsOf(b)
  {
    var ab := a + b;
    forall r | r in RunsOf(a) + RunsOf(b) ensures r in RunsOf(ab) {
      if r in RunsOf(a) {
        var i :| 0 <= i < |a| && a[i].runId.Some? && a[i].runId.value == r;
        assert ab[i] == a[i];
      } else {
        var i :| 0 <= i < |b| && b[i].runId.Some? && b[i].runId.value == r;
        assert ab[|a| + i] == b[i];
      }
    }
  }

  lemma SplitTaints(a: seq<Label>, b: seq<Label>)
    ensures TaintsOf(a + b) == TaintsOf(a) + TaintsOf(b)
  {
    var ab := a + b;
    forall t | t in TaintsOf(a) + TaintsOf(b) ensures t in TaintsOf(ab) {
      if t in TaintsOf(a) {
        var i :| 0 <= i < |a| && t in a[i].taints;
        assert ab[i] == a[i];
      } else {
        var i :| 0 <= i < |b| && t in b[i].taints;
        assert ab[|a| + i] == b[i];
      }
    }
  }

  lemma {:induction false} SplitOrders(a: seq<Label>, b: seq<Label>)
    requires a != [] && b != []
    ensures Restriction(ScopeOf(a)) >= Restriction(ScopeOf(b)) ==> ScopeOf(a + b) == ScopeOf(a)
    ensures Restriction(ScopeOf(a)) < Restriction(ScopeOf(b)) ==> ScopeOf(a + b) == ScopeOf(b)
    ensures SeqOf(a + b) ==
      if SeqOf(a).None? || SeqOf(b).None? then None else if SeqOf(b).value < SeqOf(a).value then SeqOf(a) else SeqOf(b)
  {
    assert (a + b)[1..] == a[1..] + b;
    if |a| > 1 { SplitOrders(a[1..], b); }
  }

  lemma AlikeJoined(a: seq<Label>, b: seq<Label>, c: seq<Label>, d: seq<Label>)
    requires Alike(a, c) && Alike(b, d)
    ensures Alike(a + b, c + d)
  {
    SplitRuns(a, b);
    SplitRuns(c, d);
    SplitTaints(a, b);
    SplitTaints(c, d);
    if a == [] {
      assert a + b == b && c + d == d;
    } else if b == [] {
      assert a + b == a && c + d == c;
    } else {
      SplitOrders(a, b);
      SplitOrders(c, d);
    }
  }

  lemma AlikePropagates(a: seq<Label>, b: seq<Label>)
    requires Alike(a, b)
    ensures Propagate(a) == Propagate(b)
  {
  }

  /** A derived label stands for the labels it was derived from. */
  lemma DerivedAlike(ls: seq<Label>)
    requires Propagate(ls).Derived?
    ensures Alike([Propagate(ls).info], ls)
  {
    var l := Propagate(ls).info;
    var runs := SortedKeys(RunsOf(ls));
    assert [l][0] == l;
    assert RunsOf([l]) == RunsOf(ls) by {
      forall r ensures r in RunsOf([l]) <==> r in RunsOf(ls) { assert r in runs <==> r in RunsOf(ls); }
    }
    assert TaintsOf([l]) == TaintsOf(ls) by {
      forall t ensures t in TaintsOf([l]) <==> t in TaintsOf(ls) { assert t in l.taints <==> t in TaintsOf(ls); }
    }
  }

  lemma SeveralExactly(ls: seq<Label>)
    ensures Propagate(ls) == Refused(SeveralRuns) <==> exists r, q :: r in RunsOf(ls) && q in RunsOf(ls) && r != q
  {
    var runs := SortedKeys(RunsOf(ls));
    if |runs| > 1 { assert runs[0] in runs && runs[1] in runs && runs[0] != runs[1]; }
    forall r, q | r in RunsOf(ls) && q in RunsOf(ls) && r != q ensures |runs| > 1 { assert r in runs && q in runs; }
  }

  // ---- Derivations of derivations ----

  /** How an object came to its label: given, or derived from other objects. */
  datatype Tree = Leaf(info: Label) | Node(children: seq<Tree>)

  function LabelOf(t: Tree): Derivation {
    match t
    case Leaf(l) => Derived(l)
    case Node(children) =>
      var inner := LabelsOf(children);
      if inner.Err? then Refused(inner.error) else Propagate(inner.value)
  }

  datatype Inner = Ok(value: seq<Label>) | Err(error: LabelError)

  function LabelsOf(ts: seq<Tree>): Inner {
    if ts == [] then Ok([])
    else
      match LabelOf(ts[0])
      case Refused(e) => Err(e)
      case Derived(l) =>
        var rest := LabelsOf(ts[1..]);
        if rest.Err? then rest else Ok([l] + rest.value)
  }

  function Leaves(t: Tree): seq<Label> {
    match t case Leaf(l) => [l] case Node(children) => AllLeaves(children)
  }

  function AllLeaves(ts: seq<Tree>): seq<Label> {
    if ts == [] then [] else Leaves(ts[0]) + AllLeaves(ts[1..])
  }

  /** Every derivation has at least one input. */
  predicate Grown(t: Tree) {
    match t case Leaf(_) => true case Node(children) => children != [] && AllGrown(children)
  }

  predicate AllGrown(ts: seq<Tree>) {
    ts == [] || (Grown(ts[0]) && AllGrown(ts[1..]))
  }

  /** Whatever the grouping, deriving step by step is deriving once from all the leaves: it is refused for the same lists
      of leaves, and gives the same label. */
  lemma {:induction false} GroupingIndependent(t: Tree)
    requires Grown(t) && t.Node?
    ensures LabelOf(t) == Propagate(Leaves(t))
    decreases t, 0
  {
    LabelsAlike(t.children);
    var inner := LabelsOf(t.children);
    if inner.Err? {
      SeveralExactly(AllLeaves(t.children));
    } else {
      AlikePropagates(inner.value, AllLeaves(t.children));
    }
  }

  lemma {:induction false} LabelsAlike(ts: seq<Tree>)
    requires AllGrown(ts)
    ensures LabelsOf(ts).Ok? ==> Alike(LabelsOf(ts).value, AllLeaves(ts))
    ensures LabelsOf(ts).Err? ==>
      LabelsOf(ts).error == SeveralRuns && exists r, q :: r in RunsOf(AllLeaves(ts)) && q in RunsOf(AllLeaves(ts)) && r != q
    ensures ts != [] ==> AllLeaves(ts) != []
    decreases ts, 1
  {
    if ts == [] {
    } else {
      var first, rest := Leaves(ts[0]), AllLeaves(ts[1..]);
      LabelsAlike(ts[1..]);
      FirstAlike(ts[0]);
      SplitRuns(first, rest);
      assert RunsOf(AllLeaves(ts)) == RunsOf(first) + RunsOf(rest);
      if LabelOf(ts[0]).Refused? {
        SeveralExactly(first);
        var r, q :| r in RunsOf(first) && q in RunsOf(first) && r != q;
        assert r in RunsOf(AllLeaves(ts)) && q in RunsOf(AllLeaves(ts));
      } else if LabelsOf(ts[1..]).Err? {
        var r, q :| r in RunsOf(rest) && q in RunsOf(rest) && r != q;
        assert r in RunsOf(AllLeaves(ts)) && q in RunsOf(AllLeaves(ts));
      } else if LabelsOf(ts[1..]).Ok? {
        AlikeJoined([LabelOf(ts[0]).info], LabelsOf(ts[1..]).value, first, rest);
      }
    }
  }

  lemma {:induction false} FirstAlike(t: Tree)
    requires Grown(t)
    ensures LabelOf(t).Derived? ==> Alike([LabelOf(t).info], Leaves(t))
    ensures LabelOf(t).Refused? ==> LabelOf(t).error == SeveralRuns && Propagate(Leaves(t)) == Refused(SeveralRuns)
    ensures Leaves(t) != []
    decreases t, 1
  {
    if t.Node? {
      GroupingIndependent(t);
      LabelsAlike(t.children);
      if LabelOf(t).Derived? { DerivedAlike(Leaves(t)); }
    }
  }

  lemma {:induction false} Bounds(ls: seq<Label>, i: nat)
    requires i < |ls|
    ensures Restriction(ScopeOf(ls)) >= Restriction(ls[i].scope)
    ensures ls[i].availableSeq.None? ==> SeqOf(ls).None?
    ensures SeqOf(ls).Some? && ls[i].availableSeq.Some? ==> SeqOf(ls).value >= ls[i].availableSeq.value
  {
    if i > 0 { Bounds(ls[1..], i - 1); }
    else if |ls| > 1 { Bounds(ls[1..], 0); }
  }

  /** Along any derivation no taint is lost, the scope never loosens, an unknown sequence stays unknown, and a run is kept;
      and every taint of the result is a taint of some leaf. */
  lemma NothingLost(t: Tree, i: nat)
    requires Grown(t) && t.Node? && LabelOf(t).Derived? && i < |Leaves(t)|
    ensures var leaf, l := Leaves(t)[i], LabelOf(t).info;
      && (forall x :: x in leaf.taints ==> x in l.taints)
      && Restriction(l.scope) >= Restriction(leaf.scope)
      && (leaf.availableSeq.None? ==> l.availableSeq.None?)
      && (leaf.availableSeq.Some? && l.availableSeq.Some? ==> l.availableSeq.value >= leaf.availableSeq.value)
      && (leaf.runId.Some? ==> l.runId == leaf.runId)
    ensures forall x :: x in LabelOf(t).info.taints ==> exists k :: 0 <= k < |Leaves(t)| && x in Leaves(t)[k].taints
  {
    GroupingIndependent(t);
    var leaf, ls := Leaves(t)[i], Leaves(t);
    Bounds(ls, i);
    if leaf.runId.Some? { assert leaf.runId.value in RunsOf(ls) && leaf.runId.value in SortedKeys(RunsOf(ls)); }
  }

  // ---- The label of a derivation, told from its leaves ----

  /** `a` is as open as `b`, or more: public, runtime, analysis, evaluator. */
  ghost predicate AsOpen(a: Scope, b: Scope) { a == b || a == Public || b == Evaluator || (a == Runtime && b == Analysis) }

  /** The label has the strictest scope of the leaves, the run they name, the latest sequence if all of them are known, and
      all their taints in order, each once. */
  ghost predicate Tells(ls: seq<Label>, l: Label) {
    && (exists k :: 0 <= k < |ls| && ls[k].scope == l.scope) && (forall k :: 0 <= k < |ls| ==> AsOpen(ls[k].scope, l.scope))
    && (forall r :: l.runId == Some(r) <==> exists k :: 0 <= k < |ls| && ls[k].runId == Some(r))
    && (l.availableSeq.None? <==> exists k :: 0 <= k < |ls| && ls[k].availableSeq.None?)
    && (l.availableSeq.Some? ==> exists k :: 0 <= k < |ls| && ls[k].availableSeq == l.availableSeq)
    && (l.availableSeq.Some? ==> forall k :: 0 <= k < |ls| ==> ls[k].availableSeq.Some? && ls[k].availableSeq.value <= l.availableSeq.value)
    && (forall x :: x in l.taints <==> exists k :: 0 <= k < |ls| && x in ls[k].taints)
    && (forall i, j :: 0 <= i < j < |l.taints| ==> StrLeq(l.taints[i], l.taints[j]) && l.taints[i] != l.taints[j])
  }

  lemma {:induction false} Reached(ls: seq<Label>)
    requires ls != []
    ensures exists k :: 0 <= k < |ls| && ls[k].scope == ScopeOf(ls)
    ensures exists k :: 0 <= k < |ls| && ls[k].availableSeq == SeqOf(ls)
  {
    if |ls| > 1 {
      Reached(ls[1..]);
      var k :| 0 <= k < |ls[1..]| && ls[1..][k].scope == ScopeOf(ls[1..]);
      var n :| 0 <= n < |ls[1..]| && ls[1..][n].availableSeq == SeqOf(ls[1..]);
      assert ls[k + 1].scope == ScopeOf(ls[1..]) && ls[n + 1].availableSeq == SeqOf(ls[1..]);
    }
    assert ls[0].scope == ScopeOf(ls) || |ls| > 1;
  }

  lemma PropagateTells(ls: seq<Label>)
    requires Propagate(ls).Derived?
    ensures Tells(ls, Propagate(ls).info)
  {
    Reached(ls);
    var l, runs := Propagate(ls).info, SortedKeys(RunsOf(ls));
    forall k | 0 <= k < |ls| ensures AsOpen(ls[k].scope, l.scope) && (ls[k].availableSeq.None? ==> l.availableSeq.None?) {
      Bounds(ls, k);
    }
    forall k | 0 <= k < |ls| && l.availableSeq.Some? ensures ls[k].availableSeq.Some? && ls[k].availableSeq.value <= l.availableSeq.value {
      Bounds(ls, k);
    }
    forall r ensures l.runId == Some(r) <==> exists k :: 0 <= k < |ls| && ls[k].runId == Some(r) {
      assert r in RunsOf(ls) <==> r in runs;
      if k :| 0 <= k < |ls| && ls[k].runId == Some(r) { assert ls[k].runId.value in RunsOf(ls); }
    }
    forall x ensures x in l.taints <==> exists k :: 0 <= k < |ls| && x in ls[k].taints { assert x in l.taints <==> x in TaintsOf(ls); }
  }

  /** A derivation is refused exactly when two of its leaves name different runs, and otherwise its label says of its leaves
      what they say. */
  lemma DerivationTells(t: Tree)
    requires Grown(t) && t.Node?
    ensures LabelOf(t).Refused? <==>
      exists i, j :: 0 <= i < |Leaves(t)| && 0 <= j < |Leaves(t)| && Leaves(t)[i].runId.Some? && Leaves(t)[j].runId.Some? &&
        Leaves(t)[i].runId != Leaves(t)[j].runId
    ensures LabelOf(t).Derived? ==> Tells(Leaves(t), LabelOf(t).info)
  {
    GroupingIndependent(t);
    FirstAlike(t);
    var ls := Leaves(t);
    hide LabelOf, Leaves;
    SeveralExactly(ls);
    if LabelOf(t).Derived? { PropagateTells(ls); }
    hide Propagate, Tells;
    if i, j :| 0 <= i < |ls| && 0 <= j < |ls| && ls[i].runId.Some? && ls[j].runId.Some? && ls[i].runId != ls[j].runId {
      assert ls[i].runId.value in RunsOf(ls) && ls[j].runId.value in RunsOf(ls);
    }
    if r, q :| r in RunsOf(ls) && q in RunsOf(ls) && r != q {
      var i :| 0 <= i < |ls| && ls[i].runId == Some(r);
      var j :| 0 <= j < |ls| && ls[j].runId == Some(q);
      assert ls[i].runId != ls[j].runId;
    }
  }
}
