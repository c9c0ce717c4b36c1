/** The method-weight sliders of `src/components/AdvancedValuation.tsx`: a
    new weight is clamped so that the weights never total more than 100. */
module AdvancedValuation {
  import opened Seqs

  datatype MethodKind = Dcf | Comparables | Precedent

  /** A valuation method with its value (in millions) and its weight in percent. */
  datatype ValuationMethod = ValuationMethod(kind: MethodKind, value: int, weight: int)

  const InitialMethods: seq<ValuationMethod> := [
    ValuationMethod(Dcf, 425, 40),
    ValuationMethod(Comparables, 380, 35),
    ValuationMethod(Precedent, 410, 25)
  ]

  function TotalWeight(ms: seq<ValuationMethod>): int
    decreases |ms|
  {
    if ms == [] then 0 else ms[0].weight + TotalWeight(ms[1..])
  }

  function OtherTest(m: MethodKind): ValuationMethod -> bool {
    (x: ValuationMethod) => x.kind != m
  }

  /** `totalOtherWeights`: the weights of every entry for another method. */
  function OthersWeight(ms: seq<ValuationMethod>, m: MethodKind): int {
    TotalWeight(Filter(ms, OtherTest(m)))
  }

  /** `adjustedWeight`: the requested weight, cut down to what the others leave. */
  function Adjusted(ms: seq<ValuationMethod>, m: MethodKind, w: int): (a: int)
    ensures a <= w && a <= 100 - OthersWeight(ms, m)
    ensures a == w || a == 100 - OthersWeight(ms, m)
  {
    if w <= 100 - OthersWeight(ms, m) then w else 100 - OthersWeight(ms, m)
  }

  /** The `prev.map(...)` that gives the entries for `m` the weight `a`. */
  function Retarget(ms: seq<ValuationMethod>, m: MethodKind, a: int): (r: seq<ValuationMethod>)
    ensures |r| == |ms|
    ensures forall i :: 0 <= i < |ms| ==>
      r[i] == (if ms[i].kind == m then ms[i].(weight := a) else ms[i])
    decreases |ms|
  {
    if ms == [] then []
    else [if ms[0].kind == m then ms[0].(weight := a) else ms[0]] + Retarget(ms[1..], m, a)
  }

  /** `updateWeight(m, w)`. */
  function UpdateWeight(ms: seq<ValuationMethod>, m: MethodKind, w: int): seq<ValuationMethod> {
    Retarget(ms, m, Adjusted(ms, m, w))
  }

  predicate NonNegative(ms: seq<ValuationMethod>) {
    forall i :: 0 <= i < |ms| ==> ms[i].weight >= 0
  }

  predicate DistinctMethods(ms: seq<ValuationMethod>) {
    forall i, j :: 0 <= i < j < |ms| ==> ms[i].kind != ms[j].kind
  }

  predicate Has(ms: seq<ValuationMethod>, m: MethodKind) {
    exists i :: 0 <= i < |ms| && ms[i].kind == m
  }

  /** The budget the sliders keep: non-negative weights of distinct methods, at most 100 in all. */
  predicate Budget(ms: seq<ValuationMethod>) {
    NonNegative(ms) && DistinctMethods(ms) && TotalWeight(ms) <= 100
  }

  lemma InitialBudget()
    ensures Budget(InitialMethods) && TotalWeight(InitialMethods) == 100
  {
    assert InitialMethods[1..][1..][1..] == [];
  }

  /** With non-negative weights, the weight of any selection lies between 0 and the total. */
  lemma {:induction false} FilteredWeightBounds(ms: seq<ValuationMethod>, p: ValuationMethod -> bool)
    requires NonNegative(ms)
    ensures 0 <= TotalWeight(Filter(ms, p)) <= TotalWeight(ms)
    decreases |ms|
  {
    if ms != [] {
      FilteredWeightBounds(ms[1..], p);
      if p(ms[0]) {
        assert Filter(ms, p)[1..] == Filter(ms[1..], p);
      }
    }
  }

  lemma FirstIsOnly(ms: seq<ValuationMethod>, m: MethodKind)
    requires DistinctMethods(ms) && ms != [] && ms[0].kind == m
    ensures !Has(ms[1..], m)
  {
    forall i | 0 <= i < |ms[1..]| ensures ms[1..][i].kind != m {
      assert ms[0].kind != ms[i + 1].kind;
    }
  }

  lemma HasTail(ms: seq<ValuationMethod>, m: MethodKind)
    requires ms != [] && ms[0].kind != m
    ensures Has(ms, m) == Has(ms[1..], m)
  {
    if Has(ms, m) {
      var i :| 0 <= i < |ms| && ms[i].kind == m;
      assert ms[1..][i - 1].kind == m;
    }
    if Has(ms[1..], m) {
      var i :| 0 <= i < |ms[1..]| && ms[1..][i].kind == m;
      assert ms[i + 1].kind == m;
    }
  }

  /** Where `m` is absent, retargeting changes nothing and nothing is filtered out. */
  lemma Absent(ms: seq<ValuationMethod>, m: MethodKind, a: int)
    requires !Has(ms, m)
    ensures Retarget(ms, m, a) == ms
    ensures Filter(ms, OtherTest(m)) == ms
  {
    FilterKeepsAll(ms, OtherTest(m));
  }

  /** With distinct methods, the total after retargeting is the others' weight
      plus `a` when `m` is present. */
  lemma {:induction false} RetargetTotal(ms: seq<ValuationMethod>, m: MethodKind, a: int)
    requires DistinctMethods(ms)
    ensures TotalWeight(Retarget(ms, m, a)) == OthersWeight(ms, m) + (if Has(ms, m) then a else 0)
    decreases |ms|
  {
    if ms != [] {
      var rest := ms[1..];
      assert Retarget(ms, m, a)[1..] == Retarget(rest, m, a);
      if ms[0].kind == m {
        FirstIsOnly(ms, m);
        Absent(rest, m, a);
        assert Has(ms, m);
      } else {
        assert DistinctMethods(rest);
        RetargetTotal(rest, m, a);
        HasTail(ms, m);
        assert Filter(ms, OtherTest(m))[1..] == Filter(rest, OtherTest(m));
      }
    }
  }

  /** A slider move (0 to 100) keeps the budget. */
  lemma UpdateKeepsBudget(ms: seq<ValuationMethod>, m: MethodKind, w: int)
    requires Budget(ms)
    requires 0 <= w <= 100
    ensures Budget(UpdateWeight(ms, m, w))
  {
    var a := Adjusted(ms, m, w);
    FilteredWeightBounds(ms, OtherTest(m));
    RetargetTotal(ms, m, a);
    var r := UpdateWeight(ms, m, w);
    assert DistinctMethods(r) by {
      forall i, j | 0 <= i < j < |r| ensures r[i].kind != r[j].kind {
        assert r[i].kind == ms[i].kind && r[j].kind == ms[j].kind;
      }
    }
  }

  /** Only the weight of `m`'s entries changes, and it becomes `w` whenever
      the others leave room for it. */
  lemma UpdateWeightEffect(ms: seq<ValuationMethod>, m: MethodKind, w: int)
    ensures |UpdateWeight(ms, m, w)| == |ms|
    ensures forall i :: 0 <= i < |ms| && ms[i].kind != m ==> UpdateWeight(ms, m, w)[i] == ms[i]
    ensures forall i :: 0 <= i < |ms| && ms[i].kind == m ==>
      UpdateWeight(ms, m, w)[i] == ms[i].(weight := Adjusted(ms, m, w))
    ensures w <= 100 - OthersWeight(ms, m) ==>
      forall i :: 0 <= i < |ms| && ms[i].kind == m ==> UpdateWeight(ms, m, w)[i].weight == w
  {
  }

  /** Pushing DCF to 100 from the initial weights leaves it at 40, the room
      that Comparables and Precedent (35 + 25) leave. */
  lemma DcfCappedAtStart()
    ensures UpdateWeight(InitialMethods, Dcf, 100)[0].weight == 40
  {
    var ms := InitialMethods;
    assert Filter(ms, OtherTest(Dcf)) == ms[1..] by {
      FilterKeepsAll(ms[1..], OtherTest(Dcf));
    }
    assert ms[1..][1..][1..] == [];
  }
}
