/** The confidence-weighted score: the judge's raw score refined by the
    probabilities of the alternatives to the token that spelled it. */
module WeightedScore {
  import opened JsRuntime
  import opened JudgeModel
  import opened JsNumber

  /** `Math.log(0.01)` as a floor on log-probabilities is the floor 0.01 on
      linear probabilities, since `Math.exp` is increasing. */
  const MinLinearProbability: real := 0.01

  /** An alternative is counted when it is not below the floor and
      `Number(token)` is not NaN. */
  predicate Survives(a: Alternative) {
    !(a.probability < MinLinearProbability) && IsNumeric(a.token)
  }

  /** The key `parseInt(token, 10)` files a counted alternative under. */
  function KeyOf(a: Alternative): Key {
    ParseInt(a.token)
  }

  /** A key and a probability: one counted alternative, or one property of
      the `tokenLinearProbability` record. */
  datatype Entry = Entry(key: Key, probability: real)

  /** The record as its properties in insertion order (each key once). */
  type Table = seq<Entry>

  // ---------------------------------------------------------------------------
  // The filter

  /** `e` is what the alternative at `i` is counted as. */
  predicate CountedAs(alts: seq<Alternative>, i: int, e: Entry) {
    0 <= i < |alts| && Survives(alts[i]) && e == Entry(KeyOf(alts[i]), alts[i].probability)
  }

  /** The counted alternatives, in order, each as its key and probability. */
  function Survivors(alts: seq<Alternative>): (r: seq<Entry>)
    ensures forall j :: 0 <= j < |r| ==> r[j].probability >= MinLinearProbability
  {
    if alts == [] then []
    else
      var front := Survivors(alts[..|alts| - 1]);
      var a := alts[|alts| - 1];
      if Survives(a) then front + [Entry(KeyOf(a), a.probability)] else front
  }

  /** One more alternative adds its entry exactly when it is counted. */
  lemma SurvivorsSnoc(alts: seq<Alternative>, a: Alternative)
    ensures Survivors(alts + [a]) ==
      if Survives(a) then Survivors(alts) + [Entry(KeyOf(a), a.probability)] else Survivors(alts)
  {
    assert (alts + [a])[..|alts|] == alts;
  }

  /** Every counted entry comes from a counted alternative. */
  lemma {:induction false} SurvivorOrigin(alts: seq<Alternative>, j: int)
    requires 0 <= j < |Survivors(alts)|
    ensures exists i :: CountedAs(alts, i, Survivors(alts)[j])
    decreases |alts|
  {
    var n := |alts|;
    var front, a := alts[..n - 1], alts[n - 1];
    assert alts == front + [a];
    SurvivorsSnoc(front, a);
    if j < |Survivors(front)| {
      SurvivorOrigin(front, j);
      var i :| CountedAs(front, i, Survivors(front)[j]);
      assert CountedAs(alts, i, Survivors(alts)[j]);
    } else {
      assert CountedAs(alts, n - 1, Survivors(alts)[j]);
    }
  }

  /** Every counted alternative leaves its entry: none is dropped. */
  lemma {:induction false} CountedSurvives(alts: seq<Alternative>, i: int)
    requires 0 <= i < |alts| && Survives(alts[i])
    ensures Entry(KeyOf(alts[i]), alts[i].probability) in Survivors(alts)
    decreases |alts|
  {
    var n := |alts|;
    var front, a := alts[..n - 1], alts[n - 1];
    assert alts == front + [a];
    SurvivorsSnoc(front, a);
    if i < n - 1 {
      assert front[i] == alts[i];
      CountedSurvives(front, i);
    }
  }

  lemma {:induction false} NoSurvivorsIffEmpty(alts: seq<Alternative>)
    ensures Survivors(alts) == [] <==> forall i :: 0 <= i < |alts| ==> !Survives(alts[i])
    decreases |alts|
  {
    if alts != [] {
      var n := |alts|;
      var front := alts[..n - 1];
      NoSurvivorsIffEmpty(front);
      assert forall i :: 0 <= i < n - 1 ==> front[i] == alts[i];
    }
  }

  // ---------------------------------------------------------------------------
  // The record and the sums

  /** `table[key] = (table[key] || 0) + p`: an existing property grows, a new
      key is appended. */
  function Accumulate(t: Table, k: Key, p: real): Table
  {
    if t == [] then [Entry(k, p)]
    else
      var n := |t|;
      if t[n - 1].key == k then t[..n - 1] + [Entry(k, t[n - 1].probability + p)]
      else Accumulate(t[..n - 1], k, p) + [t[n - 1]]
  }

  /** The record once every counted entry has been added in order. */
  function Tabulate(s: seq<Entry>): Table
  {
    if s == [] then []
    else Accumulate(Tabulate(s[..|s| - 1]), s[|s| - 1].key, s[|s| - 1].probability)
  }

  /** The sum of the probabilities (`sumLinearProbability`). */
  function Mass(s: seq<Entry>): real
  {
    if s == [] then 0.0 else Mass(s[..|s| - 1]) + s[|s| - 1].probability
  }

  /** The total probability under key `k`. */
  function KeyMass(s: seq<Entry>, k: Key): real
  {
    if s == [] then 0.0
    else KeyMass(s[..|s| - 1], k) + (if s[|s| - 1].key == k then s[|s| - 1].probability else 0.0)
  }

  /** `parseFloat(key) * prob`: a NaN key gives NaN. */
  function Term(k: Key, p: real): Num
  {
    match k
    case IntKey(v) => Finite(v as real * p)
    case NaNKey => NaN
  }

  /** The sum of `key * probability` (`sumOfWeightedScores` for a record). */
  function WeightedSum(s: seq<Entry>): Num
  {
    if s == [] then Finite(0.0)
    else Add(WeightedSum(s[..|s| - 1]), Term(s[|s| - 1].key, s[|s| - 1].probability))
  }

  function Keys(s: seq<Entry>): set<Key> {
    set i | 0 <= i < |s| :: s[i].key
  }

  predicate DistinctKeys(s: seq<Entry>) {
    forall i, j :: 0 <= i < j < |s| ==> s[i].key != s[j].key
  }

  /** The weighted score of one token's alternatives: the weighted sum over
      the record divided by the counted mass. */
  function WeightedScore(alts: seq<Alternative>): Num
  {
    var s := Survivors(alts);
    NoMassNoSum(s);
    Divide(WeightedSum(Tabulate(s)), Mass(s))
  }

  // ---------------------------------------------------------------------------
  // The record sums, it does not overwrite

  lemma KeysSnoc(s: seq<Entry>, e: Entry)
    ensures Keys(s + [e]) == Keys(s) + {e.key}
  {
    var r := s + [e];
    forall x | x in Keys(r) ensures x in Keys(s) + {e.key} {
      var i :| 0 <= i < |r| && r[i].key == x;
      if i < |s| { assert r[i] == s[i]; }
    }
    forall x | x in Keys(s) ensures x in Keys(r) {
      var i :| 0 <= i < |s| && s[i].key == x;
      assert r[i] == s[i];
    }
    assert r[|s|] == e;
  }

  /** The record after one addition has exactly one more key, `k`. */
  lemma {:induction false} AccumulateKeys(t: Table, k: Key, p: real)
    ensures Keys(Accumulate(t, k, p)) == Keys(t) + {k}
    decreases |t|
  {
    var r := Accumulate(t, k, p);
    if t == [] {
      KeysSnoc([], Entry(k, p));
      assert r == [] + [Entry(k, p)];
    } else {
      var n := |t|;
      var front, last := t[..n - 1], t[n - 1];
      assert t == front + [last];
      KeysSnoc(front, last);
      if last.key == k {
        KeysSnoc(front, Entry(k, last.probability + p));
      } else {
        AccumulateKeys(front, k, p);
        KeysSnoc(Accumulate(front, k, p), last);
      }
    }
  }

  /** One addition grows the mass of `k` by `p` and no other key's. */
  lemma {:induction false} AccumulateKeyMass(t: Table, k: Key, p: real, j: Key)
    ensures KeyMass(Accumulate(t, k, p), j) == KeyMass(t, j) + (if j == k then p else 0.0)
    decreases |t|
  {
    var r := Accumulate(t, k, p);
    if t == [] {
      assert r[..0] == [];
    } else {
      var n := |t|;
      var front, last := t[..n - 1], t[n - 1];
      if last.key == k {
        var e := Entry(k, last.probability + p);
        assert r == front + [e] && r[..n - 1] == front;
        assert KeyMass(r, j) == KeyMass(front, j) + (if e.key == j then e.probability else 0.0);
      } else {
        var mid := Accumulate(front, k, p);
        AccumulateKeyMass(front, k, p, j);
        assert r == mid + [last] && r[..|r| - 1] == mid;
        assert KeyMass(r, j) == KeyMass(mid, j) + (if last.key == j then last.probability else 0.0);
      }
    }
  }

  lemma AddSwap(x: Num, y: Num, z: Num)
    ensures Add(Add(x, y), z) == Add(Add(x, z), y)
  {
  }

  lemma AddAssociates(x: Num, y: Num, z: Num)
    ensures Add(Add(x, y), z) == Add(x, Add(y, z))
  {
  }

  /** A key's term over two probabilities is the sum of its terms over each. */
  lemma TermSplits(k: Key, a: real, b: real)
    ensures Term(k, a + b) == Add(Term(k, a), Term(k, b))
  {
    if k.IntKey? {
      Distribute(k.value as real, a, b);
    }
  }

  /** One addition adds its term to the weighted sum. */
  lemma {:induction false} AccumulateSum(t: Table, k: Key, p: real)
    ensures WeightedSum(Accumulate(t, k, p)) == Add(WeightedSum(t), Term(k, p))
    decreases |t|
  {
    var r := Accumulate(t, k, p);
    if t == [] {
      assert r[..0] == [];
    } else {
      var n := |t|;
      var front, last := t[..n - 1], t[n - 1];
      if last.key == k {
        assert r[..n - 1] == front;
        TermSplits(k, last.probability, p);
        AddAssociates(WeightedSum(front), Term(k, last.probability), Term(k, p));
      } else {
        var mid := Accumulate(front, k, p);
        AccumulateSum(front, k, p);
        assert r[..|r| - 1] == mid;
        AddSwap(WeightedSum(front), Term(k, p), Term(last.key, last.probability));
      }
    }
  }

  /** One addition keeps every key once. */
  lemma {:induction false} AccumulateDistinct(t: Table, k: Key, p: real)
    requires DistinctKeys(t)
    ensures DistinctKeys(Accumulate(t, k, p))
    decreases |t|
  {
    var r := Accumulate(t, k, p);
    if t != [] {
      var n := |t|;
      var front, last := t[..n - 1], t[n - 1];
      if last.key == k {
        forall i, j | 0 <= i < j < n ensures r[i].key != r[j].key {
          assert r[i].key == t[i].key && r[j].key == t[j].key;
        }
      } else {
        var mid := Accumulate(front, k, p);
        assert DistinctKeys(front) by {
          forall i, j | 0 <= i < j < n - 1 ensures front[i].key != front[j].key {
            assert front[i] == t[i] && front[j] == t[j];
          }
        }
        AccumulateDistinct(front, k, p);
        AccumulateKeys(front, k, p);
        assert last.key !in Keys(front) by {
          forall i | 0 <= i < n - 1 ensures front[i].key != last.key {
            assert front[i] == t[i];
          }
        }
        assert r == mid + [last];
        forall i, j | 0 <= i < j < |r| ensures r[i].key != r[j].key {
          if j < |mid| {
            assert r[i] == mid[i] && r[j] == mid[j];
          } else {
            assert r[i] == mid[i] && r[j] == last;
            assert mid[i].key in Keys(front) + {k};
          }
        }
      }
    }
  }

  lemma {:induction false} TabulateKeys(s: seq<Entry>)
    ensures Keys(Tabulate(s)) == Keys(s)
    decreases |s|
  {
    if s != [] {
      var front, e := s[..|s| - 1], s[|s| - 1];
      TabulateKeys(front);
      AccumulateKeys(Tabulate(front), e.key, e.probability);
      assert s == front + [e];
      KeysSnoc(front, e);
    }
  }

  lemma {:induction false} TabulateKeyMass(s: seq<Entry>, k: Key)
    ensures KeyMass(Tabulate(s), k) == KeyMass(s, k)
    decreases |s|
  {
    if s != [] {
      var front, e := s[..|s| - 1], s[|s| - 1];
      TabulateKeyMass(front, k);
      AccumulateKeyMass(Tabulate(front), e.key, e.probability, k);
    }
  }

  lemma {:induction false} TabulateSum(s: seq<Entry>)
    ensures WeightedSum(Tabulate(s)) == WeightedSum(s)
    decreases |s|
  {
    if s != [] {
      var front, e := s[..|s| - 1], s[|s| - 1];
      TabulateSum(front);
      AccumulateSum(Tabulate(front), e.key, e.probability);
    }
  }

  lemma {:induction false} TabulateDistinct(s: seq<Entry>)
    ensures DistinctKeys(Tabulate(s))
    decreases |s|
  {
    if s != [] {
      var front, e := s[..|s| - 1], s[|s| - 1];
      TabulateDistinct(front);
      AccumulateDistinct(Tabulate(front), e.key, e.probability);
    }
  }

  /** Grouping the counted entries by key keeps the set of keys, the mass of
      every key and the weighted sum, and leaves each key once. */
  lemma TabulateShape(s: seq<Entry>)
    ensures DistinctKeys(Tabulate(s))
    ensures Keys(Tabulate(s)) == Keys(s)
    ensures forall k :: KeyMass(Tabulate(s), k) == KeyMass(s, k)
    ensures WeightedSum(Tabulate(s)) == WeightedSum(s)
  {
    TabulateDistinct(s);
    TabulateKeys(s);
    TabulateSum(s);
    forall k ensures KeyMass(Tabulate(s), k) == KeyMass(s, k) {
      TabulateKeyMass(s, k);
    }
  }

  lemma {:induction false} AbsentKeyHasNoMass(t: Table, k: Key)
    requires forall i :: 0 <= i < |t| ==> t[i].key != k
    ensures KeyMass(t, k) == 0.0
    decreases |t|
  {
    if t != [] {
      AbsentKeyHasNoMass(t[..|t| - 1], k);
    }
  }

  /** With distinct keys an entry holds all the mass of its key. */
  lemma {:induction false} DistinctEntryMass(t: Table, i: int)
    requires DistinctKeys(t) && 0 <= i < |t|
    ensures KeyMass(t, t[i].key) == t[i].probability
    decreases |t|
  {
    var n := |t|;
    var front := t[..n - 1];
    if i == n - 1 {
      AbsentKeyHasNoMass(front, t[i].key);
    } else {
      assert front[i] == t[i];
      assert DistinctKeys(front) by {
        forall a, b | 0 <= a < b < n - 1 ensures front[a].key != front[b].key {
          assert front[a] == t[a] && front[b] == t[b];
        }
      }
      DistinctEntryMass(front, i);
    }
  }

  /** Survivors mapping to the same integer are summed, not overwritten: the
      record has one property per counted key, holding the total probability
      of the counted alternatives under that key. */
  lemma RecordHoldsKeyMass(alts: seq<Alternative>)
    ensures var s := Survivors(alts);
      var t := Tabulate(s);
      && DistinctKeys(t)
      && Keys(t) == Keys(s)
      && forall i :: 0 <= i < |t| ==> t[i].probability == KeyMass(s, t[i].key)
  {
    var s := Survivors(alts);
    TabulateShape(s);
    var t := Tabulate(s);
    forall i | 0 <= i < |t| ensures t[i].probability == KeyMass(s, t[i].key) {
      DistinctEntryMass(t, i);
    }
  }

  // ---------------------------------------------------------------------------
  // The division

  /** Every counted entry adds at least the floor to the mass. */
  lemma {:induction false} MassBounds(s: seq<Entry>)
    requires forall j :: 0 <= j < |s| ==> s[j].probability >= MinLinearProbability
    ensures Mass(s) >= 0.0
    ensures s != [] ==> Mass(s) >= MinLinearProbability
    decreases |s|
  {
    if s != [] {
      var front := s[..|s| - 1];
      assert forall j :: 0 <= j < |front| ==> front[j] == s[j];
      MassBounds(front);
    }
  }

  /** With zero mass the weighted sum is zero, so `Divide` gives 0/0. */
  lemma NoMassNoSum(s: seq<Entry>)
    requires forall j :: 0 <= j < |s| ==> s[j].probability >= MinLinearProbability
    ensures Mass(s) == 0.0 && WeightedSum(Tabulate(s)).Finite? ==> WeightedSum(Tabulate(s)).value == 0.0
  {
    MassBounds(s);
  }

  /** No counted alternative: the division is 0/0, which is NaN, and nothing is thrown. */
  lemma NoSurvivorsGiveNaN(alts: seq<Alternative>)
    requires forall i :: 0 <= i < |alts| ==> !Survives(alts[i])
    ensures WeightedScore(alts) == NaN
  {
    NoSurvivorsIffEmpty(alts);
  }

  lemma {:induction false} WeightedSumFinite(s: seq<Entry>)
    ensures WeightedSum(s).Finite? <==> forall j :: 0 <= j < |s| ==> s[j].key.IntKey?
    decreases |s|
  {
    if s != [] {
      var front := s[..|s| - 1];
      WeightedSumFinite(front);
      assert forall j :: 0 <= j < |front| ==> front[j] == s[j];
    }
  }

  /** A counted alternative with no integer key (the text `""` or `.5`) makes
      the score NaN. */
  lemma NaNKeyGivesNaN(alts: seq<Alternative>, i: int)
    requires 0 <= i < |alts|
    requires Survives(alts[i]) && KeyOf(alts[i]) == NaNKey
    ensures WeightedScore(alts) == NaN
  {
    var s := Survivors(alts);
    var e := Entry(NaNKey, alts[i].probability);
    CountedSurvives(alts, i);
    TabulateShape(s);
    WeightedSumFinite(s);
  }

  /** With at least one counted alternative, all of them keyed by integers,
      the score is the sum of `key * probability` over the counted
      alternatives divided by their total probability. */
  lemma WeightedScoreIsMean(alts: seq<Alternative>)
    requires exists i :: 0 <= i < |alts| && Survives(alts[i])
    requires forall i :: 0 <= i < |alts| && Survives(alts[i]) ==> KeyOf(alts[i]).IntKey?
    ensures var s := Survivors(alts);
      && WeightedSum(s).Finite? && Mass(s) > 0.0
      && WeightedScore(alts) == Finite(WeightedSum(s).value / Mass(s))
  {
    var s := Survivors(alts);
    SomeSurvivor(alts);
    MassBounds(s);
    AllKeysAreIntegers(alts);
    WeightedSumFinite(s);
    TabulateShape(s);
  }

  /** A counted alternative leaves an entry. */
  lemma SomeSurvivor(alts: seq<Alternative>)
    requires exists i :: 0 <= i < |alts| && Survives(alts[i])
    ensures Survivors(alts) != []
  {
    var i :| 0 <= i < |alts| && Survives(alts[i]);
    CountedSurvives(alts, i);
  }

  /** When every counted alternative has an integer key, so does every entry. */
  lemma AllKeysAreIntegers(alts: seq<Alternative>)
    requires forall i :: 0 <= i < |alts| && Survives(alts[i]) ==> KeyOf(alts[i]).IntKey?
    ensures forall j :: 0 <= j < |Survivors(alts)| ==> Survivors(alts)[j].key.IntKey?
  {
    forall j | 0 <= j < |Survivors(alts)| ensures Survivors(alts)[j].key.IntKey? {
      SurvivorOrigin(alts, j);
    }
  }

  // ---------------------------------------------------------------------------
  // The bounds. Each step is stated on plain reals first, so that the solver
  // never has to unfold a recursive sum and multiply in the same proof.

  lemma Distribute(c: real, x: real, y: real)
    ensures c * (x + y) == c * x + c * y
  {
  }

  /** `n * p` as repeated addition, so that bounds on sums of terms can be
      proved without multiplying; MulIsProduct shows it is the product. */
  function Mul(n: int, p: real): real
    decreases if n < 0 then -n else n
  {
    if n == 0 then 0.0
    else if n > 0 then Mul(n - 1, p) + p
    else Mul(n + 1, p) - p
  }

  lemma {:induction false} MulIsProduct(n: int, p: real)
    ensures Mul(n, p) == n as real * p
    decreases if n < 0 then -n else n
  {
    if n > 0 {
      MulIsProduct(n - 1, p);
    } else if n < 0 {
      MulIsProduct(n + 1, p);
    }
  }

  lemma MulSucc(n: int, p: real)
    ensures Mul(n + 1, p) == Mul(n, p) + p
  {
    if n < 0 {
      assert Mul(n, p) == Mul(n + 1, p) - p;
    } else {
      assert Mul(n + 1, p) == Mul(n, p) + p;
    }
  }

  /** One more integer-keyed entry adds its key times its probability. */
  lemma SumSnoc(s: seq<Entry>)
    requires s != [] && s[|s| - 1].key.IntKey? && WeightedSum(s[..|s| - 1]).Finite?
    ensures WeightedSum(s).Finite?
    ensures WeightedSum(s).value == WeightedSum(s[..|s| - 1]).value + Mul(s[|s| - 1].key.value, s[|s| - 1].probability)
  {
    var e := s[|s| - 1];
    TermIsMul(e.key, e.probability);
  }

  lemma TermIsMul(k: Key, p: real)
    requires k.IntKey?
    ensures Term(k, p) == Finite(Mul(k.value, p))
  {
    MulIsProduct(k.value, p);
  }

  lemma {:induction false} MulMonotone(a: int, b: int, p: real)
    requires a <= b && p >= 0.0
    ensures Mul(a, p) <= Mul(b, p)
    decreases b - a
  {
    if a < b {
      MulMonotone(a, b - 1, p);
      MulSucc(b - 1, p);
    }
  }

  lemma {:induction false} MulDistributes(n: int, x: real, y: real)
    ensures Mul(n, x + y) == Mul(n, x) + Mul(n, y)
    decreases if n < 0 then -n else n
  {
    if n > 0 {
      MulDistributes(n - 1, x, y);
    } else if n < 0 {
      MulDistributes(n + 1, x, y);
    }
  }

  /** The sum of `c * probability` over the entries. */
  function Scaled(s: seq<Entry>, c: int): real
  {
    if s == [] then 0.0 else Scaled(s[..|s| - 1], c) + Mul(c, s[|s| - 1].probability)
  }

  lemma {:induction false} ScaledIsProduct(s: seq<Entry>, c: int)
    ensures Scaled(s, c) == Mul(c, Mass(s))
    decreases |s|
  {
    if s != [] {
      var front := s[..|s| - 1];
      var p := s[|s| - 1].probability;
      ScaledIsProduct(front, c);
      MulDistributes(c, Mass(front), p);
      assert Mass(s) == Mass(front) + p;
    } else {
      MulIsProduct(c, 0.0);
    }
  }

  /** An entry whose key is an integer within the bounds. */
  predicate KeyBetween(e: Entry, lo: int, hi: int) {
    e.key.IntKey? && lo <= e.key.value <= hi && e.probability >= 0.0
  }

  /** Keys within the bounds give a finite weighted sum between the mass
      scaled by either bound. */
  lemma {:induction false} SumWithinBounds(s: seq<Entry>, lo: int, hi: int)
    requires forall j :: 0 <= j < |s| ==> KeyBetween(s[j], lo, hi)
    ensures WeightedSum(s).Finite?
    ensures Scaled(s, lo) <= WeightedSum(s).value <= Scaled(s, hi)
    decreases |s|
  {
    if s != [] {
      var front, e := s[..|s| - 1], s[|s| - 1];
      forall j | 0 <= j < |front| ensures KeyBetween(front[j], lo, hi) {
        assert front[j] == s[j];
      }
      SumWithinBounds(front, lo, hi);
      assert KeyBetween(e, lo, hi);
      SumSnoc(s);
      MulMonotone(lo, e.key.value, e.probability);
      MulMonotone(e.key.value, hi, e.probability);
    }
  }

  lemma RealQuotientBetween(lo: real, hi: real, w: real, m: real)
    requires m > 0.0 && lo * m <= w <= hi * m
    ensures lo <= w / m <= hi
  {
    var q := w / m;
    assert q * m == w;
  }

  /** A sum between `lo` and `hi` times a positive mass gives a quotient between them. */
  lemma QuotientBetween(lo: int, hi: int, w: real, m: real)
    requires m > 0.0 && Mul(lo, m) <= w <= Mul(hi, m)
    ensures lo as real <= w / m <= hi as real
  {
    MulIsProduct(lo, m);
    MulIsProduct(hi, m);
    RealQuotientBetween(lo as real, hi as real, w, m);
  }

  /** Keys within the bounds give a mean within the bounds. */
  lemma MeanBetween(s: seq<Entry>, lo: int, hi: int)
    requires Mass(s) > 0.0
    requires forall j :: 0 <= j < |s| ==> KeyBetween(s[j], lo, hi)
    ensures WeightedSum(s).Finite?
    ensures lo as real <= WeightedSum(s).value / Mass(s) <= hi as real
  {
    SumWithinBounds(s, lo, hi);
    ScaledIsProduct(s, lo);
    ScaledIsProduct(s, hi);
    QuotientBetween(lo, hi, WeightedSum(s).value, Mass(s));
  }

  /** The score lies between the smallest and the largest counted integer. */
  lemma WeightedScoreBounds(alts: seq<Alternative>, lo: int, hi: int)
    requires exists i :: 0 <= i < |alts| && Survives(alts[i])
    requires forall i :: 0 <= i < |alts| && Survives(alts[i]) ==>
      KeyOf(alts[i]).IntKey? && lo <= KeyOf(alts[i]).value <= hi
    ensures WeightedScore(alts).Finite?
    ensures lo as real <= WeightedScore(alts).value <= hi as real
  {
    var s := Survivors(alts);
    forall j | 0 <= j < |s| ensures KeyBetween(s[j], lo, hi) {
      SurvivorOrigin(alts, j);
    }
    WeightedScoreIsMean(alts);
    MeanBetween(s, lo, hi);
  }

  // ---------------------------------------------------------------------------
  // generateWeightedSummedScore

  /** `i` is the first position of a token spelling `text`. */
  predicate FirstMatchAt(tokens: seq<TokenLogprobs>, text: string, i: int) {
    0 <= i < |tokens| && tokens[i].token == text && forall k :: 0 <= k < i ==> tokens[k].token != text
  }

  /** The first emitted token whose text is `text`. */
  function FirstMatch(tokens: seq<TokenLogprobs>, text: string): (r: Option<nat>)
    ensures r.None? <==> forall k :: 0 <= k < |tokens| ==> tokens[k].token != text
    ensures r.Some? ==> FirstMatchAt(tokens, text, r.value)
  {
    if tokens == [] then None
    else if tokens[0].token == text then Some(0)
    else
      var rest := FirstMatch(tokens[1..], text);
      assert forall k :: 1 <= k < |tokens| ==> tokens[k] == tokens[1..][k - 1];
      if rest.None? then None else Some(rest.value + 1)
  }

  /** The one error every failure inside the scorer is replaced by. */
  const WeightingFailure: Thrown := Error("Failed to generate weighted summed score")

  /** generateWeightedSummedScore(rawScore, rawResponse): fails when there is
      no token array or no token spelling `String(rawScore)`; otherwise the
      weighted score of the first such token. */
  function WeightedSummedScore(rawScore: int, logprobs: Option<seq<TokenLogprobs>>): (r: Result<Num>)
    ensures r.Failure? <==>
      logprobs.None? || forall k :: 0 <= k < |logprobs.value| ==> logprobs.value[k].token != IntToDecimal(rawScore)
    ensures r.Failure? ==> r.error == WeightingFailure
    ensures r.Success? ==>
      exists i :: FirstMatchAt(logprobs.value, IntToDecimal(rawScore), i) && r.value == WeightedScore(logprobs.value[i].topLogprobs)
  {
    if logprobs.None? then Failure(WeightingFailure)
    else
      match FirstMatch(logprobs.value, IntToDecimal(rawScore))
      case None => Failure(WeightingFailure)
      case Some(i) => Success(WeightedScore(logprobs.value[i].topLogprobs))
  }

  lemma PrefixStep(alts: seq<Alternative>, i: int)
    requires 0 <= i < |alts|
    ensures Survivors(alts[..i + 1]) ==
      if Survives(alts[i]) then Survivors(alts[..i]) + [Entry(KeyOf(alts[i]), alts[i].probability)]
      else Survivors(alts[..i])
  {
    assert alts[..i + 1][..i] == alts[..i];
  }

  lemma EntryStep(s: seq<Entry>, e: Entry)
    ensures Tabulate(s + [e]) == Accumulate(Tabulate(s), e.key, e.probability)
    ensures Mass(s + [e]) == Mass(s) + e.probability
    ensures WeightedSum(s + [e]) == Add(WeightedSum(s), Term(e.key, e.probability))
  {
    assert (s + [e])[..|s|] == s;
  }

  /** The search for the score's token, with its early exit. */
  method FindScoreToken(tokens: seq<TokenLogprobs>, text: string) returns (r: Option<nat>)
    ensures r == FirstMatch(tokens, text)
  {
    r := None;
    for i := 0 to |tokens|
      invariant r.None?
      invariant forall k :: 0 <= k < i ==> tokens[k].token != text
    {
      if tokens[i].token == text {
        r := Some(i);
        assert FirstMatchAt(tokens, text, i);
        break;
      }
    }
  }

  /** The filtering loop: it fills the record and the counted mass. */
  method TabulateAlternatives(alts: seq<Alternative>) returns (table: Table, sumLinearProbability: real)
    ensures table == Tabulate(Survivors(alts))
    ensures sumLinearProbability == Mass(Survivors(alts))
  {
    table := [];
    sumLinearProbability := 0.0;
    for i := 0 to |alts|
      invariant table == Tabulate(Survivors(alts[..i]))
      invariant sumLinearProbability == Mass(Survivors(alts[..i]))
    {
      var a := alts[i];
      PrefixStep(alts, i);
      if a.probability < MinLinearProbability || !IsNumeric(a.token) {
        continue;
      }
      var tokenScore := ParseInt(a.token);
      EntryStep(Survivors(alts[..i]), Entry(tokenScore, a.probability));
      table := Accumulate(table, tokenScore, a.probability);
      sumLinearProbability := sumLinearProbability + a.probability;
    }
    assert alts[..|alts|] == alts;
  }

  /** The loop over the record's properties. */
  method SumTable(table: Table) returns (sumOfWeightedScores: Num)
    ensures sumOfWeightedScores == WeightedSum(table)
  {
    sumOfWeightedScores := Finite(0.0);
    for i := 0 to |table|
      invariant sumOfWeightedScores == WeightedSum(table[..i])
    {
      assert table[..i + 1] == table[..i] + [table[i]];
      EntryStep(table[..i], table[i]);
      sumOfWeightedScores := Add(sumOfWeightedScores, Term(table[i].key, table[i].probability));
    }
    assert table[..|table|] == table;
  }

  /** generateWeightedSummedScore as the source runs it: the token search,
      the filtering loop and the loop over the record, then the division. */
  method GenerateWeightedSummedScore(rawScore: int, response: RawResponse) returns (r: Result<Num>)
    ensures r == WeightedSummedScore(rawScore, response.logprobs)
  {
    if response.logprobs.None? {
      return Failure(WeightingFailure);
    }
    var tokens := response.logprobs.value;
    var scoreToken := FindScoreToken(tokens, IntToDecimal(rawScore));
    if scoreToken.None? {
      return Failure(WeightingFailure);
    }
    var alts := tokens[scoreToken.value].topLogprobs;
    var table, sumLinearProbability := TabulateAlternatives(alts);
    var sumOfWeightedScores := SumTable(table);
    NoMassNoSum(Survivors(alts));
    return Success(Divide(sumOfWeightedScores, sumLinearProbability));
  }
}
