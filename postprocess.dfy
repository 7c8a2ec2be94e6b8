/**
 * The pure post-processing of src/hooks/useCatClassifier.ts: choosing the
 * output tensor, turning logits into probabilities, ranking the top K
 * classes and naming them.
 *
 * Scores are real numbers. `exp` is a parameter standing for Math.exp;
 * float32 rounding, NaN and infinities are not modelled.
 */
module Postprocess {
  import opened Wrappers

  /** Output names that already hold a probability distribution, in preference order. */
  const PROB_ALIASES: seq<string> := ["prob", "probs", "probabilities", "softmax"]

  /** Output names that hold raw logits, in preference order. */
  const LOGIT_ALIASES: seq<string> := ["logits", "output"]

  // ---------------------------------------------------------------------------
  // Output-name negotiation

  /** Position of the first entry of `aliases` that is one of `keys`; `|aliases|` if none is. */
  function FirstPresent(aliases: seq<string>, keys: seq<string>): (j: nat)
    ensures j <= |aliases|
    ensures forall j' :: 0 <= j' < j ==> aliases[j'] !in keys
    ensures j < |aliases| ==> aliases[j] in keys
  {
    if aliases == [] then 0
    else if aliases[0] in keys then 0
    else 1 + FirstPresent(aliases[1..], keys)
  }

  /** `name` is the first of `aliases` that occurs in `keys`. */
  ghost predicate FirstAliasIn(aliases: seq<string>, keys: seq<string>, name: string)
  {
    exists j :: 0 <= j < |aliases| && aliases[j] == name && name in keys &&
      forall j' :: 0 <= j' < j ==> aliases[j'] !in keys
  }

  /** Some alias of the list occurs in `keys`. */
  predicate AnyAliasIn(aliases: seq<string>, keys: seq<string>)
  {
    exists a :: a in aliases && a in keys
  }

  /**
   * The output tensor to read: the first probability alias present, else the
   * first logit alias present, else the first key. With no keys at all the
   * lookup finds nothing.
   */
  function ResolveOutputName(keys: seq<string>): (r: Option<string>)
    ensures r.Some? <==> |keys| > 0
    ensures r.Some? ==> r.value in keys
    ensures AnyAliasIn(PROB_ALIASES, keys) ==> r.Some? && FirstAliasIn(PROB_ALIASES, keys, r.value)
    ensures !AnyAliasIn(PROB_ALIASES, keys) && AnyAliasIn(LOGIT_ALIASES, keys) ==>
      r.Some? && FirstAliasIn(LOGIT_ALIASES, keys, r.value)
    ensures !AnyAliasIn(PROB_ALIASES, keys) && !AnyAliasIn(LOGIT_ALIASES, keys) && |keys| > 0 ==>
      r == Some(keys[0])
  {
    var p := FirstPresent(PROB_ALIASES, keys);
    if p < |PROB_ALIASES| then Some(PROB_ALIASES[p])
    else
      var l := FirstPresent(LOGIT_ALIASES, keys);
      if l < |LOGIT_ALIASES| then Some(LOGIT_ALIASES[l])
      else if |keys| > 0 then Some(keys[0])
      else None
  }

  /** Representative output maps: a logit alias, a probability alias, neither, both kinds, and no outputs. */
  lemma ResolveOutputNameExamples()
    ensures ResolveOutputName(["logits"]) == Some("logits")
    ensures ResolveOutputName(["probabilities", "extra"]) == Some("probabilities")
    ensures ResolveOutputName(["foo"]) == Some("foo")
    ensures ResolveOutputName(["output", "probs"]) == Some("probs")
    ensures ResolveOutputName([]) == None
  {
    assert !AnyAliasIn(PROB_ALIASES, ["foo"]);
    assert !AnyAliasIn(LOGIT_ALIASES, ["foo"]);
  }

  // ---------------------------------------------------------------------------
  // Logits to probabilities

  /** The running maximum of the logit loop; it starts at minus infinity. */
  datatype Extended = NegInfinity | Finite(value: real)

  /** One step of the maximum loop: keep `m` unless `x` is strictly greater. */
  function Larger(m: Extended, x: real): Extended
  {
    match m
    case NegInfinity => Finite(x)
    case Finite(v) => if x > v then Finite(x) else m
  }

  /** The value the maximum loop ends with, scanning left to right. */
  function MaxOf(s: seq<real>): (m: Extended)
    ensures m.NegInfinity? <==> s == []
    ensures m.Finite? ==> m.value in s
    ensures m.Finite? ==> forall i :: 0 <= i < |s| ==> s[i] <= m.value
  {
    if s == [] then NegInfinity else Larger(MaxOf(s[..|s| - 1]), s[|s| - 1])
  }

  /** The maximum loop of the logit path. */
  method MaxLogit(data: seq<real>) returns (max: Extended)
    ensures max == MaxOf(data)
    ensures data == [] <==> max.NegInfinity?
    ensures max.Finite? ==> max.value in data && forall i :: 0 <= i < |data| ==> data[i] <= max.value
  {
    max := NegInfinity;
    var i := 0;
    while i < |data|
      invariant 0 <= i <= |data|
      invariant max == MaxOf(data[..i])
    {
      assert data[..i + 1][..i] == data[..i];
      if max.NegInfinity? || data[i] > max.value {
        max := Finite(data[i]);
      }
      i := i + 1;
    }
    assert data[..i] == data;
  }

  /** Left-to-right sum, as the accumulation loop computes it. */
  function Sum(s: seq<real>): real
  {
    if s == [] then 0.0 else Sum(s[..|s| - 1]) + s[|s| - 1]
  }

  /** The divisor of the normalisation: a zero sum divides by 1 instead. */
  function Divisor(sum: real): (d: real)
    ensures d != 0.0
    ensures sum != 0.0 ==> d == sum
    ensures sum == 0.0 ==> d == 1.0
  {
    if sum == 0.0 then 1.0 else sum
  }

  /** `exp(x - m)` for every logit `x`. */
  function Shifted(data: seq<real>, m: real, exp: real -> real): (e: seq<real>)
    ensures |e| == |data|
  {
    seq(|data|, i requires 0 <= i < |data| => exp(data[i] - m))
  }

  /** Every element divided by `d`. */
  function DivideAll(s: seq<real>, d: real): (r: seq<real>)
    requires d != 0.0
    ensures |r| == |s|
  {
    seq(|s|, i requires 0 <= i < |s| => s[i] / d)
  }

  /** The probabilities of the logit path: shift by the maximum, exponentiate, normalise. */
  function SoftmaxOf(data: seq<real>, exp: real -> real): (p: seq<real>)
    ensures |p| == |data|
  {
    if data == [] then []
    else
      var e := Shifted(data, MaxOf(data).value, exp);
      DivideAll(e, Divisor(Sum(e)))
  }

  /** The logit path of the classifier: the maximum loop, then the exponential and sum loop. */
  method Softmax(data: seq<real>, exp: real -> real) returns (probs: seq<real>)
    ensures probs == SoftmaxOf(data, exp)
  {
    var max := MaxLogit(data);
    ghost var e := Shifted(data, if data == [] then 0.0 else max.value, exp);
    var exps := new real[|data|];
    var sum := 0.0;
    var i := 0;
    while i < |data|
      invariant 0 <= i <= |data|
      invariant forall j :: 0 <= j < i ==> exps[j] == e[j]
      invariant sum == Sum(e[..i])
    {
      var value := exp(data[i] - max.value);
      exps[i] := value;
      assert e[..i + 1][..i] == e[..i];
      sum := sum + value;
      i := i + 1;
    }
    assert exps[..] == e;
    assert e[..i] == e;
    probs := DivideAll(exps[..], Divisor(sum));
  }

  /** Every element of a non-negative sequence is at most its sum. */
  lemma {:induction false} ElementAtMostSum(s: seq<real>, i: nat)
    requires i < |s|
    requires forall j :: 0 <= j < |s| ==> s[j] >= 0.0
    ensures 0.0 <= s[i] <= Sum(s)
  {
    var n := |s| - 1;
    SumNonNegative(s[..n]);
    if i < n {
      ElementAtMostSum(s[..n], i);
    }
  }

  /** The sum of non-negative values is non-negative. */
  lemma {:induction false} SumNonNegative(s: seq<real>)
    requires forall j :: 0 <= j < |s| ==> s[j] >= 0.0
    ensures Sum(s) >= 0.0
  {
    if s != [] {
      SumNonNegative(s[..|s| - 1]);
    }
  }

  /** With a positive exponential every probability lies in (0, 1] and the zero-sum fallback never fires. */
  lemma SoftmaxInUnitInterval(data: seq<real>, exp: real -> real)
    requires forall x :: exp(x) > 0.0
    ensures forall i :: 0 <= i < |data| ==> 0.0 < SoftmaxOf(data, exp)[i] <= 1.0
  {
    if data != [] {
      var e := Shifted(data, MaxOf(data).value, exp);
      var p := SoftmaxOf(data, exp);
      assert p == DivideAll(e, Divisor(Sum(e)));
      forall i | 0 <= i < |data|
        ensures 0.0 < p[i] <= 1.0
      {
        assert e[i] == exp(data[i] - MaxOf(data).value);
        ElementAtMostSum(e, i);
        assert Divisor(Sum(e)) == Sum(e);
        FractionInUnitInterval(e[i], Sum(e));
      }
    }
  }

  lemma FractionInUnitInterval(a: real, b: real)
    requires 0.0 < a <= b
    ensures 0.0 < a / b <= 1.0
  {
  }

  lemma DivisionMonotone(a: real, b: real, d: real)
    requires a <= b && d > 0.0
    ensures a / d <= b / d
  {
    assert b / d - a / d == (b - a) / d;
  }

  /** A monotone exponential keeps the order of the logits, so the best logit gets the best probability. */
  lemma SoftmaxPreservesOrder(data: seq<real>, exp: real -> real, i: nat, j: nat)
    requires forall x :: exp(x) >= 0.0
    requires forall x, y :: x <= y ==> exp(x) <= exp(y)
    requires i < |data| && j < |data| && data[i] <= data[j]
    ensures SoftmaxOf(data, exp)[i] <= SoftmaxOf(data, exp)[j]
  {
    var m := MaxOf(data).value;
    var e := Shifted(data, m, exp);
    SumNonNegative(e);
    var d := Divisor(Sum(e));
    assert SoftmaxOf(data, exp) == DivideAll(e, d);
    assert e[i] == exp(data[i] - m) && e[j] == exp(data[j] - m);
    assert e[i] <= e[j];
    DivisionMonotone(e[i], e[j], d);
  }

  /** If every exponential is zero the sum falls back to 1 and the probabilities are the zeros. */
  lemma ZeroSumFallback(data: seq<real>, exp: real -> real)
    requires forall x :: exp(x) == 0.0
    ensures forall i :: 0 <= i < |data| ==> SoftmaxOf(data, exp)[i] == 0.0
  {
    if data != [] {
      var e := Shifted(data, MaxOf(data).value, exp);
      ZeroSum(e);
    }
  }

  /** The sum of zeros is zero. */
  lemma {:induction false} ZeroSum(s: seq<real>)
    requires forall j :: 0 <= j < |s| ==> s[j] == 0.0
    ensures Sum(s) == 0.0
  {
    if s != [] {
      ZeroSum(s[..|s| - 1]);
    }
  }

  /** The prob-alias path hands the output through unchanged; every other name goes through softmax. */
  function Probabilities(name: string, data: seq<real>, exp: real -> real): (p: seq<real>)
    ensures |p| == |data|
    ensures name in PROB_ALIASES ==> p == data
    ensures name !in PROB_ALIASES ==> p == SoftmaxOf(data, exp)
  {
    if name in PROB_ALIASES then data else SoftmaxOf(data, exp)
  }

  // ---------------------------------------------------------------------------
  // Top-K ranking

  /** A class index with its probability, as the `map((p, i) => ({ i, p }))` step builds it. */
  datatype Scored = Scored(i: nat, p: real)

  /** Every probability paired with its index. */
  function Indexed(probs: seq<real>): (r: seq<Scored>)
    ensures |r| == |probs|
    ensures forall i :: 0 <= i < |r| ==> r[i] == Scored(i, probs[i])
  {
    seq(|probs|, i requires 0 <= i < |probs| => Scored(i, probs[i]))
  }

  /** The order a stable descending sort produces: higher probability first, lower index on a tie. */
  predicate Precedes(a: Scored, b: Scored)
  {
    a.p > b.p || (a.p == b.p && a.i < b.i)
  }

  /** Every entry precedes every later one. */
  predicate Ranked(s: seq<Scored>)
  {
    forall x, y :: 0 <= x < y < |s| ==> Precedes(s[x], s[y])
  }

  /** Indices strictly increase along `s`, as they do in `Indexed`. */
  predicate IndexAscending(s: seq<Scored>)
  {
    forall x, y :: 0 <= x < y < |s| ==> s[x].i < s[y].i
  }

  /** Inserts `e` before the first entry whose probability is not above `e.p`. */
  function InsertByScore(e: Scored, s: seq<Scored>): (r: seq<Scored>)
    ensures |r| == |s| + 1
  {
    if s == [] || e.p >= s[0].p then [e] + s else [s[0]] + InsertByScore(e, s[1..])
  }

  /** A stable sort by descending probability (insertion sort from the back). */
  function SortByScore(s: seq<Scored>): (r: seq<Scored>)
    ensures |r| == |s|
  {
    if s == [] then [] else InsertByScore(s[0], SortByScore(s[1..]))
  }

  /** A head that precedes every entry of a ranked tail keeps the list ranked. */
  lemma PrependRanked(h: Scored, t: seq<Scored>)
    requires Ranked(t)
    requires forall y :: 0 <= y < |t| ==> Precedes(h, t[y])
    ensures Ranked([h] + t)
  {
    var r := [h] + t;
    forall x, y | 0 <= x < y < |r|
      ensures Precedes(r[x], r[y])
    {
      assert r[y] == t[y - 1];
      if x > 0 {
        assert r[x] == t[x - 1];
      }
    }
  }

  lemma TailRanked(s: seq<Scored>)
    requires s != [] && Ranked(s)
    ensures Ranked(s[1..])
  {
    forall x, y | 0 <= x < y < |s[1..]|
      ensures Precedes(s[1..][x], s[1..][y])
    {
      assert s[1..][x] == s[x + 1] && s[1..][y] == s[y + 1];
    }
  }

  lemma {:induction false} InsertByScoreRanked(e: Scored, s: seq<Scored>)
    requires Ranked(s)
    requires forall x :: 0 <= x < |s| ==> e.i < s[x].i
    ensures multiset(InsertByScore(e, s)) == multiset(s) + multiset{e}
    ensures Ranked(InsertByScore(e, s))
  {
    if s == [] || e.p >= s[0].p {
      forall y | 0 <= y < |s|
        ensures Precedes(e, s[y])
      {
        if y > 0 {
          assert Precedes(s[0], s[y]);
        }
      }
      PrependRanked(e, s);
    } else {
      TailRanked(s);
      InsertByScoreRanked(e, s[1..]);
      assert s == [s[0]] + s[1..];
      var rest := InsertByScore(e, s[1..]);
      forall y | 0 <= y < |rest|
        ensures Precedes(s[0], rest[y])
      {
        var z := rest[y];
        assert z in multiset(rest);
        if z != e {
          assert z in multiset(s[1..]);
          var k :| 0 <= k < |s[1..]| && s[1..][k] == z;
          assert s[k + 1] == z;
        }
      }
      PrependRanked(s[0], rest);
    }
  }

  lemma {:induction false} SortByScoreRanked(s: seq<Scored>)
    requires IndexAscending(s)
    ensures multiset(SortByScore(s)) == multiset(s)
    ensures Ranked(SortByScore(s))
  {
    if s != [] {
      var tail := s[1..];
      IndexAscendingTail(s);
      SortByScoreRanked(tail);
      var sorted := SortByScore(tail);
      HeadIndexSmallest(s, sorted);
      InsertByScoreRanked(s[0], sorted);
      assert SortByScore(s) == InsertByScore(s[0], sorted);
      assert s == [s[0]] + tail;
      assert multiset(s) == multiset(tail) + multiset{s[0]};
    }
  }

  lemma IndexAscendingTail(s: seq<Scored>)
    requires s != [] && IndexAscending(s)
    ensures IndexAscending(s[1..])
  {
    forall x, y | 0 <= x < y < |s[1..]|
      ensures s[1..][x].i < s[1..][y].i
    {
      assert s[1..][x] == s[x + 1] && s[1..][y] == s[y + 1];
    }
  }

  /** The head of an index-ascending list has a smaller index than any permutation of its tail. */
  lemma HeadIndexSmallest(s: seq<Scored>, sorted: seq<Scored>)
    requires s != [] && IndexAscending(s)
    requires multiset(sorted) == multiset(s[1..])
    ensures forall x :: 0 <= x < |sorted| ==> s[0].i < sorted[x].i
  {
    forall x | 0 <= x < |sorted|
      ensures s[0].i < sorted[x].i
    {
      assert sorted[x] in multiset(s[1..]);
      var y :| 0 <= y < |s[1..]| && s[1..][y] == sorted[x];
      assert s[y + 1] == sorted[x];
    }
  }

  function Min(a: nat, b: nat): nat
  {
    if a <= b then a else b
  }

  /**
   * The `k` best classes: pair every probability with its index, sort stably
   * by descending probability and keep the first `min(k, |probs|)` entries.
   */
  function TopK(probs: seq<real>, k: nat): (r: seq<Scored>)
    ensures |r| == Min(k, |probs|)
    ensures forall j :: 0 <= j < |r| ==> r[j].i < |probs| && r[j].p == probs[r[j].i]
    ensures forall x, y :: 0 <= x < y < |r| ==> r[x].i != r[y].i
    ensures forall x, y :: 0 <= x < y < |r| ==> r[x].p >= r[y].p
    ensures forall x, y :: 0 <= x < y < |r| && r[x].p == r[y].p ==> r[x].i < r[y].i
    ensures |r| > 0 ==> forall i :: 0 <= i < |probs| && (forall j :: 0 <= j < |r| ==> r[j].i != i) ==>
      Precedes(r[|r| - 1], Scored(i, probs[i]))
  {
    var all := Indexed(probs);
    var sorted := SortByScore(all);
    SortByScoreRanked(all);
    var r := sorted[..Min(k, |probs|)];
    TopKFacts(probs, sorted, r);
    r
  }

  /** What ranking the whole indexed list and keeping a prefix of it gives. */
  lemma TopKFacts(probs: seq<real>, sorted: seq<Scored>, r: seq<Scored>)
    requires multiset(sorted) == multiset(Indexed(probs)) && Ranked(sorted)
    requires |sorted| == |probs| && |r| <= |sorted| && r == sorted[..|r|]
    ensures forall j :: 0 <= j < |r| ==> r[j].i < |probs| && r[j].p == probs[r[j].i]
    ensures forall x, y :: 0 <= x < y < |r| ==> r[x].i != r[y].i
    ensures forall x, y :: 0 <= x < y < |r| ==> r[x].p >= r[y].p
    ensures forall x, y :: 0 <= x < y < |r| && r[x].p == r[y].p ==> r[x].i < r[y].i
    ensures |r| > 0 ==> forall i :: 0 <= i < |probs| && (forall j :: 0 <= j < |r| ==> r[j].i != i) ==>
      Precedes(r[|r| - 1], Scored(i, probs[i]))
  {
    var all := Indexed(probs);
    forall j | 0 <= j < |sorted|
      ensures sorted[j].i < |probs| && sorted[j].p == probs[sorted[j].i]
    {
      assert sorted[j] in multiset(all);
    }
    forall x, y | 0 <= x < y < |r|
      ensures Precedes(r[x], r[y])
    {
      assert r[x] == sorted[x] && r[y] == sorted[y];
    }
    if |r| > 0 {
      forall i | 0 <= i < |probs| && (forall j :: 0 <= j < |r| ==> r[j].i != i)
        ensures Precedes(r[|r| - 1], Scored(i, probs[i]))
      {
        assert all[i] in multiset(sorted);
        var q :| 0 <= q < |sorted| && sorted[q] == all[i];
        assert Precedes(sorted[|r| - 1], sorted[q]);
      }
    }
  }

  /** A top-3 ranking with a tie at 0.05 at the cut-off: the lower index is kept. */
  lemma TopKExample()
    ensures TopK([0.7, 0.2, 0.05, 0.05], 3) == [Scored(0, 0.7), Scored(1, 0.2), Scored(2, 0.05)]
  {
  }

  // ---------------------------------------------------------------------------
  // Labels

  /** One ranked result as the hook publishes it (`label` is a Dafny keyword, so the field is `name`). */
  datatype Prediction = Prediction(name: string, p: real)

  function DigitChar(d: nat): char
    requires d < 10
  {
    "0123456789"[d]
  }

  /** Decimal rendering of a class index, as a JavaScript template literal prints it. */
  function DecimalString(n: nat): (s: string)
    ensures |s| > 0
    ensures forall j :: 0 <= j < |s| ==> '0' <= s[j] <= '9'
    ensures n > 0 ==> s[0] != '0'
    ensures |s| > 1 ==> s[0] != '0'
  {
    if n < 10 then [DigitChar(n)] else DecimalString(n / 10) + [DigitChar(n % 10)]
  }

  /** Reads a string of decimal digits back as a number. */
  function DecimalValue(s: string): nat
    requires forall j :: 0 <= j < |s| ==> '0' <= s[j] <= '9'
  {
    if s == [] then 0 else 10 * DecimalValue(s[..|s| - 1]) + (s[|s| - 1] - '0') as nat
  }

  lemma {:induction false} DecimalRoundTrip(n: nat)
    ensures DecimalValue(DecimalString(n)) == n
  {
    if n >= 10 {
      DecimalRoundTrip(n / 10);
      var s := DecimalString(n);
      assert s[..|s| - 1] == DecimalString(n / 10);
    }
  }

  /** The label of class `i`: the loaded label when there is one, else `cls_<i>`. It is total. */
  function LabelFor(labels: seq<string>, i: nat): (l: string)
    ensures i < |labels| ==> l == labels[i]
    ensures |labels| <= i ==>
      && |l| > 4 && l[..4] == "cls_"
      && (forall j :: 0 <= j < |l[4..]| ==> '0' <= l[4..][j] <= '9')
      && DecimalValue(l[4..]) == i
      && (|l| > 5 ==> l[4] != '0')
  {
    if i < |labels| then labels[i]
    else
      DecimalRoundTrip(i);
      assert ("cls_" + DecimalString(i))[4..] == DecimalString(i);
      "cls_" + DecimalString(i)
  }

  /** Classes beyond the label list get distinct placeholder names, all starting with `cls_`. */
  lemma FallbackLabelsDistinct(labels: seq<string>, i: nat, j: nat)
    requires |labels| <= i && |labels| <= j && i != j
    ensures LabelFor(labels, i) != LabelFor(labels, j)
    ensures LabelFor(labels, i)[..4] == "cls_"
  {
    DecimalRoundTrip(i);
    DecimalRoundTrip(j);
  }

  /** Names every ranked class. */
  function Label(top: seq<Scored>, labels: seq<string>): (r: seq<Prediction>)
    ensures |r| == |top|
    ensures forall j :: 0 <= j < |r| ==> r[j] == Prediction(LabelFor(labels, top[j].i), top[j].p)
  {
    seq(|top|, j requires 0 <= j < |top| => Prediction(LabelFor(labels, top[j].i), top[j].p))
  }

  // ---------------------------------------------------------------------------
  // The whole post-processing step

  /** One named output tensor of the session. */
  datatype OutputTensor = OutputTensor(name: string, data: seq<real>)

  /** The names of the output map, in its own order. */
  function Keys(outputs: seq<OutputTensor>): (ks: seq<string>)
    ensures |ks| == |outputs|
    ensures forall j :: 0 <= j < |ks| ==> ks[j] == outputs[j].name
  {
    seq(|outputs|, j requires 0 <= j < |outputs| => outputs[j].name)
  }

  /** Output `j` is the first one named `name`. */
  predicate FirstNamed(outputs: seq<OutputTensor>, name: string, j: nat)
  {
    j < |outputs| && outputs[j].name == name && forall j' :: 0 <= j' < j ==> outputs[j'].name != name
  }

  /** The tensor stored under `name`, if any: the data of the first output with that name. */
  function Lookup(outputs: seq<OutputTensor>, name: string): (r: Option<seq<real>>)
    ensures r.Some? <==> name in Keys(outputs)
    ensures r.Some? ==> exists j: nat :: FirstNamed(outputs, name, j) && r.value == outputs[j].data
  {
    if outputs == [] then None
    else if outputs[0].name == name then
      assert FirstNamed(outputs, name, 0);
      Some(outputs[0].data)
    else
      assert Keys(outputs) == [outputs[0].name] + Keys(outputs[1..]);
      var r := Lookup(outputs[1..], name);
      if r.None? then r
      else
        ghost var j: nat :| FirstNamed(outputs[1..], name, j) && r.value == outputs[1..][j].data;
        FirstNamedShift(outputs, name, j);
        r
  }

  lemma FirstNamedShift(outputs: seq<OutputTensor>, name: string, j: nat)
    requires outputs != [] && outputs[0].name != name && FirstNamed(outputs[1..], name, j)
    ensures FirstNamed(outputs, name, j + 1) && outputs[j + 1] == outputs[1..][j]
  {
    forall j' | 0 <= j' < j + 1
      ensures outputs[j'].name != name
    {
      if j' > 0 {
        assert outputs[j'] == outputs[1..][j' - 1];
      }
    }
  }

  /** Why the post-processing step produced no result. */
  datatype PostprocessError = EmptyOutput

  /** Output map to the top three labelled predictions. */
  function RankOutputs(outputs: seq<OutputTensor>, labels: seq<string>, exp: real -> real): (r: Result<seq<Prediction>, PostprocessError>)
    ensures r.Failure? <==> outputs == []
    ensures r.Success? ==>
      var name := ResolveOutputName(Keys(outputs)).value;
      var probs := Probabilities(name, Lookup(outputs, name).value, exp);
      && |r.value| == Min(3, |Lookup(outputs, name).value|)
      && r.value == Label(TopK(probs, 3), labels)
  {
    var name := ResolveOutputName(Keys(outputs));
    if name.None? then Failure(EmptyOutput)
    else
      var data := Lookup(outputs, name.value);
      var probs := Probabilities(name.value, data.value, exp);
      Success(Label(TopK(probs, 3), labels))
  }
}
