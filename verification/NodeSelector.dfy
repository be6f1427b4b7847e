/** internal/controller/run.go: the parser of the default node selector. */
module NodeSelector {
  import opened Text
  import StatusUpdater

  type Selector = map<string, string>

  /** `Unset` is the nil map that an empty value stands for. */
  datatype Parsed = Unset | Selected(selector: Selector) | Invalid(pair: string)

  /** A trimmed pair has no key: no '=' at all, or nothing before the first one. */
  predicate Malformed(pair: string) {
    var kv := Cut(TrimSpace(pair), '=');
    |kv| != 2 || kv[0] == ""
  }

  function KeyOf(pair: string): string
    requires !Malformed(pair)
  {
    TrimSpace(Cut(TrimSpace(pair), '=')[0])
  }

  function ValueOf(pair: string): string
    requires !Malformed(pair)
  {
    TrimSpace(Cut(TrimSpace(pair), '=')[1])
  }

  /** The pair that decides the value of k: the last one with that key. */
  ghost predicate Decides(pairs: seq<string>, i: int, k: string, v: string) {
    && 0 <= i < |pairs| && !Malformed(pairs[i]) && KeyOf(pairs[i]) == k && ValueOf(pairs[i]) == v
    && forall j | i < j < |pairs| :: !Malformed(pairs[j]) && KeyOf(pairs[j]) != k
  }

  /** What a parse means, without saying how it is done: the first malformed pair is reported;
      without one, the map holds k = v exactly when the last pair for k says so. */
  ghost predicate Means(s: string, r: Parsed) {
    var pairs := Split(TrimSpace(s), ',');
    match r
    case Unset => TrimSpace(s) == ""
    case Invalid(p) =>
      && TrimSpace(s) != ""
      && exists i :: FirstMalformed(pairs, i) && pairs[i] == p
    case Selected(m) => TrimSpace(s) != "" && NoneMalformed(pairs) && Collects(pairs, m)
  }

  ghost predicate FirstMalformed(pairs: seq<string>, i: int) {
    0 <= i < |pairs| && Malformed(pairs[i]) && forall j | 0 <= j < i :: !Malformed(pairs[j])
  }

  ghost predicate NoneMalformed(pairs: seq<string>) {
    forall i | 0 <= i < |pairs| :: !Malformed(pairs[i])
  }

  ghost predicate Collects(pairs: seq<string>, m: Selector) {
    forall k, v :: Has(m, k, v) <==> Says(pairs, k, v)
  }

  predicate Has(m: Selector, k: string, v: string) { k in m && m[k] == v }

  ghost predicate Says(pairs: seq<string>, k: string, v: string) {
    exists i :: Decides(pairs, i, k, v)
  }

  lemma SaysSnoc(pairs: seq<string>, p: string, k: string, v: string)
    requires !Malformed(p)
    ensures Says(pairs + [p], k, v) <==> if k == KeyOf(p) then v == ValueOf(p) else Says(pairs, k, v)
  {
    var more := pairs + [p];
    assert more[|pairs|] == p;
    if k == KeyOf(p) {
      if v == ValueOf(p) { assert Decides(more, |pairs|, k, v); }
      if i :| Decides(more, i, k, v) { assert i == |pairs|; }
    } else {
      if i :| Decides(pairs, i, k, v) {
        assert forall j | i < j < |more| :: j == |pairs| || more[j] == pairs[j];
        assert more[i] == pairs[i];
        assert Decides(more, i, k, v);
      }
      if i :| Decides(more, i, k, v) {
        assert i < |pairs| && more[i] == pairs[i];
        assert forall j | i < j < |pairs| :: more[j] == pairs[j];
        assert Decides(pairs, i, k, v);
      }
    }
  }

  lemma CollectsSnoc(pairs: seq<string>, m: Selector, p: string)
    requires NoneMalformed(pairs) && Collects(pairs, m) && !Malformed(p)
    ensures Collects(pairs + [p], m[KeyOf(p) := ValueOf(p)])
  {
    var m' := m[KeyOf(p) := ValueOf(p)];
    forall k, v ensures Has(m', k, v) <==> Says(pairs + [p], k, v) {
      SaysSnoc(pairs, p, k, v);
      assert Has(m, k, v) <==> Says(pairs, k, v);
    }
  }

  lemma CollectsNothing()
    ensures Collects([], map[])
  {
  }

  /** A meaning is unique, so it is a full specification of the parser. */
  lemma MeaningUnique(s: string, q: Parsed, r: Parsed)
    requires Means(s, q) && Means(s, r)
    ensures q == r
  {
    var pairs := Split(TrimSpace(s), ',');
    if q.Selected? && r.Selected? {
      SameCollection(pairs, q.selector, r.selector);
    } else if q.Invalid? && r.Invalid? {
      var i :| FirstMalformed(pairs, i) && pairs[i] == q.pair;
      var j :| FirstMalformed(pairs, j) && pairs[j] == r.pair;
    }
  }

  lemma SameCollection(pairs: seq<string>, m: Selector, n: Selector)
    requires Collects(pairs, m) && Collects(pairs, n)
    ensures m == n
  {
    hide Says;
    assert forall k | k in m :: Has(m, k, m[k]) && Has(n, k, m[k]);
    assert forall k | k in n :: Has(n, k, n[k]) && Has(m, k, n[k]);
  }

  /** parseNodeSelector */
  method ParseNodeSelector(s: string) returns (r: Parsed)
    ensures Means(s, r)
  {
    hide Collects, TrimSpace, Cut;
    CollectsNothing();
    var t := TrimSpace(s);
    if t == "" { return Unset; }
    var out: Selector := map[];
    var pairs := Split(t, ',');
    for i := 0 to |pairs|
      invariant NoneMalformed(pairs[..i]) && Collects(pairs[..i], out)
    {
      var kv := Cut(TrimSpace(pairs[i]), '=');
      if |kv| != 2 || kv[0] == "" {
        assert FirstMalformed(pairs, i);
        return Invalid(pairs[i]);
      }
      CollectsSnoc(pairs[..i], out, pairs[i]);
      assert pairs[..i + 1] == pairs[..i] + [pairs[i]];
      out := out[TrimSpace(kv[0]) := TrimSpace(kv[1])];
    }
    assert pairs[..|pairs|] == pairs;
    return Selected(out);
  }

  // ---------------------------------------------------------------- what a parse can yield

  /** An entry that the text form can carry. */
  predicate CleanEntry(k: string, v: string) {
    && k != "" && ',' !in k && '=' !in k && Trimmed(k)
    && ',' !in v && Trimmed(v)
  }

  predicate CleanSelector(m: Selector) {
    forall k | k in m :: CleanEntry(k, m[k])
  }

  lemma PairClean(pair: string)
    requires ',' !in pair && !Malformed(pair)
    ensures CleanEntry(KeyOf(pair), ValueOf(pair))
  {
    var t := TrimSpace(pair);
    var kv := Cut(t, '=');
    TrimKeeps(pair, ',');
    TrimKeeps(kv[0], ',');
    TrimKeeps(kv[0], '=');
    TrimKeeps(kv[1], ',');
    TrimSpaceTrims(pair);
    TrimSpaceTrims(kv[0]);
    TrimSpaceTrims(kv[1]);
    assert kv[0][0] == t[0];
    SolidStaysNonEmpty(kv[0]);
  }

  lemma TrimKeeps(s: string, c: char)
    requires c !in s
    ensures c !in TrimSpace(s)
  {
    StatusUpdater.TrimSpaceKeeps(s, c);
    StatusUpdater.TrimSpaceKeeps(TrimLeft(s), c);
  }

  lemma {:induction false} SolidStaysNonEmpty(s: string)
    requires s != "" && !IsSpace(s[0])
    ensures TrimSpace(s) != ""
    decreases |s|
  {
    if IsSpace(s[|s| - 1]) { SolidStaysNonEmpty(s[..|s| - 1]); }
  }

  /** Whatever text parses, its keys are non-empty, trimmed and free of '=' and ','. */
  lemma ParsedIsClean(s: string, r: Parsed)
    requires Means(s, r) && r.Selected?
    ensures r.selector != map[] && CleanSelector(r.selector)
  {
    var pairs := Split(TrimSpace(s), ',');
    forall k | k in r.selector ensures CleanEntry(k, r.selector[k]) {
      assert Has(r.selector, k, r.selector[k]);
      var i :| Decides(pairs, i, k, r.selector[k]);
      PairClean(pairs[i]);
    }
    var n := |pairs| - 1;
    var k, v := KeyOf(pairs[n]), ValueOf(pairs[n]);
    assert Decides(pairs, n, k, v) && Has(r.selector, k, v);
  }

  // ---------------------------------------------------------------- round trip

  /** "k=v,k=v" */
  function Render(m: Selector, order: seq<string>): string
    requires forall k | k in order :: k in m
  {
    Join(Pairs(m, order), ',')
  }

  function Pairs(m: Selector, order: seq<string>): seq<string>
    requires forall k | k in order :: k in m
  {
    seq(|order|, i requires 0 <= i < |order| => order[i] + ['='] + m[order[i]])
  }

  /** Rendering a non-empty selector in any order and parsing it gives it back, exactly when all
      its entries are clean. */
  lemma RoundTrip(m: Selector, order: seq<string>, r: Parsed)
    requires m != map[] && NoDuplicates(order) && (forall k :: k in order <==> k in m)
    requires Means(Render(m, order), r)
    ensures r == Selected(m) <==> CleanSelector(m)
  {
    if r == Selected(m) { ParsedIsClean(Render(m, order), r); }
    if CleanSelector(m) {
      CleanMeans(m, order);
      MeaningUnique(Render(m, order), r, Selected(m));
    }
  }

  lemma CleanMeans(m: Selector, order: seq<string>)
    requires m != map[] && NoDuplicates(order) && (forall k :: k in order <==> k in m)
    requires CleanSelector(m)
    ensures Means(Render(m, order), Selected(m))
  {
    var pairs := Pairs(m, order);
    var some :| some in m;
    assert some in order;
    forall i | 0 <= i < |pairs| ensures ',' !in pairs[i] && pairs[i] != "" && Trimmed(pairs[i]) && !Malformed(pairs[i])
      && KeyOf(pairs[i]) == order[i] && ValueOf(pairs[i]) == m[order[i]]
    {
      CleanPair(order[i], m[order[i]]);
    }
    SplitJoin(pairs, ',');
    JoinTrimmed(pairs);
    TrimSpaceTrims(Render(m, order));
    forall k, v ensures Has(m, k, v) <==> Says(pairs, k, v) {
      OnlyItsPair(pairs, order, m, k, v);
    }
  }

  /** Where every key has one pair, that pair decides. */
  lemma OnlyItsPair(pairs: seq<string>, order: seq<string>, m: Selector, k: string, v: string)
    requires NoDuplicates(order) && (forall l :: l in order <==> l in m) && |pairs| == |order|
    requires forall i | 0 <= i < |pairs| ::
      !Malformed(pairs[i]) && KeyOf(pairs[i]) == order[i] && order[i] in m && ValueOf(pairs[i]) == m[order[i]]
    ensures Has(m, k, v) <==> Says(pairs, k, v)
  {
    hide Malformed, KeyOf, ValueOf;
    if Has(m, k, v) {
      assert k in order;
      var i :| 0 <= i < |order| && order[i] == k;
      assert Decides(pairs, i, k, v);
    }
  }

  lemma CleanPair(k: string, v: string)
    requires CleanEntry(k, v)
    ensures var p := k + ['='] + v;
      ',' !in p && p != "" && Trimmed(p) && !Malformed(p) && KeyOf(p) == k && ValueOf(p) == v
  {
    var p := k + ['='] + v;
    assert p[0] == k[0] && p[|p| - 1] == if v == "" then '=' else v[|v| - 1];
    TrimSpaceTrims(p);
    TrimSpaceTrims(k);
    TrimSpaceTrims(v);
    CutConcat(k, '=', v);
  }

  lemma {:induction false} JoinTrimmed(parts: seq<string>)
    requires |parts| > 0 && forall i | 0 <= i < |parts| :: parts[i] != "" && Trimmed(parts[i])
    ensures Join(parts, ',') != "" && Trimmed(Join(parts, ',')) && Join(parts, ',')[0] == parts[0][0]
  {
    if |parts| > 1 { JoinTrimmed(parts[1..]); }
  }
}
