/** The three readers of a "low-high" utilization range: pkg/annotations/parse.go (AMD),
    sampleUtil of fake-dcgm-extras (NVIDIA) and validateUtilRange of pkg/simsconfig (the CLI). */
module Utilization {
  import opened Text

  /** A float64. Finite values are exact reals: rounding is not the subject here. */
  datatype Float = Finite(v: real) | NaN | PosInf | NegInf

  /** Go's `<`: false as soon as one side is NaN. */
  predicate Lt(a: Float, b: Float) {
    match (a, b)
    case (NaN, _) => false
    case (_, NaN) => false
    case (Finite(x), Finite(y)) => x < y
    case (NegInf, _) => b != NegInf
    case (_, PosInf) => a != PosInf
    case (_, _) => false
  }

  predicate Le(a: Float, b: Float) {
    Lt(a, b) || (a == b && !a.NaN?)
  }

  const ZERO := Finite(0.0)
  const HUNDRED := Finite(100.0)
  const DEFAULT_RANGE := "5-15"

  /** strconv.ParseFloat, as a parameter: the results hold for every such function. */
  type FloatReader = string -> Option<Float>

  /** The one thing asked of it where integers matter: it reads what Atoi reads. */
  ghost predicate ReadsIntegers(pf: FloatReader) {
    forall s | Atoi(s).Some? && 0 <= Atoi(s).value <= 100 :: pf(s) == Some(Finite(Atoi(s).value as real))
  }

  datatype Range = Range(low: Float, high: Float)

  predicate Bounded(r: Range) {
    r.low.Finite? && r.high.Finite? && 0.0 <= r.low.v <= r.high.v <= 100.0
  }

  // ---------------------------------------------------------------- AMD

  /** ParseUtilizationWithDefault; None is its error. */
  function ParseUtilization(pf: FloatReader, s: string, fallback: string): Option<Range> {
    var parts := Cut(if s == "" then fallback else s, '-');
    if |parts| != 2 then None
    else
      var low, high := pf(TrimSpace(parts[0])), pf(TrimSpace(parts[1]));
      if low.None? || high.None? then None
      else if Lt(low.value, ZERO) || Lt(HUNDRED, high.value) || Lt(high.value, low.value) then None
      else Some(Range(low.value, high.value))
  }

  /** How the exporter's cache uses it: on an error it retries with the default alone and takes
      the zero Range if that fails too. */
  function PodRange(pf: FloatReader, annotation: string, fallback: string): Range {
    var r := ParseUtilization(pf, annotation, fallback);
    if r.Some? then r.value
    else
      var d := ParseUtilization(pf, "", fallback);
      if d.Some? then d.value else Range(ZERO, ZERO)
  }

  /** The bound check lets a range through that is inside 0-100 or has a NaN end. */
  lemma ParsedRange(pf: FloatReader, s: string, fallback: string)
    ensures var r := ParseUtilization(pf, s, fallback);
            r.Some? ==> Bounded(r.value) || r.value.low.NaN? || r.value.high.NaN?
  {
  }

  /** A NaN bound that the AMD bound check does not notice. */
  predicate NaNSlipsThrough(pf: FloatReader, s: string) {
    var parts := Cut(s, '-');
    && |parts| == 2
    && var low, high := pf(TrimSpace(parts[0])), pf(TrimSpace(parts[1]));
    && low.Some? && high.Some? && (low.value.NaN? || high.value.NaN?)
    && !Lt(low.value, ZERO) && !Lt(HUNDRED, high.value)
  }

  /** The texts that the cache reads for a pod have no such bound: neither the annotation (or the
      default in its place) nor, if that is an error, the default. */
  predicate Tame(pf: FloatReader, annotation: string, fallback: string) {
    && !NaNSlipsThrough(pf, if annotation == "" then fallback else annotation)
    && (ParseUtilization(pf, annotation, fallback).None? ==> !NaNSlipsThrough(pf, fallback))
  }

  /** For every float reader, annotation and default, well-formed or not: the range that the cache
      stores lies inside 0-100 exactly when the texts are tame. */
  lemma PodRangeBounded(pf: FloatReader, annotation: string, fallback: string)
    ensures Bounded(PodRange(pf, annotation, fallback)) <==> Tame(pf, annotation, fallback)
  {
  }

  /** In particular when no bound of the annotation or of the default reads as NaN. */
  lemma FiniteIsTame(pf: FloatReader, annotation: string, fallback: string)
    requires forall s, i | s in {annotation, fallback} && 0 <= i < |Cut(s, '-')| ::
               pf(TrimSpace(Cut(s, '-')[i])) != Some(NaN)
    ensures Tame(pf, annotation, fallback)
  {
  }

  // ---------------------------------------------------------------- NVIDIA

  /** The interval that sampleUtil samples in. */
  function NvidiaRange(pf: FloatReader, raw: string): Range {
    var parts := Cut(raw, '-');
    if raw != "" && |parts| == 2 then
      var l := pf(TrimSpace(parts[0]));
      if l.None? then Range(Finite(5.0), Finite(15.0))
      else
        var h := pf(TrimSpace(parts[1]));
        if h.Some? && Le(ZERO, l.value) && Le(h.value, HUNDRED) && Le(l.value, h.value)
        then Range(l.value, h.value)
        else Range(Finite(5.0), Finite(15.0))
    else Range(Finite(5.0), Finite(15.0))
  }

  lemma ReadsDecimal(pf: FloatReader, n: nat)
    requires ReadsIntegers(pf) && n <= 100
    ensures TrimSpace(Itoa(n)) == Itoa(n) && pf(Itoa(n)) == Some(Finite(n as real))
  {
    AtoiItoa(n);
    ValueDigits(n);
    TrimSpaceTrims(Itoa(n));
  }

  lemma DefaultRangeParses(pf: FloatReader)
    requires ReadsIntegers(pf)
    ensures ParseUtilization(pf, "", DEFAULT_RANGE) == Some(Range(Finite(5.0), Finite(15.0)))
    ensures ParseUtilization(pf, DEFAULT_RANGE, DEFAULT_RANGE) == Some(Range(Finite(5.0), Finite(15.0)))
  {
    CutConcat("5", '-', "15");
    assert "5" + ['-'] + "15" == DEFAULT_RANGE;
    ReadsDecimal(pf, 5);
    ReadsDecimal(pf, 15);
    assert Itoa(5) == "5" && Itoa(15) == "15";
  }

  /** The two vendors use the same interval for an annotation exactly when no NaN bound slips
      through the AMD check. */
  lemma VendorsAgree(pf: FloatReader, s: string)
    requires ReadsIntegers(pf)
    ensures PodRange(pf, s, DEFAULT_RANGE) == NvidiaRange(pf, s) <==> !NaNSlipsThrough(pf, s)
  {
    DefaultRangeParses(pf);
    assert Cut("", '-') == [""];
    hide Cut, TrimSpace, ReadsIntegers;
  }

  lemma NaNLiteral(pf: FloatReader)
    requires ReadsIntegers(pf) && pf("nan") == Some(NaN)
    ensures Cut("nan-50", '-') == ["nan", "50"] && pf(TrimSpace("nan")) == Some(NaN) &&
            pf(TrimSpace("50")) == Some(Finite(50.0))
  {
    ReadsDecimal(pf, 50);
    assert Itoa(50) == "50";
    hide ReadsIntegers;
    NaNText();
  }

  lemma NaNText()
    ensures Cut("nan-50", '-') == ["nan", "50"] && TrimSpace("nan") == "nan"
  {
    TrimSpaceTrims("nan");
    hide TrimSpace;
    CutConcat("nan", '-', "50");
    assert "nan" + ['-'] + "50" == "nan-50";
  }

  /** They do differ: AMD keeps the NaN, NVIDIA falls back to 5-15. */
  lemma VendorsDisagree(pf: FloatReader)
    requires ReadsIntegers(pf) && pf("nan") == Some(NaN)
    ensures PodRange(pf, "nan-50", DEFAULT_RANGE) == Range(NaN, Finite(50.0))
    ensures NvidiaRange(pf, "nan-50") == Range(Finite(5.0), Finite(15.0))
  {
    NaNLiteral(pf);
    hide ReadsIntegers, Cut, TrimSpace;
  }

  // ---------------------------------------------------------------- the CLI

  /** validateUtilRange; the accepted integer bounds, or None for its errors. */
  function ValidateUtilRange(s: string): Option<(int, int)> {
    var parts := Cut(s, '-');
    if |parts| != 2 then None
    else
      var lo, hi := Atoi(parts[0]), Atoi(parts[1]);
      if lo.None? || hi.None? then None
      else if lo.value < 0 || lo.value > 100 || hi.value < 0 || hi.value > 100 then None
      else if lo.value > hi.value then None
      else Some((lo.value, hi.value))
  }

  /** Exactly which strings it accepts. */
  lemma CliAccepts(s: string)
    ensures ValidateUtilRange(s).Some? <==>
            exists a, b :: s == a + "-" + b && '-' !in a && Atoi(a).Some? && Atoi(b).Some?
                           && 0 <= Atoi(a).value <= Atoi(b).value <= 100
  {
    var parts := Cut(s, '-');
    if |parts| == 2 {
      assert s == parts[0] + "-" + parts[1] && '-' !in parts[0];
    }
    hide Atoi, Cut;
    forall a, b | s == a + "-" + b && '-' !in a { CliReads(a, b); }
  }

  /** In particular it accepts the decimal form of exactly the ranges inside 0-100, and reads their
      bounds back. */
  lemma CliReadsRendered(lo: int, hi: int)
    ensures ValidateUtilRange(Itoa(lo) + "-" + Itoa(hi)) == if 0 <= lo <= hi <= 100 then Some((lo, hi)) else None
  {
    AtoiItoa(lo);
    AtoiItoa(hi);
    if lo < 0 {
      NegativeLow(Digits(-lo), Itoa(hi));
      hide Atoi, Digits, Digital, ValidateUtilRange;
    } else {
      ValueDigits(lo);
      assert forall i | 0 <= i < |Itoa(lo)| :: IsDigit(Itoa(lo)[i]);
      hide Atoi, Itoa, Digital;
      CliReads(Itoa(lo), Itoa(hi));
    }
  }

  lemma NegativeLow(digits: string, b: string)
    ensures ValidateUtilRange("-" + digits + "-" + b).None?
  {
    assert "-" + digits + "-" + b == "" + "-" + (digits + "-" + b);
    CliReads("", digits + "-" + b);
  }

  lemma CliReads(a: string, b: string)
    requires '-' !in a
    ensures ValidateUtilRange(a + "-" + b) ==
            if Atoi(a).Some? && Atoi(b).Some? && 0 <= Atoi(a).value <= Atoi(b).value <= 100
            then Some((Atoi(a).value, Atoi(b).value)) else None
  {
    assert a + "-" + b == a + ['-'] + b;
    CutConcat(a, '-', b);
    hide Cut, Atoi;
  }

  /** Atoi accepts no white space, so the operator's TrimSpace does not change its view. */
  lemma AtoiTrimmed(s: string)
    requires Atoi(s).Some?
    ensures TrimSpace(s) == s
  {
    var signed := s[0] == '-' || s[0] == '+';
    if signed { assert s[|s| - 1] == s[1..][|s| - 2]; }
    TrimSpaceTrims(s);
  }

  function AsRange(b: (int, int)): Range {
    Range(Finite(b.0 as real), Finite(b.1 as real))
  }

  /** A string that the CLI accepts means the same to all three readers: to the AMD parser as an
      annotation and as a default, and to NVIDIA's sampler. */
  lemma CliRangeSurvives(pf: FloatReader, s: string, fallback: string)
    requires ReadsIntegers(pf) && ValidateUtilRange(s).Some?
    ensures var r := AsRange(ValidateUtilRange(s).value);
      && Bounded(r)
      && ParseUtilization(pf, s, fallback) == Some(r)
      && ParseUtilization(pf, "", s) == Some(r)
      && NvidiaRange(pf, s) == r
  {
    CliBoundsRead(pf, s);
    AmdReads(pf, s, fallback, AsRange(ValidateUtilRange(s).value));
    NvidiaReads(pf, s, AsRange(ValidateUtilRange(s).value));
  }

  /** Two literals that stand for a bounded range. */
  ghost predicate Literals(pf: FloatReader, s: string, r: Range) {
    var parts := Cut(s, '-');
    && |parts| == 2 && s != "" && Bounded(r)
    && pf(TrimSpace(parts[0])) == Some(r.low) && pf(TrimSpace(parts[1])) == Some(r.high)
  }

  lemma AmdReads(pf: FloatReader, s: string, fallback: string, r: Range)
    requires Literals(pf, s, r)
    ensures ParseUtilization(pf, s, fallback) == Some(r) && ParseUtilization(pf, "", s) == Some(r)
  {
    hide Cut, TrimSpace;
  }

  lemma NvidiaReads(pf: FloatReader, s: string, r: Range)
    requires Literals(pf, s, r)
    ensures NvidiaRange(pf, s) == r
  {
    hide Cut, TrimSpace;
  }

  lemma CliBoundsRead(pf: FloatReader, s: string)
    requires ReadsIntegers(pf) && ValidateUtilRange(s).Some?
    ensures var parts, b := Cut(s, '-'), ValidateUtilRange(s).value;
      && |parts| == 2
      && 0 <= b.0 <= b.1 <= 100
      && pf(TrimSpace(parts[0])) == Some(Finite(b.0 as real))
      && pf(TrimSpace(parts[1])) == Some(Finite(b.1 as real))
    ensures Literals(pf, s, AsRange(ValidateUtilRange(s).value))
  {
    assert Cut("", '-') == [""];
    var parts := Cut(s, '-');
    AtoiTrimmed(parts[0]);
    AtoiTrimmed(parts[1]);
  }

  /** So a default that the CLI accepted is what the exporter uses for every pod whose annotation
      is absent or malformed. */
  lemma CliDefaultNeverReplaced(pf: FloatReader, default: string, annotation: string)
    requires ReadsIntegers(pf) && ValidateUtilRange(default).Some?
    requires annotation == "" || ParseUtilization(pf, annotation, default).None?
    ensures PodRange(pf, annotation, default) == AsRange(ValidateUtilRange(default).value)
  {
    CliRangeSurvives(pf, default, default);
  }

  // ---------------------------------------------------------------- sampling

  /** A value of rng.Float64(). */
  type Draw = d: real | 0.0 <= d < 1.0 witness 0.0

  /** Range.Sample, for finite bounds. */
  function Sample(low: real, high: real, d: Draw): (v: real)
    ensures low <= high ==> low <= v <= high
    ensures low < high ==> v < high
  {
    if high == low then low
    else
      var w := high - low;
      assert w > 0.0 ==> 0.0 <= d * w < w by { if w > 0.0 { Scaled(d, w); } }
      low + d * w
  }

  /** The sampling law: the value grows with the draw, equal steps of the draw give equal steps of
      the value, no draw gives the lower bound and half a draw the midpoint ... */
  lemma SampleLaw(low: real, high: real, d: Draw, e: Draw)
    requires low < high && d < e
    ensures Sample(low, high, d) < Sample(low, high, e)
    ensures Sample(low, high, e) - Sample(low, high, d) == (e - d) * (high - low)
    ensures Sample(low, high, 0.0) == low && Sample(low, high, 0.5) == (low + high) / 2.0
    ensures Sample(low, low, d) == low
  {
    var w := high - low;
    assert Sample(low, low, d) == low;
    SampleAt(low, high, d, w);
    SampleAt(low, high, e, w);
    SampleAt(low, high, 0.0, w);
    SampleAt(low, high, 0.5, w);
    hide Sample;
    Stretch(d, e, w);
    assert Sample(low, high, e) - Sample(low, high, d) == (e - d) * w;
  }

  lemma SampleAt(low: real, high: real, d: Draw, w: real)
    requires w == high - low > 0.0
    ensures Sample(low, high, d) == low + d * w
  {
  }

  /** ... and every value of the band is the value of exactly one draw. */
  lemma SampleOnto(low: real, high: real, v: real)
    requires low <= v < high
    ensures exists d: Draw :: Sample(low, high, d) == v
    ensures forall d: Draw, e: Draw | Sample(low, high, d) == v && Sample(low, high, e) == v :: d == e
  {
    var d := Fraction(v - low, high - low);
    SampleAt(low, high, d, high - low);
    hide Sample;
    forall x: Draw, y: Draw | Sample(low, high, x) == v && Sample(low, high, y) == v ensures x == y {
      if x < y { SampleLaw(low, high, x, y); }
      if y < x { SampleLaw(low, high, y, x); }
    }
  }

  lemma Stretch(d: real, e: real, w: real)
    requires d < e && w > 0.0
    ensures d * w < e * w && e * w - d * w == (e - d) * w
  {
  }

  lemma Fraction(x: real, w: real) returns (d: Draw)
    requires 0.0 <= x < w
    ensures d * w == x
  {
    var q := x / w;
    assert q * w == x;
    assert q >= 1.0 ==> q * w >= w by { if q > 1.0 { Stretch(1.0, q, w); } }
    assert q < 0.0 ==> q * w < 0.0 by { if q < 0.0 { Stretch(q, 0.0, w); } }
    d := q;
  }

  lemma Scaled(d: Draw, w: real)
    requires w > 0.0
    ensures 0.0 <= d * w < w
  {
    assert d * w < 1.0 * w;
  }

  /** sampleUtil never samples outside 0-100: its guard, unlike the AMD one, stops NaN. */
  lemma NvidiaRangeBounded(pf: FloatReader, raw: string)
    ensures Bounded(NvidiaRange(pf, raw))
  {
  }

  /** sampleUtil */
  method SampleUtil(pf: FloatReader, raw: string, d: Draw) returns (util: real)
    ensures util == Sample(NvidiaRange(pf, raw).low.v, NvidiaRange(pf, raw).high.v, d)
    ensures 0.0 <= util <= 100.0
  {
    NvidiaRangeBounded(pf, raw);
    var low, high := Finite(5.0), Finite(15.0);
    if raw != "" {
      var parts := Cut(raw, '-');
      if |parts| == 2 {
        var l := pf(TrimSpace(parts[0]));
        if l.Some? {
          var h := pf(TrimSpace(parts[1]));
          if h.Some? && Le(ZERO, l.value) && Le(h.value, HUNDRED) && Le(l.value, h.value) {
            low, high := l.value, h.value;
          }
        }
      }
    }
    return Sample(low.v, high.v, d);
  }
}
