/** SlotZilla lines and the multiplier calibrator (packages/types/src/slotzilla.ts). */
module SlotCalibrator {
  import opened Numbers
  import opened Options
  import opened RealArith
  import opened SlotReels

  datatype LineKey = All3(symbol: Symbol) | Any2(symbol: Symbol)

  datatype RoundReels = RoundReels(a: Symbol, b: Symbol, c: Symbol)

  const LINE_KEYS: seq<LineKey> := [
    All3(P3), Any2(P3), All3(P2), Any2(P2), All3(FT), Any2(FT),
    All3(MISS), Any2(MISS), All3(FOUL), Any2(FOUL), All3(NONE), Any2(NONE)
  ]

  const FIXED_LINES: seq<LineKey> := [Any2(NONE), All3(NONE)]

  function EvaluateLine(r: RoundReels): Option<LineKey> {
    if r.a == r.b && r.b == r.c then Some(All3(r.a))
    else if r.a == r.b then Some(Any2(r.a))
    else if r.b == r.c then Some(Any2(r.b))
    else if r.a == r.c then Some(Any2(r.a))
    else None
  }

  /** How many reels show `s`. */
  function Showing(r: RoundReels, s: Symbol): nat {
    (if r.a == s then 1 else 0) + (if r.b == s then 1 else 0) + (if r.c == s then 1 else 0)
  }

  /** A line is read off the counts alone, so the order of the reels does not matter and no round
      has a second line to choose over. */
  lemma LineByCounts(r: RoundReels, s: Symbol)
    ensures EvaluateLine(r) == Some(All3(s)) <==> Showing(r, s) == 3
    ensures EvaluateLine(r) == Some(Any2(s)) <==> Showing(r, s) == 2
    ensures EvaluateLine(r) == None <==> forall x :: Showing(r, x) <= 1
  {
    assert Showing(r, r.a) >= 1 && Showing(r, r.b) >= 1;
  }

  // ----- corpus -----

  /** Every run of three consecutive windows, and nothing else, in order. */
  method SlidingRounds(windows: seq<Symbol>) returns (out: seq<RoundReels>)
    ensures |out| == if |windows| < ROUND_WINDOWS then 0 else |windows| - 2
    ensures forall i :: 0 <= i < |out| ==> out[i] == RoundReels(windows[i], windows[i + 1], windows[i + 2])
  {
    out := [];
    var i := 0;
    while i + ROUND_WINDOWS <= |windows|
      invariant |out| == i && (i == 0 || i + 2 <= |windows|)
      invariant forall j :: 0 <= j < i ==> out[j] == RoundReels(windows[j], windows[j + 1], windows[j + 2])
    {
      out := out + [RoundReels(windows[i], windows[i + 1], windows[i + 2])];
      i := i + 1;
    }
  }

  lemma {:induction false} AllKeysListed(k: LineKey)
    ensures k in LINE_KEYS
  {
    match k
    case All3(s) =>
      match s {
        case P3 => assert LINE_KEYS[0] == k;
        case P2 => assert LINE_KEYS[2] == k;
        case FT => assert LINE_KEYS[4] == k;
        case MISS => assert LINE_KEYS[6] == k;
        case FOUL => assert LINE_KEYS[8] == k;
        case NONE => assert LINE_KEYS[10] == k;
      }
    case Any2(s) =>
      match s {
        case P3 => assert LINE_KEYS[1] == k;
        case P2 => assert LINE_KEYS[3] == k;
        case FT => assert LINE_KEYS[5] == k;
        case MISS => assert LINE_KEYS[7] == k;
        case FOUL => assert LINE_KEYS[9] == k;
        case NONE => assert LINE_KEYS[11] == k;
      }
  }

  ghost predicate Distinct(keys: seq<LineKey>) {
    forall i, j :: 0 <= i < j < |keys| ==> keys[i] != keys[j]
  }

  function Position(k: LineKey): nat {
    (match k.symbol case P3 => 0 case P2 => 2 case FT => 4 case MISS => 6 case FOUL => 8 case NONE => 10)
    + if k.All3? then 0 else 1
  }

  lemma KeysDistinct()
    ensures Distinct(LINE_KEYS)
  {
    forall i | 0 <= i < |LINE_KEYS| ensures Position(LINE_KEYS[i]) == i {
    }
  }

  /** Rounds of the corpus on line `k`. */
  ghost function Hits(rounds: seq<RoundReels>, k: LineKey): nat {
    if rounds == [] then 0
    else Hits(rounds[..|rounds| - 1], k) + if EvaluateLine(rounds[|rounds| - 1]) == Some(k) then 1 else 0
  }

  ghost function Total(keys: seq<LineKey>, rounds: seq<RoundReels>): nat {
    if keys == [] then 0 else Total(keys[..|keys| - 1], rounds) + Hits(rounds, keys[|keys| - 1])
  }

  lemma {:induction false} TotalStep(keys: seq<LineKey>, rounds: seq<RoundReels>)
    requires rounds != [] && Distinct(keys)
    ensures var rest, line := rounds[..|rounds| - 1], EvaluateLine(rounds[|rounds| - 1]);
            Total(keys, rounds) == Total(keys, rest) + if line.Some? && line.value in keys then 1 else 0
  {
    if keys != [] {
      var n := |keys| - 1;
      assert keys == keys[..n] + [keys[n]];
      TotalStep(keys[..n], rounds);
    }
  }

  lemma {:induction false} TotalEmpty(keys: seq<LineKey>)
    ensures Total(keys, []) == 0
  {
    if keys != [] { TotalEmpty(keys[..|keys| - 1]); }
  }

  /** Each round is on one line at most. */
  lemma {:induction false} TotalAtMost(keys: seq<LineKey>, rounds: seq<RoundReels>)
    requires Distinct(keys)
    ensures Total(keys, rounds) <= |rounds|
  {
    if rounds == [] {
      TotalEmpty(keys);
    } else {
      TotalStep(keys, rounds);
      TotalAtMost(keys, rounds[..|rounds| - 1]);
    }
  }

  type Frequencies = map<LineKey, real>

  function Freq(freq: Frequencies, k: LineKey): real { if k in freq then freq[k] else 0.0 }

  function TotalFreq(keys: seq<LineKey>, freq: Frequencies): real {
    if keys == [] then 0.0 else TotalFreq(keys[..|keys| - 1], freq) + Freq(freq, keys[|keys| - 1])
  }

  /** Shares of something: none negative, all of them together at most one. */
  ghost predicate IsShare(freq: Frequencies) {
    (forall k :: Freq(freq, k) >= 0.0) && TotalFreq(LINE_KEYS, freq) <= 1.0
  }

  lemma {:induction false} TotalFreqIs(keys: seq<LineKey>, freq: Frequencies, rounds: seq<RoundReels>, n: real)
    requires n > 0.0 && forall k :: k in keys ==> Freq(freq, k) * n == Hits(rounds, k) as real
    ensures TotalFreq(keys, freq) * n == Total(keys, rounds) as real
  {
    hide Freq, Hits;
    if keys == [] { return; }
    var m := |keys| - 1;
    assert keys[m] in keys;
    TotalFreqIs(keys[..m], freq, rounds, n);
    DistributeRight(TotalFreq(keys[..m], freq), Freq(freq, keys[m]), n);
  }

  lemma DistributeRight(a: real, b: real, c: real)
    ensures (a + b) * c == a * c + b * c
  {
  }

  lemma SharesOf(freq: Frequencies, rounds: seq<RoundReels>, n: real)
    requires rounds != [] && n == |rounds| as real
    requires forall k :: Freq(freq, k) * n == Hits(rounds, k) as real
    ensures IsShare(freq)
  {
    hide TotalFreq, Total, Freq, Hits;
    KeysDistinct();
    TotalAtMost(LINE_KEYS, rounds);
    TotalFreqIs(LINE_KEYS, freq, rounds, n);
    CancelFrom(TotalFreq(LINE_KEYS, freq), 1.0, n, Total(LINE_KEYS, rounds) as real, n);
    forall k ensures Freq(freq, k) >= 0.0 {
      CancelFrom(0.0, Freq(freq, k), n, 0.0, Hits(rounds, k) as real);
    }
  }

  /** `lineFrequencies`: from any corpus, each line's share of the rounds; the shares sum to at
      most one. */
  method LineFrequencies(rounds: seq<RoundReels>) returns (freq: Frequencies)
    ensures forall k :: k in freq && freq[k] * |rounds| as real == Hits(rounds, k) as real
    ensures IsShare(freq)
  {
    hide TotalFreq, IsShare, Hits;
    var counts := Counts(rounds);
    var n := |rounds| as real;
    if |rounds| == 0 {
      NoRounds(counts);
      return counts;
    }
    freq := Divided(counts, n);
    SharesOf(freq, rounds, n);
  }

  method Counts(rounds: seq<RoundReels>) returns (counts: Frequencies)
    ensures forall k :: k in counts && counts[k] == Hits(rounds, k) as real
  {
    counts := map k | k in LINE_KEYS :: 0.0;
    forall k ensures k in counts { AllKeysListed(k); }
    for i := 0 to |rounds|
      invariant forall k :: k in counts && counts[k] == Hits(rounds[..i], k) as real
    {
      assert rounds[..i + 1][..i] == rounds[..i];
      var line := EvaluateLine(rounds[i]);
      if line.Some? { counts := counts[line.value := counts[line.value] + 1.0]; }
    }
    assert rounds[..|rounds|] == rounds;
  }

  lemma NoRounds(freq: Frequencies)
    requires forall k :: k in freq && freq[k] == Hits([], k) as real
    ensures IsShare(freq) && forall k :: freq[k] == 0.0
  {
    AllZero(LINE_KEYS, freq);
  }

  lemma {:induction false} AllZero(keys: seq<LineKey>, freq: Frequencies)
    requires forall k :: Freq(freq, k) == 0.0
    ensures TotalFreq(keys, freq) == 0.0
  {
    if keys != [] { AllZero(keys[..|keys| - 1], freq); }
  }

  function Over(x: real, n: real): real
    requires n > 0.0
  {
    x / n
  }

  lemma OverBack(x: real, n: real)
    requires n > 0.0
    ensures Over(x, n) * n == x
  {
  }

  lemma NotEarlier(keys: seq<LineKey>, i: nat)
    requires i < |keys| && Distinct(keys)
    ensures keys[i] !in keys[..i] && keys[..i + 1] == keys[..i] + [keys[i]]
  {
  }

  /** The dividing loop, over any list of distinct keys. */
  method DivideOver(keys: seq<LineKey>, counts: Frequencies, n: real) returns (freq: Frequencies)
    requires n > 0.0 && Distinct(keys) && forall k :: k in counts
    ensures forall k :: k in freq && freq[k] == if k in keys then Over(counts[k], n) else counts[k]
  {
    hide Over, Distinct;
    freq := counts;
    for i := 0 to |keys|
      invariant forall k :: k in freq && freq[k] == if k in keys[..i] then Over(counts[k], n) else counts[k]
    {
      NotEarlier(keys, i);
      freq := freq[keys[i] := Over(freq[keys[i]], n)];
    }
    assert keys[..|keys|] == keys;
  }

  method Divided(counts: Frequencies, n: real) returns (freq: Frequencies)
    requires n > 0.0 && forall k :: k in counts
    ensures forall k :: k in freq && freq[k] * n == counts[k]
  {
    hide Over, Distinct;
    KeysDistinct();
    freq := DivideOver(LINE_KEYS, counts, n);
    forall k ensures freq[k] * n == counts[k] {
      AllKeysListed(k);
      OverBack(counts[k], n);
    }
  }

  // ----- expected return -----

  /** Multipliers in hundredths; a missing line pays nothing. */
  type Paytable = map<LineKey, real>

  /** What a line of frequency `f` and multiplier `m` hundredths returns per unit staked. */
  function LineReturn(f: real, m: real): real { f * (m / 100.0) }

  function Contribution(lines: Paytable, freq: Frequencies, k: LineKey): real {
    if k in lines then LineReturn(Freq(freq, k), lines[k]) else 0.0
  }

  /** The return of the lines of `keys` that lie in `only`. */
  function ReturnOf(keys: seq<LineKey>, lines: Paytable, freq: Frequencies, only: set<LineKey>): real {
    if keys == [] then 0.0
    else
      ReturnOf(keys[..|keys| - 1], lines, freq, only)
      + if keys[|keys| - 1] in only then Contribution(lines, freq, keys[|keys| - 1]) else 0.0
  }

  const ALL_LINES: set<LineKey> := set k | k in LINE_KEYS

  /** The unrounded return of the whole paytable, as a multiple of the stake. */
  function Return(lines: Paytable, freq: Frequencies): real { ReturnOf(LINE_KEYS, lines, freq, ALL_LINES) }

  /** The adding loop, over any list of lines. */
  method AddReturns(keys: seq<LineKey>, lines: Paytable, freq: Frequencies, only: set<LineKey>) returns (ret: real)
    requires forall k :: k in keys ==> k in only
    ensures ret == ReturnOf(keys, lines, freq, only)
  {
    hide LineReturn, Freq;
    ret := 0.0;
    for i := 0 to |keys|
      invariant ret == ReturnOf(keys[..i], lines, freq, only)
    {
      var k := keys[i];
      assert keys[..i + 1][..i] == keys[..i];
      if k in lines { ret := ret + LineReturn(Freq(freq, k), lines[k]); }
    }
    assert keys[..|keys|] == keys;
  }

  method ExpectedReturnBp(lines: Paytable, freq: Frequencies) returns (bp: int)
    ensures bp == Round(Return(lines, freq) * 10000.0)
  {
    hide ReturnOf, Round;
    AllListed();
    var ret := AddReturns(LINE_KEYS, lines, freq, ALL_LINES);
    return Round(ret * 10000.0);
  }

  // ----- what the return means -----

  /** What one round pays per unit staked under the paytable. */
  ghost function Pays(lines: Paytable, r: RoundReels): real {
    var line := EvaluateLine(r);
    if line.Some? && line.value in lines then lines[line.value] / 100.0 else 0.0
  }

  ghost function TotalPaid(lines: Paytable, rounds: seq<RoundReels>): real {
    if rounds == [] then 0.0 else TotalPaid(lines, rounds[..|rounds| - 1]) + Pays(lines, rounds[|rounds| - 1])
  }

  /** The paytable's lines weighed by how often they came. */
  ghost function WeightedHits(keys: seq<LineKey>, lines: Paytable, rounds: seq<RoundReels>): real {
    if keys == [] then 0.0
    else WeightedHits(keys[..|keys| - 1], lines, rounds) + HitsPay(keys[|keys| - 1], lines, rounds)
  }

  ghost function HitsPay(k: LineKey, lines: Paytable, rounds: seq<RoundReels>): real {
    if k in lines then LineReturn(Hits(rounds, k) as real, lines[k]) else 0.0
  }

  lemma OneMoreHit(k: LineKey, lines: Paytable, rest: seq<RoundReels>, r: RoundReels)
    ensures HitsPay(k, lines, rest + [r]) == HitsPay(k, lines, rest) + if EvaluateLine(r) == Some(k) then Pays(lines, r) else 0.0
  {
    assert (rest + [r])[..|rest|] == rest;
    if k in lines {
      var h, m := Hits(rest, k) as real, lines[k] / 100.0;
      assert (h + 1.0) * m == h * m + m;
    }
  }

  lemma {:induction false} WeightedStep(keys: seq<LineKey>, lines: Paytable, rest: seq<RoundReels>, r: RoundReels)
    requires Distinct(keys)
    ensures var line := EvaluateLine(r);
            WeightedHits(keys, lines, rest + [r])
            == WeightedHits(keys, lines, rest) + if line.Some? && line.value in keys then Pays(lines, r) else 0.0
  {
    hide HitsPay, Pays, EvaluateLine;
    if keys == [] { return; }
    var n := |keys| - 1;
    assert keys == keys[..n] + [keys[n]];
    WeightedStep(keys[..n], lines, rest, r);
    OneMoreHit(keys[n], lines, rest, r);
  }

  lemma {:induction false} WeightedIsPaid(lines: Paytable, rounds: seq<RoundReels>)
    ensures WeightedHits(LINE_KEYS, lines, rounds) == TotalPaid(lines, rounds)
  {
    hide WeightedHits, HitsPay, EvaluateLine;
    if rounds == [] {
      NothingPaid(LINE_KEYS, lines);
      return;
    }
    var n := |rounds| - 1;
    assert rounds == rounds[..n] + [rounds[n]];
    WeightedIsPaid(lines, rounds[..n]);
    KeysDistinct();
    WeightedStep(LINE_KEYS, lines, rounds[..n], rounds[n]);
    var line := EvaluateLine(rounds[n]);
    if line.Some? { AllKeysListed(line.value); }
  }

  lemma {:induction false} NothingPaid(keys: seq<LineKey>, lines: Paytable)
    ensures WeightedHits(keys, lines, []) == 0.0
  {
    if keys != [] { NothingPaid(keys[..|keys| - 1], lines); }
  }

  lemma {:induction false} ReturnIsWeighted(keys: seq<LineKey>, lines: Paytable, freq: Frequencies, rounds: seq<RoundReels>, n: real)
    requires (forall k :: Freq(freq, k) * n == Hits(rounds, k) as real) && forall k :: k in keys ==> k in ALL_LINES
    ensures ReturnOf(keys, lines, freq, ALL_LINES) * n == WeightedHits(keys, lines, rounds)
  {
    hide Freq, Hits, LineReturn;
    if keys == [] { return; }
    var m := |keys| - 1;
    assert keys[m] in keys;
    ReturnIsWeighted(keys[..m], lines, freq, rounds, n);
    ShareTimes(keys[m], lines, freq, rounds, n);
    DistributeRight(ReturnOf(keys[..m], lines, freq, ALL_LINES), Contribution(lines, freq, keys[m]), n);
  }

  lemma ShareTimes(k: LineKey, lines: Paytable, freq: Frequencies, rounds: seq<RoundReels>, n: real)
    requires Freq(freq, k) * n == Hits(rounds, k) as real
    ensures Contribution(lines, freq, k) * n == HitsPay(k, lines, rounds)
  {
    hide Freq, Hits;
    if k in lines {
      var f, x := Freq(freq, k), lines[k] / 100.0;
      assert (f * x) * n == (f * n) * x;
    }
  }

  /** With frequencies measured on a corpus, the return is the average a round of that corpus pays: line
      multipliers are hundredths of the stake. */
  lemma ReturnIsAveragePayout(lines: Paytable, freq: Frequencies, rounds: seq<RoundReels>)
    requires forall k :: k in freq && freq[k] * |rounds| as real == Hits(rounds, k) as real
    ensures Return(lines, freq) * |rounds| as real == TotalPaid(lines, rounds)
  {
    hide ReturnOf, Hits, WeightedHits, TotalPaid;
    AllListed();
    ReturnIsWeighted(LINE_KEYS, lines, freq, rounds, |rounds| as real);
    WeightedIsPaid(lines, rounds);
  }

  // ----- fit -----

  datatype Fit = Fit(lines: Paytable, factor: real, fittedBp: int)

  function FixedReturn(base: Paytable, freq: Frequencies, fixed: set<LineKey>): real {
    ReturnOf(LINE_KEYS, base, freq, fixed)
  }

  function ScalableReturn(base: Paytable, freq: Frequencies, fixed: set<LineKey>): real {
    ReturnOf(LINE_KEYS, base, freq, ALL_LINES - fixed)
  }

  function Factor(base: Paytable, freq: Frequencies, target: real, fixed: set<LineKey>): real {
    var scalable := ScalableReturn(base, freq, fixed);
    if scalable > 0.0 then
      var f := (target - FixedReturn(base, freq, fixed)) / scalable;
      if f > 0.0 then f else 0.0
    else 0.0
  }

  function ScaledLine(m: real, factor: real): real { Round(m * factor) as real }

  /** The lines of `base`, fixed ones as they were, the others scaled and rounded. */
  ghost predicate Scaled(lines: Paytable, base: Paytable, factor: real, fixed: set<LineKey>) {
    && lines.Keys == base.Keys
    && forall k :: k in base ==>
         if k in fixed then lines[k] == base[k]
         else lines[k] == ScaledLine(base[k], factor)
  }

  predicate IsInteger(x: real) { x.Floor as real == x }

  method FitLinesToTarget(base: Paytable, freq: Frequencies, targetBp: real, fixed: seq<LineKey>) returns (fit: Fit)
    ensures var fixedSet := set k | k in fixed;
            && fit.factor == Factor(base, freq, targetBp / 10000.0, fixedSet)
            && Scaled(fit.lines, base, fit.factor, fixedSet)
            && fit.fittedBp == Round(Return(fit.lines, freq) * 10000.0)
            && (IsShare(freq) && IsInteger(targetBp) && Reachable(base, freq, targetBp / 10000.0, fixedSet) ==>
                  targetBp - 50.0 <= fit.fittedBp as real <= targetBp + 50.0)
  {
    hide Contribution, Round, IsShare, Reachable, Scaled, ReturnOf;
    var fixedSet := set k | k in fixed;
    var fixedReturn, scalableReturn := Returns(base, freq, fixedSet);
    var target := targetBp / 10000.0;
    var factor := 0.0;
    if scalableReturn > 0.0 {
      factor := (target - fixedReturn) / scalableReturn;
      if factor < 0.0 { factor := 0.0; }
    }
    var lines := ScaleLines(base, factor, fixedSet);
    var bp := ExpectedReturnBp(lines, freq);
    if IsShare(freq) && IsInteger(targetBp) && Reachable(base, freq, target, fixedSet) {
      FitWithinFifty(base, freq, targetBp.Floor, fixedSet, lines);
    }
    return Fit(lines, factor, bp);
  }

  method Returns(base: Paytable, freq: Frequencies, fixed: set<LineKey>) returns (fixedReturn: real, scalableReturn: real)
    ensures fixedReturn == FixedReturn(base, freq, fixed) && scalableReturn == ScalableReturn(base, freq, fixed)
  {
    fixedReturn, scalableReturn := 0.0, 0.0;
    for i := 0 to |LINE_KEYS|
      invariant fixedReturn == ReturnOf(LINE_KEYS[..i], base, freq, fixed)
      invariant scalableReturn == ReturnOf(LINE_KEYS[..i], base, freq, ALL_LINES - fixed)
    {
      var k := LINE_KEYS[i];
      assert LINE_KEYS[..i + 1][..i] == LINE_KEYS[..i];
      assert k in ALL_LINES;
      if k in base {
        var contrib := Contribution(base, freq, k);
        if k in fixed { fixedReturn := fixedReturn + contrib; }
        else { scalableReturn := scalableReturn + contrib; }
      }
    }
    assert LINE_KEYS[..|LINE_KEYS|] == LINE_KEYS;
  }

  method ScaleLines(base: Paytable, factor: real, fixed: set<LineKey>) returns (lines: Paytable)
    ensures Scaled(lines, base, factor, fixed)
  {
    hide ScaledLine;
    lines := map[];
    for i := 0 to |LINE_KEYS|
      invariant forall k :: k in lines <==> k in base && k in LINE_KEYS[..i]
      invariant forall k :: k in lines ==>
                  if k in fixed then lines[k] == base[k] else lines[k] == ScaledLine(base[k], factor)
    {
      var k := LINE_KEYS[i];
      assert LINE_KEYS[..i + 1] == LINE_KEYS[..i] + [k];
      if k in base {
        lines := lines[k := if k in fixed then base[k] else ScaledLine(base[k], factor)];
      }
    }
    assert LINE_KEYS[..|LINE_KEYS|] == LINE_KEYS;
    forall k | k in base ensures k in lines { AllKeysListed(k); }
  }

  lemma RoundNear(x: real)
    ensures x - 0.5 < Round(x) as real <= x + 0.5
  {
  }

  /** One rounded line is off by at most half a hundredth of its frequency. */
  lemma RoundedLine(f: real, m: real, factor: real)
    requires f >= 0.0
    ensures var exact := factor * LineReturn(f, m);
            exact - 0.005 * f <= LineReturn(f, ScaledLine(m, factor)) <= exact + 0.005 * f
  {
    var r := Round(m * factor) as real;
    RoundNear(m * factor);
    var e := (r - m * factor) / 100.0;
    assert r / 100.0 == m * factor / 100.0 + e;
    assert -0.005 <= e <= 0.005;
    ProductNonNegative(f, 0.005 - e);
    ProductNonNegative(f, 0.005 + e);
    LineAlgebra(f, m, factor, r, e);
  }

  lemma LineAlgebra(f: real, m: real, factor: real, r: real, e: real)
    requires r / 100.0 == m * factor / 100.0 + e
    ensures f * (r / 100.0) == factor * (f * (m / 100.0)) + f * e
    ensures f * (0.005 - e) == 0.005 * f - f * e && f * (0.005 + e) == 0.005 * f + f * e
  {
    var q := m / 100.0;
    assert m * factor / 100.0 == q * factor;
    assert f * (q * factor + e) == f * (q * factor) + f * e;
    assert f * (q * factor) == factor * (f * q);
  }

  /** The return the unrounded scaling would have. */
  ghost function Exact(keys: seq<LineKey>, base: Paytable, freq: Frequencies, factor: real, fixed: set<LineKey>): real {
    ReturnOf(keys, base, freq, fixed) + factor * ReturnOf(keys, base, freq, ALL_LINES - fixed)
  }

  ghost function ExactKey(k: LineKey, base: Paytable, freq: Frequencies, factor: real, fixed: set<LineKey>): real {
    if k in fixed then Contribution(base, freq, k) else factor * Contribution(base, freq, k)
  }

  lemma ExactStep(keys: seq<LineKey>, k: LineKey, base: Paytable, freq: Frequencies, factor: real, fixed: set<LineKey>)
    requires k in ALL_LINES
    ensures Exact(keys + [k], base, freq, factor, fixed)
         == Exact(keys, base, freq, factor, fixed) + ExactKey(k, base, freq, factor, fixed)
  {
    hide Contribution;
    assert (keys + [k])[..|keys|] == keys;
    if k !in fixed {
      Distribute(factor, ReturnOf(keys, base, freq, ALL_LINES - fixed), Contribution(base, freq, k));
    }
  }

  lemma ReturnStep(keys: seq<LineKey>, k: LineKey, lines: Paytable, freq: Frequencies)
    requires k in ALL_LINES
    ensures ReturnOf(keys + [k], lines, freq, ALL_LINES) == ReturnOf(keys, lines, freq, ALL_LINES) + Contribution(lines, freq, k)
    ensures TotalFreq(keys + [k], freq) == TotalFreq(keys, freq) + Freq(freq, k)
  {
    hide Contribution, Freq;
    assert (keys + [k])[..|keys|] == keys;
  }

  lemma NothingExact(base: Paytable, freq: Frequencies, factor: real, fixed: set<LineKey>)
    ensures Exact([], base, freq, factor, fixed) == 0.0
  {
  }

  /** Rounding errors add up to at most half a hundredth of the frequencies' total. */
  lemma {:induction false} RoundedReturn(keys: seq<LineKey>, lines: Paytable, base: Paytable, freq: Frequencies, factor: real, fixed: set<LineKey>)
    requires Scaled(lines, base, factor, fixed) && forall k :: Freq(freq, k) >= 0.0
    requires forall k :: k in keys ==> k in ALL_LINES
    ensures var exact, slack := Exact(keys, base, freq, factor, fixed), 0.005 * TotalFreq(keys, freq);
            exact - slack <= ReturnOf(keys, lines, freq, ALL_LINES) <= exact + slack
  {
    hide Contribution, Freq, Scaled, Exact, ExactKey;
    if keys == [] {
      NothingExact(base, freq, factor, fixed);
      return;
    }
    var n := |keys| - 1;
    var rest, k := keys[..n], keys[n];
    assert keys == rest + [k] && k in keys;
    RoundedReturn(rest, lines, base, freq, factor, fixed);
    RoundedKey(k, lines, base, freq, factor, fixed);
    ExactStep(rest, k, base, freq, factor, fixed);
    ReturnStep(rest, k, lines, freq);
  }

  lemma Distribute(a: real, b: real, c: real)
    ensures a * (b + c) == a * b + a * c
  {
  }

  lemma RoundedKey(k: LineKey, lines: Paytable, base: Paytable, freq: Frequencies, factor: real, fixed: set<LineKey>)
    requires Scaled(lines, base, factor, fixed) && Freq(freq, k) >= 0.0
    ensures var exact, slack := ExactKey(k, base, freq, factor, fixed), 0.005 * Freq(freq, k);
            exact - slack <= Contribution(lines, freq, k) <= exact + slack
  {
    hide ScaledLine, LineReturn;
    if k in base && k !in fixed {
      RoundedLine(Freq(freq, k), base[k], factor);
    }
  }

  /** Reachable targets: the fixed lines alone stay within the target, and there is something to
      scale. */
  ghost predicate Reachable(base: Paytable, freq: Frequencies, target: real, fixed: set<LineKey>) {
    FixedReturn(base, freq, fixed) <= target && ScalableReturn(base, freq, fixed) > 0.0
  }

  lemma FactorHitsTarget(base: Paytable, freq: Frequencies, target: real, fixed: set<LineKey>)
    requires Reachable(base, freq, target, fixed)
    ensures Factor(base, freq, target, fixed) >= 0.0
    ensures Exact(LINE_KEYS, base, freq, Factor(base, freq, target, fixed), fixed) == target
  {
    hide ReturnOf;
    var s, d := ScalableReturn(base, freq, fixed), target - FixedReturn(base, freq, fixed);
    DivideBack(d, s);
  }

  lemma DivideBack(d: real, s: real)
    requires s > 0.0 && d >= 0.0
    ensures d / s >= 0.0 && (d / s) * s == d
  {
  }

  lemma AllListed()
    ensures forall k :: k in LINE_KEYS ==> k in ALL_LINES
  {
  }

  /** The calibrated paytable returns an integer target to within 50 basis points, however the
      lines round. */
  lemma FitWithinFifty(base: Paytable, freq: Frequencies, targetBp: int, fixed: set<LineKey>, lines: Paytable)
    requires IsShare(freq) && Reachable(base, freq, targetBp as real / 10000.0, fixed)
    requires Scaled(lines, base, Factor(base, freq, targetBp as real / 10000.0, fixed), fixed)
    ensures targetBp - 50 <= Round(Return(lines, freq) * 10000.0) <= targetBp + 50
  {
    hide ReturnOf, TotalFreq, Scaled, Freq, Factor, Reachable, Exact;
    var target := targetBp as real / 10000.0;
    var factor := Factor(base, freq, target, fixed);
    FactorHitsTarget(base, freq, target, fixed);
    AllListed();
    RoundedReturn(LINE_KEYS, lines, base, freq, factor, fixed);
    var x := Return(lines, freq) * 10000.0;
    assert targetBp as real - 50.0 <= x <= targetBp as real + 50.0;
    RoundBetween(x, targetBp - 50, targetBp + 50);
  }

  lemma RoundBetween(x: real, lo: int, hi: int)
    requires lo as real <= x <= hi as real
    ensures lo <= Round(x) <= hi
  {
  }

  /** An unreachable target gets no play rows: every line that is not fixed pays nothing, and the
      fitted return is that of the fixed lines alone, rounded. */
  lemma UnreachableFit(base: Paytable, freq: Frequencies, target: real, fixed: set<LineKey>, lines: Paytable)
    requires !Reachable(base, freq, target, fixed)
    requires Scaled(lines, base, Factor(base, freq, target, fixed), fixed)
    ensures Factor(base, freq, target, fixed) == 0.0
    ensures forall k :: k in lines && k !in fixed ==> lines[k] == 0.0
    ensures Return(lines, freq) == FixedReturn(base, freq, fixed)
  {
    hide ReturnOf, Factor, Reachable;
    NoFactor(base, freq, target, fixed);
    forall k | k in lines && k !in fixed ensures lines[k] == 0.0 {
      assert ScaledLine(base[k], 0.0) == 0.0;
    }
    AllListed();
    OnlyFixed(LINE_KEYS, lines, base, freq, fixed);
  }

  lemma NoFactor(base: Paytable, freq: Frequencies, target: real, fixed: set<LineKey>)
    requires !Reachable(base, freq, target, fixed)
    ensures Factor(base, freq, target, fixed) == 0.0
  {
    hide ReturnOf;
    var s, d := ScalableReturn(base, freq, fixed), target - FixedReturn(base, freq, fixed);
    if s > 0.0 { NegativeQuotient(d, s); }
  }

  lemma NegativeQuotient(d: real, s: real)
    requires s > 0.0 && d < 0.0
    ensures d / s < 0.0
  {
  }

  lemma {:induction false} OnlyFixed(keys: seq<LineKey>, lines: Paytable, base: Paytable, freq: Frequencies, fixed: set<LineKey>)
    requires Scaled(lines, base, 0.0, fixed) && forall k :: k in lines && k !in fixed ==> lines[k] == 0.0
    requires forall k :: k in keys ==> k in ALL_LINES
    ensures ReturnOf(keys, lines, freq, ALL_LINES) == ReturnOf(keys, base, freq, fixed)
  {
    if keys != [] {
      var n := |keys| - 1;
      assert keys[n] in keys;
      OnlyFixed(keys[..n], lines, base, freq, fixed);
    }
  }

  /** By default the empty-reel rows are the fixed ones, and stay exactly as they are. */
  lemma EmptyReelsFixed(base: Paytable, factor: real, lines: Paytable)
    requires Scaled(lines, base, factor, set k | k in FIXED_LINES)
    ensures forall k :: k in base && k.symbol == NONE ==> k in lines && lines[k] == base[k]
    ensures forall k :: k in base && k.symbol != NONE ==> k in lines && lines[k] == Round(base[k] * factor) as real
  {
    assert FIXED_LINES[0] == Any2(NONE) && FIXED_LINES[1] == All3(NONE);
  }

  /** Asking for a higher return never lowers a line. */
  lemma FitMonotone(base: Paytable, freq: Frequencies, t: real, t': real, fixed: set<LineKey>, lines: Paytable, lines': Paytable)
    requires t <= t' && forall k :: k in base ==> base[k] >= 0.0
    requires Scaled(lines, base, Factor(base, freq, t, fixed), fixed)
    requires Scaled(lines', base, Factor(base, freq, t', fixed), fixed)
    ensures forall k :: k in base ==> lines[k] <= lines'[k]
  {
    hide ReturnOf, Factor, ScaledLine;
    FactorMonotone(base, freq, t, t', fixed);
    var f, f' := Factor(base, freq, t, fixed), Factor(base, freq, t', fixed);
    forall k | k in base ensures lines[k] <= lines'[k] {
      ScaleMonotone(base[k], f, f');
    }
  }

  lemma ScaleMonotone(m: real, f: real, f': real)
    requires m >= 0.0 && f <= f'
    ensures ScaledLine(m, f) <= ScaledLine(m, f')
  {
    ProductNonNegative(m, f' - f);
    assert m * (f' - f) == m * f' - m * f;
    RoundOrder(m * f, m * f');
  }

  lemma RoundOrder(x: real, y: real)
    requires x <= y
    ensures Round(x) <= Round(y)
  {
  }

  lemma QuotientMonotone(x: real, y: real, s: real)
    requires s > 0.0 && x <= y
    ensures x / s <= y / s
  {
    CancelFrom(x / s, y / s, s, x, y);
  }

  lemma FactorMonotone(base: Paytable, freq: Frequencies, t: real, t': real, fixed: set<LineKey>)
    requires t <= t'
    ensures Factor(base, freq, t, fixed) <= Factor(base, freq, t', fixed)
  {
    hide ReturnOf;
    var s, fr := ScalableReturn(base, freq, fixed), FixedReturn(base, freq, fixed);
    if s > 0.0 {
      QuotientMonotone(t - fr, t' - fr, s);
    }
  }
}
