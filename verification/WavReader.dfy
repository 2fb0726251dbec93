/** Resampling, and the looping reader over the samples (`zakuro/src/wav_reader.rs`). Positions between samples are exact
    fractions. */
module WavReader {
  import opened Arithmetic
  import opened Bytes
  import opened Outcomes
  import Downmix
  import RiffWave

  const TARGET_RATE: nat := 48000

  /** Between `a` and `b`, `num / den` of the way, truncated toward zero. */
  function Between(a: int, b: int, num: nat, den: nat): int
    requires den > 0
  {
    TruncDiv(a * den + (b - a) * num, den)
  }

  /** Sample `i` of the output lies at `i * inRate / outRate` of the input: the whole part, and the rest in `outRate`ths. */
  function IndexOf(i: nat, inRate: nat, outRate: nat): nat
    requires outRate > 0
  {
    i * inRate / outRate
  }

  function RestOf(i: nat, inRate: nat, outRate: nat): (r: nat)
    requires outRate > 0
    ensures r < outRate
  {
    i * inRate % outRate
  }

  function LengthOf(n: nat, inRate: nat, outRate: nat): nat
    requires inRate > 0
  {
    n * outRate / inRate
  }

  function Resampled(input: seq<int>, inRate: nat, outRate: nat, i: nat): int
    requires input != [] && outRate > 0
  {
    var index := IndexOf(i, inRate, outRate);
    if index >= |input| - 1 then input[|input| - 1]
    else Between(input[index], input[index + 1], RestOf(i, inRate, outRate), outRate)
  }

  function Resample(input: seq<int>, inRate: nat, outRate: nat): seq<int>
    requires inRate > 0 && outRate > 0
  {
    if input == [] || inRate == outRate then input
    else seq(LengthOf(|input|, inRate, outRate), i requires 0 <= i => Resampled(input, inRate, outRate, i))
  }

  lemma TruncBounds(x: int, d: nat, low: int, high: int)
    requires d > 0 && low * d <= x <= high * d
    ensures low <= TruncDiv(x, d) <= high
  {
    if x >= 0 {
      QuotientIs(low * d, d, low, 0);
      QuotientIs(high * d, d, high, 0);
      DivMonotone(low * d, x, d);
      DivMonotone(x, high * d, d);
    } else {
      assert (-low) * d == -(low * d) && (-high) * d == -(high * d);
      QuotientIs((-low) * d, d, -low, 0);
      QuotientIs((-high) * d, d, -high, 0);
      DivMonotone(-x, (-low) * d, d);
      DivMonotone((-high) * d, -x, d);
    }
  }

  lemma BetweenBounds(a: int, b: int, num: nat, den: nat)
    requires num < den
    ensures a <= b ==> a <= Between(a, b, num, den) <= b
    ensures b <= a ==> b <= Between(a, b, num, den) <= a
    ensures num == 0 ==> Between(a, b, num, den) == a
  {
    var x := a * den + (b - a) * num;
    assert x == a * (den - num) + b * num;
    if a <= b {
      MulLe(num, a, b);
      MulLe(den - num, a, b);
      assert a * den == a * (den - num) + a * num && b * den == b * (den - num) + b * num;
      TruncBounds(x, den, a, b);
    } else {
      MulLe(num, b, a);
      MulLe(den - num, b, a);
      assert a * den == a * (den - num) + a * num && b * den == b * (den - num) + b * num;
      TruncBounds(x, den, b, a);
    }
    if num == 0 {
      TruncBounds(x, den, a, a);
    }
  }

  lemma ResampleAt(input: seq<int>, inRate: nat, outRate: nat)
    requires inRate > 0 && outRate > 0 && input != [] && inRate != outRate
    ensures var r := Resample(input, inRate, outRate);
            |r| == LengthOf(|input|, inRate, outRate) && forall i :: 0 <= i < |r| ==> r[i] == Resampled(input, inRate, outRate, i)
  {
  }

  /** The output has floor(n * out / in) samples. Each lies between the two input samples around its position, and is the
      input sample where it falls on one; behind the last, it is the last. */
  lemma ResampleMeans(input: seq<int>, inRate: nat, outRate: nat, i: nat)
    requires inRate > 0 && outRate > 0 && i < |Resample(input, inRate, outRate)|
    ensures |Resample(input, inRate, outRate)| == LengthOf(|input|, inRate, outRate)
    ensures var x, index := Resample(input, inRate, outRate)[i], IndexOf(i, inRate, outRate);
            && index < |input|
            && (RestOf(i, inRate, outRate) == 0 || index == |input| - 1 ==> x == input[index])
            && (index < |input| - 1 ==>
                  (input[index] <= x <= input[index + 1] || input[index + 1] <= x <= input[index]))
  {
    SamePlace(|input|, inRate, outRate, i);
    var index, rest := IndexOf(i, inRate, outRate), RestOf(i, inRate, outRate);
    if inRate != outRate && input != [] {
      ResampleAt(input, inRate, outRate);
      hide Resample, IndexOf, RestOf, LengthOf, Between;
      if index < |input| - 1 {
        BetweenBounds(input[index], input[index + 1], rest, outRate);
      }
    } else {
      hide IndexOf, RestOf, LengthOf;
    }
  }

  /** On the straight line from `a` to `b`, `t` of the way. */
  function Line(a: int, b: int, t: real): real {
    a as real + (b - a) as real * t
  }

  lemma BetweenOnLine(a: int, b: int, num: nat, den: nat)
    requires num < den
    ensures Truncates(Between(a, b, num, den), Line(a, b, num as real / den as real))
  {
    TruncDivTruncates(a * den + (b - a) * num, den);
    LineIs(a, b, num, den);
  }

  lemma LineIs(a: int, b: int, num: nat, den: nat)
    requires den > 0
    ensures Line(a, b, num as real / den as real) == (a * den + (b - a) * num) as real / den as real
  {
    var t, d := num as real / den as real, den as real;
    assert t * d == num as real;
    assert ((b - a) as real * t) * d == (b - a) as real * (t * d);
    assert (a as real + (b - a) as real * t) * d == a as real * d + ((b - a) as real * t) * d;
    assert Line(a, b, t) * d == (a * den + (b - a) * num) as real;
    assert (Line(a, b, t) * d) / d == Line(a, b, t);
  }

  /** The place of output sample `i` in the input. */
  lemma PlaceIs(i: nat, inRate: nat, outRate: nat)
    requires outRate > 0
    ensures var p := (i * inRate) as real / outRate as real;
            && p.Floor == IndexOf(i, inRate, outRate)
            && p - p.Floor as real == RestOf(i, inRate, outRate) as real / outRate as real
  {
    var n, q, r := i * inRate, IndexOf(i, inRate, outRate), RestOf(i, inRate, outRate);
    assert n == q * outRate + r;
    QuotientReal(n, outRate, q);
    var p, t, d := n as real / outRate as real, r as real / outRate as real, outRate as real;
    assert p * d == n as real && t * d == r as real;
    assert (q as real + t) * d == q as real * d + t * d;
    assert (p - (q as real + t)) * d == 0.0;
  }

  /** Sample `x` at the place `p`: on the straight line between its neighbours, without its fraction; behind the last
      sample it is the last. */
  predicate OnLine(input: seq<int>, x: int, p: real) {
    && 0 <= p.Floor < |input|
    && (p.Floor == |input| - 1 ==> x == input[p.Floor])
    && (p.Floor < |input| - 1 ==> Truncates(x, Line(input[p.Floor], input[p.Floor + 1], p - p.Floor as real)))
  }

  lemma ResampledOnLine(input: seq<int>, inRate: nat, outRate: nat, i: nat)
    requires outRate > 0 && IndexOf(i, inRate, outRate) < |input|
    ensures OnLine(input, Resampled(input, inRate, outRate, i), (i * inRate) as real / outRate as real)
  {
    PlaceIs(i, inRate, outRate);
    var index := IndexOf(i, inRate, outRate);
    if index < |input| - 1 {
      BetweenOnLine(input[index], input[index + 1], RestOf(i, inRate, outRate), outRate);
    }
    hide IndexOf, RestOf, Between, Line, Truncates;
  }

  lemma SameOnLine(input: seq<int>, rate: nat, i: nat)
    requires rate > 0 && i < |input|
    ensures OnLine(input, input[i], (i * rate) as real / rate as real)
  {
    SamePlace(|input|, rate, rate, i);
    PlaceIs(i, rate, rate);
    if i < |input| - 1 {
      LineStarts(input[i], input[i + 1]);
    }
    hide IndexOf, RestOf, Line, Truncates;
  }

  /** Each sample of the output lies on the line at its place. */
  lemma ResampleOnLine(input: seq<int>, inRate: nat, outRate: nat, i: nat)
    requires inRate > 0 && outRate > 0 && i < |Resample(input, inRate, outRate)|
    ensures OnLine(input, Resample(input, inRate, outRate)[i], (i * inRate) as real / outRate as real)
  {
    hide OnLine, Resampled, IndexOf, RestOf, LengthOf;
    SamePlace(|input|, inRate, outRate, i);
    if inRate != outRate && input != [] {
      ResampleAt(input, inRate, outRate);
      ResampledOnLine(input, inRate, outRate, i);
    } else {
      SameOnLine(input, inRate, i);
    }
  }

  lemma LineStarts(a: int, b: int)
    ensures Truncates(a, Line(a, b, 0.0))
  {
    assert (b - a) as real * 0.0 == 0.0;
  }

  /** Every output position lies inside the input; with equal rates it is the same place. */
  lemma SamePlace(n: nat, inRate: nat, outRate: nat, i: nat)
    requires inRate > 0 && outRate > 0
    ensures inRate == outRate ==>
              LengthOf(n, inRate, outRate) == n && IndexOf(i, inRate, outRate) == i && RestOf(i, inRate, outRate) == 0
    ensures i < LengthOf(n, inRate, outRate) ==> IndexOf(i, inRate, outRate) < n
  {
    if inRate == outRate {
      QuotientIs(n * outRate, inRate, n, 0);
      QuotientIs(i * inRate, outRate, i, 0);
    }
    var q := n * outRate / inRate;
    if i < q {
      assert n * outRate == q * inRate + n * outRate % inRate;
      MulLe(inRate, i + 1, q);
      assert i * inRate < n * outRate;
      var p := i * inRate / outRate;
      assert i * inRate == p * outRate + i * inRate % outRate;
      if p >= n {
        MulLe(outRate, n, p);
      }
    }
  }

  method ResampleAll(input: seq<int>, inRate: nat, outRate: nat) returns (output: seq<int>)
    requires inRate > 0 && outRate > 0
    ensures output == Resample(input, inRate, outRate)
  {
    if input == [] || inRate == outRate { return input; }
    ResampleAt(input, inRate, outRate);
    hide Resample, Between, IndexOf, RestOf, LengthOf;
    var length := LengthOf(|input|, inRate, outRate);
    output := [];
    var last := |input| - 1;
    for i := 0 to length
      invariant output == Resample(input, inRate, outRate)[..i]
    {
      var index := IndexOf(i, inRate, outRate);
      var x;
      if index >= last {
        x := input[last];
      } else {
        x := Between(input[index], input[index + 1], RestOf(i, inRate, outRate), outRate);
      }
      assert x == Resampled(input, inRate, outRate, i);
      output := output + [x];
    }
  }

  // ----- the reader -----

  class Reader {
    const samples: seq<int>
    var cursor: nat
    /** How many samples have been delivered in all. */
    ghost var delivered: nat

    ghost predicate Valid()
      reads this
    {
      samples != [] && cursor == delivered % |samples|
    }

    constructor (samples: seq<int>)
      requires samples != []
      ensures Valid() && this.samples == samples && delivered == 0
    {
      this.samples, cursor, delivered := samples, 0, 0;
    }

    /** Whatever the sizes of the reads: sample `k` of all that is ever delivered is sample `k mod n` of the file. */
    method ReadSamples(buf: array<int>)
      requires Valid()
      modifies this, buf
      ensures Valid() && delivered == old(delivered) + buf.Length
      ensures forall i :: 0 <= i < buf.Length ==> buf[i] == samples[(old(delivered) + i) % |samples|]
    {
      for i := 0 to buf.Length
        invariant Valid() && delivered == old(delivered) + i
        invariant forall j :: 0 <= j < i ==> buf[j] == samples[(old(delivered) + j) % |samples|]
      {
        buf[i] := samples[cursor];
        NextModulo(delivered, |samples|);
        cursor := cursor + 1;
        if cursor >= |samples| { cursor := 0; }
        delivered := delivered + 1;
      }
    }
  }

  /** The samples a file plays. */
  function Plays(buf: seq<byte>): Option<seq<int>> {
    match RiffWave.Parse(buf)
    case Err(_) => None
    case Ok(wav) =>
      RateIsPositive(buf);
      var samples := Resample(Downmix.Mono(wav.samples, wav.channels), wav.rate, TARGET_RATE);
      if samples == [] then None else Some(samples)
  }

  lemma RateIsPositive(buf: seq<byte>)
    requires RiffWave.Parse(buf).Ok?
    ensures RiffWave.Parse(buf).value.rate > 0 && RiffWave.Parse(buf).value.channels > 0
  {
  }

  method FromBytes(buf: seq<byte>) returns (reader: Option<Reader>)
    ensures match Plays(buf)
            case None => reader.None?
            case Some(samples) =>
              reader.Some? && fresh(reader.value) && reader.value.Valid() && reader.value.samples == samples
              && reader.value.delivered == 0
  {
    var parsed := RiffWave.ParseWav(buf);
    if parsed.Err? { return None; }
    RateIsPositive(buf);
    var mono := Downmix.DownmixToMono(parsed.value.samples, parsed.value.channels);
    var resampled := ResampleAll(mono, parsed.value.rate, TARGET_RATE);
    if resampled == [] { return None; }
    var r := new Reader(resampled);
    return Some(r);
  }
}
