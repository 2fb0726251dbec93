/** Averaging interleaved channels into one (`wav_reader.rs`). */
module Downmix {
  import opened Arithmetic

  function Sum(s: seq<int>): int {
    if s == [] then 0 else Sum(s[..|s| - 1]) + s[|s| - 1]
  }

  /** Sample `i` of the result: the truncated average of frame `i`. */
  function Average(samples: seq<int>, channels: nat, i: nat): int
    requires channels > 0 && (i + 1) * channels <= |samples|
  {
    MulLe(channels, i, i + 1);
    TruncDiv(Sum(samples[i * channels..(i + 1) * channels]), channels)
  }

  /** Complete frames only. */
  function Mono(samples: seq<int>, channels: nat): (r: seq<int>)
    requires channels > 0
    ensures |r| == |samples| / channels
  {
    seq(|samples| / channels, i requires 0 <= i < |samples| / channels =>
      FrameInside(samples, channels, i); Average(samples, channels, i))
  }

  lemma FrameInside(samples: seq<int>, channels: nat, i: nat)
    requires channels > 0 && i < |samples| / channels
    ensures (i + 1) * channels <= |samples|
  {
    MulLe(channels, i + 1, |samples| / channels);
  }

  /** Each sample is the mean of its frame without its fraction. */
  lemma MonoAverages(samples: seq<int>, channels: nat, i: nat)
    requires channels > 0 && i < |samples| / channels
    ensures 0 <= i * channels <= (i + 1) * channels <= |samples|
    ensures Truncates(Mono(samples, channels)[i], Sum(samples[i * channels..(i + 1) * channels]) as real / channels as real)
  {
    FrameInside(samples, channels, i);
    MulLe(channels, i, i + 1);
    TruncDivTruncates(Sum(samples[i * channels..(i + 1) * channels]), channels);
  }

  /** Of two channels it is half the sum of the two. */
  lemma MonoOfTwo(samples: seq<int>, i: nat)
    requires i < |samples| / 2
    ensures Truncates(Mono(samples, 2)[i], (samples[2 * i] + samples[2 * i + 1]) as real / 2.0)
  {
    MonoAverages(samples, 2, i);
    hide Mono;
    var a, b := samples[2 * i], samples[2 * i + 1];
    assert samples[i * 2..(i + 1) * 2] == [a, b];
    SumOfTwo(a, b);
  }

  lemma SumOfTwo(a: int, b: int)
    ensures Sum([a, b]) == a + b
  {
    var two, one := [a, b], [a];
    assert two[..1] == one && one[..0] == [];
    assert Sum(one) == a;
  }

  /** One channel is the same samples. */
  lemma MonoOfOne(samples: seq<int>)
    ensures Mono(samples, 1) == samples
  {
    forall i | 0 <= i < |samples| ensures Mono(samples, 1)[i] == samples[i] {
      FrameInside(samples, 1, i);
      var one := samples[i * 1..(i + 1) * 1];
      assert one == [samples[i]];
      assert one[..0] == [];
      assert Sum(one) == Sum(one[..0]) + samples[i];
    }
  }

  /** Dropping whole frames before or after mixing is the same. */
  lemma MonoDrop(samples: seq<int>, channels: nat, k: nat)
    requires channels > 0 && k <= |samples| / channels
    ensures k * channels <= |samples|
    ensures Mono(samples[k * channels..], channels) == Mono(samples, channels)[k..]
  {
    var n := |samples| / channels;
    MulLe(channels, k, n);
    var rest := samples[k * channels..];
    DropFrames(|samples|, channels, k);
    forall i | 0 <= i < n - k ensures Mono(rest, channels)[i] == Mono(samples, channels)[k..][i] {
      FrameInside(rest, channels, i);
      FrameInside(samples, channels, k + i);
      MulLe(channels, i, i + 1);
      assert (k + i) * channels == k * channels + i * channels;
      assert (k + i + 1) * channels == k * channels + (i + 1) * channels;
      assert rest[i * channels..(i + 1) * channels] == samples[(k + i) * channels..(k + i + 1) * channels];
    }
  }

  lemma DropFrames(len: nat, channels: nat, k: nat)
    requires channels > 0 && k <= len / channels
    ensures k * channels <= len && (len - k * channels) / channels == len / channels - k
  {
    var n, r := len / channels, len % channels;
    assert len == n * channels + r;
    MulLe(channels, k, n);
    assert len - k * channels == (n - k) * channels + r;
    QuotientIs(len - k * channels, channels, n - k, r);
  }

  /** `downmix_to_mono`. */
  method DownmixToMono(samples: seq<int>, channels: nat) returns (out: seq<int>)
    requires channels > 0
    ensures out == Mono(samples, channels)
  {
    if channels == 1 {
      MonoOfOne(samples);
      return samples;
    }
    out := [];
    var n := |samples| / channels;
    for i := 0 to n
      invariant out == Mono(samples, channels)[..i]
    {
      FrameInside(samples, channels, i);
      MulLe(channels, i, i + 1);
      var frame := samples[i * channels..(i + 1) * channels];
      var sum := 0;
      for j := 0 to |frame|
        invariant sum == Sum(frame[..j])
      {
        assert frame[..j + 1][..j] == frame[..j];
        sum := sum + frame[j];
      }
      assert frame[..|frame|] == frame;
      out := out + [TruncDiv(sum, channels)];
    }
  }
}
