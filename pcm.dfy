/** Interleaved 16-bit PCM as it arrives from the capture pipe: decoding the
    bytes into samples (`np.frombuffer(data, dtype=np.int16)` on a
    little-endian machine), encoding them back (`tobytes`), splitting the
    samples into one stride per channel (`samples[i::channels]`) and
    putting the channels back together. */
module Pcm {
  import opened Common

  /** The sample whose little-endian encoding is `lo`, `hi`. */
  function Decode16(lo: byte, hi: byte): (x: int16)
    ensures (x as int + 0x1_0000) % 0x1_0000 == lo as int + 0x100 * hi as int
    ensures x < 0 <==> hi >= 0x80
  {
    var u := lo as int + 0x100 * hi as int;
    (if u < 0x8000 then u else u - 0x1_0000) as int16
  }

  /** The low byte of a sample's two's-complement encoding. */
  function Low(x: int16): byte
  {
    ((x as int + 0x1_0000) % 0x100) as byte
  }

  /** The high byte of a sample's two's-complement encoding. */
  function High(x: int16): byte
  {
    (((x as int + 0x1_0000) % 0x1_0000) / 0x100) as byte
  }

  lemma DecodeEncode16(x: int16)
    ensures Decode16(Low(x), High(x)) == x
  {
  }

  lemma EncodeDecode16(lo: byte, hi: byte)
    ensures Low(Decode16(lo, hi)) == lo && High(Decode16(lo, hi)) == hi
  {
  }

  /** `np.frombuffer(data, dtype=np.int16)`; numpy refuses a buffer of odd
      length. */
  function Samples(data: seq<byte>): (s: seq<int16>)
    requires |data| % 2 == 0
    ensures 2 * |s| == |data|
    ensures forall k :: 0 <= k < |s| ==> s[k] == Decode16(data[2 * k], data[2 * k + 1])
    decreases |data|
  {
    if data == [] then []
    else [Decode16(data[0], data[1])] + Samples(data[2..])
  }

  /** `tobytes()` on an int16 array. */
  function ToBytes(s: seq<int16>): (data: seq<byte>)
    ensures |data| == 2 * |s|
    ensures forall k :: 0 <= k < |s| ==> data[2 * k] == Low(s[k]) && data[2 * k + 1] == High(s[k])
  {
    if s == [] then []
    else [Low(s[0]), High(s[0])] + ToBytes(s[1..])
  }

  lemma SamplesOfBytes(s: seq<int16>)
    ensures Samples(ToBytes(s)) == s
  {
    var r := Samples(ToBytes(s));
    forall k | 0 <= k < |s|
      ensures r[k] == s[k]
    {
      DecodeEncode16(s[k]);
    }
  }

  lemma {:induction false} BytesOfSamples(data: seq<byte>)
    requires |data| % 2 == 0
    ensures ToBytes(Samples(data)) == data
    decreases |data|
  {
    if data != [] {
      var s := Samples(data);
      assert s == [Decode16(data[0], data[1])] + Samples(data[2..]);
      assert s[1..] == Samples(data[2..]);
      BytesOfSamples(data[2..]);
      EncodeDecode16(data[0], data[1]);
      assert data == [data[0], data[1]] + data[2..];
    }
  }

  /** `s[i::c]`: the elements at `i`, `i + c`, `i + 2c`, ... */
  function Stride(s: seq<int16>, i: nat, c: nat): seq<int16>
    requires c > 0
    decreases |s| - i
  {
    if i >= |s| then [] else [s[i]] + Stride(s, i + c, c)
  }

  /** Position `k` of `s[i::c]` holds `s[i + k * c]`. */
  lemma {:induction false} StrideAt(s: seq<int16>, i: nat, c: nat, k: nat)
    requires c > 0 && k < |Stride(s, i, c)|
    ensures i + k * c < |s| && Stride(s, i, c)[k] == s[i + k * c]
    decreases k
  {
    if k > 0 {
      StrideAt(s, i + c, c, k - 1);
      MulSucc(k - 1, c);
    }
  }

  /** `s[i::c]` runs to the end of `s`: one more step would leave it. */
  lemma {:induction false} StrideReachesEnd(s: seq<int16>, i: nat, c: nat)
    requires c > 0
    ensures i + |Stride(s, i, c)| * c >= |s|
    decreases |s| - i
  {
    if i < |s| {
      StrideReachesEnd(s, i + c, c);
      MulSucc(|Stride(s, i + c, c)|, c);
    }
  }

  /** The stride of residue `i < c` through `n * c` elements has `n` of them. */
  lemma StrideLength(s: seq<int16>, i: nat, c: nat, n: nat)
    requires c > 0 && i < c && |s| == n * c
    ensures |Stride(s, i, c)| == n
  {
    var r := Stride(s, i, c);
    StrideReachesEnd(s, i, c);
    MulSucc(|r|, c);
    MulLess(n, |r| + 1, c);
    if |r| > 0 {
      StrideAt(s, i, c, |r| - 1);
      MulLess(|r| - 1, n, c);
    }
  }

  lemma MulSucc(k: nat, c: nat)
    ensures (k + 1) * c == k * c + c
  {
  }

  lemma {:induction false} MulMonotone(a: nat, b: nat, c: nat)
    requires a <= b
    ensures a * c <= b * c
  {
    if a < b {
      MulMonotone(a, b - 1, c);
      MulSucc(b - 1, c);
    }
  }

  /** Multiplying by a positive `c` keeps the order of naturals. */
  lemma MulLess(a: nat, b: nat, c: nat)
    requires c > 0
    ensures a < b <==> a * c < b * c
  {
    if a < b {
      MulMonotone(a + 1, b, c);
      MulSucc(a, c);
    } else {
      MulMonotone(b, a, c);
    }
  }

  lemma DivMod(k: nat, c: nat)
    requires c > 0
    ensures k == (k / c) * c + k % c && 0 <= k % c < c
  {
  }

  /** Division by `c` recovers the quotient and remainder `k` was built from. */
  lemma ModDivUnique(k: nat, c: nat, i: nat, q: nat)
    requires c > 0 && i < c && k == i + q * c
    ensures k % c == i && k / c == q
  {
    DivMod(k, c);
    var q' := k / c;
    MulSucc(q', c);
    MulSucc(q, c);
    MulLess(q', q + 1, c);
    MulLess(q, q' + 1, c);
  }

  /** `[samples[i::channels] for i in range(channels)]` */
  function Demux(s: seq<int16>, c: nat): (chs: seq<seq<int16>>)
    requires c > 0
    ensures |chs| == c
    ensures forall i :: 0 <= i < c ==> chs[i] == Stride(s, i, c)
  {
    seq(c, i requires 0 <= i < c => Stride(s, i, c))
  }

  /** Channel `i` of `Demux(s, c)` holds sample `i + k * c` at position `k`. */
  lemma DemuxSample(s: seq<int16>, c: nat, i: nat, k: nat)
    requires c > 0 && i < c && i + k * c < |s|
    ensures k < |Demux(s, c)[i]| && Demux(s, c)[i][k] == s[i + k * c]
  {
    var r := Stride(s, i, c);
    StrideReachesEnd(s, i, c);
    MulLess(k, |r|, c);
    StrideAt(s, i, c, k);
  }

  /** `c` channels of `n` samples each, one sample of each channel in turn. */
  function Interleave(chs: seq<seq<int16>>, c: nat, n: nat): (s: seq<int16>)
    requires c > 0 && |chs| == c
    requires forall i :: 0 <= i < c ==> |chs[i]| == n
    ensures |s| == n * c
  {
    seq(n * c, k requires 0 <= k < n * c => DivBound(k, c, n); chs[k % c][k / c])
  }

  lemma DivBound(k: nat, c: nat, n: nat)
    requires c > 0 && k < n * c
    ensures k / c < n
  {
    DivMod(k, c);
    MulLess(k / c, n, c);
  }

  /** A frame whose length is a multiple of the channel count splits into
      channels of equal length, and putting them back together gives the
      frame again. */
  lemma InterleaveDemux(s: seq<int16>, c: nat, n: nat)
    requires c > 0 && |s| == n * c
    ensures forall i :: 0 <= i < c ==> |Demux(s, c)[i]| == n
    ensures Interleave(Demux(s, c), c, n) == s
  {
    var chs := Demux(s, c);
    forall i | 0 <= i < c
      ensures |chs[i]| == n
    {
      StrideLength(s, i, c, n);
    }
    var t := Interleave(chs, c, n);
    forall k | 0 <= k < |s|
      ensures t[k] == s[k]
    {
      var i, q := k % c, k / c;
      assert i + q * c == k;
      DemuxSample(s, c, i, q);
    }
  }

  /** Splitting interleaved channels gives the channels back. */
  lemma DemuxInterleave(chs: seq<seq<int16>>, c: nat, n: nat)
    requires c > 0 && |chs| == c
    requires forall i :: 0 <= i < c ==> |chs[i]| == n
    ensures Demux(Interleave(chs, c, n), c) == chs
  {
    var d := Demux(Interleave(chs, c, n), c);
    forall i | 0 <= i < c
      ensures d[i] == chs[i]
    {
      ChannelOfInterleave(chs, c, n, i);
    }
  }

  lemma InterleaveAt(chs: seq<seq<int16>>, c: nat, n: nat, k: nat)
    requires c > 0 && |chs| == c
    requires forall j :: 0 <= j < c ==> |chs[j]| == n
    requires k < n * c
    ensures k / c < n && Interleave(chs, c, n)[k] == chs[k % c][k / c]
  {
    DivBound(k, c, n);
  }

  lemma ChannelOfInterleave(chs: seq<seq<int16>>, c: nat, n: nat, i: nat)
    requires c > 0 && |chs| == c && i < c
    requires forall j :: 0 <= j < c ==> |chs[j]| == n
    ensures Stride(Interleave(chs, c, n), i, c) == chs[i]
  {
    StrideLength(Interleave(chs, c, n), i, c, n);
    forall q | 0 <= q < n
      ensures Stride(Interleave(chs, c, n), i, c)[q] == chs[i][q]
    {
      ChannelSample(chs, c, n, i, q);
    }
  }

  lemma ChannelSample(chs: seq<seq<int16>>, c: nat, n: nat, i: nat, q: nat)
    requires c > 0 && |chs| == c && i < c && q < n
    requires forall j :: 0 <= j < c ==> |chs[j]| == n
    ensures q < |Stride(Interleave(chs, c, n), i, c)|
    ensures Stride(Interleave(chs, c, n), i, c)[q] == chs[i][q]
  {
    var s := Interleave(chs, c, n);
    StrideLength(s, i, c, n);
    MulMonotone(0, q, c);
    var k: nat := i + q * c;
    assert k < n * c by {
      MulMonotone(q + 1, n, c);
      MulSucc(q, c);
    }
    assert s[k] == chs[i][q] by {
      ModDivUnique(k, c, i, q);
      InterleaveAt(chs, c, n, k);
    }
    StrideAt(s, i, c, q);
  }

  /** A full read of `bufferSize * 2 * c` bytes gives every channel
      `bufferSize` samples. */
  lemma FullFrame(data: seq<byte>, c: nat, bufferSize: nat)
    requires c > 0 && |data| == bufferSize * 2 * c
    ensures |data| % 2 == 0
    ensures forall i :: 0 <= i < c ==> |Demux(Samples(data), c)[i]| == bufferSize
  {
    assert |data| == 2 * (bufferSize * c);
    var s := Samples(data);
    assert |s| == bufferSize * c;
    InterleaveDemux(s, c, bufferSize);
  }
}
