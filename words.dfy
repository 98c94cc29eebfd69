/** Unsigned 16-bit words and their byte encoding (`struct` format "H",
    fixed here to little-endian). */
module Words {

  type Byte = x: int | 0 <= x < 0x100

  type U16 = x: int | 0 <= x < 0x1_0000

  /** Position of channel `ch` of sample `i` in a payload interleaved over `n` channels. */
  function Slot(i: nat, ch: nat, n: nat): nat
  {
    i * n + ch
  }

  lemma SlotBound(i: nat, ch: nat, n: nat, k: nat)
    requires i < k && ch < n
    ensures Slot(i, ch, n) < k * n
  {
    MulLeq(i + 1, k, n);
    assert (i + 1) * n == i * n + n;
  }

  /** Multiplication by a natural is monotone. */
  lemma {:induction false} MulLeq(a: nat, b: nat, n: nat)
    requires a <= b
    ensures a * n <= b * n
    decreases b - a
  {
    if a < b {
      MulLeq(a, b - 1, n);
      assert b * n == (b - 1) * n + n;
    }
  }

  /** The first `m` samples of channel `j` in a payload interleaved over `n`
      channels. */
  function ChannelSeries(p: seq<U16>, n: nat, j: nat, m: nat): (r: seq<U16>)
    requires j < n && m * n <= |p|
    ensures |r| == m
    ensures forall s :: 0 <= s < m ==> Slot(s, j, n) < |p| && r[s] == p[Slot(s, j, n)]
  {
    if m == 0 then []
    else
      SlotBound(m - 1, j, n, m);
      SlotBound(m - 1, 0, n, m);
      ChannelSeries(p, n, j, m - 1) + [p[Slot(m - 1, j, n)]]
  }

  /** `struct.pack(f"{n}H", *ws)`: two bytes per word, low byte first. */
  function EncodeWords(ws: seq<U16>): (bs: seq<Byte>)
    ensures |bs| == 2 * |ws|
  {
    if ws == [] then []
    else EncodeWords(ws[..|ws| - 1]) + [ws[|ws| - 1] % 0x100, ws[|ws| - 1] / 0x100]
  }

  /** `struct.unpack(f"{n // 2}H", bs)` for an even number of bytes. */
  function DecodeWords(bs: seq<Byte>): (ws: seq<U16>)
    requires |bs| % 2 == 0
    ensures |ws| == |bs| / 2
  {
    if bs == [] then []
    else DecodeWords(bs[..|bs| - 2]) + [bs[|bs| - 2] as int + 0x100 * (bs[|bs| - 1] as int)]
  }

  lemma {:induction false} DecodeEncode(ws: seq<U16>)
    ensures DecodeWords(EncodeWords(ws)) == ws
  {
    if ws != [] {
      var init := ws[..|ws| - 1];
      var bs := EncodeWords(ws);
      assert bs[..|bs| - 2] == EncodeWords(init);
      DecodeEncode(init);
      assert ws == init + [ws[|ws| - 1]];
    }
  }

  lemma {:induction false} EncodeDecode(bs: seq<Byte>)
    requires |bs| % 2 == 0
    ensures EncodeWords(DecodeWords(bs)) == bs
  {
    if bs != [] {
      var init := bs[..|bs| - 2];
      var ws := DecodeWords(bs);
      assert ws[..|ws| - 1] == DecodeWords(init);
      EncodeDecode(init);
      assert bs == init + [bs[|bs| - 2], bs[|bs| - 1]];
    }
  }
}
