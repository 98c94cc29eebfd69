/** The synthetic frame source of publish6.py: every timer tick builds one
    frame (a ten-word header followed by a channel-interleaved payload) and
    publishes it to every topic, until the round counter reaches 200. */
module Publisher {
  import opened Wrappers
  import opened Words

  /** `count` starts at 1 and no frame is built once it reaches this value. */
  const MaxCount: nat := 200

  /** Header words 0 and 1 hold the frame index in base 65535 (not 65536). */
  const IndexBase: nat := 65535

  const HeaderLength: nat := 10

  /** Sampling size in bits, header word 4. */
  const SampleBits: nat := 16

  /** The ten header words: frame index low and high, channel count, sample
      rate, sampling size, samples per channel per message, four zero slots. */
  function BuildHeader(frameIndex: nat, channel: nat, sampleRate: U16): (h: seq<U16>)
    requires 0 < channel < 0x1_0000
    requires frameIndex / IndexBase < 0x1_0000
    ensures |h| == HeaderLength
    ensures 0 <= h[0] < IndexBase && h[0] + h[1] * IndexBase == frameIndex
    ensures h[2] == channel && h[3] == sampleRate && h[4] == SampleBits
    ensures h[5] == sampleRate / channel
    ensures forall k :: 6 <= k < HeaderLength ==> h[k] == 0
  {
    [frameIndex % IndexBase, frameIndex / IndexBase, channel, sampleRate, SampleBits,
     sampleRate / channel, 0, 0, 0, 0]
  }

  /** `n` copies of `x`. */
  function Repeat(x: U16, n: nat): seq<U16>
  {
    if n == 0 then [] else Repeat(x, n - 1) + [x]
  }

  /** The payload built by the nested loop: every sample written once per channel. */
  function Interleaved(samples: seq<U16>, channel: nat): seq<U16>
  {
    if samples == [] then []
    else Interleaved(samples[..|samples| - 1], channel) + Repeat(samples[|samples| - 1], channel)
  }

  lemma {:induction false} RepeatAt(x: U16, n: nat)
    ensures |Repeat(x, n)| == n
    ensures forall k :: 0 <= k < n ==> Repeat(x, n)[k] == x
  {
    if n > 0 { RepeatAt(x, n - 1); }
  }

  /** The interleaved payload has `samples * channel` words and word
      `i * channel + ch` is sample `i`, for every channel `ch`. */
  lemma {:induction false} InterleavedAt(samples: seq<U16>, channel: nat)
    ensures |Interleaved(samples, channel)| == |samples| * channel
    ensures forall i, ch :: 0 <= i < |samples| && 0 <= ch < channel ==>
              Slot(i, ch, channel) < |samples| * channel &&
              Interleaved(samples, channel)[Slot(i, ch, channel)] == samples[i]
  {
    if samples != [] {
      var n := |samples|;
      var init := samples[..n - 1];
      var x := samples[n - 1];
      InterleavedAt(init, channel);
      RepeatAt(x, channel);
      var p := Interleaved(init, channel);
      var r := Interleaved(samples, channel);
      assert r == p + Repeat(x, channel);
      assert |r| == (n - 1) * channel + channel == n * channel;
      forall i, ch | 0 <= i < n && 0 <= ch < channel
        ensures Slot(i, ch, channel) < n * channel && r[Slot(i, ch, channel)] == samples[i]
      {
        SlotBound(i, ch, channel, n);
        if i < n - 1 {
          SlotBound(i, ch, channel, n - 1);
          assert r[Slot(i, ch, channel)] == p[Slot(i, ch, channel)] == init[i];
        } else {
          assert Slot(i, ch, channel) == |p| + ch;
          assert r[Slot(i, ch, channel)] == Repeat(x, channel)[ch];
        }
      }
    }
  }

  /** The nested append loop of publish6.py:47-50. */
  method Interleave(samples: seq<U16>, channel: nat) returns (interleaved: seq<U16>)
    ensures interleaved == Interleaved(samples, channel)
  {
    interleaved := [];
    var i := 0;
    while i < |samples|
      invariant 0 <= i <= |samples|
      invariant interleaved == Interleaved(samples[..i], channel)
    {
      var ch := 0;
      while ch < channel
        invariant 0 <= ch <= channel
        invariant interleaved == Interleaved(samples[..i], channel) + Repeat(samples[i], ch)
      {
        interleaved := interleaved + [samples[i]];
        ch := ch + 1;
      }
      assert samples[..i + 1][..i] == samples[..i];
      i := i + 1;
    }
    assert samples[..|samples|] == samples;
  }

  /** The whole message: header followed by the interleaved payload. */
  function BuildMessage(frameIndex: nat, channel: nat, sampleRate: U16, samples: seq<U16>): (m: seq<U16>)
    requires 0 < channel < 0x1_0000
    requires frameIndex / IndexBase < 0x1_0000
    ensures |m| == HeaderLength + |samples| * channel
    ensures (|m| - HeaderLength) % channel == 0
    ensures m[..HeaderLength] == BuildHeader(frameIndex, channel, sampleRate)
    ensures forall i, ch :: 0 <= i < |samples| && 0 <= ch < channel ==>
              HeaderLength + Slot(i, ch, channel) < |m| &&
              m[HeaderLength + Slot(i, ch, channel)] == samples[i]
  {
    var h := BuildHeader(frameIndex, channel, sampleRate);
    var p := Interleaved(samples, channel);
    InterleavedAt(samples, channel);
    MultipleMod(|samples|, channel);
    assert forall k :: 0 <= k < |p| ==> (h + p)[HeaderLength + k] == p[k];
    h + p
  }

  lemma MultipleMod(k: nat, n: nat)
    requires n > 0
    ensures (k * n) % n == 0
  {
    var q, r := (k * n) / n, (k * n) % n;
    assert (k - q) * n == r;
    if k - q >= 1 {
      assert false;
    } else if k - q <= -1 {
      assert false;
    }
  }

  /** Whether the broker accepted the publish to the topic at position `t`;
      outcomes not given are failures. */
  function Accepts(accepted: seq<bool>, t: nat): bool
  {
    t < |accepted| && accepted[t]
  }

  /** The (topic, message) pairs the broker received, in topic order. */
  function Deliveries(topics: seq<string>, accepted: seq<bool>, bytes: seq<Byte>): seq<(string, seq<Byte>)>
  {
    if topics == [] then []
    else
      var t := |topics| - 1;
      Deliveries(topics[..t], accepted, bytes) + (if Accepts(accepted, t) then [(topics[t], bytes)] else [])
  }

  lemma {:induction false} DeliveriesExact(topics: seq<string>, accepted: seq<bool>, bytes: seq<Byte>)
    ensures |Deliveries(topics, accepted, bytes)| <= |topics|
    ensures forall d :: d in Deliveries(topics, accepted, bytes) ==> d.1 == bytes && d.0 in topics
    ensures forall t :: 0 <= t < |topics| && Accepts(accepted, t) ==>
              (topics[t], bytes) in Deliveries(topics, accepted, bytes)
  {
    if topics != [] {
      var t := |topics| - 1;
      DeliveriesExact(topics[..t], accepted, bytes);
      assert topics == topics[..t] + [topics[t]];
      forall k | 0 <= k < |topics| && Accepts(accepted, k)
        ensures (topics[k], bytes) in Deliveries(topics, accepted, bytes)
      {
        if k < t { assert topics[..t][k] == topics[k]; }
      }
    }
  }

  class MQTTPublisher {
    const topics: seq<string>
    const channel: nat := 4
    const sampleRate: U16 := 4096
    var count: nat
    var frameIndex: nat
    var timerActive: bool
    /** Messages the broker accepted, as (topic, packed bytes), in order. */
    var delivered: seq<(string, seq<Byte>)>

    /** `count` and `frame_index` step together; the timer is stopped only at the limit. */
    ghost predicate Valid()
      reads this
    {
      && 1 <= count <= MaxCount
      && frameIndex == count - 1
      && (!timerActive ==> count == MaxCount)
    }

    constructor (topics: seq<string>)
      ensures Valid()
      ensures this.topics == topics && count == 1 && frameIndex == 0
      ensures timerActive && delivered == []
    {
      this.topics := topics;
      count := 1;
      frameIndex := 0;
      timerActive := true;
      delivered := [];
    }

    /** One timer tick. `samples` stands for the rounded sine values of this
        round, `accepted` for the broker's answer to each topic's publish. */
    method PublishMessage(samples: seq<U16>, accepted: seq<bool>) returns (message: Option<seq<U16>>)
      requires Valid() && |samples| == sampleRate as int
      modifies this
      ensures Valid()
      ensures old(count) < MaxCount ==>
                && message == Some(BuildMessage(old(frameIndex), channel, sampleRate, samples))
                && count == old(count) + 1 && frameIndex == old(frameIndex) + 1
                && timerActive == old(timerActive)
                && delivered == old(delivered) + Deliveries(topics, accepted, EncodeWords(message.value))
      ensures old(count) >= MaxCount ==>
                message == None && !timerActive && count == old(count)
                && frameIndex == old(frameIndex) && delivered == old(delivered)
    {
      if count < MaxCount {
        var interleaved := Interleave(samples, channel);
        InterleavedAt(samples, channel);
        assert |interleaved| == 16384;
        var header := BuildHeader(frameIndex, channel, sampleRate);
        var values := header + interleaved;
        var binary := EncodeWords(values);
        var sent := delivered;
        var t := 0;
        while t < |topics|
          invariant 0 <= t <= |topics|
          invariant sent == old(delivered) + Deliveries(topics[..t], accepted, binary)
        {
          if Accepts(accepted, t) {
            sent := sent + [(topics[t], binary)];
          }
          assert topics[..t + 1][..t] == topics[..t];
          t := t + 1;
        }
        assert topics[..|topics|] == topics;
        delivered := sent;
        frameIndex := frameIndex + 1;
        count := count + 1;
        message := Some(values);
      } else {
        timerActive := false;
        message := None;
      }
    }
  }
}
