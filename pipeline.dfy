/** End-to-end properties across the modules: a frame built by the publisher
    crosses the broker as bytes, is parsed and de-interleaved by the live
    view, is archived as a record, and is plotted back by the report. */
module Pipeline {
  import opened Wrappers
  import opened Words
  import opened Seqs
  import Publisher
  import Transport
  import TimeView
  import Archive
  import Report

  /** The worker hands the live view exactly the words the publisher packed. */
  lemma WireRoundTrip(m: seq<U16>, topic: string)
    requires m != []
    ensures Transport.DecodePayload(EncodeWords(m)) == Ok(m)
    ensures Transport.MessageSignal(true, topic, EncodeWords(m)) == Transport.DataReceived(topic, m)
  {
    DecodeEncode(m);
  }

  /** A published message passes every check of `split_and_store_values`;
      the header fields come back, and the payload de-interleaves into the
      published samples on every channel. */
  lemma PublishedFrameParses(frameIndex: nat, channel: nat, sampleRate: U16, samples: seq<U16>)
    requires 0 < channel < 0x1_0000 && frameIndex / Publisher.IndexBase < 0x1_0000
    ensures TimeView.ParseFrame(Publisher.BuildMessage(frameIndex, channel, sampleRate, samples)).Ok?
    ensures TimeView.ParseFrame(Publisher.BuildMessage(frameIndex, channel, sampleRate, samples)).value
            == TimeView.Frame(frameIndex, channel, sampleRate, Publisher.SampleBits, sampleRate / channel,
                              [0, 0, 0, 0], Publisher.Interleaved(samples, channel))
    ensures |Publisher.Interleaved(samples, channel)| == |samples| * channel
    ensures forall j :: 0 <= j < channel ==>
              ChannelSeries(Publisher.Interleaved(samples, channel), channel, j, |samples|) == samples
  {
    var m := Publisher.BuildMessage(frameIndex, channel, sampleRate, samples);
    var p := Publisher.Interleaved(samples, channel);
    Publisher.InterleavedAt(samples, channel);
    assert m == Publisher.BuildHeader(frameIndex, channel, sampleRate) + p;
    assert m[TimeView.HeaderLength..] == p;
    assert m[6..TimeView.HeaderLength] == [0, 0, 0, 0];
    InterleavedSeries(samples, channel);
  }

  /** De-interleaving the publisher's payload gives every channel the samples. */
  lemma InterleavedSeries(samples: seq<U16>, channel: nat)
    requires 0 < channel
    ensures |Publisher.Interleaved(samples, channel)| == |samples| * channel
    ensures forall j :: 0 <= j < channel ==>
              ChannelSeries(Publisher.Interleaved(samples, channel), channel, j, |samples|) == samples
  {
    var p := Publisher.Interleaved(samples, channel);
    Publisher.InterleavedAt(samples, channel);
    forall j | 0 <= j < channel
      ensures ChannelSeries(p, channel, j, |samples|) == samples
    {
      var cs := ChannelSeries(p, channel, j, |samples|);
      assert forall s :: 0 <= s < |samples| ==> cs[s] == samples[s];
    }
  }

  /** After a fresh plot set-up, one published frame leaves every channel's
      FIFO holding the newest `cap` published samples. */
  lemma LiveViewShowsSamples(channel: nat, samples: seq<U16>, cap: nat)
    requires 0 < channel < 0x1_0000
    ensures |Publisher.Interleaved(samples, channel)| == |samples| * channel
    ensures forall j :: 0 <= j < channel ==>
              TimeView.Deinterleaved(TimeView.EmptyBuffers(channel), Publisher.Interleaved(samples, channel),
                                     channel, |samples|, cap)[j]
              == Newest(samples, cap)
  {
    InterleavedSeries(samples, channel);
    forall j | 0 <= j < channel
      ensures TimeView.Deinterleaved(TimeView.EmptyBuffers(channel), Publisher.Interleaved(samples, channel),
                                     channel, |samples|, cap)[j]
              == Newest(samples, cap)
    {
      assert TimeView.EmptyBuffers(channel)[j] + samples == samples;
    }
  }

  /** The archived record of a published frame received at `now`. */
  function ArchivedFrame(project: string, tag: string, filename: string, frameIndex: nat, channel: nat,
                         sampleRate: U16, samples: seq<U16>, now: real): (r: Archive.TimeViewRecord)
    requires 0 < channel < 0x1_0000 && frameIndex / Publisher.IndexBase < 0x1_0000
    ensures r.filename == filename && r.frameIndex == frameIndex && r.createdAt == Some(now)
    ensures r.message == Publisher.Interleaved(samples, channel)
    ensures r.numberOfChannels == Some(channel) && r.samplingRate == Some(sampleRate as int)
  {
    PublishedFrameParses(frameIndex, channel, sampleRate, samples);
    var f := TimeView.ParseFrame(Publisher.BuildMessage(frameIndex, channel, sampleRate, samples)).value;
    Archive.Stored(project, TimeView.FrameDraft(tag, filename, f, now))
  }

  /** Sample times of a frame grow with the sample number, so a window
      holding the first and the last sample holds them all. */
  lemma SampleTimesBetween(now: real, rate: real, k: nat)
    requires rate > 0.0 && k > 0
    ensures forall s :: 0 <= s < k ==>
              now <= Report.SampleAt(now, rate, s) <= Report.SampleAt(now, rate, k - 1)
  {
    forall s | 0 <= s < k
      ensures now <= Report.SampleAt(now, rate, s) <= Report.SampleAt(now, rate, k - 1)
    {
      assert (k - 1 - s) as real / rate >= 0.0;
      assert (k - 1) as real / rate - s as real / rate == (k - 1 - s) as real / rate;
    }
  }

  /** A published frame received at `now` is read in full by the report
      when the window runs from at most `now` to at least its last sample. */
  lemma FrameKeptWhole(rec: Archive.TimeViewRecord, channel: nat, rate: real, samples: seq<U16>, now: real,
                       start: real, end: real)
    requires 0 < channel < 0x1_0000 && rate > 0.0 && samples != []
    requires rec.message == Publisher.Interleaved(samples, channel) && rec.createdAt == Some(now)
    requires start <= now && Report.SampleAt(now, rate, |samples| - 1) <= end
    ensures Report.Keeps(rec, channel, start, end) && |rec.message| / channel == |samples|
    ensures forall s :: 0 <= s < |samples| ==> start <= Report.SampleAt(now, rate, s) <= end
  {
    var k := |samples|;
    Publisher.InterleavedAt(samples, channel);
    SampleTimesBetween(now, rate, k);
    Publisher.MultipleMod(k, channel);
    MulLeq(1, k, channel);
  }

  /** The frame loop over a file holding only the archived published frame
      rebuilds every channel as the published samples. */
  lemma FoldReplaysFrame(rec: Archive.TimeViewRecord, channel: nat, rate: real, samples: seq<U16>, now: real,
                         start: real, end: real)
    requires 0 < channel < 0x1_0000 && rate > 0.0 && samples != []
    requires rec.message == Publisher.Interleaved(samples, channel) && rec.createdAt == Some(now)
    requires start <= now && Report.SampleAt(now, rate, |samples| - 1) <= end
    ensures Report.Fold([rec], channel, rate, start, end).timePoints == Report.SampleOffsets(0.0, rate, |samples|)
    ensures forall c :: 0 <= c < channel ==> Report.Fold([rec], channel, rate, start, end).channels[c] == samples
  {
    var k := |samples|;
    FrameKeptWhole(rec, channel, rate, samples, now, start, end);
    InterleavedSeries(samples, channel);
    var acc0 := Report.Acc([], Report.EmptyChannels(channel), 0.0);
    Report.FoldSingle(rec, channel, rate, start, end);
    Report.FrameInWindow(acc0, rec.message, channel, now, rate, start, end, k);
    var a := Report.FrameSamples(acc0, rec.message, channel, now, rate, start, end, k);
    var acc := Report.Fold([rec], channel, rate, start, end);
    assert acc.timePoints == a.timePoints && acc.channels == a.channels;
    forall c | 0 <= c < channel
      ensures acc.channels[c] == samples
    {
      assert a.channels[c] == [] + ChannelSeries(rec.message, channel, c, k);
    }
  }

  /** A file holding one archived published frame, plotted over a window
      from at most its arrival time to at least its last sample's time,
      shows every channel as exactly the published samples, at offsets
      `s / rate` from zero, unless the samples are all equal, when drawing
      the flat channels fails. */
  lemma ReportReplaysFrame(project: string, tag: string, filename: string, frameIndex: nat,
                           channel: nat, sampleRate: U16, samples: seq<U16>, now: real,
                           start: real, end: real)
    requires 0 < channel < 0x1_0000 && frameIndex / Publisher.IndexBase < 0x1_0000
    requires sampleRate != 0 && samples != []
    requires filename != "" && filename != Report.NoFiles && filename != Report.LoadError
    requires start < end && start <= now && Report.SampleAt(now, sampleRate as real, |samples| - 1) <= end
    ensures Report.Flat(samples) ==>
              Report.PlotSpec(filename, start, end,
                              [ArchivedFrame(project, tag, filename, frameIndex, channel, sampleRate, samples, now)])
              == Report.DrawFailed
    ensures !Report.Flat(samples) ==>
              Report.PlotSpec(filename, start, end,
                              [ArchivedFrame(project, tag, filename, frameIndex, channel, sampleRate, samples, now)])
                .Plotted?
    ensures !Report.Flat(samples) ==>
              Report.PlotSpec(filename, start, end,
                              [ArchivedFrame(project, tag, filename, frameIndex, channel, sampleRate, samples, now)])
                .timePoints == Report.SampleOffsets(0.0, sampleRate as real, |samples|)
    ensures !Report.Flat(samples) ==>
              |Report.PlotSpec(filename, start, end,
                               [ArchivedFrame(project, tag, filename, frameIndex, channel, sampleRate, samples, now)])
                 .channels| == channel
    ensures !Report.Flat(samples) ==>
              forall c :: 0 <= c < channel ==>
                Report.PlotSpec(filename, start, end,
                                [ArchivedFrame(project, tag, filename, frameIndex, channel, sampleRate, samples, now)])
                  .channels[c] == samples
  {
    var rec := ArchivedFrame(project, tag, filename, frameIndex, channel, sampleRate, samples, now);
    var rate := sampleRate as real;
    FoldReplaysFrame(rec, channel, rate, samples, now, start, end);
    assert [rec][0] == rec;
    Report.PlotsFold(filename, start, end, [rec]);
    var acc := Report.Fold([rec], channel, rate, start, end);
    Report.DrawFailsFlat(acc.channels);
    assert acc.channels[0] == samples;
  }
}
