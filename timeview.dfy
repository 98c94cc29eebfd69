/** The live time view of features/time_view.py: it parses a frame of 16-bit
    words, splits the interleaved payload into one bounded FIFO per channel
    plus a FIFO of sample times, and, while recording, archives each frame
    under the current `dataN` file name. Plotting and widgets are not part of
    this model; the clock is the `now` parameter. */
module TimeView {
  import opened Wrappers
  import opened Words
  import opened Seqs
  import Archive

  const HeaderLength: nat := 10
  const IndexBase: nat := 65535
  /** `data_rate`: samples per second on each channel. */
  const DataRate: nat := 4096
  /** The placeholder entry of an empty tag list. */
  const NoTags: string := "No Tags Available"

  // ------------------------------------------------------------ file names

  predicate IsDigit(c: char)
  {
    '0' <= c <= '9'
  }

  function DigitChar(d: nat): (c: char)
    requires d < 10
    ensures IsDigit(c) && c as int - '0' as int == d
  {
    ('0' as int + d) as char
  }

  /** Decimal digits of `k`, most significant first, as `str(k)` writes them. */
  function DecimalDigits(k: nat): (ds: string)
    ensures ds != [] && forall i :: 0 <= i < |ds| ==> IsDigit(ds[i])
  {
    if k < 10 then [DigitChar(k)] else DecimalDigits(k / 10) + [DigitChar(k % 10)]
  }

  function DigitValue(c: char): (d: nat)
    requires IsDigit(c)
    ensures d < 10
  {
    c as int - '0' as int
  }

  /** The value of a run of decimal digits, as `int` reads it. */
  function DigitsValue(ds: string): nat
    requires forall i :: 0 <= i < |ds| ==> IsDigit(ds[i])
  {
    if ds == [] then 0
    else 10 * DigitsValue(ds[..|ds| - 1]) + DigitValue(ds[|ds| - 1])
  }

  /** Length of the run of digits that `s` starts with. */
  function LeadingDigits(s: string): (r: nat)
    ensures r <= |s|
    ensures forall i :: 0 <= i < r ==> IsDigit(s[i])
    ensures r < |s| ==> !IsDigit(s[r])
  {
    if s == [] || !IsDigit(s[0]) then 0 else 1 + LeadingDigits(s[1..])
  }

  /** `f"data{k}"`. */
  function FileName(k: nat): string
  {
    "data" + DecimalDigits(k)
  }

  /** `re.match(r"data(\d+)", name)`: the number after a leading "data", if
      at least one digit follows it. */
  function MatchCounter(name: string): Option<nat>
  {
    if |name| >= 4 && name[..4] == "data" && LeadingDigits(name[4..]) > 0 then
      Some(DigitsValue(name[4..][..LeadingDigits(name[4..])]))
    else None
  }

  function CounterOf(name: string): nat
  {
    match MatchCounter(name)
    case Some(k) => k
    case None => 0
  }

  /** The largest counter among the names (0 when none matches). */
  function MaxCounter(names: seq<string>): nat
  {
    if names == [] then 0
    else
      var m := MaxCounter(names[..|names| - 1]);
      var c := CounterOf(names[|names| - 1]);
      if c > m then c else m
  }

  lemma {:induction false} DigitsRoundTrip(k: nat)
    ensures DigitsValue(DecimalDigits(k)) == k
    ensures LeadingDigits(DecimalDigits(k)) == |DecimalDigits(k)|
  {
    var ds := DecimalDigits(k);
    if k >= 10 {
      DigitsRoundTrip(k / 10);
      assert ds[..|ds| - 1] == DecimalDigits(k / 10);
    }
  }

  /** The counter written into a file name is read back from it. */
  lemma FileNameCounter(k: nat)
    ensures MatchCounter(FileName(k)) == Some(k)
  {
    var name := FileName(k);
    assert name[..4] == "data";
    assert name[4..] == DecimalDigits(k);
    DigitsRoundTrip(k);
    assert name[4..][..LeadingDigits(name[4..])] == DecimalDigits(k);
  }

  lemma {:induction false} MaxCounterBounds(names: seq<string>)
    ensures forall i :: 0 <= i < |names| && MatchCounter(names[i]).Some? ==>
              MatchCounter(names[i]).value <= MaxCounter(names)
    ensures MaxCounter(names) > 0 ==>
              exists i :: 0 <= i < |names| && MatchCounter(names[i]) == Some(MaxCounter(names))
  {
    if names != [] {
      var init := names[..|names| - 1];
      MaxCounterBounds(init);
      forall i | 0 <= i < |names| - 1
        ensures names[i] == init[i]
      {
      }
    }
  }

  /** `get_next_filename_counter`: one past the largest counter found, so 1
      when no name matches, and the file name it leads to is not taken. */
  lemma NextCounterFresh(names: seq<string>)
    ensures forall i :: 0 <= i < |names| && MatchCounter(names[i]).Some? ==>
              MatchCounter(names[i]).value < MaxCounter(names) + 1
    ensures (forall i :: 0 <= i < |names| ==> MatchCounter(names[i]).None?) ==> MaxCounter(names) + 1 == 1
    ensures FileName(MaxCounter(names) + 1) !in names
  {
    var next := MaxCounter(names) + 1;
    MaxCounterBounds(names);
    assert forall i :: 0 <= i < |names| && MatchCounter(names[i]).Some? ==> MatchCounter(names[i]).value < next;
    NamesBelowNext(names, next);
  }

  /** When every counter found is below `next`, `data{next}` is not taken. */
  lemma NamesBelowNext(names: seq<string>, next: nat)
    requires forall i :: 0 <= i < |names| && MatchCounter(names[i]).Some? ==> MatchCounter(names[i]).value < next
    ensures FileName(next) !in names
  {
    if FileName(next) in names {
      var i :| 0 <= i < |names| && names[i] == FileName(next);
      NameBelowNext(names[i], next);
    }
  }

  /** A name whose counter, if any, is below `next` is not `data{next}`. */
  lemma NameBelowNext(name: string, next: nat)
    requires MatchCounter(name).Some? ==> MatchCounter(name).value < next
    ensures name != FileName(next)
  {
    if name == FileName(next) {
      FileNameCounter(next);
      assert false;
    }
  }

  method GetNextFilenameCounter(filenames: seq<string>) returns (next: nat)
    ensures next == MaxCounter(filenames) + 1
  {
    var maxCounter := 0;
    var i := 0;
    while i < |filenames|
      invariant 0 <= i <= |filenames|
      invariant maxCounter == MaxCounter(filenames[..i])
    {
      assert filenames[..i + 1][..i] == filenames[..i];
      var m := MatchCounter(filenames[i]);
      if m.Some? {
        var counter := m.value;
        maxCounter := if counter > maxCounter then counter else maxCounter;
      }
      i := i + 1;
    }
    assert filenames[..i] == filenames;
    next := maxCounter + 1;
  }

  // ---------------------------------------------------------------- frames

  /** A parsed frame: the header fields and the interleaved payload. */
  datatype Frame = Frame(
    frameIndex: nat,
    numberOfChannels: nat,
    samplingRate: U16,
    samplingSize: U16,
    messageFrequency: U16,
    slots: seq<U16>,
    payload: seq<U16>)

  datatype FrameError = TooShort | ZeroChannels | Misaligned

  /** The checks `split_and_store_values` makes before touching any state. */
  function ParseFrame(values: seq<U16>): (r: Result<Frame, FrameError>)
    ensures r == Err(TooShort) <==> |values| < HeaderLength
    ensures r == Err(ZeroChannels) <==> |values| >= HeaderLength && values[2] == 0
    ensures r == Err(Misaligned) <==>
              |values| >= HeaderLength && values[2] > 0 && (|values| - HeaderLength) % values[2] != 0
    ensures r.Ok? ==>
              && r.value.frameIndex == values[0] + values[1] * IndexBase
              && r.value.numberOfChannels == values[2] > 0
              && r.value.samplingRate == values[3]
              && r.value.samplingSize == values[4]
              && r.value.messageFrequency == values[5]
              && r.value.slots == values[6..HeaderLength]
              && r.value.payload == values[HeaderLength..]
              && |r.value.payload| % r.value.numberOfChannels == 0
  {
    if |values| < HeaderLength then Err(TooShort)
    else if values[2] == 0 then Err(ZeroChannels)
    else if (|values| - HeaderLength) % values[2] != 0 then Err(Misaligned)
    else Ok(Frame(values[0] + values[1] * IndexBase, values[2], values[3], values[4], values[5],
                  values[6..HeaderLength], values[HeaderLength..]))
  }

  function EmptyBuffers(n: nat): (r: seq<seq<U16>>)
    ensures |r| == n && forall j :: 0 <= j < n ==> r[j] == []
  {
    seq(n, _ => [])
  }

  /** The FIFOs after a payload of `k` samples over `n` channels is appended,
      each bounded to its newest `cap` values. */
  function Deinterleaved(bufs: seq<seq<U16>>, p: seq<U16>, n: nat, k: nat, cap: nat): (r: seq<seq<U16>>)
    requires |bufs| == n && k * n <= |p|
    ensures |r| == n
  {
    seq(n, j requires 0 <= j < n => Newest(bufs[j] + ChannelSeries(p, n, j, k), cap))
  }

  lemma NextSampleFits(s: nat, n: nat, k: nat)
    requires s < k && n > 0
    ensures (s + 1) * n <= k * n
  {
    SlotBound(s, n - 1, n, k);
  }

  /** FIFO contents part-way through sample `s`: channels below `j` have it. */
  function Progress(base: seq<seq<U16>>, p: seq<U16>, n: nat, s: nat, j: nat, cap: nat): seq<seq<U16>>
    requires |base| == n && (s + 1) * n <= |p|
  {
    seq(n, c requires 0 <= c < n => Newest(base[c] + ChannelSeries(p, n, c, if c < j then s + 1 else s), cap))
  }

  lemma DeinterleavedStart(base: seq<seq<U16>>, p: seq<U16>, n: nat, cap: nat)
    requires |base| == n && (forall c :: 0 <= c < n ==> |base[c]| <= cap)
    ensures Deinterleaved(base, p, n, 0, cap) == base
  {
    forall c | 0 <= c < n
      ensures Deinterleaved(base, p, n, 0, cap)[c] == base[c]
    {
      assert base[c] + ChannelSeries(p, n, c, 0) == base[c];
    }
  }

  lemma ProgressStart(base: seq<seq<U16>>, p: seq<U16>, n: nat, s: nat, cap: nat)
    requires |base| == n && (s + 1) * n <= |p|
    ensures Progress(base, p, n, s, 0, cap) == Deinterleaved(base, p, n, s, cap)
  {
  }

  lemma ProgressEnd(base: seq<seq<U16>>, p: seq<U16>, n: nat, s: nat, cap: nat)
    requires |base| == n && (s + 1) * n <= |p|
    ensures Progress(base, p, n, s, n, cap) == Deinterleaved(base, p, n, s + 1, cap)
  {
  }

  lemma ProgressStep(base: seq<seq<U16>>, p: seq<U16>, n: nat, s: nat, j: nat, cap: nat)
    requires |base| == n && (s + 1) * n <= |p| && j < n
    ensures Slot(s, j, n) < |p|
    ensures var b := Progress(base, p, n, s, j, cap);
            b[j := Newest(b[j] + [p[Slot(s, j, n)]], cap)] == Progress(base, p, n, s, j + 1, cap)
  {
    SlotBound(s, j, n, s + 1);
    var b := Progress(base, p, n, s, j, cap);
    var x := p[Slot(s, j, n)];
    var b' := b[j := Newest(b[j] + [x], cap)];
    var next := Progress(base, p, n, s, j + 1, cap);
    forall c | 0 <= c < n
      ensures b'[c] == next[c]
    {
      if c == j {
        NewestAppend(base[j] + ChannelSeries(p, n, j, s), x, cap);
        assert ChannelSeries(p, n, j, s + 1) == ChannelSeries(p, n, j, s) + [x];
        assert (base[j] + ChannelSeries(p, n, j, s)) + [x] == base[j] + ChannelSeries(p, n, j, s + 1);
      }
    }
  }

  /** The time of sample `s` of a frame received at `now`. */
  function SampleTime(now: real, s: nat): real
  {
    now + (s as real) / (DataRate as real)
  }

  function FrameTimes(now: real, k: nat): (r: seq<real>)
    ensures |r| == k
  {
    seq(k, s requires 0 <= s < k => SampleTime(now, s))
  }

  /** Appending a frame keeps every FIFO as long as the time FIFO, and each
      keeps the channel's newest values in arrival order. */
  lemma DeinterleavedShape(bufs: seq<seq<U16>>, times: seq<real>, p: seq<U16>, n: nat, k: nat,
                           cap: nat, now: real)
    requires |bufs| == n && k * n == |p|
    requires forall j :: 0 <= j < n ==> |bufs[j]| == |times|
    ensures forall j :: 0 <= j < n ==>
              |Deinterleaved(bufs, p, n, k, cap)[j]| == |Newest(times + FrameTimes(now, k), cap)| <= cap
    ensures forall j :: 0 <= j < n ==>
              var all := bufs[j] + ChannelSeries(p, n, j, k);
              Deinterleaved(bufs, p, n, k, cap)[j] == all[|all| - |Deinterleaved(bufs, p, n, k, cap)[j]|..]
  {
    forall j | 0 <= j < n
      ensures |Deinterleaved(bufs, p, n, k, cap)[j]| == |Newest(times + FrameTimes(now, k), cap)| <= cap
    {
      NewestShape(bufs[j] + ChannelSeries(p, n, j, k), cap);
      NewestShape(times + FrameTimes(now, k), cap);
    }
    forall j | 0 <= j < n
      ensures var all := bufs[j] + ChannelSeries(p, n, j, k);
              Deinterleaved(bufs, p, n, k, cap)[j] == all[|all| - |Deinterleaved(bufs, p, n, k, cap)[j]|..]
    {
      NewestShape(bufs[j] + ChannelSeries(p, n, j, k), cap);
    }
  }

  lemma TimesStep(times: seq<real>, now: real, s: nat, cap: nat)
    ensures Newest(Newest(times + FrameTimes(now, s), cap) + [SampleTime(now, s)], cap)
            == Newest(times + FrameTimes(now, s + 1), cap)
  {
    NewestAppend(times + FrameTimes(now, s), SampleTime(now, s), cap);
    assert FrameTimes(now, s + 1) == FrameTimes(now, s) + [SampleTime(now, s)];
    assert (times + FrameTimes(now, s)) + [SampleTime(now, s)] == times + FrameTimes(now, s + 1);
  }

  /** The record a recording view hands to `save_timeview_message`: the
      frame's own index, not the session counter. */
  function FrameDraft(tag: string, filename: string, f: Frame, now: real): (d: Archive.TimeViewDraft)
    ensures Archive.Complete(d)
  {
    Archive.TimeViewDraft(Some(tag), Some(filename), Some(f.frameIndex), Some(f.payload),
      Some(f.numberOfChannels), Some(f.samplingRate), Some(f.samplingSize), Some(f.messageFrequency),
      f.slots, Some(now))
  }

  lemma FrameDraftStored(project: string, tag: string, filename: string, f: Frame, now: real)
    ensures var r := Archive.Stored(project, FrameDraft(tag, filename, f, now));
            && r.projectName == project && r.topic == tag && r.filename == filename
            && r.frameIndex == f.frameIndex && r.message == f.payload
            && r.numberOfChannels == Some(f.numberOfChannels as int) && r.createdAt == Some(now)
  {
  }

  /** The recording state and archive after one valid frame: nothing is
      saved unless recording; a save into an existing project appends the
      frame's record and counts it, and a failed save stops the recording. */
  predicate Recorded(wasSaving: bool, oldCount: nat, saving: bool, count: nat, projectExists: bool,
                     before: seq<Archive.TimeViewRecord>, after: seq<Archive.TimeViewRecord>,
                     rec: Archive.TimeViewRecord)
  {
    if !wasSaving then !saving && count == oldCount && after == before
    else if projectExists then saving && count == oldCount + 1 && after == before + [rec]
    else !saving && count == oldCount && after == before
  }

  class TimeViewFeature {
    const db: Archive.Database
    const projectName: string
    var mqttTag: Option<string>
    /** `int(data_rate * window_size)`, the capacity every FIFO should have. */
    var windowSamples: nat
    /** The capacity the FIFOs currently have. */
    var bufferSize: nat
    var numChannels: nat
    /** One FIFO of sample values per channel. */
    var buffers: seq<seq<U16>>
    var timestamps: seq<real>
    var isSaving: bool
    /** Frames saved in the current recording. */
    var frameIndex: nat
    var filenameCounter: nat

    /** There is a FIFO per channel, and all FIFOs hold one entry per
        retained sample. */
    ghost predicate Valid()
      reads this
    {
      && |buffers| == numChannels
      && |timestamps| <= bufferSize
      && forall j :: 0 <= j < |buffers| ==> |buffers[j]| == |timestamps|
    }

    /** `__init__` followed by the tag selection of `initUI`: the view starts
        empty, and when the project has tags the first one is set up as by
        `setup_time_view_plot`. */
    constructor (db: Archive.Database, projectName: string, filenames: seq<string>)
      ensures Valid()
      ensures this.db == db && this.projectName == projectName
      ensures var names := Archive.TagNamesOf(db.tags, projectName);
              mqttTag == if names != [] && projectName != "" && names[0] != "" && names[0] != NoTags
                         then Some(names[0]) else None
      ensures numChannels == 0 && buffers == [] && timestamps == []
      ensures windowSamples == DataRate && bufferSize == DataRate
      ensures !isSaving && frameIndex == 0 && filenameCounter == MaxCounter(filenames) + 1
    {
      var next := GetNextFilenameCounter(filenames);
      this.db := db;
      this.projectName := projectName;
      mqttTag := None;
      windowSamples := DataRate;
      bufferSize := DataRate;
      numChannels := 0;
      buffers := [];
      timestamps := [];
      isSaving := false;
      frameIndex := 0;
      filenameCounter := next;
      new;
      var names := Archive.TagNamesOf(db.tags, projectName);
      if names != [] {
        SetupTimeViewPlot(names[0]);
      }
    }

    /** `initialize_plot` (buffer part): a channel count that differs from
        the current one, or a view with no channels, gets fresh empty FIFOs
        of the window's capacity. */
    method InitializePlot(n: nat)
      requires Valid()
      modifies this
      ensures Valid()
      ensures n == old(numChannels) && n > 0 ==> unchanged(this)
      ensures !(n == old(numChannels) && n > 0) ==>
                && numChannels == n && bufferSize == windowSamples
                && buffers == EmptyBuffers(n) && timestamps == []
                && windowSamples == old(windowSamples) && mqttTag == old(mqttTag)
                && isSaving == old(isSaving) && frameIndex == old(frameIndex)
                && filenameCounter == old(filenameCounter)
    {
      if n == numChannels && n > 0 {
        return;
      }
      numChannels := n;
      bufferSize := windowSamples;
      buffers := EmptyBuffers(n);
      timestamps := [];
    }

    /** `adjust_buffer_size`: a changed capacity re-bounds every FIFO to its
        newest items; an unchanged one leaves the view as it is. */
    method AdjustBufferSize()
      requires Valid()
      modifies this
      ensures Valid()
      ensures windowSamples == old(bufferSize) ==> unchanged(this)
      ensures windowSamples != old(bufferSize) ==>
                && bufferSize == windowSamples
                && |buffers| == |old(buffers)|
                && (forall j :: 0 <= j < |buffers| ==> buffers[j] == Newest(old(buffers)[j], bufferSize))
                && timestamps == Newest(old(timestamps), bufferSize)
                && numChannels == old(numChannels) && windowSamples == old(windowSamples)
                && mqttTag == old(mqttTag) && isSaving == old(isSaving)
                && frameIndex == old(frameIndex) && filenameCounter == old(filenameCounter)
    {
      var newBufferSize := windowSamples;
      if newBufferSize != bufferSize {
        var bufs := buffers;
        bufferSize := newBufferSize;
        buffers := seq(|bufs|, j requires 0 <= j < |bufs| => Newest(bufs[j], newBufferSize));
        timestamps := Newest(timestamps, newBufferSize);
        forall j | 0 <= j < |bufs|
          ensures |buffers[j]| == |timestamps|
        {
          NewestShape(bufs[j], newBufferSize);
          NewestShape(old(timestamps), newBufferSize);
        }
      }
    }

    /** The sample loop of `split_and_store_values`: sample `s` appends
        `p[s*n + j]` to FIFO `j` and its time to the time FIFO. */
    method StoreSamples(p: seq<U16>, n: nat, k: nat, now: real)
      requires Valid() && numChannels == n && n > 0 && k * n == |p|
      modifies this`buffers, this`timestamps
      ensures Valid()
      ensures buffers == Deinterleaved(old(buffers), p, n, k, bufferSize)
      ensures timestamps == Newest(old(timestamps) + FrameTimes(now, k), bufferSize)
    {
      ghost var base := buffers;
      ghost var baseTimes := timestamps;
      DeinterleavedStart(base, p, n, bufferSize);
      var s := 0;
      while s < k
        invariant 0 <= s <= k
        invariant buffers == Deinterleaved(base, p, n, s, bufferSize)
        invariant timestamps == Newest(baseTimes + FrameTimes(now, s), bufferSize)
      {
        NextSampleFits(s, n, k);
        AppendSample(p, n, s, now, base, baseTimes);
        s := s + 1;
      }
      DeinterleavedShape(base, baseTimes, p, n, k, bufferSize, now);
    }

    /** One pass of the sample loop: `p[s*n + j]` goes to FIFO `j`, for each
        channel in turn, then the sample's time to the time FIFO. */
    method AppendSample(p: seq<U16>, n: nat, s: nat, now: real, ghost base: seq<seq<U16>>,
                        ghost baseTimes: seq<real>)
      requires |base| == n && (s + 1) * n <= |p|
      requires buffers == Deinterleaved(base, p, n, s, bufferSize)
      requires timestamps == Newest(baseTimes + FrameTimes(now, s), bufferSize)
      modifies this`buffers, this`timestamps
      ensures buffers == Deinterleaved(base, p, n, s + 1, bufferSize)
      ensures timestamps == Newest(baseTimes + FrameTimes(now, s + 1), bufferSize)
    {
      ProgressStart(base, p, n, s, bufferSize);
      var j := 0;
      while j < n
        invariant 0 <= j <= n
        invariant buffers == Progress(base, p, n, s, j, bufferSize)
        invariant timestamps == old(timestamps)
      {
        ProgressStep(base, p, n, s, j, bufferSize);
        buffers := buffers[j := Newest(buffers[j] + [p[Slot(s, j, n)]], bufferSize)];
        j := j + 1;
      }
      ProgressEnd(base, p, n, s, bufferSize);
      TimesStep(baseTimes, now, s, bufferSize);
      timestamps := Newest(timestamps + [SampleTime(now, s)], bufferSize);
    }

    /** The view and the archive after `split_and_store_values` handled
        `values` received at `now`: a rejected frame changes nothing; a valid
        one (re)initialises the FIFOs if its channel count differs, appends
        its samples channel by channel, and is recorded when saving. */
    twostate predicate StoredFrame(values: seq<U16>, now: real)
      requires old(mqttTag).Some? && old(|buffers| == numChannels)
      reads this, db
    {
      match ParseFrame(values)
      case Err(_) => unchanged(this) && db.timeview == old(db.timeview)
      case Ok(f) =>
        var n := f.numberOfChannels;
        var kept := n == old(numChannels);
        && numChannels == n
        && bufferSize == (if kept then old(bufferSize) else old(windowSamples))
        && buffers == Deinterleaved(if kept then old(buffers) else EmptyBuffers(n),
                                    f.payload, n, |f.payload| / n, bufferSize)
        && timestamps == Newest((if kept then old(timestamps) else []) + FrameTimes(now, |f.payload| / n),
                                bufferSize)
        && mqttTag == old(mqttTag) && windowSamples == old(windowSamples)
        && filenameCounter == old(filenameCounter)
        && Recorded(old(isSaving), old(frameIndex), isSaving, frameIndex,
                    Archive.HasProject(db.users, projectName), old(db.timeview), db.timeview,
                    Archive.Stored(projectName, FrameDraft(old(mqttTag).value, FileName(filenameCounter), f, now)))
    }

    /** `split_and_store_values` for a frame received at `now`. */
    method SplitAndStoreValues(values: seq<U16>, now: real)
      requires Valid() && db.Valid() && mqttTag.Some?
      modifies this, db`timeview
      ensures Valid() && db.Valid()
      ensures StoredFrame(values, now)
    {
      var tag := mqttTag.value;
      var parsed := ParseFrame(values);
      if parsed.Err? {
        return;
      }
      var f := parsed.value;
      var n := f.numberOfChannels;
      if n != numChannels {
        InitializePlot(n);
      }
      var k := |f.payload| / n;
      StoreSamples(f.payload, n, k, now);
      RecordFrame(tag, f, now);
    }

    /** The recording step of `split_and_store_values`: one save call per
        frame while recording; success counts the frame, failure stops the
        recording. */
    method RecordFrame(tag: string, f: Frame, now: real)
      requires db.Valid()
      modifies this`isSaving, this`frameIndex, db`timeview
      ensures db.Valid()
      ensures Recorded(old(isSaving), old(frameIndex), isSaving, frameIndex,
                       Archive.HasProject(db.users, projectName), old(db.timeview), db.timeview,
                       Archive.Stored(projectName, FrameDraft(tag, FileName(filenameCounter), f, now)))
    {
      if isSaving {
        var draft := FrameDraft(tag, FileName(filenameCounter), f, now);
        var ok := db.SaveTimeviewMessage(projectName, draft);
        if ok {
          frameIndex := frameIndex + 1;
        } else {
          isSaving := false;
        }
      }
    }

    /** `start_saving`: a missing, empty or placeholder tag is refused;
        otherwise recording starts with the session counter at 0, whether or
        not a recording was already running. */
    method StartSaving()
      modifies this`isSaving, this`frameIndex
      ensures mqttTag.None? || mqttTag.value == "" || mqttTag.value == NoTags ==>
                isSaving == old(isSaving) && frameIndex == old(frameIndex)
      ensures !(mqttTag.None? || mqttTag.value == "" || mqttTag.value == NoTags) ==>
                isSaving && frameIndex == 0
    {
      if mqttTag.None? || mqttTag.value == "" || mqttTag.value == NoTags {
        return;
      }
      isSaving := true;
      frameIndex := 0;
    }

    /** `stop_saving`: ends a running recording and moves to the next file name. */
    method StopSaving()
      modifies this`isSaving, this`filenameCounter
      ensures !old(isSaving) ==> !isSaving && filenameCounter == old(filenameCounter)
      ensures old(isSaving) ==> !isSaving && filenameCounter == old(filenameCounter) + 1
    {
      if !isSaving {
        return;
      }
      isSaving := false;
      filenameCounter := filenameCounter + 1;
    }

    /** `setup_time_view_plot`: a valid tag selects the topic and empties the
        view; an empty project or tag, or the placeholder, changes nothing. */
    method SetupTimeViewPlot(tagName: string)
      requires Valid()
      modifies this
      ensures Valid()
      ensures projectName == "" || tagName == "" || tagName == NoTags ==> unchanged(this)
      ensures !(projectName == "" || tagName == "" || tagName == NoTags) ==>
                && mqttTag == Some(tagName) && buffers == [] && timestamps == []
                && numChannels == 0 && !isSaving && frameIndex == 0
                && bufferSize == old(bufferSize) && windowSamples == old(windowSamples)
                && filenameCounter == old(filenameCounter)
    {
      if projectName == "" || tagName == "" || tagName == NoTags {
        return;
      }
      mqttTag := Some(tagName);
      buffers := [];
      timestamps := [];
      numChannels := 0;
      isSaving := false;
      frameIndex := 0;
    }

    /** `on_data_received`: frames of other topics are ignored. */
    method OnDataReceived(tagName: string, values: seq<U16>, now: real)
      requires Valid() && db.Valid()
      modifies this, db`timeview
      ensures Valid() && db.Valid()
      ensures Some(tagName) != old(mqttTag) ==> unchanged(this) && db.timeview == old(db.timeview)
      ensures Some(tagName) == old(mqttTag) ==> StoredFrame(values, now)
    {
      if Some(tagName) != mqttTag {
        return;
      }
      SplitAndStoreValues(values, now);
    }
  }
}
