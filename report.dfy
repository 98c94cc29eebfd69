/** The offline report of features/time_report.py: a two-handle range slider
    over [min, max], the mapping of its handles to a time window within a
    recorded file, and `plot_data`, which filters the file's archived frames
    and de-interleaves them back into one series per channel. Times are
    seconds as exact reals; pixel geometry and drawing are not modelled. */
module Report {
  import opened Wrappers
  import opened Words
  import opened Seqs
  import Archive

  /** The file-list placeholders that are not files. */
  const NoFiles: string := "No Files Available"
  const LoadError: string := "Error Loading Files"
  /** The slider range `update_time_labels` sets. */
  const SliderSpan: real := 1000.0

  // ------------------------------------------------------------ range slider

  /** `max(lo, min(v, hi))`. */
  function Clamp(v: real, lo: real, hi: real): (r: real)
    ensures lo <= hi ==> lo <= r <= hi
    ensures lo <= hi && lo <= v <= hi ==> r == v
    ensures lo <= hi && v < lo ==> r == lo
    ensures lo <= hi && hi < v ==> r == hi
    ensures hi < lo ==> r == lo
  {
    var m := if v < hi then v else hi;
    if lo < m then m else lo
  }

  /** Clamping twice into the same range is clamping once, so a clamped
      handle stays put when the range is re-applied. */
  lemma ClampTwice(v: real, lo: real, hi: real)
    ensures Clamp(Clamp(v, lo, hi), lo, hi) == Clamp(v, lo, hi)
  {
    if lo <= hi {
      assert lo <= Clamp(v, lo, hi) <= hi;
    }
  }

  datatype Handle = NoHandle | LeftHandle | RightHandle

  class RangeSlider {
    var minValue: real
    var maxValue: real
    var leftValue: real
    var rightValue: real
    var dragging: Handle

    /** Both handles lie inside the range (both sit on `minValue` when the
        range is inverted). */
    ghost predicate Valid()
      reads this
    {
      && leftValue == Clamp(leftValue, minValue, maxValue)
      && rightValue == Clamp(rightValue, minValue, maxValue)
    }

    constructor ()
      ensures Valid()
      ensures minValue == 0.0 && maxValue == SliderSpan
      ensures leftValue == 0.0 && rightValue == SliderSpan && dragging == NoHandle
    {
      minValue := 0.0;
      maxValue := SliderSpan;
      leftValue := 0.0;
      rightValue := SliderSpan;
      dragging := NoHandle;
    }

    /** `setRange`: the new range, with both handles clamped into it. */
    method SetRange(lo: real, hi: real)
      modifies this`minValue, this`maxValue, this`leftValue, this`rightValue
      ensures Valid()
      ensures minValue == lo && maxValue == hi
      ensures leftValue == Clamp(old(leftValue), lo, hi) && rightValue == Clamp(old(rightValue), lo, hi)
    {
      minValue := lo;
      maxValue := hi;
      leftValue := Clamp(leftValue, minValue, maxValue);
      rightValue := Clamp(rightValue, minValue, maxValue);
      ClampTwice(old(leftValue), lo, hi);
      ClampTwice(old(rightValue), lo, hi);
    }

    /** `setValues`: both handles move to the requested values, clamped. */
    method SetValues(left: real, right: real)
      modifies this`leftValue, this`rightValue
      ensures Valid()
      ensures leftValue == Clamp(left, minValue, maxValue) && rightValue == Clamp(right, minValue, maxValue)
    {
      leftValue := Clamp(left, minValue, maxValue);
      rightValue := Clamp(right, minValue, maxValue);
      ClampTwice(left, minValue, maxValue);
      ClampTwice(right, minValue, maxValue);
    }

    /** `mousePressEvent`, given the cursor's pixel distances to the two
        handles: the strictly nearer handle within 10 pixels is grabbed (the
        right one on a tie); otherwise the drag state stays as it was. */
    method MousePress(distLeft: real, distRight: real)
      modifies this`dragging
      ensures distLeft < distRight && distLeft < 10.0 ==> dragging == LeftHandle
      ensures !(distLeft < distRight && distLeft < 10.0) && distRight <= distLeft && distRight < 10.0 ==>
                dragging == RightHandle
      ensures !(distLeft < distRight && distLeft < 10.0) && !(distRight <= distLeft && distRight < 10.0) ==>
                dragging == old(dragging)
    {
      if distLeft < distRight && distLeft < 10.0 {
        dragging := LeftHandle;
      } else if distRight <= distLeft && distRight < 10.0 {
        dragging := RightHandle;
      }
    }

    /** `mouseMoveEvent` with the cursor at slider value `value`: only the
        dragged handle moves, and it stays in range. */
    method MouseMove(value: real)
      requires Valid()
      modifies this`leftValue, this`rightValue
      ensures Valid()
      ensures dragging == NoHandle ==> leftValue == old(leftValue) && rightValue == old(rightValue)
      ensures dragging == LeftHandle ==>
                leftValue == Clamp(value, minValue, maxValue) && rightValue == old(rightValue)
      ensures dragging == RightHandle ==>
                rightValue == Clamp(value, minValue, maxValue) && leftValue == old(leftValue)
    {
      if dragging != NoHandle {
        if dragging == LeftHandle {
          leftValue := Clamp(value, minValue, maxValue);
          ClampTwice(value, minValue, maxValue);
        } else if dragging == RightHandle {
          rightValue := Clamp(value, minValue, maxValue);
          ClampTwice(value, minValue, maxValue);
        }
      }
    }

    /** `mouseReleaseEvent`: the drag ends. */
    method MouseRelease()
      modifies this`dragging
      ensures dragging == NoHandle
    {
      dragging := NoHandle;
    }
  }

  class TimeReportFeature {
    const slider: RangeSlider
    /** First and last `createdAt` of the selected file, when known. */
    var fileStartTime: Option<real>
    var fileEndTime: Option<real>

    constructor (slider: RangeSlider)
      ensures this.slider == slider && fileStartTime.None? && fileEndTime.None?
    {
      this.slider := slider;
      fileStartTime := None;
      fileEndTime := None;
    }

    /** `update_time_from_slider`: with a known file of positive duration,
        inverted handles are swapped back on the slider and `window` is the
        pair of times written into the start and end editors. */
    method UpdateTimeFromSlider() returns (window: Option<(real, real)>)
      requires slider.Valid()
      modifies slider`leftValue, slider`rightValue
      ensures slider.Valid()
      ensures fileStartTime.None? || fileEndTime.None? || fileEndTime.value - fileStartTime.value <= 0.0 ==>
                window.None? && slider.leftValue == old(slider.leftValue) && slider.rightValue == old(slider.rightValue)
      ensures fileStartTime.Some? && fileEndTime.Some? && fileEndTime.value - fileStartTime.value > 0.0 ==>
                && window == Some(SliderWindow(fileStartTime.value, fileEndTime.value - fileStartTime.value,
                                               old(slider.leftValue), old(slider.rightValue)))
                && (old(slider.leftValue) > old(slider.rightValue) ==>
                      && slider.leftValue == Clamp(old(slider.rightValue), slider.minValue, slider.maxValue)
                      && slider.rightValue == Clamp(old(slider.leftValue), slider.minValue, slider.maxValue))
                && (old(slider.leftValue) <= old(slider.rightValue) ==>
                      slider.leftValue == old(slider.leftValue) && slider.rightValue == old(slider.rightValue))
                && (slider.minValue <= slider.maxValue ==> slider.leftValue <= slider.rightValue)
    {
      if fileStartTime.None? || fileEndTime.None? {
        return None;
      }
      var fs := fileStartTime.value;
      var totalDuration := fileEndTime.value - fs;
      if totalDuration <= 0.0 {
        return None;
      }
      var leftPos := slider.leftValue;
      var rightPos := slider.rightValue;
      if leftPos > rightPos {
        leftPos, rightPos := rightPos, leftPos;
        slider.SetValues(leftPos, rightPos);
      }
      window := Some((fs + Scale(leftPos, totalDuration), fs + Scale(rightPos, totalDuration)));
    }
  }

  /** Seconds into a file of `duration` seconds at slider position `pos`. */
  function Scale(pos: real, duration: real): real
  {
    pos / SliderSpan * duration
  }

  /** The times two handle positions select in a file that starts at `fs`
      and lasts `duration`, once the handles are put in order: an ordered
      window, inside the file when the handles lie in [0, 1000]. */
  function SliderWindow(fs: real, duration: real, l: real, r: real): (w: (real, real))
    requires duration > 0.0
    ensures w.0 <= w.1
    ensures 0.0 <= l <= SliderSpan && 0.0 <= r <= SliderSpan ==> fs <= w.0 && w.1 <= fs + duration
  {
    var lo := if l > r then r else l;
    var hi := if l > r then l else r;
    ScaleMonotone(lo, hi, duration);
    (fs + Scale(lo, duration), fs + Scale(hi, duration))
  }

  lemma ScaleMonotone(lo: real, hi: real, duration: real)
    requires lo <= hi && duration > 0.0
    ensures Scale(lo, duration) <= Scale(hi, duration)
    ensures 0.0 <= lo ==> 0.0 <= Scale(lo, duration)
    ensures hi <= SliderSpan ==> Scale(hi, duration) <= duration
  {
    assert (hi - lo) / SliderSpan * duration >= 0.0;
    assert (SliderSpan - hi) / SliderSpan * duration == duration - hi / SliderSpan * duration;
  }

  // ------------------------------------------------------------- plot_data

  datatype PlotOutcome =
    | NoFileSelected
    | BadTimeRange
    | NoRecords
    | BadChannelCount
    /** A frame reached the sample loop with no usable sampling rate. */
    | RateError
    | NothingInRange
    /** The series were built, but drawing raised: a shown channel's y-tick
        step came out 0, and the handler cleared the figure. */
    | DrawFailed
    | Plotted(timePoints: seq<real>, channels: seq<seq<U16>>)

  /** The series being built: plot times, one value list per channel, and the
      running time offset of the next frame. */
  datatype Acc = Acc(timePoints: seq<real>, channels: seq<seq<U16>>, offset: real)

  /** A frame `plot_data` reads samples from: a non-empty message, a readable
      time inside [start, end], and a length that divides into channels. */
  predicate Keeps(r: Archive.TimeViewRecord, n: nat, start: real, end: real)
    requires n > 0
  {
    && r.message != []
    && r.createdAt.Some?
    && start <= r.createdAt.value <= end
    && |r.message| % n == 0
  }

  function EmptyChannels(n: nat): (r: seq<seq<U16>>)
    ensures |r| == n && forall c :: 0 <= c < n ==> r[c] == []
  {
    seq(n, _ => [])
  }

  /** Every channel's list extended by its value in sample `s`. */
  function AddRow(chs: seq<seq<U16>>, msg: seq<U16>, n: nat, s: nat): seq<seq<U16>>
    requires |chs| == n && n > 0 && Slot(s, n - 1, n) < |msg|
  {
    seq(n, c requires 0 <= c < n => chs[c] + [msg[Slot(s, c, n)]])
  }

  /** Plot time of sample `s` of a frame received at `t`. */
  function SampleAt(t: real, rate: real, s: nat): real
    requires rate != 0.0
  {
    t + s as real / rate
  }

  /** The samples `0 .. m-1` of one frame received at `t`: each one inside
      [start, end] adds its plot time and its row of channel values. */
  function FrameSamples(acc: Acc, msg: seq<U16>, n: nat, t: real, rate: real, start: real, end: real,
                        m: nat): (r: Acc)
    requires n > 0 && |acc.channels| == n && m * n <= |msg| && rate != 0.0
    ensures |r.channels| == n && r.offset == acc.offset
  {
    if m == 0 then acc
    else
      SlotBound(m - 1, n - 1, n, m);
      SlotBound(m - 1, 0, n, m);
      var a := FrameSamples(acc, msg, n, t, rate, start, end, m - 1);
      if start <= SampleAt(t, rate, m - 1) <= end then
        Acc(a.timePoints + [SampleAt(a.offset, rate, m - 1)], AddRow(a.channels, msg, n, m - 1), a.offset)
      else a
  }

  /** One pass of the frame loop. */
  function Step(acc: Acc, r: Archive.TimeViewRecord, n: nat, rate: real, start: real, end: real): (a: Acc)
    requires n > 0 && |acc.channels| == n && rate != 0.0
    ensures |a.channels| == n
  {
    if !Keeps(r, n, start, end) then acc
    else
      var k := |r.message| / n;
      var a := FrameSamples(acc, r.message, n, r.createdAt.value, rate, start, end, k);
      Acc(a.timePoints, a.channels, a.offset + k as real / rate)
  }

  /** The series after the frame loop has read `data`. */
  function Fold(data: seq<Archive.TimeViewRecord>, n: nat, rate: real, start: real, end: real): (a: Acc)
    requires n > 0 && rate != 0.0
    ensures |a.channels| == n
  {
    if data == [] then Acc([], EmptyChannels(n), 0.0)
    else Step(Fold(data[..|data| - 1], n, rate, start, end), data[|data| - 1], n, rate, start, end)
  }

  /** The sampling rate is usable when present and non-zero. */
  predicate RateOk(rate: Option<int>)
  {
    rate.Some? && rate.value != 0
  }

  /** `min(values)` of a non-empty channel. */
  function SeqMin(s: seq<U16>): (m: U16)
    requires s != []
    ensures m in s && forall i :: 0 <= i < |s| ==> m <= s[i]
  {
    if |s| == 1 then s[0]
    else
      var m := SeqMin(s[..|s| - 1]);
      if s[|s| - 1] < m then s[|s| - 1] else m
  }

  /** `max(values)` of a non-empty channel. */
  function SeqMax(s: seq<U16>): (m: U16)
    requires s != []
    ensures m in s && forall i :: 0 <= i < |s| ==> s[i] <= m
  {
    if |s| == 1 then s[0]
    else
      var m := SeqMax(s[..|s| - 1]);
      if s[|s| - 1] > m then s[|s| - 1] else m
  }

  /** The y-tick step of a channel spanning `lo..hi`: one tenth of the span,
      rounded up to a multiple of 500. */
  function TickStep(lo: U16, hi: U16): int
    requires lo <= hi
  {
    (hi - lo + 4999) / 5000 * 500
  }

  /** The step is 0 exactly for a channel whose values are all equal, and at
      least 500 otherwise. */
  lemma TickStepZero(lo: U16, hi: U16)
    requires lo <= hi
    ensures TickStep(lo, hi) == 0 <==> lo == hi
    ensures lo < hi ==> TickStep(lo, hi) >= 500
  {
  }

  /** Every value of the channel equals its first. */
  predicate Flat(s: seq<U16>)
  {
    forall i :: 0 <= i < |s| ==> s[i] == s[0]
  }

  /** A non-empty channel has a zero tick step exactly when it is flat. */
  lemma FlatSpread(s: seq<U16>)
    requires s != []
    ensures TickStep(SeqMin(s), SeqMax(s)) == 0 <==> Flat(s)
  {
    TickStepZero(SeqMin(s), SeqMax(s));
    if SeqMin(s) == SeqMax(s) {
      assert Flat(s);
    } else {
      var i :| 0 <= i < |s| && s[i] == SeqMax(s);
      var j :| 0 <= j < |s| && s[j] == SeqMin(s);
      assert s[i] != s[0] || s[j] != s[0];
    }
  }

  /** Drawing fails when some shown (non-empty) channel has a zero tick step. */
  predicate DrawFails(chs: seq<seq<U16>>)
  {
    exists c :: 0 <= c < |chs| && chs[c] != [] && TickStep(SeqMin(chs[c]), SeqMax(chs[c])) == 0
  }

  /** Drawing fails exactly when some shown channel is flat. */
  lemma DrawFailsFlat(chs: seq<seq<U16>>)
    ensures DrawFails(chs) <==> exists c :: 0 <= c < |chs| && chs[c] != [] && Flat(chs[c])
  {
    forall c | 0 <= c < |chs| && chs[c] != []
      ensures TickStep(SeqMin(chs[c]), SeqMax(chs[c])) == 0 <==> Flat(chs[c])
    {
      FlatSpread(chs[c]);
    }
  }

  /** What `plot_data` shows for the file `filename` over [start, end], given
      the file's records in the order the query returns them. */
  function PlotSpec(filename: string, start: real, end: real, data: seq<Archive.TimeViewRecord>): (o: PlotOutcome)
  {
    if filename == "" || filename == NoFiles || filename == LoadError then NoFileSelected
    else if start >= end then BadTimeRange
    else if data == [] then NoRecords
    else if data[0].numberOfChannels.None? || data[0].numberOfChannels.value < 1 then BadChannelCount
    else
      var n: nat := data[0].numberOfChannels.value;
      var rate := data[0].samplingRate;
      if !RateOk(rate) then
        if exists i :: 0 <= i < |data| && Keeps(data[i], n, start, end) then RateError else NothingInRange
      else
        var acc := Fold(data, n, rate.value as real, start, end);
        if acc.timePoints == [] || forall c :: 0 <= c < n ==> acc.channels[c] == [] then NothingInRange
        else if DrawFails(acc.channels) then DrawFailed
        else Plotted(acc.timePoints, acc.channels)
  }

  /** Once the file, the window, the channel count and the rate are usable,
      `plot_data` draws exactly the series its frame loop builds, unless no
      sample fell inside the window. */
  lemma PlotsFold(filename: string, start: real, end: real, data: seq<Archive.TimeViewRecord>)
    requires filename != "" && filename != NoFiles && filename != LoadError && start < end
    requires data != [] && data[0].numberOfChannels.Some? && data[0].numberOfChannels.value >= 1
    requires RateOk(data[0].samplingRate)
    ensures var acc := Fold(data, data[0].numberOfChannels.value, data[0].samplingRate.value as real, start, end);
            PlotSpec(filename, start, end, data) == if acc.timePoints == [] then NothingInRange
                                                    else if DrawFails(acc.channels) then DrawFailed
                                                    else Plotted(acc.timePoints, acc.channels)
  {
    var n: nat := data[0].numberOfChannels.value;
    var rate := data[0].samplingRate.value as real;
    FoldShape(data, n, rate, start, end);
    var acc := Fold(data, n, rate, start, end);
    if acc.timePoints != [] {
      assert |acc.channels[0]| == |acc.timePoints| > 0;
    }
  }

  lemma {:induction false} FrameSamplesShape(acc: Acc, msg: seq<U16>, n: nat, t: real, rate: real,
                                             start: real, end: real, m: nat)
    requires n > 0 && |acc.channels| == n && m * n <= |msg| && rate != 0.0
    requires forall c :: 0 <= c < n ==> |acc.channels[c]| == |acc.timePoints|
    ensures forall c :: 0 <= c < n ==>
              |FrameSamples(acc, msg, n, t, rate, start, end, m).channels[c]|
              == |FrameSamples(acc, msg, n, t, rate, start, end, m).timePoints|
  {
    if m > 0 {
      SlotBound(m - 1, n - 1, n, m);
      SlotBound(m - 1, 0, n, m);
      FrameSamplesShape(acc, msg, n, t, rate, start, end, m - 1);
      var a := FrameSamples(acc, msg, n, t, rate, start, end, m - 1);
      var r := FrameSamples(acc, msg, n, t, rate, start, end, m);
      assert forall c :: 0 <= c < n ==> |a.channels[c]| == |a.timePoints|;
      if start <= SampleAt(t, rate, m - 1) <= end {
        var row := AddRow(a.channels, msg, n, m - 1);
        assert r.channels == row && |r.timePoints| == |a.timePoints| + 1;
        assert forall c :: 0 <= c < n ==> |row[c]| == |a.channels[c]| + 1;
      } else {
        assert r == a;
      }
    }
  }

  /** All channel series grow together: each holds one value per plot time. */
  lemma {:induction false} FoldShape(data: seq<Archive.TimeViewRecord>, n: nat, rate: real, start: real, end: real)
    requires n > 0 && rate != 0.0
    ensures forall c :: 0 <= c < n ==>
              |Fold(data, n, rate, start, end).channels[c]| == |Fold(data, n, rate, start, end).timePoints|
  {
    if data != [] {
      var init := data[..|data| - 1];
      var last := data[|data| - 1];
      FoldShape(init, n, rate, start, end);
      if Keeps(last, n, start, end) {
        var acc := Fold(init, n, rate, start, end);
        assert forall c :: 0 <= c < n ==> |acc.channels[c]| == |acc.timePoints|;
        FrameSamplesShape(acc, last.message, n, last.createdAt.value, rate, start, end, |last.message| / n);
      }
    }
  }

  /** A file of one record: the series is that record's pass over the empty series. */
  lemma FoldSingle(r: Archive.TimeViewRecord, n: nat, rate: real, start: real, end: real)
    requires n > 0 && rate != 0.0
    ensures Fold([r], n, rate, start, end) == Step(Acc([], EmptyChannels(n), 0.0), r, n, rate, start, end)
  {
    assert [r][..0] == [];
  }

  /** Skipped frames leave no trace: plotting the whole file equals plotting
      only the frames `plot_data` keeps. */
  lemma {:induction false} FoldIgnoresSkipped(data: seq<Archive.TimeViewRecord>, n: nat, rate: real,
                                              start: real, end: real)
    requires n > 0 && rate != 0.0
    ensures Fold(data, n, rate, start, end)
            == Fold(Filter(data, (r: Archive.TimeViewRecord) => Keeps(r, n, start, end)), n, rate, start, end)
  {
    var keep := (r: Archive.TimeViewRecord) => Keeps(r, n, start, end);
    if data != [] {
      var init := data[..|data| - 1];
      var last := data[|data| - 1];
      FoldIgnoresSkipped(init, n, rate, start, end);
      var f := Filter(init, keep);
      if keep(last) {
        assert Filter(data, keep) == f + [last];
        assert (f + [last])[..|f + [last]| - 1] == f;
      } else {
        assert Filter(data, keep) == f;
      }
    }
  }

  /** The plot times of a run of `k` samples starting at offset `o`. */
  function SampleOffsets(o: real, rate: real, k: nat): (r: seq<real>)
    requires rate != 0.0
    ensures |r| == k
  {
    seq(k, s requires 0 <= s < k => SampleAt(o, rate, s))
  }

  /** A frame whose samples all fall inside [start, end] contributes, to each
      channel `c`, exactly the values at `s*n + c` in sample order. */
  lemma {:induction false} FrameInWindow(acc: Acc, msg: seq<U16>, n: nat, t: real, rate: real,
                                         start: real, end: real, m: nat)
    requires n > 0 && |acc.channels| == n && m * n <= |msg| && rate != 0.0
    requires forall s :: 0 <= s < m ==> start <= SampleAt(t, rate, s) <= end
    ensures var r := FrameSamples(acc, msg, n, t, rate, start, end, m);
            && r.timePoints == acc.timePoints + SampleOffsets(acc.offset, rate, m)
            && forall c :: 0 <= c < n ==> r.channels[c] == acc.channels[c] + ChannelSeries(msg, n, c, m)
  {
    if m > 0 {
      SlotBound(m - 1, n - 1, n, m);
      SlotBound(m - 1, 0, n, m);
      FrameInWindow(acc, msg, n, t, rate, start, end, m - 1);
      assert SampleOffsets(acc.offset, rate, m)
             == SampleOffsets(acc.offset, rate, m - 1) + [SampleAt(acc.offset, rate, m - 1)];
      forall c | 0 <= c < n
        ensures FrameSamples(acc, msg, n, t, rate, start, end, m).channels[c]
                == acc.channels[c] + ChannelSeries(msg, n, c, m)
      {
        assert ChannelSeries(msg, n, c, m) == ChannelSeries(msg, n, c, m - 1) + [msg[Slot(m - 1, c, n)]];
      }
    }
  }

  /** `plot_data` over the file's records. */
  method PlotData(filename: string, start: real, end: real, data: seq<Archive.TimeViewRecord>)
    returns (outcome: PlotOutcome)
    ensures outcome == PlotSpec(filename, start, end, data)
  {
    if filename == "" || filename == NoFiles || filename == LoadError {
      return NoFileSelected;
    }
    if start >= end {
      return BadTimeRange;
    }
    if data == [] {
      return NoRecords;
    }
    var numChannels := data[0].numberOfChannels;
    var dataRate := data[0].samplingRate;
    if numChannels.None? || numChannels.value < 1 {
      return BadChannelCount;
    }
    var n: nat := numChannels.value;
    var channelValues := EmptyChannels(n);
    var timePoints: seq<real> := [];
    var offset: real := 0.0;
    var i := 0;
    while i < |data|
      invariant 0 <= i <= |data|
      invariant |channelValues| == n
      invariant RateOk(dataRate) ==>
                  Acc(timePoints, channelValues, offset) == Fold(data[..i], n, dataRate.value as real, start, end)
      invariant !RateOk(dataRate) ==>
                  && (forall j :: 0 <= j < i ==> !Keeps(data[j], n, start, end))
                  && timePoints == [] && channelValues == EmptyChannels(n)
    {
      assert data[..i + 1][..i] == data[..i];
      var item := data[i];
      if Keeps(item, n, start, end) {
        if !RateOk(dataRate) {
          return RateError;
        }
        var rate := dataRate.value as real;
        var numSamples := |item.message| / n;
        timePoints, channelValues :=
          AddFrameSamples(timePoints, channelValues, offset, item.message, n, item.createdAt.value, rate, start, end);
        offset := offset + numSamples as real / rate;
      }
      i := i + 1;
    }
    assert data[..i] == data;
    if timePoints == [] || forall c | 0 <= c < n :: channelValues[c] == [] {
      return NothingInRange;
    }
    var drawn := DrawChannels(channelValues);
    if !drawn {
      return DrawFailed;
    }
    return Plotted(timePoints, channelValues);
  }

  /** The drawing loop of `plot_data` over the channels: an empty channel is
      hidden; a shown one gets y-ticks, which raise when their step is 0. */
  method DrawChannels(chs: seq<seq<U16>>) returns (drawn: bool)
    ensures drawn <==> !DrawFails(chs)
  {
    var c := 0;
    while c < |chs|
      invariant 0 <= c <= |chs|
      invariant forall d :: 0 <= d < c && chs[d] != [] ==> TickStep(SeqMin(chs[d]), SeqMax(chs[d])) != 0
    {
      if chs[c] != [] {
        var yMin := SeqMin(chs[c]);
        var yMax := SeqMax(chs[c]);
        if TickStep(yMin, yMax) == 0 {
          return false;
        }
      }
      c := c + 1;
    }
    return true;
  }

  /** The sample loop of `plot_data` over one kept frame received at `t`. */
  method AddFrameSamples(timePoints: seq<real>, chs: seq<seq<U16>>, offset: real, msg: seq<U16>, n: nat,
                         t: real, rate: real, start: real, end: real)
    returns (timePoints': seq<real>, chs': seq<seq<U16>>)
    requires n > 0 && |chs| == n && |msg| % n == 0 && rate != 0.0
    ensures Acc(timePoints', chs', offset)
            == FrameSamples(Acc(timePoints, chs, offset), msg, n, t, rate, start, end, |msg| / n)
  {
    var numSamples := |msg| / n;
    timePoints', chs' := timePoints, chs;
    var s := 0;
    while s < numSamples
      invariant 0 <= s <= numSamples
      invariant Acc(timePoints', chs', offset)
                == FrameSamples(Acc(timePoints, chs, offset), msg, n, t, rate, start, end, s)
    {
      SlotBound(s, n - 1, n, numSamples);
      var sampleTime := SampleAt(t, rate, s);
      if start <= sampleTime <= end {
        timePoints' := timePoints' + [SampleAt(offset, rate, s)];
        chs' := AddChannelValues(chs', msg, n, s);
      }
      s := s + 1;
    }
  }

  /** The channel loop of `plot_data`: channel `c` receives `msg[s*n + c]`. */
  method AddChannelValues(chs: seq<seq<U16>>, msg: seq<U16>, n: nat, s: nat) returns (r: seq<seq<U16>>)
    requires |chs| == n && n > 0 && Slot(s, n - 1, n) < |msg|
    ensures r == AddRow(chs, msg, n, s)
  {
    r := chs;
    var c := 0;
    while c < n
      invariant 0 <= c <= n && |r| == n
      invariant forall d :: 0 <= d < c ==> r[d] == chs[d] + [msg[Slot(s, d, n)]]
      invariant forall d :: c <= d < n ==> r[d] == chs[d]
    {
      r := r[c := r[c] + [msg[Slot(s, c, n)]]];
      c := c + 1;
    }
  }
}
