# Telemetry core: frames, transport, live view, archive and report

This project models the telemetry path of a Qt/MongoDB/MQTT monitoring
application:

- **Frame publisher** (`publish6.py`, module `Publisher`). Each timer tick builds one frame: a
  ten-word header followed by a payload that writes every sample once per channel. The frame
  is packed into 16-bit words and sent to each topic. Rounds stop when `count` reaches 200.
- **Transport worker** (`mqtthandler.py`, module `Transport`, class `MQTTWorker`).
  - It keeps a `running` flag and the set of subscribed topics.
  - It connects with a loop of at most three attempts.
  - Its connect callback subscribes each tag of the project once.
  - Its message callback unpacks a byte payload into 16-bit words. It emits `data_received`
    only for an even, non-empty payload on a known tag; anything else emits `error_occurred`.
  - The broker is abstract: a sequence of connect outcomes, a result code, and the payloads
    it delivers. Signals are recorded in order.
- **Live time view** (`features/time_view.py`, module `TimeView`, class `TimeViewFeature`).
  - It parses the header and checks the payload length.
  - It splits the payload round-robin into one bounded FIFO per channel (a Python
    `deque(maxlen=...)`), plus a FIFO of sample times.
  - It resizes the FIFOs while keeping the newest items.
  - While recording, it archives each frame under the file name `dataN`. The next `N` is
    computed from the names that already exist.
- **Archive** (`database.py`, module `Archive`, class `Database`). The Mongo collections are
  in-memory sequences of records:
  - project, tag and cached-project-list operations, with their uniqueness checks and
    cascades;
  - the time-view insert with its required-field check;
  - the filtered time-view query.
- **Offline report** (`features/time_report.py`, module `Report`).
  - A range slider whose handles are clamped into range.
  - The mapping of the handles to a time window inside a file.
  - `plot_data`, which filters the archived frames of a file and splits them back into one
    series per channel.
- **End to end** (module `Pipeline`). These lemmas follow one published frame through
  packing, unpacking, parsing, the live FIFOs, archiving and report plotting.

Shared helpers:
- `Words`: the word/byte codec and the interleaving slot `i*n + ch`.
- `Seqs`: de-duplication, filtering, and the contents of a bounded deque.
- `Wrappers`: `Option` and `Result`.

Conventions:
- Times are exact reals (seconds).
- Sample values are 16-bit naturals.
- Clocks and the broker's answers are parameters.

Behaviour the model follows from the code:
- **Reconnects.** At most three connect attempts per cycle, with a fixed sleep between them
  (mqtthandler.py:46-62).
- **Stopping.** `stop()` does nothing unless the worker is running (mqtthandler.py:37-44).
- **Subscribing.** Topics are subscribed in the connect callback, not in `start()`
  (mqtthandler.py:64-71).
- **File names.** `get_next_filename_counter` calls a `get_distinct_filenames` that
  `database.py` does not define. The list of existing file names is therefore an input, and
  only its contents matter (the largest `dataN` suffix, features/time_view.py:42-50).

## Model

| member | source | states |
|---|---|---|
| Words.EncodeWords | publish6.py:68 | packing writes two bytes per word |
| Words.DecodeEncode | mqtthandler.py:94 | unpacking the bytes of packed words gives back the words |
| Words.EncodeDecode | mqtthandler.py:92-94 | packing the words unpacked from an even-length payload gives back the payload, so the unpacked words carry all of it |
| Words.DecodeWords | mqtthandler.py:94 | unpacking an even-length payload gives one word per two bytes |
| Words.ChannelSeries | features/time_view.py:480-486 | channel `j`'s first `m` samples are the words at `s*n + j` of the interleaved payload, in sample order |
| Seqs.FirstIndex | database.py:89 | `list.index`: the result holds the element and no earlier position does |
| Seqs.DistinctElements | database.py:45-56 | `Distinct`, the seen-check loop of `load_projects`, has no repeats and keeps exactly the elements of its input |
| Seqs.DistinctOrder | database.py:45-56 | de-duplication keeps names in the order they are first seen |
| Seqs.Filter | database.py:111-113 | a `delete_many` keeps only non-matching records, and every non-matching record |
| Seqs.FilterCounts | database.py:111-113 | each non-matching record is kept as often as it occurred, and no matching one; with `Seqs.FilterSingle` and `Seqs.FilterConcat` this fixes their order |
| Seqs.FilterSingle | database.py:111-113 | a single record is kept exactly when it does not match the deleted filter |
| Seqs.RemoveAt | database.py:114-115 | `list.remove` on a duplicate-free list leaves it duplicate-free and drops exactly the removed name |
| Seqs.FilterConcat | database.py:302 | filtering distributes over appending, so an inserted record appears at the end of every filtered view that matches it |
| Seqs.NewestShape | features/time_view.py:421-422 | a bounded deque holds `min(len, cap)` items, and they are the newest ones |
| Seqs.NewestAppend | features/time_view.py:482-484 | appending to a bounded deque one item at a time gives the same deque as bounding the whole history |
| Seqs.NewestResize | features/time_view.py:532-537 | re-bounding a deque keeps the newest `min(old, new)` items |
| Publisher.BuildHeader | publish6.py:55-63 | the ten header words: `w0 < 65535` and `w0 + w1*65535` is the frame index; then channel count, rate, 16 bits, rate/channel, and four zeros |
| Publisher.InterleavedAt | publish6.py:46-52 | the payload has `samples*channel` words, and word `i*channel + ch` is sample `i` for every channel |
| Publisher.Interleave | publish6.py:47-50 | the nested append loop builds exactly the interleaved payload |
| Publisher.BuildMessage | publish6.py:55-65 | the message is the header followed by the payload, so its length minus 10 is a multiple of the channel count, and every sample sits in every channel's slot |
| Publisher.DeliveriesExact | publish6.py:71-76 | in `Deliveries`, the publish loop over the topics, each topic receives the same packed bytes, and a failed publish to one topic does not stop the others |
| Publisher.MQTTPublisher.constructor | publish6.py:11-30 | a new publisher has `count` 1 and frame index 0, its timer runs, and nothing has been delivered |
| Publisher.MQTTPublisher.PublishMessage | publish6.py:32-82 | below 200, a round returns the built message, delivers its packed bytes to every accepting topic and advances `count` and the frame index by one each; at 200 it only stops the timer; `count` stays in [1, 200], one ahead of the frame index |
| Transport.DecodePayload | mqtthandler.py:91-98 | an odd payload is rejected, and so is an empty one (exactly those); otherwise the result has half as many words and packs back to the payload |
| Transport.MessageSignal | mqtthandler.py:91-116 | `data_received` comes exactly for an even, non-empty payload whose tag is accepted, and carries the words that pack to the payload; otherwise `error_occurred` |
| Transport.FirstSuccessIsFirst | mqtthandler.py:49-54 | the retry loop's stop point is the first accepted attempt among the first three |
| Transport.RetryCycle | mqtthandler.py:46-62 | for the cycle defined by `FirstSuccess`, `RetryAttempts` and `RetrySignal`, one cycle makes 1 to 3 attempts; it reports `connected` exactly when one of the first three succeeds, stopping at the first success; it reports `connection_failed` only after three failures |
| Transport.NewTopicsOnce | mqtthandler.py:78-83 | `NewTopics`, the topics a subscribe pass passes to `subscribe`, lists each new tag once, never one already subscribed, and every tag not yet subscribed |
| Transport.SeenTopics | mqtthandler.py:82 | the topics added while walking the tags are exactly the tag names |
| Transport.SubscribePass | mqtthandler.py:78-83 | the loop subscribes exactly the new topics, in order and once each, and leaves every walked tag in the subscribed set |
| Transport.MQTTWorker.constructor | mqtthandler.py:17-28 | a new worker is stopped, with no subscriptions and no signals |
| Transport.MQTTWorker.Start | mqtthandler.py:30-35 | a running worker ignores `start`; a stopped one starts and runs exactly one retry cycle |
| Transport.MQTTWorker.Stop | mqtthandler.py:37-44 | `stop` on a stopped worker does nothing; otherwise it stops, forgets every subscription and emits `stopped` once |
| Transport.MQTTWorker.ConnectWithRetry | mqtthandler.py:46-62 | no attempt while stopped; otherwise the attempt count and the one emitted signal are those of the retry cycle |
| Transport.MQTTWorker.OnConnect | mqtthandler.py:64-71 | code 0 subscribes the project's new tags and then emits `connected`; any other code subscribes nothing and emits `connection_failed` |
| Transport.MQTTWorker.SubscribeToTopics | mqtthandler.py:73-83 | the topics subscribed are the project's tags not already subscribed, in order and once each; afterwards every tag of the project is subscribed |
| Transport.MQTTWorker.OnMessage | mqtthandler.py:85-116 | each delivered message appends exactly one signal, the one its payload and the tag check call for |
| Archive.ProjectTagIndices | database.py:154 | the positions of a project's tags, in collection order, without gaps |
| Archive.TagNamesOf | mqtthandler.py:74 | a name is listed exactly when the project has a tag of that name |
| Archive.RenameFirst | database.py:85-88 | `update_one` renames one record: the new name exists if the old one did, other names are unaffected, and nothing changes if the old name is absent |
| Archive.RenameFirstAt | database.py:85-88 | `update_one` replaces exactly the first record with the old name by one with the new name, in place; every other record stays where it was |
| Archive.RemoveFirst | database.py:110 | `delete_one` removes one record of that name and leaves every other name's presence unchanged |
| Archive.RemoveFirstAt | database.py:110 | `delete_one` removes exactly the first record with the name; the others keep their order |
| Archive.MoveLeavesNoOldRecord | database.py:90-101 | `MoveTags`, `MoveMessages` and `MoveTimeView` are the `update_many` calls of a project rename; afterwards no tag, message or time-view record remains under the old name, and the new name holds as many tags as had either name |
| Archive.MoveTagsUnderNew | database.py:90-93 | the tags under the new project name are exactly the tags that had either name, renamed, in their order |
| Archive.MoveChangesOnlyProjectName | database.py:90-101 | the three `update_many` calls change only the project name, and only of records under the old name; every other record and field stays as it was |
| Archive.TagRenameCascade | database.py:176-179 | `RenameTopic` is the time-view `update_many` of a tag rename; afterwards none of the project's time-view records keeps the old topic, other projects' records are untouched, and the project's records under the new topic are as many as had either topic |
| Archive.RenameTopicChangesOnlyTopic | database.py:176-179 | the time-view `update_many` changes only the topic, and only of the project's records under the old topic |
| Archive.RenameTopicUnderNew | database.py:176-179 | the project's records under the new topic are exactly those that had either topic, renamed, in their order |
| Archive.Stored | database.py:286-297 | the inserted record keeps the given fields, sets the project name and leaves absent optional fields empty |
| Archive.QueryTimeView | database.py:309-333 | an unknown project gives no records; otherwise exactly the project's records that match the non-empty topic and file filters |
| Archive.SavedRecordIsLast | database.py:302-324 | a saved record appears at the end of every query it matches |
| Archive.AcceptedTopics | database.py:203-221 | `update_tag_value` (`Database.UpdateTagValue`) accepts a topic exactly when the project exists and the topic is one of its tag names |
| Archive.Database.constructor | database.py:9-27 | the store opens on the archived collections with an empty project list |
| Archive.Database.LoadProjects | database.py:45-56 | the cached list becomes the project names, each once, in first-seen order |
| Archive.Database.CreateProject | database.py:58-76 | an empty or existing name fails and inserts nothing; otherwise one record is added and the name is cached once |
| Archive.Database.EditProject | database.py:78-106 | identical names succeed with no change; an existing new name fails with no change; a success renames the cached entry at the same index and moves every tag, message and time-view record; an old name missing from the cache fails after the first rename |
| Archive.Database.DeleteProject | database.py:108-120 | the project's record and all its tags, messages and time-view records are removed, and the name leaves the cache, the other names keeping their order |
| Archive.Database.AddTag | database.py:137-151 | succeeds exactly when the project exists and the tag name is new in it, appending one tag |
| Archive.Database.EditTag | database.py:153-184 | fails on a row past the project's tags or on renaming onto another existing tag; a success renames that tag and carries the name to the project's messages (`RenameMessageTag`) and time-view topics (`RenameTopic`) |
| Archive.Database.DeleteTag | database.py:186-201 | fails on a row past the project's tags; a success removes that tag and the project's messages and time-view records under its name |
| Archive.Database.SaveTimeviewMessage | database.py:270-307 | succeeds exactly when the project exists and topic, file name, frame index and message are present; a success appends exactly the stored record, with no uniqueness check |
| TimeView.DecimalDigits | features/time_view.py:336 | `str(k)` is a non-empty run of decimal digits |
| TimeView.DigitsRoundTrip | features/time_view.py:46-48 | reading back the digits written for `k` gives `k`, and the whole string is digits |
| TimeView.FileNameCounter | features/time_view.py:46-48 | `MatchCounter`, the `re.match` of `data(\d+)`, reads the counter of `data{k}` back as `k` |
| TimeView.MaxCounterBounds | features/time_view.py:44-49 | the maximum is at least every counter `MatchCounter` finds, and a non-zero maximum is matched by some name |
| TimeView.NextCounterFresh | features/time_view.py:42-50 | the next counter exceeds every matched counter, is 1 when none match, and names a file not yet in the list |
| TimeView.NamesBelowNext | features/time_view.py:45-50 | a counter above every matched counter names a file that is not in the list |
| TimeView.GetNextFilenameCounter | features/time_view.py:42-50 | the loop returns one past the largest matched counter |
| TimeView.ParseFrame | features/time_view.py:452-530 | fewer than 10 words, zero channels, or a payload not a multiple of the channel count are rejected (each exactly when it occurs); otherwise the index is `w0 + w1*65535`, and the count, rate, size, frequency, slots and payload are read at their offsets |
| TimeView.Deinterleaved | features/time_view.py:480-486 | one FIFO per channel, holding the newest `cap` values of that channel |
| TimeView.DeinterleavedShape | features/time_view.py:480-486 | after a frame, every channel FIFO and the time FIFO have the same length, at most the capacity |
| TimeView.FrameDraft | features/time_view.py:492-508 | the saved record carries every required field, the hardware frame index and the current file name |
| TimeView.FrameDraftStored | features/time_view.py:492-508 | the archived record holds the frame's own index, payload, channel count and receive time |
| TimeView.TimeViewFeature.constructor | features/time_view.py:13-37 | a new view has no channels, empty FIFOs of capacity 4096, is not recording, and starts at the next free file counter; its tag is the project's first tag when there is one and it is usable (the selection `initUI` makes), otherwise none |
| TimeView.TimeViewFeature.InitializePlot | features/time_view.py:415-422 | the same non-zero channel count keeps everything; otherwise fresh empty FIFOs of the window's capacity replace the old ones |
| TimeView.TimeViewFeature.AdjustBufferSize | features/time_view.py:532-537 | an unchanged capacity changes nothing; a changed one keeps the newest items of each FIFO |
| TimeView.TimeViewFeature.StoreSamples | features/time_view.py:480-486 | FIFO `j` receives `payload[s*n + j]` for each sample in order, and the time FIFO gets one time per sample, all bounded to the capacity |
| TimeView.TimeViewFeature.AppendSample | features/time_view.py:481-486 | one sample adds its value to every channel FIFO and its time to the time FIFO |
| TimeView.TimeViewFeature.SplitAndStoreValues | features/time_view.py:450-530 | `StoredFrame` gives the new state: a rejected frame changes nothing; a valid one resets the FIFOs if the channel count changed, appends its samples, and while recording makes exactly one save (success counts the frame, failure stops recording) |
| TimeView.TimeViewFeature.RecordFrame | features/time_view.py:492-526 | `Recorded` gives the outcome: no save unless recording; a save into an existing project appends the record and counts it; a failed save stops recording |
| TimeView.TimeViewFeature.StartSaving | features/time_view.py:330-338 | a missing, empty or placeholder tag is refused; otherwise recording starts with the counter at 0, even if it was already running |
| TimeView.TimeViewFeature.StopSaving | features/time_view.py:352-365 | no-op when not recording; otherwise recording stops and the file counter advances by one |
| TimeView.TimeViewFeature.SetupTimeViewPlot | features/time_view.py:378-407 | a missing project or tag, or the placeholder, changes nothing; otherwise the tag is selected and the FIFOs, channel count and recording state are reset |
| TimeView.TimeViewFeature.OnDataReceived | features/time_view.py:602-608 | frames of other topics change nothing; frames of the selected topic are handled by the split step |
| Report.Clamp | features/time_report.py:36-42 | `max(lo, min(v, hi))` lies in the range, is `v` inside it and the nearer bound outside it |
| Report.ClampTwice | features/time_report.py:33-43 | re-clamping a clamped value into the same range leaves it unchanged |
| Report.RangeSlider.constructor | features/time_report.py:17-25 | the slider starts on [0, 1000] with handles at 0 and 1000 and no drag |
| Report.RangeSlider.SetRange | features/time_report.py:33-37 | the new range is set, and both handles are re-clamped into it |
| Report.RangeSlider.SetValues | features/time_report.py:40-43 | both handles take the requested values clamped into the range |
| Report.RangeSlider.MousePress | features/time_report.py:78-86 | the strictly nearer handle within 10 pixels is grabbed, the right one on a tie; otherwise the drag state is kept |
| Report.RangeSlider.MouseMove | features/time_report.py:88-97 | only the dragged handle moves, clamped into range; with no drag nothing changes |
| Report.RangeSlider.MouseRelease | features/time_report.py:99-101 | release ends any drag |
| Report.TimeReportFeature.constructor | features/time_report.py:107-116 | a new report has no file start or end time |
| Report.TimeReportFeature.UpdateTimeFromSlider | features/time_report.py:408-428 | without a file of positive duration nothing happens; otherwise inverted handles are swapped back (left ≤ right afterwards) and the window written out is the ordered slider window |
| Report.SliderWindow | features/time_report.py:416-428 | the window's start is not after its end, and it lies inside the file when both handles are in [0, 1000] |
| Report.ScaleMonotone | features/time_report.py:421-426 | slider positions map to times monotonically, from 0 at position 0 to the full duration at 1000 |
| Report.FrameSamples | features/time_report.py:524-537 | the sample loop keeps one entry per channel |
| Report.PlotsFold | features/time_report.py:459-589 | `PlotSpec` is the outcome of `plot_data`: with a usable file, window, channel count and rate, the outcome is the series the frame loop builds, unless it kept no sample, or drawing fails on a flat channel (`DrawFails`) |
| Report.FrameSamplesShape | features/time_report.py:527-537 | within one frame, every channel series grows together with the time points |
| Report.FoldShape | features/time_report.py:498-537 | over a whole file, each channel series has one value per plotted time |
| Report.Fold | features/time_report.py:498-537 | the frame loop keeps one series per channel |
| Report.FoldSingle | features/time_report.py:498 | a one-record file is that record's pass over empty series |
| Report.FoldIgnoresSkipped | features/time_report.py:500-522 | `Keeps` holds the skip tests: empty, untimed, out-of-window and misaligned frames leave no trace: plotting the file equals plotting only the kept frames |
| Report.SampleOffsets | features/time_report.py:528 | one plot time per sample, offset by `s / rate` |
| Report.FrameInWindow | features/time_report.py:524-537 | a frame whose samples all fall in the window adds to channel `c` exactly the words at `s*n + c`, and its sample offsets to the times |
| Report.PlotData | features/time_report.py:458-589 | aborts on a placeholder file, start ≥ end, no records, or a bad channel count in the first record; fails if a kept frame has no usable rate; otherwise shows nothing when no sample is in range, fails to draw when a shown channel's tick step is 0, and else hands the built series to drawing |
| Report.SeqMin | features/time_report.py:569 | `min` of a channel is one of its values and at most every value |
| Report.SeqMax | features/time_report.py:569 | `max` of a channel is one of its values and at least every value |
| Report.TickStepZero | features/time_report.py:573-574 | the y-tick step, a tenth of the span rounded up to a multiple of 500, is 0 exactly when the span is 0, and at least 500 otherwise |
| Report.FlatSpread | features/time_report.py:569-575 | a non-empty channel gets a zero tick step exactly when all its values are equal (`Flat`) |
| Report.DrawFailsFlat | features/time_report.py:553-577 | drawing fails exactly when some shown channel is flat |
| Report.DrawChannels | features/time_report.py:553-577 | the channel loop skips empty channels and stops at the first shown one whose tick step is 0; it succeeds exactly when no such channel exists |
| Report.AddFrameSamples | features/time_report.py:524-537 | the sample loop over one kept frame builds exactly its in-window samples |
| Report.AddChannelValues | features/time_report.py:531-537 | channel `c` receives `values[s*n + c]` and nothing else changes |
| Pipeline.WireRoundTrip | mqtthandler.py:91-106 | the worker hands on exactly the words the publisher packed |
| Pipeline.PublishedFrameParses | features/time_view.py:452-467 | a published message passes every frame check, its header fields come back, and each channel's series is the published samples |
| Pipeline.InterleavedSeries | features/time_view.py:480-486 | reading channel `j` out of the publisher's payload gives back the published samples, for every channel |
| Pipeline.LiveViewShowsSamples | features/time_view.py:473-486 | after a fresh plot set-up, one published frame leaves each channel FIFO holding the newest `cap` published samples |
| Pipeline.ArchivedFrame | features/time_view.py:492-508 | the archived record of a published frame holds its index, payload, channel count, rate and receive time |
| Pipeline.SampleTimesBetween | features/time_report.py:526-527 | sample times increase with the sample number, so a window holding the first and last samples holds them all |
| Pipeline.FrameKeptWhole | features/time_report.py:500-537 | a published frame received inside the window passes every skip test of the frame loop and has all its samples in the window |
| Pipeline.FoldReplaysFrame | features/time_report.py:498-537 | a file holding just the archived frame rebuilds every channel as the published samples |
| Pipeline.ReportReplaysFrame | features/time_report.py:458-589 | plotting such a file over a window that covers the frame hands every channel to drawing as exactly the published samples, unless the samples are all equal, when drawing fails |

## Left out

- **Threads, timers and sleeping.** This covers the `MQTTHandler` QThread wrapper
  (mqtthandler.py:118-161), its `QTimer.singleShot` re-retry, `time.sleep`, `loop_start` and
  `loop_stop`, and the Qt timers of the views. They are concurrency and wall-clock behaviour;
  only the sequential decisions are modelled.
- **pymongo and paho.** Connections, `create_index`, `ObjectId`, `close_connection`,
  `publish.single` and `client.connect` are replaced by in-memory collections and by
  broker-outcome parameters.
- Report.PlotData: its `data` parameter stands for the file's records in the order the
  query returns them. The Mongo `.sort("frameIndex", 1)` is not modelled.
- Archive.QueryTimeView: returns records in insertion order; the `.sort("createdAt", 1)` is
  not modelled.
- **Floating point and datetimes.** This covers:
  - sine generation and the publisher's `current_time`, so `PublishMessage` takes the
    rounded samples as a parameter;
  - `datetime`/`timedelta` arithmetic, microsecond rounding and ISO-string parsing: times
    are exact reals passed in as `now`;
  - `generate_y_ticks`, axis limits and tick formatting. Of the y-ticks only the zero step,
    which makes drawing fail, is modelled; the tick values and the axes are not.
- TimeView.TimeViewFeature.SplitAndStoreValues: a timestamp string that fails to parse
  cannot occur, because times are reals. In the source such a failure would abort after
  `initialize_plot`.
- TimeView.TimeViewFeature.SplitAndStoreValues: header slots 6-9 are stored as words, not as
  the strings the source writes.
- Report.RangeSlider.MousePress: takes the cursor's pixel distances to the two handles
  directly. The pixel mapping `_value_to_pos`/`_pos_to_value` is float geometry and is not
  modelled, and neither is painting.
- Report.RangeSlider.SetValues: the `valueChanged` signal, and the slider-to-editor
  re-entrancy it causes through `update_time_from_slider`, are not modelled.
- Report.RangeSlider.MouseMove: a drag also emits `valueChanged` (time_report.py:97), which
  re-enters `update_time_from_slider`. That signal is not modelled; the window update is
  `UpdateTimeFromSlider`, called on its own.
- Report.TimeReportFeature: `update_time_labels` (features/time_report.py:334-406) is not
  modelled. It is the only code that sets `file_start_time` and `file_end_time`: to the
  smallest and largest `createdAt` of the file's records, or to None when no file is
  selected, the file has no records or no timestamp parses. On success it also resets the
  slider to range [0, 1000] with handles 0 and 1000. The model instead takes
  `fileStartTime` and `fileEndTime` as state that is set directly. The label texts and
  the enabling of the editors are not modelled.
- Report.TimeReportFeature: `validate_time_range` (features/time_report.py:438-456) is not
  modelled. When start ≥ end it only disables the OK button. Otherwise it writes the
  slider handles back from the editors. After `update_time_from_slider` that write-back
  is the identity in exact reals. The millisecond rounding of the date editors, and the
  write-back after the user edits a date directly (lines 223 and 231), are not modelled.
- Report.TimeReportFeature: `refresh_filenames` (features/time_report.py:298-332) is not
  modelled. It fills the file list through `get_distinct_filenames`, which database.py
  does not define, so the call always fails and the list shows "Error Loading Files".
  The model takes the selected file name as a parameter of `PlotData`.
- **Byte order.** `struct` format "H" uses native byte order; the model fixes it to
  little-endian.
- TimeView.TimeViewFeature.AdjustBufferSize: in the source `window_size` is never changed,
  so the capacity stays 4096. The model makes `windowSamples` a field, so the resize case
  is covered.
- TimeView.TimeViewFeature.constructor: `get_distinct_filenames` does not exist in
  database.py, so the existing file names are a constructor argument.
- Archive.Database.EditTag: `row` is a natural number. Python's negative list indices are not
  modelled.
- Archive.Database.DeleteTag: `row` is a natural number. Python's negative list indices are
  not modelled.
- Archive.Database.DeleteProject: always reports success. A store exception is not
  modelled.
- Archive.Database.SaveTimeviewMessage: insert failures (exceptions) are not modelled.
- Archive.Database.SaveTimeviewMessage: the source checks only that each required key is
  present, so a key given with the value `None` passes and `None` is stored. The model uses
  `None` for an absent field, so such a call fails. The time view never passes a `None`
  required field.
- Archive.Database.CreateProject: insert failures (exceptions) are not modelled.
- Archive.Database.UpdateTagValue: stores nothing, as in the source. It is modelled only as
  the accept-or-reject answer that `on_message` relies on.
- **Optional record fields.** A record's optional fields use `None` both for absent and for
  Python `None`. `save_timeview_message` uses `setdefault`, so stored records always carry
  the keys. Hence the `.get` defaults in `plot_data` (1 channel, rate 4096) never apply to
  stored records and are not modelled.
- **Other files and functions.** These are widget construction, dialogs, foreign calls
  (bcrypt), or a legacy headerless publisher:
  - the GUI files and `auth.py`;
  - `publish4096.py`;
  - `parse_tag_string`, `get_tag_values`, `save_tag_values`, `get_project_data`;
  - `update_time_view_plot`.
- **Digits.** `re`'s `\d` also matches non-ASCII decimal digits. The model accepts only
  ASCII `0`-`9`.
