/** The MQTT worker of mqtthandler.py: a `running` flag, the set of topics
    already subscribed, a bounded connect-retry loop, the connect callback that
    subscribes the project's tags, and the message callback that turns a byte
    payload into 16-bit words. The broker is abstract: a sequence of connect
    outcomes, a connect result code, and the payloads it delivers. The
    signals the worker emits are recorded in order. */
module Transport {
  import opened Wrappers
  import opened Words
  import opened Seqs
  import Archive

  /** Connect attempts per call of `connect_with_retry`. */
  const MaxRetries: nat := 3

  datatype Signal =
    | Connected
    | ConnectionFailed
    | Stopped
    | ErrorOccurred
    | DataReceived(topic: string, values: seq<U16>)

  datatype PayloadError = OddLength | EmptyPayload

  /** Unpack a payload as 16-bit words; odd or empty payloads are rejected. */
  function DecodePayload(payload: seq<Byte>): (r: Result<seq<U16>, PayloadError>)
    ensures r == Err(OddLength) <==> |payload| % 2 != 0
    ensures r == Err(EmptyPayload) <==> payload == []
    ensures r.Ok? ==> |r.value| == |payload| / 2 && EncodeWords(r.value) == payload
  {
    if |payload| % 2 != 0 then Err(OddLength)
    else
      var ws := DecodeWords(payload);
      EncodeDecode(payload);
      if ws == [] then Err(EmptyPayload) else Ok(ws)
  }

  /** The signal a delivered message produces, given whether the archive
      accepts the tag (`update_tag_value`). */
  function MessageSignal(known: bool, topic: string, payload: seq<Byte>): (s: Signal)
    ensures s.DataReceived? <==> |payload| % 2 == 0 && payload != [] && known
    ensures s.DataReceived? ==>
              s.topic == topic && |s.values| == |payload| / 2 && EncodeWords(s.values) == payload
    ensures !s.DataReceived? ==> s == ErrorOccurred
  {
    match DecodePayload(payload)
    case Err(_) => ErrorOccurred
    case Ok(values) => if known then DataReceived(topic, values) else ErrorOccurred
  }

  /** Whether the broker accepts connect attempt `k` (outcomes not given fail). */
  predicate Succeeds(broker: seq<bool>, k: nat)
  {
    k < |broker| && broker[k]
  }

  /** The first accepted attempt at or after `from`, or MaxRetries if none. */
  function FirstSuccess(broker: seq<bool>, from: nat): nat
    decreases MaxRetries - from
  {
    if from >= MaxRetries then MaxRetries
    else if Succeeds(broker, from) then from
    else FirstSuccess(broker, from + 1)
  }

  /** Connect calls made by one retry cycle. */
  function RetryAttempts(broker: seq<bool>): nat
  {
    var f := FirstSuccess(broker, 0);
    if f < MaxRetries then f + 1 else MaxRetries
  }

  /** The signal one retry cycle ends with. */
  function RetrySignal(broker: seq<bool>): Signal
  {
    if FirstSuccess(broker, 0) < MaxRetries then Connected else ConnectionFailed
  }

  lemma {:induction false} FirstSuccessIsFirst(broker: seq<bool>, from: nat)
    requires from <= MaxRetries
    ensures from <= FirstSuccess(broker, from) <= MaxRetries
    ensures forall k :: from <= k < FirstSuccess(broker, from) ==> !Succeeds(broker, k)
    ensures FirstSuccess(broker, from) < MaxRetries ==> Succeeds(broker, FirstSuccess(broker, from))
    decreases MaxRetries - from
  {
    if from < MaxRetries && !Succeeds(broker, from) {
      FirstSuccessIsFirst(broker, from + 1);
    }
  }

  /** One retry cycle makes one to three attempts; it reports `connected`
      exactly when one of the first three attempts succeeds, stopping at the
      first success, and `connection_failed` only after three failures. */
  lemma RetryCycle(broker: seq<bool>)
    ensures 1 <= RetryAttempts(broker) <= MaxRetries
    ensures RetrySignal(broker) == Connected <==> exists k :: 0 <= k < MaxRetries && Succeeds(broker, k)
    ensures RetrySignal(broker) == Connected ==>
              Succeeds(broker, RetryAttempts(broker) - 1)
              && forall k :: 0 <= k < RetryAttempts(broker) - 1 ==> !Succeeds(broker, k)
    ensures RetrySignal(broker) == ConnectionFailed ==>
              RetryAttempts(broker) == MaxRetries && forall k :: 0 <= k < MaxRetries ==> !Succeeds(broker, k)
  {
    FirstSuccessIsFirst(broker, 0);
  }

  /** The topics a subscribe pass calls `subscribe` for, in order: each name
      not yet subscribed, once. */
  function NewTopics(names: seq<string>, already: set<string>): seq<string>
  {
    if names == [] then []
    else if names[0] in already then NewTopics(names[1..], already)
    else [names[0]] + NewTopics(names[1..], already + {names[0]})
  }

  lemma {:induction false} NewTopicsOnce(names: seq<string>, already: set<string>)
    ensures NoDup(NewTopics(names, already))
    ensures forall t :: t in NewTopics(names, already) <==> t in names && t !in already
  {
    if names != [] {
      var rest := names[1..];
      assert names == [names[0]] + rest;
      if names[0] in already {
        NewTopicsOnce(rest, already);
      } else {
        NewTopicsOnce(rest, already + {names[0]});
      }
    }
  }

  /** The names of a sequence, as a set. */
  function SeenTopics(names: seq<string>): (r: set<string>)
    ensures forall t :: t in r <==> t in names
  {
    if names == [] then {}
    else
      var init := names[..|names| - 1];
      assert names == init + [names[|names| - 1]];
      SeenTopics(init) + {names[|names| - 1]}
  }

  /** One step of a subscribe pass, seen from position `i`. */
  lemma NewTopicsUnfold(names: seq<string>, i: nat, already: set<string>)
    requires i < |names|
    ensures NewTopics(names[i..], already)
            == if names[i] in already then NewTopics(names[i + 1..], already)
               else [names[i]] + NewTopics(names[i + 1..], already + {names[i]})
  {
    assert names[i..][1..] == names[i + 1..];
  }

  /** The loop of `subscribe_to_topics` over the tag names, starting from
      the topics `already` subscribed. */
  method SubscribePass(tags: seq<string>, already: set<string>) returns (subscribed: seq<string>, subs: set<string>)
    ensures subscribed == NewTopics(tags, already)
    ensures subs == already + SeenTopics(tags)
  {
    subscribed, subs := [], already;
    var i := 0;
    while i < |tags|
      invariant 0 <= i <= |tags|
      invariant subscribed + NewTopics(tags[i..], subs) == NewTopics(tags, already)
      invariant subs == already + SeenTopics(tags[..i])
    {
      var topic := tags[i];
      NewTopicsUnfold(tags, i, subs);
      assert tags[..i + 1][..i] == tags[..i];
      if topic !in subs {
        subscribed := subscribed + [topic];
        subs := subs + {topic};
      }
      i := i + 1;
    }
    assert tags[..i] == tags;
  }

  class MQTTWorker {
    const db: Archive.Database
    const projectName: string
    var running: bool
    var subscribedTopics: set<string>
    /** The signals emitted so far, oldest first. */
    var signals: seq<Signal>

    constructor (db: Archive.Database, projectName: string)
      ensures this.db == db && this.projectName == projectName
      ensures !running && subscribedTopics == {} && signals == []
    {
      this.db := db;
      this.projectName := projectName;
      running := false;
      subscribedTopics := {};
      signals := [];
    }

    /** `start`: only a stopped worker starts, and it runs one retry cycle. */
    method Start(broker: seq<bool>) returns (calls: nat)
      modifies this
      ensures old(running) ==> calls == 0 && unchanged(this)
      ensures !old(running) ==>
                running && calls == RetryAttempts(broker)
                && signals == old(signals) + [RetrySignal(broker)]
                && subscribedTopics == old(subscribedTopics)
    {
      calls := 0;
      if !running {
        running := true;
        calls := ConnectWithRetry(broker);
      }
    }

    /** `stop`: a running worker stops, forgets its subscriptions and emits `stopped` once. */
    method Stop()
      modifies this
      ensures old(running) ==> !running && subscribedTopics == {} && signals == old(signals) + [Stopped]
      ensures !old(running) ==> unchanged(this)
    {
      if running {
        running := false;
        subscribedTopics := {};
        signals := signals + [Stopped];
      }
    }

    /** `connect_with_retry`: `calls` is the number of connect attempts made. */
    method ConnectWithRetry(broker: seq<bool>) returns (calls: nat)
      modifies this`signals
      ensures !running ==> calls == 0 && signals == old(signals)
      ensures running ==> calls == RetryAttempts(broker) && signals == old(signals) + [RetrySignal(broker)]
    {
      var attempt := 0;
      calls := 0;
      while running && attempt < MaxRetries
        invariant 0 <= attempt < MaxRetries && calls == attempt && (!running ==> attempt == 0)
        invariant FirstSuccess(broker, attempt) == FirstSuccess(broker, 0)
        invariant signals == old(signals)
        decreases MaxRetries - attempt
      {
        calls := calls + 1;
        if Succeeds(broker, attempt) {
          signals := signals + [Connected];
          return;
        }
        attempt := attempt + 1;
        if attempt >= MaxRetries {
          signals := signals + [ConnectionFailed];
          return;
        }
      }
    }

    /** `on_connect`: result code 0 subscribes and then reports `connected`;
        any other code reports `connection_failed` and subscribes nothing. */
    method OnConnect(rc: int) returns (subscribed: seq<string>)
      modifies this`subscribedTopics, this`signals
      ensures rc == 0 ==>
                subscribed == NewTopics(Archive.TagNamesOf(db.tags, projectName), old(subscribedTopics))
                && subscribedTopics == old(subscribedTopics) + set t | t in Archive.TagNamesOf(db.tags, projectName)
                && signals == old(signals) + [Connected]
      ensures rc != 0 ==>
                subscribed == [] && subscribedTopics == old(subscribedTopics)
                && signals == old(signals) + [ConnectionFailed]
    {
      if rc == 0 {
        subscribed := SubscribeToTopics();
        signals := signals + [Connected];
      } else {
        subscribed := [];
        signals := signals + [ConnectionFailed];
      }
    }

    /** `subscribe_to_topics`: `subscribed` lists the topics passed to the
        client's `subscribe`, in order. */
    method SubscribeToTopics() returns (subscribed: seq<string>)
      modifies this`subscribedTopics
      ensures subscribed == NewTopics(Archive.TagNamesOf(db.tags, projectName), old(subscribedTopics))
      ensures subscribedTopics == old(subscribedTopics) + set t | t in Archive.TagNamesOf(db.tags, projectName)
    {
      var tags := Archive.TagNamesOf(db.tags, projectName);
      if tags == [] {
        subscribed := [];
        assert (set t | t in tags) == {};
        return;
      }
      var subs;
      subscribed, subs := SubscribePass(tags, subscribedTopics);
      subscribedTopics := subs;
      assert SeenTopics(tags) == set t | t in tags;
    }

    /** `on_message`: emits `data_received` with the decoded words, or `error_occurred`. */
    method OnMessage(topic: string, payload: seq<Byte>)
      modifies this`signals
      ensures signals == old(signals) + [MessageSignal(db.UpdateTagValue(projectName, topic), topic, payload)]
    {
      if |payload| % 2 != 0 {
        signals := signals + [ErrorOccurred];
        return;
      }
      var values := DecodeWords(payload);
      if values == [] {
        signals := signals + [ErrorOccurred];
        return;
      }
      if db.UpdateTagValue(projectName, topic) {
        signals := signals + [DataReceived(topic, values)];
      } else {
        signals := signals + [ErrorOccurred];
      }
    }
  }
}
