/**
 * The edge device's broker client (raspberry-pi/rabbitmq_client.py):
 * connection state, the image envelope, result acknowledgement and the
 * bounded reconnect loop.
 *
 * Whether the k-th connection attempt succeeds is an oracle fixed when the
 * client is created (`outcomes`); `connectCalls` counts the attempts made.
 * Sleeps and connection attempts are recorded in the ghost `log`.
 */
module EdgeMessaging {
  import opened Common
  import opened Json
  import opened Amqp
  import opened Config

  datatype ClientEvent =
    | ConnectAttempt(ok: bool)
    | Sleep(seconds: real)
    | ConsumerArmed
    | ConsumerStopped

  /** The metadata actually sent: the caller's keys, plus a timestamp when none was given. */
  function WithTimestamp(md: map<string, Value>, now: real): (r: map<string, Value>)
    ensures r.Keys == md.Keys + {"timestamp"}
    ensures forall k :: k in md ==> r[k] == md[k]
    ensures "timestamp" !in md ==> r["timestamp"] == Num(now)
  {
    if "timestamp" in md then md else md["timestamp" := Num(now)]
  }

  /** The JSON envelope published for one image: hex text plus metadata ("metadata or {}"). */
  function Envelope(image: seq<byte>, metadata: Option<map<string, Value>>, now: real): (v: Value)
    ensures v.Obj? && v.fields.Keys == {"image", "metadata"}
    ensures v.fields["image"] == Str(ToHex(image)) && |v.fields["image"].s| == 2 * |image|
    ensures v.fields["metadata"].Obj? && "timestamp" in v.fields["metadata"].fields
  {
    Obj(map["image" := Str(ToHex(image)),
            "metadata" := Obj(WithTimestamp(metadata.GetOr(map[]), now))])
  }

  /** k rounds of a failed connection attempt followed by the retry delay. */
  function FailedRounds(k: nat): (t: seq<ClientEvent>)
  {
    if k == 0 then [] else FailedRounds(k - 1) + [ConnectAttempt(false), Sleep(RETRY_DELAY)]
  }

  /** Total time spent sleeping in a log. */
  function SleepTotal(t: seq<ClientEvent>): real
  {
    if t == [] then 0.0
    else SleepTotal(t[..|t| - 1]) + (if t[|t| - 1].Sleep? then t[|t| - 1].seconds else 0.0)
  }

  lemma {:induction false} SleepTotalAppend(a: seq<ClientEvent>, b: seq<ClientEvent>)
    ensures SleepTotal(a + b) == SleepTotal(a) + SleepTotal(b)
    decreases |b|
  {
    if b == [] {
      assert a + b == a;
    } else {
      assert (a + b)[..|a + b| - 1] == a + b[..|b| - 1];
      SleepTotalAppend(a, b[..|b| - 1]);
    }
  }

  /** k failed rounds hold exactly k attempts, all failed, and sleep k retry delays. */
  lemma {:induction false} FailedRoundsShape(k: nat)
    ensures |FailedRounds(k)| == 2 * k
    ensures forall i :: 0 <= i < k ==>
      FailedRounds(k)[2 * i] == ConnectAttempt(false) && FailedRounds(k)[2 * i + 1] == Sleep(RETRY_DELAY)
    ensures SleepTotal(FailedRounds(k)) == k as real * RETRY_DELAY
  {
    if k > 0 {
      FailedRoundsShape(k - 1);
      SleepTotalAppend(FailedRounds(k - 1), [ConnectAttempt(false), Sleep(RETRY_DELAY)]);
      assert SleepTotal([ConnectAttempt(false), Sleep(RETRY_DELAY)]) == RETRY_DELAY by {
        assert [ConnectAttempt(false), Sleep(RETRY_DELAY)][..1] == [ConnectAttempt(false)];
        assert [ConnectAttempt(false)][..0] == [];
      }
    }
  }

  /**
   * How many connection attempts reconnect(n) makes when attempt `start` is
   * the next one: up to and including the first that succeeds, at most n.
   */
  function ReconnectAttempts(outcomes: nat -> bool, start: nat, n: nat): (k: nat)
    ensures k <= n && (n > 0 ==> k > 0)
    decreases n
  {
    if n == 0 then 0
    else if outcomes(start) then 1
    else 1 + ReconnectAttempts(outcomes, start + 1, n - 1)
  }

  /** Whether one of the next n attempts, from attempt `start`, succeeds. */
  predicate ReconnectSucceeds(outcomes: nat -> bool, start: nat, n: nat) {
    exists i :: start <= i < start + n && outcomes(i)
  }

  /** The attempts stop at the first success: its position among the next n, counted from 1. */
  lemma {:induction false} ReconnectAttemptsFirst(outcomes: nat -> bool, start: nat, n: nat, k: nat)
    requires 1 <= k <= n && outcomes(start + k - 1)
    requires forall i :: start <= i < start + k - 1 ==> !outcomes(i)
    ensures ReconnectAttempts(outcomes, start, n) == k
    decreases k
  {
    if k > 1 {
      assert !outcomes(start);
      ReconnectAttemptsFirst(outcomes, start + 1, n - 1, k - 1);
    }
  }

  /** With no success among the next n attempts, all n are made. */
  lemma {:induction false} ReconnectAttemptsNone(outcomes: nat -> bool, start: nat, n: nat)
    requires forall i :: start <= i < start + n ==> !outcomes(i)
    ensures ReconnectAttempts(outcomes, start, n) == n
    decreases n
  {
    if n > 0 {
      assert !outcomes(start);
      ReconnectAttemptsNone(outcomes, start + 1, n - 1);
    }
  }

  /** The client's connection state: attempts made, the three flags and the event log. */
  datatype ClientState = ClientState(connectCalls: nat, isConnected: bool, hasConnection: bool,
                                     consuming: bool, log: seq<ClientEvent>)

  /**
   * The client state after reconnect(n): the attempts up to the first success
   * (or all n), connected with the consumer re-armed when a callback is set
   * after a success, unchanged flags after n failures.
   */
  function AfterReconnect(s: ClientState, outcomes: nat -> bool, n: nat, hasCallback: bool): (r: ClientState)
    ensures r.connectCalls == s.connectCalls + ReconnectAttempts(outcomes, s.connectCalls, n)
    ensures r.isConnected == (s.isConnected || ReconnectSucceeds(outcomes, s.connectCalls, n))
  {
    var k := ReconnectAttempts(outcomes, s.connectCalls, n);
    if ReconnectSucceeds(outcomes, s.connectCalls, n) then
      ClientState(s.connectCalls + k, true, true, s.consuming || hasCallback,
                  s.log + FailedRounds(k - 1) + [ConnectAttempt(true)] + (if hasCallback then [ConsumerArmed] else []))
    else
      ClientState(s.connectCalls + k, s.isConnected, s.hasConnection, s.consuming, s.log + FailedRounds(k))
  }

  class RabbitMQClient {
    const broker: Broker
    const outcomes: nat -> bool
    const hasCallback: bool
    var connectCalls: nat
    var isConnected: bool
    var hasConnection: bool
    var consuming: bool
    ghost var log: seq<ClientEvent>

    ghost function State(): ClientState
      reads this
    {
      ClientState(connectCalls, isConnected, hasConnection, consuming, log)
    }

    constructor (broker: Broker, outcomes: nat -> bool, hasCallback: bool)
      ensures this.broker == broker && this.outcomes == outcomes && this.hasCallback == hasCallback
      ensures connectCalls == 0 && !isConnected && !hasConnection && !consuming && log == []
    {
      this.broker := broker;
      this.outcomes := outcomes;
      this.hasCallback := hasCallback;
      connectCalls, isConnected, hasConnection, consuming := 0, false, false, false;
      log := [];
    }

    /**
     * connect(): on success both queues are declared durable and the client is
     * connected; on failure nothing but the attempt counter changes.
     */
    method Connect() returns (ok: bool)
      modifies this, broker
      ensures ok == outcomes(old(connectCalls)) && connectCalls == old(connectCalls) + 1
      ensures log == old(log) + [ConnectAttempt(ok)]
      ensures consuming == old(consuming)
      ensures ok ==> isConnected && hasConnection
      ensures ok ==> broker.durable == old(broker.durable) + {IMAGE_QUEUE, RESULT_QUEUE}
      ensures ok ==> forall q :: broker.Queue(q) == old(broker.Queue(q))
      ensures !ok ==> isConnected == old(isConnected) && hasConnection == old(hasConnection)
      ensures !ok ==> unchanged(broker)
      ensures broker.settlements == old(broker.settlements)
    {
      ok := outcomes(connectCalls);
      connectCalls := connectCalls + 1;
      log := log + [ConnectAttempt(ok)];
      if ok {
        hasConnection := true;
        broker.DeclareDurable(IMAGE_QUEUE);
        broker.DeclareDurable(RESULT_QUEUE);
        isConnected := true;
      }
    }

    /**
     * send_image(): refused when not connected; otherwise exactly one persistent
     * envelope is published to the image queue, unless the publish call raises.
     */
    method SendImage(image: seq<byte>, metadata: Option<map<string, Value>>, now: real, publishOk: bool)
      returns (ok: bool)
      modifies broker
      ensures ok == (isConnected && publishOk)
      ensures ok ==> broker.queues == old(broker.queues)[IMAGE_QUEUE :=
        old(broker.Queue(IMAGE_QUEUE)) + [Message(Parsed(Envelope(image, metadata, now)), true)]]
      ensures !ok ==> broker.queues == old(broker.queues)
      ensures broker.durable == old(broker.durable) && broker.settlements == old(broker.settlements)
    {
      if !isConnected {
        return false;
      }
      if !publishOk {
        return false;
      }
      var message := Envelope(image, metadata, now);
      broker.Publish(IMAGE_QUEUE, Message(Parsed(message), true));
      ok := true;
    }

    /**
     * _on_result_received(): exactly one settlement per delivery. The parsed
     * result is handed to the callback (returned here); it is acked only when
     * parsing and the callback both completed without raising.
     */
    method OnResultReceived(tag: nat, body: Body, callbackRaises: bool) returns (handed: Option<Value>)
      modifies broker
      ensures handed == (if body.Parsed? && hasCallback then Some(body.value) else None)
      ensures broker.settlements == old(broker.settlements) +
        [if body.Parsed? && !(hasCallback && callbackRaises) then Ack(tag) else Nack(tag, false)]
      ensures broker.queues == old(broker.queues) && broker.durable == old(broker.durable)
    {
      handed := None;
      match body {
        case Unparseable =>
          broker.Settle(Nack(tag, false));
        case Parsed(result) =>
          if hasCallback {
            handed := Some(result);
            if callbackRaises {
              broker.Settle(Nack(tag, false));
              return;
            }
          }
          broker.Settle(Ack(tag));
      }
    }

    /** start_consuming_results(): refused unless connected. */
    method StartConsumingResults() returns (ok: bool)
      modifies this
      ensures ok == old(isConnected)
      ensures ok ==> consuming && log == old(log) + [ConsumerArmed]
      ensures !ok ==> consuming == old(consuming) && log == old(log)
      ensures isConnected == old(isConnected) && hasConnection == old(hasConnection)
      ensures connectCalls == old(connectCalls)
    {
      if !isConnected {
        return false;
      }
      consuming := true;
      log := log + [ConsumerArmed];
      ok := true;
    }

    /** disconnect(): only acts when a connection object exists. */
    method Disconnect()
      modifies this
      ensures old(hasConnection) ==> !isConnected && !consuming && log == old(log) + [ConsumerStopped]
      ensures !old(hasConnection) ==>
        isConnected == old(isConnected) && consuming == old(consuming) && log == old(log)
      ensures hasConnection == old(hasConnection) && connectCalls == old(connectCalls)
    {
      if hasConnection {
        consuming := false;
        log := log + [ConsumerStopped];
        isConnected := false;
      }
    }

    /**
     * reconnect(max_attempts): at most max_attempts calls to connect, stopping
     * at the first success; each failed attempt is followed by one retry delay.
     * With no bound it loops until the broker accepts, which the oracle must
     * eventually do. After a success the result consumer is re-armed when a
     * callback is set.
     */
    method Reconnect(maxAttempts: Option<nat>) returns (ok: bool)
      requires maxAttempts.None? ==> exists j :: j >= connectCalls && outcomes(j)
      modifies this, broker
      ensures old(connectCalls) < connectCalls || (!ok && maxAttempts == Some(0))
      ensures maxAttempts.Some? ==> connectCalls <= old(connectCalls) + maxAttempts.value
      ensures ok ==> outcomes(connectCalls - 1)
      ensures ok ==> forall i :: old(connectCalls) <= i < connectCalls - 1 ==> !outcomes(i)
      ensures !ok ==> maxAttempts.Some? && connectCalls == old(connectCalls) + maxAttempts.value
      ensures !ok ==> forall i :: old(connectCalls) <= i < connectCalls ==> !outcomes(i)
      ensures ok ==> isConnected
      ensures ok ==> consuming == (hasCallback || old(consuming))
      ensures ok ==> log == old(log) + FailedRounds(connectCalls - old(connectCalls) - 1)
                               + [ConnectAttempt(true)] + (if hasCallback then [ConsumerArmed] else [])
      ensures !ok ==> isConnected == old(isConnected) && consuming == old(consuming)
      ensures !ok ==> log == old(log) + FailedRounds(connectCalls - old(connectCalls))
      ensures maxAttempts.Some? ==> State() == AfterReconnect(old(State()), outcomes, maxAttempts.value, hasCallback)
      ensures broker.settlements == old(broker.settlements)
      ensures broker.durable == old(broker.durable) + (if ok then {IMAGE_QUEUE, RESULT_QUEUE} else {})
      ensures forall q :: broker.Queue(q) == old(broker.Queue(q))
    {
      ok := RetryConnect(maxAttempts);
      if ok && hasCallback {
        var _ := StartConsumingResults();
      }
      if maxAttempts.Some? {
        if ok {
          ReconnectAttemptsFirst(outcomes, old(connectCalls), maxAttempts.value, connectCalls - old(connectCalls));
          assert outcomes(connectCalls - 1);
          assert ReconnectSucceeds(outcomes, old(connectCalls), maxAttempts.value);
        } else {
          ReconnectAttemptsNone(outcomes, old(connectCalls), maxAttempts.value);
          assert !ReconnectSucceeds(outcomes, old(connectCalls), maxAttempts.value);
        }
      }
    }

    /** The retry loop of reconnect: connect, and on failure wait RETRY_DELAY and try again. */
    method RetryConnect(maxAttempts: Option<nat>) returns (connected: bool)
      requires maxAttempts.None? ==> exists j :: j >= connectCalls && outcomes(j)
      modifies this, broker
      ensures old(connectCalls) < connectCalls || (!connected && maxAttempts == Some(0))
      ensures maxAttempts.Some? ==> connectCalls <= old(connectCalls) + maxAttempts.value
      ensures connected ==> outcomes(connectCalls - 1)
      ensures connected ==> forall i :: old(connectCalls) <= i < connectCalls - 1 ==> !outcomes(i)
      ensures !connected ==> maxAttempts.Some? && connectCalls == old(connectCalls) + maxAttempts.value
      ensures !connected ==> forall i :: old(connectCalls) <= i < connectCalls ==> !outcomes(i)
      ensures connected ==> isConnected && hasConnection && consuming == old(consuming)
      ensures connected ==> log == old(log) + FailedRounds(connectCalls - old(connectCalls) - 1) + [ConnectAttempt(true)]
      ensures !connected ==> isConnected == old(isConnected) && hasConnection == old(hasConnection)
      ensures !connected ==> consuming == old(consuming) && log == old(log) + FailedRounds(connectCalls - old(connectCalls))
      ensures broker.settlements == old(broker.settlements)
      ensures broker.durable == old(broker.durable) + (if connected then {IMAGE_QUEUE, RESULT_QUEUE} else {})
      ensures forall q :: broker.Queue(q) == old(broker.Queue(q))
    {
      ghost var w: nat := 0;
      if maxAttempts.None? {
        w :| w >= connectCalls && outcomes(w);
      }
      var attempts: nat := 0;
      while maxAttempts.None? || attempts < maxAttempts.value
        invariant connectCalls == old(connectCalls) + attempts
        invariant maxAttempts.Some? ==> attempts <= maxAttempts.value
        invariant forall i :: old(connectCalls) <= i < connectCalls ==> !outcomes(i)
        invariant maxAttempts.None? ==> connectCalls <= w && outcomes(w)
        invariant log == old(log) + FailedRounds(attempts)
        invariant isConnected == old(isConnected) && consuming == old(consuming)
        invariant hasConnection == old(hasConnection)
        invariant unchanged(broker)
        decreases if maxAttempts.Some? then maxAttempts.value - attempts else w - connectCalls
      {
        attempts := attempts + 1;
        connected := Connect();
        if connected {
          return;
        }
        log := log + [Sleep(RETRY_DELAY)];
      }
      connected := false;
    }
  }
}
