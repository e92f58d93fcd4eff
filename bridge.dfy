/**
 * The host-side bridge to the embedded engine (the `useUnityBridge` hook):
 * event bus, outbound queue, inbound deduplicator, connection lifecycle and
 * the public facade. Timers and browser events are methods the environment
 * calls; the browser's reachability of the engine is the `env` field.
 */
module UnityBridge {
  import opened Wrappers
  import opened Text
  import opened Js
  import opened EventBus
  import Dedup
  import opened Handshake
  import opened Transport

  /** `UnityBridgeStatus` (the heartbeat time is left out). */
  datatype BridgeStatus = BridgeStatus(
    isUnityLoaded: bool,
    isVoiceRecording: bool,
    connectionStatus: ConnectionStatus,
    hasUnityInstance: bool,
    queuedMessages: nat)

  const InitialStatus := BridgeStatus(false, false, Connecting, false, 0)

  /** The data `emit` passes to listeners. */
  datatype BusData =
    | Output(payload: JsValue)
    | Sent(input: WebInput)
    | SendError(input: WebInput)
    | StatusChange(status: ConnectionStatus)
    | UnityConnected(instance: bool)

  /**
   * The event names `handleUnityOutput` emits for an admitted payload, in
   * order: `unity-output`, then `unity-${type}`, and `unity-${type}` once more
   * for the three types its `switch` names.
   */
  function OutputEvents(d: JsValue): (r: seq<string>)
    ensures |r| >= 2 && r[0] == "unity-output" && r[1] == "unity-" + ToJsString(Get(d, "type"))
    ensures |r| == 3 <==> Get(d, "type") in {Str("user_text"), Str("npc_text"), Str("talking_status")}
    ensures |r| == 3 ==> r[2] == r[1]
    ensures |r| <= 3
  {
    var t := Get(d, "type");
    var named := "unity-" + ToJsString(t);
    if t == Str("user_text") || t == Str("npc_text") || t == Str("talking_status") then ["unity-output", named, named]
    else ["unity-output", named]
  }

  /** The deliveries of emitting `data` under each of `names` in turn. */
  function Broadcast(registry: map<string, seq<Listener>>, names: seq<string>, data: BusData): seq<Delivery<BusData>>
    decreases |names|
  {
    if names == [] then []
    else Broadcast(registry, names[..|names| - 1], data)
         + Fanout(ListenersOf(registry, names[|names| - 1]), names[|names| - 1], data)
  }

  /** Emitting under one more name extends the deliveries by that name's fan-out. */
  lemma BroadcastStep(registry: map<string, seq<Listener>>, names: seq<string>, i: nat, data: BusData)
    requires i < |names|
    ensures Broadcast(registry, names[..i + 1], data)
         == Broadcast(registry, names[..i], data) + Fanout(ListenersOf(registry, names[i]), names[i], data)
  {
    assert names[..i + 1][..i] == names[..i];
  }

  /** The bus notice of one delivery attempt: `message-sent`, `send-error`, or none when no target exists. */
  function TransmitDeliveries(registry: map<string, seq<Listener>>, env: Environment, input: WebInput): seq<Delivery<BusData>> {
    match Deliver(env, input)
    case Delivered(_) => Fanout(ListenersOf(registry, "message-sent"), "message-sent", Sent(input))
    case Threw => Fanout(ListenersOf(registry, "send-error"), "send-error", SendError(input))
    case NoTarget => []
  }

  /** The bus notices of delivering `inputs` one after another. */
  function FlushDeliveries(registry: map<string, seq<Listener>>, env: Environment, inputs: seq<WebInput>): seq<Delivery<BusData>>
    decreases |inputs|
  {
    if inputs == [] then []
    else FlushDeliveries(registry, env, inputs[..|inputs| - 1]) + TransmitDeliveries(registry, env, inputs[|inputs| - 1])
  }

  /** Delivering one more queued intent extends the wire and the bus notices by that intent's own. */
  lemma FlushStep(registry: map<string, seq<Listener>>, env: Environment, messages: seq<WebInput>, i: nat)
    requires i < |messages|
    ensures messages[..i + 1] == messages[..i] + [messages[i]]
    ensures FlushWire(env, messages[..i + 1]) == FlushWire(env, messages[..i]) + WireOf(env, messages[i])
    ensures FlushDeliveries(registry, env, messages[..i + 1])
         == FlushDeliveries(registry, env, messages[..i]) + TransmitDeliveries(registry, env, messages[i])
  {
    assert messages[..i + 1][..i] == messages[..i];
  }

  class Bridge {
    /** `eventListeners`: event name to listeners in registration order. */
    var listeners: map<string, seq<Listener>>
    /** Every listener invocation made by `emit`, in order. */
    var deliveries: seq<Delivery<BusData>>
    /** `messageQueue`: intents submitted before the engine was loaded. */
    var queue: seq<WebInput>
    /** `processedMessages` with its deletion timers and the clock. */
    const dedup: Dedup.Deduplicator
    var status: BridgeStatus
    var phase: Phase
    /** What the browser can currently reach. */
    var env: Environment
    /** Every message handed to the peer, in order. */
    var wire: seq<Wire>

    /** Every intent passed to `sendToUnity` by the facade. */
    ghost var submitted: seq<WebInput>
    /** Every intent handed to the transport adapter (delivered or not). */
    ghost var handed: seq<WebInput>

    ghost predicate Valid()
      reads this, dedup
    {
      LifecycleValid() && dedup.Valid()
    }

    /** The status mirrors the handshake phase and the queue; nothing is lost between submission and hand-over. */
    ghost predicate LifecycleValid()
      reads this`status, this`phase, this`queue, this`submitted, this`handed
    {
      status.queuedMessages == |queue|
      && (status.isUnityLoaded <==> phase.Settled?)
      && status.connectionStatus == (if phase.Settled? then Connected else Connecting)
      && status.hasUnityInstance == (phase.Settled? && phase.found)
      && (status.isUnityLoaded ==> queue == [])
      && (phase.Polling? ==> 1 <= phase.attempts < MaxAttempts)
      && submitted == handed + queue
    }

    /** The hook's initial state, before its mount effect runs. */
    constructor(env0: Environment)
      ensures Valid()
      ensures status == InitialStatus && phase == Idle && env == env0
      ensures fresh(dedup) && dedup.processed == map[] && dedup.arrivals == []
      ensures listeners == map[] && deliveries == [] && queue == [] && wire == []
      ensures submitted == [] && handed == []
    {
      listeners, deliveries, queue := map[], [], [];
      status, phase, env, wire := InitialStatus, Idle, env0, [];
      submitted, handed := [], [];
      dedup := new Dedup.Deduplicator();
    }

    /** `on(name, l)`. */
    method On(name: string, l: Listener)
      modifies this`listeners
      ensures listeners == Register(old(listeners), name, l)
    {
      listeners := listeners[name := ListenersOf(listeners, name) + [l]];
    }

    /** `off(name, l)`: only the first registration of `l` goes. */
    method Off(name: string, l: Listener)
      modifies this`listeners
      ensures listeners == Unregister(old(listeners), name, l)
    {
      if name in listeners {
        var ls := listeners[name];
        var index := IndexOf(ls, l);
        if index > -1 {
          assert RemoveFirst(ls, l) == ls[..index] + ls[index + 1..];
          listeners := listeners[name := ls[..index] + ls[index + 1..]];
        } else {
          assert RemoveFirst(ls, l) == ls;
          assert listeners == listeners[name := ls];
        }
      }
    }

    /**
     * `emit(name, data)`: every listener of `name`, in registration order, is
     * invoked; an exception thrown by one is caught and the rest still run.
     */
    method Emit(name: string, data: BusData)
      modifies this`deliveries
      ensures deliveries == old(deliveries) + Fanout(ListenersOf(listeners, name), name, data)
    {
      var ls := ListenersOf(listeners, name);
      var i := 0;
      while i < |ls|
        invariant 0 <= i <= |ls|
        invariant deliveries == old(deliveries) + Fanout(ls[..i], name, data)
      {
        deliveries := deliveries + [Delivery(ls[i], name, data, ls[i].throws)];
        assert ls[..i + 1][..i] == ls[..i];
        AppendAssoc(old(deliveries), Fanout(ls[..i], name, data), [Delivery(ls[i], name, data, ls[i].throws)]);
        i := i + 1;
      }
      assert ls[..|ls|] == ls;
    }

    /** One delivery attempt through the transport adapter (the `try` block of `sendToUnity`). */
    method Transmit(input: WebInput) returns (ok: bool)
      modifies this`handed, this`wire, this`deliveries
      ensures ok <==> Deliver(env, input).Delivered?
      ensures handed == old(handed) + [input]
      ensures wire == old(wire) + WireOf(env, input)
      ensures deliveries == old(deliveries) + TransmitDeliveries(listeners, env, input)
    {
      handed := handed + [input];
      var attempt := Deliver(env, input);
      match attempt
      case Delivered(msg) =>
        wire := wire + [msg];
        Emit("message-sent", Sent(input));
        ok := true;
      case Threw =>
        Emit("send-error", SendError(input));
        ok := false;
      case NoTarget =>
        ok := false;
    }

    /** The effect of `sendToUnity(input)` on everything but `status`. */
    twostate predicate SendEffect(input: WebInput, ok: bool)
      reads this
    {
      submitted == old(submitted) + [input]
      && listeners == old(listeners) && env == old(env) && phase == old(phase)
      && if !old(status.isUnityLoaded) then
           queue == old(queue) + [input] && !ok
           && handed == old(handed) && wire == old(wire) && deliveries == old(deliveries)
         else
           queue == old(queue) && (ok <==> Deliver(env, input).Delivered?)
           && handed == old(handed) + [input]
           && wire == old(wire) + WireOf(env, input)
           && deliveries == old(deliveries) + TransmitDeliveries(listeners, env, input)
    }

    /**
     * `sendToUnity(input)`: before the engine is loaded the intent is queued
     * and `false` returned; afterwards it is delivered at once.
     */
    method SendToUnity(input: WebInput) returns (ok: bool)
      requires Valid()
      modifies this`queue, this`status, this`submitted, this`handed, this`wire, this`deliveries
      ensures Valid()
      ensures SendEffect(input, ok)
      ensures status == old(status).(queuedMessages := |queue|)
    {
      submitted := submitted + [input];
      if !status.isUnityLoaded {
        queue := queue + [input];
        status := status.(queuedMessages := |queue|);
        ok := false;
      } else {
        ok := Transmit(input);
      }
    }

    /** The loop of `processMessageQueue`: each of `messages` goes through the transport adapter in turn. */
    method TransmitAll(messages: seq<WebInput>)
      modifies this`handed, this`wire, this`deliveries
      ensures handed == old(handed) + messages
      ensures wire == old(wire) + FlushWire(env, messages)
      ensures deliveries == old(deliveries) + FlushDeliveries(listeners, env, messages)
    {
      var i := 0;
      while i < |messages|
        invariant 0 <= i <= |messages|
        invariant handed == old(handed) + messages[..i]
        invariant wire == old(wire) + FlushWire(env, messages[..i])
        invariant deliveries == old(deliveries) + FlushDeliveries(listeners, env, messages[..i])
      {
        var _ := Transmit(messages[i]);
        FlushStep(listeners, env, messages, i);
        AppendAssoc(old(handed), messages[..i], [messages[i]]);
        AppendAssoc(old(wire), FlushWire(env, messages[..i]), WireOf(env, messages[i]));
        AppendAssoc(old(deliveries), FlushDeliveries(listeners, env, messages[..i]), TransmitDeliveries(listeners, env, messages[i]));
        i := i + 1;
      }
      assert messages[..|messages|] == messages;
    }

    /**
     * `processMessageQueue()`: when loaded with a non-empty queue, the queue is
     * snapshotted and emptied, every snapshotted intent is delivered in order,
     * and the queued count becomes 0 whatever the individual outcomes.
     */
    method ProcessMessageQueue()
      requires status.queuedMessages == |queue|
      modifies this`queue, this`status, this`handed, this`wire, this`deliveries
      ensures old(status.isUnityLoaded) ==>
                queue == [] && status == old(status).(queuedMessages := 0)
                && handed == old(handed) + old(queue)
                && wire == old(wire) + FlushWire(env, old(queue))
                && deliveries == old(deliveries) + FlushDeliveries(listeners, env, old(queue))
      ensures !old(status.isUnityLoaded) ==>
                queue == old(queue) && status == old(status) && handed == old(handed)
                && wire == old(wire) && deliveries == old(deliveries)
    {
      if status.isUnityLoaded && |queue| > 0 {
        var messages := queue;
        queue := [];
        TransmitAll(messages);
        status := status.(queuedMessages := 0);
      } else if status.isUnityLoaded {
        assert handed + [] == handed && wire + [] == wire && deliveries + [] == deliveries;
      }
    }

    /**
     * The emissions of an admitted payload: `data` goes out under each of
     * `names` in turn (`OutputEvents(d)`: the generic event, then the typed
     * one, twice for three types).
     */
    method EmitEach(names: seq<string>, data: BusData)
      modifies this`deliveries
      ensures deliveries == old(deliveries) + Broadcast(listeners, names, data)
    {
      var i := 0;
      while i < |names|
        invariant 0 <= i <= |names|
        invariant deliveries == old(deliveries) + Broadcast(listeners, names[..i], data)
      {
        Emit(names[i], data);
        BroadcastStep(listeners, names, i, data);
        AppendAssoc(old(deliveries), Broadcast(listeners, names[..i], data), Fanout(ListenersOf(listeners, names[i]), names[i], data));
        i := i + 1;
      }
      assert names[..|names|] == names;
    }

    /**
     * `handleUnityOutput(d)`: a null or non-object payload is dropped; so is a
     * payload whose key is already processed, i.e. one whose key was admitted
     * less than 5000 ms ago. An admitted payload is emitted on every name of
     * `OutputEvents(d)`.
     */
    method HandleUnityOutput(d: JsValue)
      requires Valid()
      modifies dedup, this`deliveries
      ensures Valid() && dedup.now == old(dedup.now)
      ensures !d.Obj? || Dedup.DedupKey(d).None? ==>
                dedup.processed == old(dedup.processed) && dedup.arrivals == old(dedup.arrivals)
                && deliveries == old(deliveries)
      ensures d.Obj? && Dedup.DedupKey(d).Some? ==>
                var key := Dedup.DedupKey(d).value;
                dedup.arrivals == old(dedup.arrivals) + [Dedup.Arrival(key, dedup.now)]
                && (key in old(dedup.processed) ==>
                      dedup.processed == old(dedup.processed) && deliveries == old(deliveries))
                && (key !in old(dedup.processed) ==>
                      dedup.processed == old(dedup.processed)[key := dedup.now + Dedup.Window]
                      && deliveries == old(deliveries) + Broadcast(listeners, OutputEvents(d), Output(d)))
    {
      if !d.Obj? {
        return;
      }
      var k := Dedup.DedupKey(d);
      if k.None? {
        return;
      }
      var isNew := dedup.Admit(k.value);
      if isNew {
        EmitEach(OutputEvents(d), Output(d));
      }
    }

    /** The clock advances; every deletion timer that is due fires. */
    method AdvanceClock(dt: nat)
      requires Valid()
      modifies dedup
      ensures Valid()
      ensures dedup.now == old(dedup.now) + dt
      ensures dedup.processed == Dedup.Expire(old(dedup.processed), dedup.now)
    {
      dedup.Advance(dt);
    }

    /**
     * The browser's reachability of the engine changes. This is the
     * environment's move, not an operation of the hook.
     */
    method SetEnvironment(e: Environment)
      modifies this`env
      ensures env == e
    {
      env := e;
    }

    /**
     * Connects the bridge: status loaded and connected with `found` as
     * `hasUnityInstance`, the queue flushed, then `unity-connected` emitted.
     */
    method Settle(found: bool, instance: bool)
      requires Valid() && (phase.AwaitingReady? || phase.Polling?)
      modifies this`status, this`phase, this`queue, this`handed, this`wire, this`deliveries
      ensures Valid()
      ensures phase == Settled(found)
      ensures status == old(status).(isUnityLoaded := true, hasUnityInstance := found,
                                     connectionStatus := Connected, queuedMessages := 0)
      ensures queue == [] && handed == old(handed) + old(queue)
      ensures wire == old(wire) + FlushWire(env, old(queue))
      ensures deliveries == old(deliveries)
                            + Fanout(ListenersOf(listeners, "connection-status-change"), "connection-status-change", StatusChange(Connected))
                            + FlushDeliveries(listeners, env, old(queue))
                            + Fanout(ListenersOf(listeners, "unity-connected"), "unity-connected", UnityConnected(instance))
    {
      status := status.(isUnityLoaded := true, hasUnityInstance := found);
      status := status.(connectionStatus := Connected);
      Emit("connection-status-change", StatusChange(Connected));
      phase := Settled(found);
      ProcessMessageQueue();
      assert submitted == handed + queue;
      Emit("unity-connected", UnityConnected(instance));
    }

    /**
     * What the code as written does when the handshake settles. The flush in
     * the handshake's callback is the `processMessageQueue` of the render
     * that created the callback, which still reads `isUnityLoaded` as false,
     * so nothing is sent. Committing `isUnityLoaded` recreates
     * `initUnityBridge` (the flag is among its dependencies), so the mount
     * effect is cleaned up and runs again: the cleanup empties the queue, and
     * the re-run announces `connecting` and arms a new handshake, while
     * `queuedMessages` keeps the old count.
     */
    method SettleAsWritten(found: bool, instance: bool)
      requires Valid() && (phase.AwaitingReady? || phase.Polling?)
      modifies this`status, this`phase, this`queue, this`deliveries
      ensures status == old(status).(isUnityLoaded := true, hasUnityInstance := found, connectionStatus := Connecting)
      ensures phase == AwaitingReady && queue == [] && wire == old(wire)
      ensures submitted == handed + old(queue)
      ensures old(queue) != [] ==> !LifecycleValid()
    {
      status := status.(isUnityLoaded := true, hasUnityInstance := found);
      status := status.(connectionStatus := Connected);
      Emit("connection-status-change", StatusChange(Connected));
      phase := Settled(found);
      Emit("unity-connected", UnityConnected(instance));
      queue := [];
      status := status.(connectionStatus := Connecting);
      Emit("connection-status-change", StatusChange(Connecting));
      phase := AwaitingReady;
    }

    /** `initUnityBridge()` run once by the mount effect: status `connecting`, ready listener and timeout armed. */
    method InitUnityBridge()
      requires Valid()
      modifies this`status, this`phase, this`deliveries
      ensures Valid()
      ensures phase == Next(old(phase), Init)
      ensures old(phase).Idle? ==>
                deliveries == old(deliveries) + Fanout(ListenersOf(listeners, "connection-status-change"), "connection-status-change", StatusChange(Connecting))
      ensures !old(phase).Idle? ==> deliveries == old(deliveries) && status == old(status)
      ensures status.connectionStatus == old(status).connectionStatus
    {
      if phase.Idle? {
        status := status.(connectionStatus := Connecting);
        Emit("connection-status-change", StatusChange(Connecting));
        phase := AwaitingReady;
      }
    }

    /** One run of `checkUnity` after `attempts` earlier runs. */
    method CheckUnity(attempts: nat)
      requires Valid() && (phase.AwaitingReady? || phase.Polling?) && attempts < MaxAttempts
      modifies this`status, this`phase, this`queue, this`handed, this`wire, this`deliveries
      ensures Valid()
      ensures phase == Probe(attempts, env.instance)
      ensures !phase.Settled? ==> status == old(status) && queue == old(queue) && deliveries == old(deliveries) && wire == old(wire)
    {
      var n := attempts + 1;
      if env.instance {
        Settle(true, true);
      } else if n >= MaxAttempts {
        Settle(false, false);
      } else {
        phase := Polling(n);
      }
    }

    /**
     * The 30 s timeout: if the ready message has not arrived, the ready
     * listener is removed and polling starts; without an iframe polling fails
     * at once, and a failed poll still connects.
     */
    method OnHandshakeTimeout()
      requires Valid()
      modifies this`status, this`phase, this`queue, this`handed, this`wire, this`deliveries
      ensures Valid()
      ensures phase == Next(old(phase), Timeout(env.iframe, env.instance))
      ensures !old(phase).AwaitingReady? ==> status == old(status) && deliveries == old(deliveries) && wire == old(wire)
    {
      if phase.AwaitingReady? {
        if !env.iframe {
          Settle(false, false);
        } else {
          CheckUnity(0);
        }
      }
    }

    /** The 100 ms polling timer. */
    method OnPollTimer()
      requires Valid()
      modifies this`status, this`phase, this`queue, this`handed, this`wire, this`deliveries
      ensures Valid()
      ensures phase == Next(old(phase), PollTimer(env.instance))
      ensures !old(phase).Polling? ==> status == old(status) && deliveries == old(deliveries) && wire == old(wire)
    {
      if phase.Polling? {
        CheckUnity(phase.attempts);
      }
    }

    /**
     * A `UNITY_READY` message on the window: while the handshake waits, its
     * listener connects the bridge with an instance and removes itself.
     */
    method OnReadyMessage()
      requires Valid()
      modifies this`status, this`phase, this`queue, this`handed, this`wire, this`deliveries
      ensures Valid()
      ensures phase == Next(old(phase), Ready)
      ensures old(phase).AwaitingReady? ==>
                status == old(status).(isUnityLoaded := true, hasUnityInstance := true,
                                       connectionStatus := Connected, queuedMessages := 0)
                && queue == [] && wire == old(wire) + FlushWire(env, old(queue))
      ensures !old(phase).AwaitingReady? ==>
                status == old(status) && queue == old(queue) && wire == old(wire) && deliveries == old(deliveries)
    {
      if phase.AwaitingReady? {
        Settle(true, env.instance);
      }
    }

    /**
     * A `UNITY_OUTPUT` message on the window carrying `payload`. While the
     * handshake waits, its listener hands an object payload on; from
     * initialisation on, the page-wide listener does too. The second handling
     * of the same payload finds its key processed, so it is emitted at most once.
     */
    method OnOutputMessage(payload: JsValue)
      requires Valid()
      modifies dedup, this`deliveries
      ensures Valid()
      ensures old(phase).Idle? || !payload.Obj? || Dedup.DedupKey(payload).None?
              || Dedup.DedupKey(payload).value in old(dedup.processed) ==>
                dedup.processed == old(dedup.processed) && deliveries == old(deliveries)
      ensures !old(phase).Idle? && payload.Obj? && Dedup.DedupKey(payload).Some?
              && Dedup.DedupKey(payload).value !in old(dedup.processed) ==>
                dedup.processed == old(dedup.processed)[Dedup.DedupKey(payload).value := dedup.now + Dedup.Window]
                && deliveries == old(deliveries) + Broadcast(listeners, OutputEvents(payload), Output(payload))
    {
      if phase.AwaitingReady? && payload.Obj? {
        HandleUnityOutput(payload);
        ghost var p1, d1 := dedup.processed, deliveries;
        HandleUnityOutput(payload);
        assert dedup.processed == p1 && deliveries == d1;
      } else if !phase.Idle? && payload.Obj? {
        HandleUnityOutput(payload);
      }
    }

    /** The effect that flushes the queue 2 s after the engine is loaded. */
    method DelayedFlush()
      requires Valid()
      modifies this`queue, this`status, this`handed, this`wire, this`deliveries
      ensures Valid()
      ensures unchanged(this)
    {
      if status.isUnityLoaded {
        assert FlushWire(env, queue) == [] && FlushDeliveries(listeners, env, queue) == [];
        assert status.(queuedMessages := 0) == status;
        ProcessMessageQueue();
        assert handed == old(handed) && wire == old(wire) && deliveries == old(deliveries);
        assert queue == old(queue) && status == old(status);
      }
    }

    /** `sendText(text)`: blank text is refused; otherwise the trimmed text is sent. */
    method SendText(text: string) returns (ok: bool)
      requires Valid()
      modifies this`queue, this`status, this`submitted, this`handed, this`wire, this`deliveries
      ensures Valid()
      ensures Blank(text) ==> !ok && unchanged(this)
      ensures !Blank(text) ==> SendEffect(WebInput(TextInput, Some(Trim(text))), ok)
                               && status == old(status).(queuedMessages := |queue|)
    {
      TrimSpec(text);
      if Trim(text) == "" {
        return false;
      }
      ok := SendToUnity(WebInput(TextInput, Some(Trim(text))));
    }

    /** `startVoice()`: recording is set before sending, whatever the result. */
    method StartVoice() returns (ok: bool)
      requires Valid()
      modifies this`queue, this`status, this`submitted, this`handed, this`wire, this`deliveries
      ensures Valid()
      ensures SendEffect(WebInput(VoiceStart, None), ok)
      ensures status == old(status).(isVoiceRecording := true, queuedMessages := |queue|)
    {
      status := status.(isVoiceRecording := true);
      ok := SendToUnity(WebInput(VoiceStart, None));
    }

    /** `stopVoice()`: recording is cleared before sending, whatever the result. */
    method StopVoice() returns (ok: bool)
      requires Valid()
      modifies this`queue, this`status, this`submitted, this`handed, this`wire, this`deliveries
      ensures Valid()
      ensures SendEffect(WebInput(VoiceStop, None), ok)
      ensures status == old(status).(isVoiceRecording := false, queuedMessages := |queue|)
    {
      status := status.(isVoiceRecording := false);
      ok := SendToUnity(WebInput(VoiceStop, None));
    }
  }
}
