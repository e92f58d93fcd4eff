/**
 * The bridge's connection lifecycle: the ready handshake, its 30 s timeout,
 * and the polling fallback that probes for the engine instance every 100 ms
 * and gives up after `MaxAttempts` probes.
 */
module Handshake {

  /** The largest number of probes `waitForUnityInstance` makes. */
  const MaxAttempts: nat := 150

  datatype ConnectionStatus = Connecting | Connected | Disconnected

  /**
   * Idle: not yet initialised. AwaitingReady: the ready listener is registered
   * and the timeout armed. Polling: `attempts` probes have run without finding
   * the instance. Settled: connected; `found` is `hasUnityInstance`.
   */
  datatype Phase = Idle | AwaitingReady | Polling(attempts: nat) | Settled(found: bool)

  /**
   * What drives the lifecycle: initialisation, a ready message, the timeout
   * (with whether the iframe exists and whether the instance is visible at the
   * first probe) and the 100 ms polling timer (with whether the instance is visible).
   */
  datatype Signal = Init | Ready | Timeout(iframe: bool, instance: bool) | PollTimer(instance: bool)

  /** One run of `checkUnity` after `attempts` earlier runs. */
  function Probe(attempts: nat, instance: bool): (p: Phase)
    ensures instance ==> p == Settled(true)
    ensures !instance && attempts + 1 >= MaxAttempts ==> p == Settled(false)
    ensures !instance && attempts + 1 < MaxAttempts ==> p == Polling(attempts + 1)
  {
    if instance then Settled(true)
    else if attempts + 1 >= MaxAttempts then Settled(false)
    else Polling(attempts + 1)
  }

  /** The lifecycle transition for one signal; a signal whose listener or timer is gone changes nothing. */
  function Next(p: Phase, s: Signal): Phase {
    match s
    case Init => if p.Idle? then AwaitingReady else p
    case Ready => if p.AwaitingReady? then Settled(true) else p
    case Timeout(iframe, instance) =>
      if !p.AwaitingReady? then p
      else if !iframe then Settled(false)
      else Probe(0, instance)
    case PollTimer(instance) => if p.Polling? then Probe(p.attempts, instance) else p
  }

  function Run(p: Phase, signals: seq<Signal>): Phase
    decreases |signals|
  {
    if signals == [] then p else Run(Next(p, signals[0]), signals[1..])
  }

  /** The polling timer firing once per observation of the instance. */
  function Polls(observations: seq<bool>): (r: seq<Signal>)
    ensures |r| == |observations|
    ensures forall i :: 0 <= i < |r| ==> r[i] == PollTimer(observations[i])
  {
    seq(|observations|, i requires 0 <= i < |observations| => PollTimer(observations[i]))
  }

  /** A connected bridge stays connected: a late timeout, ready or poll changes nothing. */
  lemma {:induction false} SettledIsFinal(found: bool, signals: seq<Signal>)
    ensures Run(Settled(found), signals) == Settled(found)
    decreases |signals|
  {
    if signals != [] {
      SettledIsFinal(found, signals[1..]);
    }
  }

  /**
   * Polling never hangs: from `n` probes, `MaxAttempts - n` more timer ticks
   * always settle, and the instance counts as found exactly when one of those
   * probes saw it.
   */
  lemma {:induction false} PollingSettles(n: nat, observations: seq<bool>)
    requires n < MaxAttempts
    requires |observations| == MaxAttempts - n
    ensures Run(Polling(n), Polls(observations)) ==
            Settled(exists i :: 0 <= i < |observations| && observations[i])
    decreases |observations|
  {
    var signals := Polls(observations);
    var next := Probe(n, observations[0]);
    assert Next(Polling(n), signals[0]) == next;
    assert signals[1..] == Polls(observations[1..]);
    if observations[0] {
      SettledIsFinal(true, signals[1..]);
    } else if n + 1 >= MaxAttempts {
      assert |observations| == 1;
      assert signals[1..] == [];
    } else {
      PollingSettles(n + 1, observations[1..]);
      var tail := observations[1..];
      assert (exists i :: 0 <= i < |tail| && tail[i]) <==> (exists i :: 0 <= i < |observations| && observations[i]) by {
        forall i | 0 <= i < |tail| && tail[i] ensures observations[i + 1] { }
        forall i | 0 <= i < |observations| && observations[i] ensures i > 0 && tail[i - 1] { }
      }
    }
  }

  /**
   * After the timeout, the first probe plus `MaxAttempts - 1` polling ticks
   * always reach the connected state, whatever the engine does.
   */
  lemma TimeoutAlwaysConnects(iframe: bool, first: bool, observations: seq<bool>)
    requires |observations| == MaxAttempts - 1
    ensures Run(AwaitingReady, [Timeout(iframe, first)] + Polls(observations)).Settled?
  {
    var signals := [Timeout(iframe, first)] + Polls(observations);
    assert signals[1..] == Polls(observations);
    var p := Next(AwaitingReady, signals[0]);
    if p.Settled? {
      SettledIsFinal(p.found, signals[1..]);
    } else {
      assert p == Polling(1);
      PollingSettles(1, observations);
    }
  }
}
