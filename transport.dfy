/**
 * Outbound intents and the transport adapter of the bridge: a direct
 * `SendMessage` call when the engine instance is reachable, otherwise a
 * `postMessage` to the iframe.
 */
module Transport {
  import opened Wrappers

  datatype InputType = TextInput | VoiceStart | VoiceStop

  /** `WebInputData`: `{type, content?, source: 'web'}` (the source is always `web`). */
  datatype WebInput = WebInput(kind: InputType, content: Option<string>)

  /** The `type` field of an intent as serialised. */
  function KindName(k: InputType): string {
    match k
    case TextInput => "text"
    case VoiceStart => "voice_start"
    case VoiceStop => "voice_stop"
  }

  /**
   * What the host can reach: `instance` is `window.unityInstance` with a
   * `SendMessage` function, `iframe` the `unity-iframe` element with its
   * window, `failing` that the delivery call throws.
   */
  datatype Environment = Environment(instance: bool, iframe: bool, failing: bool)

  const TargetObject := "ConvaiGRPCWebAPI"
  const TargetMethod := "InjectWebInput"

  /** A message handed to the peer. */
  datatype Wire =
    | DirectCall(target: string, methodName: string, input: WebInput)
    | Posted(input: WebInput)

  /** Outcome of one delivery attempt. */
  datatype Attempt = Delivered(msg: Wire) | NoTarget | Threw

  /** One delivery attempt of a loaded bridge. */
  function Deliver(env: Environment, input: WebInput): (r: Attempt)
    ensures r.Delivered? <==> (env.instance || env.iframe) && !env.failing
    ensures r.NoTarget? <==> !env.instance && !env.iframe
    ensures r.Delivered? ==> r.msg.input == input
    ensures r.Delivered? && env.instance ==> r.msg == DirectCall(TargetObject, TargetMethod, input)
    ensures r.Delivered? && !env.instance ==> r.msg == Posted(input)
  {
    if env.instance then (if env.failing then Threw else Delivered(DirectCall(TargetObject, TargetMethod, input)))
    else if env.iframe then (if env.failing then Threw else Delivered(Posted(input)))
    else NoTarget
  }

  /** What the peer receives for `input`: one message, or none. */
  function WireOf(env: Environment, input: WebInput): seq<Wire> {
    var a := Deliver(env, input);
    if a.Delivered? then [a.msg] else []
  }

  /** What the peer receives when `inputs` are delivered one after another. */
  function FlushWire(env: Environment, inputs: seq<WebInput>): seq<Wire>
    decreases |inputs|
  {
    if inputs == [] then [] else FlushWire(env, inputs[..|inputs| - 1]) + WireOf(env, inputs[|inputs| - 1])
  }

  /** The intents carried by a sequence of wire messages. */
  function Payloads(ws: seq<Wire>): (r: seq<WebInput>)
    ensures |r| == |ws|
    ensures forall i :: 0 <= i < |ws| ==> r[i] == ws[i].input
  {
    seq(|ws|, i requires 0 <= i < |ws| => ws[i].input)
  }

  /**
   * Flushing the queue over a working transport hands every queued intent to
   * the peer exactly once, in submission order; over a failing or missing
   * transport it hands over nothing.
   */
  lemma {:induction false} FlushDeliversInOrder(env: Environment, inputs: seq<WebInput>)
    ensures (env.instance || env.iframe) && !env.failing ==> Payloads(FlushWire(env, inputs)) == inputs
    ensures !((env.instance || env.iframe) && !env.failing) ==> FlushWire(env, inputs) == []
    decreases |inputs|
  {
    if inputs != [] {
      var init := inputs[..|inputs| - 1];
      FlushDeliversInOrder(env, init);
      if (env.instance || env.iframe) && !env.failing {
        assert inputs == init + [inputs[|inputs| - 1]];
      }
    }
  }
}
