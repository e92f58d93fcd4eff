/**
 * The engine-side example bridge script (a `MonoBehaviour`): it turns each
 * input the page injects into a fixed sequence of outputs for the page, and
 * hands an output to the page only in a WebGL build whose page function was
 * last reported available.
 */
module ConvaiPeer {
  import opened Wrappers
  import opened Text
  import opened Js
  import Transport

  /**
   * `UnityOutputData` as the script fills it; `isTalking` is the one field of
   * its `additionalData`.
   */
  datatype UnityOutput = UnityOutput(kind: string, content: string, npcName: string, timestamp: string, isTalking: bool)

  /** The object the page parses out of `JsonUtility.ToJson` of an output. */
  function Payload(o: UnityOutput): JsValue {
    Obj(map["type" := Str(o.kind), "content" := Str(o.content), "npcName" := Str(o.npcName),
            "timestamp" := Str(o.timestamp), "additionalData" := Obj(map["isTalking" := Bool(o.isTalking)])])
  }

  /**
   * `WebInputData` after `JsonUtility.FromJson`. A missing string field reads
   * as null, which both string interpolation and `ToJson` render as the
   * empty string, so it is modelled as `""`.
   */
  datatype WebInputData = WebInputData(kind: string, content: string)

  /** What the script reads out of an intent the page serialised. */
  function FromPage(w: Transport.WebInput): WebInputData {
    WebInputData(Transport.KindName(w.kind), match w.content case Some(c) => c case None => "")
  }

  const Assistant := "AI Assistant"
  const TranscribedText := "这是模拟的语音转文本结果"

  /** `SendUnityOutput(type, content, npcName)`: `additionalData` is left at its default. */
  function Output(kind: string, content: string, npcName: string, clock: string): UnityOutput {
    UnityOutput(kind, content, npcName, clock, false)
  }

  /** `SendTalkingStatus(npcName, isTalking)`. */
  function TalkingStatus(npcName: string, isTalking: bool, clock: string): UnityOutput {
    UnityOutput("talking_status", if isTalking then "开始说话" else "停止说话", npcName, clock, isTalking)
  }

  /** The five canned replies of `GenerateNPCReply`. */
  function Replies(userInput: string): seq<string> {
    ["我理解你说的是：" + userInput, "这是一个很有趣的话题！", "让我想想如何回应...", "感谢你的输入！",
     "关于'" + userInput + "'，我有一些想法..."]
  }

  /** `GenerateNPCReply`; `pick` is the value `Random.Range(0, 5)` returned. */
  function GenerateNpcReply(userInput: string, pick: nat): string
    requires pick < 5
  {
    Replies(userInput)[pick]
  }

  /** `s` contains `u` as a contiguous piece. */
  predicate Embeds(s: string, u: string) {
    exists k :: 0 <= k <= |s| && u <= s[k..]
  }

  /**
   * A reply is one of exactly five strings: picks 0 and 4 embed the user's
   * input, and the other three are the same whatever the input.
   */
  lemma ReplyChoices(u: string, v: string, pick: nat)
    requires pick < 5
    ensures |Replies(u)| == 5 && GenerateNpcReply(u, pick) in Replies(u)
    ensures pick == 0 || pick == 4 ==> Embeds(GenerateNpcReply(u, pick), u)
    ensures pick != 0 && pick != 4 ==> GenerateNpcReply(u, pick) == GenerateNpcReply(v, pick)
  {
    var r := GenerateNpcReply(u, pick);
    if pick == 0 {
      var k := |"我理解你说的是："|;
      assert r[k..] == u;
    } else if pick == 4 {
      var k := |"关于'"|;
      assert r == "关于'" + u + "'，我有一些想法...";
      assert r[k..] == u + "'，我有一些想法...";
    }
  }

  /** No reply is blank: each starts with a visible character. */
  lemma ReplyNotBlank(u: string, pick: nat)
    requires pick < 5
    ensures !Blank(GenerateNpcReply(u, pick))
  {
    var r := GenerateNpcReply(u, pick);
    assert r[0] in {'我', '这', '让', '感', '关'};
  }

  /** The outputs one injected input produces; `None` is a parse failure. */
  function Dispatch(input: Option<WebInputData>, pick: nat, clock: string): seq<UnityOutput>
    requires pick < 5
  {
    match input
    case None => []
    case Some(i) =>
      if i.kind == "text" then
        [Output("user_text", i.content, "User", clock), Output("npc_text", GenerateNpcReply(i.content, pick), Assistant, clock)]
      else if i.kind == "voice_start" then
        [TalkingStatus(Assistant, false, clock)]
      else if i.kind == "voice_stop" then
        [Output("user_text", TranscribedText, "User (Voice)", clock),
         Output("npc_text", GenerateNpcReply(TranscribedText, pick), Assistant, clock)]
      else []
  }

  /**
   * The dispatch table: a text input is echoed as `user_text` under `User`
   * and answered by one `npc_text` reply; `voice_start` reports the assistant
   * silent; `voice_stop` echoes the fixed transcription under `User (Voice)`
   * and answers it; any other type, and a parse failure, produce nothing.
   */
  lemma DispatchSpec(input: Option<WebInputData>, pick: nat, clock: string)
    requires pick < 5
    ensures var r := Dispatch(input, pick, clock);
      && (input.None? || input.value.kind !in {"text", "voice_start", "voice_stop"} ==> r == [])
      && (input.Some? && input.value.kind == "text" ==>
            |r| == 2 && r[0].kind == "user_text" && r[0].content == input.value.content && r[0].npcName == "User"
            && r[1].kind == "npc_text" && r[1].npcName == Assistant && r[1].content in Replies(input.value.content))
      && (input.Some? && input.value.kind == "voice_start" ==>
            |r| == 1 && r[0].kind == "talking_status" && r[0].npcName == Assistant && !r[0].isTalking
            && r[0].content == "停止说话")
      && (input.Some? && input.value.kind == "voice_stop" ==>
            |r| == 2 && r[0].kind == "user_text" && r[0].content == TranscribedText && r[0].npcName == "User (Voice)"
            && r[1].kind == "npc_text" && r[1].npcName == Assistant && r[1].content in Replies(TranscribedText))
  {
    if input.Some? {
      var u := if input.value.kind == "text" then input.value.content else TranscribedText;
      ReplyChoices(u, u, pick);
    }
  }

  /** Every intent the page serialises is one the script dispatches on; text keeps its content. */
  lemma PageInputsAreDispatched(w: Transport.WebInput, pick: nat, clock: string)
    requires pick < 5
    ensures |Dispatch(Some(FromPage(w)), pick, clock)| >= 1
    ensures w.kind == Transport.TextInput && w.content.Some? ==>
      Dispatch(Some(FromPage(w)), pick, clock)[0] == Output("user_text", w.content.value, "User", clock)
  {
  }

  /**
   * The talking flag travels only inside `additionalData`: the payload has
   * no top-level `isTalking`, and the content says "开始说话" exactly when
   * the flag is set.
   */
  lemma TalkingStatusPayload(npcName: string, isTalking: bool, clock: string)
    ensures var p := Payload(TalkingStatus(npcName, isTalking, clock));
      && Get(Get(p, "additionalData"), "isTalking") == Bool(isTalking)
      && Get(p, "isTalking") == Undefined
      && Get(p, "type") == Str("talking_status")
      && (Get(p, "content") == Str("开始说话") <==> isTalking)
  {
    var p := Payload(TalkingStatus(npcName, isTalking, clock));
    assert "isTalking" !in p.fields;
    assert "开始说话" != "停止说话" by {
      assert "开始说话"[0] != "停止说话"[0];
    }
  }

  /** The `system_info` output `OnMicrophonePermissionResult` sends for `result`, if any. */
  function PermissionOutputs(result: string, clock: string): seq<UnityOutput> {
    if result == "granted" then [Output("system_info", "麦克风权限已获取", "System", clock)]
    else if result == "denied" then [Output("system_info", "麦克风权限被拒绝", "System", clock)]
    else if result == "not_supported" then [Output("system_info", "浏览器不支持麦克风", "System", clock)]
    else []
  }

  /** One `system_info` output from `System` for the three known results, none for any other. */
  lemma PermissionOutputsSpec(result: string, clock: string)
    ensures |PermissionOutputs(result, clock)| == (if result in {"granted", "denied", "not_supported"} then 1 else 0)
    ensures forall o :: o in PermissionOutputs(result, clock) ==> o.kind == "system_info" && o.npcName == "System"
  {
  }

  class WebBridgePeer {
    /** `UNITY_WEBGL && !UNITY_EDITOR`: only such a build talks to the page. */
    const webGL: bool
    /** `heartbeatInterval`: seconds between heartbeats, an Inspector field that defaults to 5. */
    const heartbeatInterval: real
    var isWebFunctionAvailable: bool
    var lastHeartbeat: real
    /** The outputs handed to the page through `callWebFunction`, in order. */
    var delivered: seq<UnityOutput>

    constructor(webGL: bool, heartbeatInterval: real)
      ensures this.webGL == webGL && this.heartbeatInterval == heartbeatInterval
      ensures !isWebFunctionAvailable && lastHeartbeat == 0.0 && delivered == []
    {
      this.webGL := webGL;
      this.heartbeatInterval := heartbeatInterval;
      isWebFunctionAvailable := false;
      lastHeartbeat := 0.0;
      delivered := [];
    }

    /** An output goes to the page exactly in a WebGL build with the page function available. */
    predicate Forwards()
      reads this
    {
      webGL && isWebFunctionAvailable
    }

    /** `SendUnityOutput` and `SendTalkingStatus` once the payload is built. */
    method Forward(o: UnityOutput)
      modifies this`delivered
      ensures delivered == old(delivered) + (if Forwards() then [o] else [])
    {
      if webGL && isWebFunctionAvailable {
        delivered := delivered + [o];
      }
    }

    /**
     * `InitializeWebBridge` (called from `Start`): a WebGL build asks the page
     * whether its function is available, then announces `system_ready`.
     */
    method InitializeWebBridge(available: bool, clock: string)
      modifies this`isWebFunctionAvailable, this`delivered
      ensures webGL ==> isWebFunctionAvailable == available
      ensures !webGL ==> isWebFunctionAvailable == old(isWebFunctionAvailable)
      ensures delivered == old(delivered)
        + (if Forwards() then [Output("system_ready", "Unity WebGL桥接初始化完成", "System", clock)] else [])
    {
      if webGL {
        isWebFunctionAvailable := available;
        Forward(Output("system_ready", "Unity WebGL桥接初始化完成", "System", clock));
      }
    }

    /** `InjectWebInput`: the dispatch, with each output forwarded as it is produced. */
    method InjectWebInput(input: Option<WebInputData>, pick: nat, clock: string)
      requires pick < 5
      modifies this`delivered
      ensures delivered == old(delivered) + (if Forwards() then Dispatch(input, pick, clock) else [])
    {
      if input.None? {
        return;
      }
      var i := input.value;
      if i.kind == "text" {
        HandleTextInput(i.content, pick, clock);
      } else if i.kind == "voice_start" {
        Forward(TalkingStatus(Assistant, false, clock));
      } else if i.kind == "voice_stop" {
        HandleTextReply(TranscribedText, "User (Voice)", pick, clock);
      }
    }

    /** `HandleTextInput`: echo the text, then answer it. */
    method HandleTextInput(text: string, pick: nat, clock: string)
      requires pick < 5
      modifies this`delivered
      ensures delivered == old(delivered) + (if Forwards() then
        [Output("user_text", text, "User", clock), Output("npc_text", GenerateNpcReply(text, pick), Assistant, clock)] else [])
    {
      HandleTextReply(text, "User", pick, clock);
    }

    /** The echo-and-answer pair shared by `HandleTextInput` and `HandleVoiceStop`. */
    method HandleTextReply(text: string, speaker: string, pick: nat, clock: string)
      requires pick < 5
      modifies this`delivered
      ensures delivered == old(delivered) + (if Forwards() then
        [Output("user_text", text, speaker, clock), Output("npc_text", GenerateNpcReply(text, pick), Assistant, clock)] else [])
    {
      Forward(Output("user_text", text, speaker, clock));
      Forward(Output("npc_text", GenerateNpcReply(text, pick), Assistant, clock));
    }

    method OnMicrophonePermissionResult(result: string, clock: string)
      modifies this`delivered
      ensures delivered == old(delivered) + (if Forwards() then PermissionOutputs(result, clock) else [])
    {
      if result == "granted" {
        Forward(Output("system_info", "麦克风权限已获取", "System", clock));
      } else if result == "denied" {
        Forward(Output("system_info", "麦克风权限被拒绝", "System", clock));
      } else if result == "not_supported" {
        Forward(Output("system_info", "浏览器不支持麦克风", "System", clock));
      }
    }

    method TestWebCommunication(clock: string)
      modifies this`delivered
      ensures delivered == old(delivered) + (if Forwards() then [Output("system_info", "这是一条测试消息", "Test System", clock)] else [])
    {
      Forward(Output("system_info", "这是一条测试消息", "Test System", clock));
    }

    /** `SendHeartbeat`: a WebGL build asks the page again whether its function is available. */
    method SendHeartbeat(available: bool)
      modifies this`isWebFunctionAvailable
      ensures isWebFunctionAvailable == if webGL then available else old(isWebFunctionAvailable)
    {
      if webGL {
        isWebFunctionAvailable := available;
      }
    }

    /** `Update` at engine time `time`: a heartbeat when more than the interval has passed since the last. */
    method Update(time: real, available: bool)
      modifies this`isWebFunctionAvailable, this`lastHeartbeat
      ensures time - old(lastHeartbeat) > heartbeatInterval ==>
        lastHeartbeat == time && isWebFunctionAvailable == (if webGL then available else old(isWebFunctionAvailable))
      ensures time - old(lastHeartbeat) <= heartbeatInterval ==>
        lastHeartbeat == old(lastHeartbeat) && isWebFunctionAvailable == old(isWebFunctionAvailable)
    {
      if time - lastHeartbeat > heartbeatInterval {
        SendHeartbeat(available);
        lastHeartbeat := time;
      }
    }
  }
}
