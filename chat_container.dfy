/**
 * The desktop chat panel (`ChatContainer`): its message list, the NPC
 * "talking" flag that disables the input, and the transcripts waiting for
 * their delayed re-send, updated by the bridge's output events and by the
 * user's actions.
 */
module ChatPanel {
  import opened Wrappers
  import opened Text
  import opened Js
  import opened EventBus
  import opened ChatModel
  import Transport
  import ConvaiPeer
  import UnityBridge

  /**
   * What the panel keeps: the list, `isNPCTalking`, and the voice
   * transcripts whose 200 ms re-send timer has not fired yet, oldest first.
   */
  datatype View = View(messages: seq<ChatMessage>, isNPCTalking: bool, pendingSends: seq<string>)

  const UnknownReply := "未知回复"
  const VoiceActive := "🎤 Unity语音系统已激活"
  const VoiceStopped := "🛑 Unity语音录制已停止"
  const StartNotice := "🎤 请点击Unity画面并按住T键进行语音输入"
  const StartFailed := "❌ Unity语音输入启动失败"
  const StopNotice := "🛑 请释放T键停止语音输入"
  const StopFailed := "❌ Unity语音输入停止失败"

  /** The event names the panel's handler is registered under. */
  const Subscriptions: set<string> := {"unity-output", "unity-npc_text"}

  /** The user entry shown for a voice transcript, under id `voice_` + `stamp`. */
  function VoiceEntry(text: string, stamp: string): ChatMessage {
    ChatMessage("voice_" + stamp, User, "🎤 " + text, Str("你 (语音)"), Sent)
  }

  /** A system entry (no name), as `addMessage` receives it. */
  function Notice(content: string, st: Status): ChatMessage {
    ChatMessage("", System, content, Undefined, st)
  }

  /** `talking_status` as written: `data.isTalking || false`. */
  predicate TalkingFlagAsWritten(d: JsValue) {
    Truthy(Or(Get(d, "isTalking"), Bool(false)))
  }

  /** The flag where the output type declares it and the engine puts it: `additionalData.isTalking`. */
  predicate TalkingFlag(d: JsValue) {
    Truthy(Get(Get(d, "additionalData"), "isTalking"))
  }

  /**
   * For every talking-status output the engine script sends, the as-written
   * flag is false, so the panel never disables its input.
   */
  lemma TalkingFlagAsWrittenMissesPeer(npcName: string, isTalking: bool, clock: string)
    ensures !TalkingFlagAsWritten(ConvaiPeer.Payload(ConvaiPeer.TalkingStatus(npcName, isTalking, clock)))
  {
    ConvaiPeer.TalkingStatusPayload(npcName, isTalking, clock);
  }

  /** The `voice_recording` notice: only an explicit `true` or `false` in `recording` adds one. */
  function RecordingNotice(ms: seq<ChatMessage>, d: JsValue, text: string, stamp: string): seq<ChatMessage> {
    if Get(d, "recording") == Bool(true) then
      AddMessage(ms, Notice(if text != "" then text else VoiceActive, Sent), stamp)
    else if Get(d, "recording") == Bool(false) then
      AddMessage(ms, Notice(if text != "" then text else VoiceStopped, Sent), stamp)
    else ms
  }

  /** `handleUnityOutput`: one bus event's effect on the panel. */
  function OnOutput(v: View, d: JsValue, stamp: string): View {
    if !d.Obj? then v
    else
      var text := NpcText(d);
      var name := NpcName(d);
      var t := NormalizedType(d, text);
      if t == Str("npc_text") then
        v.(messages := AppendNpcUnlessRecent(v.messages, if text != "" then text else UnknownReply, name, stamp))
      else if t == Str("user_text") then v
      else if t == Str("talking_status") then v.(isNPCTalking := TalkingFlag(d))
      else if t == Str("voice_transcript") then
        (if text == "" then v
         else v.(messages := v.messages + [VoiceEntry(text, stamp)], pendingSends := v.pendingSends + [text]))
      else if t == Str("voice_recording") then v.(messages := RecordingNotice(v.messages, d, text, stamp))
      else if text != "" then v.(messages := v.messages + [NpcEntry(text, name, stamp)])
      else v
  }

  /**
   * The handler's steps on a panel state, computed apart from the object so
   * that `ChatContainer.OnUnityOutput` only assigns the result. It promises
   * nothing beyond computing `OnOutput`; the text comes from the
   * `PickNpcText` loop.
   */
  method HandleOutput(v: View, d: JsValue, stamp: string) returns (r: View)
    ensures r == OnOutput(v, d, stamp)
  {
    r := v;
    if !d.Obj? {
      return;
    }
    var text := PickNpcText(d);
    var name := NpcName(d);
    var t := NormalizedType(d, text);
    if t == Str("npc_text") {
      r := r.(messages := AppendNpcUnlessRecent(r.messages, if text != "" then text else UnknownReply, name, stamp));
    } else if t == Str("user_text") {
    } else if t == Str("talking_status") {
      r := r.(isNPCTalking := TalkingFlag(d));
    } else if t == Str("voice_transcript") {
      if text != "" {
        r := r.(messages := r.messages + [VoiceEntry(text, stamp)], pendingSends := r.pendingSends + [text]);
      }
    } else if t == Str("voice_recording") {
      r := r.(messages := RecordingNotice(r.messages, d, text, stamp));
    } else if text != "" {
      r := r.(messages := r.messages + [NpcEntry(text, name, stamp)]);
    }
  }

  /** Ids are view-issued, and every pending re-send is a non-empty, already trimmed transcript. */
  predicate PanelInvariant(v: View) {
    ViewIds(v.messages)
    && Resendable(v.pendingSends)
  }

  lemma OnOutputKeepsInvariant(v: View, d: JsValue, stamp: string)
    requires PanelInvariant(v)
    ensures PanelInvariant(OnOutput(v, d, stamp))
  {
    if d.Obj? {
      var text := NpcText(d);
      var name := NpcName(d);
      var t := NormalizedType(d, text);
      if t == Str("npc_text") {
        AppendNpcKeepsViewIds(v.messages, if text != "" then text else UnknownReply, name, stamp);
      } else if t == Str("voice_transcript") {
        if text != "" {
          NpcTextTrimmed(d);
          VoiceEntryKeepsViewIds(v.messages, text, stamp);
          ResendableAppend(v.pendingSends, text);
        }
      } else if t == Str("voice_recording") {
        AddMessageKeepsViewIds(v.messages, Notice(if text != "" then text else VoiceActive, Sent), stamp);
        AddMessageKeepsViewIds(v.messages, Notice(if text != "" then text else VoiceStopped, Sent), stamp);
      } else {
        AppendNpcKeepsViewIds(v.messages, text, name, stamp);
      }
    }
  }

  lemma VoiceEntryKeepsViewIds(ms: seq<ChatMessage>, text: string, stamp: string)
    requires ViewIds(ms)
    ensures ViewIds(ms + [VoiceEntry(text, stamp)])
  {
    assert ("voice_" + stamp)[..6] == "voice_";
    ViewIdsAppend(ms, VoiceEntry(text, stamp));
  }

  /**
   * An `npc_text` event touches only the list: it gains one NPC entry with
   * the extracted text (`'未知回复'` when there is none) and name exactly when
   * none of the last three entries is that same line.
   */
  lemma NpcTextEvent(v: View, d: JsValue, stamp: string)
    requires d.Obj? && NormalizedType(d, NpcText(d)) == Str("npc_text")
    ensures var line := if NpcText(d) != "" then NpcText(d) else UnknownReply;
      var r := OnOutput(v, d, stamp);
      && r.isNPCTalking == v.isNPCTalking && r.pendingSends == v.pendingSends
      && (r.messages != v.messages <==>
            forall i :: 0 <= i < |v.messages| && |v.messages| - 3 <= i ==> !SameNpcLine(v.messages[i], line, NpcName(d)))
      && (r.messages != v.messages ==> r.messages == v.messages + [NpcEntry(line, NpcName(d), stamp)])
  {
    var line := if NpcText(d) != "" then NpcText(d) else UnknownReply;
    AppendNpcUnlessRecentSpec(v.messages, line, NpcName(d), stamp);
  }

  /** Handling an `npc_text` event a second time, under any stamp, changes nothing. */
  lemma NpcTextRedelivered(v: View, d: JsValue, s1: string, s2: string)
    requires d.Obj? && NormalizedType(d, NpcText(d)) == Str("npc_text")
    ensures OnOutput(OnOutput(v, d, s1), d, s2) == OnOutput(v, d, s1)
  {
    NpcNameSpec(d);
    var line := if NpcText(d) != "" then NpcText(d) else UnknownReply;
    AppendNpcUnlessRecentIdempotent(v.messages, line, NpcName(d), s1, s2);
  }

  /**
   * The other types: `user_text` and an untyped payload without text change
   * nothing, `talking_status` changes only the flag, and a typed payload the
   * switch does not name adds its text as an NPC entry without any duplicate
   * check.
   */
  lemma OtherEvents(v: View, d: JsValue, stamp: string)
    requires d.Obj?
    ensures NormalizedType(d, NpcText(d)) == Str("user_text") ==> OnOutput(v, d, stamp) == v
    ensures !Truthy(Get(d, "type")) && NpcText(d) == "" ==> OnOutput(v, d, stamp) == v
    ensures Get(d, "type") == Str("talking_status") ==> OnOutput(v, d, stamp) == v.(isNPCTalking := TalkingFlag(d))
    ensures Truthy(Get(d, "type")) && Get(d, "type") !in
              {Str("npc_text"), Str("user_text"), Str("talking_status"), Str("voice_transcript"), Str("voice_recording")}
            && NpcText(d) != "" ==>
      OnOutput(v, d, stamp) == v.(messages := v.messages + [NpcEntry(NpcText(d), NpcName(d), stamp)])
  {
    NormalizedTypeSpec(d, NpcText(d));
  }

  /**
   * With the flag read from `additionalData`, a talking-status output of the
   * engine script sets the panel's talking flag to exactly the value sent and
   * changes nothing else.
   */
  lemma TalkingFlagFollowsPeer(v: View, npcName: string, isTalking: bool, clock: string, stamp: string)
    ensures OnOutput(v, ConvaiPeer.Payload(ConvaiPeer.TalkingStatus(npcName, isTalking, clock)), stamp)
            == v.(isNPCTalking := isTalking)
  {
    var d := ConvaiPeer.Payload(ConvaiPeer.TalkingStatus(npcName, isTalking, clock));
    ConvaiPeer.TalkingStatusPayload(npcName, isTalking, clock);
    OtherEvents(v, d, stamp);
  }

  /**
   * A voice transcript with text shows as the user's line prefixed by the
   * microphone sign and queues the text for re-sending; without text
   * nothing changes.
   */
  lemma VoiceTranscriptEvent(v: View, d: JsValue, stamp: string)
    requires d.Obj? && Get(d, "type") == Str("voice_transcript")
    ensures NpcText(d) == "" ==> OnOutput(v, d, stamp) == v
    ensures NpcText(d) != "" ==>
      OnOutput(v, d, stamp) == View(v.messages + [VoiceEntry(NpcText(d), stamp)], v.isNPCTalking, v.pendingSends + [NpcText(d)])
  {
  }

  // ---------------------------------------------------------------------
  // How many times the bus hands one output to the panel
  // ---------------------------------------------------------------------

  /** How many of `names` the panel's handler is registered under. */
  function Reaching(names: seq<string>): nat {
    if names == [] then 0
    else Reaching(names[..|names| - 1]) + (if names[|names| - 1] in Subscriptions then 1 else 0)
  }

  /**
   * Only a string renders, through `${…}`, as text starting with `np` or
   * with `o`: every other value starts with `u`, `nu`, `t`, `f`, `[`, `-`
   * or a digit.
   */
  lemma NonStringRendering(t: JsValue)
    requires !t.Str?
    ensures |ToJsString(t)| >= 1 && ToJsString(t)[0] != 'o'
    ensures ToJsString(t)[0] != 'n' || (|ToJsString(t)| >= 2 && ToJsString(t)[1] != 'p')
  {
    match t
    case Num(n) =>
      if n < 0 {
        DecimalSpec(-n);
        assert ToJsString(t)[0] == '-';
      } else {
        DecimalSpec(n);
        assert IsDigit(ToJsString(t)[0]);
      }
    case _ =>
  }

  /**
   * The panel's handler runs three times for an admitted `npc_text` output
   * (once on `unity-output`, twice on `unity-npc_text`), twice for one whose
   * type is `output` (its `unity-${type}` is `unity-output` again), and once
   * for any other object.
   */
  lemma OutputReachesPanel(d: JsValue)
    ensures Reaching(UnityBridge.OutputEvents(d)) ==
      if Get(d, "type") == Str("npc_text") then 3 else if Get(d, "type") == Str("output") then 2 else 1
  {
    var t := Get(d, "type");
    var r := UnityBridge.OutputEvents(d);
    if !t.Str? {
      NonStringRendering(t);
      assert "npc_text"[0] == 'n' && "npc_text"[1] == 'p' && "output"[0] == 'o';
    }
    assert r[1][6..] == ToJsString(t);
    assert r[1] == "unity-npc_text" <==> t == Str("npc_text") by {
      assert "unity-npc_text"[6..] == "npc_text";
    }
    assert r[1] == "unity-output" <==> t == Str("output") by {
      assert "unity-output"[6..] == "output";
    }
    var second := if r[1] in Subscriptions then 1 else 0;
    assert second == 1 <==> t == Str("npc_text") || t == Str("output");
    assert Reaching(r[..1]) == 1 by {
      assert r[..1][..0] == [];
    }
    assert Reaching(r[..2]) == 1 + second by {
      assert r[..2][..1] == r[..1];
    }
    if |r| == 3 {
      assert r == r[..3] && r[..3][..2] == r[..2];
      assert Reaching(r) == 1 + 2 * second;
    } else {
      assert r == r[..2];
    }
  }

  /** The panel handling the same output once per stamp, in order. */
  function HandleRepeatedly(v: View, d: JsValue, stamps: seq<string>): View
    decreases |stamps|
  {
    if stamps == [] then v else HandleRepeatedly(OnOutput(v, d, stamps[0]), d, stamps[1..])
  }

  /**
   * However often the bus hands an admitted output to the panel (the
   * `output` type aside), the panel shows its effect once: the repeated
   * `npc_text` deliveries collapse into the first.
   */
  lemma BusDeliveryShownOnce(v: View, d: JsValue, stamps: seq<string>)
    requires d.Obj? && Get(d, "type") != Str("output")
    requires |stamps| == if Get(d, "type") == Str("npc_text") then 3 else 1
    ensures |stamps| == Reaching(UnityBridge.OutputEvents(d))
    ensures HandleRepeatedly(v, d, stamps) == OnOutput(v, d, stamps[0])
  {
    OutputReachesPanel(d);
    var once := OnOutput(v, d, stamps[0]);
    if |stamps| == 3 {
      NormalizedTypeSpec(d, NpcText(d));
      NpcTextRedelivered(v, d, stamps[0], stamps[1]);
      NpcTextRedelivered(v, d, stamps[0], stamps[2]);
      var rest := stamps[1..];
      assert rest[1..][1..] == [];
      calc {
        HandleRepeatedly(v, d, stamps);
        HandleRepeatedly(once, d, rest);
        HandleRepeatedly(OnOutput(once, d, rest[0]), d, rest[1..]);
        HandleRepeatedly(once, d, rest[1..]);
        HandleRepeatedly(OnOutput(once, d, rest[1..][0]), d, rest[1..][1..]);
        once;
      }
    } else {
      assert stamps[1..] == [];
    }
  }

  /**
   * The exception: a payload whose type is `output` reaches the panel twice,
   * and the default branch, which has no duplicate check, shows its text
   * twice.
   */
  lemma OutputTypeShownTwice(v: View, d: JsValue, s1: string, s2: string)
    requires d.Obj? && Get(d, "type") == Str("output") && NpcText(d) != ""
    ensures Reaching(UnityBridge.OutputEvents(d)) == 2
    ensures HandleRepeatedly(v, d, [s1, s2]).messages
            == v.messages + [NpcEntry(NpcText(d), NpcName(d), s1), NpcEntry(NpcText(d), NpcName(d), s2)]
  {
    OutputReachesPanel(d);
    OtherEvents(v, d, s1);
    var once := OnOutput(v, d, s1);
    OtherEvents(once, d, s2);
    assert [s1, s2][1..] == [s2] && [s2][1..] == [];
    assert HandleRepeatedly(v, d, [s1, s2]) == HandleRepeatedly(once, d, [s2]) == OnOutput(once, d, s2);
  }

  /**
   * A transcript delivered twice, as when the page re-emits the raw output
   * on `unity-output`, is shown twice and queued for re-sending twice.
   */
  lemma TranscriptRedeliveredTwice(v: View, d: JsValue, s1: string, s2: string)
    requires d.Obj? && Get(d, "type") == Str("voice_transcript") && NpcText(d) != ""
    ensures HandleRepeatedly(v, d, [s1, s2]) ==
      View(v.messages + [VoiceEntry(NpcText(d), s1), VoiceEntry(NpcText(d), s2)],
           v.isNPCTalking, v.pendingSends + [NpcText(d), NpcText(d)])
  {
    VoiceTranscriptEvent(v, d, s1);
    var once := OnOutput(v, d, s1);
    VoiceTranscriptEvent(once, d, s2);
    assert [s1, s2][1..] == [s2] && [s2][1..] == [];
    assert HandleRepeatedly(v, d, [s1, s2]) == HandleRepeatedly(once, d, [s2]) == OnOutput(once, d, s2);
  }

  /**
   * How the engine script's outputs read on the page: a non-blank content
   * is the extracted text (trimmed), a non-empty name is the speaker, and a
   * non-empty type is kept.
   */
  lemma PeerOutputNormalises(o: ConvaiPeer.UnityOutput)
    ensures !Blank(o.content) ==> NpcText(ConvaiPeer.Payload(o)) == Trim(o.content)
    ensures o.npcName != "" ==> NpcName(ConvaiPeer.Payload(o)) == Str(o.npcName)
    ensures o.kind != "" ==> NormalizedType(ConvaiPeer.Payload(o), NpcText(ConvaiPeer.Payload(o))) == Str(o.kind)
  {
    var p := ConvaiPeer.Payload(o);
    assert Get(p, "content") == Str(o.content);
    assert Get(p, "npcName") == Str(o.npcName);
    assert Get(p, "type") == Str(o.kind);
    var cs := TextCandidates(p);
    assert cs[0] == Str(o.content);
    TrimSpec(o.content);
  }

  /**
   * The reply the engine script sends for a text line shows in the panel as
   * one `AI Assistant` entry with the reply trimmed, unless the same line is
   * among the last three entries.
   */
  lemma PeerReplyShown(v: View, text: string, pick: nat, clock: string, stamp: string)
    requires pick < 5
    ensures var reply := ConvaiPeer.Dispatch(Some(ConvaiPeer.WebInputData("text", text)), pick, clock)[1];
      OnOutput(v, ConvaiPeer.Payload(reply), stamp).messages ==
        AppendNpcUnlessRecent(v.messages, Trim(reply.content), Str(ConvaiPeer.Assistant), stamp)
  {
    var reply := ConvaiPeer.Dispatch(Some(ConvaiPeer.WebInputData("text", text)), pick, clock)[1];
    ConvaiPeer.DispatchSpec(Some(ConvaiPeer.WebInputData("text", text)), pick, clock);
    ConvaiPeer.ReplyNotBlank(text, pick);
    PeerOutputNormalises(reply);
    TrimSpec(reply.content);
    var p := ConvaiPeer.Payload(reply);
    assert p.Obj? && NormalizedType(p, NpcText(p)) == Str("npc_text");
    assert NpcText(p) == Trim(reply.content) != "";
  }

  // ---------------------------------------------------------------------
  // The component
  // ---------------------------------------------------------------------

  class ChatContainer {
    var messages: seq<ChatMessage>
    var isNPCTalking: bool
    var pendingSends: seq<string>
    const bridge: UnityBridge.Bridge
    /** The `handleUnityOutput` closure as registered on the bus. */
    const handler: Listener

    function State(): View
      reads this
    {
      View(messages, isNPCTalking, pendingSends)
    }

    ghost predicate Valid()
      reads this, bridge, bridge.dedup
    {
      bridge.Valid() && PanelInvariant(State())
    }

    /**
     * Mounting: the handler is registered on `unity-output` and then on
     * `unity-npc_text`, and the empty list gets the welcome entry.
     */
    constructor(b: UnityBridge.Bridge, h: Listener)
      requires b.Valid()
      modifies b`listeners
      ensures bridge == b && handler == h && Valid()
      ensures State() == View([Welcome], false, [])
      ensures b.listeners == Register(Register(old(b.listeners), "unity-output", h), "unity-npc_text", h)
    {
      bridge := b;
      handler := h;
      messages := [Welcome];
      isNPCTalking := false;
      pendingSends := [];
      new;
      b.On("unity-output", h);
      b.On("unity-npc_text", h);
    }

    /** Unmounting: both registrations are removed. */
    method Unmount()
      modifies bridge`listeners
      ensures bridge.listeners == Unregister(Unregister(old(bridge.listeners), "unity-output", handler), "unity-npc_text", handler)
    {
      bridge.Off("unity-output", handler);
      bridge.Off("unity-npc_text", handler);
    }

    /** `handleUnityOutput(data)`; `stamp` stands for the clock and random part of a new id. */
    method OnUnityOutput(d: JsValue, stamp: string)
      requires Valid()
      modifies this`messages, this`isNPCTalking, this`pendingSends
      ensures Valid()
      ensures State() == OnOutput(old(State()), d, stamp)
    {
      OnOutputKeepsInvariant(State(), d, stamp);
      var v := HandleOutput(State(), d, stamp);
      messages, isNPCTalking, pendingSends := v.messages, v.isNPCTalking, v.pendingSends;
    }

    /** The 200 ms timer of the oldest pending transcript fires: the transcript is sent as text. */
    method FireResend() returns (ghost ok: bool)
      requires Valid() && pendingSends != []
      modifies this`pendingSends, bridge`queue, bridge`status, bridge`submitted, bridge`handed, bridge`wire, bridge`deliveries
      ensures Valid()
      ensures pendingSends == old(pendingSends)[1..] && messages == old(messages)
      ensures bridge.SendEffect(Transport.WebInput(Transport.TextInput, Some(old(pendingSends)[0])), ok)
    {
      var text := pendingSends[0];
      ResendableTail(pendingSends);
      var success := bridge.SendText(text);
      ok := success;
      pendingSends := pendingSends[1..];
    }

    /** `handleSendText(text)`, with the status update aimed at the entry's actual id. */
    method HandleSendText(text: string, stamp: string) returns (ghost ok: bool)
      requires Valid()
      modifies this`messages, bridge`queue, bridge`status, bridge`submitted, bridge`handed, bridge`wire, bridge`deliveries
      ensures Valid()
      ensures messages == SendText(old(messages), text, stamp, ok)
      ensures Blank(text) ==> unchanged(bridge)
      ensures !Blank(text) ==> bridge.SendEffect(Transport.WebInput(Transport.TextInput, Some(Trim(text))), ok)
    {
      TrimSpec(text);
      ok := false;
      if Trim(text) == "" {
        return;
      }
      TrimIdempotent(text);
      TrimSpec(Trim(text));
      var success := bridge.SendText(Trim(text));
      ok := success;
      SendTextKeepsViewIds(messages, text, stamp, success);
      messages := SendText(messages, text, stamp, success);
    }

    /** `handleStartVoice`: the bridge call, then a notice of its outcome. */
    method HandleStartVoice(stamp: string) returns (ghost ok: bool)
      requires Valid()
      modifies this`messages, bridge`queue, bridge`status, bridge`submitted, bridge`handed, bridge`wire, bridge`deliveries
      ensures Valid()
      ensures messages == AddMessage(old(messages), if ok then Notice(StartNotice, Sent) else Notice(StartFailed, Error), stamp)
      ensures bridge.SendEffect(Transport.WebInput(Transport.VoiceStart, None), ok)
      ensures bridge.status == old(bridge.status).(isVoiceRecording := true, queuedMessages := |bridge.queue|)
    {
      var success := bridge.StartVoice();
      ok := success;
      messages := AddMessage(messages, if success then Notice(StartNotice, Sent) else Notice(StartFailed, Error), stamp);
    }

    /** `handleStopVoice`: the bridge call, then a notice of its outcome. */
    method HandleStopVoice(stamp: string) returns (ghost ok: bool)
      requires Valid()
      modifies this`messages, bridge`queue, bridge`status, bridge`submitted, bridge`handed, bridge`wire, bridge`deliveries
      ensures Valid()
      ensures messages == AddMessage(old(messages), if ok then Notice(StopNotice, Sent) else Notice(StopFailed, Error), stamp)
      ensures bridge.SendEffect(Transport.WebInput(Transport.VoiceStop, None), ok)
      ensures bridge.status == old(bridge.status).(isVoiceRecording := false, queuedMessages := |bridge.queue|)
    {
      var success := bridge.StopVoice();
      ok := success;
      messages := AddMessage(messages, if success then Notice(StopNotice, Sent) else Notice(StopFailed, Error), stamp);
    }

    /** `handleClearChat`; `confirmed` is the answer to the confirmation dialog. */
    method HandleClearChat(confirmed: bool)
      requires Valid()
      modifies this`messages
      ensures Valid()
      ensures messages == if confirmed then [Welcome] else old(messages)
    {
      if confirmed {
        messages := [Welcome];
      }
    }
  }
}
