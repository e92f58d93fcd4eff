/**
 * The mobile chat overlay (`ChatOverlay`): the same message list as the
 * desktop panel, fed by the same two bus events, but with its own, narrower
 * output handler, its own input line and a voice toggle.
 */
module ChatOverlayView {
  import opened Wrappers
  import opened Text
  import opened Js
  import opened EventBus
  import opened ChatModel
  import Transport
  import UnityBridge
  import ChatPanel

  /** The state the output handler touches: the list and the transcripts waiting for their 200 ms re-send. */
  datatype OverlayView = OverlayView(messages: seq<ChatMessage>, pendingSends: seq<string>)

  const RecordingLine := "🎤 语音录制中..."

  /** The user entry for a voice transcript, before `addMessage` gives it an id. */
  function VoiceLine(text: string): ChatMessage {
    ChatMessage("", User, "🎤 " + text, Str("你 (语音)"), Sent)
  }

  /**
   * `handleUnityOutput` of the overlay: only `npc_text` and
   * `voice_transcript` with extracted text do anything.
   */
  function OverlayOnOutput(v: OverlayView, d: JsValue, stamp: string): OverlayView {
    if !d.Obj? then v
    else
      var text := NpcText(d);
      var t := NormalizedType(d, text);
      if t == Str("npc_text") then
        (if text == "" then v else v.(messages := AppendNpcUnlessRecent(v.messages, text, NpcName(d), stamp)))
      else if t == Str("voice_transcript") then
        (if text == "" then v
         else OverlayView(AddMessage(v.messages, VoiceLine(text), stamp), v.pendingSends + [text]))
      else v
  }

  /** Ids are view-issued, and every pending re-send is a non-empty, already trimmed transcript. */
  predicate OverlayInvariant(v: OverlayView) {
    ViewIds(v.messages)
    && Resendable(v.pendingSends)
  }

  lemma OverlayOnOutputKeepsInvariant(v: OverlayView, d: JsValue, stamp: string)
    requires OverlayInvariant(v)
    ensures OverlayInvariant(OverlayOnOutput(v, d, stamp))
  {
    if d.Obj? {
      NpcTextTrimmed(d);
      var r := OverlayOnOutput(v, d, stamp);
      assert forall i :: |v.messages| <= i < |r.messages| ==> ViewId(r.messages[i].id);
      var text := NpcText(d);
      if text != "" {
        ResendableAppend(v.pendingSends, text);
      }
    }
  }

  /**
   * Which outputs change the overlay: an `npc_text` line (given or implied
   * by an untyped payload with text) is appended unless one of the last
   * three entries is that same line, a voice transcript with text is shown
   * as the user's and queued for re-sending, and nothing else, not even an
   * `npc_text` without text, changes anything.
   */
  lemma OverlayOnOutputSpec(v: OverlayView, d: JsValue, stamp: string)
    ensures var r := OverlayOnOutput(v, d, stamp);
      && (!d.Obj? || NpcText(d) == "" ==> r == v)
      && (d.Obj? && NpcText(d) != "" && NormalizedType(d, NpcText(d)) == Str("npc_text") ==>
            r.pendingSends == v.pendingSends
            && (r.messages != v.messages <==>
                  forall i :: 0 <= i < |v.messages| && |v.messages| - 3 <= i ==> !SameNpcLine(v.messages[i], NpcText(d), NpcName(d)))
            && (r.messages != v.messages ==> r.messages == v.messages + [NpcEntry(NpcText(d), NpcName(d), stamp)]))
      && (d.Obj? && NpcText(d) != "" && Get(d, "type") == Str("voice_transcript") ==>
            r.messages == v.messages + [ChatMessage("msg_" + stamp, User, "🎤 " + NpcText(d), Str("你 (语音)"), Sent)]
            && r.pendingSends == v.pendingSends + [NpcText(d)])
      && (d.Obj? && Truthy(Get(d, "type")) && Get(d, "type") != Str("npc_text") && Get(d, "type") != Str("voice_transcript") ==> r == v)
  {
    if d.Obj? {
      NormalizedTypeSpec(d, NpcText(d));
      AppendNpcUnlessRecentSpec(v.messages, NpcText(d), NpcName(d), stamp);
    }
  }

  /** Handling an output a second time, under any stamp, changes nothing when it was an `npc_text`. */
  lemma OverlayRedelivered(v: OverlayView, d: JsValue, s1: string, s2: string)
    requires d.Obj? && NormalizedType(d, NpcText(d)) == Str("npc_text")
    ensures OverlayOnOutput(OverlayOnOutput(v, d, s1), d, s2) == OverlayOnOutput(v, d, s1)
  {
    NpcNameSpec(d);
    AppendNpcUnlessRecentIdempotent(v.messages, NpcText(d), NpcName(d), s1, s2);
  }

  /** The overlay handling the same output once per stamp, in order. */
  function OverlayRepeatedly(v: OverlayView, d: JsValue, stamps: seq<string>): OverlayView
    decreases |stamps|
  {
    if stamps == [] then v else OverlayRepeatedly(OverlayOnOutput(v, d, stamps[0]), d, stamps[1..])
  }

  /**
   * The overlay is registered under the same two names as the desktop
   * panel, so an admitted output reaches it as often; the repeated
   * `npc_text` deliveries collapse into the first.
   */
  lemma OverlayShownOnce(v: OverlayView, d: JsValue, stamps: seq<string>)
    requires d.Obj? && Get(d, "type") != Str("output")
    requires |stamps| == if Get(d, "type") == Str("npc_text") then 3 else 1
    ensures |stamps| == ChatPanel.Reaching(UnityBridge.OutputEvents(d))
    ensures OverlayRepeatedly(v, d, stamps) == OverlayOnOutput(v, d, stamps[0])
  {
    ChatPanel.OutputReachesPanel(d);
    var once := OverlayOnOutput(v, d, stamps[0]);
    if |stamps| == 3 {
      NormalizedTypeSpec(d, NpcText(d));
      OverlayRedelivered(v, d, stamps[0], stamps[1]);
      OverlayRedelivered(v, d, stamps[0], stamps[2]);
      var rest := stamps[1..];
      assert rest[1..][1..] == [];
      calc {
        OverlayRepeatedly(v, d, stamps);
        OverlayRepeatedly(once, d, rest);
        OverlayRepeatedly(OverlayOnOutput(once, d, rest[0]), d, rest[1..]);
        OverlayRepeatedly(once, d, rest[1..]);
        OverlayRepeatedly(OverlayOnOutput(once, d, rest[1..][0]), d, rest[1..][1..]);
        once;
      }
    } else {
      assert stamps[1..] == [];
    }
  }

  /**
   * On an `npc_text` line with text the overlay and the desktop panel make
   * the same change to the same list; they differ where the panel shows
   * `'未知回复'` for an `npc_text` without text and the overlay shows nothing.
   */
  lemma OverlayAgreesWithPanel(ms: seq<ChatMessage>, ps: seq<string>, talking: bool, d: JsValue, stamp: string)
    requires d.Obj? && NormalizedType(d, NpcText(d)) == Str("npc_text")
    ensures NpcText(d) != "" ==>
      OverlayOnOutput(OverlayView(ms, ps), d, stamp).messages == ChatPanel.OnOutput(ChatPanel.View(ms, talking, ps), d, stamp).messages
    ensures NpcText(d) == "" ==>
      OverlayOnOutput(OverlayView(ms, ps), d, stamp).messages == ms
      && ChatPanel.OnOutput(ChatPanel.View(ms, talking, ps), d, stamp).messages ==
           AppendNpcUnlessRecent(ms, ChatPanel.UnknownReply, NpcName(d), stamp)
  {
  }

  /** The send button is enabled exactly when the input is not blank. */
  predicate CanSend(inputText: string) {
    !Blank(inputText)
  }

  class ChatOverlay {
    var messages: seq<ChatMessage>
    var inputText: string
    var isVoiceRecording: bool
    var pendingSends: seq<string>
    const bridge: UnityBridge.Bridge
    /** The `handleUnityOutput` closure as registered on the bus. */
    const handler: Listener

    function State(): OverlayView
      reads this
    {
      OverlayView(messages, pendingSends)
    }

    ghost predicate Valid()
      reads this, bridge, bridge.dedup
    {
      bridge.Valid() && OverlayInvariant(State())
    }

    /**
     * Mounting: the handler is registered on `unity-output` and then on
     * `unity-npc_text`, and the empty list gets the welcome entry.
     */
    constructor(b: UnityBridge.Bridge, h: Listener)
      requires b.Valid()
      modifies b`listeners
      ensures bridge == b && handler == h && Valid()
      ensures messages == [Welcome] && inputText == "" && !isVoiceRecording && pendingSends == []
      ensures b.listeners == Register(Register(old(b.listeners), "unity-output", h), "unity-npc_text", h)
    {
      bridge := b;
      handler := h;
      messages := [Welcome];
      inputText := "";
      isVoiceRecording := false;
      pendingSends := [];
      new;
      b.On("unity-output", h);
      b.On("unity-npc_text", h);
    }

    /** Unmounting: both registrations are removed. */
    method Unmount()
      modifies bridge`listeners
      ensures bridge.listeners == Unregister(Unregister(old(bridge.listeners), "unity-output", handler), "unity-npc_text", handler)
    {
      bridge.Off("unity-output", handler);
      bridge.Off("unity-npc_text", handler);
    }

    /** The input's `onChange`. */
    method SetInputText(s: string)
      modifies this`inputText
      ensures inputText == s
    {
      inputText := s;
    }

    /**
     * `handleSendText`: a blank input does nothing (and is not cleared);
     * otherwise the trimmed input is sent, the input is cleared and the new
     * entry carries the outcome (the status update aimed at its actual id).
     */
    method HandleSendText(stamp: string) returns (ghost ok: bool)
      requires Valid()
      modifies this`messages, this`inputText, bridge`queue, bridge`status, bridge`submitted, bridge`handed, bridge`wire, bridge`deliveries
      ensures Valid()
      ensures !CanSend(old(inputText)) ==> unchanged(this) && unchanged(bridge)
      ensures CanSend(old(inputText)) ==>
        && inputText == ""
        && messages == SendText(old(messages), old(inputText), stamp, ok)
        && bridge.SendEffect(Transport.WebInput(Transport.TextInput, Some(Trim(old(inputText)))), ok)
    {
      ok := false;
      var text := inputText;
      TrimSpec(text);
      if Trim(text) == "" {
        return;
      }
      TrimIdempotent(text);
      TrimSpec(Trim(text));
      var success := bridge.SendText(Trim(text));
      ok := success;
      inputText := "";
      SendTextKeepsViewIds(messages, text, stamp, success);
      messages := SendText(messages, text, stamp, success);
    }

    /** `handleKeyPress`: Enter without Shift sends; every other key leaves everything as it is. */
    method HandleKeyPress(key: string, shiftKey: bool, stamp: string) returns (ghost ok: bool)
      requires Valid()
      modifies this`messages, this`inputText, bridge`queue, bridge`status, bridge`submitted, bridge`handed, bridge`wire, bridge`deliveries
      ensures Valid()
      ensures key != "Enter" || shiftKey || !CanSend(old(inputText)) ==> unchanged(this) && unchanged(bridge)
      ensures key == "Enter" && !shiftKey && CanSend(old(inputText)) ==>
        && inputText == ""
        && messages == SendText(old(messages), old(inputText), stamp, ok)
        && bridge.SendEffect(Transport.WebInput(Transport.TextInput, Some(Trim(old(inputText)))), ok)
    {
      ok := false;
      if key == "Enter" && !shiftKey {
        ok := HandleSendText(stamp);
      }
    }

    /**
     * `handleVoiceToggle`: while recording, the stop is sent and the flag
     * cleared whatever the outcome; otherwise the start is sent, and only a
     * successful start sets the flag and adds the recording notice.
     */
    method HandleVoiceToggle(stamp: string) returns (ghost ok: bool)
      requires Valid()
      modifies this`messages, this`isVoiceRecording, bridge`queue, bridge`status, bridge`submitted, bridge`handed, bridge`wire, bridge`deliveries
      ensures Valid()
      ensures old(isVoiceRecording) ==>
        && !isVoiceRecording && messages == old(messages)
        && bridge.SendEffect(Transport.WebInput(Transport.VoiceStop, None), ok)
      ensures !old(isVoiceRecording) ==>
        && isVoiceRecording == ok
        && messages == (if ok then AddMessage(old(messages), ChatPanel.Notice(RecordingLine, Sent), stamp) else old(messages))
        && bridge.SendEffect(Transport.WebInput(Transport.VoiceStart, None), ok)
    {
      if isVoiceRecording {
        var success := bridge.StopVoice();
        ok := success;
        isVoiceRecording := false;
      } else {
        var success := bridge.StartVoice();
        ok := success;
        if success {
          isVoiceRecording := true;
          messages := AddMessage(messages, ChatPanel.Notice(RecordingLine, Sent), stamp);
        }
      }
    }

    /** The overlay's `handleUnityOutput(data)`; `stamp` stands for the clock and random part of a new id. */
    method OnUnityOutput(d: JsValue, stamp: string)
      requires Valid()
      modifies this`messages, this`pendingSends
      ensures Valid()
      ensures State() == OverlayOnOutput(old(State()), d, stamp)
    {
      OverlayOnOutputKeepsInvariant(State(), d, stamp);
      if !d.Obj? {
        return;
      }
      var text := PickNpcText(d);
      var t := NormalizedType(d, text);
      if t == Str("npc_text") {
        if text != "" {
          messages := AppendNpcUnlessRecent(messages, text, NpcName(d), stamp);
        }
      } else if t == Str("voice_transcript") {
        if text != "" {
          messages := AddMessage(messages, VoiceLine(text), stamp);
          pendingSends := pendingSends + [text];
        }
      }
    }

    /** The 200 ms timer of the oldest pending transcript fires: the transcript is sent as text. */
    method FireResend() returns (ghost ok: bool)
      requires Valid() && pendingSends != []
      modifies this`pendingSends, bridge`queue, bridge`status, bridge`submitted, bridge`handed, bridge`wire, bridge`deliveries
      ensures Valid()
      ensures pendingSends == old(pendingSends)[1..] && messages == old(messages)
      ensures bridge.SendEffect(Transport.WebInput(Transport.TextInput, Some(old(pendingSends)[0])), ok)
    {
      var text := pendingSends[0];
      ResendableTail(pendingSends);
      var success := bridge.SendText(text);
      ok := success;
      pendingSends := pendingSends[1..];
    }
  }
}
