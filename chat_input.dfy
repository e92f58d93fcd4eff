/**
 * The desktop input line (`ChatInput`): the text being typed, its character
 * counter, and the requests it hands up to the panel (`onSendText`,
 * `onStartVoice`, `onStopVoice`), recorded in the order they are made.
 */
module ChatInputBox {
  import opened Text

  /** The input's `maxLength`. */
  const MaxLength: nat := 500

  /** The quick replies offered while the input is empty. */
  const QuickReplies: seq<string> := ["你好", "谢谢", "再见", "请问..."]

  /** A call of one of the callbacks the panel passes in. */
  datatype Request = SendTextRequest(text: string) | StartVoiceRequest | StopVoiceRequest

  /** The counter turns to its warning style above 80% of `maxLength` (both in UTF-16 units). */
  predicate CounterWarning(charCount: nat): (r: bool)
    ensures r <==> charCount > 400
  {
    charCount * 5 > MaxLength * 4
  }

  /** Every text handed up is non-empty and already trimmed. */
  predicate WellFormed(rs: seq<Request>) {
    forall i :: 0 <= i < |rs| && rs[i].SendTextRequest? ==> rs[i].text != "" && Trim(rs[i].text) == rs[i].text
  }

  class ChatInput {
    var inputText: string
    var charCount: nat
    /** The callback calls made so far, oldest first. */
    var requests: seq<Request>

    /** The counter agrees with the text's `length`, and every handed-up text is usable. */
    predicate Valid()
      reads this
    {
      charCount == Utf16Length(inputText) && WellFormed(requests)
    }

    /** The send button is enabled exactly when the trimmed text is non-empty and the input is not disabled. */
    predicate CanSend(disabled: bool)
      reads this
    {
      Trim(inputText) != "" && !disabled
    }

    constructor()
      ensures Valid() && inputText == "" && requests == []
    {
      inputText := "";
      charCount := 0;
      requests := [];
    }

    /** `handleInputChange`: the text and its `length` in UTF-16 units. */
    method HandleInputChange(value: string)
      modifies this`inputText, this`charCount
      ensures inputText == value && charCount == Utf16Length(value)
      ensures Valid() <==> WellFormed(requests)
    {
      inputText := value;
      charCount := Utf16Length(value);
    }

    /**
     * `handleSendText`: when sending is possible the trimmed text is handed
     * up and the input cleared; otherwise nothing happens, a blank text is
     * not cleared either.
     */
    method HandleSendText(disabled: bool)
      requires Valid()
      modifies this
      ensures Valid()
      ensures old(CanSend(disabled)) ==>
        inputText == "" && requests == old(requests) + [SendTextRequest(Trim(old(inputText)))]
      ensures !old(CanSend(disabled)) ==> unchanged(this)
    {
      var text := Trim(inputText);
      if text != "" && !disabled {
        TrimIdempotent(inputText);
        requests := requests + [SendTextRequest(text)];
        inputText := "";
        charCount := 0;
      }
    }

    /** `handleKeyPress`: Enter without Shift is a send; other keys change nothing. */
    method HandleKeyPress(key: string, shiftKey: bool, disabled: bool)
      requires Valid()
      modifies this
      ensures Valid()
      ensures key == "Enter" && !shiftKey && old(CanSend(disabled)) ==>
        inputText == "" && requests == old(requests) + [SendTextRequest(Trim(old(inputText)))]
      ensures key != "Enter" || shiftKey || !old(CanSend(disabled)) ==> unchanged(this)
    {
      if key == "Enter" && !shiftKey {
        HandleSendText(disabled);
      }
    }

    /** `handleVoiceStart` (press): asks for a start unless the input is disabled. */
    method HandleVoiceStart(disabled: bool)
      modifies this`requests
      ensures requests == old(requests) + (if disabled then [] else [StartVoiceRequest])
    {
      if !disabled {
        requests := requests + [StartVoiceRequest];
      }
    }

    /** `handleVoiceStop` (release, leave, touch end): always asks for a stop. */
    method HandleVoiceStop()
      modifies this`requests
      ensures requests == old(requests) + [StopVoiceRequest]
    {
      requests := requests + [StopVoiceRequest];
    }

    /**
     * A quick reply as written: it sets the text but leaves the counter at
     * the 0 it had for the empty input, so the counter no longer agrees
     * with the text.
     */
    method QuickReplyAsWritten(i: nat)
      requires Valid() && inputText == "" && i < |QuickReplies|
      modifies this`inputText
      ensures inputText == QuickReplies[i]
      ensures charCount == 0 && Utf16Length(inputText) > 0
      ensures !Valid()
    {
      inputText := QuickReplies[i];
    }

    /** A quick reply that keeps the counter in step with the text. */
    method QuickReply(i: nat)
      requires Valid() && inputText == "" && i < |QuickReplies|
      modifies this`inputText, this`charCount
      ensures Valid()
      ensures inputText == QuickReplies[i] && requests == old(requests)
    {
      inputText := QuickReplies[i];
      charCount := Utf16Length(QuickReplies[i]);
    }
  }

  /** The voice button is enabled only while the engine is connected and the input is not disabled. */
  predicate VoiceButtonEnabled(isUnityConnected: bool, disabled: bool) {
    isUnityConnected && !disabled
  }

  /** As written: after a quick reply on the empty input the counter shows 0 beside the two characters of `你好`. */
  method QuickReplyCounterAsWritten() returns (text: string, count: nat)
    ensures text == "你好" && |text| == 2 && count == 0
  {
    var box := new ChatInput();
    box.QuickReplyAsWritten(0);
    text, count := box.inputText, box.charCount;
  }

  /** With the counter updated, the same click shows 2. */
  method QuickReplyCounter() returns (text: string, count: nat)
    ensures text == "你好" && count == Utf16Length(text) == 2
  {
    var box := new ChatInput();
    box.QuickReply(0);
    text, count := box.inputText, box.charCount;
  }

  /** An astral character such as the microphone emoji is one character but counts two towards the counter. */
  lemma MicrophoneCountsTwo()
    ensures |"🎤"| == 1 && Utf16Length("🎤") == 2
  {
  }
}
