/**
 * The mobile floating voice button (`FloatingButtons`): a press arms a
 * 500 ms long-press timer, the timer firing starts the recording, and a
 * release or cancel clears the timer and stops a running recording. Timers
 * are named by handles; `armed` holds the ones scheduled and neither fired
 * nor cleared.
 */
module FloatingVoice {
  import opened Wrappers

  /** The handle in the timer ref, as a set. */
  function Held(timer: Option<nat>): set<nat> {
    if timer.Some? then {timer.value} else {}
  }

  /**
   * The `onVoicePress` calls made so far: a stop is only ever made while
   * recording, so no two stops are adjacent and the first call is a start.
   */
  predicate StopsFollowStarts(presses: seq<bool>) {
    forall i :: 0 <= i < |presses| && !presses[i] ==> 0 < i && presses[i - 1]
  }

  class FloatingButtons {
    var isRecording: bool
    /** `longPressTimer.current`. */
    var longPressTimer: Option<nat>
    var armed: set<nat>
    /** The arguments of the `onVoicePress` calls, oldest first. */
    var presses: seq<bool>
    /** How often `onChatOpen` was called. */
    var chatOpens: nat

    /** The recording flag is the argument of the last `onVoicePress` call. */
    predicate Consistent()
      reads this
    {
      StopsFollowStarts(presses) && isRecording == (presses != [] && presses[|presses| - 1])
    }

    /** No timer is armed except the one the ref holds. */
    predicate NoOrphan()
      reads this
    {
      armed <= Held(longPressTimer)
    }

    constructor()
      ensures Consistent() && NoOrphan()
      ensures !isRecording && longPressTimer == None && armed == {} && presses == [] && chatOpens == 0
    {
      isRecording := false;
      longPressTimer := None;
      armed := {};
      presses := [];
      chatOpens := 0;
    }

    /**
     * `handleVoiceTouchStart` as written: a new timer replaces the handle
     * in the ref, and a timer still armed there stays armed.
     */
    method TouchStartAsWritten(h: nat)
      requires h !in armed
      modifies this`longPressTimer, this`armed
      ensures longPressTimer == Some(h) && armed == old(armed) + {h}
    {
      armed := armed + {h};
      longPressTimer := Some(h);
    }

    /** The press with the timer in the ref cleared before the new one is armed. */
    method TouchStart(h: nat)
      requires NoOrphan() && h !in armed
      modifies this`longPressTimer, this`armed
      ensures NoOrphan()
      ensures longPressTimer == Some(h) && armed == {h}
    {
      armed := armed - Held(longPressTimer) + {h};
      longPressTimer := Some(h);
    }

    /** The armed timer `h` fires: recording starts and `onVoicePress(true)` is called. */
    method Fire(h: nat)
      requires Consistent() && h in armed
      modifies this`isRecording, this`armed, this`presses
      ensures Consistent()
      ensures isRecording && armed == old(armed) - {h} && presses == old(presses) + [true]
      ensures old(NoOrphan()) ==> NoOrphan()
    {
      armed := armed - {h};
      isRecording := true;
      presses := presses + [true];
    }

    /**
     * `handleVoiceTouchEnd`: the timer in the ref is cleared and the ref
     * emptied; a running recording stops with one `onVoicePress(false)`.
     * With no orphaned timer, nothing is left armed.
     */
    method TouchEnd()
      requires Consistent()
      modifies this`isRecording, this`longPressTimer, this`armed, this`presses
      ensures Consistent() && NoOrphan() == (armed == {})
      ensures longPressTimer == None && !isRecording && armed == old(armed) - Held(old(longPressTimer))
      ensures presses == old(presses) + (if old(isRecording) then [false] else [])
      ensures old(NoOrphan()) ==> armed == {}
    {
      if longPressTimer.Some? {
        armed := armed - {longPressTimer.value};
        longPressTimer := None;
      }
      if isRecording {
        isRecording := false;
        presses := presses + [false];
      }
    }

    /** `handleVoiceTouchCancel`: the same clearing and stopping as a release, without the vibration. */
    method TouchCancel()
      requires Consistent()
      modifies this`isRecording, this`longPressTimer, this`armed, this`presses
      ensures Consistent() && NoOrphan() == (armed == {})
      ensures longPressTimer == None && !isRecording && armed == old(armed) - Held(old(longPressTimer))
      ensures presses == old(presses) + (if old(isRecording) then [false] else [])
      ensures old(NoOrphan()) ==> armed == {}
    {
      if longPressTimer.Some? {
        armed := armed - {longPressTimer.value};
        longPressTimer := None;
      }
      if isRecording {
        isRecording := false;
        presses := presses + [false];
      }
    }

    /** `handleChatClick`. */
    method ChatClick()
      modifies this`chatOpens
      ensures chatOpens == old(chatOpens) + 1
    {
      chatOpens := chatOpens + 1;
    }
  }

  /** The buttons render only while the overlay is closed. */
  predicate Visible(isChatOpen: bool) {
    !isChatOpen
  }

  /**
   * A press released before its timer fires makes no `onVoicePress` call
   * and leaves no timer armed.
   */
  method ShortPress() returns (presses: seq<bool>, armed: set<nat>)
    ensures presses == [] && armed == {}
  {
    var b := new FloatingButtons();
    b.TouchStart(1);
    b.TouchEnd();
    presses, armed := b.presses, b.armed;
  }

  /** A long press: start, fire, release gives exactly one start and one stop. */
  method LongPress() returns (presses: seq<bool>, recording: bool)
    ensures presses == [true, false] && !recording
  {
    var b := new FloatingButtons();
    b.TouchStart(1);
    b.Fire(1);
    b.TouchEnd();
    presses, recording := b.presses, b.isRecording;
  }

  /**
   * As written, a second press before the release (a second finger, or a
   * mouse-down after a touch-start) leaves the first timer armed with no
   * handle in the ref; the release cannot clear it, and when it fires the
   * recording starts with nothing pressed.
   */
  method OrphanedTimerAsWritten() returns (presses: seq<bool>, recording: bool, held: Option<nat>)
    ensures recording && presses == [true] && held == None
  {
    var b := new FloatingButtons();
    b.TouchStartAsWritten(1);
    b.TouchStartAsWritten(2);
    b.TouchEnd();
    assert 1 in b.armed;
    b.Fire(1);
    presses, recording, held := b.presses, b.isRecording, b.longPressTimer;
  }

  /** With the previous timer cleared on a press, the same sequence leaves nothing armed and never records. */
  method OrphanedTimerCleared() returns (presses: seq<bool>, armed: set<nat>)
    ensures presses == [] && armed == {}
  {
    var b := new FloatingButtons();
    b.TouchStart(1);
    b.TouchStart(2);
    b.TouchEnd();
    presses, armed := b.presses, b.armed;
  }
}
