/**
 * The chat list both chat views keep (the desktop chat panel and the mobile
 * overlay) and the payload normalisation they share: which field names the
 * speaker, which field carries the text, which type a payload counts as, and
 * the "last three entries" duplicate check.
 */
module ChatModel {
  import opened Text
  import opened Js

  datatype Sender = User | Npc | System
  datatype Status = Sent | Pending | Error

  /**
   * One chat entry. `npcName` is the value the view stored, `Undefined` when
   * the entry has none. Timestamps are not modelled.
   */
  datatype ChatMessage = ChatMessage(id: string, sender: Sender, content: string, npcName: JsValue, status: Status)

  const WelcomeText: string := "欢迎使用 Convai 智能对话系统！你可以通过文字或语音与AI角色进行对话。"

  /** The entry a view shows when its list is empty. */
  const Welcome: ChatMessage := ChatMessage("welcome", System, WelcomeText, Undefined, Sent)

  /**
   * `addMessage`: the entry goes at the end under a new `msg_…` id, whatever
   * id it carried. `stamp` stands for the `${Date.now()}_${random}` part.
   */
  function AddMessage(ms: seq<ChatMessage>, m: ChatMessage, stamp: string): seq<ChatMessage> {
    ms + [m.(id := "msg_" + stamp)]
  }

  /** `updateMessageStatus(id, st)`: a `map` over the list that restamps the entries with that id. */
  function UpdateMessageStatus(ms: seq<ChatMessage>, id: string, st: Status): (r: seq<ChatMessage>)
    ensures |r| == |ms|
  {
    if ms == [] then []
    else [if ms[0].id == id then ms[0].(status := st) else ms[0]] + UpdateMessageStatus(ms[1..], id, st)
  }

  /**
   * The status update touches nothing but the status of the entries with
   * that id: order, ids and contents stay, and an unknown id changes nothing.
   */
  lemma {:induction false} UpdateMessageStatusSpec(ms: seq<ChatMessage>, id: string, st: Status)
    ensures forall i :: 0 <= i < |ms| ==>
      UpdateMessageStatus(ms, id, st)[i] == (if ms[i].id == id then ms[i].(status := st) else ms[i])
    ensures (forall i :: 0 <= i < |ms| ==> ms[i].id != id) ==> UpdateMessageStatus(ms, id, st) == ms
  {
    if ms != [] {
      UpdateMessageStatusSpec(ms[1..], id, st);
      var r := UpdateMessageStatus(ms, id, st);
      forall i | 0 <= i < |ms|
        ensures r[i] == (if ms[i].id == id then ms[i].(status := st) else ms[i])
      {
        if i > 0 {
          assert r[i] == UpdateMessageStatus(ms[1..], id, st)[i - 1];
        }
      }
    }
  }

  // ---------------------------------------------------------------------
  // Entry ids
  // ---------------------------------------------------------------------

  /** The ids the views hand out: the welcome entry, `msg_…` and `voice_…`. */
  predicate ViewId(id: string) {
    id == "welcome" || (|id| >= 4 && id[..4] == "msg_") || (|id| >= 6 && id[..6] == "voice_")
  }

  predicate ViewIds(ms: seq<ChatMessage>) {
    forall i :: 0 <= i < |ms| ==> ViewId(ms[i].id)
  }

  /** An entry under a view-issued id keeps the list's ids view-issued. */
  lemma ViewIdsAppend(ms: seq<ChatMessage>, m: ChatMessage)
    requires ViewIds(ms) && ViewId(m.id)
    ensures ViewIds(ms + [m])
  {
    assert (ms + [m])[|ms|] == m;
  }

  /** `addMessage` keeps the list's ids view-issued, whatever id the entry carried. */
  lemma AddMessageKeepsViewIds(ms: seq<ChatMessage>, m: ChatMessage, stamp: string)
    requires ViewIds(ms)
    ensures ViewIds(AddMessage(ms, m, stamp))
  {
    assert ("msg_" + stamp)[..4] == "msg_";
    ViewIdsAppend(ms, m.(id := "msg_" + stamp));
  }

  /** A string that starts with a digit is none of the ids the views hand out. */
  lemma DigitHeadIsNoViewId(id: string)
    requires |id| > 0 && IsDigit(id[0])
    ensures !ViewId(id)
  {
    assert id != "welcome" by {
      assert "welcome"[0] == 'w';
    }
    if |id| >= 4 {
      assert id[..4][0] == id[0];
    }
    if |id| >= 6 {
      assert id[..6][0] == id[0];
    }
  }

  /** A clock reading `Date.now().toString()` is never one of the ids the views hand out. */
  lemma ClockIdIsNoViewId(now: nat)
    ensures !ViewId(Decimal(now))
  {
    DecimalSpec(now);
    DigitHeadIsNoViewId(Decimal(now));
  }

  // ---------------------------------------------------------------------
  // Sending a line the user typed
  // ---------------------------------------------------------------------

  /** The pending user entry `handleSendText` builds under `id`. */
  function UserEntry(id: string, text: string): ChatMessage {
    ChatMessage(id, User, Trim(text), Str("你"), Pending)
  }

  /** The status a send result maps to. */
  function Outcome(ok: bool): Status {
    if ok then Sent else Error
  }

  /**
   * `handleSendText` as written in both views: the entry is built with id
   * `Date.now().toString()`, `addMessage` replaces that id, and the status
   * update then looks for the replaced one.
   */
  function SendTextAsWritten(ms: seq<ChatMessage>, text: string, now: nat, stamp: string, ok: bool): seq<ChatMessage> {
    if Trim(text) == "" then ms
    else UpdateMessageStatus(AddMessage(ms, UserEntry(Decimal(now), text), stamp), Decimal(now), Outcome(ok))
  }

  /**
   * On every list of view-issued ids, the as-written send appends the entry
   * and leaves it `Pending`, whether the bridge accepted the line or not.
   */
  lemma SendTextAsWrittenStaysPending(ms: seq<ChatMessage>, text: string, now: nat, stamp: string, ok: bool)
    requires ViewIds(ms) && !Blank(text)
    ensures SendTextAsWritten(ms, text, now, stamp, ok) == ms + [UserEntry("msg_" + stamp, text)]
    ensures SendTextAsWritten(ms, text, now, stamp, ok)[|ms|].status == Pending
  {
    TrimSpec(text);
    var added := AddMessage(ms, UserEntry(Decimal(now), text), stamp);
    ClockIdIsNoViewId(now);
    assert ViewId(added[|ms|].id);
    UpdateMessageStatusSpec(added, Decimal(now), Outcome(ok));
  }

  /**
   * `handleSendText` with the status update aimed at the id `addMessage`
   * gave the entry.
   */
  function SendText(ms: seq<ChatMessage>, text: string, stamp: string, ok: bool): seq<ChatMessage> {
    if Trim(text) == "" then ms
    else UpdateMessageStatus(AddMessage(ms, UserEntry("msg_" + stamp, text), stamp), "msg_" + stamp, Outcome(ok))
  }

  /**
   * Blank input changes nothing; otherwise exactly one entry is appended,
   * holding the trimmed text and marked `Sent` when the bridge accepted the
   * line and `Error` when it did not.
   */
  lemma SendTextMarksEntry(ms: seq<ChatMessage>, text: string, stamp: string, ok: bool)
    requires forall i :: 0 <= i < |ms| ==> ms[i].id != "msg_" + stamp
    ensures Blank(text) ==> SendText(ms, text, stamp, ok) == ms
    ensures !Blank(text) ==>
      SendText(ms, text, stamp, ok) == ms + [ChatMessage("msg_" + stamp, User, Trim(text), Str("你"), Outcome(ok))]
  {
    TrimSpec(text);
    UpdateMessageStatusSpec(AddMessage(ms, UserEntry("msg_" + stamp, text), stamp), "msg_" + stamp, Outcome(ok));
  }

  /** The views' lists keep view-issued ids through a send. */
  lemma SendTextKeepsViewIds(ms: seq<ChatMessage>, text: string, stamp: string, ok: bool)
    requires ViewIds(ms)
    ensures ViewIds(SendText(ms, text, stamp, ok))
  {
    var added := AddMessage(ms, UserEntry("msg_" + stamp, text), stamp);
    assert ViewId(added[|ms|].id);
    UpdateMessageStatusSpec(added, "msg_" + stamp, Outcome(ok));
  }

  // ---------------------------------------------------------------------
  // Payload normalisation
  // ---------------------------------------------------------------------

  /** The fields `pickNpcName` tries, in order. */
  function NameCandidates(d: JsValue): seq<JsValue> {
    [Get(d, "npcName"), Get(d, "npc"), Get(d, "characterName"), Get(d, "name")]
  }

  /** `pickNpcName`: `d?.npcName || d?.npc || d?.characterName || d?.name || 'NPC'`. */
  function NpcName(d: JsValue): JsValue {
    Or(Or(Or(Or(Get(d, "npcName"), Get(d, "npc")), Get(d, "characterName")), Get(d, "name")), Str("NPC"))
  }

  /** The first truthy value of `cs`, `fallback` when there is none. */
  function FirstTruthy(cs: seq<JsValue>, fallback: JsValue): JsValue {
    if cs == [] then fallback else if Truthy(cs[0]) then cs[0] else FirstTruthy(cs[1..], fallback)
  }

  /** `FirstTruthy` picks the earliest truthy candidate, and the fallback only when none is truthy. */
  lemma {:induction false} FirstTruthySpec(cs: seq<JsValue>, fallback: JsValue)
    ensures (forall i :: 0 <= i < |cs| ==> !Truthy(cs[i])) ==> FirstTruthy(cs, fallback) == fallback
    ensures (exists i :: 0 <= i < |cs| && Truthy(cs[i])) ==>
      exists i :: 0 <= i < |cs| && Truthy(cs[i]) && FirstTruthy(cs, fallback) == cs[i]
                  && forall j :: 0 <= j < i ==> !Truthy(cs[j])
  {
    if cs != [] && !Truthy(cs[0]) {
      FirstTruthySpec(cs[1..], fallback);
      if exists i :: 0 <= i < |cs| && Truthy(cs[i]) {
        var k :| 0 < k < |cs| && Truthy(cs[k]);
        assert Truthy(cs[1..][k - 1]);
        var i :| 0 <= i < |cs| - 1 && Truthy(cs[1..][i]) && FirstTruthy(cs[1..], fallback) == cs[1..][i]
                 && forall j :: 0 <= j < i ==> !Truthy(cs[1..][j]);
        assert forall j :: 0 <= j < i + 1 ==> !Truthy(cs[j]) by {
          forall j | 0 < j < i + 1 ensures !Truthy(cs[j]) {
            assert cs[j] == cs[1..][j - 1];
          }
        }
      }
    }
  }

  /** The speaker name is the first truthy of the four fields, `'NPC'` otherwise; it is always truthy. */
  lemma NpcNameSpec(d: JsValue)
    ensures NpcName(d) == FirstTruthy(NameCandidates(d), Str("NPC"))
    ensures Truthy(NpcName(d))
  {
    var cs := NameCandidates(d);
    var f := Str("NPC");
    assert cs[1..] == [Get(d, "npc"), Get(d, "characterName"), Get(d, "name")];
    assert cs[1..][1..] == [Get(d, "characterName"), Get(d, "name")];
    assert cs[1..][1..][1..] == [Get(d, "name")];
    assert cs[1..][1..][1..][1..] == [];
    assert FirstTruthy(cs[1..][1..][1..], f) == Or(Get(d, "name"), f);
    assert FirstTruthy(cs[1..][1..], f) == Or(Get(d, "characterName"), Or(Get(d, "name"), f));
    assert FirstTruthy(cs[1..], f) == Or(Get(d, "npc"), Or(Get(d, "characterName"), Or(Get(d, "name"), f)));
  }

  /** The fields `pickNpcText` tries, in order. */
  function TextCandidates(d: JsValue): seq<JsValue> {
    [Get(d, "content"), Get(d, "text"), Get(d, "message"), Get(d, "transcript"),
     Get(Get(d, "speech"), "text"), Get(d, "response"), Get(d, "reply"), Get(d, "answer")]
  }

  /** `text && typeof text === 'string' && text.trim()`. */
  predicate Usable(v: JsValue) {
    v.Str? && Trim(v.s) != ""
  }

  /** The trimmed first usable candidate, `''` when there is none. */
  function FirstText(cs: seq<JsValue>): string {
    if cs == [] then "" else if Usable(cs[0]) then Trim(cs[0].s) else FirstText(cs[1..])
  }

  /** What `pickNpcText` returns for an object payload. */
  function NpcText(d: JsValue): string {
    FirstText(TextCandidates(d))
  }

  /**
   * The extracted text is empty exactly when no candidate is a non-blank
   * string; otherwise it is the trimmed text of the earliest such candidate.
   */
  lemma {:induction false} FirstTextSpec(cs: seq<JsValue>)
    ensures FirstText(cs) == "" <==> forall i :: 0 <= i < |cs| ==> !Usable(cs[i])
    ensures FirstText(cs) != "" ==>
      exists i :: 0 <= i < |cs| && Usable(cs[i]) && FirstText(cs) == Trim(cs[i].s)
                  && forall j :: 0 <= j < i ==> !Usable(cs[j])
  {
    if cs != [] && !Usable(cs[0]) {
      FirstTextSpec(cs[1..]);
      assert forall i :: 0 < i < |cs| ==> cs[i] == cs[1..][i - 1];
      if FirstText(cs) != "" {
        var i :| 0 <= i < |cs| - 1 && Usable(cs[1..][i]) && FirstText(cs[1..]) == Trim(cs[1..][i].s)
                 && forall j :: 0 <= j < i ==> !Usable(cs[1..][j]);
        assert Usable(cs[i + 1]) && FirstText(cs) == Trim(cs[i + 1].s);
      }
    }
  }

  /** The extracted text has no surrounding whitespace left to trim. */
  lemma NpcTextTrimmed(d: JsValue)
    ensures Trim(NpcText(d)) == NpcText(d)
  {
    var cs := TextCandidates(d);
    FirstTextSpec(cs);
    if NpcText(d) != "" {
      var i :| 0 <= i < |cs| && Usable(cs[i]) && NpcText(d) == Trim(cs[i].s);
      TrimIdempotent(cs[i].s);
    }
  }

  /** `pickNpcText`: the loop over the candidates with its early return. */
  method PickNpcText(d: JsValue) returns (text: string)
    ensures text == NpcText(d)
  {
    var cs := TextCandidates(d);
    var i := 0;
    while i < |cs|
      invariant 0 <= i <= |cs|
      invariant FirstText(cs[i..]) == NpcText(d)
    {
      var c := cs[i];
      if c.Str? && Trim(c.s) != "" {
        return Trim(c.s);
      }
      assert cs[i..][1..] == cs[i + 1..];
      i := i + 1;
    }
    return "";
  }

  /** `data?.type || (text ? 'npc_text' : undefined)`. */
  function NormalizedType(d: JsValue, text: string): JsValue {
    Or(Get(d, "type"), if text != "" then Str("npc_text") else Undefined)
  }

  /**
   * A truthy `type` is kept as it is; without one, the payload counts as
   * `npc_text` exactly when it carries text, and has no type otherwise.
   */
  lemma NormalizedTypeSpec(d: JsValue, text: string)
    ensures Truthy(Get(d, "type")) ==> NormalizedType(d, text) == Get(d, "type")
    ensures !Truthy(Get(d, "type")) ==> (NormalizedType(d, text) == Str("npc_text") <==> text != "")
    ensures !Truthy(Get(d, "type")) && text == "" ==> NormalizedType(d, text) == Undefined
  {
  }

  // ---------------------------------------------------------------------
  // The last-three duplicate check
  // ---------------------------------------------------------------------

  /** `prev.slice(-3)`. */
  function Recent(ms: seq<ChatMessage>): seq<ChatMessage> {
    if |ms| <= 3 then ms else ms[|ms| - 3..]
  }

  /** An NPC entry with this text whose name (defaulting to `'NPC'`) is `name`. */
  predicate SameNpcLine(m: ChatMessage, text: string, name: JsValue) {
    m.sender == Npc && m.content == text && Or(m.npcName, Str("NPC")) == name
  }

  predicate RecentDuplicate(ms: seq<ChatMessage>, text: string, name: JsValue) {
    exists m :: m in Recent(ms) && SameNpcLine(m, text, name)
  }

  /** The NPC entry appended for a line, under id `msg_` + `stamp`. */
  function NpcEntry(text: string, name: JsValue, stamp: string): ChatMessage {
    ChatMessage("msg_" + stamp, Npc, text, name, Sent)
  }

  /** The `npc_text` update: nothing when one of the last three entries is the same line, else one new entry. */
  function AppendNpcUnlessRecent(ms: seq<ChatMessage>, text: string, name: JsValue, stamp: string): seq<ChatMessage> {
    if RecentDuplicate(ms, text, name) then ms else ms + [NpcEntry(text, name, stamp)]
  }

  lemma AppendNpcKeepsViewIds(ms: seq<ChatMessage>, text: string, name: JsValue, stamp: string)
    requires ViewIds(ms)
    ensures ViewIds(ms + [NpcEntry(text, name, stamp)])
    ensures ViewIds(AppendNpcUnlessRecent(ms, text, name, stamp))
  {
    assert ("msg_" + stamp)[..4] == "msg_";
    ViewIdsAppend(ms, NpcEntry(text, name, stamp));
  }

  /**
   * The window is exactly the last three entries: the line is appended
   * precisely when none of the entries at the last three positions is the
   * same line, and then it is the only change.
   */
  lemma AppendNpcUnlessRecentSpec(ms: seq<ChatMessage>, text: string, name: JsValue, stamp: string)
    ensures AppendNpcUnlessRecent(ms, text, name, stamp) != ms <==>
      forall i :: 0 <= i < |ms| && |ms| - 3 <= i ==> !SameNpcLine(ms[i], text, name)
    ensures AppendNpcUnlessRecent(ms, text, name, stamp) != ms ==>
      AppendNpcUnlessRecent(ms, text, name, stamp) == ms + [NpcEntry(text, name, stamp)]
  {
    RecentDuplicateAt(ms, text, name);
    if !RecentDuplicate(ms, text, name) {
      assert |ms + [NpcEntry(text, name, stamp)]| != |ms|;
    }
  }

  /** The duplicate check looks exactly at the entries in the last three positions. */
  lemma RecentDuplicateAt(ms: seq<ChatMessage>, text: string, name: JsValue)
    ensures RecentDuplicate(ms, text, name) <==>
      exists i :: 0 <= i < |ms| && |ms| - 3 <= i && SameNpcLine(ms[i], text, name)
  {
    var r := Recent(ms);
    var off := |ms| - |r|;
    assert off == if |ms| <= 3 then 0 else |ms| - 3;
    if RecentDuplicate(ms, text, name) {
      var m :| m in r && SameNpcLine(m, text, name);
      var k :| 0 <= k < |r| && r[k] == m;
      assert ms[off + k] == m;
    }
    if exists i :: 0 <= i < |ms| && |ms| - 3 <= i && SameNpcLine(ms[i], text, name) {
      var i :| 0 <= i < |ms| && |ms| - 3 <= i && SameNpcLine(ms[i], text, name);
      assert r[i - off] == ms[i];
      assert r[i - off] in r;
    }
  }

  /**
   * Delivering the same line again (under any new stamp) right after it was
   * handled changes nothing: its entry is among the last three.
   */
  lemma AppendNpcUnlessRecentIdempotent(ms: seq<ChatMessage>, text: string, name: JsValue, s1: string, s2: string)
    requires Truthy(name)
    ensures AppendNpcUnlessRecent(AppendNpcUnlessRecent(ms, text, name, s1), text, name, s2)
            == AppendNpcUnlessRecent(ms, text, name, s1)
  {
    var once := AppendNpcUnlessRecent(ms, text, name, s1);
    if once != ms {
      var e := NpcEntry(text, name, s1);
      assert once[|once| - 1] == e;
      assert e in Recent(once) by {
        assert Recent(once)[|Recent(once)| - 1] == e;
      }
      assert SameNpcLine(e, text, name);
    }
  }

  /** Every transcript waiting for its 200 ms re-send is non-empty and already trimmed. */
  predicate Resendable(ps: seq<string>) {
    forall i :: 0 <= i < |ps| ==> ps[i] != "" && Trim(ps[i]) == ps[i]
  }

  lemma ResendableAppend(ps: seq<string>, text: string)
    requires Resendable(ps) && text != "" && Trim(text) == text
    ensures Resendable(ps + [text])
  {
  }

  /** The oldest pending transcript is usable as it is, and the rest stay re-sendable. */
  lemma ResendableTail(ps: seq<string>)
    requires Resendable(ps) && ps != []
    ensures ps[0] != "" && Trim(ps[0]) == ps[0] && !Blank(ps[0])
    ensures Resendable(ps[1..])
  {
    TrimSpec(ps[0]);
    assert forall i :: 0 <= i < |ps[1..]| ==> ps[1..][i] == ps[i + 1];
  }
}
