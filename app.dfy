/**
 * The page shell (`App`): the session clock and its `MM:SS` / `HH:MM:SS`
 * display, the device classification that chooses between the desktop
 * panel and the mobile overlay, and the mobile overlay and voice flags.
 */
module AppShell {
  import opened Wrappers
  import opened Text

  // ---------------------------------------------------------------------
  // formatDuration
  // ---------------------------------------------------------------------

  /** `n.toString().padStart(2, '0')`: one digit gets a leading zero, more digits stay as they are. */
  function Pad2(n: nat): (r: string)
    ensures |r| >= 2 && Digits(r) == Some(n)
    ensures n < 100 ==> |r| == 2
  {
    Pad2Facts(n);
    if n < 10 then ['0', DigitChar(n)] else Decimal(n)
  }

  lemma Pad2Facts(n: nat)
    ensures var r := if n < 10 then ['0', DigitChar(n)] else Decimal(n);
      |r| >= 2 && Digits(r) == Some(n) && (n < 100 ==> |r| == 2)
      && r == PadStart(Decimal(n), 2, '0')
  {
    DecimalSpec(n);
    if n < 10 {
      OneDigitPadded(n);
    } else {
      ManyDigitsKept(n);
    }
  }

  lemma OneDigitPadded(n: nat)
    requires n < 10
    ensures Digits(['0', DigitChar(n)]) == Some(n) && ['0', DigitChar(n)] == PadStart(Decimal(n), 2, '0')
  {
    var r := ['0', DigitChar(n)];
    assert r[..1] == ['0'] && r[..1][..0] == [];
    assert DigitsUpTo(r, 1) == Some(0);
    var p := PadStart(Decimal(n), 2, '0');
    assert Decimal(n) == [DigitChar(n)];
    assert |p| == 2 && p[1..] == [DigitChar(n)] && p[0] == '0';
    assert p == [p[0]] + p[1..];
  }

  lemma ManyDigitsKept(n: nat)
    requires n >= 10
    ensures var s := Decimal(n);
      |s| >= 2 && Digits(s) == Some(n) && (n < 100 ==> |s| == 2) && s == PadStart(s, 2, '0')
  {
    var s := Decimal(n);
    DecimalSpec(n);
    DecimalSpec(n / 10);
    assert s == Decimal(n / 10) + [DigitChar(n % 10)];
    DigitsSpec(s);
    if n < 100 && |s| > 2 {
      LeadingDigitBound(s);
    }
    var p := PadStart(s, 2, '0');
    assert p[|p| - |s|..] == s;
  }

  /** A digit string of three or more characters without a leading zero is worth at least 100. */
  lemma LeadingDigitBound(s: string)
    requires |s| > 2 && AllDigits(s) && s[0] != '0'
    ensures DecimalValue(s) >= 100
  {
    assert s == s[..|s| - 1] + [s[|s| - 1]];
    if |s| > 3 {
      LeadingDigitBound(s[..|s| - 1]);
    } else {
      assert s[..1] == [s[0]];
      assert DecimalValue(s[..2]) >= 10 by {
        assert s[..2] == s[..1] + [s[1]];
        assert s[..2][..1] == s[..1];
      }
    }
  }

  /** The three fields `formatDuration` shows. */
  datatype Clock = Clock(hours: nat, minutes: nat, secs: nat)

  function Split(seconds: nat): (c: Clock)
    ensures 3600 * c.hours + 60 * c.minutes + c.secs == seconds
    ensures c.minutes < 60 && c.secs < 60
  {
    Clock(seconds / 3600, (seconds % 3600) / 60, seconds % 60)
  }

  /** The display of three fields: the hours only when there are any. */
  function Show(c: Clock): string {
    if c.hours > 0 then Pad2(c.hours) + ":" + Pad2(c.minutes) + ":" + Pad2(c.secs)
    else Pad2(c.minutes) + ":" + Pad2(c.secs)
  }

  /** `formatDuration(seconds)`: `HH:MM:SS` once an hour has passed, `MM:SS` before. */
  function FormatDuration(seconds: nat): string {
    Show(Split(seconds))
  }

  /** A field of decimal digits, read as a number; `None` when any other character is in it. */
  function Digits(f: string): Option<nat> {
    DigitsUpTo(f, |f|)
  }

  /** The number the first `k` characters of `f` denote, when they are all digits. */
  function DigitsUpTo(f: string, k: nat): Option<nat>
    requires k <= |f|
  {
    if k == 0 then Some(0)
    else if !IsDigit(f[k - 1]) then None
    else match DigitsUpTo(f, k - 1)
      case Some(v) => Some(10 * v + (f[k - 1] as int - '0' as int))
      case None => None
  }

  lemma {:induction false} DigitsUpToSpec(f: string, k: nat)
    requires k <= |f| && AllDigits(f[..k])
    ensures DigitsUpTo(f, k) == Some(DecimalValue(f[..k]))
  {
    if k > 0 {
      assert f[..k][..k - 1] == f[..k - 1];
      DigitsUpToSpec(f, k - 1);
    }
  }

  lemma DigitsSpec(f: string)
    requires AllDigits(f)
    ensures Digits(f) == Some(DecimalValue(f))
  {
    assert f[..|f|] == f;
    DigitsUpToSpec(f, |f|);
  }

  /**
   * Reading a display back: the last two digits are seconds after a colon,
   * the part before them is either two digits of minutes or hours, a colon
   * and two digits of minutes.
   */
  function ReadDuration(t: string): Option<nat> {
    if |t| < 5 || t[|t| - 3] != ':' then None
    else
      match (ReadLeading(t[..|t| - 3]), Digits(t[|t| - 2..]))
      case (Some(lead), Some(secs)) => Some(lead + secs)
      case _ => None
  }

  /** The seconds the fields before the last colon stand for. */
  function ReadLeading(rest: string): Option<nat> {
    if |rest| == 2 then
      (match Digits(rest) case Some(m) => Some(60 * m) case None => None)
    else if |rest| >= 5 && rest[|rest| - 3] == ':' then
      match (Digits(rest[..|rest| - 3]), Digits(rest[|rest| - 2..]))
      case (Some(h), Some(m)) => Some(3600 * h + 60 * m)
      case _ => None
    else None
  }

  /** Gluing `a`, a colon and a two-character `b`, and taking it apart again. */
  lemma ColonJoin(a: string, b: string)
    requires |b| == 2
    ensures var t := a + ":" + b;
      |t| == |a| + 3 && t[|t| - 3] == ':' && t[|t| - 2..] == b && t[..|t| - 3] == a
  {
    var t := a + ":" + b;
    assert t[|t| - 2..] == b;
    assert t[..|t| - 3] == a;
  }

  /** A display ends in a colon and two digits of seconds; the rest is read by `ReadLeading`. */
  lemma ReadOfJoin(lead: string, s: string, a: nat, secs: nat)
    requires |lead| >= 2 && |s| == 2 && ReadLeading(lead) == Some(a) && Digits(s) == Some(secs)
    ensures ReadDuration(lead + ":" + s) == Some(a + secs)
  {
    var t := lead + ":" + s;
    ColonJoin(lead, s);
    assert t[..|t| - 3] == lead && t[|t| - 2..] == s;
  }

  lemma LeadingOfJoin(h: string, m: string, hours: nat, minutes: nat)
    requires |h| >= 2 && |m| == 2 && Digits(h) == Some(hours) && Digits(m) == Some(minutes)
    ensures ReadLeading(h + ":" + m) == Some(3600 * hours + 60 * minutes)
  {
    var rest := h + ":" + m;
    ColonJoin(h, m);
    assert rest[..|rest| - 3] == h && rest[|rest| - 2..] == m;
  }

  /** Without hours the display is `MM:SS`, five characters, and reads back as `60 * MM + SS`. */
  lemma ShowShort(c: Clock)
    requires c.hours == 0 && c.minutes < 60 && c.secs < 60
    ensures ReadDuration(Show(c)) == Some(60 * c.minutes + c.secs) && |Show(c)| == 5
  {
    var m := Pad2(c.minutes);
    assert ReadLeading(m) == Some(60 * c.minutes);
    ReadOfJoin(m, Pad2(c.secs), 60 * c.minutes, c.secs);
  }

  /** With hours the display is `HH:MM:SS`, longer than five characters, and reads back as the seconds. */
  lemma ShowLong(c: Clock)
    requires c.hours > 0 && c.minutes < 60 && c.secs < 60
    ensures ReadDuration(Show(c)) == Some(3600 * c.hours + 60 * c.minutes + c.secs) && |Show(c)| > 5
  {
    var h, m := Pad2(c.hours), Pad2(c.minutes);
    var s := Pad2(c.secs);
    LeadingOfJoin(h, m, c.hours, c.minutes);
    ReadOfJoin(h + ":" + m, s, 3600 * c.hours + 60 * c.minutes, c.secs);
    var t := h + ":" + m + ":" + s;
    assert Show(c) == t;
    assert ReadDuration(t) == Some(3600 * c.hours + 60 * c.minutes + c.secs);
    assert |t| > 5;
  }

  /**
   * The display always reads back as the number of seconds shown: the
   * minutes and seconds fields are exactly two digits, the hours field at
   * least two and present exactly when an hour has passed.
   */
  lemma FormatDurationRoundTrip(seconds: nat)
    ensures ReadDuration(FormatDuration(seconds)) == Some(seconds)
    ensures |FormatDuration(seconds)| == 5 <==> seconds < 3600
  {
    var c := Split(seconds);
    if c.hours > 0 {
      ShowLong(c);
    } else {
      ShowShort(c);
    }
  }

  // ---------------------------------------------------------------------
  // Device classification (checkDevice)
  // ---------------------------------------------------------------------

  /** What `checkDevice` derives from the window size. */
  datatype Layout = Layout(isMobile: bool, isPortrait: bool, isLandscape: bool, isMobileVertical: bool)

  const MobileMaxWidth := 768

  function Classify(width: int, height: int): Layout {
    var isMobile := width <= MobileMaxWidth;
    var isPortrait := height > width;
    Layout(isMobile, isPortrait, width > height, isMobile && isPortrait)
  }

  /**
   * Portrait and landscape exclude each other and a square window is
   * neither; the mobile-vertical layout is a narrow portrait window.
   */
  lemma ClassifySpec(width: int, height: int)
    ensures var l := Classify(width, height);
      && !(l.isPortrait && l.isLandscape)
      && (width == height ==> !l.isPortrait && !l.isLandscape)
      && (width != height ==> l.isPortrait != l.isLandscape)
      && (l.isMobileVertical <==> width <= 768 && height > width)
  {
  }

  /** The mode line of the debug box. */
  function ModeLabel(isMobileVertical: bool, isLandscape: bool): string {
    if isMobileVertical then "移动竖屏" else if isLandscape then "横屏" else "桌面"
  }

  // ---------------------------------------------------------------------
  // The component
  // ---------------------------------------------------------------------

  class App {
    var sessionDuration: nat
    var isMobileVertical: bool
    var isLandscape: bool
    var isChatOverlayOpen: bool
    var isVoiceRecording: bool

    constructor()
      ensures sessionDuration == 0 && !isMobileVertical && !isLandscape && !isChatOverlayOpen && !isVoiceRecording
    {
      sessionDuration := 0;
      isMobileVertical := false;
      isLandscape := false;
      isChatOverlayOpen := false;
      isVoiceRecording := false;
    }

    /** The one-second interval: whole seconds since mount. */
    method Tick(elapsedMs: nat)
      modifies this`sessionDuration
      ensures sessionDuration * 1000 <= elapsedMs < (sessionDuration + 1) * 1000
    {
      sessionDuration := elapsedMs / 1000;
    }

    /** `checkDevice` with the window's inner width and height. */
    method CheckDevice(width: int, height: int)
      modifies this`isMobileVertical, this`isLandscape
      ensures isMobileVertical == (width <= 768 && height > width)
      ensures isLandscape == (width > height)
      ensures !(isMobileVertical && isLandscape)
    {
      var l := Classify(width, height);
      ClassifySpec(width, height);
      isMobileVertical := l.isMobileVertical;
      isLandscape := l.isLandscape;
    }

    /** `handleVoicePress`: only the flag changes; the engine is not called. */
    method HandleVoicePress(isRecording: bool)
      modifies this`isVoiceRecording
      ensures isVoiceRecording == isRecording
    {
      isVoiceRecording := isRecording;
    }

    method HandleChatOpen()
      modifies this`isChatOverlayOpen
      ensures isChatOverlayOpen
    {
      isChatOverlayOpen := true;
    }

    method HandleChatClose()
      modifies this`isChatOverlayOpen
      ensures !isChatOverlayOpen
    {
      isChatOverlayOpen := false;
    }

    /** The desktop panel is mounted exactly when the floating buttons and the overlay are not. */
    predicate ShowsDesktopChat()
      reads this
    {
      !isMobileVertical
    }

    predicate ShowsFloatingButtons()
      reads this
    {
      isMobileVertical && !isChatOverlayOpen
    }
  }
}
