/** The control bar under the video (components/PlayerControls.tsx): the clock
    text, what each control shows and whether it is enabled, and the
    playback-speed menu, which is the bar's only state of its own. */
module PlayerControls {
  import opened Types
  import opened Strings

  // ---------------------------------------------------------------------
  // Clock text

  /** `formatTime`: a media time in seconds as minutes and seconds, each
      padded to two digits. A zero time is the literal "00:00". Media
      times are never negative. */
  function FormatTime(seconds: real): (r: string)
    requires seconds >= 0.0
    ensures |r| >= 5 && r[|r| - 3] == ':'
  {
    if seconds == 0.0 then "00:00"
    else
      var mins := (seconds / 60.0).Floor;
      var secs := (seconds - 60.0 * mins as real).Floor;
      assert mins >= 0 && 0 <= secs < 60 by { WholeMinutes(seconds); }
      Clock(mins, secs)
  }

  /** The two padded fields of the clock text. */
  function Clock(mins: nat, secs: nat): (r: string)
    ensures |r| >= 5
    ensures secs < 100 ==> r[|r| - 3] == ':'
  {
    assert secs < 100 ==> |PadStart(Digits(secs), 2, '0')| == 2 by { DigitsLength(secs); }
    PadStart(Digits(mins), 2, '0') + ":" + PadStart(Digits(secs), 2, '0')
  }

  /** The floor and remainder arithmetic behind `FormatTime`: whole minutes
      and the whole seconds left over recompose the whole seconds. */
  lemma WholeMinutes(seconds: real)
    requires seconds >= 0.0
    ensures var mins := (seconds / 60.0).Floor;
            var secs := (seconds - 60.0 * mins as real).Floor;
            mins >= 0 && 0 <= secs < 60 && 60 * mins + secs == seconds.Floor
  {
    var mins := (seconds / 60.0).Floor;
    var rem := seconds - 60.0 * mins as real;
    assert mins as real <= seconds / 60.0 < mins as real + 1.0;
    assert 60.0 * mins as real <= seconds < 60.0 * mins as real + 60.0;
    assert 0.0 <= rem < 60.0;
    var f := seconds.Floor;
    assert (f - 60 * mins) as real <= rem < (f - 60 * mins) as real + 1.0;
  }

  /** One padded field of the clock: all digits, read back as the number,
      two characters long below 10 and never cut short above. */
  lemma PaddedField(n: nat)
    ensures var f := PadStart(Digits(n), 2, '0');
            && AllDigits(f) && NumberValue(f) == n
            && |f| == (if n < 10 then 2 else |Digits(n)|)
            && (n < 100 ==> |f| == 2)
  {
    DigitsLength(n);
    ZeroPadded(Digits(n), 2);
  }

  /** `r` is a clock text for `m` minutes and `s` seconds: a minutes field,
      a colon and a two-digit seconds field, reading back as `m` and `s`,
      with the minutes padded to two digits and never cut short. */
  predicate ClockShape(r: string, m: nat, s: nat)
  {
    && |r| >= 5 && r[|r| - 3] == ':'
    && AllDigits(r[..|r| - 3]) && AllDigits(r[|r| - 2..])
    && NumberValue(r[..|r| - 3]) == m && NumberValue(r[|r| - 2..]) == s
    && |r[..|r| - 3]| == if m < 10 then 2 else |Digits(m)|
  }

  /** Two numerals joined by a colon have the clock shape. */
  lemma JoinedFields(left: string, right: string, m: nat, s: nat)
    requires AllDigits(left) && NumberValue(left) == m && |left| == if m < 10 then 2 else |Digits(m)|
    requires AllDigits(right) && NumberValue(right) == s && |right| == 2
    ensures ClockShape(left + ":" + right, m, s)
  {
    var r := left + ":" + right;
    assert r[..|r| - 3] == left;
    assert r[|r| - 2..] == right;
  }

  /** The clock of `m` minutes and `s < 60` seconds has the clock shape. */
  lemma ClockFields(m: nat, s: nat)
    requires s < 60
    ensures ClockShape(Clock(m, s), m, s)
  {
    PaddedField(m);
    PaddedField(s);
    JoinedFields(PadStart(Digits(m), 2, '0'), PadStart(Digits(s), 2, '0'), m, s);
  }

  /** The clock text of a time is the clock of its whole minutes and the
      whole seconds left over. */
  lemma FormatTimeIsClock(seconds: real)
    requires seconds >= 0.0
    ensures FormatTime(seconds) == Clock(seconds.Floor / 60, seconds.Floor % 60)
  {
    if seconds == 0.0 {
      ZeroClock();
    } else {
      WholeMinutes(seconds);
      var mins := (seconds / 60.0).Floor;
      var secs := (seconds - 60.0 * mins as real).Floor;
      QuotientOf(seconds.Floor, mins, secs);
      assert FormatTime(seconds) == Clock(mins, secs);
    }
  }

  /** The clock of no time at all is the literal the zero branch returns. */
  lemma ZeroClock()
    ensures Clock(0, 0) == "00:00"
  {
    assert Digits(0) == "0";
    assert PadStart("0", 2, '0') == "00";
  }

  /** The clock text is a minutes field, a colon and a two-digit seconds
      field; the seconds are below 60, the two fields recompose the whole
      seconds of the input, and the minutes field is padded to two digits
      but never cut short, so 100 minutes and more come out in full. */
  lemma FormatTimeFields(seconds: real)
    requires seconds >= 0.0
    ensures ClockShape(FormatTime(seconds), seconds.Floor / 60, seconds.Floor % 60)
    ensures 0 <= seconds.Floor % 60 < 60
    ensures 60 * (seconds.Floor / 60) + seconds.Floor % 60 == seconds.Floor
  {
    FormatTimeIsClock(seconds);
    ClockFields(seconds.Floor / 60, seconds.Floor % 60);
  }

  /** Whole minutes are the quotient of whole seconds by 60. */
  lemma QuotientOf(f: int, m: int, s: int)
    requires 60 * m + s == f && 0 <= s < 60
    ensures m == f / 60 && s == f % 60
  {
  }

  lemma FormatTimeZero()
    ensures FormatTime(0.0) == "00:00"
  {
  }

  // ---------------------------------------------------------------------
  // What the bar shows

  /** The properties the bar is rendered from. */
  datatype Props = Props(
    state: PlayerState,
    status: GeminiStatus,
    hasNext: bool,
    hasPrevious: bool,
    playlistOpen: bool)

  /** What the bar shows: which transport buttons are enabled, which icons
      and labels are up, where the volume slider stands, the clock. */
  datatype View = View(
    previousEnabled: bool,
    nextEnabled: bool,
    showsPauseIcon: bool,
    showsMutedIcon: bool,
    sliderVolume: real,
    clock: string,
    analyzeEnabled: bool,
    analyzeLabel: string,
    showsExitFullscreenIcon: bool,
    playlistButtonHighlighted: bool)

  function Render(p: Props): (v: View)
    requires p.state.currentTime >= 0.0 && p.state.duration >= 0.0
    ensures v.analyzeEnabled <==> p.status != Analyzing
    ensures v.analyzeLabel == if p.status == Analyzing then "Thinking..." else "AI Inspect"
    ensures p.state.isMuted ==> v.sliderVolume == 0.0
    ensures !p.state.isMuted ==> v.sliderVolume == p.state.volume
    ensures v.showsMutedIcon <==> p.state.isMuted || p.state.volume == 0.0
    ensures v.previousEnabled == p.hasPrevious && v.nextEnabled == p.hasNext
    ensures v.clock == FormatTime(p.state.currentTime) + " / " + FormatTime(p.state.duration)
  {
    View(
      previousEnabled := p.hasPrevious,
      nextEnabled := p.hasNext,
      showsPauseIcon := p.state.isPlaying,
      showsMutedIcon := p.state.isMuted || p.state.volume == 0.0,
      sliderVolume := if p.state.isMuted then 0.0 else p.state.volume,
      clock := FormatTime(p.state.currentTime) + " / " + FormatTime(p.state.duration),
      analyzeEnabled := p.status != Analyzing,
      analyzeLabel := if p.status == Analyzing then "Thinking..." else "AI Inspect",
      showsExitFullscreenIcon := p.state.isFullscreen,
      playlistButtonHighlighted := p.playlistOpen)
  }

  /** The upper end of the seek slider: the duration, or 100 while the
      duration is still unknown (zero). */
  function SeekMax(state: PlayerState): (m: real)
    ensures state.duration != 0.0 ==> m == state.duration
    ensures state.duration == 0.0 ==> m == 100.0
  {
    if state.duration != 0.0 then state.duration else 100.0
  }

  // ---------------------------------------------------------------------
  // Playback-speed menu

  /** The rates the speed menu offers, in menu order. */
  const PlaybackRates: seq<real> := [0.25, 0.5, 1.0, 1.25, 1.5, 2.0]

  /** The entries of the speed menu: none while it is closed. */
  function MenuItems(open: bool): (items: seq<real>)
    ensures open ==> items == PlaybackRates
    ensures !open ==> items == []
  {
    if open then PlaybackRates else []
  }

  /** Clicking the speed button opens a closed menu and closes an open one. */
  function ToggleSpeedMenu(open: bool): (open': bool)
    ensures open' != open
  {
    !open
  }

  /** The menu after `k` clicks on the speed button. */
  function ToggledTimes(open: bool, k: nat): bool
  {
    if k == 0 then open else ToggleSpeedMenu(ToggledTimes(open, k - 1))
  }

  /** The menu is open after `k` clicks exactly when it was open and `k` is
      even, or closed and `k` is odd; two clicks give back the same menu. */
  lemma {:induction false} ToggledTimesParity(open: bool, k: nat)
    ensures ToggledTimes(open, k) <==> (open <==> k % 2 == 0)
    ensures MenuItems(ToggledTimes(open, k + 2)) == MenuItems(ToggledTimes(open, k))
  {
    if k > 0 {
      ToggledTimesParity(open, k - 1);
    }
  }

  /** The effect of clicking the `i`-th menu entry: the rate handed to the
      player's rate handler, and the menu's new open flag. */
  datatype RateChoice = RateChoice(rate: real, menuOpen: bool)

  function ChooseRate(open: bool, i: nat): (c: RateChoice)
    requires i < |MenuItems(open)|
    ensures c.rate in PlaybackRates && c.rate == MenuItems(open)[i]
    ensures !c.menuOpen
  {
    RateChoice(MenuItems(open)[i], false)
  }

  /** Whatever clicks on the speed button came before, choosing an entry
      closes the menu, and the next click opens it on the full list again. */
  lemma ChooseRateCloses(open: bool, k: nat, i: nat)
    requires i < |MenuItems(ToggledTimes(open, k))|
    ensures var c := ChooseRate(ToggledTimes(open, k), i);
            && MenuItems(c.menuOpen) == []
            && MenuItems(ToggleSpeedMenu(c.menuOpen)) == PlaybackRates
            && c.rate == PlaybackRates[i]
  {
  }

  /** The menu offers exactly six rates, and they are pairwise different. */
  lemma RatesAreTheFixedSet()
    ensures (set r | r in PlaybackRates) == {0.25, 0.5, 1.0, 1.25, 1.5, 2.0}
    ensures forall i, j :: 0 <= i < j < |PlaybackRates| ==> PlaybackRates[i] != PlaybackRates[j]
  {
  }

  /** The entry marked with a check is the one equal to the current rate; a
      rate from the fixed set marks exactly one entry. */
  function MarkedEntries(rate: real): (marked: set<nat>)
    ensures forall i: nat :: i in marked <==> i < |PlaybackRates| && PlaybackRates[i] == rate
  {
    set i: nat | i < |PlaybackRates| && PlaybackRates[i] == rate
  }

  lemma OneMarkedEntry(rate: real)
    requires rate in PlaybackRates
    ensures |MarkedEntries(rate)| == 1
  {
    var i :| 0 <= i < |PlaybackRates| && PlaybackRates[i] == rate;
    RatesAreTheFixedSet();
    assert MarkedEntries(rate) == {i as nat};
  }
}
