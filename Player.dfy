/** The playback session (components/Player.tsx): the transport state shown
    by the controls, the video element it drives, the visibility of the
    controls and of the playlist panel, the pending hide of the controls,
    and the state of the frame analysis.

    The session is a class whose methods are the component's handlers; each
    is specified by a transition function over a `Snapshot` of all the
    session's fields, and the properties of the handlers are lemmas about
    those functions. Navigation (`onNext`, `onPrevious`) belongs to the
    playlist; a handler that would call it returns a `NavRequest` instead. */
module Player {
  import opened Types
  import opened Strings
  import PlayerControls
  import GeminiService

  /** The video element, as far as the session reads and writes it. */
  datatype Media = Media(
    paused: bool,
    currentTime: real,
    duration: real,
    volume: real,
    muted: bool,
    playbackRate: real)

  /** The hide of the controls scheduled in `controlsTimeoutRef`: none, or a
      pending one that hides the controls when it fires exactly when `hides`
      (the mouse timer always hides; the key timer re-checks a condition it
      captured when it was set). */
  datatype HideTimer = NoTimer | Pending(hides: bool)

  /** A call the session makes into the playlist. */
  datatype NavRequest = NoRequest | RequestNext | RequestPrevious

  /** Every field of a session. */
  datatype Snapshot = Snapshot(
    state: PlayerState,
    media: Media,
    showControls: bool,
    showPlaylist: bool,
    timer: HideTimer,
    status: GeminiStatus,
    analysis: Option<AnalysisResult>,
    inFlight: nat)

  const SeekStep: real := 5.0
  const VolumeStep: real := 0.1
  const AnalysisErrorText: string := "Failed to analyze frame. Please check API Key."

  /** The state a freshly mounted player starts from (Player.tsx:34-50). */
  const Initial: Snapshot := Snapshot(
    PlayerState(isPlaying := true, volume := 1.0, currentTime := 0.0, duration := 0.0,
                isMuted := false, isFullscreen := false, playbackRate := 1.0),
    Media(paused := true, currentTime := 0.0, duration := 0.0, volume := 1.0, muted := false,
          playbackRate := 1.0),
    showControls := true, showPlaylist := false, timer := NoTimer,
    status := Idle, analysis := None, inFlight := 0)

  /** What holds of a session between events: the element's volume and rate
      are the ones the controls show, the volume is a fraction, the rate is
      one the menu offers, times are not negative, and the status is
      ANALYZING only while an analysis is outstanding. */
  ghost predicate Valid(s: Snapshot)
  {
    && 0.0 <= s.state.volume <= 1.0
    && s.media.volume == s.state.volume
    && s.media.playbackRate == s.state.playbackRate
    && s.state.playbackRate in PlayerControls.PlaybackRates
    && s.media.currentTime >= 0.0 && s.media.duration >= 0.0
    && s.state.currentTime >= 0.0 && s.state.duration >= 0.0
    && (s.status == Analyzing ==> s.inFlight > 0)
  }

  lemma InitialValid()
    ensures Valid(Initial)
  {
  }

  /** The effect at Player.tsx:162-169 subscribes `handleMouseMove`, which is
      rebuilt whenever `isPlaying` or `showPlaylist` changes; its cleanup
      then cancels the pending hide. `Settle(before, after)` applies that
      cleanup to the state `after` a handler ran on `before`. */
  function Settle(before: Snapshot, after: Snapshot): (r: Snapshot)
    ensures r == after || r == after.(timer := NoTimer)
    ensures (before.state.isPlaying != after.state.isPlaying || before.showPlaylist != after.showPlaylist)
              ==> r.timer == NoTimer
    ensures (before.state.isPlaying == after.state.isPlaying && before.showPlaylist == after.showPlaylist)
              ==> r == after
  {
    if before.state.isPlaying != after.state.isPlaying || before.showPlaylist != after.showPlaylist
    then after.(timer := NoTimer)
    else after
  }

  // ---------------------------------------------------------------------
  // Entry change and playback start

  /** The effect run when the entry's URL changes (and on mount): the
      analysis is cleared, the kept playback rate is applied to the element,
      playback is started and shown as playing. */
  function Started(s: Snapshot): (r: Snapshot)
    ensures r.analysis == None && r.status == Idle && r.state.isPlaying && !r.media.paused
    ensures r.media.playbackRate == r.state.playbackRate == s.state.playbackRate
    ensures r.inFlight == s.inFlight && r.showPlaylist == s.showPlaylist
  {
    Settle(s, s.(analysis := None, status := Idle,
                 media := s.media.(playbackRate := s.state.playbackRate, paused := false),
                 state := s.state.(isPlaying := true)))
  }

  /** The element refused to start (the `play()` promise rejected). */
  function PlayRejected(s: Snapshot): (r: Snapshot)
    ensures !r.state.isPlaying && r.media.paused
    ensures r.analysis == s.analysis && r.status == s.status && r.state.volume == s.state.volume
  {
    Settle(s, s.(media := s.media.(paused := true), state := s.state.(isPlaying := false)))
  }

  /** Changing the entry clears the analysis and its status and shows the
      player playing; the rate, volume, mute flag and times are kept, and the
      element plays at the kept rate. */
  lemma StartedResets(s: Snapshot)
    requires Valid(s)
    ensures var r := Started(s);
            && r.analysis == None && r.status == Idle && r.state.isPlaying
            && r.state == s.state.(isPlaying := true)
            && !r.media.paused && r.media.playbackRate == s.state.playbackRate
            && Valid(r)
  {
  }

  /** Only a failed start takes the playing flag back down. */
  lemma RejectedStartStops(s: Snapshot)
    requires Valid(s)
    ensures var r := PlayRejected(Started(s));
            && !r.state.isPlaying && r.media.paused
            && r.analysis == None && r.status == Idle
            && r.state.playbackRate == s.state.playbackRate && Valid(r)
  {
  }

  // ---------------------------------------------------------------------
  // Transport

  /** `handlePlayPause` (a click on the video or the play button): pauses or
      plays the element according to the player's flag and flips the flag. */
  function PlayPauseClicked(s: Snapshot): (r: Snapshot)
    ensures r.state.isPlaying != s.state.isPlaying && r.media.paused == !r.state.isPlaying
    ensures r.timer == NoTimer && r.status == s.status && r.analysis == s.analysis
  {
    Settle(s, s.(media := s.media.(paused := s.state.isPlaying),
                 state := s.state.(isPlaying := !s.state.isPlaying)))
  }

  /** A click flips the playing flag and sets the element to match it; a
      second click restores the flag and the element, and either click
      cancels a pending hide. */
  lemma PlayPauseClickedTwice(s: Snapshot)
    requires Valid(s)
    ensures var r := PlayPauseClicked(s);
            && r.state.isPlaying == !s.state.isPlaying && r.media.paused == !r.state.isPlaying
            && r.timer == NoTimer && Valid(r)
    ensures s.media.paused == !s.state.isPlaying ==>
              PlayPauseClicked(PlayPauseClicked(s)) == s.(timer := NoTimer)
  {
  }

  /** The seek slider's value lies within its range `[0, SeekMax]` whenever
      the position is within the duration, or within 100 while the duration
      is still unknown. */
  lemma SeekSliderInRange(s: Snapshot)
    requires Valid(s)
    requires s.state.currentTime <= s.state.duration
             || (s.state.duration == 0.0 && s.state.currentTime <= 100.0)
    ensures 0.0 <= s.state.currentTime <= PlayerControls.SeekMax(s.state)
  {
  }

  /** A seek through the slider, to a value within its range, keeps the
      position within the range, and the next time update keeps it there. */
  lemma SeekThenTimeUpdate(s: Snapshot, time: real)
    requires Valid(s) && 0.0 <= time <= PlayerControls.SeekMax(s.state)
    ensures var r := TimeUpdated(Seeked(s, time));
            && Valid(r) && r.state.currentTime == time
            && 0.0 <= r.state.currentTime <= PlayerControls.SeekMax(r.state)
  {
  }

  /** `handleSeek`: the slider's time goes to the element and to the state. */
  function Seeked(s: Snapshot, time: real): (r: Snapshot)
    ensures r.state.currentTime == r.media.currentTime == time
    ensures r.state.duration == s.state.duration && r.media.duration == s.media.duration
    ensures r.state.isPlaying == s.state.isPlaying && r.media.paused == s.media.paused
  {
    s.(media := s.media.(currentTime := time), state := s.state.(currentTime := time))
  }

  /** `handleTimeUpdate` and `handleLoadedMetadata`: the element's position
      and duration are copied into the state. */
  function TimeUpdated(s: Snapshot): (r: Snapshot)
    ensures r.state.currentTime == s.media.currentTime
    ensures r.media == s.media && r.state.duration == s.state.duration
  {
    s.(state := s.state.(currentTime := s.media.currentTime))
  }

  function MetadataLoaded(s: Snapshot): (r: Snapshot)
    ensures r.state.duration == s.media.duration
    ensures r.media == s.media && r.state.currentTime == s.state.currentTime
  {
    s.(state := s.state.(duration := s.media.duration))
  }

  /** `handleVolumeChange`: the volume is stored as given, and the mute flag
      becomes "the volume is zero". The element's own `muted` property is
      not touched. */
  function VolumeSet(s: Snapshot, volume: real): (r: Snapshot)
    ensures r.state.volume == r.media.volume == volume
    ensures r.state.isMuted <==> volume == 0.0
    ensures r.media.muted == s.media.muted && r.state.isPlaying == s.state.isPlaying
  {
    s.(media := s.media.(volume := volume),
       state := s.state.(volume := volume, isMuted := volume == 0.0))
  }

  /** `handleToggleMute`: flips the mute flag on the element and in the
      state, from the state's current flag; the volume is left alone. */
  function MuteToggled(s: Snapshot): (r: Snapshot)
    ensures r.state.isMuted != s.state.isMuted && r.media.muted == r.state.isMuted
    ensures r.state.volume == s.state.volume && r.media.volume == s.media.volume
  {
    s.(media := s.media.(muted := !s.state.isMuted),
       state := s.state.(isMuted := !s.state.isMuted))
  }

  /** `handleToggleFullscreen`; `fullscreenActive` is whether the document
      currently has a fullscreen element. */
  function FullscreenToggled(s: Snapshot, fullscreenActive: bool): (r: Snapshot)
    ensures r.state.isFullscreen != fullscreenActive
    ensures r == s.(state := r.state) && r.state == s.state.(isFullscreen := r.state.isFullscreen)
  {
    s.(state := s.state.(isFullscreen := !fullscreenActive))
  }

  /** While the player's flag agrees with the document, the button flips
      fullscreen, keeps the invariant, and a second press restores the
      session. */
  lemma FullscreenToggledTwice(s: Snapshot)
    requires Valid(s)
    ensures var once := FullscreenToggled(s, s.state.isFullscreen);
            && once.state.isFullscreen == !s.state.isFullscreen && Valid(once)
            && FullscreenToggled(once, once.state.isFullscreen) == s
  {
  }

  /** `handlePlaybackRateChange`. */
  function RateChosen(s: Snapshot, rate: real): (r: Snapshot)
    ensures r.state.playbackRate == r.media.playbackRate == rate
    ensures r.state.isPlaying == s.state.isPlaying && r.state.volume == s.state.volume
  {
    s.(media := s.media.(playbackRate := rate), state := s.state.(playbackRate := rate))
  }

  lemma VolumeSetStoresVolume(s: Snapshot, volume: real)
    requires Valid(s) && 0.0 <= volume <= 1.0
    ensures var r := VolumeSet(s, volume);
            && r.state.volume == volume && r.media.volume == volume
            && (r.state.isMuted <==> volume == 0.0)
            && r.media.muted == s.media.muted
            && r.state.isPlaying == s.state.isPlaying && r.state.playbackRate == s.state.playbackRate
            && Valid(r)
  {
  }

  /** Toggling mute twice restores the flag, and never changes the volume. */
  lemma MuteToggledTwice(s: Snapshot)
    ensures MuteToggled(s).state.volume == s.state.volume
    ensures MuteToggled(s).state.isMuted != s.state.isMuted
    ensures MuteToggled(MuteToggled(s)).state == s.state
  {
  }

  /** A zero volume is shown as muted even when the mute flag was off, and
      unmuting a muted player shows its earlier volume again on the slider. */
  lemma ZeroVolumeShowsMuted(s: Snapshot, hasNext: bool, hasPrevious: bool)
    requires Valid(s)
    ensures var v := PlayerControls.Render(Props(VolumeSet(s, 0.0), hasNext, hasPrevious));
            v.showsMutedIcon && v.sliderVolume == 0.0
  {
  }

  lemma UnmuteRestoresVolume(s: Snapshot, hasNext: bool, hasPrevious: bool)
    requires Valid(s) && s.state.isMuted
    ensures PlayerControls.Render(Props(MuteToggled(s), hasNext, hasPrevious)).sliderVolume
              == s.state.volume
    ensures s.state.volume != 0.0 ==>
              !PlayerControls.Render(Props(MuteToggled(s), hasNext, hasPrevious)).showsMutedIcon
  {
  }

  /** The properties the control bar is rendered from. */
  function Props(s: Snapshot, hasNext: bool, hasPrevious: bool): PlayerControls.Props
  {
    PlayerControls.Props(s.state, s.status, hasNext, hasPrevious, s.showPlaylist)
  }

  // ---------------------------------------------------------------------
  // End of an entry

  /** `onEnded`. The element has paused itself at the end. With a next
      entry the playlist is asked to move on; otherwise the player shows as
      stopped. */
  function Ended(s: Snapshot, hasNext: bool): (r: (Snapshot, NavRequest))
    ensures r.0.media.paused
    ensures r.1 == RequestNext <==> hasNext
    ensures r.1 == NoRequest <==> !hasNext
    ensures !hasNext ==> !r.0.state.isPlaying
  {
    var paused := s.(media := s.media.(paused := true));
    if hasNext then (paused, RequestNext)
    else (Settle(s, paused.(state := s.state.(isPlaying := false))), NoRequest)
  }

  lemma EndedAdvancesOrStops(s: Snapshot, hasNext: bool)
    requires Valid(s)
    ensures var (r, request) := Ended(s, hasNext);
            && (request == RequestNext <==> hasNext)
            && (hasNext ==> r.state == s.state)
            && (!hasNext ==> r.state == s.state.(isPlaying := false))
            && r.analysis == s.analysis && r.status == s.status
            && Valid(r)
  {
  }

  // ---------------------------------------------------------------------
  // Keyboard

  /** The shortcut a key stands for, after lower-casing `e.key`. */
  datatype Command =
    | PlayPauseKey | SeekForwardKey | SeekBackwardKey | VolumeUpKey | VolumeDownKey
    | FullscreenKey | MuteKey | NextKey | PreviousKey | NoCommand

  function CommandFor(key: string): (c: Command)
    ensures c == NextKey <==> Lower(key) == "n"
    ensures c == PreviousKey <==> Lower(key) == "p"
    ensures c == MuteKey <==> Lower(key) == "m"
  {
    var k := Lower(key);
    if k == " " || k == "k" then PlayPauseKey
    else if k == "arrowright" then SeekForwardKey
    else if k == "arrowleft" then SeekBackwardKey
    else if k == "arrowup" then VolumeUpKey
    else if k == "arrowdown" then VolumeDownKey
    else if k == "f" then FullscreenKey
    else if k == "m" then MuteKey
    else if k == "n" then NextKey
    else if k == "p" then PreviousKey
    else NoCommand
  }

  /** Shortcuts ignore case: "N" (Shift+N) is the same shortcut as "n". */
  lemma CommandIgnoresCase(key: string)
    ensures CommandFor(Lower(key)) == CommandFor(key)
  {
    LowerIdempotent(key);
  }

  lemma ShiftedLetters()
    ensures CommandFor("N") == NextKey && CommandFor("P") == PreviousKey
    ensures CommandFor("K") == PlayPauseKey && CommandFor("ArrowUp") == VolumeUpKey
  {
    assert Lower("N") == "n" && Lower("P") == "p" && Lower("K") == "k";
    assert Lower("ArrowUp") == "arrowup";
  }

  /** Keys typed into a text field are no shortcuts. */
  predicate IsTextEntry(tagName: string)
    ensures IsTextEntry(tagName) ==> |tagName| == 5 || |tagName| == 8
  {
    var t := Lower(tagName);
    t == "input" || t == "textarea"
  }

  /** Arrow right: five seconds on, but not past the end. */
  function StepForward(time: real, duration: real): (t: real)
    ensures t <= duration
    ensures 0.0 <= time <= duration ==> time <= t && 0.0 <= t
    ensures t == time + SeekStep || (t == duration && time + SeekStep > duration)
  {
    if duration < time + SeekStep then duration else time + SeekStep
  }

  /** Arrow left: five seconds back, but not before the start. */
  function StepBackward(time: real): (t: real)
    ensures t >= 0.0 && t <= if time >= 0.0 then time else 0.0
    ensures t == time - SeekStep || (t == 0.0 && time - SeekStep < 0.0)
  {
    if 0.0 > time - SeekStep then 0.0 else time - SeekStep
  }

  /** Arrow up and down: a tenth of full volume, clamped to the range. */
  function VolumeUp(volume: real): (v: real)
    ensures v <= 1.0
    ensures volume <= 1.0 ==> volume <= v
    ensures v == volume + VolumeStep || (v == 1.0 && volume + VolumeStep > 1.0)
  {
    if 1.0 < volume + VolumeStep then 1.0 else volume + VolumeStep
  }

  function VolumeDown(volume: real): (v: real)
    ensures v >= 0.0
    ensures volume >= 0.0 ==> v <= volume
    ensures v == volume - VolumeStep || (v == 0.0 && volume - VolumeStep < 0.0)
  {
    if 0.0 > volume - VolumeStep then 0.0 else volume - VolumeStep
  }

  /** What a shortcut does to the session before the controls are shown. */
  function CommandEffect(s: Snapshot, cmd: Command, hasNext: bool, hasPrevious: bool,
                         fullscreenActive: bool): (r: (Snapshot, NavRequest))
    ensures r.0.showPlaylist == s.showPlaylist && r.0.timer == s.timer && r.0.showControls == s.showControls
    ensures r.0.status == s.status && r.0.analysis == s.analysis && r.0.inFlight == s.inFlight
    ensures r.1 != NoRequest ==> r.0 == s
  {
    match cmd
    case PlayPauseKey =>
      (s.(media := s.media.(paused := !s.media.paused),
          state := s.state.(isPlaying := s.media.paused)), NoRequest)
    case SeekForwardKey =>
      (s.(media := s.media.(currentTime := StepForward(s.media.currentTime, s.media.duration))), NoRequest)
    case SeekBackwardKey =>
      (s.(media := s.media.(currentTime := StepBackward(s.media.currentTime))), NoRequest)
    case VolumeUpKey =>
      var v := VolumeUp(s.media.volume);
      (s.(media := s.media.(volume := v), state := s.state.(volume := v, isMuted := v == 0.0)), NoRequest)
    case VolumeDownKey =>
      var v := VolumeDown(s.media.volume);
      (s.(media := s.media.(volume := v), state := s.state.(volume := v, isMuted := v == 0.0)), NoRequest)
    case FullscreenKey => (FullscreenToggled(s, fullscreenActive), NoRequest)
    case MuteKey => (MuteToggled(s), NoRequest)
    case NextKey => (s, if hasNext then RequestNext else NoRequest)
    case PreviousKey => (s, if hasPrevious then RequestPrevious else NoRequest)
    case NoCommand => (s, NoRequest)
  }

  /** `handleKeyDown`. A key aimed at a text field changes nothing. Any other
      key runs its shortcut, shows the controls and schedules a hide that
      re-checks, when it fires, whether the player was playing with the
      playlist closed at the time of the key. */
  function KeyPressed(s: Snapshot, tagName: string, key: string, hasNext: bool, hasPrevious: bool,
                      fullscreenActive: bool): (r: (Snapshot, NavRequest))
    ensures IsTextEntry(tagName) ==> r == (s, NoRequest)
    ensures !IsTextEntry(tagName) ==> r.0.showControls
    ensures r.0.status == s.status && r.0.analysis == s.analysis && r.0.showPlaylist == s.showPlaylist
    ensures r.1 != NoRequest ==> r.0.state == s.state && r.0.media == s.media
  {
    if IsTextEntry(tagName) then (s, NoRequest)
    else
      var (e, request) := CommandEffect(s, CommandFor(key), hasNext, hasPrevious, fullscreenActive);
      (Settle(s, e.(showControls := true, timer := Pending(s.state.isPlaying && !s.showPlaylist))),
       request)
  }

  lemma TextEntryIgnored(s: Snapshot, tagName: string, key: string, hasNext: bool, hasPrevious: bool,
                         fullscreenActive: bool)
    requires IsTextEntry(tagName)
    ensures KeyPressed(s, tagName, key, hasNext, hasPrevious, fullscreenActive) == (s, NoRequest)
  {
  }

  /** Every shortcut keeps a session valid, and shows the controls. */
  lemma KeyPressedValid(s: Snapshot, tagName: string, key: string, hasNext: bool, hasPrevious: bool,
                        fullscreenActive: bool)
    requires Valid(s)
    ensures var (r, _) := KeyPressed(s, tagName, key, hasNext, hasPrevious, fullscreenActive);
            Valid(r) && (!IsTextEntry(tagName) ==> r.showControls)
  {
    if !IsTextEntry(tagName) {
      var e := CommandEffect(s, CommandFor(key), hasNext, hasPrevious, fullscreenActive).0;
      CommandEffectValid(s, CommandFor(key), hasNext, hasPrevious, fullscreenActive);
      var shown := e.(showControls := true, timer := Pending(s.state.isPlaying && !s.showPlaylist));
      assert Valid(shown);
      assert KeyPressed(s, tagName, key, hasNext, hasPrevious, fullscreenActive).0 == Settle(s, shown);
    }
  }

  lemma CommandEffectValid(s: Snapshot, cmd: Command, hasNext: bool, hasPrevious: bool,
                           fullscreenActive: bool)
    requires Valid(s)
    ensures Valid(CommandEffect(s, cmd, hasNext, hasPrevious, fullscreenActive).0)
  {
    match cmd
    case PlayPauseKey =>
    case SeekForwardKey =>
    case SeekBackwardKey =>
    case VolumeUpKey =>
    case VolumeDownKey =>
    case FullscreenKey =>
    case MuteKey =>
    case NextKey =>
    case PreviousKey =>
    case NoCommand =>
  }

  /** The seek keys keep the element's position within [0, duration]. */
  lemma SeekKeysStayInRange(s: Snapshot, tagName: string, key: string, hasNext: bool,
                            hasPrevious: bool, fullscreenActive: bool)
    requires Valid(s) && s.media.currentTime <= s.media.duration
    requires CommandFor(key) == SeekForwardKey || CommandFor(key) == SeekBackwardKey
    ensures var (r, request) := KeyPressed(s, tagName, key, hasNext, hasPrevious, fullscreenActive);
            && 0.0 <= r.media.currentTime <= r.media.duration
            && r.media.duration == s.media.duration
            && r.state == s.state && request == NoRequest
  {
  }

  /** The volume keys keep the volume within [0, 1] and set the mute flag to
      "the new volume is zero", whatever it was before. */
  lemma VolumeKeysClamp(s: Snapshot, tagName: string, key: string, hasNext: bool,
                        hasPrevious: bool, fullscreenActive: bool)
    requires Valid(s) && !IsTextEntry(tagName)
    requires CommandFor(key) == VolumeUpKey || CommandFor(key) == VolumeDownKey
    ensures var (r, _) := KeyPressed(s, tagName, key, hasNext, hasPrevious, fullscreenActive);
            && 0.0 <= r.state.volume <= 1.0 && r.media.volume == r.state.volume
            && (r.state.isMuted <==> r.state.volume == 0.0)
            && (CommandFor(key) == VolumeUpKey ==> r.state.volume >= s.state.volume)
            && (CommandFor(key) == VolumeDownKey ==> r.state.volume <= s.state.volume)
  {
  }

  /** 'n' and 'p' ask for navigation exactly when there is somewhere to go,
      and nothing else asks for it. */
  lemma NavigationKeys(s: Snapshot, tagName: string, key: string, hasNext: bool, hasPrevious: bool,
                       fullscreenActive: bool)
    ensures var (_, request) := KeyPressed(s, tagName, key, hasNext, hasPrevious, fullscreenActive);
            && (request == RequestNext <==> !IsTextEntry(tagName) && CommandFor(key) == NextKey && hasNext)
            && (request == RequestPrevious <==>
                  !IsTextEntry(tagName) && CommandFor(key) == PreviousKey && hasPrevious)
  {
  }

  /** Space and 'k' follow the element: they play a paused element and pause
      a playing one, and the playing flag follows. */
  lemma PlayPauseKeyFollowsElement(s: Snapshot, tagName: string, key: string, hasNext: bool,
                                   hasPrevious: bool, fullscreenActive: bool)
    requires !IsTextEntry(tagName) && CommandFor(key) == PlayPauseKey
    ensures var (r, _) := KeyPressed(s, tagName, key, hasNext, hasPrevious, fullscreenActive);
            r.media.paused == !s.media.paused && r.state.isPlaying == s.media.paused
  {
  }

  // ---------------------------------------------------------------------
  // The 'm' shortcut as written

  /** The dependencies of the keydown effect (Player.tsx:143), as seen in one
      render. `appRender` stands for the identity of the `onNext`/`onPrevious`
      props, new on every render of the application. `isMuted` is not among
      them. */
  datatype KeyDeps = KeyDeps(hasNext: bool, hasPrevious: bool, appRender: nat,
                             showPlaylist: bool, isPlaying: bool)

  function DepsOf(s: Snapshot, hasNext: bool, hasPrevious: bool, appRender: nat): (d: KeyDeps)
    ensures d.showPlaylist == s.showPlaylist && d.isPlaying == s.state.isPlaying
    ensures d.hasNext == hasNext && d.hasPrevious == hasPrevious && d.appRender == appRender
  {
    KeyDeps(hasNext, hasPrevious, appRender, s.showPlaylist, s.state.isPlaying)
  }

  /** Muting, from the button or the key, leaves the listener's
      dependencies as they were, so it is not registered anew. */
  lemma MutingKeepsDeps(s: Snapshot, hasNext: bool, hasPrevious: bool, appRender: nat)
    ensures DepsOf(MuteToggled(s), hasNext, hasPrevious, appRender) == DepsOf(s, hasNext, hasPrevious, appRender)
  {
  }

  /** The registered listener: the dependencies it was registered with, and
      the `isMuted` of that render, which its `handleToggleMute` negates. */
  datatype KeyListener = KeyListener(deps: KeyDeps, mutedSeen: bool)

  /** The listener after a render of `s`: registered anew with the current
      flag only if a dependency changed. */
  function Rerendered(l: KeyListener, s: Snapshot, hasNext: bool, hasPrevious: bool,
                      appRender: nat): (r: KeyListener)
    ensures r.deps == DepsOf(s, hasNext, hasPrevious, appRender)
    ensures l.deps == r.deps ==> r == l
    ensures l.deps != r.deps ==> r.mutedSeen == s.state.isMuted
  {
    var deps := DepsOf(s, hasNext, hasPrevious, appRender);
    if deps == l.deps then l else KeyListener(deps, s.state.isMuted)
  }

  /** `handleKeyDown` as the registered listener `l` runs it: as `KeyPressed`,
      except that 'm' negates the flag the listener captured. */
  function KeyPressedAsWritten(s: Snapshot, l: KeyListener, tagName: string, key: string,
                               hasNext: bool, hasPrevious: bool, fullscreenActive: bool)
    : (r: (Snapshot, NavRequest))
    ensures IsTextEntry(tagName) || CommandFor(key) != MuteKey ==>
              r == KeyPressed(s, tagName, key, hasNext, hasPrevious, fullscreenActive)
    ensures !IsTextEntry(tagName) && CommandFor(key) == MuteKey ==>
              r.1 == NoRequest && r.0.state.isMuted == !l.mutedSeen && r.0.media.muted == !l.mutedSeen
  {
    if !IsTextEntry(tagName) && CommandFor(key) == MuteKey then
      var e := s.(media := s.media.(muted := !l.mutedSeen),
                  state := s.state.(isMuted := !l.mutedSeen));
      (Settle(s, e.(showControls := true, timer := Pending(s.state.isPlaying && !s.showPlaylist))),
       NoRequest)
    else KeyPressed(s, tagName, key, hasNext, hasPrevious, fullscreenActive)
  }

  /** The stale capture is the only difference: a listener that saw the
      current flag behaves as `KeyPressed` on every key. */
  lemma AsWrittenAgreesWhenFresh(s: Snapshot, l: KeyListener, tagName: string, key: string,
                                 hasNext: bool, hasPrevious: bool, fullscreenActive: bool)
    requires l.mutedSeen == s.state.isMuted
    ensures KeyPressedAsWritten(s, l, tagName, key, hasNext, hasPrevious, fullscreenActive)
              == KeyPressed(s, tagName, key, hasNext, hasPrevious, fullscreenActive)
  {
  }

  /** As written, pressing 'm' twice on an unmuted player, with the listener
      registered in the current render and nothing else happening in
      between, leaves the player muted: muting is no dependency, so the
      second press runs the same listener and negates the same stale flag. */
  lemma StaleMuteKey(s: Snapshot, tagName: string, hasNext: bool, hasPrevious: bool,
                     appRender: nat, fullscreenActive: bool)
    requires !s.state.isMuted && !IsTextEntry(tagName)
    ensures var l := KeyListener(DepsOf(s, hasNext, hasPrevious, appRender), s.state.isMuted);
            var (once, _) := KeyPressedAsWritten(s, l, tagName, "m", hasNext, hasPrevious, fullscreenActive);
            var l' := Rerendered(l, once, hasNext, hasPrevious, appRender);
            var (twice, _) := KeyPressedAsWritten(once, l', tagName, "m", hasNext, hasPrevious, fullscreenActive);
            && once.state.isMuted && l' == l
            && twice.state.isMuted && twice.media.muted
  {
    assert Lower("m") == "m";
  }

  lemma MuteKeyTwiceRestores(s: Snapshot, tagName: string, hasNext: bool, hasPrevious: bool,
                             fullscreenActive: bool)
    requires !IsTextEntry(tagName)
    ensures var (once, _) := KeyPressed(s, tagName, "m", hasNext, hasPrevious, fullscreenActive);
            var (twice, _) := KeyPressed(once, tagName, "m", hasNext, hasPrevious, fullscreenActive);
            once.state.isMuted == !s.state.isMuted && twice.state.isMuted == s.state.isMuted
            && twice.media.muted == s.state.isMuted
  {
    assert Lower("m") == "m";
  }

  // ---------------------------------------------------------------------
  // Visibility of the controls

  /** `handleMouseMove`: the controls always show, and a hide is scheduled
      only while playing with the playlist closed (any earlier one is
      cancelled). */
  function MouseMoved(s: Snapshot): (r: Snapshot)
    ensures r.showControls
    ensures r.timer.Pending? <==> s.state.isPlaying && !s.showPlaylist
    ensures r.state == s.state && r.media == s.media && r.showPlaylist == s.showPlaylist
  {
    s.(showControls := true,
       timer := if s.state.isPlaying && !s.showPlaylist then Pending(true) else NoTimer)
  }

  /** The pending hide fires. */
  function HideFired(s: Snapshot): (r: Snapshot)
    requires s.timer.Pending?
    ensures r.timer == NoTimer && (r.showControls <==> s.showControls && !s.timer.hides)
    ensures r.state == s.state && r.media == s.media && r.showPlaylist == s.showPlaylist
  {
    s.(showControls := if s.timer.hides then false else s.showControls, timer := NoTimer)
  }

  lemma MouseShowsControls(s: Snapshot)
    ensures var r := MouseMoved(s);
            && r.showControls
            && (r.timer != NoTimer <==> s.state.isPlaying && !s.showPlaylist)
            && r.state == s.state && r.media == s.media
  {
  }

  /** After a pointer movement while paused or with the playlist open, the
      controls stay up; while playing with the playlist closed, the timer
      hides them. */
  lemma MouseThenTimer(s: Snapshot)
    ensures var r := MouseMoved(s);
            (s.state.isPlaying && !s.showPlaylist) <==> (r.timer.Pending? && !HideFired(r).showControls)
  {
  }

  /** The panel's toggle in the control bar and its close button; the
      overlay's close button. */
  function PlaylistToggled(s: Snapshot): (r: Snapshot)
    ensures r.showPlaylist == !s.showPlaylist && r.timer == NoTimer
    ensures r.state == s.state && r.media == s.media && r.analysis == s.analysis
  {
    Settle(s, s.(showPlaylist := !s.showPlaylist))
  }

  function PlaylistClosed(s: Snapshot): (r: Snapshot)
    ensures !r.showPlaylist && (s.showPlaylist ==> r.timer == NoTimer)
    ensures !s.showPlaylist ==> r == s
    ensures r.state == s.state && r.media == s.media
  {
    Settle(s, s.(showPlaylist := false))
  }

  function AnalysisDismissed(s: Snapshot): (r: Snapshot)
    ensures r.analysis == None && r.status == s.status && r.inFlight == s.inFlight
    ensures r.state == s.state && r.media == s.media
  {
    s.(analysis := None)
  }

  /** Dismissing the overlay keeps the invariant and does not end an
      outstanding analysis: its outcome still fills the overlay. */
  lemma DismissLeavesAnalysisRunning(s: Snapshot, outcome: Result<string>)
    requires Valid(s)
    ensures Valid(AnalysisDismissed(s))
    ensures AnalysisDismissed(AnalysisDismissed(s)) == AnalysisDismissed(s)
    ensures s.inFlight > 0 ==> AnalysisFinished(AnalysisDismissed(s), outcome).analysis.Some?
  {
  }

  /** Opening or closing the panel cancels a pending hide. */
  lemma PanelCancelsHide(s: Snapshot)
    ensures PlaylistToggled(s).timer == NoTimer
    ensures PlaylistToggled(s).showPlaylist == !s.showPlaylist
  {
  }

  // ---------------------------------------------------------------------
  // Frame analysis

  /** The first, synchronous part of `handleAnalyzeFrame`: pause, and mark
      the analysis as running. The control bar's button is the only way to
      start it, and it is disabled while the status is ANALYZING. */
  function AnalysisBegun(s: Snapshot): (r: Snapshot)
    requires s.status != Analyzing
    ensures r.status == Analyzing && r.inFlight == s.inFlight + 1
    ensures r.media.paused && !r.state.isPlaying && r.analysis == s.analysis
  {
    Settle(s, s.(media := s.media.(paused := true), state := s.state.(isPlaying := false),
                 status := Analyzing, inFlight := s.inFlight + 1))
  }

  /** The rest of `handleAnalyzeFrame`, once the capture and the service
      call have settled: a text is shown with SUCCESS, any failure with the
      fixed message and ERROR; either way stamped with the element's current
      time. Nothing checks that the session is still on the entry the
      analysis was started for. */
  function AnalysisFinished(s: Snapshot, outcome: Result<string>): (r: Snapshot)
    requires s.inFlight > 0
    ensures r.inFlight == s.inFlight - 1 && r.analysis.Some?
    ensures r.analysis.value.timestamp == s.media.currentTime
    ensures r.status == Error <==> outcome.Err?
    ensures r.status == Success <==> outcome.Ok?
    ensures r.state == s.state && r.media == s.media
  {
    match outcome
    case Ok(text) =>
      s.(analysis := Some(AnalysisResult(text, s.media.currentTime)), status := Success,
         inFlight := s.inFlight - 1)
    case Err(_) =>
      s.(analysis := Some(AnalysisResult(AnalysisErrorText, s.media.currentTime)), status := Error,
         inFlight := s.inFlight - 1)
  }

  /** The `try` block of `handleAnalyzeFrame`: a failed capture throws,
      otherwise the frame goes to the service. */
  function CaptureAndAnalyze(frame: Option<string>, apiKey: string,
                             client: GeminiService.Request -> GeminiService.Reply): (r: Result<string>)
    ensures frame.None? ==> r.Err?
    ensures frame.Some? ==> r == GeminiService.AnalyzeFrame(frame.value, apiKey, client)
  {
    match frame
    case None => Err("Could not get canvas context")
    case Some(image) => GeminiService.AnalyzeFrame(image, apiKey, client)
  }

  /** Whatever the service answers or throws, the overlay shows a non-empty
      text: the description, "No analysis available." or the player's own
      fixed error message (not the service's). */
  lemma OverlayAlwaysHasText(s: Snapshot, frame: Option<string>, apiKey: string,
                             client: GeminiService.Request -> GeminiService.Reply)
    requires s.inFlight > 0
    ensures var outcome := CaptureAndAnalyze(frame, apiKey, client);
            var r := AnalysisFinished(s, outcome);
            && r.analysis.Some? && r.analysis.value.text != []
            && (r.status == Error <==> outcome.Err?)
            && (r.status == Error ==> r.analysis.value.text == AnalysisErrorText)
            && (apiKey == [] ==> r.status == Error)
  {
  }

  /** The analyze button is enabled exactly when a new analysis may begin,
      and it is disabled only while an analysis is outstanding. */
  lemma AnalyzeButtonGuardsBegin(s: Snapshot, hasNext: bool, hasPrevious: bool)
    requires Valid(s)
    ensures PlayerControls.Render(Props(s, hasNext, hasPrevious)).analyzeEnabled <==> s.status != Analyzing
    ensures !PlayerControls.Render(Props(s, hasNext, hasPrevious)).analyzeEnabled ==> s.inFlight > 0
  {
  }

  /** Beginning pauses and shows ANALYZING, and the button is then disabled
      until the outcome arrives; the outcome gives SUCCESS with the returned
      text or ERROR with the fixed message, at the element's time. */
  lemma AnalysisLifecycle(s: Snapshot, outcome: Result<string>, hasNext: bool, hasPrevious: bool)
    requires Valid(s) && s.status != Analyzing
    ensures var b := AnalysisBegun(s);
            && Valid(b) && b.status == Analyzing && !b.state.isPlaying && b.media.paused
            && !PlayerControls.Render(Props(b, hasNext, hasPrevious)).analyzeEnabled
            && b.analysis == s.analysis
    ensures var f := AnalysisFinished(AnalysisBegun(s), outcome);
            && Valid(f)
            && (outcome.Ok? ==>
                  f.status == Success && f.analysis == Some(AnalysisResult(outcome.value, s.media.currentTime)))
            && (outcome.Err? ==>
                  f.status == Error && f.analysis == Some(AnalysisResult(AnalysisErrorText, s.media.currentTime)))
            && PlayerControls.Render(Props(f, hasNext, hasPrevious)).analyzeEnabled
  {
  }

  /** An entry change while an analysis is outstanding clears the overlay,
      but the late outcome then lands on the new entry, and the button is
      enabled again meanwhile, so two analyses can be outstanding. */
  lemma LateOutcomeAfterEntryChange(s: Snapshot, outcome: Result<string>)
    requires Valid(s) && s.status != Analyzing
    ensures var moved := Started(AnalysisBegun(s));
            && moved.analysis == None && moved.status == Idle && moved.inFlight == s.inFlight + 1
            && AnalysisFinished(moved, outcome).analysis.Some?
            && AnalysisBegun(moved).inFlight == s.inFlight + 2
  {
  }

  // ---------------------------------------------------------------------
  // The session object

  class Session {
    var state: PlayerState
    var media: Media
    var showControls: bool
    var showPlaylist: bool
    var timer: HideTimer
    var status: GeminiStatus
    var analysis: Option<AnalysisResult>
    var inFlight: nat

    function Snap(): Snapshot
      reads this
    {
      Snapshot(state, media, showControls, showPlaylist, timer, status, analysis, inFlight)
    }

    /** Mounts a player in its initial state; the caller runs the entry
        effect (`Started`) next, as React does after mounting. */
    constructor ()
      ensures Snap() == Initial && Valid(Snap())
    {
      state := Initial.state;
      media := Initial.media;
      showControls, showPlaylist, timer := true, false, NoTimer;
      status, analysis, inFlight := Idle, None, 0;
    }

    method EntryChanged()
      requires Valid(Snap())
      modifies this
      ensures Snap() == Started(old(Snap())) && Valid(Snap())
    {
      var before := Snap();
      analysis := None;
      status := Idle;
      media := media.(playbackRate := state.playbackRate);
      media := media.(paused := false);
      state := state.(isPlaying := true);
      if before.state.isPlaying != state.isPlaying { timer := NoTimer; }
    }

    method StartRejected()
      requires Valid(Snap())
      modifies this
      ensures Snap() == PlayRejected(old(Snap())) && Valid(Snap())
    {
      var was := state.isPlaying;
      media := media.(paused := true);
      state := state.(isPlaying := false);
      if was { timer := NoTimer; }
    }

    method HandlePlayPause()
      requires Valid(Snap())
      modifies this
      ensures Snap() == PlayPauseClicked(old(Snap())) && Valid(Snap())
    {
      if state.isPlaying {
        media := media.(paused := true);
      } else {
        media := media.(paused := false);
      }
      state := state.(isPlaying := !state.isPlaying);
      timer := NoTimer;
    }

    /** `time` comes from the seek slider, whose range starts at 0. */
    method HandleSeek(time: real)
      requires Valid(Snap()) && time >= 0.0
      modifies this
      ensures Snap() == Seeked(old(Snap()), time) && Valid(Snap())
    {
      media := media.(currentTime := time);
      state := state.(currentTime := time);
    }

    method HandleTimeUpdate()
      requires Valid(Snap())
      modifies this
      ensures Snap() == TimeUpdated(old(Snap())) && Valid(Snap())
    {
      state := state.(currentTime := media.currentTime);
    }

    method HandleLoadedMetadata()
      requires Valid(Snap())
      modifies this
      ensures Snap() == MetadataLoaded(old(Snap())) && Valid(Snap())
    {
      state := state.(duration := media.duration);
    }

    /** `volume` comes from the volume slider, whose range is [0, 1]. */
    method HandleVolumeChange(volume: real)
      requires Valid(Snap()) && 0.0 <= volume <= 1.0
      modifies this
      ensures Snap() == VolumeSet(old(Snap()), volume) && Valid(Snap())
    {
      media := media.(volume := volume);
      state := state.(volume := volume, isMuted := volume == 0.0);
    }

    method HandleToggleMute()
      requires Valid(Snap())
      modifies this
      ensures Snap() == MuteToggled(old(Snap())) && Valid(Snap())
    {
      var newMuted := !state.isMuted;
      media := media.(muted := newMuted);
      state := state.(isMuted := newMuted);
    }

    method HandleToggleFullscreen(fullscreenActive: bool)
      requires Valid(Snap())
      modifies this
      ensures Snap() == FullscreenToggled(old(Snap()), fullscreenActive) && Valid(Snap())
    {
      if !fullscreenActive {
        state := state.(isFullscreen := true);
      } else {
        state := state.(isFullscreen := false);
      }
    }

    /** `rate` comes from the speed menu, which offers only its fixed rates. */
    method HandlePlaybackRateChange(rate: real)
      requires Valid(Snap()) && rate in PlayerControls.PlaybackRates
      modifies this
      ensures Snap() == RateChosen(old(Snap()), rate) && Valid(Snap())
    {
      media := media.(playbackRate := rate);
      state := state.(playbackRate := rate);
    }

    method HandleEnded(hasNext: bool) returns (request: NavRequest)
      requires Valid(Snap())
      modifies this
      ensures (Snap(), request) == Ended(old(Snap()), hasNext) && Valid(Snap())
    {
      media := media.(paused := true);
      if hasNext {
        request := RequestNext;
      } else {
        var was := state.isPlaying;
        state := state.(isPlaying := false);
        if was { timer := NoTimer; }
        request := NoRequest;
      }
    }

    method HandleKeyDown(tagName: string, key: string, hasNext: bool, hasPrevious: bool,
                         fullscreenActive: bool) returns (request: NavRequest)
      requires Valid(Snap())
      modifies this
      ensures (Snap(), request) == KeyPressed(old(Snap()), tagName, key, hasNext, hasPrevious, fullscreenActive)
      ensures Valid(Snap())
    {
      if IsTextEntry(tagName) {
        return NoRequest;
      }
      var before := Snap();
      var hides := state.isPlaying && !showPlaylist;
      request := RunShortcut(CommandFor(key), hasNext, hasPrevious, fullscreenActive);
      ghost var effect := Snap();
      assert (effect, request) == CommandEffect(before, CommandFor(key), hasNext, hasPrevious, fullscreenActive);
      assert effect.showPlaylist == before.showPlaylist;
      showControls := true;
      timer := Pending(hides);
      if before.state.isPlaying != state.isPlaying { timer := NoTimer; }
      assert Snap() == Settle(before, effect.(showControls := true, timer := Pending(hides)));
      KeyPressedValid(before, tagName, key, hasNext, hasPrevious, fullscreenActive);
    }

    /** The `switch` of `handleKeyDown`. */
    method RunShortcut(cmd: Command, hasNext: bool, hasPrevious: bool, fullscreenActive: bool)
      returns (request: NavRequest)
      requires Valid(Snap())
      modifies this
      ensures (Snap(), request) == CommandEffect(old(Snap()), cmd, hasNext, hasPrevious, fullscreenActive)
      ensures Valid(Snap())
    {
      CommandEffectValid(Snap(), cmd, hasNext, hasPrevious, fullscreenActive);
      request := NoRequest;
      match cmd {
        case PlayPauseKey =>
          if media.paused {
            media := media.(paused := false);
            state := state.(isPlaying := true);
          } else {
            media := media.(paused := true);
            state := state.(isPlaying := false);
          }
        case SeekForwardKey =>
          media := media.(currentTime := StepForward(media.currentTime, media.duration));
        case SeekBackwardKey =>
          media := media.(currentTime := StepBackward(media.currentTime));
        case VolumeUpKey =>
          var newVol := VolumeUp(media.volume);
          media := media.(volume := newVol);
          state := state.(volume := newVol, isMuted := newVol == 0.0);
        case VolumeDownKey =>
          var newVol := VolumeDown(media.volume);
          media := media.(volume := newVol);
          state := state.(volume := newVol, isMuted := newVol == 0.0);
        case FullscreenKey =>
          HandleToggleFullscreen(fullscreenActive);
        case MuteKey =>
          HandleToggleMute();
        case NextKey =>
          if hasNext { request := RequestNext; }
        case PreviousKey =>
          if hasPrevious { request := RequestPrevious; }
        case NoCommand =>
      }
    }

    method HandleMouseMove()
      requires Valid(Snap())
      modifies this
      ensures Snap() == MouseMoved(old(Snap())) && Valid(Snap())
    {
      showControls := true;
      timer := NoTimer;
      if state.isPlaying && !showPlaylist {
        timer := Pending(true);
      }
    }

    method HideTimerFired()
      requires Valid(Snap()) && timer.Pending?
      modifies this
      ensures Snap() == HideFired(old(Snap())) && Valid(Snap())
    {
      if timer.hides {
        showControls := false;
      }
      timer := NoTimer;
    }

    method TogglePlaylist()
      requires Valid(Snap())
      modifies this
      ensures Snap() == PlaylistToggled(old(Snap())) && Valid(Snap())
    {
      showPlaylist := !showPlaylist;
      timer := NoTimer;
    }

    method ClosePlaylist()
      requires Valid(Snap())
      modifies this
      ensures Snap() == PlaylistClosed(old(Snap())) && Valid(Snap())
    {
      var was := showPlaylist;
      showPlaylist := false;
      if was { timer := NoTimer; }
    }

    method DismissAnalysis()
      requires Valid(Snap())
      modifies this
      ensures Snap() == AnalysisDismissed(old(Snap())) && Valid(Snap())
    {
      analysis := None;
    }

    method BeginAnalyze()
      requires Valid(Snap()) && status != Analyzing
      modifies this
      ensures Snap() == AnalysisBegun(old(Snap())) && Valid(Snap())
    {
      var was := state.isPlaying;
      media := media.(paused := true);
      state := state.(isPlaying := false);
      status := Analyzing;
      inFlight := inFlight + 1;
      if was { timer := NoTimer; }
    }

    /** The awaited part of `handleAnalyzeFrame`. `frame` is the captured
        frame as a data URL, or `None` when the canvas could not be used;
        `apiKey` and `client` are what the service call uses. */
    method FinishAnalyze(frame: Option<string>, apiKey: string,
                         client: GeminiService.Request -> GeminiService.Reply)
      requires Valid(Snap()) && inFlight > 0
      modifies this
      ensures Snap() == AnalysisFinished(old(Snap()), CaptureAndAnalyze(frame, apiKey, client))
      ensures Valid(Snap())
    {
      var outcome := CaptureAndAnalyze(frame, apiKey, client);
      match outcome {
        case Ok(text) =>
          analysis := Some(AnalysisResult(text, media.currentTime));
          status := Success;
        case Err(_) =>
          status := Error;
          analysis := Some(AnalysisResult(AnalysisErrorText, media.currentTime));
      }
      inFlight := inFlight - 1;
    }
  }
}
