/** The application shell (App.tsx): the playlist and the index of the
    current entry, the handlers that change them, and the wiring that hands
    the current entry, `hasNext`/`hasPrevious` and the navigation handlers
    to the player.

    The playlist state is specified by transition functions over `Nav`
    (the pair the component keeps in `useState`), and then implemented by
    the class `AppState`, which also keeps the object URLs it has created
    and revoked. `Shell` puts an `AppState` and a `Player.Session` together
    the way the component tree does. */
module App {
  import opened Types
  import Player
  import PlayerControls

  /** A file the user picked: its name and MIME type. */
  datatype File = File(name: string, kind: string)

  /** The playlist and the current index. */
  datatype Nav = Nav(playlist: seq<VideoState>, currentIndex: nat)

  /** The index points into a non-empty playlist, and is 0 for an empty one. */
  predicate InRange(n: Nav)
  {
    if n.playlist == [] then n.currentIndex == 0 else n.currentIndex < |n.playlist|
  }

  // ---------------------------------------------------------------------
  // Derived values

  function HasNext(n: Nav): (r: bool)
    ensures r ==> |n.playlist| >= 2
    ensures r <==> n.currentIndex + 1 < |n.playlist|
  {
    n.currentIndex < |n.playlist| - 1
  }

  function HasPrevious(n: Nav): (r: bool)
    ensures r ==> n.currentIndex >= 1
    ensures InRange(n) && r ==> |n.playlist| >= 2
  {
    n.currentIndex > 0
  }

  /** `playlist[currentIndex] || null`: the entry the player shows, if any. */
  function CurrentVideo(n: Nav): (v: Option<VideoState>)
    ensures v.Some? <==> n.currentIndex < |n.playlist|
    ensures v.Some? ==> v.value == n.playlist[n.currentIndex]
  {
    if n.currentIndex < |n.playlist| then Some(n.playlist[n.currentIndex]) else None
  }

  /** The player is shown exactly while the playlist is non-empty, and one
      can go on or back exactly where the buttons say so. */
  lemma PlayerShownIffNonEmpty(n: Nav)
    requires InRange(n)
    ensures CurrentVideo(n).Some? <==> n.playlist != []
    ensures HasNext(n) ==> n.currentIndex + 1 < |n.playlist|
    ensures HasPrevious(n) ==> n.playlist != []
  {
  }

  /** The transport buttons of the control bar are enabled exactly at the
      indexes where moving is possible. */
  lemma TransportButtons(n: Nav, state: PlayerState, status: GeminiStatus, open: bool)
    requires InRange(n) && n.playlist != []
    requires state.currentTime >= 0.0 && state.duration >= 0.0
    ensures var v := PlayerControls.Render(
              PlayerControls.Props(state, status, HasNext(n), HasPrevious(n), open));
            && (v.nextEnabled <==> n.currentIndex != |n.playlist| - 1)
            && (v.previousEnabled <==> n.currentIndex != 0)
  {
  }

  // ---------------------------------------------------------------------
  // Transitions

  /** `files.map(...)`: one entry per file, in order, carrying the file's
      name and type; the object URLs are numbered from `firstId` on. */
  function Entries(files: seq<File>, firstId: nat): (entries: seq<VideoState>)
    ensures |entries| == |files|
    ensures forall i :: 0 <= i < |files| ==>
              entries[i] == VideoState(ObjectUrl(firstId + i), files[i].name, files[i].kind)
    decreases |files|
  {
    if files == [] then []
    else [VideoState(ObjectUrl(firstId), files[0].name, files[0].kind)] + Entries(files[1..], firstId + 1)
  }

  /** `handleFilesSelected`: the new entries replace the playlist and the index
      goes back to the first one. */
  function Intake(n: Nav, files: seq<File>, firstId: nat): (r: Nav)
    ensures |r.playlist| == |files| && r.currentIndex == 0
  {
    Nav(Entries(files, firstId), 0)
  }

  /** `handleBack`: the playlist is emptied and the index reset. */
  function Back(n: Nav): (r: Nav)
    ensures r.playlist == [] && r.currentIndex == 0
  {
    Nav([], 0)
  }

  /** `handleNext` and `handlePrevious`: guarded moves by one. */
  function Next(n: Nav): (r: Nav)
    ensures r.playlist == n.playlist
    ensures r == n || r.currentIndex == n.currentIndex + 1 < |n.playlist|
  {
    if n.currentIndex < |n.playlist| - 1 then n.(currentIndex := n.currentIndex + 1) else n
  }

  function Previous(n: Nav): (r: Nav)
    ensures r.playlist == n.playlist
    ensures r == n || r.currentIndex + 1 == n.currentIndex
  {
    if n.currentIndex > 0 then n.(currentIndex := n.currentIndex - 1) else n
  }

  /** `handleSelect`: a jump to an index, ignored when it is out of range. */
  function Select(n: Nav, index: int): (r: Nav)
    ensures r.playlist == n.playlist
    ensures r == n || (r.currentIndex == index && index < |r.playlist|)
  {
    if 0 <= index < |n.playlist| then n.(currentIndex := index) else n
  }

  /** Every transition keeps the index in range; only intake and back touch
      the playlist itself. */
  lemma TransitionsKeepInRange(n: Nav, files: seq<File>, firstId: nat, index: int)
    requires InRange(n)
    ensures InRange(Intake(n, files, firstId)) && InRange(Back(n))
    ensures InRange(Next(n)) && InRange(Previous(n)) && InRange(Select(n, index))
    ensures Next(n).playlist == n.playlist && Previous(n).playlist == n.playlist
    ensures Select(n, index).playlist == n.playlist
  {
  }

  /** Next moves exactly when `hasNext` holds, and then by one; otherwise it
      changes nothing. Previous likewise with `hasPrevious`. */
  lemma NextIffHasNext(n: Nav)
    ensures HasNext(n) <==> Next(n).currentIndex == n.currentIndex + 1
    ensures !HasNext(n) <==> Next(n) == n
  {
  }

  lemma PreviousIffHasPrevious(n: Nav)
    ensures HasPrevious(n) <==> Previous(n).currentIndex == n.currentIndex - 1
    ensures !HasPrevious(n) <==> Previous(n) == n
  {
  }

  /** Next and previous undo each other wherever they move. */
  lemma NextPreviousInverse(n: Nav)
    requires InRange(n)
    ensures HasNext(n) ==> Previous(Next(n)) == n && HasPrevious(Next(n))
    ensures HasPrevious(n) ==> Next(Previous(n)) == n && HasNext(Previous(n))
  {
  }

  /** Select lands on the requested index exactly when it is in range, and
      selecting the current entry changes nothing. */
  lemma SelectInRange(n: Nav, index: int)
    ensures Select(n, index).currentIndex == index <==> (0 <= index < |n.playlist| || index == n.currentIndex)
    ensures !(0 <= index < |n.playlist|) ==> Select(n, index) == n
    ensures Select(n, n.currentIndex) == n
  {
  }

  /** Next pressed `k` times. */
  function NextTimes(n: Nav, k: nat): Nav
  {
    if k == 0 then n else Next(NextTimes(n, k - 1))
  }

  /** Pressing next repeatedly walks through the list one entry at a time
      and then stays on the last entry. */
  lemma {:induction false} NextTimesStopsAtLast(n: Nav, k: nat)
    requires InRange(n) && n.playlist != []
    ensures NextTimes(n, k).playlist == n.playlist
    ensures NextTimes(n, k).currentIndex ==
              if n.currentIndex + k < |n.playlist| then n.currentIndex + k else |n.playlist| - 1
  {
    if k > 0 {
      NextTimesStopsAtLast(n, k - 1);
    }
  }

  /** After intake the playlist lists the files in order, with their names and
      types, and the first entry is current. */
  lemma IntakeListsFiles(n: Nav, files: seq<File>, firstId: nat)
    requires |files| >= 1
    ensures var r := Intake(n, files, firstId);
            && InRange(r) && CurrentVideo(r) == Some(r.playlist[0])
            && (forall i :: 0 <= i < |files| ==>
                  r.playlist[i].name == files[i].name && r.playlist[i].kind == files[i].kind)
            && !HasPrevious(r) && (HasNext(r) <==> |files| > 1)
  {
  }

  // ---------------------------------------------------------------------
  // Object URLs

  /** The URLs of a playlist. */
  function Urls(playlist: seq<VideoState>): set<ObjectUrl>
  {
    set i | 0 <= i < |playlist| :: playlist[i].url
  }

  predicate DistinctUrls(playlist: seq<VideoState>)
  {
    forall i, j :: 0 <= i < |playlist| && 0 <= j < |playlist| && i != j ==>
      playlist[i].url != playlist[j].url
  }

  /** Freshly created entries have distinct URLs, all numbered at or above
      `firstId`. */
  lemma EntriesFresh(files: seq<File>, firstId: nat)
    ensures DistinctUrls(Entries(files, firstId))
    ensures forall u :: u in Urls(Entries(files, firstId)) ==> firstId <= u.id < firstId + |files|
  {
  }

  /** With distinct URLs, the entry (and so the player's source) changes
      exactly when the index does. */
  lemma EntryChangesWithIndex(n: Nav, m: Nav)
    requires DistinctUrls(n.playlist) && m.playlist == n.playlist
    requires n.currentIndex < |n.playlist| && m.currentIndex < |n.playlist|
    ensures CurrentVideo(m).value.url != CurrentVideo(n).value.url <==> m.currentIndex != n.currentIndex
  {
  }

  /** The playlist state of the application component. */
  class AppState {
    var playlist: seq<VideoState>
    var currentIndex: nat
    /** Object URLs revoked so far. */
    var released: set<ObjectUrl>
    /** Number of object URLs created so far; URL `k` is the `k`-th. */
    var issued: nat

    function State(): Nav
      reads this
    {
      Nav.Nav(playlist, currentIndex)
    }

    /** The index is in range, the live URLs are distinct, were created and
        are not revoked, and only created URLs were revoked. */
    ghost predicate Valid()
      reads this
    {
      && InRange(State())
      && DistinctUrls(playlist)
      && (forall u :: u in Urls(playlist) ==> u.id < issued && u !in released)
      && (forall u :: u in released ==> u.id < issued)
    }

    function HasNextEntry(): bool
      reads this
    {
      HasNext(State())
    }

    function HasPreviousEntry(): bool
      reads this
    {
      HasPrevious(State())
    }

    function CurrentUrl(): Option<ObjectUrl>
      reads this
    {
      match CurrentVideo(State())
      case Some(v) => Some(v.url)
      case None => None
    }

    constructor ()
      ensures Valid() && playlist == [] && currentIndex == 0 && released == {} && issued == 0
    {
      playlist, currentIndex, released, issued := [], 0, {}, 0;
    }

    /** `URL.createObjectURL`: a new handle, never handed out before. */
    method CreateObjectUrl() returns (url: ObjectUrl)
      modifies this`issued
      ensures url == ObjectUrl(old(issued)) && issued == old(issued) + 1
    {
      url := ObjectUrl(issued);
      issued := issued + 1;
    }

    /** `handleFilesSelected`. The drop zone calls it only with at least one
        file. The previous entries' URLs are not revoked. */
    method HandleFilesSelected(files: seq<File>)
      requires Valid() && |files| >= 1
      modifies this
      ensures Valid()
      ensures State() == Intake(old(State()), files, old(issued))
      ensures issued == old(issued) + |files| && released == old(released)
    {
      var first := issued;
      var newVideos: seq<VideoState> := [];
      for i := 0 to |files|
        invariant issued == first + i && released == old(released)
        invariant |newVideos| == i
        invariant forall k :: 0 <= k < i ==>
                    newVideos[k] == VideoState(ObjectUrl(first + k), files[k].name, files[k].kind)
      {
        var url := CreateObjectUrl();
        newVideos := newVideos + [VideoState(url, files[i].name, files[i].kind)];
      }
      assert newVideos == Entries(files, first);
      EntriesFresh(files, first);
      playlist := newVideos;
      currentIndex := 0;
    }

    /** `handleBack`: every entry's URL is revoked, then the playlist is
        emptied and the index reset. */
    method HandleBack()
      requires Valid()
      modifies this
      ensures Valid()
      ensures State() == Back(old(State()))
      ensures released == old(released) + Urls(old(playlist)) && issued == old(issued)
    {
      var i := 0;
      while i < |playlist|
        invariant 0 <= i <= |playlist|
        invariant playlist == old(playlist) && currentIndex == old(currentIndex) && issued == old(issued)
        invariant released == old(released) + Urls(playlist[..i])
        invariant forall u :: u in released ==> u.id < issued
      {
        assert playlist[..i + 1] == playlist[..i] + [playlist[i]];
        assert Urls(playlist[..i + 1]) == Urls(playlist[..i]) + {playlist[i].url};
        released := released + {playlist[i].url};
        i := i + 1;
      }
      assert playlist[..i] == playlist;
      playlist := [];
      currentIndex := 0;
    }

    method HandleNext()
      requires Valid()
      modifies this
      ensures Valid() && State() == Next(old(State()))
      ensures released == old(released) && issued == old(issued)
    {
      if currentIndex < |playlist| - 1 {
        currentIndex := currentIndex + 1;
      }
    }

    method HandlePrevious()
      requires Valid()
      modifies this
      ensures Valid() && State() == Previous(old(State()))
      ensures released == old(released) && issued == old(issued)
    {
      if currentIndex > 0 {
        currentIndex := currentIndex - 1;
      }
    }

    method HandleSelect(index: int)
      requires Valid()
      modifies this
      ensures Valid() && State() == Select(old(State()), index)
      ensures released == old(released) && issued == old(issued)
    {
      if index >= 0 && index < |playlist| {
        currentIndex := index;
      }
    }
  }

  // ---------------------------------------------------------------------
  // The component tree

  /** The application with its player. The player exists while the playlist
      is non-empty; the handlers below for the player's events are only
      called while it is shown. */
  class Shell {
    var app: AppState
    var player: Player.Session

    ghost predicate Valid()
      reads this, app, player
    {
      app.Valid() && Player.Valid(player.Snap())
    }

    constructor ()
      ensures Valid() && fresh(app) && fresh(player) && app.playlist == []
      ensures app.currentIndex == 0 && app.released == {} && app.issued == 0
      ensures player.Snap() == Player.Initial
    {
      app := new AppState();
      player := new Player.Session();
    }

    /** Intake from the drop zone, which is on screen only while the playlist
        is empty: a new player is mounted and starts the first entry. */
    method FilesSelected(files: seq<File>)
      requires Valid() && app.playlist == [] && |files| >= 1
      modifies this, app
      ensures Valid() && app == old(app) && fresh(player)
      ensures app.State() == Intake(old(app.State()), files, old(app.issued))
      ensures player.Snap() == Player.Started(Player.Initial)
      ensures app.released == old(app.released) && app.issued == old(app.issued) + |files|
    {
      app.HandleFilesSelected(files);
      player := new Player.Session();
      player.EntryChanged();
    }

    /** The player's close button. */
    method Close()
      requires Valid() && app.playlist != []
      modifies app
      ensures Valid() && app.State() == Back(old(app.State()))
      ensures app.released == old(app.released) + Urls(old(app.playlist))
      ensures app.issued == old(app.issued) && player.Snap() == old(player.Snap())
    {
      app.HandleBack();
    }

    /** A navigation request from the player is passed to the playlist; when
        the current entry's URL changes, the player's entry effect runs. */
    method Follow(request: Player.NavRequest)
      requires Valid() && app.playlist != []
      modifies app, player
      ensures Valid() && app.playlist == old(app.playlist)
      ensures app.released == old(app.released) && app.issued == old(app.issued)
      ensures request == Player.RequestNext ==> app.State() == Next(old(app.State()))
      ensures request == Player.RequestPrevious ==> app.State() == Previous(old(app.State()))
      ensures request == Player.NoRequest ==> app.State() == old(app.State())
      ensures app.currentIndex != old(app.currentIndex) ==> player.Snap() == Player.Started(old(player.Snap()))
      ensures app.currentIndex == old(app.currentIndex) ==> player.Snap() == old(player.Snap())
    {
      var before := app.CurrentUrl();
      ghost var was := app.State();
      match request {
        case RequestNext => app.HandleNext();
        case RequestPrevious => app.HandlePrevious();
        case NoRequest =>
      }
      EntryChangesWithIndex(was, app.State());
      if app.CurrentUrl() != before {
        player.EntryChanged();
      }
    }

    /** The video ended: with a next entry the playlist advances and the
        next entry starts; otherwise the player stops and the index stays. */
    method VideoEnded()
      requires Valid() && app.playlist != []
      modifies app, player
      ensures Valid() && app.playlist == old(app.playlist)
      ensures app.released == old(app.released) && app.issued == old(app.issued)
      ensures old(app.HasNextEntry()) ==>
                app.currentIndex == old(app.currentIndex) + 1
                && player.Snap() == Player.Started(Player.Ended(old(player.Snap()), true).0)
      ensures !old(app.HasNextEntry()) ==>
                app.currentIndex == old(app.currentIndex)
                && player.Snap() == Player.Ended(old(player.Snap()), false).0
                && !player.state.isPlaying
    {
      var request := player.HandleEnded(app.HasNextEntry());
      Follow(request);
    }

    /** A key press reaches the player; 'n' and 'p' go on to the playlist. */
    method KeyDown(tagName: string, key: string, fullscreenActive: bool)
      requires Valid() && app.playlist != []
      modifies app, player
      ensures Valid() && app.playlist == old(app.playlist)
      ensures app.released == old(app.released) && app.issued == old(app.issued)
      ensures var pressed := Player.KeyPressed(old(player.Snap()), tagName, key,
                                               old(app.HasNextEntry()), old(app.HasPreviousEntry()),
                                               fullscreenActive);
              && (pressed.1 == Player.RequestNext ==> app.State() == Next(old(app.State())))
              && (pressed.1 == Player.RequestPrevious ==> app.State() == Previous(old(app.State())))
              && (pressed.1 == Player.NoRequest ==> app.State() == old(app.State()) && player.Snap() == pressed.0)
              && (pressed.1 != Player.NoRequest ==> player.Snap() == Player.Started(pressed.0))
    {
      Player.NavigationKeys(player.Snap(), tagName, key, app.HasNextEntry(), app.HasPreviousEntry(),
                            fullscreenActive);
      var request := player.HandleKeyDown(tagName, key, app.HasNextEntry(), app.HasPreviousEntry(), fullscreenActive);
      Follow(request);
    }

    /** A row of the playlist panel was clicked. */
    method SelectEntry(index: int)
      requires Valid() && app.playlist != []
      modifies app, player
      ensures Valid() && app.State() == Select(old(app.State()), index)
      ensures app.released == old(app.released) && app.issued == old(app.issued)
      ensures app.currentIndex != old(app.currentIndex) ==> player.Snap() == Player.Started(old(player.Snap()))
      ensures app.currentIndex == old(app.currentIndex) ==> player.Snap() == old(player.Snap())
    {
      var before := app.CurrentUrl();
      ghost var was := app.State();
      app.HandleSelect(index);
      EntryChangesWithIndex(was, app.State());
      if app.CurrentUrl() != before {
        player.EntryChanged();
      }
    }
  }
}
