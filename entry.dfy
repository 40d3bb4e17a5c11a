/**
 * The application window: its initial size from the configured resolution,
 * the keyboard shortcuts, the title bar's buttons and the screen shown.
 */
module Entry {
  import opened Wrappers
  import opened Data
  import opened Config

  /** A window size in dp. */
  datatype Size = Size(width: int, height: int)

  /** The resolution setting's two window sizes. */
  const FloatingSize: Size := Size(1280, 720)
  const LargeSize: Size := Size(1920, 1080)

  /** The initial window size: "WQHD" opens at 1920x1080, any other setting at 1280x720. */
  function WindowSizeFor(resolution: string): (s: Size)
    ensures s == LargeSize <==> resolution == "WQHD"
    ensures s == FloatingSize <==> resolution != "WQHD"
  {
    if resolution == "WQHD" then LargeSize else FloatingSize
  }

  /** The setting the settings screen stores for each of its two size choices. */
  function ResolutionFor(s: Size): (resolution: Option<string>)
    ensures resolution.Some? <==> s == FloatingSize || s == LargeSize
    ensures s == FloatingSize ==> resolution == Some("FHD")
    ensures s == LargeSize ==> resolution == Some("WQHD")
  {
    if s == FloatingSize then Some("FHD")
    else if s == LargeSize then Some("WQHD")
    else None
  }

  /** A size chosen in the settings is the size the next start opens with. */
  lemma ChosenSizeSurvivesRestart(s: Size)
    requires s == FloatingSize || s == LargeSize
    ensures WindowSizeFor(ResolutionFor(s).value) == s
  {
  }

  /** The default settings open the smaller window. */
  lemma DefaultOpensFloating()
    ensures WindowSizeFor(DefaultConfig().resolution) == FloatingSize
  {
  }

  /** The screens the window can show. */
  datatype Screen = HomeScreen | AnimeScreen | BrowseScreen | ProfileScreen | ListScreen
                  | PlayerScreen | SettingsScreen | LogsScreen

  datatype Placement = Floating | Maximized

  /** The keys the handler distinguishes. */
  datatype KeyName = KeyX | KeyS | OtherKey

  /** What a key event does. */
  datatype KeyAction = ExitApp | ToggleDrawer | DrawerBusy | Unhandled

  /** `onKeyEvent`: Ctrl+X exits, Ctrl+S toggles the settings drawer unless it is animating; both are consumed. */
  function OnKey(key: KeyName, ctrl: bool, drawerAnimating: bool): (a: KeyAction)
    ensures a == Unhandled <==> !ctrl || key == OtherKey
    ensures a == ExitApp <==> ctrl && key == KeyX
    ensures a == ToggleDrawer <==> ctrl && key == KeyS && !drawerAnimating
  {
    if !ctrl then Unhandled
    else
      match key
      case KeyX => ExitApp
      case KeyS => if !drawerAnimating then ToggleDrawer else DrawerBusy
      case OtherKey => Unhandled
  }

  /** The maximize button's toggle. */
  function ToggleMaximized(p: Placement): (q: Placement)
    ensures q != p
  {
    if p == Maximized then Floating else Maximized
  }

  /** What the content area shows. */
  datatype Content = Shows(screen: Screen) | AnimeDetails(anime: Anime) | Player(id: int, title: string) | Nothing

  /** The content for a screen: the anime and player screens need a selected anime and show nothing without one. */
  function ContentFor(screen: Screen, selected: Option<Anime>): (c: Content)
    ensures screen == AnimeScreen && selected.Some? ==> c == AnimeDetails(selected.value)
    ensures screen == PlayerScreen && selected.Some? ==> c == Player(selected.value.id, selected.value.title)
    ensures (screen == AnimeScreen || screen == PlayerScreen) && selected.None? ==> c == Nothing
    ensures screen != AnimeScreen && screen != PlayerScreen ==> c == Shows(screen)
  {
    match screen
    case AnimeScreen => if selected.Some? then AnimeDetails(selected.value) else Nothing
    case PlayerScreen => if selected.Some? then Player(selected.value.id, selected.value.title) else Nothing
    case _ => Shows(screen)
  }

  /** The window's state. */
  class AppWindow {
    var size: Size
    var placement: Placement
    var minimized: bool
    var drawerOpen: bool
    var exited: bool
    var screenActive: Screen
    var selectedAnime: Option<Anime>

    /** Startup with the loaded settings: a floating window on the home screen. */
    constructor(c: AppConfig)
      ensures size == WindowSizeFor(c.resolution) && placement == Floating && !minimized
      ensures !drawerOpen && !exited && screenActive == HomeScreen && selectedAnime.None?
    {
      size := WindowSizeFor(c.resolution);
      placement := Floating;
      minimized := false;
      drawerOpen := false;
      exited := false;
      screenActive := HomeScreen;
      selectedAnime := None;
    }

    function Content(): (c: Content)
      reads this
      ensures c == ContentFor(screenActive, selectedAnime)
    {
      ContentFor(screenActive, selectedAnime)
    }

    /** A key event; returns whether it was consumed. */
    method KeyEvent(key: KeyName, ctrl: bool, drawerAnimating: bool) returns (consumed: bool)
      modifies this
      ensures consumed <==> OnKey(key, ctrl, drawerAnimating) != Unhandled
      ensures exited == (old(exited) || OnKey(key, ctrl, drawerAnimating) == ExitApp)
      ensures drawerOpen == (if OnKey(key, ctrl, drawerAnimating) == ToggleDrawer then !old(drawerOpen) else old(drawerOpen))
      ensures size == old(size) && placement == old(placement) && minimized == old(minimized)
      ensures screenActive == old(screenActive) && selectedAnime == old(selectedAnime)
    {
      var action := OnKey(key, ctrl, drawerAnimating);
      if action == ExitApp {
        exited := true;
      } else if action == ToggleDrawer {
        drawerOpen := !drawerOpen;
      }
      consumed := action != Unhandled;
    }

    /** The maximize button. */
    method MaximizeClicked()
      modifies this
      ensures placement == ToggleMaximized(old(placement))
      ensures size == old(size) && minimized == old(minimized) && drawerOpen == old(drawerOpen) && exited == old(exited)
      ensures screenActive == old(screenActive) && selectedAnime == old(selectedAnime)
    {
      placement := ToggleMaximized(placement);
    }

    /** The settings button toggles the drawer, whether or not it is animating. */
    method SettingsClicked()
      modifies this
      ensures drawerOpen == !old(drawerOpen)
      ensures size == old(size) && placement == old(placement) && minimized == old(minimized) && exited == old(exited)
      ensures screenActive == old(screenActive) && selectedAnime == old(selectedAnime)
    {
      drawerOpen := !drawerOpen;
    }

    /** A size radio in the settings: resizes the window and stores the matching setting. */
    method SizeChosen(m: ConfigManager, s: Size)
      requires s == FloatingSize || s == LargeSize
      modifies this, m
      ensures size == s && m.config == old(m.config).(resolution := ResolutionFor(s).value)
      ensures m.stored == Some(m.config)
      ensures WindowSizeFor(m.config.resolution) == size
      ensures placement == old(placement) && minimized == old(minimized) && drawerOpen == old(drawerOpen) && exited == old(exited)
      ensures screenActive == old(screenActive) && selectedAnime == old(selectedAnime)
    {
      size := s;
      m.SetResolution(ResolutionFor(s).value);
      m.SaveConfig();
    }

    /** The close button ends the application. */
    method CloseClicked()
      modifies this
      ensures exited
      ensures size == old(size) && placement == old(placement) && minimized == old(minimized) && drawerOpen == old(drawerOpen)
      ensures screenActive == old(screenActive) && selectedAnime == old(selectedAnime)
    {
      exited := true;
    }

    /** The minimize button. */
    method MinimizeClicked()
      modifies this
      ensures minimized
      ensures size == old(size) && placement == old(placement) && drawerOpen == old(drawerOpen) && exited == old(exited)
      ensures screenActive == old(screenActive) && selectedAnime == old(selectedAnime)
    {
      minimized := true;
    }

    /** A screen chosen in the title bar, or the settings' "logs" link. */
    method ScreenSelected(s: Screen)
      modifies this
      ensures screenActive == s && selectedAnime == old(selectedAnime)
      ensures size == old(size) && placement == old(placement) && minimized == old(minimized)
      ensures drawerOpen == old(drawerOpen) && exited == old(exited)
    {
      screenActive := s;
    }

    /** An anime picked on the home or browse screen opens its details. */
    method AnimeSelected(a: Anime)
      modifies this
      ensures screenActive == AnimeScreen && selectedAnime == Some(a)
      ensures Content() == AnimeDetails(a)
      ensures size == old(size) && placement == old(placement) && minimized == old(minimized)
      ensures drawerOpen == old(drawerOpen) && exited == old(exited)
    {
      selectedAnime := Some(a);
      screenActive := AnimeScreen;
    }

    /** The details screen's "Watch Now", once the settings are valid. */
    method PlayerRequested()
      modifies this
      ensures screenActive == PlayerScreen && selectedAnime == old(selectedAnime)
      ensures size == old(size) && placement == old(placement) && minimized == old(minimized)
      ensures drawerOpen == old(drawerOpen) && exited == old(exited)
    {
      screenActive := PlayerScreen;
    }
  }

  /** Picking an anime and pressing "Watch Now" plays that anime's episodes. */
  method PickThenWatch(c: AppConfig, a: Anime) returns (w: AppWindow)
    ensures w.Content() == Player(a.id, a.title)
  {
    w := new AppWindow(c);
    w.AnimeSelected(a);
    w.PlayerRequested();
  }

  /** Maximizing twice returns the window to floating. */
  lemma MaximizeTwice(p: Placement)
    ensures ToggleMaximized(ToggleMaximized(p)) == p
  {
  }
}
