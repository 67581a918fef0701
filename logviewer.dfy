/**
 * The run log viewer: the auto-scroll flag and the container's scroll offset,
 * the colour class of each log level, and which parts of the panel are shown.
 * The container's offset and heights are what the browser reports; they
 * arrive as parameters, so a scroll the user makes is the offset it reports.
 */
module LogViewer {
  import opened Wrappers
  import Domain

  // ---------------------------------------------------------------------------
  // Auto-scroll

  /** How far from the bottom, in pixels, the view still counts as at the bottom. */
  const BottomSlack := 10

  /** `isAtBottom`: the visible part reaches to within 10 pixels of the content's end. */
  predicate IsAtBottom(scrollTop: int, scrollHeight: int, clientHeight: int) {
    scrollTop + clientHeight >= scrollHeight - BottomSlack
  }

  /** The viewer's mutable state: the `shouldAutoScroll` ref and the container's `scrollTop`. */
  datatype ScrollState = ScrollState(follow: bool, scrollTop: int)

  /** The state a freshly mounted viewer starts in: following, at the top. */
  const Initial := ScrollState(true, 0)

  /**
   * `handleScroll`: without a container nothing happens; otherwise the container
   * reports the offset it was scrolled to, and the flag becomes whether that
   * offset is at the bottom.
   */
  function OnScroll(s: ScrollState, mounted: bool, scrollTop: int, scrollHeight: int, clientHeight: int): (t: ScrollState)
    ensures !mounted ==> t == s
    ensures mounted ==> t.scrollTop == scrollTop
    ensures mounted ==> (t.follow <==> scrollTop + clientHeight + BottomSlack >= scrollHeight)
  {
    if !mounted then s else ScrollState(IsAtBottom(scrollTop, scrollHeight, clientHeight), scrollTop)
  }

  /**
   * The effect on a change of `logs`: a following, mounted viewer jumps to the
   * content's end; otherwise nothing changes. The flag itself is never touched.
   */
  function OnLogs(s: ScrollState, mounted: bool, scrollHeight: int): (t: ScrollState)
    ensures t.follow == s.follow
    ensures s.follow && mounted ==> t.scrollTop == scrollHeight
    ensures !(s.follow && mounted) ==> t == s
  {
    if s.follow && mounted then s.(scrollTop := scrollHeight) else s
  }

  /**
   * What happens to the viewer: new logs arrive, or the container is scrolled
   * (by the auto-scroll or by the user) and reports its offset and heights.
   */
  datatype ScrollEvent =
    | LogsChanged(mounted: bool, scrollHeight: int)
    | Scrolled(mounted: bool, scrollTop: int, scrollHeight: int, clientHeight: int)

  function Step(s: ScrollState, e: ScrollEvent): ScrollState {
    match e
    case LogsChanged(mounted, scrollHeight) => OnLogs(s, mounted, scrollHeight)
    case Scrolled(mounted, scrollTop, scrollHeight, clientHeight) => OnScroll(s, mounted, scrollTop, scrollHeight, clientHeight)
  }

  /** The state after a series of events, in order. */
  function Replay(s: ScrollState, events: seq<ScrollEvent>): ScrollState {
    if events == [] then s else Step(Replay(s, events[..|events| - 1]), events[|events| - 1])
  }

  /** Replaying two series one after the other is replaying their concatenation. */
  lemma {:induction false} ReplayConcat(s: ScrollState, a: seq<ScrollEvent>, b: seq<ScrollEvent>)
    ensures Replay(s, a + b) == Replay(Replay(s, a), b)
    decreases |b|
  {
    if b == [] {
      assert a + b == a;
    } else {
      var b' := b[..|b| - 1];
      assert (a + b)[..|a + b| - 1] == a + b';
      assert (a + b)[|a + b| - 1] == b[|b| - 1];
      ReplayConcat(s, a, b');
    }
  }

  /** A single event replays as one step. */
  lemma ReplayOne(s: ScrollState, e: ScrollEvent)
    ensures Replay(s, [e]) == Step(s, e)
  {
    assert [e][..0] == [];
  }

  /**
   * The scroll that setting `scrollTop` to the content's height causes reports
   * that offset and finds the view at the bottom, so a following viewer keeps
   * following while the dimensions stay the same.
   */
  lemma AutoScrollKeepsFollowing(s: ScrollState, scrollHeight: int, clientHeight: int)
    requires s.follow && clientHeight >= 0
    ensures Replay(s, [LogsChanged(true, scrollHeight), Scrolled(true, scrollHeight, scrollHeight, clientHeight)]).follow
    ensures Replay(s, [LogsChanged(true, scrollHeight), Scrolled(true, scrollHeight, scrollHeight, clientHeight)]).scrollTop == scrollHeight
  {
    var jump := LogsChanged(true, scrollHeight);
    var scroll := Scrolled(true, scrollHeight, scrollHeight, clientHeight);
    assert [jump, scroll] == [jump] + [scroll];
    ReplayConcat(s, [jump], [scroll]);
    ReplayOne(s, jump);
    ReplayOne(OnLogs(s, true, scrollHeight), scroll);
  }

  /** Only a scroll event can change the flag: any number of log changes leave it as it was. */
  lemma {:induction false} FlagChangesOnlyOnScroll(s: ScrollState, events: seq<ScrollEvent>)
    requires forall i | 0 <= i < |events| :: events[i].LogsChanged?
    ensures Replay(s, events).follow == s.follow
  {
    if events != [] {
      FlagChangesOnlyOnScroll(s, events[..|events| - 1]);
    }
  }

  /** Once the user has scrolled away, new logs never move the view. */
  lemma {:induction false} PausedViewStaysPut(s: ScrollState, events: seq<ScrollEvent>)
    requires !s.follow
    requires forall i | 0 <= i < |events| :: events[i].LogsChanged?
    ensures Replay(s, events) == s
  {
    if events != [] {
      PausedViewStaysPut(s, events[..|events| - 1]);
    }
  }

  /**
   * A scroll decides the flag from the offset the container reports: scrolling
   * to the bottom resumes following; scrolling more than 10 pixels away stops it.
   */
  lemma ScrollDecidesFollowing(s: ScrollState, scrollTop: int, scrollHeight: int, clientHeight: int)
    ensures Replay(s, [Scrolled(true, scrollTop, scrollHeight, clientHeight)]).follow <==>
      IsAtBottom(scrollTop, scrollHeight, clientHeight)
    ensures Replay(s, [Scrolled(true, scrollTop, scrollHeight, clientHeight)]).scrollTop == scrollTop
  {
    ReplayOne(s, Scrolled(true, scrollTop, scrollHeight, clientHeight));
  }

  /**
   * The user pauses auto-scroll: after a scroll to an offset more than 10 pixels
   * above the end, any number of new logs leave the view where the user put it.
   */
  lemma ScrollUpPauses(s: ScrollState, scrollTop: int, scrollHeight: int, clientHeight: int, later: seq<ScrollEvent>)
    requires !IsAtBottom(scrollTop, scrollHeight, clientHeight)
    requires forall i | 0 <= i < |later| :: later[i].LogsChanged?
    ensures Replay(s, [Scrolled(true, scrollTop, scrollHeight, clientHeight)] + later) == ScrollState(false, scrollTop)
  {
    var scroll := Scrolled(true, scrollTop, scrollHeight, clientHeight);
    ReplayConcat(s, [scroll], later);
    ReplayOne(s, scroll);
    PausedViewStaysPut(ScrollState(false, scrollTop), later);
  }

  /**
   * An auto-scroll to the end of 1000 pixels of content in a 300-pixel view,
   * then a scroll by the user to the top: the next logs leave the view at the top.
   */
  lemma ScrollToTopAfterAutoScroll()
    ensures Replay(Initial, [LogsChanged(true, 1000), Scrolled(true, 0, 1000, 300), LogsChanged(true, 1200)]) ==
      ScrollState(false, 0)
  {
    var jump := LogsChanged(true, 1000);
    var scroll := Scrolled(true, 0, 1000, 300);
    var more := LogsChanged(true, 1200);
    assert [jump, scroll, more] == [jump] + ([scroll] + [more]);
    ReplayConcat(Initial, [jump], [scroll] + [more]);
    ReplayOne(Initial, jump);
    ScrollUpPauses(Replay(Initial, [jump]), 0, 1000, 300, [more]);
  }

  /** The viewer component's two pieces of mutable state. */
  class ScrollController {
    /** `shouldAutoScroll.current`. */
    var shouldAutoScroll: bool
    /** `containerRef.current.scrollTop`. */
    var scrollTop: int

    function State(): ScrollState
      reads this
    {
      ScrollState(shouldAutoScroll, scrollTop)
    }

    /** `useRef(true)`: the viewer starts following. */
    constructor()
      ensures State() == Initial
    {
      shouldAutoScroll := true;
      scrollTop := 0;
    }

    /**
     * `handleScroll`, given whether the container exists and the offset and
     * heights it reports once the browser has scrolled it.
     */
    method HandleScroll(mounted: bool, reportedTop: int, scrollHeight: int, clientHeight: int)
      modifies this
      ensures State() == OnScroll(old(State()), mounted, reportedTop, scrollHeight, clientHeight)
    {
      if !mounted {
        return;
      }
      scrollTop := reportedTop;
      var isAtBottom := scrollTop + clientHeight >= scrollHeight - BottomSlack;
      shouldAutoScroll := isAtBottom;
    }

    /** The `useEffect` run when `logs` changes. */
    method LogsEffect(mounted: bool, scrollHeight: int)
      modifies this
      ensures State() == OnLogs(old(State()), mounted, scrollHeight)
    {
      if shouldAutoScroll && mounted {
        scrollTop := scrollHeight;
      }
    }
  }

  // ---------------------------------------------------------------------------
  // Level colours

  const GrayLevel := "bg-gray-100 text-gray-800"

  /** `getLevelColor`: blue for info, yellow for warn, red for error; debug and any other text gray. */
  function LevelColor(level: string): (c: string)
    ensures c == GrayLevel <==> level !in ["info", "warn", "error"]
    ensures level == "info" ==> c == "bg-blue-100 text-blue-800"
    ensures level == "warn" ==> c == "bg-yellow-100 text-yellow-800"
    ensures level == "error" ==> c == "bg-red-100 text-red-800"
  {
    match level
    case "debug" => "bg-gray-100 text-gray-800"
    case "info" => "bg-blue-100 text-blue-800"
    case "warn" => "bg-yellow-100 text-yellow-800"
    case "error" => "bg-red-100 text-red-800"
    case _ => GrayLevel
  }

  /** Debug is the only level drawn like an unknown one; the other levels are told apart. */
  lemma LevelColorsOfLevels(a: Domain.LogLevel, b: Domain.LogLevel)
    ensures LevelColor(Domain.LogLevelName(a)) == GrayLevel <==> a == Domain.Debug
    ensures a != b && a != Domain.Debug && b != Domain.Debug ==>
      LevelColor(Domain.LogLevelName(a)) != LevelColor(Domain.LogLevelName(b))
  {
  }

  // ---------------------------------------------------------------------------
  // What the panel shows

  /** The viewer's output: the loading spinner, or the panel with its optional parts. */
  datatype Panel =
    | Spinner
    | LogPanel(liveBanner: bool, emptyNote: bool, rows: nat, footer: Option<nat>)

  /**
   * The component's render: the spinner while loading with no logs; otherwise
   * the live banner when live, the "No logs yet." note or one row per log, and
   * the entry count footer when there are logs.
   */
  function Render<T>(logs: Option<seq<T>>, isLoading: bool, isLive: bool): (p: Panel)
    ensures p.Spinner? <==> isLoading && (logs.None? || |logs.value| == 0)
    ensures p.LogPanel? ==> p.liveBanner == isLive
    ensures p.LogPanel? ==> (p.footer.Some? <==> logs.Some? && |logs.value| > 0)
    ensures p.LogPanel? ==> (p.emptyNote <==> p.footer.None?)
    ensures p.LogPanel? && p.footer.Some? ==> p.footer.value == p.rows == |logs.value|
  {
    var count := if logs.None? then 0 else |logs.value|;
    if isLoading && count == 0 then Spinner
    else LogPanel(isLive, count == 0, count, if count > 0 then Some(count) else None)
  }

  /** Logs already on screen stay on screen while more load: the spinner never replaces them. */
  lemma LoadedLogsNeverSpin<T>(logs: seq<T>, isLive: bool)
    requires |logs| > 0
    ensures Render(Some(logs), true, isLive) == Render(Some(logs), false, isLive)
    ensures Render(Some(logs), true, isLive).footer == Some(|logs|)
  {
  }
}
