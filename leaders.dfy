/**
 * The leaderboard (the `leaders` blueprint): every user's tracked seconds in
 * the seven days before the current UTC midnight, ranked, truncated to the
 * top `max_users`, and cut into pages of 20.
 *
 * The durations of all users in the window, which the service obtains from
 * an SQL query and the duration merger, are an input; so is the clock.
 */
module Leaders {
  import opened Common
  import opened Counters
  import opened Durations

  const UsersPerPage := 20
  const DefaultMaxUsers := 50
  const SecondsPerDay := 86400
  const WindowDays := 7

  /** A range of POSIX seconds. */
  datatype Window = Window(start: int, end: int)

  /**
   * The window for the clock reading `now` (UTC POSIX seconds): it ends at the
   * midnight that starts the current day and starts seven days earlier.
   */
  function LeaderWindow(now: int): (w: Window)
    ensures w.end % SecondsPerDay == 0
    ensures w.end <= now < w.end + SecondsPerDay
    ensures w.end - w.start == WindowDays * SecondsPerDay
  {
    var midnight := now - now % SecondsPerDay;
    Window(midnight - WindowDays * SecondsPerDay, midnight)
  }

  /** `counter.most_common(max_users)` over the per-user totals. */
  function TopUsers(ds: seq<Duration>, maxUsers: nat): Counter<string> {
    MostCommonN(Tally(ds, UserOf), maxUsers)
  }

  /**
   * `calc_leaders`: one pass over the durations adds each duration's seconds
   * to its user's counter; the result is the window and the top `max_users`
   * users by total.
   */
  method CalcLeaders(durations: seq<Duration>, now: int, maxUsers: nat)
    returns (window: Window, leaders: Counter<string>)
    ensures window == LeaderWindow(now)
    ensures leaders == TopUsers(durations, maxUsers)
  {
    var midnight := now - now % SecondsPerDay;
    window := Window(midnight - WindowDays * SecondsPerDay, midnight);
    var counter: Counter<string> := [];
    for i := 0 to |durations|
      invariant counter == Tally(durations[..i], UserOf)
    {
      var d := durations[i];
      assert durations[..i + 1][..i] == durations[..i];
      counter := Add(counter, d.userId, d.end - d.start);
    }
    assert durations[..|durations|] == durations;
    leaders := MostCommonN(counter, maxUsers);
  }

  /** Python's normalisation of a slice bound for a sequence of length `n`. */
  function SliceBound(i: int, n: nat): (b: nat)
    ensures b <= n
    ensures 0 <= i <= n ==> b == i
    ensures i > n ==> b == n
    ensures i < 0 ==> b == if i + n < 0 then 0 else i + n
  {
    if i < 0 then (if i + n < 0 then 0 else i + n)
    else if i > n then n
    else i
  }

  /** Python's `s[i:j]`; negative bounds count from the end. */
  function Slice<T>(s: seq<T>, i: int, j: int): seq<T> {
    var a, b := SliceBound(i, |s|), SliceBound(j, |s|);
    if a < b then s[a..b] else []
  }

  /** `leaders[page * 20 : page * 20 + 20]`. */
  function Page<T>(leaders: seq<T>, page: int): seq<T> {
    Slice(leaders, page * UsersPerPage, page * UsersPerPage + UsersPerPage)
  }

  /** `ceil(count / 20)`. */
  function TotalPages(count: nat): (pages: nat)
    ensures pages * UsersPerPage >= count
    ensures pages == 0 || (pages - 1) * UsersPerPage < count
  {
    (count + UsersPerPage - 1) / UsersPerPage
  }

  /** Pages `0` to `count - 1`, one after the other. */
  function FirstPages<T>(leaders: seq<T>, count: nat): seq<T> {
    if count == 0 then [] else FirstPages(leaders, count - 1) + Page(leaders, count - 1)
  }

  /** What `get_leaders` computes: the window, the page number, the page count and the page. */
  datatype LeadersView = LeadersView(window: Window, page: int, totalPages: nat, pageEntries: Counter<string>)

  /**
   * `get_leaders` for page `page` with the default cap of 50 users: the page
   * count comes from the truncated list before it is sliced.
   */
  method GetLeaders(durations: seq<Duration>, now: int, page: int) returns (view: LeadersView)
    ensures view.window == LeaderWindow(now)
    ensures view.page == page
    ensures view.totalPages == TotalPages(|TopUsers(durations, DefaultMaxUsers)|) <= 3
    ensures view.pageEntries == Page(TopUsers(durations, DefaultMaxUsers), page)
  {
    var window, leaders := CalcLeaders(durations, now, DefaultMaxUsers);
    var leadersCount := |leaders|;
    var leadersIdx := page * UsersPerPage;
    var entries := Slice(leaders, leadersIdx, leadersIdx + UsersPerPage);
    view := LeadersView(window, page, TotalPages(leadersCount), entries);
  }

  // ---------------------------------------------------------------------
  // What the ranking promises

  /**
   * The leaderboard lists at most `max_users` distinct users, as many as
   * there are users with durations up to that cap, each with the seconds of
   * that user's durations.
   */
  lemma TopUsersContents(ds: seq<Duration>, maxUsers: nat)
    ensures var r := TopUsers(ds, maxUsers);
      && |r| == (if |KeysOf(ds, UserOf)| < maxUsers then |KeysOf(ds, UserOf)| else maxUsers)
      && (forall i, j :: 0 <= i < j < |r| ==> r[i].0 != r[j].0)
      && (forall i :: 0 <= i < |r| ==> r[i].0 in KeysOf(ds, UserOf) && r[i].1 == SecondsWhere(ds, UserOf, r[i].0))
  {
    var all := Ranked(ds, UserOf);
    RankingContents(ds, UserOf);
    forall i | 0 <= i < |TopUsers(ds, maxUsers)|
      ensures TopUsers(ds, maxUsers)[i].0 in KeysOf(ds, UserOf)
    {
      RankingMembers(ds, UserOf, all[i].0);
    }
  }

  /**
   * The leaderboard is in descending order of seconds, users with equal
   * seconds in the order of their first durations.
   */
  lemma TopUsersOrder(ds: seq<Duration>, maxUsers: nat)
    ensures var r := TopUsers(ds, maxUsers);
      forall i, j :: 0 <= i < j < |r| ==>
        r[i].1 > r[j].1 ||
        (r[i].1 == r[j].1 && FirstIndex(ds, UserOf, r[i].0) < FirstIndex(ds, UserOf, r[j].0))
  {
    var all, r := Ranked(ds, UserOf), TopUsers(ds, maxUsers);
    RankingOrder(ds, UserOf);
    assert forall i :: 0 <= i < |r| ==> r[i] == all[i];
  }

  /** A user left off the leaderboard has no more seconds than anyone on it. */
  lemma TopUsersAreTop(ds: seq<Duration>, maxUsers: nat, user: string)
    requires user in KeysOf(ds, UserOf)
    requires forall i :: 0 <= i < |TopUsers(ds, maxUsers)| ==> TopUsers(ds, maxUsers)[i].0 != user
    ensures forall i :: 0 <= i < |TopUsers(ds, maxUsers)| ==>
      TopUsers(ds, maxUsers)[i].1 >= SecondsWhere(ds, UserOf, user)
  {
    var all := Ranked(ds, UserOf);
    var r := TopUsers(ds, maxUsers);
    RankingMembers(ds, UserOf, user);
    var k :| 0 <= k < |all| && all[k].0 == user;
    assert forall i :: 0 <= i < |r| ==> r[i] == all[i];
    assert k >= |r|;
    RankedItem(ds, UserOf, k);
    RankingOrder(ds, UserOf);
  }

  /**
   * With no more users than the cap, every user with a duration is on the
   * leaderboard exactly once.
   */
  lemma AllUsersListed(ds: seq<Duration>, maxUsers: nat, user: string)
    requires |KeysOf(ds, UserOf)| <= maxUsers
    requires user in KeysOf(ds, UserOf)
    ensures exists i :: 0 <= i < |TopUsers(ds, maxUsers)| && TopUsers(ds, maxUsers)[i].0 == user
    ensures var r := TopUsers(ds, maxUsers);
      forall i, j :: (0 <= i < |r| && 0 <= j < |r| && r[i].0 == user && r[j].0 == user) ==> i == j
  {
    RankingMembers(ds, UserOf, user);
    RankingContents(ds, UserOf);
    var all := Ranked(ds, UserOf);
    assert TopUsers(ds, maxUsers) == all;
  }

  // ---------------------------------------------------------------------
  // What the pagination promises

  /** A page at or after page 0 is the window `[20p, 20p + 20)` of the list, cut at its end. */
  lemma PageWindow<T>(leaders: seq<T>, page: int)
    requires page >= 0
    ensures var n := |leaders|;
      var lo := if page * UsersPerPage < n then page * UsersPerPage else n;
      var hi := if page * UsersPerPage + UsersPerPage < n then page * UsersPerPage + UsersPerPage else n;
      Page(leaders, page) == leaders[lo..hi] && |Page(leaders, page)| <= UsersPerPage
  {
  }

  /** A page at or past the page count is empty. */
  lemma PagePastEnd<T>(leaders: seq<T>, page: int)
    requires page >= TotalPages(|leaders|)
    ensures Page(leaders, page) == []
  {
  }

  lemma {:induction false} FirstPagesPrefix<T>(leaders: seq<T>, count: nat)
    ensures var m := if count * UsersPerPage < |leaders| then count * UsersPerPage else |leaders|;
      FirstPages(leaders, count) == leaders[..m]
  {
    if count > 0 {
      FirstPagesPrefix(leaders, count - 1);
      PageWindow(leaders, count - 1);
    }
  }

  /** Pages `0` to `total_pages - 1` together are the whole list, in order. */
  lemma PagesCoverLeaders<T>(leaders: seq<T>)
    ensures FirstPages(leaders, TotalPages(|leaders|)) == leaders
  {
    FirstPagesPrefix(leaders, TotalPages(|leaders|));
  }

  /**
   * Page -1 is empty, while page -2 of a full board of 50 users is users 10
   * to 29: `leaders[-40:-20]` counts from the end.
   */
  lemma NegativePages<T>(leaders: seq<T>)
    ensures Page(leaders, -1) == []
    ensures |leaders| == DefaultMaxUsers ==> Page(leaders, -2) == leaders[10..30]
  {
  }
}
