/**
 * `components/Dashboard.tsx`: the hockey widget (which game is live, which is next,
 * the countdown to it, the scoreboard, and the live-score polling effect), the meal
 * planner and the weekly-update generator. Times are whole milliseconds since the
 * epoch; the clock is a parameter.
 */
module Dashboard {
  import opened Types
  import opened Text
  import opened Seqs
  import opened GeminiService

  const SecondMs := 1000
  const MinuteMs := 60 * 1000
  const HourMs := 60 * 60 * 1000
  const DayMs := 24 * 60 * 60 * 1000
  const GameDurationMs := 3 * 60 * 60 * 1000

  // ---------------------------------------------------------------------------
  // mock schedule dates

  /** `getPastDate`, as milliseconds. */
  function PastTime(now: int, hours: nat, minutes: nat): (t: int)
    ensures t <= now
    ensures now - t == hours * HourMs + minutes * MinuteMs
  {
    now - hours * 3600000 - minutes * 60000
  }

  /** `getFutureDate`, as milliseconds. */
  function FutureTime(now: int, days: nat, hours: nat, minutes: nat): (t: int)
    ensures t >= now
    ensures t - now == days * DayMs + hours * HourMs + minutes * MinuteMs
  {
    now + days * 86400000 + hours * 3600000 + minutes * 60000
  }

  /** `MOCK_HOCKEY_SCHEDULE` as built when the module loads at time `now`. */
  function MockSchedule(now: int): (games: seq<HockeyGame>)
    ensures |games| == 4
    ensures forall i, j :: 0 <= i < j < |games| ==> games[i].id != games[j].id
  {
    [ HockeyGame("g0", "Ottawa Senators", PastTime(now, 1, 38), Home),
      HockeyGame("g1", "Toronto Maple Leafs", FutureTime(now, 1, 4, 30), Home),
      HockeyGame("g2", "Boston Bruins", FutureTime(now, 5, 2, 0), Away),
      HockeyGame("g3", "Florida Panthers", FutureTime(now, 10, 0, 0), Away) ]
  }

  // ---------------------------------------------------------------------------
  // the live game

  /** A game is live from its start to three hours after it, both ends included. */
  predicate IsLive(g: HockeyGame, now: int)
  {
    g.start <= now <= g.start + GameDurationMs
  }

  /** The position `games.find` stops at: the first live game in list order. */
  function FindLive(games: seq<HockeyGame>, now: int): (r: Option<nat>)
    ensures r.None? <==> forall i :: 0 <= i < |games| ==> !IsLive(games[i], now)
    ensures r.Some? ==> r.value < |games| && IsLive(games[r.value], now)
    ensures r.Some? ==> forall j :: 0 <= j < r.value ==> !IsLive(games[j], now)
  {
    if games == [] then None
    else if IsLive(games[0], now) then Some(0)
    else
      match FindLive(games[1..], now)
      case None => None
      case Some(i) => Some(i + 1)
  }

  /** `liveGame`: the first game, in list order, that is live now. */
  function LiveGame(games: seq<HockeyGame>, now: int): (r: Option<HockeyGame>)
    ensures r.None? <==> forall g :: g in games ==> !IsLive(g, now)
    ensures r.Some? ==> r.value in games && IsLive(r.value, now)
    ensures r.Some? ==> exists i :: 0 <= i < |games| && games[i] == r.value && forall j :: 0 <= j < i ==> !IsLive(games[j], now)
  {
    match FindLive(games, now)
    case None => None
    case Some(i) => Some(games[i])
  }

  // ---------------------------------------------------------------------------
  // the next game

  predicate SortedByStart(s: seq<HockeyGame>)
  {
    forall i, j :: 0 <= i < j < |s| ==> s[i].start <= s[j].start
  }

  /** Puts `g` before the first game that starts no earlier, so equal starts keep their order. */
  function InsertByStart(g: HockeyGame, s: seq<HockeyGame>): (r: seq<HockeyGame>)
    ensures multiset(r) == multiset(s) + multiset{g}
    ensures forall y :: y in r <==> y == g || y in s
  {
    if s == [] then [g]
    else if g.start <= s[0].start then [g] + s
    else
      assert s == [s[0]] + s[1..];
      [s[0]] + InsertByStart(g, s[1..])
  }

  /** Inserting into a sorted list keeps it sorted. */
  lemma {:induction false} InsertKeepsSorted(g: HockeyGame, s: seq<HockeyGame>)
    requires SortedByStart(s)
    ensures SortedByStart(InsertByStart(g, s))
  {
    if s != [] && g.start > s[0].start {
      var rest := InsertByStart(g, s[1..]);
      assert SortedByStart(s[1..]);
      InsertKeepsSorted(g, s[1..]);
      forall k | 0 <= k < |rest|
        ensures s[0].start <= rest[k].start
      {
        assert rest[k] in rest;
      }
    }
  }

  /** The comparator sort `(a, b) => start(a) - start(b)`; like the engine's, it is stable. */
  function SortByStart(s: seq<HockeyGame>): (r: seq<HockeyGame>)
    ensures SortedByStart(r)
    ensures multiset(r) == multiset(s)
  {
    if s == [] then []
    else
      assert s == [s[0]] + s[1..];
      var sorted := SortByStart(s[1..]);
      InsertKeepsSorted(s[0], sorted);
      InsertByStart(s[0], sorted)
  }

  /** The first of a sorted list starts no later than any of its games. */
  lemma SortedHeadIsEarliest(s: seq<HockeyGame>)
    requires SortedByStart(s) && |s| > 0
    ensures forall g :: g in s ==> s[0].start <= g.start
  {
    forall g | g in s ensures s[0].start <= g.start {
      var k :| 0 <= k < |s| && s[k] == g;
    }
  }

  /** `upcomingGames`: the games that start after now, earliest first. */
  function UpcomingGames(games: seq<HockeyGame>, now: int): (r: seq<HockeyGame>)
    ensures SortedByStart(r)
    ensures forall g :: g in r <==> g in games && g.start > now
  {
    var future := Filter(games, (g: HockeyGame) => g.start > now);
    var r := SortByStart(future);
    assert forall g :: g in r <==> g in future by {
      forall g ensures g in r <==> g in future {
        assert g in r <==> g in multiset(r);
      }
    }
    assert forall g :: g in future <==> g in games && g.start > now by {
      forall g ensures g in future <==> g in games && g.start > now {
        FilterMembership(games, (g: HockeyGame) => g.start > now, g);
      }
    }
    r
  }

  /** `nextGame`: none exactly when no game starts after now; otherwise a game that starts after
      now and no later than any other such game. */
  function NextGame(games: seq<HockeyGame>, now: int): (r: Option<HockeyGame>)
    ensures r.None? <==> forall g :: g in games ==> g.start <= now
    ensures r.Some? ==> r.value in games && r.value.start > now
    ensures r.Some? ==> forall g :: g in games && g.start > now ==> r.value.start <= g.start
  {
    var upcoming := UpcomingGames(games, now);
    if |upcoming| > 0 then
      assert upcoming[0] in upcoming;
      SortedHeadIsEarliest(upcoming);
      Some(upcoming[0])
    else
      None
  }

  /** The live game and the next game are never the same game: one has started, the other not. */
  lemma LiveIsNeverNext(games: seq<HockeyGame>, now: int)
    requires LiveGame(games, now).Some? && NextGame(games, now).Some?
    ensures LiveGame(games, now).value != NextGame(games, now).value
  {
  }

  /** The start times of the mock schedule built at time `now`. */
  lemma MockScheduleStarts(now: int)
    ensures |MockSchedule(now)| == 4
    ensures MockSchedule(now)[0].start == now - 5880000
    ensures MockSchedule(now)[1].start == now + 102600000
    ensures MockSchedule(now)[2].start == now + 439200000
    ensures MockSchedule(now)[3].start == now + 864000000
  {
  }

  /** With the mock schedule built at time `now` and the widget mounted then, the Ottawa game is
      live. */
  lemma MockScheduleLiveAtLoad(now: int)
    ensures LiveGame(MockSchedule(now), now) == Some(MockSchedule(now)[0])
  {
    var games := MockSchedule(now);
    MockScheduleStarts(now);
    assert IsLive(games[0], now);
    assert FindLive(games, now) == Some(0);
  }

  /** ... and the Toronto game is next. */
  lemma MockScheduleNextAtLoad(now: int)
    ensures NextGame(MockSchedule(now), now) == Some(MockSchedule(now)[1])
  {
    var games := MockSchedule(now);
    MockScheduleStarts(now);
    assert games[1] in games;
    var n := NextGame(games, now).value;
    assert n.start <= games[1].start;
    assert n != games[0] && n != games[2] && n != games[3];
  }

  // ---------------------------------------------------------------------------
  // the countdown

  datatype TimeLeft = TimeLeft(days: nat, hours: nat, minutes: nat, seconds: nat)

  function TotalMs(t: TimeLeft): nat
  {
    t.days * DayMs + t.hours * HourMs + t.minutes * MinuteMs + t.seconds * SecondMs
  }

  /** The countdown effect's arithmetic. A negative distance shows zeros; otherwise the parts are
      in range and add up to the distance rounded down to whole seconds. */
  function Countdown(distance: int): (t: TimeLeft)
    ensures distance < 0 ==> t == TimeLeft(0, 0, 0, 0)
    ensures distance >= 0 ==> t.hours < 24 && t.minutes < 60 && t.seconds < 60
    ensures distance >= 0 ==> TotalMs(t) <= distance < TotalMs(t) + 1000
  {
    if distance < 0 then TimeLeft(0, 0, 0, 0)
    else
      var days := distance / 86400000;
      var hours := (distance % 86400000) / 3600000;
      var minutes := (distance % 3600000) / 60000;
      var seconds := (distance % 60000) / 1000;
      CountdownParts(distance);
      TimeLeft(days, hours, minutes, seconds)
  }

  /** `k` whole multiples of `d` are at least one `d`. */
  lemma AtLeastOnce(k: int, d: int)
    requires k >= 1 && d > 0
    ensures k * d >= d
  {
    assert k * d == (k - 1) * d + d;
    assert (k - 1) * d >= 0;
  }

  /** Quotient and remainder are the only ones that rebuild `x` with a remainder below `d`. */
  lemma DivModUnique(x: int, q: int, r: int, d: int)
    requires d > 0 && 0 <= r < d && x == q * d + r
    ensures x / d == q && x % d == r
  {
    var q', r' := x / d, x % d;
    assert (q - q') * d == r' - r;
    if q > q' {
      AtLeastOnce(q - q', d);
    } else if q < q' {
      AtLeastOnce(q' - q, d);
    }
  }

  /** The mixed-radix facts behind `Countdown`. */
  lemma CountdownParts(distance: nat)
    ensures (distance % 86400000) / 3600000 < 24
    ensures (distance % 3600000) / 60000 < 60
    ensures (distance % 60000) / 1000 < 60
    ensures (distance / 86400000) * 86400000 + ((distance % 86400000) / 3600000) * 3600000
            + ((distance % 3600000) / 60000) * 60000 + ((distance % 60000) / 1000) * 1000
            == distance - distance % 1000
  {
    var d, r1 := distance / 86400000, distance % 86400000;
    var h, r2 := r1 / 3600000, r1 % 3600000;
    DivModUnique(distance, d * 24 + h, r2, 3600000);
    var m, r3 := r2 / 60000, r2 % 60000;
    DivModUnique(distance, (d * 24 + h) * 60 + m, r3, 60000);
    var s, r4 := r3 / 1000, r3 % 1000;
    DivModUnique(distance, ((d * 24 + h) * 60 + m) * 60 + s, r4, 1000);
  }

  /** The countdown reads back the parts a distance was made of: the decomposition is unique. */
  lemma CountdownOfParts(t: TimeLeft, ms: nat)
    requires t.hours < 24 && t.minutes < 60 && t.seconds < 60 && ms < 1000
    ensures Countdown(TotalMs(t) + ms) == t
  {
    var distance := TotalMs(t) + ms;
    var low3 := t.seconds * 1000 + ms;
    var low2 := t.minutes * 60000 + low3;
    var low1 := t.hours * 3600000 + low2;
    DivModUnique(distance, t.days, low1, 86400000);
    DivModUnique(low1, t.hours, low2, 3600000);
    DivModUnique(distance, t.days * 24 + t.hours, low2, 3600000);
    DivModUnique(low2, t.minutes, low3, 60000);
    DivModUnique(distance, (t.days * 24 + t.hours) * 60 + t.minutes, low3, 60000);
    DivModUnique(low3, t.seconds, ms, 1000);
  }

  /** A game scheduled with `getFutureDate(d, h, m)` counts down from exactly d days, h hours,
      m minutes and no seconds at the moment the schedule was built. */
  lemma CountdownToFutureDate(now: int, d: nat, h: nat, m: nat)
    requires h < 24 && m < 60
    ensures Countdown(FutureTime(now, d, h, m) - now) == TimeLeft(d, h, m, 0)
  {
    CountdownOfParts(TimeLeft(d, h, m, 0), 0);
  }

  // ---------------------------------------------------------------------------
  // the scoreboard

  /** `opponent.substring(0,3).toUpperCase()`. */
  function TeamLabel(opponent: string): (name: string)
    ensures |name| == if |opponent| < 3 then |opponent| else 3
    ensures forall i :: 0 <= i < |name| ==> name[i] == UpperChar(opponent[i])
  {
    ToUpperAscii(Take(opponent, 3))
  }

  datatype Scoreboard = Scoreboard(awayTeam: string, awayScore: Option<string>, homeTeam: string, homeScore: Option<string>)

  /** The live scoreboard: Montreal ("MTL") on the side of the game's location, the opponent's
      label on the other, and each side showing its own team's score. */
  function ScoreboardFor(game: HockeyGame, score: Option<LiveScore>): (b: Scoreboard)
    ensures game.location == Home ==> b.homeTeam == "MTL" && b.awayTeam == TeamLabel(game.opponent)
    ensures game.location == Away ==> b.awayTeam == "MTL" && b.homeTeam == TeamLabel(game.opponent)
    ensures score.None? ==> b.awayScore.None? && b.homeScore.None?
    ensures score.Some? && game.location == Home ==>
      b.homeScore == Some(score.value.mtlScore) && b.awayScore == Some(score.value.opponentScore)
    ensures score.Some? && game.location == Away ==>
      b.awayScore == Some(score.value.mtlScore) && b.homeScore == Some(score.value.opponentScore)
  {
    var opponentLabel := TeamLabel(game.opponent);
    var mtl := if score.Some? then Some(score.value.mtlScore) else None;
    var opp := if score.Some? then Some(score.value.opponentScore) else None;
    Scoreboard(
      if game.location == Away then "MTL" else opponentLabel,
      if game.location == Away then mtl else opp,
      if game.location == Home then "MTL" else opponentLabel,
      if game.location == Home then mtl else opp)
  }

  // ---------------------------------------------------------------------------
  // the widget's state

  /** `HockeyCountdown`. Besides the component's own state it keeps what React keeps for the
      live-score effect: the game id it last ran for, a counter that its cleanup advances (a
      fetch started before the last cleanup finds `isMounted` false), and the value of
      `isScoreLoading` its callback closed over. */
  class HockeyCountdown {
    const games: seq<HockeyGame>
    var currentTime: int
    var timeRemaining: TimeLeft
    var liveScore: Option<LiveScore>
    var isScoreLoading: bool
    var effectGameId: Option<string>
    var epoch: nat
    var capturedLoading: bool

    /** The live-score effect body, run after a render in which `liveGame?.id` changed. */
    method RunLiveScoreEffect()
      modifies this`liveScore, this`isScoreLoading, this`effectGameId, this`epoch, this`capturedLoading
      ensures effectGameId == IdOf(LiveGame(games, currentTime))
      ensures epoch == old(epoch) + 1
      ensures capturedLoading == old(isScoreLoading)
      ensures liveScore == None
      ensures isScoreLoading <==> LiveGame(games, currentTime).Some?
    {
      var live := LiveGame(games, currentTime);
      capturedLoading := isScoreLoading;
      epoch := epoch + 1;
      effectGameId := IdOf(live);
      isScoreLoading := live.Some?;
      liveScore := None;
    }

    /** The countdown effect. */
    method RunCountdownEffect()
      modifies this`timeRemaining
      ensures timeRemaining == CountdownAfter(games, currentTime, old(timeRemaining))
    {
      timeRemaining := CountdownAfter(games, currentTime, timeRemaining);
    }

    /** Mounting at time `now`: the initial state, then both effects. */
    constructor (schedule: seq<HockeyGame>, now: int)
      ensures games == schedule && currentTime == now
      ensures effectGameId == IdOf(LiveGame(schedule, now)) && liveScore == None
      ensures isScoreLoading <==> LiveGame(schedule, now).Some?
      ensures capturedLoading
      ensures timeRemaining == CountdownAfter(schedule, now, TimeLeft(0, 0, 0, 0))
    {
      games := schedule;
      currentTime := now;
      timeRemaining := TimeLeft(0, 0, 0, 0);
      liveScore := None;
      isScoreLoading := true;
      effectGameId := None;
      epoch := 0;
      capturedLoading := true;
      new;
      RunLiveScoreEffect();
      RunCountdownEffect();
    }

    /** The one-second timer: a new clock value, a render, and the effects whose inputs changed. */
    method Tick(now: int)
      modifies this`currentTime, this`timeRemaining, this`liveScore, this`isScoreLoading
      modifies this`effectGameId, this`epoch, this`capturedLoading
      ensures currentTime == now
      ensures IdOf(LiveGame(games, now)) == old(effectGameId) ==>
        && effectGameId == old(effectGameId) && epoch == old(epoch) && capturedLoading == old(capturedLoading)
        && liveScore == old(liveScore) && isScoreLoading == old(isScoreLoading)
      ensures IdOf(LiveGame(games, now)) != old(effectGameId) ==>
        && effectGameId == IdOf(LiveGame(games, now)) && epoch == old(epoch) + 1
        && capturedLoading == old(isScoreLoading) && liveScore == None
        && (isScoreLoading <==> LiveGame(games, now).Some?)
      ensures timeRemaining == CountdownAfter(games, now, old(timeRemaining))
    {
      currentTime := now;
      if IdOf(LiveGame(games, now)) != effectGameId {
        RunLiveScoreEffect();
      }
      RunCountdownEffect();
    }

    /** `fetchScore` resolving with what `getLiveGameScore` returned, as written: a fetch from
        before the last cleanup is ignored; a current one stores the score and clears the spinner
        only if the spinner was on when the effect ran. */
    method ScoreArrivedAsWritten(fromEpoch: nat, scoreData: Option<LiveScore>)
      modifies this`liveScore, this`isScoreLoading
      ensures fromEpoch != epoch ==> liveScore == old(liveScore) && isScoreLoading == old(isScoreLoading)
      ensures fromEpoch == epoch ==> liveScore == scoreData
      ensures fromEpoch == epoch ==> isScoreLoading == (old(isScoreLoading) && !capturedLoading)
    {
      if fromEpoch == epoch {
        liveScore := scoreData;
        if capturedLoading {
          isScoreLoading := false;
        }
      }
    }

    /** `fetchScore` resolving, corrected: a current fetch stores the score and always clears the
        spinner. */
    method ScoreArrived(fromEpoch: nat, scoreData: Option<LiveScore>)
      modifies this`liveScore, this`isScoreLoading
      ensures fromEpoch != epoch ==> liveScore == old(liveScore) && isScoreLoading == old(isScoreLoading)
      ensures fromEpoch == epoch ==> liveScore == scoreData && !isScoreLoading
    {
      if fromEpoch == epoch {
        liveScore := scoreData;
        isScoreLoading := false;
      }
    }
  }

  /** What the countdown effect leaves in `timeRemaining`: the previous value when there is no next
      game (it returns early), else the decomposed distance to the next game's start. */
  function CountdownAfter(games: seq<HockeyGame>, now: int, previous: TimeLeft): (t: TimeLeft)
    ensures NextGame(games, now).None? ==> t == previous
    ensures NextGame(games, now).Some? ==>
      var distance := NextGame(games, now).value.start - now;
      distance > 0 && t.hours < 24 && t.minutes < 60 && t.seconds < 60
      && TotalMs(t) <= distance < TotalMs(t) + 1000
  {
    match NextGame(games, now)
    case None => previous
    case Some(next) => Countdown(next.start - now)
  }

  /** The id of the live game, or none: the effect's dependency `liveGame?.id`. */
  function IdOf(g: Option<HockeyGame>): Option<string>
  {
    if g.Some? then Some(g.value.id) else None
  }

  const ScenarioScore := LiveScore("2", "1", "3", "10:00")

  /** The scenario's game, not yet live at time 0 and live at time 1000. */
  lemma ScenarioGame(game: HockeyGame)
    requires game == HockeyGame("g", "Boston Bruins", 1000, Away)
    ensures LiveGame([game], 0) == None && IdOf(LiveGame([game], 0)) == None
    ensures LiveGame([game], 1000) == Some(game) && IdOf(LiveGame([game], 1000)) == Some("g")
    ensures NextGame([game], 1000) == None
  {
    assert !IsLive(game, 0);
    assert FindLive([game], 0) == None by {
      assert [game][1..] == [];
    }
    assert IsLive(game, 1000);
  }

  /** The reply in the requested format parses back to the scenario's score. */
  lemma ScenarioReply()
    ensures ParseLiveScore(Answered(FormatScore(ScenarioScore))) == Some(ScenarioScore)
  {
    assert !IsJsWhitespace('2') && !IsJsWhitespace('0');
    ParseFormattedScore(ScenarioScore);
  }

  /** Mount before a game starts and let the clock reach its start: the live-score effect runs
      again, turns the spinner on and closes over the value it had just before, which was off. */
  method GameStartsWhileMounted() returns (w: HockeyCountdown)
    ensures fresh(w)
    ensures w.isScoreLoading && !w.capturedLoading && w.liveScore == None
  {
    var game := HockeyGame("g", "Boston Bruins", 1000, Away);
    ScenarioGame(game);
    w := new HockeyCountdown([game], 0);
    assert w.games == [game] && w.effectGameId == None && !w.isScoreLoading;
    w.Tick(1000);
  }

  /** ... then let the first score arrive: as written the score is stored but the spinner stays on. */
  method StuckSpinnerScenario() returns (loading: bool, score: Option<LiveScore>)
    ensures loading && score == Some(ScenarioScore)
  {
    var w := GameStartsWhileMounted();
    ScenarioReply();
    w.ScoreArrivedAsWritten(w.epoch, ParseLiveScore(Answered(FormatScore(ScenarioScore))));
    return w.isScoreLoading, w.liveScore;
  }

  /** The same steps with the corrected handler: the score is shown and the spinner is off. */
  method CorrectedScenario() returns (loading: bool, score: Option<LiveScore>)
    ensures !loading && score == Some(ScenarioScore)
  {
    var w := GameStartsWhileMounted();
    ScenarioReply();
    w.ScoreArrived(w.epoch, ParseLiveScore(Answered(FormatScore(ScenarioScore))));
    return w.isScoreLoading, w.liveScore;
  }

  // ---------------------------------------------------------------------------
  // the meal planner

  class MealPlanner {
    var query: string
    var plan: seq<MealPlanDay>
    var isLoading: bool

    constructor ()
      ensures query == [] && plan == [] && !isLoading
    {
      query, plan, isLoading := [], [], false;
    }

    method EditQuery(q: string)
      modifies this`query
      ensures query == q
    {
      query := q;
    }

    /** The part of `handleGenerate` before the `await`: a blank query sends nothing and keeps the
        current plan; otherwise loading starts, the plan is emptied and the query is sent. */
    method BeginGenerate() returns (sent: Option<string>)
      modifies this`plan, this`isLoading
      ensures IsBlank(query) ==> sent == None && plan == old(plan) && isLoading == old(isLoading)
      ensures !IsBlank(query) ==> sent == Some(query) && plan == [] && isLoading
    {
      if IsBlank(query) {
        return None;
      }
      isLoading := true;
      plan := [];
      return Some(query);
    }

    /** The part after the `await`: the service's plan (empty on any failure) and loading off. */
    method CompleteGenerate(reply: Reply, decode: string -> Option<seq<MealPlanDay>>)
      modifies this`plan, this`isLoading
      ensures plan == MealPlan(reply, decode) && !isLoading
    {
      plan := MealPlan(reply, decode);
      isLoading := false;
    }
  }

  // ---------------------------------------------------------------------------
  // the weekly-update generator

  class WeeklyUpdateGenerator {
    var updateText: string
    var isLoading: bool
    var isCopied: bool

    constructor ()
      ensures updateText == [] && !isLoading && !isCopied
    {
      updateText, isLoading, isCopied := [], false, false;
    }

    /** `handleGenerate` before the `await`: loading on, text and copy flag cleared. */
    method BeginGenerate()
      modifies this
      ensures isLoading && updateText == [] && !isCopied
    {
      isLoading, updateText, isCopied := true, [], false;
    }

    /** `handleGenerate` after the `await`: the update (or its apology) is shown. */
    method CompleteGenerate(reply: Reply)
      modifies this`updateText, this`isLoading
      ensures updateText == WeeklyUpdate(reply) && !isLoading
    {
      updateText := WeeklyUpdate(reply);
      isLoading := false;
    }

    /** `handleCopy`: nothing to copy changes nothing; otherwise the copied flag is raised. The
        clipboard write and the two-second reset timer are outside the model. */
    method Copy()
      modifies this`isCopied
      ensures updateText == [] ==> isCopied == old(isCopied)
      ensures updateText != [] ==> isCopied
    {
      if updateText == [] {
        return;
      }
      isCopied := true;
    }
  }
}
