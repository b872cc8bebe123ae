/*
 * The decision helpers of `fpl_logic.py`, applied to payloads that have
 * already been fetched: the current gameweek, fixture difficulty, the
 * heuristic next-gameweek prediction, the differential finder, injury risk,
 * league scoring, the form/fixture quadrants and the blank-player count.
 */
module FplLogic {
  import opened Collections
  import opened Sorting
  import opened FplData
  import Text

  // ---------------------------------------------------------------------------
  // Current gameweek
  // ---------------------------------------------------------------------------

  /** `get_current_gameweek`: the id of the first event marked current, else 0. */
  function CurrentGameweek(events: seq<Event>): int {
    if events == [] then 0
    else if events[0].isCurrent then events[0].id
    else CurrentGameweek(events[1..])
  }

  /** The first current event decides, whatever follows it. */
  lemma {:induction false} CurrentGameweekFirst(events: seq<Event>, k: nat)
    requires k < |events| && events[k].isCurrent
    requires forall j :: 0 <= j < k ==> !events[j].isCurrent
    ensures CurrentGameweek(events) == events[k].id
  {
    if k > 0 {
      CurrentGameweekFirst(events[1..], k - 1);
    }
  }

  /** With no current event the answer is 0. */
  lemma {:induction false} CurrentGameweekNone(events: seq<Event>)
    requires forall j :: 0 <= j < |events| ==> !events[j].isCurrent
    ensures CurrentGameweek(events) == 0
  {
    if events != [] {
      CurrentGameweekNone(events[1..]);
    }
  }

  // ---------------------------------------------------------------------------
  // Fixture difficulty
  // ---------------------------------------------------------------------------

  /** The club's fixtures from the gameweek on, in list order, cut by `[:num_games]`. */
  function TeamFixtures(team: int, currentGameweek: int, fixtures: seq<Fixture>, numGames: int): seq<Fixture> {
    Take(Filter(fixtures, f => Upcoming(f, currentGameweek) && Involves(f, team)), numGames)
  }

  /** The difficulty of a fixture for the club: the home side's when it plays at home. */
  function Difficulty(f: Fixture, team: int): int {
    if f.teamH == team then f.teamHDifficulty else f.teamADifficulty
  }

  function TotalDifficulty(fs: seq<Fixture>, team: int): int {
    if fs == [] then 0 else TotalDifficulty(fs[..|fs| - 1], team) + Difficulty(fs[|fs| - 1], team)
  }

  /** `get_avg_fdr`: 3.0 without fixtures, else the mean difficulty of the next `num_games`. */
  function AvgFdr(team: int, currentGameweek: int, fixtures: seq<Fixture>, numGames: int): real {
    var fs := TeamFixtures(team, currentGameweek, fixtures, numGames);
    if fs == [] then 3.0 else TotalDifficulty(fs, team) as real / |fs| as real
  }

  /** The summing loop of `get_avg_fdr`. */
  method GetAvgFdr(team: int, currentGameweek: int, fixtures: seq<Fixture>, numGames: int) returns (r: real)
    ensures r == AvgFdr(team, currentGameweek, fixtures, numGames)
  {
    var teamFixtures := Take(Filter(fixtures, f => Upcoming(f, currentGameweek) && Involves(f, team)), numGames);
    if teamFixtures == [] {
      return 3.0;
    }
    var total := 0;
    for i := 0 to |teamFixtures|
      invariant total == TotalDifficulty(teamFixtures[..i], team)
    {
      assert teamFixtures[..i + 1][..i] == teamFixtures[..i];
      if teamFixtures[i].teamH == team {
        total := total + teamFixtures[i].teamHDifficulty;
      } else {
        total := total + teamFixtures[i].teamADifficulty;
      }
    }
    assert teamFixtures[..|teamFixtures|] == teamFixtures;
    r := total as real / |teamFixtures| as real;
  }

  /** A club without an upcoming fixture gets the neutral 3.0. */
  lemma {:induction false} AvgFdrNeutral(team: int, currentGameweek: int, fixtures: seq<Fixture>, numGames: int)
    requires forall f :: f in fixtures && Upcoming(f, currentGameweek) ==> !Involves(f, team)
    ensures AvgFdr(team, currentGameweek, fixtures, numGames) == 3.0
  {
    FilterNone(fixtures, f => Upcoming(f, currentGameweek) && Involves(f, team));
  }

  lemma {:induction false} TotalDifficultyBounds(fs: seq<Fixture>, team: int, lo: int, hi: int)
    requires forall i :: 0 <= i < |fs| ==> lo <= Difficulty(fs[i], team) <= hi
    ensures |fs| * lo <= TotalDifficulty(fs, team) <= |fs| * hi
  {
    if fs != [] {
      TotalDifficultyBounds(fs[..|fs| - 1], team, lo, hi);
    }
  }

  lemma {:induction false} MeanBounds(total: int, n: int, lo: int, hi: int)
    requires n > 0 && n * lo <= total <= n * hi
    ensures lo as real <= total as real / n as real <= hi as real
  {
    var q := total as real / n as real;
    var nr := n as real;
    assert q * nr == total as real;
    assert (q - lo as real) * nr >= 0.0;
    assert (hi as real - q) * nr >= 0.0;
  }

  /** The average lies between any bounds on the difficulties averaged: between their min and max. */
  lemma {:induction false} AvgFdrBounds(team: int, currentGameweek: int, fixtures: seq<Fixture>, numGames: int, lo: int, hi: int)
    requires TeamFixtures(team, currentGameweek, fixtures, numGames) != []
    requires forall f :: f in TeamFixtures(team, currentGameweek, fixtures, numGames) ==> lo <= Difficulty(f, team) <= hi
    ensures lo as real <= AvgFdr(team, currentGameweek, fixtures, numGames) <= hi as real
  {
    var fs := TeamFixtures(team, currentGameweek, fixtures, numGames);
    TotalDifficultyBounds(fs, team, lo, hi);
    MeanBounds(TotalDifficulty(fs, team), |fs|, lo, hi);
  }

  // ---------------------------------------------------------------------------
  // Heuristic predictions
  // ---------------------------------------------------------------------------

  /** A club's attack (home + away) and defence (home + away) strength. */
  datatype Strength = Strength(attack: int, defence: int)

  /** `team_strength_map`; a repeated club id keeps its last entry. */
  function StrengthMap(teams: seq<Team>): map<int, Strength> {
    if teams == [] then map[]
    else
      var t := teams[|teams| - 1];
      StrengthMap(teams[..|teams| - 1])[t.id := Strength(t.strengthAttackHome + t.strengthAttackAway,
                                                         t.strengthDefenceHome + t.strengthDefenceAway)]
  }

  /** A club's next opponent and whether it plays at home. */
  datatype Opponent = Opponent(opponent: int, isHome: bool)

  /** The fixtures of one gameweek, in list order. */
  function GameweekFixtures(fixtures: seq<Fixture>, gameweek: int): seq<Fixture> {
    Filter(fixtures, (f: Fixture) => f.event == Some(gameweek))
  }

  /** The `next_opponents` loop: each fixture assigns its home club, then its away club. */
  function Assign(fs: seq<Fixture>): map<int, Opponent> {
    if fs == [] then map[]
    else
      var f := fs[|fs| - 1];
      Assign(fs[..|fs| - 1])[f.teamH := Opponent(f.teamA, true)][f.teamA := Opponent(f.teamH, false)]
  }

  function NextOpponents(fixtures: seq<Fixture>, gameweek: int): map<int, Opponent> {
    Assign(GameweekFixtures(fixtures, gameweek))
  }

  /** The entry a fixture leaves for a club it involves (the away assignment comes second). */
  function OpponentIn(f: Fixture, team: int): Opponent {
    if f.teamA == team then Opponent(f.teamH, false) else Opponent(f.teamA, true)
  }

  /** The last fixture of the gameweek that involves a club decides its opponent. */
  lemma {:induction false} LastFixtureWins(fs: seq<Fixture>, k: nat, team: int)
    requires k < |fs| && Involves(fs[k], team)
    requires forall j :: k < j < |fs| ==> !Involves(fs[j], team)
    ensures team in Assign(fs) && Assign(fs)[team] == OpponentIn(fs[k], team)
  {
    if k < |fs| - 1 {
      LastFixtureWins(fs[..|fs| - 1], k, team);
    }
  }

  /** A club has an entry exactly when some fixture of the list involves it. */
  lemma {:induction false} AssignKeys(fs: seq<Fixture>, team: int)
    ensures team in Assign(fs) <==> exists f :: f in fs && Involves(f, team)
  {
    if fs != [] {
      var init := fs[..|fs| - 1];
      AssignKeys(init, team);
      assert fs == init + [fs[|fs| - 1]];
      if team in Assign(init) {
        var f :| f in init && Involves(f, team);
        assert f in fs;
      }
      assert fs[|fs| - 1] in fs;
      if exists f :: f in fs && Involves(f, team) {
        var f :| f in fs && Involves(f, team);
        if f != fs[|fs| - 1] {
          assert f in init;
        }
      }
    }
  }

  /** `all_players`: available players by id, in first-seen order, a repeated id keeping its last record. */
  function AvailablePlayers(elements: seq<Element>): Dict<int, Element> {
    if elements == [] then []
    else
      var p := elements[|elements| - 1];
      var prev := AvailablePlayers(elements[..|elements| - 1]);
      if Available(p) then Put(prev, p.id, p) else prev
  }

  /** Each entry is an available player of the list, filed under its own id, and ids are distinct. */
  lemma {:induction false} AvailablePlayersSound(elements: seq<Element>)
    ensures DistinctKeys(AvailablePlayers(elements))
    ensures forall i :: 0 <= i < |AvailablePlayers(elements)| ==>
      AvailablePlayers(elements)[i].1.id == AvailablePlayers(elements)[i].0
      && Available(AvailablePlayers(elements)[i].1) && AvailablePlayers(elements)[i].1 in elements
  {
    if elements != [] {
      var init := elements[..|elements| - 1];
      var p := elements[|elements| - 1];
      var prev := AvailablePlayers(init);
      AvailablePlayersSound(init);
      if Available(p) {
        PutDistinct(prev, p.id, p);
        PutEntries(prev, p.id, p);
      }
      var r := AvailablePlayers(elements);
      forall i | 0 <= i < |r| ensures r[i].1 in elements {
        if r[i].1 != p {
          assert r[i].1 in init;
        }
      }
    }
  }

  /** Every entry after `d[k] = v` is an old entry or `(k, v)`. */
  lemma {:induction false} PutEntries<K, V>(d: Dict<K, V>, k: K, v: V)
    ensures forall i :: 0 <= i < |Put(d, k, v)| ==> Put(d, k, v)[i] in d || Put(d, k, v)[i] == (k, v)
  {
    if d != [] && d[0].0 != k {
      PutEntries(d[1..], k, v);
    }
  }

  /**
   * A player's heuristic score: `0.6 * form + 0.1 * ict`, plus the attack/defence
   * difference over 200, plus 0.25 at home, floored at 0. None where the loop
   * `continue`s: no fixture in the gameweek, or a club missing from the strength map.
   */
  function PredictionOf(p: Element, strengths: map<int, Strength>, opponents: map<int, Opponent>): (r: Option<real>)
    ensures r.Some? ==> r.value >= 0.0
    ensures r.Some? <==> p.team in opponents && p.team in strengths && opponents[p.team].opponent in strengths
  {
    var baseScore := p.form * 0.6 + p.ictIndex * 0.1;
    if p.team !in opponents then None
    else
      var fixture := opponents[p.team];
      if p.team !in strengths || fixture.opponent !in strengths then None
      else
        var attackModifier := (strengths[p.team].attack - strengths[fixture.opponent].defence) as real / 200.0;
        var homeAdvantage := if fixture.isHome then 0.25 else 0.0;
        var prediction := baseScore + attackModifier + homeAdvantage;
        Some(if 0.0 >= prediction then 0.0 else prediction)
  }

  /** The predictions loop over `all_players`. */
  function PredictionsFrom(players: Dict<int, Element>, strengths: map<int, Strength>,
                           opponents: map<int, Opponent>): (r: map<int, real>)
    ensures forall id :: id in r ==> r[id] >= 0.0
  {
    if players == [] then map[]
    else
      var prev := PredictionsFrom(players[..|players| - 1], strengths, opponents);
      var (id, p) := players[|players| - 1];
      match PredictionOf(p, strengths, opponents)
      case Some(v) => prev[id := v]
      case None => prev
  }

  /** `get_predictions`: player id to heuristic score for the gameweek after the current one. */
  function Predictions(b: Bootstrap, fixtures: seq<Fixture>, currentGameweek: int): map<int, real> {
    PredictionsFrom(AvailablePlayers(b.elements), StrengthMap(b.teams), NextOpponents(fixtures, currentGameweek + 1))
  }

  /** One pass of the predictions loop. */
  method PredictPlayer(predictions: map<int, real>, id: int, p: Element,
                       strengths: map<int, Strength>, opponents: map<int, Opponent>)
    returns (next: map<int, real>)
    ensures next == match PredictionOf(p, strengths, opponents)
                    case Some(v) => predictions[id := v]
                    case None => predictions
  {
    next := predictions;
    var baseScore := p.form * 0.6 + p.ictIndex * 0.1;
    if p.team !in opponents {
      return;
    }
    var fixture := opponents[p.team];
    if p.team !in strengths || fixture.opponent !in strengths {
      return;
    }
    var attackModifier := (strengths[p.team].attack - strengths[fixture.opponent].defence) as real / 200.0;
    var homeAdvantage := if fixture.isHome then 0.25 else 0.0;
    var prediction := baseScore + attackModifier + homeAdvantage;
    next := predictions[id := if 0.0 >= prediction then 0.0 else prediction];
  }

  /** `get_predictions`, with its two loops. */
  method GetPredictions(b: Bootstrap, fixtures: seq<Fixture>, currentGameweek: int) returns (predictions: map<int, real>)
    ensures predictions == Predictions(b, fixtures, currentGameweek)
  {
    var nextGameweek := currentGameweek + 1;
    var strengths := StrengthMap(b.teams);
    var nextGwFixtures := GameweekFixtures(fixtures, nextGameweek);
    var opponents: map<int, Opponent> := map[];
    for i := 0 to |nextGwFixtures|
      invariant opponents == Assign(nextGwFixtures[..i])
    {
      assert nextGwFixtures[..i + 1][..i] == nextGwFixtures[..i];
      var f := nextGwFixtures[i];
      opponents := opponents[f.teamH := Opponent(f.teamA, true)];
      opponents := opponents[f.teamA := Opponent(f.teamH, false)];
    }
    assert nextGwFixtures[..|nextGwFixtures|] == nextGwFixtures;
    var players := AvailablePlayers(b.elements);
    predictions := map[];
    for i := 0 to |players|
      invariant predictions == PredictionsFrom(players[..i], strengths, opponents)
    {
      assert players[..i + 1][..i] == players[..i];
      predictions := PredictPlayer(predictions, players[i].0, players[i].1, strengths, opponents);
    }
    assert players[..|players|] == players;
  }

  /** With distinct ids, an id is predicted exactly when its player's score is defined. */
  lemma {:induction false} PredictionsFromKeys(players: Dict<int, Element>, strengths: map<int, Strength>,
                                               opponents: map<int, Opponent>, id: int)
    requires DistinctKeys(players)
    ensures id in PredictionsFrom(players, strengths, opponents) <==>
      exists i :: 0 <= i < |players| && players[i].0 == id && PredictionOf(players[i].1, strengths, opponents).Some?
  {
    if players != [] {
      var init := players[..|players| - 1];
      DistinctLast(players);
      PredictionsFromKeys(init, strengths, opponents, id);
      if id in PredictionsFrom(init, strengths, opponents) {
        var i :| 0 <= i < |init| && init[i].0 == id && PredictionOf(init[i].1, strengths, opponents).Some?;
        assert players[i] == init[i];
      }
      if exists i :: 0 <= i < |players| && players[i].0 == id && PredictionOf(players[i].1, strengths, opponents).Some? {
        var i :| 0 <= i < |players| && players[i].0 == id && PredictionOf(players[i].1, strengths, opponents).Some?;
        if i < |init| {
          assert init[i] == players[i];
        }
      }
    }
  }

  /**
   * Every predicted id belongs to an available player of the bootstrap whose
   * club has a fixture in the next gameweek, and every prediction is at least 0.
   */
  lemma {:induction false} PredictionsSound(b: Bootstrap, fixtures: seq<Fixture>, currentGameweek: int, id: int)
    requires id in Predictions(b, fixtures, currentGameweek)
    ensures Predictions(b, fixtures, currentGameweek)[id] >= 0.0
    ensures exists p :: p in b.elements && p.id == id && Available(p)
                        && exists f :: f in fixtures && f.event == Some(currentGameweek + 1) && Involves(f, p.team)
  {
    var players := AvailablePlayers(b.elements);
    var opponents := NextOpponents(fixtures, currentGameweek + 1);
    AvailablePlayersSound(b.elements);
    PredictionsFromKeys(players, StrengthMap(b.teams), opponents, id);
    var i :| 0 <= i < |players| && players[i].0 == id && PredictionOf(players[i].1, StrengthMap(b.teams), opponents).Some?;
    var p := players[i].1;
    AssignKeys(GameweekFixtures(fixtures, currentGameweek + 1), p.team);
    var f :| f in GameweekFixtures(fixtures, currentGameweek + 1) && Involves(f, p.team);
    assert f in fixtures && f.event == Some(currentGameweek + 1);
  }

  // ---------------------------------------------------------------------------
  // Differential hunter
  // ---------------------------------------------------------------------------

  const DifferentialOwnershipThreshold: real := 5.0
  const InvalidSortKeyMessage: string := "Invalid sort key provided."

  /** Owned by fewer than 5 per cent of managers. */
  predicate IsDifferential(p: Element) {
    p.selectedByPercent < DifferentialOwnershipThreshold
  }

  function Differentials(elements: seq<Element>): seq<Element> {
    Filter(elements, IsDifferential)
  }

  lemma {:induction false} DifferentialIn(elements: seq<Element>, x: Element)
    requires x in Differentials(elements)
    ensures IsDifferential(x) && x in elements
  {
    var all := Differentials(elements);
    var j :| 0 <= j < |all| && all[j] == x;
  }

  /** The sort key and column label for `sort_by`, when it names one of the three known keys. */
  function SortKeyFor(sortBy: string): Option<(Element -> real, string)> {
    if sortBy == "form" then Some(((p: Element) => p.form, "Form"))
    else if sortBy == "total_points" then Some(((p: Element) => p.totalPoints as real, "Points"))
    else if sortBy == "ict_index" then Some(((p: Element) => p.ictIndex, "ICT"))
    else None
  }

  /** The result of `get_differential_hunter_data`: the error record, or the listed players. */
  datatype DifferentialReport =
    | InvalidSortKey(content: string)
    | DifferentialTable(column: string, players: seq<Element>)

  /**
   * `get_differential_hunter_data`: at most 20 differentials, best first by the
   * chosen key; an unknown key gives the 'Invalid sort key' record.
   */
  function DifferentialHunter(elements: seq<Element>, sortBy: string): (r: DifferentialReport)
    ensures r.InvalidSortKey? <==> sortBy != "form" && sortBy != "total_points" && sortBy != "ict_index"
    ensures r.InvalidSortKey? ==> r.content == InvalidSortKeyMessage
    ensures r.DifferentialTable? ==>
      |r.players| <= 20 && NonIncreasing(r.players, SortKeyFor(sortBy).value.0)
      && |r.players| == (if |Differentials(elements)| < 20 then |Differentials(elements)| else 20)
      && multiset(r.players) <= multiset(Differentials(elements))
      && forall i :: 0 <= i < |r.players| ==> IsDifferential(r.players[i]) && r.players[i] in elements
  {
    match SortKeyFor(sortBy)
    case None => InvalidSortKey(InvalidSortKeyMessage)
    case Some((key, column)) =>
      var all := Differentials(elements);
      var sorted := SortDesc(all, key);
      var top := Take(sorted, 20);
      SortedPrefix(all, key, |top|);
      forall i | 0 <= i < |top| ensures IsDifferential(top[i]) && top[i] in elements {
        DifferentialIn(elements, top[i]);
      }
      DifferentialTable(column, top)
  }

  /** No differential left out of the table ranks above the last one listed. */
  lemma {:induction false} DifferentialsTopK(elements: seq<Element>, sortBy: string)
    requires DifferentialHunter(elements, sortBy).DifferentialTable?
    requires DifferentialHunter(elements, sortBy).players != []
    ensures var players := DifferentialHunter(elements, sortBy).players;
            var key := SortKeyFor(sortBy).value.0;
            forall x :: x in multiset(Differentials(elements)) - multiset(players) ==>
              key(x) <= key(players[|players| - 1])
  {
    var key := SortKeyFor(sortBy).value.0;
    var all := Differentials(elements);
    var players := DifferentialHunter(elements, sortBy).players;
    assert players == Take(SortDesc(all, key), 20);
    TopK(all, key, |players|);
  }

  // ---------------------------------------------------------------------------
  // Injury risk
  // ---------------------------------------------------------------------------

  const RiskKeywords: seq<string> := ["knock", "doubt", "assessment", "rest", "miss", "late test"]
  const DoubtfulReason: string := "Flagged as doubtful"
  const CommentsReason: string := "Manager comments"

  predicate Doubtful(p: Element) {
    p.status == "d"
  }

  /** `any(keyword in news for keyword in keywords)`. */
  predicate AnyKeyword(news: string, keywords: seq<string>) {
    keywords != [] && (Text.Contains(news, keywords[0]) || AnyKeyword(news, keywords[1..]))
  }

  /** The lower-cased news is non-empty and mentions a risk keyword. */
  predicate NewsFlagged(p: Element) {
    var news := Text.Lower(p.news);
    news != [] && AnyKeyword(news, RiskKeywords)
  }

  /** A chance of playing is given and is below 100. */
  predicate ChanceFlagged(p: Element) {
    p.chance.Some? && p.chance.value < 100
  }

  /** `calculate_risk`'s score: 4 for doubtful, 2 for worrying news, 3 for a reduced chance. */
  function RiskScore(p: Element): (r: int)
    ensures 0 <= r <= 9
    ensures r > 0 <==> Doubtful(p) || NewsFlagged(p) || ChanceFlagged(p)
  {
    (if Doubtful(p) then 4 else 0) + (if NewsFlagged(p) then 2 else 0) + (if ChanceFlagged(p) then 3 else 0)
  }

  /** The score tells which checks fired: no two sets of checks give the same score. */
  lemma {:induction false} RiskScoreDecodes(p: Element, q: Element)
    requires RiskScore(p) == RiskScore(q)
    ensures Doubtful(p) == Doubtful(q) && NewsFlagged(p) == NewsFlagged(q) && ChanceFlagged(p) == ChanceFlagged(q)
  {
  }

  function ChanceReason(chance: int): string {
    Text.IntString(chance) + "% chance of playing"
  }

  /** The reasons `calculate_risk` gives, one per check that fired, without duplicates. */
  function RiskReasons(p: Element): set<string> {
    (if Doubtful(p) then {DoubtfulReason} else {})
    + (if NewsFlagged(p) then {CommentsReason} else {})
    + (if ChanceFlagged(p) then {ChanceReason(p.chance.value)} else {})
  }

  /** `calculate_risk`. */
  method CalculateRisk(p: Element) returns (score: int, reasons: set<string>)
    ensures score == RiskScore(p) && reasons == RiskReasons(p)
  {
    score := 0;
    var found: seq<string> := [];
    if p.status == "d" {
      score := score + 4;
      found := found + [DoubtfulReason];
    }
    var news := Text.Lower(p.news);
    if news != [] {
      if AnyKeyword(news, RiskKeywords) {
        score := score + 2;
        found := found + [CommentsReason];
      }
    }
    if p.chance.Some? && p.chance.value < 100 {
      score := score + 3;
      found := found + [ChanceReason(p.chance.value)];
    }
    reasons := set r | r in found;
  }

  /** A row of the at-risk table. */
  datatype RiskRow = RiskRow(name: string, team: string, news: string, score: int, reasons: set<string>)

  /** `team_map.get(team, 'N/A')`. */
  function TeamName(teamMap: map<int, string>, team: int): string {
    if team in teamMap then teamMap[team] else "N/A"
  }

  function RiskRowOf(p: Element, teamMap: map<int, string>): RiskRow {
    RiskRow(p.webName, TeamName(teamMap, p.team), p.news, RiskScore(p), RiskReasons(p))
  }

  /** The players with a positive score, in list order. */
  function AtRisk(elements: seq<Element>, teamMap: map<int, string>): (r: seq<RiskRow>)
    ensures |r| <= |elements|
    ensures forall i :: 0 <= i < |r| ==> 0 < r[i].score <= 9
  {
    if elements == [] then []
    else
      var prev := AtRisk(elements[..|elements| - 1], teamMap);
      var p := elements[|elements| - 1];
      if RiskScore(p) > 0 then prev + [RiskRowOf(p, teamMap)] else prev
  }

  /** Every player with a positive score has its row in the list. */
  lemma {:induction false} AtRiskComplete(elements: seq<Element>, teamMap: map<int, string>, k: nat)
    requires k < |elements| && RiskScore(elements[k]) > 0
    ensures RiskRowOf(elements[k], teamMap) in AtRisk(elements, teamMap)
  {
    if k < |elements| - 1 {
      AtRiskComplete(elements[..|elements| - 1], teamMap, k);
    }
  }

  function ScoreKey(r: RiskRow): real {
    r.score as real
  }

  /** The 25 highest scores, ties in list order. */
  function TopRisks(atRisk: seq<RiskRow>): (r: seq<RiskRow>)
    requires forall i :: 0 <= i < |atRisk| ==> 0 < atRisk[i].score <= 9
    ensures |r| == if |atRisk| < 25 then |atRisk| else 25
    ensures NonIncreasing(r, ScoreKey)
    ensures multiset(r) <= multiset(atRisk)
    ensures forall i :: 0 <= i < |r| ==> 0 < r[i].score <= 9
  {
    var sorted := SortDesc(atRisk, ScoreKey);
    var top := Take(sorted, 25);
    assert sorted == top + sorted[|top|..];
    assert multiset(top) <= multiset(atRisk);
    forall i | 0 <= i < |top| ensures 0 < top[i].score <= 9 {
      assert top[i] in multiset(top);
      assert top[i] in atRisk;
    }
    top
  }

  /** No at-risk row left out of the 25 has a higher score than the last one listed. */
  lemma {:induction false} TopRisksTopK(atRisk: seq<RiskRow>)
    requires forall i :: 0 <= i < |atRisk| ==> 0 < atRisk[i].score <= 9
    requires atRisk != []
    ensures var r := TopRisks(atRisk);
      forall x :: x in multiset(atRisk) - multiset(r) ==> x.score <= r[|r| - 1].score
  {
    var r := TopRisks(atRisk);
    assert r == Take(SortDesc(atRisk, ScoreKey), 25);
    TopK(atRisk, ScoreKey, |r|);
  }

  /** One row of the table, with `calculate_risk` supplying the score and the reasons. */
  method RiskRowFor(p: Element, teamMap: map<int, string>) returns (row: RiskRow)
    ensures row == RiskRowOf(p, teamMap)
  {
    var score, reasons := CalculateRisk(p);
    row := RiskRow(p.webName, TeamName(teamMap, p.team), p.news, score, reasons);
  }

  /** The ranking of `get_injury_risk_analyzer_string`. */
  method InjuryRiskRanking(elements: seq<Element>, teamMap: map<int, string>) returns (rows: seq<RiskRow>)
    ensures rows == TopRisks(AtRisk(elements, teamMap))
  {
    var atRisk: seq<RiskRow> := [];
    for i := 0 to |elements|
      invariant atRisk == AtRisk(elements[..i], teamMap)
    {
      assert elements[..i + 1][..i] == elements[..i];
      var row := RiskRowFor(elements[i], teamMap);
      if row.score > 0 {
        atRisk := atRisk + [row];
      }
    }
    assert elements[..|elements|] == elements;
    rows := Take(SortDesc(atRisk, ScoreKey), 25);
  }

  // ---------------------------------------------------------------------------
  // League predictions
  // ---------------------------------------------------------------------------

  const DefaultLeagueId: int := 12345
  const LeagueIdMessage: string := "\nError: Please update the LEAGUE_ID in your config file."

  /** A row of `league_data['standings']['results']`. */
  datatype Manager = Manager(playerName: string, entry: int)

  /** `predictions.get(id, 0.0)`. */
  function PredictionFor(predictions: map<int, real>, id: int): real {
    if id in predictions then predictions[id] else 0.0
  }

  /** `starting_lineup_ids`: the picks with a positive multiplier, in pick order. */
  function StarterIds(picks: seq<Pick>): seq<int> {
    if picks == [] then []
    else
      var prev := StarterIds(picks[..|picks| - 1]);
      if picks[|picks| - 1].multiplier > 0 then prev + [picks[|picks| - 1].element] else prev
  }

  /** `captain_id`: the first pick marked captain, if any. */
  function CaptainId(picks: seq<Pick>): Option<int> {
    if picks == [] then None
    else if picks[0].isCaptain then Some(picks[0].element)
    else CaptainId(picks[1..])
  }

  function StartersTotal(ids: seq<int>, predictions: map<int, real>): real {
    if ids == [] then 0.0 else StartersTotal(ids[..|ids| - 1], predictions) + PredictionFor(predictions, ids[|ids| - 1])
  }

  /** A manager's predicted score: the starters' predictions, plus the captain's once more if the captain starts. */
  function ManagerScore(picks: seq<Pick>, predictions: map<int, real>): real {
    var starters := StarterIds(picks);
    var captain := CaptainId(picks);
    StartersTotal(starters, predictions)
      + if captain.Some? && captain.value in starters then PredictionFor(predictions, captain.value) else 0.0
  }

  /** The scoring inside the manager loop of `get_league_predictions_string`. */
  method PredictManagerScore(picks: seq<Pick>, predictions: map<int, real>) returns (total: real)
    ensures total == ManagerScore(picks, predictions)
  {
    total := 0.0;
    var starters := StarterIds(picks);
    var captain := CaptainId(picks);
    for i := 0 to |starters|
      invariant total == StartersTotal(starters[..i], predictions)
    {
      assert starters[..i + 1][..i] == starters[..i];
      total := total + PredictionFor(predictions, starters[i]);
    }
    assert starters[..|starters|] == starters;
    if captain.Some? && captain.value in starters {
      total := total + PredictionFor(predictions, captain.value);
    }
  }

  /** An independent reading of the score: each starter counts once, the captain twice. */
  function WeightedTotal(picks: seq<Pick>, captain: Option<int>, predictions: map<int, real>): real {
    if picks == [] then 0.0
    else
      var p := picks[|picks| - 1];
      var weight := if captain == Some(p.element) then 2.0 else 1.0;
      WeightedTotal(picks[..|picks| - 1], captain, predictions)
        + if p.multiplier > 0 then weight * PredictionFor(predictions, p.element) else 0.0
  }

  predicate Distinct(ids: seq<int>) {
    forall i, j :: 0 <= i < j < |ids| ==> ids[i] != ids[j]
  }

  lemma {:induction false} WeightedTotalSplit(picks: seq<Pick>, c: int, predictions: map<int, real>)
    requires Distinct(StarterIds(picks))
    ensures WeightedTotal(picks, Some(c), predictions)
         == StartersTotal(StarterIds(picks), predictions)
            + if c in StarterIds(picks) then PredictionFor(predictions, c) else 0.0
  {
    if picks != [] {
      var init := picks[..|picks| - 1];
      var p := picks[|picks| - 1];
      var prev := StarterIds(init);
      assert Distinct(prev) by {
        if p.multiplier > 0 {
          assert forall i :: 0 <= i < |prev| ==> prev[i] == StarterIds(picks)[i];
        }
      }
      WeightedTotalSplit(init, c, predictions);
      if p.multiplier > 0 {
        var ids := prev + [p.element];
        assert ids[..|ids| - 1] == prev;
        assert c in ids <==> c in prev || c == p.element;
        if c == p.element {
          assert c !in prev by {
            forall i | 0 <= i < |prev| ensures prev[i] != c {
              assert ids[i] == prev[i] && ids[|prev|] == c;
            }
          }
        }
      }
    }
  }

  /** With no player picked twice, the captain's prediction counts twice when the captain starts. */
  lemma {:induction false} CaptainCountedTwice(picks: seq<Pick>, predictions: map<int, real>)
    requires Distinct(StarterIds(picks))
    ensures ManagerScore(picks, predictions) == WeightedTotal(picks, CaptainId(picks), predictions)
  {
    if CaptainId(picks).Some? {
      WeightedTotalSplit(picks, CaptainId(picks).value, predictions);
    } else {
      NoCaptainTotal(picks, predictions);
    }
  }

  lemma {:induction false} NoCaptainTotal(picks: seq<Pick>, predictions: map<int, real>)
    ensures WeightedTotal(picks, None, predictions) == StartersTotal(StarterIds(picks), predictions)
  {
    if picks != [] {
      var init := picks[..|picks| - 1];
      NoCaptainTotal(init, predictions);
      if picks[|picks| - 1].multiplier > 0 {
        var ids := StarterIds(init) + [picks[|picks| - 1].element];
        assert ids[..|ids| - 1] == StarterIds(init);
      }
    }
  }

  /**
   * `manager_scores` for the managers given: a manager whose picks cannot be
   * fetched (`picksOf` gives None) is skipped.
   */
  function ManagerScores(managers: seq<Manager>, picksOf: int -> Option<seq<Pick>>,
                         predictions: map<int, real>): (r: seq<(string, real)>)
    ensures |r| <= |managers|
  {
    if managers == [] then []
    else
      var prev := ManagerScores(managers[..|managers| - 1], picksOf, predictions);
      var m := managers[|managers| - 1];
      match picksOf(m.entry)
      case None => prev
      case Some(picks) => prev + [(m.playerName, ManagerScore(picks, predictions))]
  }

  function ScoreOf(item: (string, real)): real {
    item.1
  }

  /**
   * The standings computed by `get_league_predictions_string` for the first 15
   * managers, best first, ties in standings order; the placeholder league id
   * gives the configuration error text instead.
   */
  method LeaguePredictions(leagueId: int, b: Bootstrap, fixtures: seq<Fixture>, currentGameweek: int,
                           managers: seq<Manager>, picksOf: int -> Option<seq<Pick>>)
    returns (r: Result<seq<(string, real)>>)
    ensures r.Failure? <==> leagueId == DefaultLeagueId
    ensures r.Failure? ==> r.error == LeagueIdMessage
    ensures r.Success? ==>
      r.value == SortDesc(ManagerScores(Take(managers, 15), picksOf, Predictions(b, fixtures, currentGameweek)), ScoreOf)
    ensures r.Success? ==> |r.value| <= 15 && NonIncreasing(r.value, ScoreOf)
  {
    if leagueId == DefaultLeagueId {
      return Failure(LeagueIdMessage);
    }
    var predictions := GetPredictions(b, fixtures, currentGameweek);
    var top := Take(managers, 15);
    var scores: seq<(string, real)> := [];
    for i := 0 to |top|
      invariant scores == ManagerScores(top[..i], picksOf, predictions)
    {
      assert top[..i + 1][..i] == top[..i];
      var picks := picksOf(top[i].entry);
      if picks.None? {
        continue;
      }
      var total := PredictManagerScore(picks.value, predictions);
      scores := scores + [(top[i].playerName, total)];
    }
    assert top[..|top|] == top;
    r := Success(SortDesc(scores, ScoreOf));
  }

  // ---------------------------------------------------------------------------
  // Form versus fixture quadrants
  // ---------------------------------------------------------------------------

  datatype Quadrant = PrimeTarget | FormTrap | FutureGem | ToAvoid

  /** High form is at or above the mean, easy fixtures at or below the mean difficulty. */
  function QuadrantOf(form: real, fdr: real, avgForm: real, avgFdr: real): Quadrant {
    if form >= avgForm && fdr <= avgFdr then PrimeTarget
    else if form >= avgForm && fdr > avgFdr then FormTrap
    else if form < avgForm && fdr <= avgFdr then FutureGem
    else ToAvoid
  }

  /** The four lists of `quadrants`, in the order of their keys. */
  datatype Quadrants = Quadrants(primeTargets: seq<Element>, formTraps: seq<Element>,
                                 futureGems: seq<Element>, toAvoid: seq<Element>)

  function AddTo(qs: Quadrants, q: Quadrant, p: Element): Quadrants {
    match q
    case PrimeTarget => qs.(primeTargets := qs.primeTargets + [p])
    case FormTrap => qs.(formTraps := qs.formTraps + [p])
    case FutureGem => qs.(futureGems := qs.futureGems + [p])
    case ToAvoid => qs.(toAvoid := qs.toAvoid + [p])
  }

  /** A player's fixture difficulty over its next five games. */
  function FdrOf(p: Element, fixtures: seq<Fixture>, currentGameweek: int): real {
    AvgFdr(p.team, currentGameweek, fixtures, 5)
  }

  /** The quadrant of each player against the two means. */
  function Placement(fixtures: seq<Fixture>, currentGameweek: int, avgForm: real, avgFdr: real): Element -> Quadrant {
    (p: Element) => QuadrantOf(p.form, FdrOf(p, fixtures, currentGameweek), avgForm, avgFdr)
  }

  /** The players added one by one to the list of their quadrant. */
  function Classified(ps: seq<Element>, quadrant: Element -> Quadrant): Quadrants {
    if ps == [] then Quadrants([], [], [], [])
    else AddTo(Classified(ps[..|ps| - 1], quadrant), quadrant(ps[|ps| - 1]), ps[|ps| - 1])
  }

  function RelevantPlayers(elements: seq<Element>): seq<Element> {
    Filter(elements, Active)
  }

  function Forms(ps: seq<Element>): (r: seq<real>)
    ensures |r| == |ps| && forall i :: 0 <= i < |ps| ==> r[i] == ps[i].form
  {
    seq(|ps|, i requires 0 <= i < |ps| => ps[i].form)
  }

  function Fdrs(ps: seq<Element>, fixtures: seq<Fixture>, currentGameweek: int): (r: seq<real>)
    ensures |r| == |ps| && forall i :: 0 <= i < |ps| ==> r[i] == FdrOf(ps[i], fixtures, currentGameweek)
  {
    seq(|ps|, i requires 0 <= i < |ps| => FdrOf(ps[i], fixtures, currentGameweek))
  }

  function Mean(xs: seq<real>): real
    requires xs != []
  {
    Sum(xs) / |xs| as real
  }

  /**
   * The partition of `get_quadrant_analysis_string` over the available players
   * who have played, or None ('Not enough player data') when there are none.
   */
  function QuadrantAnalysis(elements: seq<Element>, fixtures: seq<Fixture>, currentGameweek: int): Option<Quadrants> {
    var relevant := RelevantPlayers(elements);
    if relevant == [] then None
    else
      var avgForm := Mean(Forms(relevant));
      var avgFdr := Mean(Fdrs(relevant, fixtures, currentGameweek));
      Some(Classified(relevant, Placement(fixtures, currentGameweek, avgForm, avgFdr)))
  }

  /** The categorising loop. */
  method AnalyseQuadrants(elements: seq<Element>, fixtures: seq<Fixture>, currentGameweek: int)
    returns (r: Option<Quadrants>)
    ensures r == QuadrantAnalysis(elements, fixtures, currentGameweek)
  {
    var relevant := RelevantPlayers(elements);
    if relevant == [] {
      return None;
    }
    var avgForm := Mean(Forms(relevant));
    var avgFdr := Mean(Fdrs(relevant, fixtures, currentGameweek));
    ghost var placement := Placement(fixtures, currentGameweek, avgForm, avgFdr);
    var qs := Quadrants([], [], [], []);
    for i := 0 to |relevant|
      invariant qs == Classified(relevant[..i], placement)
    {
      assert relevant[..i + 1][..i] == relevant[..i];
      var p := relevant[i];
      var fdr := GetAvgFdr(p.team, currentGameweek, fixtures, 5);
      assert placement(p) == QuadrantOf(p.form, fdr, avgForm, avgFdr);
      qs := AddTo(qs, QuadrantOf(p.form, fdr, avgForm, avgFdr), p);
    }
    assert relevant[..|relevant|] == relevant;
    r := Some(qs);
  }

  function AllOf(qs: Quadrants): multiset<Element> {
    multiset(qs.primeTargets) + multiset(qs.formTraps) + multiset(qs.futureGems) + multiset(qs.toAvoid)
  }

  /** The list of a quadrant. */
  function ListOf(qs: Quadrants, q: Quadrant): seq<Element> {
    match q
    case PrimeTarget => qs.primeTargets
    case FormTrap => qs.formTraps
    case FutureGem => qs.futureGems
    case ToAvoid => qs.toAvoid
  }

  /** Every player in a list belongs to that list's quadrant. */
  predicate WellPlaced(qs: Quadrants, quadrant: Element -> Quadrant) {
    forall q: Quadrant, p :: p in ListOf(qs, q) ==> quadrant(p) == q
  }

  lemma {:induction false} AddToAll(qs: Quadrants, q: Quadrant, p: Element)
    ensures AllOf(AddTo(qs, q, p)) == AllOf(qs) + multiset{p}
  {
  }

  lemma {:induction false} AddToPlaced(qs: Quadrants, q: Quadrant, p: Element, quadrant: Element -> Quadrant)
    requires WellPlaced(qs, quadrant) && quadrant(p) == q
    ensures WellPlaced(AddTo(qs, q, p), quadrant)
  {
    forall q': Quadrant, x | x in ListOf(AddTo(qs, q, p), q')
      ensures quadrant(x) == q'
    {
      assert ListOf(AddTo(qs, q, p), q') == if q' == q then ListOf(qs, q') + [p] else ListOf(qs, q');
    }
  }

  /** No player is lost or added by the partition. */
  lemma {:induction false} ClassifiedAll(ps: seq<Element>, quadrant: Element -> Quadrant)
    ensures AllOf(Classified(ps, quadrant)) == multiset(ps)
  {
    if ps != [] {
      var init := ps[..|ps| - 1];
      var p := ps[|ps| - 1];
      ClassifiedAll(init, quadrant);
      AddToAll(Classified(init, quadrant), quadrant(p), p);
      assert ps == init + [p];
    }
  }

  /** Each player sits in the list of its own quadrant. */
  lemma {:induction false} ClassifiedPlaced(ps: seq<Element>, quadrant: Element -> Quadrant)
    ensures WellPlaced(Classified(ps, quadrant), quadrant)
  {
    if ps != [] {
      var p := ps[|ps| - 1];
      ClassifiedPlaced(ps[..|ps| - 1], quadrant);
      AddToPlaced(Classified(ps[..|ps| - 1], quadrant), quadrant(p), p, quadrant);
    }
  }

  lemma {:induction false} DivideAtMost(s: real, n: real, c: real)
    requires n > 0.0 && s <= n * c
    ensures s / n <= c
  {
    assert n * (s / n) == s;
  }

  lemma {:induction false} DivideAtLeast(s: real, n: real, c: real)
    requires n > 0.0 && n * c <= s
    ensures c <= s / n
  {
    assert n * (s / n) == s;
  }

  lemma {:induction false} MeanAtMostMax(xs: seq<real>)
    requires xs != []
    ensures Mean(xs) <= Max(xs)
  {
    SumBounds(xs, Min(xs), Max(xs));
    DivideAtMost(Sum(xs), |xs| as real, Max(xs));
  }

  lemma {:induction false} MeanAtLeastMin(xs: seq<real>)
    requires xs != []
    ensures Min(xs) <= Mean(xs)
  {
    SumBounds(xs, Min(xs), Max(xs));
    DivideAtLeast(Sum(xs), |xs| as real, Min(xs));
  }

  /** Some value is at least the mean, and some value at most the mean. */
  lemma {:induction false} MeanAttained(xs: seq<real>) returns (hi: nat, lo: nat)
    requires xs != []
    ensures hi < |xs| && xs[hi] >= Mean(xs)
    ensures lo < |xs| && xs[lo] <= Mean(xs)
  {
    MeanAtMostMax(xs);
    MeanAtLeastMin(xs);
    hi :| hi < |xs| && xs[hi] == Max(xs);
    lo :| lo < |xs| && xs[lo] == Min(xs);
  }

  /** In a well-placed partition, every player is in the list of its own quadrant. */
  lemma {:induction false} PlacedQuadrant(qs: Quadrants, quadrant: Element -> Quadrant, p: Element)
    requires WellPlaced(qs, quadrant) && p in AllOf(qs)
    ensures p in ListOf(qs, quadrant(p))
  {
    var q := if p in qs.primeTargets then PrimeTarget
             else if p in qs.formTraps then FormTrap
             else if p in qs.futureGems then FutureGem
             else ToAvoid;
    assert p in ListOf(qs, q);
  }

  /** Every player of the list is in the list of its own quadrant after the partition. */
  lemma {:induction false} ClassifiedHas(ps: seq<Element>, quadrant: Element -> Quadrant, i: nat)
    requires i < |ps|
    ensures ps[i] in ListOf(Classified(ps, quadrant), quadrant(ps[i]))
  {
    ClassifiedAll(ps, quadrant);
    ClassifiedPlaced(ps, quadrant);
    assert ps[i] in multiset(ps);
    PlacedQuadrant(Classified(ps, quadrant), quadrant, ps[i]);
  }

  /**
   * With any relevant player, some player has at least the mean form and some
   * player has at most the mean difficulty: the high-form lists and the
   * easy-fixture lists are never both empty.
   */
  lemma {:induction false} QuadrantsNonEmpty(elements: seq<Element>, fixtures: seq<Fixture>, currentGameweek: int)
    requires QuadrantAnalysis(elements, fixtures, currentGameweek).Some?
    ensures var qs := QuadrantAnalysis(elements, fixtures, currentGameweek).value;
      qs.primeTargets + qs.formTraps != [] && qs.primeTargets + qs.futureGems != []
  {
    var relevant := RelevantPlayers(elements);
    var forms := Forms(relevant);
    var fdrs := Fdrs(relevant, fixtures, currentGameweek);
    var avgForm, avgFdr := Mean(forms), Mean(fdrs);
    var placement := Placement(fixtures, currentGameweek, avgForm, avgFdr);
    var qs := Classified(relevant, placement);
    assert QuadrantAnalysis(elements, fixtures, currentGameweek).value == qs;
    var i, _ := MeanAttained(forms);
    var _, j := MeanAttained(fdrs);
    ClassifiedHas(relevant, placement, i);
    ClassifiedHas(relevant, placement, j);
    HighFormQuadrant(relevant[i], fixtures, currentGameweek, avgForm, avgFdr);
    EasyFixturesQuadrant(relevant[j], fixtures, currentGameweek, avgForm, avgFdr);
  }

  lemma {:induction false} HighFormQuadrant(p: Element, fixtures: seq<Fixture>, currentGameweek: int, avgForm: real, avgFdr: real)
    requires p.form >= avgForm
    ensures Placement(fixtures, currentGameweek, avgForm, avgFdr)(p) in {PrimeTarget, FormTrap}
  {
  }

  lemma {:induction false} EasyFixturesQuadrant(p: Element, fixtures: seq<Fixture>, currentGameweek: int, avgForm: real, avgFdr: real)
    requires FdrOf(p, fixtures, currentGameweek) <= avgFdr
    ensures Placement(fixtures, currentGameweek, avgForm, avgFdr)(p) in {PrimeTarget, FutureGem}
  {
  }

  /** The five shown from a quadrant: best form first, ties in quadrant order. */
  function TopOfQuadrant(ps: seq<Element>): (r: seq<Element>)
    ensures |r| == if |ps| < 5 then |ps| else 5
    ensures NonIncreasing(r, FormKey)
    ensures multiset(r) <= multiset(ps)
  {
    var sorted := SortDesc(ps, FormKey);
    var top := Take(sorted, 5);
    assert sorted == top + sorted[|top|..];
    top
  }

  function FormKey(p: Element): real {
    p.form
  }

  /** No player of the quadrant left out of the five has better form than the last one shown. */
  lemma {:induction false} TopOfQuadrantTopK(ps: seq<Element>)
    requires ps != []
    ensures var r := TopOfQuadrant(ps);
      forall x :: x in multiset(ps) - multiset(r) ==> x.form <= r[|r| - 1].form
  {
    var r := TopOfQuadrant(ps);
    assert r == Take(SortDesc(ps, FormKey), 5);
    TopK(ps, FormKey, |r|);
  }

  // ---------------------------------------------------------------------------
  // Blank players
  // ---------------------------------------------------------------------------

  /** The clubs that play in the fixtures, home or away. */
  function TeamsOf(fs: seq<Fixture>): set<int> {
    if fs == [] then {} else TeamsOf(fs[..|fs| - 1]) + {fs[|fs| - 1].teamA, fs[|fs| - 1].teamH}
  }

  /** `players_with_fixtures`: the clubs with a fixture from the gameweek on. */
  function FixtureTeams(fixtures: seq<Fixture>, currentGameweek: int): set<int> {
    TeamsOf(Filter(fixtures, f => Upcoming(f, currentGameweek)))
  }

  lemma {:induction false} TeamsOfMembers(fs: seq<Fixture>, team: int)
    ensures team in TeamsOf(fs) <==> exists f :: f in fs && Involves(f, team)
  {
    if fs != [] {
      var init := fs[..|fs| - 1];
      TeamsOfMembers(init, team);
      assert fs[|fs| - 1] in fs;
      if team in TeamsOf(init) {
        var f :| f in init && Involves(f, team);
        assert f in fs;
      }
      if exists f :: f in fs && Involves(f, team) {
        var f :| f in fs && Involves(f, team);
        if f != fs[|fs| - 1] {
          assert f in init;
        }
      }
    }
  }

  /** A club has a fixture from the gameweek on exactly when some upcoming fixture involves it. */
  lemma {:induction false} FixtureTeamsMembers(fixtures: seq<Fixture>, currentGameweek: int, team: int)
    ensures team in FixtureTeams(fixtures, currentGameweek) <==>
      exists f :: f in fixtures && Upcoming(f, currentGameweek) && Involves(f, team)
  {
    var upcoming := Filter(fixtures, f => Upcoming(f, currentGameweek));
    TeamsOfMembers(upcoming, team);
  }

  /** The players (given by their club, when the record has one) whose club has no fixture. */
  function Blanks(playerTeams: seq<Option<int>>, teams: set<int>): nat {
    if playerTeams == [] then 0
    else
      var t := playerTeams[|playerTeams| - 1];
      Blanks(playerTeams[..|playerTeams| - 1], teams) + if t.None? || t.value !in teams then 1 else 0
  }

  /** `_count_blank_players`. */
  method CountBlankPlayers(playerTeams: seq<Option<int>>, fixtures: seq<Fixture>, currentGameweek: int)
    returns (blanks: nat)
    ensures blanks == Blanks(playerTeams, FixtureTeams(fixtures, currentGameweek))
  {
    var upcoming := Filter(fixtures, f => Upcoming(f, currentGameweek));
    var withFixtures: set<int> := {};
    for i := 0 to |upcoming|
      invariant withFixtures == TeamsOf(upcoming[..i])
    {
      assert upcoming[..i + 1][..i] == upcoming[..i];
      withFixtures := withFixtures + {upcoming[i].teamA};
      withFixtures := withFixtures + {upcoming[i].teamH};
    }
    assert upcoming[..|upcoming|] == upcoming;
    blanks := 0;
    for i := 0 to |playerTeams|
      invariant blanks == Blanks(playerTeams[..i], withFixtures)
    {
      assert playerTeams[..i + 1][..i] == playerTeams[..i];
      var team := playerTeams[i];
      if team.None? || team.value !in withFixtures {
        blanks := blanks + 1;
      }
    }
    assert playerTeams[..|playerTeams|] == playerTeams;
  }

  /** No more blanks than players, and none exactly when every player's club has a fixture. */
  lemma {:induction false} BlanksBounds(playerTeams: seq<Option<int>>, teams: set<int>)
    ensures Blanks(playerTeams, teams) <= |playerTeams|
    ensures Blanks(playerTeams, teams) == 0 <==>
      forall i :: 0 <= i < |playerTeams| ==> playerTeams[i].Some? && playerTeams[i].value in teams
  {
    if playerTeams != [] {
      var init := playerTeams[..|playerTeams| - 1];
      BlanksBounds(init, teams);
      assert forall i :: 0 <= i < |init| ==> init[i] == playerTeams[i];
    }
  }
}
