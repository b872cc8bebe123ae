/*
 * The Fantasy Premier League payloads the helpers compute on, already
 * fetched and decoded: the bootstrap lists (players, clubs, gameweeks), the
 * fixture list and a manager's picks. Only the fields the helpers read are
 * kept. The payload's numeric strings (`form`, `ict_index`,
 * `selected_by_percent`) are carried as their numeric values.
 */
module FplData {
  import opened Collections

  /** A player of `bootstrap['elements']`; `chance` is `chance_of_playing_next_round`. */
  datatype Element = Element(
    id: int,
    webName: string,
    team: int,
    elementType: int,
    status: string,
    minutes: int,
    nowCost: int,
    totalPoints: int,
    form: real,
    ictIndex: real,
    selectedByPercent: real,
    news: string,
    chance: Option<int>)

  /** A club of `bootstrap['teams']`. */
  datatype Team = Team(
    id: int,
    name: string,
    strengthAttackHome: int,
    strengthAttackAway: int,
    strengthDefenceHome: int,
    strengthDefenceAway: int)

  /** A fixture; `event` is None while the fixture has no gameweek. */
  datatype Fixture = Fixture(
    event: Option<int>,
    teamH: int,
    teamA: int,
    teamHDifficulty: int,
    teamADifficulty: int)

  /** A gameweek of `bootstrap['events']`. */
  datatype Event = Event(id: int, isCurrent: bool)

  datatype Bootstrap = Bootstrap(elements: seq<Element>, teams: seq<Team>, events: seq<Event>)

  /** One entry of a manager's `picks`. */
  datatype Pick = Pick(element: int, multiplier: int, isCaptain: bool, isViceCaptain: bool)

  /** `f.get('event') and f['event'] >= current_gameweek`: a gameweek that is set, non-zero and not past. */
  predicate Upcoming(f: Fixture, currentGameweek: int) {
    f.event.Some? && f.event.value != 0 && f.event.value >= currentGameweek
  }

  /** The club plays in the fixture, at home or away. */
  predicate Involves(f: Fixture, team: int) {
    f.teamH == team || f.teamA == team
  }

  /** `player.get('status', 'a') == 'a'`. */
  predicate Available(p: Element) {
    p.status == "a"
  }

  /** Available and has played: `status == 'a' and minutes > 0`. */
  predicate Active(p: Element) {
    Available(p) && p.minutes > 0
  }
}
