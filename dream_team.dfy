/*
 * The squad logic of `get_dream_team_optimizer_string`: a greedy cheapest
 * squad under the position limits and the three-per-club rule, then
 * best-improvement swaps of a squad player for an outside player of the same
 * position, within the budget and the club rule, until no swap raises the
 * predicted score. The squad is kept as the players it names: in the pool
 * every id names exactly one player, so this list and the source's
 * `squad_ids` determine each other.
 */
module DreamTeam {
  import opened Collections
  import opened Sorting
  import opened FplData
  import FplLogic

  /** Prices are in tenths of a million: 1000 is the 100m budget. */
  const Budget: int := 1000
  const SquadSize: int := 15
  const MaxPerClub: int := 3

  /** `pos_limits`: two goalkeepers, five defenders, five midfielders, three forwards. */
  const PositionLimits: map<int, int> := map[1 := 2, 2 := 5, 3 := 5, 4 := 3]

  // ---------------------------------------------------------------------------
  // Counting and totals over a list
  // ---------------------------------------------------------------------------

  function Count<T>(xs: seq<T>, f: T -> bool): (n: nat)
    ensures n <= |xs|
  {
    if xs == [] then 0 else Count(xs[..|xs| - 1], f) + if f(xs[|xs| - 1]) then 1 else 0
  }

  function Total<T>(xs: seq<T>, f: T -> real): real {
    if xs == [] then 0.0 else Total(xs[..|xs| - 1], f) + f(xs[|xs| - 1])
  }

  function TotalInt<T>(xs: seq<T>, f: T -> int): int {
    if xs == [] then 0 else TotalInt(xs[..|xs| - 1], f) + f(xs[|xs| - 1])
  }

  lemma {:induction false} CountAppend<T>(xs: seq<T>, ys: seq<T>, f: T -> bool)
    ensures Count(xs + ys, f) == Count(xs, f) + Count(ys, f)
  {
    if ys == [] {
      assert xs + ys == xs;
    } else {
      assert (xs + ys)[..|xs + ys| - 1] == xs + ys[..|ys| - 1];
      CountAppend(xs, ys[..|ys| - 1], f);
    }
  }

  lemma {:induction false} TotalAppend<T>(xs: seq<T>, ys: seq<T>, f: T -> real)
    ensures Total(xs + ys, f) == Total(xs, f) + Total(ys, f)
  {
    if ys == [] {
      assert xs + ys == xs;
    } else {
      assert (xs + ys)[..|xs + ys| - 1] == xs + ys[..|ys| - 1];
      TotalAppend(xs, ys[..|ys| - 1], f);
    }
  }

  lemma {:induction false} TotalIntAppend<T>(xs: seq<T>, ys: seq<T>, f: T -> int)
    ensures TotalInt(xs + ys, f) == TotalInt(xs, f) + TotalInt(ys, f)
  {
    if ys == [] {
      assert xs + ys == xs;
    } else {
      assert (xs + ys)[..|xs + ys| - 1] == xs + ys[..|ys| - 1];
      TotalIntAppend(xs, ys[..|ys| - 1], f);
    }
  }

  lemma {:induction false} CountSnoc<T>(xs: seq<T>, y: T, f: T -> bool)
    ensures Count(xs + [y], f) == Count(xs, f) + if f(y) then 1 else 0
  {
    assert (xs + [y])[..|xs|] == xs;
  }

  lemma {:induction false} TotalSnoc<T>(xs: seq<T>, y: T, f: T -> real)
    ensures Total(xs + [y], f) == Total(xs, f) + f(y)
  {
    assert (xs + [y])[..|xs|] == xs;
  }

  lemma {:induction false} TotalIntSnoc<T>(xs: seq<T>, y: T, f: T -> int)
    ensures TotalInt(xs + [y], f) == TotalInt(xs, f) + f(y)
  {
    assert (xs + [y])[..|xs|] == xs;
  }

  /** Taking out `xs[i]` and appending `y` changes a count by those two elements only. */
  lemma {:induction false} CountReplace<T>(xs: seq<T>, i: nat, y: T, f: T -> bool)
    requires i < |xs|
    ensures Count(xs[..i] + xs[i + 1..] + [y], f)
         == Count(xs, f) - (if f(xs[i]) then 1 else 0) + (if f(y) then 1 else 0)
  {
    var front, back := xs[..i], xs[i + 1..];
    assert xs == front + [xs[i]] + back;
    CountAppend(front + [xs[i]], back, f);
    CountSnoc(front, xs[i], f);
    CountSnoc(front + back, y, f);
    CountAppend(front, back, f);
  }

  lemma {:induction false} TotalReplace<T>(xs: seq<T>, i: nat, y: T, f: T -> real)
    requires i < |xs|
    ensures Total(xs[..i] + xs[i + 1..] + [y], f) == Total(xs, f) - f(xs[i]) + f(y)
  {
    var front, back := xs[..i], xs[i + 1..];
    assert xs == front + [xs[i]] + back;
    TotalAppend(front + [xs[i]], back, f);
    TotalSnoc(front, xs[i], f);
    TotalSnoc(front + back, y, f);
    TotalAppend(front, back, f);
  }

  lemma {:induction false} TotalIntReplace<T>(xs: seq<T>, i: nat, y: T, f: T -> int)
    requires i < |xs|
    ensures TotalInt(xs[..i] + xs[i + 1..] + [y], f) == TotalInt(xs, f) - f(xs[i]) + f(y)
  {
    var front, back := xs[..i], xs[i + 1..];
    assert xs == front + [xs[i]] + back;
    TotalIntAppend(front + [xs[i]], back, f);
    TotalIntSnoc(front, xs[i], f);
    TotalIntSnoc(front + back, y, f);
    TotalIntAppend(front, back, f);
  }

  /** A weaker test counts no more. */
  lemma {:induction false} CountMonotone<T>(xs: seq<T>, f: T -> bool, g: T -> bool)
    requires forall x :: f(x) ==> g(x)
    ensures Count(xs, f) <= Count(xs, g)
  {
    if xs != [] {
      CountMonotone(xs[..|xs| - 1], f, g);
    }
  }

  /** A weaker test that also accepts an element of the list the stronger one rejects counts strictly more. */
  lemma {:induction false} CountStrict<T>(xs: seq<T>, f: T -> bool, g: T -> bool, w: T)
    requires forall x :: f(x) ==> g(x)
    requires w in xs && g(w) && !f(w)
    ensures Count(xs, f) < Count(xs, g)
  {
    var init := xs[..|xs| - 1];
    CountMonotone(init, f, g);
    if w != xs[|xs| - 1] {
      assert w in init by {
        var k :| 0 <= k < |xs| && xs[k] == w;
        assert init[k] == w;
      }
      CountStrict(init, f, g, w);
    }
  }

  // ---------------------------------------------------------------------------
  // Squads
  // ---------------------------------------------------------------------------

  function Ids(ps: seq<Element>): (r: seq<int>)
    ensures |r| == |ps| && forall i :: 0 <= i < |ps| ==> r[i] == ps[i].id
  {
    seq(|ps|, i requires 0 <= i < |ps| => ps[i].id)
  }

  ghost predicate DistinctIds(ps: seq<Element>) {
    forall i, j :: 0 <= i < j < |ps| ==> ps[i].id != ps[j].id
  }

  function HasPosition(pos: int): Element -> bool {
    (p: Element) => p.elementType == pos
  }

  function InClub(team: int): Element -> bool {
    (p: Element) => p.team == team
  }

  function Price(p: Element): int {
    p.nowCost
  }

  /** `predictions.get(id, 0)` for a player. */
  function Predicted(predictions: map<int, real>): Element -> real {
    (p: Element) => FplLogic.PredictionFor(predictions, p.id)
  }

  function PositionCount(squad: seq<Element>, pos: int): nat {
    Count(squad, HasPosition(pos))
  }

  function ClubCount(squad: seq<Element>, team: int): nat {
    Count(squad, InClub(team))
  }

  /** `squad_cost`: the summed prices. */
  function Cost(squad: seq<Element>): int {
    TotalInt(squad, Price)
  }

  /** `total_predicted_score`: the summed predictions, 0 for a player without one. */
  function Score(squad: seq<Element>, predictions: map<int, real>): real {
    Total(squad, Predicted(predictions))
  }

  /** The position limits and the club limit hold. */
  ghost predicate WithinLimits(squad: seq<Element>) {
    (forall pos :: pos in PositionLimits ==> PositionCount(squad, pos) <= PositionLimits[pos])
    && (forall team :: ClubCount(squad, team) <= MaxPerClub)
  }

  /** At most 15 distinct players of the pool, within the limits. */
  ghost predicate ValidSquad(squad: seq<Element>, pool: seq<Element>) {
    |squad| <= SquadSize && DistinctIds(squad) && (forall p :: p in squad ==> p in pool) && WithinLimits(squad)
  }

  /** Every position is a key of `pos_counts` (1..4) and every club a key of `team_counts` (1..20). */
  ghost predicate InRange(ps: seq<Element>) {
    forall p :: p in ps ==> 1 <= p.elementType <= 4 && 1 <= p.team <= 20
  }

  /** `pos_counts` and `team_counts` hold the squad's counts for their keys. */
  ghost predicate CountsMatch(squad: seq<Element>, posCounts: map<int, int>, teamCounts: map<int, int>) {
    (forall pos :: 1 <= pos <= 4 ==> pos in posCounts && posCounts[pos] == PositionCount(squad, pos))
    && (forall team :: 1 <= team <= 20 ==> team in teamCounts && teamCounts[team] == ClubCount(squad, team))
  }

  // ---------------------------------------------------------------------------
  // The pool
  // ---------------------------------------------------------------------------

  function Values(d: Dict<int, Element>): (r: seq<Element>)
    ensures |r| == |d| && forall i :: 0 <= i < |d| ==> r[i] == d[i].1
  {
    seq(|d|, i requires 0 <= i < |d| => d[i].1)
  }

  /** `all_players.values()`: the available players, one per id. */
  function Pool(b: Bootstrap): seq<Element> {
    Values(FplLogic.AvailablePlayers(b.elements))
  }

  lemma {:induction false} PoolSound(b: Bootstrap)
    ensures DistinctIds(Pool(b))
    ensures forall p :: p in Pool(b) ==> Available(p) && p in b.elements
  {
    FplLogic.AvailablePlayersSound(b.elements);
  }

  /** A list with one copy of each id holds each player at most once. */
  lemma {:induction false} DistinctIdsOnce(ps: seq<Element>, x: Element)
    requires DistinctIds(ps)
    ensures multiset(ps)[x] <= 1
  {
    if ps != [] {
      var init := ps[..|ps| - 1];
      var last := ps[|ps| - 1];
      assert ps == init + [last];
      DistinctIdsOnce(init, x);
      if x == last {
        assert x !in init by {
          forall k | 0 <= k < |init| ensures init[k] != x {
            assert init[k].id == ps[k].id != ps[|ps| - 1].id;
          }
        }
      }
    }
  }

  lemma {:induction false} TwoCopies<T>(s: seq<T>, i: nat, j: nat)
    requires i < j < |s|
    ensures s[i] == s[j] ==> multiset(s)[s[i]] >= 2
  {
    assert s == s[..j] + [s[j]] + s[j + 1..];
    assert s[i] in s[..j];
  }

  /** Reordering keeps the ids distinct. */
  lemma {:induction false} DistinctIdsPermutation(a: seq<Element>, b: seq<Element>)
    requires multiset(a) == multiset(b) && DistinctIds(a)
    ensures DistinctIds(b)
  {
    forall i, j | 0 <= i < j < |b| ensures b[i].id != b[j].id {
      TwoCopies(b, i, j);
      DistinctIdsOnce(a, b[i]);
      assert b[i] != b[j];
      assert b[i] in multiset(a) && b[j] in multiset(a);
      var k :| 0 <= k < |a| && a[k] == b[i];
      var l :| 0 <= l < |a| && a[l] == b[j];
      assert a[k].id != a[l].id;
    }
  }

  // ---------------------------------------------------------------------------
  // The initial squad
  // ---------------------------------------------------------------------------

  /** Ascending price is descending negated price; ties keep pool order. */
  function PriceKey(p: Element): real {
    -(p.nowCost as real)
  }

  /** `sorted(all_players.values(), key=now_cost)`. */
  function ByPrice(pool: seq<Element>): (r: seq<Element>)
    ensures multiset(r) == multiset(pool)
  {
    SortDesc(pool, PriceKey)
  }

  /** The greedy pass meets the players cheapest first. */
  lemma {:induction false} ByPriceAscending(pool: seq<Element>)
    ensures forall i, j :: 0 <= i < j < |ByPrice(pool)| ==> ByPrice(pool)[i].nowCost <= ByPrice(pool)[j].nowCost
  {
    var r := ByPrice(pool);
    assert forall i, j :: 0 <= i < j < |r| ==> PriceKey(r[i]) >= PriceKey(r[j]);
  }

  /** Sorting keeps every position and club in range. */
  lemma {:induction false} ByPriceInRange(pool: seq<Element>)
    requires InRange(pool)
    ensures forall i :: 0 <= i < |ByPrice(pool)| ==>
      1 <= ByPrice(pool)[i].elementType <= 4 && 1 <= ByPrice(pool)[i].team <= 20
  {
    var r := ByPrice(pool);
    forall i | 0 <= i < |r| ensures 1 <= r[i].elementType <= 4 && 1 <= r[i].team <= 20 {
      assert r[i] in multiset(pool);
    }
  }

  /** The player's position and club both have room. */
  predicate HasRoom(squad: seq<Element>, p: Element) {
    p.elementType in PositionLimits && PositionCount(squad, p.elementType) < PositionLimits[p.elementType]
    && ClubCount(squad, p.team) < MaxPerClub
  }

  /** The greedy pass: each player in turn joins when it has room, until the squad has 15. */
  function Greedy(ps: seq<Element>): seq<Element> {
    if ps == [] then []
    else
      var prev := Greedy(ps[..|ps| - 1]);
      var p := ps[|ps| - 1];
      if |prev| == SquadSize then prev
      else if HasRoom(prev, p) then prev + [p]
      else prev
  }

  /** Once the squad is full the rest of the list adds nothing. */
  lemma {:induction false} GreedyFull(ps: seq<Element>, i: nat)
    requires i <= |ps| && |Greedy(ps[..i])| == SquadSize
    ensures Greedy(ps) == Greedy(ps[..i])
  {
    if i < |ps| {
      assert ps[..|ps| - 1][..i] == ps[..i];
      GreedyFull(ps[..|ps| - 1], i);
    } else {
      assert ps[..i] == ps;
    }
  }

  /** Adding a player with room keeps the limits. */
  lemma {:induction false} AddWithinLimits(squad: seq<Element>, p: Element)
    requires WithinLimits(squad) && HasRoom(squad, p)
    ensures WithinLimits(squad + [p])
  {
    forall pos | pos in PositionLimits ensures PositionCount(squad + [p], pos) <= PositionLimits[pos] {
      CountSnoc(squad, p, HasPosition(pos));
    }
    forall team ensures ClubCount(squad + [p], team) <= MaxPerClub {
      CountSnoc(squad, p, InClub(team));
      assert ClubCount(squad, team) <= MaxPerClub;
      if p.team == team {
        assert ClubCount(squad, team) < MaxPerClub;
      }
    }
  }

  /** The greedy squad is a valid squad drawn from the list. */
  lemma {:induction false} GreedyValid(ps: seq<Element>)
    requires DistinctIds(ps)
    ensures ValidSquad(Greedy(ps), ps)
  {
    if ps != [] {
      var init := ps[..|ps| - 1];
      var p := ps[|ps| - 1];
      var prev := Greedy(init);
      assert DistinctIds(init);
      GreedyValid(init);
      if |prev| < SquadSize && HasRoom(prev, p) {
        AddWithinLimits(prev, p);
        forall k | 0 <= k < |prev| ensures prev[k].id != p.id {
          assert prev[k] in init;
          var m :| 0 <= m < |init| && init[m] == prev[k];
          assert ps[m] == prev[k];
        }
      }
      var r := Greedy(ps);
      forall x | x in r ensures x in ps {
        if x != p {
          assert x in init;
        }
      }
    }
  }

  /** The counters after adding a player. */
  lemma {:induction false} CountsAfterAdd(squad: seq<Element>, p: Element, posCounts: map<int, int>, teamCounts: map<int, int>)
    requires CountsMatch(squad, posCounts, teamCounts)
    requires 1 <= p.elementType <= 4 && 1 <= p.team <= 20
    ensures CountsMatch(squad + [p], posCounts[p.elementType := posCounts[p.elementType] + 1],
                        teamCounts[p.team := teamCounts[p.team] + 1])
  {
    forall pos | 1 <= pos <= 4 ensures PositionCount(squad + [p], pos) == PositionCount(squad, pos) + if p.elementType == pos then 1 else 0 {
      CountSnoc(squad, p, HasPosition(pos));
    }
    forall team | 1 <= team <= 20 ensures ClubCount(squad + [p], team) == ClubCount(squad, team) + if p.team == team then 1 else 0 {
      CountSnoc(squad, p, InClub(team));
    }
  }

  /** `{i: 0 for i in range(1, n + 1)}`. */
  function ZeroCounts(n: nat): (r: map<int, int>)
    ensures forall k :: k in r <==> 1 <= k <= n
    ensures forall k :: k in r ==> r[k] == 0
  {
    if n == 0 then map[] else ZeroCounts(n - 1)[n := 0]
  }

  /** The zeroed counters fit the empty squad. */
  lemma {:induction false} CountsEmpty()
    ensures CountsMatch([], ZeroCounts(4), ZeroCounts(20))
  {
  }

  /** The counter test of the greedy pass is the room test. */
  lemma {:induction false} RoomFromCounts(squad: seq<Element>, p: Element, posCounts: map<int, int>, teamCounts: map<int, int>)
    requires CountsMatch(squad, posCounts, teamCounts)
    requires 1 <= p.elementType <= 4 && 1 <= p.team <= 20
    ensures HasRoom(squad, p) <==>
      posCounts[p.elementType] < PositionLimits[p.elementType] && teamCounts[p.team] < MaxPerClub
  {
  }

  /** One step of the greedy pass. */
  lemma {:induction false} GreedyStep(ps: seq<Element>, i: nat)
    requires i < |ps|
    ensures Greedy(ps[..i + 1]) ==
      var prev := Greedy(ps[..i]);
      if |prev| == SquadSize then prev else if HasRoom(prev, ps[i]) then prev + [ps[i]] else prev
  {
    assert ps[..i + 1][..i] == ps[..i];
  }

  /** One pass of the greedy loop: the player joins when its position and club have room. */
  method ConsiderPlayer(squad: seq<Element>, posCounts: map<int, int>, teamCounts: map<int, int>, p: Element)
    returns (squad': seq<Element>, posCounts': map<int, int>, teamCounts': map<int, int>)
    requires CountsMatch(squad, posCounts, teamCounts)
    requires 1 <= p.elementType <= 4 && 1 <= p.team <= 20
    ensures squad' == if HasRoom(squad, p) then squad + [p] else squad
    ensures CountsMatch(squad', posCounts', teamCounts')
  {
    squad', posCounts', teamCounts' := squad, posCounts, teamCounts;
    var pos := p.elementType;
    var team := p.team;
    RoomFromCounts(squad, p, posCounts, teamCounts);
    if posCounts[pos] < PositionLimits[pos] && teamCounts[team] < MaxPerClub {
      CountsAfterAdd(squad, p, posCounts, teamCounts);
      squad' := squad + [p];
      posCounts' := posCounts[pos := posCounts[pos] + 1];
      teamCounts' := teamCounts[team := teamCounts[team] + 1];
    }
  }

  /** Step 2: the greedy pass over the pool in ascending price order, stopping at 15 players. */
  method InitialSquad(pool: seq<Element>) returns (squad: seq<Element>, posCounts: map<int, int>, teamCounts: map<int, int>)
    requires InRange(pool)
    ensures squad == Greedy(ByPrice(pool))
    ensures CountsMatch(squad, posCounts, teamCounts)
  {
    squad := [];
    teamCounts := ZeroCounts(20);
    posCounts := ZeroCounts(4);
    CountsEmpty();
    var sorted := ByPrice(pool);
    ByPriceInRange(pool);
    var i := 0;
    while i < |sorted|
      invariant 0 <= i <= |sorted|
      invariant squad == Greedy(sorted[..i]) && |squad| < SquadSize
      invariant CountsMatch(squad, posCounts, teamCounts)
    {
      GreedyStep(sorted, i);
      squad, posCounts, teamCounts := ConsiderPlayer(squad, posCounts, teamCounts, sorted[i]);
      i := i + 1;
      if |squad| == SquadSize {
        GreedyFull(sorted, i);
        return;
      }
    }
    assert sorted[..i] == sorted;
  }

  // ---------------------------------------------------------------------------
  // Swaps
  // ---------------------------------------------------------------------------

  /** The swap the inner loop accepts: outside player, same position, within budget, club room. */
  predicate Eligible(squad: seq<Element>, out: Element, p: Element) {
    p.id !in Ids(squad) && p.elementType == out.elementType
    && Cost(squad) - out.nowCost + p.nowCost <= Budget
    && (p.team == out.team || ClubCount(squad, p.team) < MaxPerClub)
  }

  /** `improvement`: the predicted points gained by the swap. */
  function Gain(predictions: map<int, real>, out: Element, p: Element): real {
    FplLogic.PredictionFor(predictions, p.id) - FplLogic.PredictionFor(predictions, out.id)
  }

  /** The loop's exit condition: no eligible swap gains anything. */
  ghost predicate NoImprovingSwap(squad: seq<Element>, pool: seq<Element>, predictions: map<int, real>) {
    forall out, p :: out in squad && p in pool && Eligible(squad, out, p) ==> Gain(predictions, out, p) <= 0.0
  }

  /** An eligible swap with a positive gain that no other eligible swap beats. */
  ghost predicate BestSwap(squad: seq<Element>, pool: seq<Element>, predictions: map<int, real>, out: Element, p: Element) {
    out in squad && p in pool && Eligible(squad, out, p) && Gain(predictions, out, p) > 0.0
    && forall o, q :: o in squad && q in pool && Eligible(squad, o, q) ==> Gain(predictions, o, q) <= Gain(predictions, out, p)
  }

  /** The swap held as best: eligible, and its gain is the positive best improvement. */
  ghost predicate BestSoFar(squad: seq<Element>, pool: seq<Element>, predictions: map<int, real>,
                            out: Element, p: Element, improvement: real) {
    out in squad && p in pool && Eligible(squad, out, p) && Gain(predictions, out, p) == improvement > 0.0
  }

  /** `potential_replacements` for `out`: outside the squad, same position, within budget. */
  function Replacements(pool: seq<Element>, squad: seq<Element>, squadCost: int, out: Element): seq<Element> {
    Filter(pool, (q: Element) => q.id !in Ids(squad) && q.elementType == out.elementType
                                 && squadCost - out.nowCost + q.nowCost <= Budget)
  }

  /** The inner loop of step 3: the candidates for `out`, keeping the best swap seen so far. */
  method ScanReplacements(squad: seq<Element>, pool: seq<Element>, predictions: map<int, real>,
                          teamCounts: map<int, int>, out: Element, potential: seq<Element>,
                          best0: Option<(Element, Element)>, improvement0: real)
    returns (best: Option<(Element, Element)>, bestImprovement: real)
    requires InRange(pool) && out in squad
    requires potential == Replacements(pool, squad, Cost(squad), out)
    requires forall team :: 1 <= team <= 20 ==> team in teamCounts && teamCounts[team] == ClubCount(squad, team)
    requires best0.None? ==> improvement0 == 0.0
    requires best0.Some? ==> BestSoFar(squad, pool, predictions, best0.value.0, best0.value.1, improvement0)
    ensures best.None? ==> bestImprovement == 0.0
    ensures best.Some? ==> BestSoFar(squad, pool, predictions, best.value.0, best.value.1, bestImprovement)
    ensures improvement0 <= bestImprovement
    ensures forall q :: q in pool && Eligible(squad, out, q) ==> Gain(predictions, out, q) <= bestImprovement
  {
    best, bestImprovement := best0, improvement0;
    for j := 0 to |potential|
      invariant best.None? ==> bestImprovement == 0.0
      invariant best.Some? ==> BestSoFar(squad, pool, predictions, best.value.0, best.value.1, bestImprovement)
      invariant improvement0 <= bestImprovement
      invariant forall q :: q in potential[..j] && Eligible(squad, out, q) ==> Gain(predictions, out, q) <= bestImprovement
    {
      var p := potential[j];
      var inTeamCount := if p.team in teamCounts then teamCounts[p.team] else 0;
      if p.team == out.team || inTeamCount < MaxPerClub {
        var improvement := FplLogic.PredictionFor(predictions, p.id) - FplLogic.PredictionFor(predictions, out.id);
        if improvement > bestImprovement {
          bestImprovement := improvement;
          best := Some((out, p));
        }
      }
    }
    assert potential[..|potential|] == potential;
  }

  /** The two nested loops of step 3: the best swap, or None when no swap gains anything. */
  method FindBestSwap(squad: seq<Element>, pool: seq<Element>, predictions: map<int, real>, teamCounts: map<int, int>)
    returns (best: Option<(Element, Element)>)
    requires InRange(pool)
    requires forall team :: 1 <= team <= 20 ==> team in teamCounts && teamCounts[team] == ClubCount(squad, team)
    ensures best.None? ==> NoImprovingSwap(squad, pool, predictions)
    ensures best.Some? ==> BestSwap(squad, pool, predictions, best.value.0, best.value.1)
  {
    var bestImprovement := 0.0;
    best := None;
    var squadCost := Cost(squad);
    for i := 0 to |squad|
      invariant best.None? ==> bestImprovement == 0.0
      invariant best.Some? ==> BestSoFar(squad, pool, predictions, best.value.0, best.value.1, bestImprovement)
      invariant forall o, q :: o in squad[..i] && q in pool && Eligible(squad, o, q) ==>
        Gain(predictions, o, q) <= bestImprovement
    {
      var out := squad[i];
      var potential := Replacements(pool, squad, squadCost, out);
      best, bestImprovement := ScanReplacements(squad, pool, predictions, teamCounts, out, potential, best, bestImprovement);
      assert squad[..i + 1] == squad[..i] + [out];
    }
    assert squad[..|squad|] == squad;
  }

  /** `squad_ids.remove(id)`: drops the first player with the id. */
  function RemoveFirst(squad: seq<Element>, id: int): seq<Element> {
    if squad == [] then []
    else if squad[0].id == id then squad[1..]
    else [squad[0]] + RemoveFirst(squad[1..], id)
  }

  /** With no earlier player carrying its id, removing by id drops exactly `squad[i]`. */
  lemma {:induction false} RemoveFirstAt(squad: seq<Element>, i: nat)
    requires i < |squad|
    requires forall j :: 0 <= j < i ==> squad[j].id != squad[i].id
    ensures RemoveFirst(squad, squad[i].id) == squad[..i] + squad[i + 1..]
  {
    if i > 0 {
      var rest, id := squad[1..], squad[i].id;
      assert rest[i - 1] == squad[i];
      assert forall j :: 0 <= j < i - 1 ==> rest[j] == squad[j + 1];
      RemoveFirstAt(rest, i - 1);
      assert [squad[0]] + rest[..i - 1] == squad[..i];
      assert rest[i..] == squad[i + 1..];
      calc {
        RemoveFirst(squad, id);
        [squad[0]] + RemoveFirst(rest, id);
        [squad[0]] + (rest[..i - 1] + rest[i..]);
        ([squad[0]] + rest[..i - 1]) + rest[i..];
      }
    }
  }

  /** How many players of the pool have a lower prediction than `id`. */
  function Below(pool: seq<Element>, predictions: map<int, real>, id: int): nat {
    Count(pool, (q: Element) => FplLogic.PredictionFor(predictions, q.id) < FplLogic.PredictionFor(predictions, id))
  }

  function Rank(pool: seq<Element>, predictions: map<int, real>): Element -> int {
    (p: Element) => Below(pool, predictions, p.id)
  }

  /** The loop's termination measure: the squad's summed ranks, which every swap raises. */
  function RankSum(squad: seq<Element>, pool: seq<Element>, predictions: map<int, real>): int {
    TotalInt(squad, Rank(pool, predictions))
  }

  lemma {:induction false} RankSumBounds(squad: seq<Element>, pool: seq<Element>, predictions: map<int, real>)
    ensures 0 <= RankSum(squad, pool, predictions) <= |squad| * |pool|
  {
    if squad != [] {
      var init := squad[..|squad| - 1];
      RankSumBounds(init, pool, predictions);
      assert |squad| * |pool| == |init| * |pool| + |pool|;
    }
  }

  /** A player predicted higher than a pool player outranks it. */
  lemma {:induction false} RankStrict(pool: seq<Element>, predictions: map<int, real>, out: Element, p: Element)
    requires out in pool
    requires FplLogic.PredictionFor(predictions, out.id) < FplLogic.PredictionFor(predictions, p.id)
    ensures Below(pool, predictions, out.id) < Below(pool, predictions, p.id)
  {
    var f := (q: Element) => FplLogic.PredictionFor(predictions, q.id) < FplLogic.PredictionFor(predictions, out.id);
    var g := (q: Element) => FplLogic.PredictionFor(predictions, q.id) < FplLogic.PredictionFor(predictions, p.id);
    CountStrict(pool, f, g, out);
  }

  /** The squad after a swap, written with the position of the player leaving. */
  lemma {:induction false} SwapAt(squad: seq<Element>, pool: seq<Element>, predictions: map<int, real>, out: Element, p: Element)
    returns (i: nat)
    requires ValidSquad(squad, pool) && BestSwap(squad, pool, predictions, out, p)
    ensures i < |squad| && squad[i] == out
    ensures RemoveFirst(squad, out.id) + [p] == squad[..i] + squad[i + 1..] + [p]
  {
    i :| 0 <= i < |squad| && squad[i] == out;
    RemoveFirstAt(squad, i);
  }

  /** The counts after replacing `squad[i]` by `p`. */
  lemma {:induction false} ReplaceCounts(squad: seq<Element>, i: nat, p: Element)
    requires i < |squad|
    ensures var next := squad[..i] + squad[i + 1..] + [p];
      (forall pos :: PositionCount(next, pos)
         == PositionCount(squad, pos) - (if squad[i].elementType == pos then 1 else 0) + (if p.elementType == pos then 1 else 0))
      && (forall team ::
            ClubCount(next, team)
            == ClubCount(squad, team) - (if squad[i].team == team then 1 else 0) + (if p.team == team then 1 else 0))
  {
    forall pos ensures PositionCount(squad[..i] + squad[i + 1..] + [p], pos)
      == PositionCount(squad, pos) - (if squad[i].elementType == pos then 1 else 0) + (if p.elementType == pos then 1 else 0)
    {
      CountReplace(squad, i, p, HasPosition(pos));
    }
    forall team ensures ClubCount(squad[..i] + squad[i + 1..] + [p], team)
      == ClubCount(squad, team) - (if squad[i].team == team then 1 else 0) + (if p.team == team then 1 else 0)
    {
      CountReplace(squad, i, p, InClub(team));
    }
  }

  /** Replacing `squad[i]` by a player with a new id keeps the ids distinct. */
  lemma {:induction false} ReplaceDistinct(squad: seq<Element>, i: nat, p: Element)
    requires i < |squad| && DistinctIds(squad) && p.id !in Ids(squad)
    ensures var next := squad[..i] + squad[i + 1..] + [p];
      DistinctIds(next) && forall x :: x in next ==> x in squad || x == p
  {
    var next := squad[..i] + squad[i + 1..] + [p];
    assert forall k :: 0 <= k < |next| - 1 ==> next[k] == if k < i then squad[k] else squad[k + 1];
    assert forall k :: 0 <= k < |squad| ==> squad[k].id != p.id;
    forall x | x in next ensures x in squad || x == p {
      var k :| 0 <= k < |next| && next[k] == x;
    }
  }

  /** A best swap keeps a valid squad of the same size and the same position counts. */
  lemma {:induction false} SwapValid(squad: seq<Element>, pool: seq<Element>, predictions: map<int, real>, out: Element, p: Element)
    requires ValidSquad(squad, pool) && BestSwap(squad, pool, predictions, out, p)
    ensures var next := RemoveFirst(squad, out.id) + [p];
      ValidSquad(next, pool) && |next| == |squad|
      && (forall pos :: PositionCount(next, pos) == PositionCount(squad, pos))
      && (forall team :: ClubCount(next, team) == ClubCount(squad, team) - (if out.team == team then 1 else 0) + (if p.team == team then 1 else 0))
  {
    var i := SwapAt(squad, pool, predictions, out, p);
    var next := squad[..i] + squad[i + 1..] + [p];
    ReplaceCounts(squad, i, p);
    ReplaceDistinct(squad, i, p);
    assert WithinLimits(next) by {
      forall team ensures ClubCount(next, team) <= MaxPerClub {
        assert ClubCount(squad, team) <= MaxPerClub;
      }
    }
  }

  /** A best swap raises the score by its gain, the ranks strictly, and keeps the cost within budget. */
  lemma {:induction false} SwapGains(squad: seq<Element>, pool: seq<Element>, predictions: map<int, real>, out: Element, p: Element)
    requires ValidSquad(squad, pool) && BestSwap(squad, pool, predictions, out, p)
    ensures var next := RemoveFirst(squad, out.id) + [p];
      Score(next, predictions) == Score(squad, predictions) + Gain(predictions, out, p)
      && Cost(next) <= Budget
      && RankSum(next, pool, predictions) > RankSum(squad, pool, predictions)
  {
    var i := SwapAt(squad, pool, predictions, out, p);
    TotalReplace(squad, i, p, Predicted(predictions));
    TotalIntReplace(squad, i, p, Price);
    TotalIntReplace(squad, i, p, Rank(pool, predictions));
    RankStrict(pool, predictions, out, p);
  }

  /** The counters after a swap. */
  lemma {:induction false} CountsAfterSwap(squad: seq<Element>, next: seq<Element>, out: Element, p: Element, teamCounts: map<int, int>)
    requires forall team :: 1 <= team <= 20 ==> team in teamCounts && teamCounts[team] == ClubCount(squad, team)
    requires forall team :: ClubCount(next, team) == ClubCount(squad, team) - (if out.team == team then 1 else 0) + (if p.team == team then 1 else 0)
    requires 1 <= out.team <= 20 && 1 <= p.team <= 20
    ensures var after := teamCounts[out.team := teamCounts[out.team] - 1];
      var final := after[p.team := after[p.team] + 1];
      forall team :: 1 <= team <= 20 ==> team in final && final[team] == ClubCount(next, team)
  {
  }

  /**
   * Step 3: apply best swaps until none gains. Each swap keeps a valid squad
   * of the same size and position counts, stays within budget and strictly
   * raises the predicted score.
   */
  method ImproveSquad(pool: seq<Element>, predictions: map<int, real>, initial: seq<Element>, initialTeamCounts: map<int, int>)
    returns (squad: seq<Element>, teamCounts: map<int, int>)
    requires InRange(pool) && ValidSquad(initial, pool)
    requires forall team :: 1 <= team <= 20 ==> team in initialTeamCounts && initialTeamCounts[team] == ClubCount(initial, team)
    ensures ValidSquad(squad, pool) && |squad| == |initial|
    ensures forall pos :: PositionCount(squad, pos) == PositionCount(initial, pos)
    ensures forall team :: 1 <= team <= 20 ==> team in teamCounts && teamCounts[team] == ClubCount(squad, team)
    ensures NoImprovingSwap(squad, pool, predictions)
    ensures Score(squad, predictions) >= Score(initial, predictions)
    ensures squad == initial || Cost(squad) <= Budget
  {
    squad, teamCounts := initial, initialTeamCounts;
    RankSumBounds(squad, pool, predictions);
    while true
      invariant ValidSquad(squad, pool) && |squad| == |initial|
      invariant forall pos :: PositionCount(squad, pos) == PositionCount(initial, pos)
      invariant forall team :: 1 <= team <= 20 ==> team in teamCounts && teamCounts[team] == ClubCount(squad, team)
      invariant Score(squad, predictions) >= Score(initial, predictions)
      invariant squad == initial || Cost(squad) <= Budget
      invariant 0 <= RankSum(squad, pool, predictions) <= |initial| * |pool|
      decreases |initial| * |pool| - RankSum(squad, pool, predictions)
    {
      var best := FindBestSwap(squad, pool, predictions, teamCounts);
      if best.None? {
        break;
      }
      var (out, p) := best.value;
      SwapValid(squad, pool, predictions, out, p);
      SwapGains(squad, pool, predictions, out, p);
      var next := RemoveFirst(squad, out.id) + [p];
      RankSumBounds(next, pool, predictions);
      CountsAfterSwap(squad, next, out, p, teamCounts);
      squad := next;
      teamCounts := teamCounts[out.team := teamCounts[out.team] - 1];
      teamCounts := teamCounts[p.team := teamCounts[p.team] + 1];
    }
  }

  /** `final_squad.sort(key=element_type)`: ascending position, ties in squad order. */
  function PositionKey(p: Element): real {
    -(p.elementType as real)
  }

  /**
   * The squad of `get_dream_team_optimizer_string` (every available player's
   * position in 1..4 and club in 1..20, the keys of `pos_counts` and
   * `team_counts`), its display order, total predicted score and total cost.
   */
  method DreamTeamOptimizer(b: Bootstrap, fixtures: seq<Fixture>, currentGameweek: int)
    returns (squad: seq<Element>, byPosition: seq<Element>, totalScore: real, totalCost: int)
    requires forall p :: p in b.elements && Available(p) ==> 1 <= p.elementType <= 4 && 1 <= p.team <= 20
    ensures var pool := Pool(b);
      var initial := Greedy(ByPrice(pool));
      var predictions := FplLogic.Predictions(b, fixtures, currentGameweek);
      ValidSquad(squad, pool) && |squad| == |initial|
      && NoImprovingSwap(squad, pool, predictions)
      && Score(squad, predictions) >= Score(initial, predictions)
      && (squad == initial || Cost(squad) <= Budget)
    ensures byPosition == SortDesc(squad, PositionKey)
    ensures totalScore == Score(squad, FplLogic.Predictions(b, fixtures, currentGameweek))
    ensures totalCost == Cost(squad)
  {
    var pool := Pool(b);
    PoolSound(b);
    var predictions := FplLogic.GetPredictions(b, fixtures, currentGameweek);
    var initial, posCounts, teamCounts := InitialSquad(pool);
    var sorted := ByPrice(pool);
    DistinctIdsPermutation(pool, sorted);
    GreedyValid(sorted);
    assert ValidSquad(initial, pool) by {
      forall x | x in initial ensures x in pool {
        assert x in multiset(sorted);
      }
    }
    squad, teamCounts := ImproveSquad(pool, predictions, initial, teamCounts);
    totalCost := Cost(squad);
    totalScore := Score(squad, predictions);
    byPosition := SortDesc(squad, PositionKey);
  }
}
