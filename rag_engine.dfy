/*
 * The retrieval engine behind the assistant's chat: documents built from the
 * fetched payloads, the knowledge base's document-frequency table, TF-IDF
 * retrieval, the answer assembled from the retrieved documents, the squad
 * projection and the parser that reads the league-prediction report back.
 *
 * Float formatting (`f"{x:.2f}"` and the payload's own numeric strings) is not
 * computed by the model: it is the `Render` parameter.
 */
module Rag {
  import opened Collections
  import opened Sorting
  import opened Numeric
  import opened FplData
  import Text
  import FplLogic

  // ---------------------------------------------------------------------------
  // Documents
  // ---------------------------------------------------------------------------

  /** How reals are written: `fixed(x, n)` is `f"{x:.nf}"`, `shown(x)` the payload's string for `x`. */
  datatype Render = Render(fixed: (real, nat) -> string, shown: real -> string)

  /** One pick in a squad projection. */
  datatype Detail = Detail(
    playerId: int,
    name: string,
    team: string,
    position: string,
    predicted: real,
    multiplier: int,
    isCaptain: bool,
    isVice: bool)

  /** A row read back from the league-prediction report. */
  datatype LeagueRow = LeagueRow(rank: int, manager: string, predictedScore: real)

  /** A row of the current league standings. */
  datatype Standing = Standing(rank: int, playerName: string, total: int)

  /** A document's `metadata`, one alternative per `doc_type`. */
  datatype Metadata =
    | PlayerInfo(playerId: int, team: string, position: string, price: real, prediction: real,
                 form: real, totalPoints: int, fixture: string, injuryText: string)
    | TeamInfo(teamId: int)
    | AiPlayerInfo(playerId: int, team: string, position: string, predicted: real, avgPoints: real, form: real)
    | AiOverviewInfo(model: string, trainedSamples: int)
    | TransferInfo
    | ProjectionInfo(predictedTotal: real, starters: seq<Detail>, bench: seq<Detail>, gameweek: int)
    | HeadToHeadInfo(leagueId: int, leagueName: Option<string>, results: seq<LeagueRow>)
    | CurrentLeagueInfo(leagueId: int, leagueName: Option<string>, standings: seq<Standing>)
    | ChipInfo
    | OtherInfo

  /** A document; `note` is the optional `metadata['note']`. */
  datatype Document = Document(
    id: string,
    title: string,
    text: string,
    metadata: Metadata,
    note: Option<string>)

  /** Every occurring token is counted at least once. */
  lemma {:induction false} OccurrencesPositive(tokens: seq<string>)
    ensures forall t :: t in tokens ==> Text.Occurrences(tokens, t) >= 1
  {
    forall t | t in tokens ensures Text.Occurrences(tokens, t) >= 1 {
      Text.OccurrencesPositive(tokens, t);
    }
  }

  /** `Counter(tokens)`: the tokens that occur, each with its number of occurrences. */
  function Counter(tokens: seq<string>): (c: map<string, nat>)
    ensures forall t :: t in c <==> t in tokens
    ensures forall t :: t in c ==> c[t] >= 1
  {
    OccurrencesPositive(tokens);
    map t | t in tokens :: Text.Occurrences(tokens, t)
  }

  /** A document as the builders make it, with no note. */
  function MakeDocument(id: string, title: string, text: string, metadata: Metadata): Document {
    Document(id, title, text, metadata, None)
  }

  /**
   * The document's `tokens`: every document is built with
   * `tokens=Counter(_tokenize(text))`, so the counter is a function of its text.
   */
  function Tokens(d: Document): map<string, nat> {
    Counter(Text.Tokenize(d.text))
  }

  // ---------------------------------------------------------------------------
  // Document frequencies
  // ---------------------------------------------------------------------------

  /** The number of documents whose counter holds `t`. */
  function DocCount(docs: seq<Document>, t: string): (n: nat)
    ensures n <= |docs|
  {
    if docs == [] then 0
    else DocCount(docs[..|docs| - 1], t) + (if t in Tokens(docs[|docs| - 1]) then 1 else 0)
  }

  /** Every token of every document. */
  function Vocabulary(docs: seq<Document>): set<string> {
    if docs == [] then {} else Vocabulary(docs[..|docs| - 1]) + Tokens(docs[|docs| - 1]).Keys
  }

  lemma {:induction false} VocabularyCounted(docs: seq<Document>, t: string)
    ensures t in Vocabulary(docs) <==> DocCount(docs, t) >= 1
  {
    if docs != [] {
      VocabularyCounted(docs[..|docs| - 1], t);
    }
  }

  /** The `doc_freq` table the knowledge base keeps. */
  function DocFreq(docs: seq<Document>): map<string, nat> {
    map t | t in Vocabulary(docs) :: DocCount(docs, t)
  }

  /** Every stored frequency lies between 1 and the number of documents. */
  lemma {:induction false} DocFreqBounds(docs: seq<Document>)
    ensures forall t :: t in DocFreq(docs) ==> 1 <= DocFreq(docs)[t] <= |docs|
  {
    forall t | t in Vocabulary(docs)
      ensures DocCount(docs, t) >= 1
    {
      VocabularyCounted(docs, t);
    }
  }

  /** A token is stored exactly when some document holds it. */
  lemma {:induction false} DocFreqHolds(docs: seq<Document>, k: nat, t: string)
    requires k < |docs| && t in Tokens(docs[k])
    ensures t in DocFreq(docs)
  {
    if k < |docs| - 1 {
      DocFreqHolds(docs[..|docs| - 1], k, t);
    }
  }

  lemma {:induction false} DocFreqStep(docs: seq<Document>, d: Document, t: string)
    ensures var next := DocFreq(docs + [d]);
            var prev := DocFreq(docs);
            (t in next <==> t in prev || t in Tokens(d))
            && (t in next ==> next[t] == (if t in prev then prev[t] else 0) + (if t in Tokens(d) then 1 else 0))
  {
    var all := docs + [d];
    assert all[..|all| - 1] == docs;
    VocabularyCounted(docs, t);
    VocabularyCounted(all, t);
  }

  /** `for token in doc.tokens: doc_freq[token] += 1` for one document. */
  method AddDocument(docFreq: map<string, nat>, tokens: map<string, nat>) returns (next: map<string, nat>)
    ensures forall t :: t in next <==> t in docFreq || t in tokens
    ensures forall t :: t in next ==>
      next[t] == (if t in docFreq then docFreq[t] else 0) + (if t in tokens then 1 else 0)
  {
    next := docFreq;
    var remaining := tokens.Keys;
    while remaining != {}
      invariant remaining <= tokens.Keys
      invariant forall t :: t in next <==> t in docFreq || (t in tokens && t !in remaining)
      invariant forall t :: t in next ==>
        next[t] == (if t in docFreq then docFreq[t] else 0) + (if t in tokens && t !in remaining then 1 else 0)
      decreases |remaining|
    {
      var t :| t in remaining;
      next := next[t := (if t in next then next[t] else 0) + 1];
      remaining := remaining - {t};
    }
  }

  // ---------------------------------------------------------------------------
  // The knowledge base
  // ---------------------------------------------------------------------------

  /** What `compute_ai_predictions` produced: the per-player predictions and the documents made from them. */
  datatype AiBundle = AiBundle(predictionMap: map<int, real>, documents: seq<Document>)

  /** `extras`: the AI bundle and the squad and league ids the knowledge base was built for. */
  datatype Extras = Extras(aiBundle: Option<AiBundle>, teamId: Option<int>, leagueId: Option<int>)

  class KnowledgeBase {
    var documents: seq<Document>
    var extras: Extras
    var totalDocs: nat
    var docFreq: map<string, nat>

    ghost predicate Valid()
      reads this
    {
      totalDocs == |documents| && docFreq == DocFreq(documents)
    }

    /** `KnowledgeBase(documents, extras)`: absent extras read as an empty dictionary. */
    constructor (docs: seq<Document>, given: Option<Extras>)
      ensures Valid()
      ensures documents == docs
      ensures extras == if given.Some? then given.value else Extras(None, None, None)
    {
      documents := docs;
      extras := if given.Some? then given.value else Extras(None, None, None);
      totalDocs := |docs|;
      var freq: map<string, nat> := map[];
      for k := 0 to |docs|
        invariant freq == DocFreq(docs[..k])
      {
        var next := AddDocument(freq, Tokens(docs[k]));
        assert docs[..k + 1] == docs[..k] + [docs[k]];
        forall t ensures (t in next <==> t in DocFreq(docs[..k + 1]))
          && (t in next ==> next[t] == DocFreq(docs[..k + 1])[t])
        {
          DocFreqStep(docs[..k], docs[k], t);
        }
        freq := next;
      }
      assert docs[..|docs|] == docs;
      docFreq := freq;
    }
  }

  // ---------------------------------------------------------------------------
  // The next fixture of a club
  // ---------------------------------------------------------------------------

  datatype Venue = Home | Away

  /** `f.get('event', 999)`. */
  function EventOf(f: Fixture): int {
    if f.event.Some? then f.event.value else 999
  }

  /** The ascending sort on the event, written as the descending sort on its negation. */
  function EventKey(f: Fixture): real {
    -(EventOf(f) as real)
  }

  function IsUpcoming(currentGameweek: int): Fixture -> bool {
    (f: Fixture) => Upcoming(f, currentGameweek)
  }

  /** The fixtures with a set gameweek not before the current one, earliest first, ties in list order. */
  function Schedule(fixtures: seq<Fixture>, currentGameweek: int): seq<Fixture> {
    SortDesc(Filter(fixtures, IsUpcoming(currentGameweek)), EventKey)
  }

  /** The first fixture the club plays in: the venue and the opponent. */
  function FirstInvolving(fs: seq<Fixture>, team: int): (r: Option<(Venue, int)>)
    ensures r.None? <==> forall i :: 0 <= i < |fs| ==> !Involves(fs[i], team)
  {
    if fs == [] then None
    else if fs[0].teamH == team then Some((Home, fs[0].teamA))
    else if fs[0].teamA == team then Some((Away, fs[0].teamH))
    else
      var r := FirstInvolving(fs[1..], team);
      assert forall i :: 1 <= i < |fs| ==> fs[i] == fs[1..][i - 1];
      r
  }

  /** `_find_next_fixture`. */
  function NextFixture(team: int, fixtures: seq<Fixture>, currentGameweek: int): Option<(Venue, int)> {
    FirstInvolving(Schedule(fixtures, currentGameweek), team)
  }

  /** `_find_next_fixture`: sort the upcoming fixtures, then return at the first one the club plays in. */
  method FindNextFixture(team: int, fixtures: seq<Fixture>, currentGameweek: int) returns (r: Option<(Venue, int)>)
    ensures r == NextFixture(team, fixtures, currentGameweek)
  {
    var upcoming := Schedule(fixtures, currentGameweek);
    for i := 0 to |upcoming|
      invariant FirstInvolving(upcoming[i..], team) == NextFixture(team, fixtures, currentGameweek)
    {
      var fixture := upcoming[i];
      assert upcoming[i..][1..] == upcoming[i + 1..];
      if fixture.teamH == team {
        return Some((Home, fixture.teamA));
      }
      if fixture.teamA == team {
        return Some((Away, fixture.teamH));
      }
    }
    return None;
  }

  /** No answer exactly when no upcoming fixture involves the club. */
  lemma {:induction false} NextFixtureNone(team: int, fixtures: seq<Fixture>, currentGameweek: int)
    ensures NextFixture(team, fixtures, currentGameweek).None?
        <==> forall f :: f in fixtures && Upcoming(f, currentGameweek) ==> !Involves(f, team)
  {
    var upcoming := Filter(fixtures, IsUpcoming(currentGameweek));
    var s := Schedule(fixtures, currentGameweek);
    if NextFixture(team, fixtures, currentGameweek).None? {
      forall f | f in fixtures && Upcoming(f, currentGameweek) ensures !Involves(f, team) {
        assert f in multiset(s);
      }
    } else {
      var i :| 0 <= i < |s| && Involves(s[i], team);
      assert s[i] in multiset(upcoming);
    }
  }

  /** The index of the fixture `FirstInvolving` answers from. */
  lemma {:induction false} FirstInvolvingAt(fs: seq<Fixture>, team: int) returns (j: nat)
    requires FirstInvolving(fs, team).Some?
    ensures j < |fs| && Involves(fs[j], team)
    ensures forall i :: 0 <= i < j ==> !Involves(fs[i], team)
    ensures FirstInvolving(fs, team)
         == if fs[j].teamH == team then Some((Home, fs[j].teamA)) else Some((Away, fs[j].teamH))
  {
    if fs[0].teamH == team || fs[0].teamA == team {
      j := 0;
    } else {
      var k := FirstInvolvingAt(fs[1..], team);
      j := k + 1;
    }
  }

  /**
   * The answer comes from an upcoming fixture the club plays in, home when it
   * is the home side, and no upcoming fixture of the club is earlier.
   */
  lemma {:induction false} NextFixtureEarliest(team: int, fixtures: seq<Fixture>, currentGameweek: int) returns (f: Fixture)
    requires NextFixture(team, fixtures, currentGameweek).Some?
    ensures f in fixtures && Upcoming(f, currentGameweek) && Involves(f, team)
    ensures NextFixture(team, fixtures, currentGameweek)
         == if f.teamH == team then Some((Home, f.teamA)) else Some((Away, f.teamH))
    ensures forall g :: g in fixtures && Upcoming(g, currentGameweek) && Involves(g, team) ==>
      f.event.value <= g.event.value
  {
    var s := Schedule(fixtures, currentGameweek);
    var j := FirstInvolvingAt(s, team);
    f := s[j];
    ScheduledUpcoming(fixtures, currentGameweek, j);
    forall g | g in fixtures && Upcoming(g, currentGameweek) && Involves(g, team)
      ensures f.event.value <= g.event.value
    {
      var i := ScheduledAt(fixtures, currentGameweek, g);
      assert j <= i;
      assert EventKey(s[j]) >= EventKey(s[i]);
    }
  }

  /** Every scheduled fixture is an upcoming fixture of the list. */
  lemma {:induction false} ScheduledUpcoming(fixtures: seq<Fixture>, currentGameweek: int, i: nat)
    requires i < |Schedule(fixtures, currentGameweek)|
    ensures var f := Schedule(fixtures, currentGameweek)[i]; f in fixtures && Upcoming(f, currentGameweek)
  {
    var upcoming := Filter(fixtures, IsUpcoming(currentGameweek));
    var f := Schedule(fixtures, currentGameweek)[i];
    assert f in multiset(upcoming);
    assert f in upcoming;
  }

  /** Every upcoming fixture of the list is scheduled. */
  lemma {:induction false} ScheduledAt(fixtures: seq<Fixture>, currentGameweek: int, g: Fixture) returns (i: nat)
    requires g in fixtures && Upcoming(g, currentGameweek)
    ensures i < |Schedule(fixtures, currentGameweek)| && Schedule(fixtures, currentGameweek)[i] == g
  {
    var upcoming := Filter(fixtures, IsUpcoming(currentGameweek));
    var s := Schedule(fixtures, currentGameweek);
    assert g in upcoming;
    assert g in multiset(s);
    i :| 0 <= i < |s| && s[i] == g;
  }

  /**
   * Among the upcoming fixtures that share the earliest event, the club's
   * first one in list order is the one found.
   */
  lemma {:induction false} FirstInvolvingSelect(s: seq<Fixture>, team: int, v: real, k: nat)
    requires NonIncreasing(s, EventKey)
    requires k < |s| && EventKey(s[k]) == v && Involves(s[k], team)
    requires forall i :: 0 <= i < |s| && EventKey(s[i]) > v ==> !Involves(s[i], team)
    ensures FirstInvolving(s, team) == FirstInvolving(Select(s, EventKey, v), team)
  {
    if EventKey(s[0]) > v {
      FirstInvolvingSelect(s[1..], team, v, k - 1);
    } else {
      assert EventKey(s[0]) == v;
      if !Involves(s[0], team) {
        FirstInvolvingSelect(s[1..], team, v, k - 1);
      }
    }
  }

  /** Ties on the event keep list order: the answer comes from the earliest event's fixtures in list order. */
  lemma {:induction false} NextFixtureTies(team: int, fixtures: seq<Fixture>, currentGameweek: int, f: Fixture)
    requires f in fixtures && Upcoming(f, currentGameweek) && Involves(f, team)
    requires forall g :: g in fixtures && Upcoming(g, currentGameweek) && Involves(g, team) ==>
      f.event.value <= g.event.value
    ensures NextFixture(team, fixtures, currentGameweek)
         == FirstInvolving(Select(Filter(fixtures, IsUpcoming(currentGameweek)), EventKey, EventKey(f)), team)
  {
    var upcoming := Filter(fixtures, IsUpcoming(currentGameweek));
    var s := Schedule(fixtures, currentGameweek);
    var k := ScheduledAt(fixtures, currentGameweek, f);
    forall i | 0 <= i < |s| && EventKey(s[i]) > EventKey(f) ensures !Involves(s[i], team) {
      ScheduledUpcoming(fixtures, currentGameweek, i);
    }
    FirstInvolvingSelect(s, team, EventKey(f), k);
    SortDescStable(upcoming, EventKey, EventKey(f));
  }

  // ---------------------------------------------------------------------------
  // Player and team documents
  // ---------------------------------------------------------------------------

  /** The payloads and lookup tables `build_knowledge_base` reads from `context`. */
  datatype Context = Context(
    bootstrap: Bootstrap,
    fixtures: seq<Fixture>,
    currentGameweek: int,
    teamMap: map<int, string>,
    positionMap: map<int, string>,
    playerLookup: map<int, Element>)

  /** `m.get(k, default)`. */
  function Lookup(m: map<int, string>, k: int, default: string): string {
    if k in m then m[k] else default
  }

  /** The fixture clause; an opponent id of 0 is falsy and reads as no fixture. */
  function FixtureText(next: Option<(Venue, int)>, teamMap: map<int, string>): string {
    if next.Some? && next.value.1 != 0 then
      "faces " + Lookup(teamMap, next.value.1, "Unknown") + " (" + (if next.value.0 == Home then "home" else "away") + ")"
    else "has no scheduled fixture"
  }

  /** The availability clause, empty for a fit player. */
  function InjuryText(p: Element): string {
    if p.status != "a" || (p.chance.Some? && p.chance.value < 100) then
      var chanceText := if p.chance.Some? then Text.IntString(p.chance.value) + "% chance" else "flagged";
      Text.Strip(". Availability: " + chanceText + ". " + p.news)
    else ""
  }

  /** A player's document, given the answer of the next-fixture search for the player's club. */
  function PlayerDocumentFrom(ctx: Context, render: Render, predictions: map<int, real>, p: Element,
                              next: Option<(Venue, int)>): Document
  {
    var teamName := Lookup(ctx.teamMap, p.team, "Unknown");
    var position := Lookup(ctx.positionMap, p.elementType, "UNK");
    var price := p.nowCost as real / 10.0;
    var prediction := FplLogic.PredictionFor(predictions, p.id);
    var fixture := FixtureText(next, ctx.teamMap);
    var injury := InjuryText(p);
    var text := p.webName + " is a " + position + " for " + teamName + ". Current form " + render.shown(p.form)
      + ", total points " + Text.IntString(p.totalPoints) + ", ICT index " + render.shown(p.ictIndex)
      + ". Price \U{a3}" + render.fixed(price, 1) + "m. Predicted points next GW " + render.fixed(prediction, 2)
      + ". Next " + fixture + injury + ".";
    MakeDocument("player-" + Text.IntString(p.id), p.webName + " (" + teamName + ")", text,
      PlayerInfo(p.id, teamName, position, price, prediction, p.form, p.totalPoints, fixture, injury))
  }

  function PlayerDocument(ctx: Context, render: Render, predictions: map<int, real>, p: Element): Document {
    PlayerDocumentFrom(ctx, render, predictions, p, NextFixture(p.team, ctx.fixtures, ctx.currentGameweek))
  }

  function TeamDocument(t: Team): Document {
    var text := t.name + " have scored " + Text.IntString(t.strengthAttackHome) + " attack strength at home and "
      + Text.IntString(t.strengthAttackAway) + " away. Defence strength home " + Text.IntString(t.strengthDefenceHome)
      + ", away " + Text.IntString(t.strengthDefenceAway) + ".";
    MakeDocument("team-" + Text.IntString(t.id), "Team outlook: " + t.name, text, TeamInfo(t.id))
  }

  function PlayerDocumentOf(ctx: Context, render: Render, predictions: map<int, real>): Element -> Document {
    (p: Element) => PlayerDocument(ctx, render, predictions, p)
  }

  /** `float(p.get('form', 0) or 0)`. */
  function FormKey(p: Element): real {
    p.form
  }

  /** The players that get a document: active ones by form, best first, cut to the limit. */
  function SelectedPlayers(elements: seq<Element>, playerLimit: int): seq<Element> {
    Take(SortDesc(Filter(elements, Active), FormKey), playerLimit)
  }

  /**
   * The squad id the later `if team_id:` sees: the player loop rebinds
   * `team_id`, so after at least one player document it is the last player's club.
   */
  function EffectiveTeamId(selected: seq<Element>, teamId: Option<int>): Option<int> {
    if selected == [] then teamId else Some(selected[|selected| - 1].team)
  }

  /** Python truthiness of an optional id: present and non-zero. */
  predicate Truthy(id: Option<int>) {
    id.Some? && id.value != 0
  }

  /**
   * The report-based documents, which fetch data the model does not see: each
   * gives None when its builder returns None (a failed fetch or an empty report).
   */
  datatype Reports = Reports(
    transfer: int -> Option<Document>,
    projection: (int, AiBundle) -> Option<Document>,
    chip: int -> Option<Document>,
    headToHead: int -> Option<Document>,
    currentLeague: int -> Option<Document>)

  function Optional(d: Option<Document>): seq<Document> {
    if d.Some? then [d.value] else []
  }

  function SquadDocuments(reports: Reports, ai: Option<AiBundle>, teamId: int): seq<Document> {
    Optional(reports.transfer(teamId))
      + (if ai.Some? then Optional(reports.projection(teamId, ai.value)) else [])
      + Optional(reports.chip(teamId))
  }

  function LeagueDocuments(reports: Reports, leagueId: int): seq<Document> {
    Optional(reports.headToHead(leagueId)) + Optional(reports.currentLeague(leagueId))
  }

  /**
   * The documents after the player and team documents: the AI documents,
   * then the squad documents behind `if team_id:`, then the league documents
   * behind `if league_id:`.
   */
  function ExtraDocuments(ai: Option<AiBundle>, squadId: Option<int>, leagueId: Option<int>, reports: Reports)
    : seq<Document>
  {
    (if ai.Some? then ai.value.documents else [])
      + (if Truthy(squadId) then SquadDocuments(reports, ai, squadId.value) else [])
      + (if Truthy(leagueId) then LeagueDocuments(reports, leagueId.value) else [])
  }

  /** The documents of `build_knowledge_base`, in order. */
  function KnowledgeBaseDocuments(ctx: Context, render: Render, playerLimit: int, teamId: Option<int>,
                                  leagueId: Option<int>, ai: Option<AiBundle>, reports: Reports): seq<Document>
  {
    var selected := SelectedPlayers(ctx.bootstrap.elements, playerLimit);
    var predictions := FplLogic.Predictions(ctx.bootstrap, ctx.fixtures, ctx.currentGameweek);
    Map(selected, PlayerDocumentOf(ctx, render, predictions))
      + Map(ctx.bootstrap.teams, TeamDocument)
      + ExtraDocuments(ai, EffectiveTeamId(selected, teamId), leagueId, reports)
  }

  /** The player loop of `build_knowledge_base`, which also rebinds `team_id` to each player's club. */
  method PlayerDocumentsLoop(ctx: Context, render: Render, predictions: map<int, real>, active: seq<Element>,
                             teamId: Option<int>)
    returns (documents: seq<Document>, squadId: Option<int>)
    ensures documents == Map(active, PlayerDocumentOf(ctx, render, predictions))
    ensures squadId == EffectiveTeamId(active, teamId)
  {
    documents := [];
    squadId := teamId;
    for i := 0 to |active|
      invariant documents == Map(active[..i], PlayerDocumentOf(ctx, render, predictions))
      invariant squadId == EffectiveTeamId(active[..i], teamId)
    {
      var player := active[i];
      squadId := Some(player.team);
      var next := FindNextFixture(player.team, ctx.fixtures, ctx.currentGameweek);
      assert active[..i + 1][..i] == active[..i];
      documents := documents + [PlayerDocumentFrom(ctx, render, predictions, player, next)];
    }
    assert active[..|active|] == active;
  }

  /** The team loop of `build_knowledge_base`. */
  method TeamDocumentsLoop(teams: seq<Team>) returns (documents: seq<Document>)
    ensures documents == Map(teams, TeamDocument)
  {
    documents := [];
    for j := 0 to |teams|
      invariant documents == Map(teams[..j], TeamDocument)
    {
      assert teams[..j + 1][..j] == teams[..j];
      documents := documents + [TeamDocument(teams[j])];
    }
    assert teams[..|teams|] == teams;
  }

  /**
   * `build_knowledge_base`. `ai` is the AI bundle, None when the prediction
   * module is missing or `compute_ai_predictions` raised.
   */
  method BuildKnowledgeBase(ctx: Context, render: Render, playerLimit: int, teamId: Option<int>,
                            leagueId: Option<int>, ai: Option<AiBundle>, reports: Reports)
    returns (kb: KnowledgeBase)
    ensures fresh(kb) && kb.Valid()
    ensures kb.documents == KnowledgeBaseDocuments(ctx, render, playerLimit, teamId, leagueId, ai, reports)
    ensures kb.extras
         == Extras(ai, EffectiveTeamId(SelectedPlayers(ctx.bootstrap.elements, playerLimit), teamId), leagueId)
  {
    var predictions := FplLogic.GetPredictions(ctx.bootstrap, ctx.fixtures, ctx.currentGameweek);
    var active := SelectedPlayers(ctx.bootstrap.elements, playerLimit);
    var playerDocs, squadId := PlayerDocumentsLoop(ctx, render, predictions, active, teamId);
    var teamDocs := TeamDocumentsLoop(ctx.bootstrap.teams);
    var documents := playerDocs + teamDocs + ExtraDocuments(ai, squadId, leagueId, reports);
    kb := new KnowledgeBase(documents, Some(Extras(ai, squadId, leagueId)));
  }

  /** The players with documents are active, at most `playerLimit` of them, best form first. */
  lemma {:induction false} PlayerSelection(elements: seq<Element>, playerLimit: int)
    ensures var selected := SelectedPlayers(elements, playerLimit);
      && (0 <= playerLimit ==> |selected| <= playerLimit)
      && (forall i :: 0 <= i < |selected| ==> Active(selected[i]))
      && NonIncreasing(selected, FormKey)
  {
    var active := Filter(elements, Active);
    var sorted := SortDesc(active, FormKey);
    var selected := SelectedPlayers(elements, playerLimit);
    assert selected == sorted[..|selected|];
    forall i | 0 <= i < |selected| ensures Active(selected[i]) {
      assert selected[i] in multiset(active);
    }
  }

  /** The selected players come from the payload. */
  lemma {:induction false} PlayerSelectionFrom(elements: seq<Element>, playerLimit: int)
    ensures multiset(SelectedPlayers(elements, playerLimit)) <= multiset(elements)
  {
    var active := Filter(elements, Active);
    var sorted := SortDesc(active, FormKey);
    var k := |SelectedPlayers(elements, playerLimit)|;
    assert sorted == sorted[..k] + sorted[k..];
    assert multiset(sorted[..k]) <= multiset(sorted);
    FilterSubMultiset(elements, Active);
  }

  /** No active player left out has better form than the last one kept. */
  lemma {:induction false} PlayerSelectionTop(elements: seq<Element>, playerLimit: int, p: Element)
    requires SelectedPlayers(elements, playerLimit) != []
    requires p in elements && Active(p) && p !in multiset(SelectedPlayers(elements, playerLimit))
    ensures var selected := SelectedPlayers(elements, playerLimit); p.form <= selected[|selected| - 1].form
  {
    var active := Filter(elements, Active);
    var selected := SelectedPlayers(elements, playerLimit);
    var k := |selected|;
    assert selected == SortDesc(active, FormKey)[..k];
    TopK(active, FormKey, k);
    assert p in active;
    assert p in multiset(active) - multiset(selected);
  }

  /** A filter keeps a sub-multiset of its input. */
  lemma {:induction false} FilterSubMultiset<T>(xs: seq<T>, p: T -> bool)
    ensures multiset(Filter(xs, p)) <= multiset(xs)
  {
    if xs != [] {
      FilterSubMultiset(xs[1..], p);
      assert xs == [xs[0]] + xs[1..];
    }
  }

  /**
   * The documents start with one player document per selected player, in
   * selection order, followed by one team document per club, in payload order.
   */
  lemma {:induction false} KnowledgeBaseLayout(ctx: Context, render: Render, playerLimit: int, teamId: Option<int>,
                            leagueId: Option<int>, ai: Option<AiBundle>, reports: Reports)
    ensures var docs := KnowledgeBaseDocuments(ctx, render, playerLimit, teamId, leagueId, ai, reports);
      var selected := SelectedPlayers(ctx.bootstrap.elements, playerLimit);
      var predictions := FplLogic.Predictions(ctx.bootstrap, ctx.fixtures, ctx.currentGameweek);
      var k := |selected|;
      var n := |ctx.bootstrap.teams|;
      && k + n <= |docs|
      && docs[..k] == Map(selected, PlayerDocumentOf(ctx, render, predictions))
      && docs[k..k + n] == Map(ctx.bootstrap.teams, TeamDocument)
  {
    var selected := SelectedPlayers(ctx.bootstrap.elements, playerLimit);
    var predictions := FplLogic.Predictions(ctx.bootstrap, ctx.fixtures, ctx.currentGameweek);
    var players := Map(selected, PlayerDocumentOf(ctx, render, predictions));
    var teamDocs := Map(ctx.bootstrap.teams, TeamDocument);
    var extra := ExtraDocuments(ai, EffectiveTeamId(selected, teamId), leagueId, reports);
    var docs := players + teamDocs + extra;
    assert docs[..|players|] == players;
    assert docs[|players|..|players| + |teamDocs|] == teamDocs;
  }

  /** A player document is about its player. */
  lemma {:induction false} PlayerDocumentAbout(ctx: Context, render: Render, predictions: map<int, real>, p: Element)
    ensures var d := PlayerDocument(ctx, render, predictions, p);
      && d.metadata.PlayerInfo? && d.metadata.playerId == p.id
      && d.metadata.prediction == FplLogic.PredictionFor(predictions, p.id)
      && d.metadata.form == p.form && d.metadata.totalPoints == p.totalPoints
  {
  }

  /**
   * The rebinding of `team_id`: once a player document exists, the squad
   * documents follow the last player's club, whatever squad id the caller gave.
   */
  lemma {:induction false} SquadIdIgnored(ctx: Context, render: Render, playerLimit: int, teamId: Option<int>, otherId: Option<int>,
                       leagueId: Option<int>, ai: Option<AiBundle>, reports: Reports)
    requires SelectedPlayers(ctx.bootstrap.elements, playerLimit) != []
    ensures KnowledgeBaseDocuments(ctx, render, playerLimit, teamId, leagueId, ai, reports)
         == KnowledgeBaseDocuments(ctx, render, playerLimit, otherId, leagueId, ai, reports)
  {
  }

  // ---------------------------------------------------------------------------
  // Retrieval
  // ---------------------------------------------------------------------------

  /** `kb.doc_freq[token]` on the defaultdict. */
  function FreqOf(docFreq: map<string, nat>, t: string): nat {
    if t in docFreq then docFreq[t] else 0
  }

  /** One query token's contribution `q_tf * tf * idf`. */
  function Term(m: LawfulMath, total: nat, df: nat, qtf: int, tf: nat): real {
    qtf as real * tf as real * Idf(m, total, df)
  }

  /** A document's score: the contributions of the query tokens it holds, in query-counter order. */
  function Score(m: LawfulMath, docFreq: map<string, nat>, total: nat, query: Dict<string, int>, d: Document): real {
    Weigh(m, docFreq, total, query, Tokens(d))
  }

  /** The sum of the terms of the query tokens that occur in `tokens`, in query-counter order. */
  function Weigh(m: LawfulMath, docFreq: map<string, nat>, total: nat, query: Dict<string, int>,
                 tokens: map<string, nat>): real
  {
    if query == [] then 0.0
    else
      var t := query[|query| - 1].0;
      Weigh(m, docFreq, total, query[..|query| - 1], tokens)
        + if t in tokens then Term(m, total, FreqOf(docFreq, t), query[|query| - 1].1, tokens[t]) else 0.0
  }

  /** The `(score, doc)` pairs of the documents with a positive score, in corpus order. */
  function Scored(docs: seq<Document>, score: Document -> real): seq<(real, Document)> {
    if docs == [] then []
    else
      (if score(docs[0]) > 0.0 then [(score(docs[0]), docs[0])] else []) + Scored(docs[1..], score)
  }

  /** `Score` for one knowledge base and query, as a function of the document. */
  function ScoreOf(m: LawfulMath, docFreq: map<string, nat>, total: nat, query: Dict<string, int>)
    : Document -> real
  {
    d => Score(m, docFreq, total, query, d)
  }

  function PairScore(p: (real, Document)): real {
    p.0
  }

  function Seconds(ps: seq<(real, Document)>): (docs: seq<Document>)
    ensures |docs| == |ps|
    ensures forall i :: 0 <= i < |ps| ==> docs[i] == ps[i].1
  {
    if ps == [] then [] else [ps[0].1] + Seconds(ps[1..])
  }

  /** The query's token counter, `Counter(_tokenize(query))`, in first-occurrence order. */
  function QueryCounter(query: string): Dict<string, int> {
    Text.CountTokens(Text.Tokenize(query))
  }

  /** The scored pairs sorted by score, best first, ties in corpus order (`scored_docs.sort`). */
  function Ranked(m: LawfulMath, docs: seq<Document>, docFreq: map<string, nat>, total: nat, query: string)
    : seq<(real, Document)>
  {
    SortDesc(Scored(docs, ScoreOf(m, docFreq, total, QueryCounter(query))), PairScore)
  }

  /** The documents `retrieve` keeps once the scores are fixed: the first `top_k` of the ranking. */
  function Kept(docs: seq<Document>, score: Document -> real, topK: int): seq<Document> {
    Seconds(Take(SortDesc(Scored(docs, score), PairScore), topK))
  }

  /** `retrieve` on a knowledge base with these documents, frequencies and document count. */
  function Retrieval(m: LawfulMath, docs: seq<Document>, docFreq: map<string, nat>, total: nat,
                     query: string, topK: int): seq<Document>
  {
    if total == 0 || Text.Tokenize(query) == [] then []
    else Kept(docs, ScoreOf(m, docFreq, total, QueryCounter(query)), topK)
  }

  lemma {:induction false} ScoredSnoc(docs: seq<Document>, score: Document -> real, d: Document)
    ensures Scored(docs + [d], score) == Scored(docs, score) + if score(d) > 0.0 then [(score(d), d)] else []
  {
    if docs != [] {
      assert (docs + [d])[1..] == docs[1..] + [d];
      ScoredSnoc(docs[1..], score, d);
    }
  }

  /** The inner loop of `retrieve`: one document's score. */
  method DocumentScore(m: LawfulMath, docFreq: map<string, nat>, total: nat, query: Dict<string, int>, d: Document)
    returns (score: real)
    ensures score == Score(m, docFreq, total, query, d)
  {
    score := 0.0;
    var tokens := Tokens(d);
    for j := 0 to |query|
      invariant score == Weigh(m, docFreq, total, query[..j], tokens)
    {
      var (token, qtf) := query[j];
      WeighLast(m, docFreq, total, query, tokens, j);
      if token in tokens {
        var tf := tokens[token];
        var idf := Idf(m, total, FreqOf(docFreq, token));
        score := score + qtf as real * tf as real * idf;
      }
    }
    assert query[..|query|] == query;
  }

  /** One more query token adds its term when the document holds it. */
  lemma {:induction false} WeighLast(m: LawfulMath, docFreq: map<string, nat>, total: nat, query: Dict<string, int>,
                                     tokens: map<string, nat>, j: nat)
    requires j < |query|
    ensures var t := query[j].0;
      Weigh(m, docFreq, total, query[..j + 1], tokens)
        == Weigh(m, docFreq, total, query[..j], tokens)
           + if t in tokens then Term(m, total, FreqOf(docFreq, t), query[j].1, tokens[t]) else 0.0
  {
    assert query[..j + 1][..j] == query[..j] && query[..j + 1][j] == query[j];
  }

  /** `retrieve(query, kb, top_k)`. */
  method Retrieve(m: LawfulMath, query: string, kb: KnowledgeBase, topK: int) returns (docs: seq<Document>)
    ensures docs == Retrieval(m, kb.documents, kb.docFreq, kb.totalDocs, query, topK)
  {
    if kb.totalDocs == 0 {
      return [];
    }
    var tokens := Text.Tokenize(query);
    if tokens == [] {
      return [];
    }
    var counter := Text.CountTokens(tokens);
    var scored: seq<(real, Document)> := [];
    var all := kb.documents;
    for i := 0 to |all|
      invariant scored == Scored(all[..i], ScoreOf(m, kb.docFreq, kb.totalDocs, counter))
    {
      var d := all[i];
      var score := DocumentScore(m, kb.docFreq, kb.totalDocs, counter, d);
      ScoredSnoc(all[..i], ScoreOf(m, kb.docFreq, kb.totalDocs, counter), d);
      assert all[..i + 1] == all[..i] + [d];
      if score > 0.0 {
        scored := scored + [(score, d)];
      }
    }
    assert all[..|all|] == all;
    var ranked := SortDesc(scored, PairScore);
    docs := Seconds(Take(ranked, topK));
  }

  // ---------------------------------------------------------------------------
  // What retrieval promises
  // ---------------------------------------------------------------------------

  /** The document holds at least one of the query's tokens. */
  predicate Shares(query: string, d: Document) {
    exists t :: t in Text.Tokenize(query) && t in Tokens(d)
  }

  /** Every token of a stored document has a frequency between 1 and the number of documents. */
  lemma {:induction false} TokensCounted(docs: seq<Document>, k: nat)
    requires k < |docs|
    ensures forall t :: t in Tokens(docs[k]) ==> 1 <= FreqOf(DocFreq(docs), t) <= |docs|
  {
    DocFreqBounds(docs);
    forall t | t in Tokens(docs[k]) ensures t in DocFreq(docs) {
      DocFreqHolds(docs, k, t);
    }
  }

  lemma {:induction false} ProductAtLeastOne(a: real, b: real)
    requires a >= 1.0 && b >= 1.0
    ensures a * b >= 1.0
  {
    assert a * b - 1.0 == (a - 1.0) * b + (b - 1.0);
  }

  /**
   * A score is never negative, and it is positive exactly when the document
   * holds one of the counted query tokens (each counted at least once, each
   * with a frequency no larger than the document count).
   */
  lemma {:induction false} ScorePositive(m: LawfulMath, docFreq: map<string, nat>, total: nat,
                                         query: Dict<string, int>, tokens: map<string, nat>)
    requires Text.PositiveCounts(query)
    requires forall t :: t in tokens ==> tokens[t] >= 1 && FreqOf(docFreq, t) <= total
    ensures Weigh(m, docFreq, total, query, tokens) >= 0.0
    ensures Weigh(m, docFreq, total, query, tokens) > 0.0 <==> exists i :: 0 <= i < |query| && query[i].0 in tokens
  {
    if query != [] {
      var init, t, qtf := query[..|query| - 1], query[|query| - 1].0, query[|query| - 1].1;
      ScorePositive(m, docFreq, total, init, tokens);
      if t in tokens {
        var idf := Idf(m, total, FreqOf(docFreq, t));
        ProductAtLeastOne(qtf as real, tokens[t] as real);
        ProductAtLeastOne(qtf as real * tokens[t] as real, idf);
      }
      if exists i :: 0 <= i < |query| && query[i].0 in tokens {
        var i :| 0 <= i < |query| && query[i].0 in tokens;
        if i < |init| {
          assert init[i].0 in tokens;
        }
      }
    }
  }

  /** Every scored pair carries a document of the corpus and that document's positive score. */
  lemma {:induction false} ScoredFrom(docs: seq<Document>, score: Document -> real)
    ensures forall p :: p in Scored(docs, score) ==> p.1 in docs && p.0 == score(p.1) && p.0 > 0.0
  {
    if docs != [] {
      ScoredFrom(docs[1..], score);
    }
  }

  /** The documents with a given positive score, in corpus order. */
  function ScoreIs(score: Document -> real, v: real): Document -> bool {
    d => score(d) == v
  }

  lemma {:induction false} ScoredTies(docs: seq<Document>, score: Document -> real, v: real)
    requires v > 0.0
    ensures Seconds(Select(Scored(docs, score), PairScore, v)) == Filter(docs, ScoreIs(score, v))
  {
    if docs != [] {
      ScoredTies(docs[1..], score, v);
      var rest := Scored(docs[1..], score);
      var pair := (score(docs[0]), docs[0]);
      if score(docs[0]) > 0.0 {
        assert ([pair] + rest)[1..] == rest;
        if score(docs[0]) == v {
          var tail := Select(rest, PairScore, v);
          assert Select([pair] + rest, PairScore, v) == [pair] + tail;
          assert ([pair] + tail)[1..] == tail;
        } else {
          assert Select([pair] + rest, PairScore, v) == Select(rest, PairScore, v);
        }
        assert Scored(docs, score) == [pair] + rest;
      } else {
        assert Scored(docs, score) == rest;
      }
      assert ScoreIs(score, v)(docs[0]) <==> score(docs[0]) == v;
    }
  }

  /** What is kept are corpus documents with a positive score, best first. */
  lemma {:induction false} KeptRanked(docs: seq<Document>, score: Document -> real, topK: int)
    ensures var r := Kept(docs, score, topK);
      && (0 <= topK ==> |r| <= topK)
      && (forall i :: 0 <= i < |r| ==> r[i] in docs && score(r[i]) > 0.0)
      && (forall i, j :: 0 <= i < j < |r| ==> score(r[i]) >= score(r[j]))
  {
    var scored := Scored(docs, score);
    var ranked := SortDesc(scored, PairScore);
    var r := Kept(docs, score, topK);
    assert r == Seconds(ranked[..|r|]);
    ScoredFrom(docs, score);
    forall i | 0 <= i < |r| ensures r[i] == ranked[i].1 && ranked[i].0 == score(r[i]) && r[i] in docs && score(r[i]) > 0.0 {
      assert ranked[i] in multiset(scored);
    }
  }

  /**
   * `retrieve` returns at most `top_k` documents (none for an empty knowledge
   * base or a query without tokens), each one from the knowledge base, with a
   * positive score and so holding at least one query token.
   */
  lemma {:induction false} RetrievedRelevant(m: LawfulMath, docs: seq<Document>, query: string, topK: int)
    ensures var r := Retrieval(m, docs, DocFreq(docs), |docs|, query, topK);
      && (0 <= topK ==> |r| <= topK)
      && (docs == [] || Text.Tokenize(query) == [] ==> r == [])
      && forall i :: 0 <= i < |r| ==>
           && r[i] in docs
           && Score(m, DocFreq(docs), |docs|, QueryCounter(query), r[i]) > 0.0
           && Shares(query, r[i])
  {
    var r := Retrieval(m, docs, DocFreq(docs), |docs|, query, topK);
    if docs != [] && Text.Tokenize(query) != [] {
      var counter := QueryCounter(query);
      var score := ScoreOf(m, DocFreq(docs), |docs|, counter);
      assert r == Kept(docs, score, topK);
      KeptRanked(docs, score, topK);
      Text.CountTokensPositive(Text.Tokenize(query));
      forall i | 0 <= i < |r| ensures Shares(query, r[i]) {
        SharesQuery(m, docs, query, r[i]);
      }
    }
  }

  /** A corpus document with a positive score holds one of the query's tokens. */
  lemma {:induction false} SharesQuery(m: LawfulMath, docs: seq<Document>, query: string, d: Document)
    requires d in docs && Score(m, DocFreq(docs), |docs|, QueryCounter(query), d) > 0.0
    ensures Shares(query, d)
  {
    var counter := QueryCounter(query);
    var k :| 0 <= k < |docs| && docs[k] == d;
    TokensCounted(docs, k);
    Text.CountTokensPositive(Text.Tokenize(query));
    ScorePositive(m, DocFreq(docs), |docs|, counter, Tokens(d));
    var j :| 0 <= j < |counter| && counter[j].0 in Tokens(d);
    Text.CountTokensKeys(Text.Tokenize(query), counter[j].0);
    assert Keys(counter)[j] == counter[j].0;
  }

  /** The retrieved documents come best first. */
  lemma {:induction false} RetrievedOrdered(m: LawfulMath, docs: seq<Document>, query: string, topK: int)
    ensures var r := Retrieval(m, docs, DocFreq(docs), |docs|, query, topK);
      forall i, j :: 0 <= i < j < |r| ==>
        Score(m, DocFreq(docs), |docs|, QueryCounter(query), r[i])
          >= Score(m, DocFreq(docs), |docs|, QueryCounter(query), r[j])
  {
    if docs != [] && Text.Tokenize(query) != [] {
      KeptRanked(docs, ScoreOf(m, DocFreq(docs), |docs|, QueryCounter(query)), topK);
    }
  }

  /**
   * Top-k: a document of the knowledge base with a positive score that was
   * not retrieved scores no higher than the last document retrieved.
   */
  lemma {:induction false} RetrievedTop(m: LawfulMath, docs: seq<Document>, query: string, topK: int, d: Document)
    requires d in docs && Score(m, DocFreq(docs), |docs|, QueryCounter(query), d) > 0.0
    requires var r := Retrieval(m, docs, DocFreq(docs), |docs|, query, topK); r != [] && d !in r
    ensures var r := Retrieval(m, docs, DocFreq(docs), |docs|, query, topK);
      Score(m, DocFreq(docs), |docs|, QueryCounter(query), d)
        <= Score(m, DocFreq(docs), |docs|, QueryCounter(query), r[|r| - 1])
  {
    var r := Retrieval(m, docs, DocFreq(docs), |docs|, query, topK);
    var score := ScoreOf(m, DocFreq(docs), |docs|, QueryCounter(query));
    var ranked := SortDesc(Scored(docs, score), PairScore);
    var k := |r|;
    assert r == Seconds(ranked[..k]);
    RankedTop(docs, score, k, d);
  }

  /** A prefix of the ranking holds the best scores of the corpus. */
  lemma {:induction false} RankedTop(docs: seq<Document>, score: Document -> real, k: nat, d: Document)
    requires d in docs && score(d) > 0.0
    requires var ranked := SortDesc(Scored(docs, score), PairScore);
      0 < k <= |ranked| && d !in Seconds(ranked[..k])
    ensures var ranked := SortDesc(Scored(docs, score), PairScore);
      score(d) <= ranked[k - 1].0 == score(ranked[k - 1].1)
  {
    var scored := Scored(docs, score);
    var ranked := SortDesc(scored, PairScore);
    var top := ranked[..k];
    var pair := (score(d), d);
    ScoredHas(docs, score, d);
    assert pair !in top;
    assert pair in multiset(scored) - multiset(top);
    TopK(scored, PairScore, k);
    var last := ranked[k - 1];
    assert last in multiset(ranked);
    ScoredFrom(docs, score);
    assert last in scored;
  }

  /** A corpus document with a positive score is among the scored pairs. */
  lemma {:induction false} ScoredHas(docs: seq<Document>, score: Document -> real, d: Document)
    requires d in docs && score(d) > 0.0
    ensures (score(d), d) in Scored(docs, score)
  {
    if docs[0] != d {
      ScoredHas(docs[1..], score, d);
    }
  }

  /**
   * Stability: the ranking lists the documents of any one score in corpus order.
   */
  lemma {:induction false} RankedTies(m: LawfulMath, docs: seq<Document>, query: string, v: real)
    requires v > 0.0
    ensures var ranked := Ranked(m, docs, DocFreq(docs), |docs|, query);
      Seconds(Select(ranked, PairScore, v)) == Filter(docs, ScoreIs(ScoreOf(m, DocFreq(docs), |docs|, QueryCounter(query)), v))
  {
    var counter := QueryCounter(query);
    SortDescStable(Scored(docs, ScoreOf(m, DocFreq(docs), |docs|, counter)), PairScore, v);
    ScoredTies(docs, ScoreOf(m, DocFreq(docs), |docs|, counter), v);
  }

  // ---------------------------------------------------------------------------
  // Squad projection
  // ---------------------------------------------------------------------------

  /** What `compute_team_projection` returns. */
  datatype Projection = Projection(predictedTotal: real, starters: seq<Detail>, bench: seq<Detail>, gameweek: int)

  /** A player's projected points: the AI prediction if there is one, else the fallback model's, else 0. */
  function Projected(aiPredictions: map<int, real>, fallback: map<int, real>, id: int): real {
    if id in aiPredictions then aiPredictions[id] else FplLogic.PredictionFor(fallback, id)
  }

  /** The detail of one pick; 'Unknown', 'N/A' and 'UNK' stand in for what the lookups lack. */
  function PickDetail(ctx: Context, aiPredictions: map<int, real>, fallback: map<int, real>, pick: Pick): Detail {
    var id := pick.element;
    var known := id in ctx.playerLookup;
    Detail(
      id,
      if known then ctx.playerLookup[id].webName else "Unknown",
      if known then Lookup(ctx.teamMap, ctx.playerLookup[id].team, "N/A") else "N/A",
      if known then Lookup(ctx.positionMap, ctx.playerLookup[id].elementType, "UNK") else "UNK",
      Projected(aiPredictions, fallback, id),
      pick.multiplier,
      pick.isCaptain,
      pick.isViceCaptain)
  }

  function PickDetailOf(ctx: Context, aiPredictions: map<int, real>, fallback: map<int, real>): Pick -> Detail {
    pick => PickDetail(ctx, aiPredictions, fallback, pick)
  }

  predicate Starting(d: Detail) {
    d.multiplier > 0
  }

  predicate Benched(d: Detail) {
    d.multiplier <= 0
  }

  /** The points the details bring: each prediction times its multiplier. */
  function Points(details: seq<Detail>): real {
    if details == [] then 0.0
    else Points(details[..|details| - 1]) + Contribution(details[|details| - 1])
  }

  /** One starter's share of the total: its prediction times its multiplier. */
  function Contribution(d: Detail): real {
    d.predicted * d.multiplier as real
  }

  /** The fallback model's predictions, `get_predictions` on the context's payloads. */
  function Fallback(ctx: Context): map<int, real> {
    FplLogic.Predictions(ctx.bootstrap, ctx.fixtures, ctx.currentGameweek)
  }

  /** The details of the picks, in pick order. */
  function PickDetails(ctx: Context, aiPredictions: map<int, real>, picks: seq<Pick>): seq<Detail> {
    Map(picks, PickDetailOf(ctx, aiPredictions, Fallback(ctx)))
  }

  /** The projection of a list of details: starters and bench in pick order, the starters' points as total. */
  function ProjectionFrom(details: seq<Detail>, gameweek: int): Projection {
    var starters := Filter(details, Starting);
    Projection(Points(starters), starters, Filter(details, Benched), gameweek)
  }

  /** The projection of a squad's picks. */
  function ProjectionOf(ctx: Context, aiPredictions: map<int, real>, picks: seq<Pick>): Projection {
    ProjectionFrom(PickDetails(ctx, aiPredictions, picks), ctx.currentGameweek)
  }

  /** `compute_team_projection`: None when the picks could not be fetched. */
  function TeamProjection(ctx: Context, aiPredictions: map<int, real>, picks: Option<seq<Pick>>): Option<Projection> {
    if picks.None? then None else Some(ProjectionOf(ctx, aiPredictions, picks.value))
  }

  /** `compute_team_projection(context, team_id, ai_bundle)`, given the result of fetching the picks. */
  method ComputeTeamProjection(ctx: Context, ai: AiBundle, picks: Option<seq<Pick>>) returns (r: Option<Projection>)
    ensures r == TeamProjection(ctx, ai.predictionMap, picks)
  {
    if picks.None? {
      return None;
    }
    var fallback := FplLogic.GetPredictions(ctx.bootstrap, ctx.fixtures, ctx.currentGameweek);
    var all := picks.value;
    var detailOf := PickDetailOf(ctx, ai.predictionMap, fallback);
    ghost var details := Map(all, detailOf);
    var starters: seq<Detail> := [];
    var bench: seq<Detail> := [];
    var total := 0.0;
    for i := 0 to |all|
      invariant starters == Filter(details[..i], Starting)
      invariant bench == Filter(details[..i], Benched)
      invariant total == Points(starters)
    {
      var detail := detailOf(all[i]);
      FilterPrefix(details, i, Starting);
      FilterPrefix(details, i, Benched);
      starters, bench, total := PlaceDetail(detail, starters, bench, total);
    }
    assert details[..|all|] == details;
    assert details == PickDetails(ctx, ai.predictionMap, all);
    return Some(Projection(total, starters, bench, ctx.currentGameweek));
  }

  /** One pass of the pick loop: a starter adds its points and joins the starters, anyone else the bench. */
  method PlaceDetail(detail: Detail, starters: seq<Detail>, bench: seq<Detail>, total: real)
    returns (starters': seq<Detail>, bench': seq<Detail>, total': real)
    requires total == Points(starters)
    ensures starters' == starters + if Starting(detail) then [detail] else []
    ensures bench' == bench + if Benched(detail) then [detail] else []
    ensures total' == Points(starters')
  {
    if detail.multiplier > 0 {
      PointsSnoc(starters, detail);
      starters', bench', total' := starters + [detail], bench, total + Contribution(detail);
    } else {
      assert starters + [] == starters;
      starters', bench', total' := starters, bench + [detail], total;
    }
  }

  /**
   * Every pick lands in exactly one of starters (multiplier above 0) and
   * bench, each detail carrying its pick's player, multiplier and armbands.
   */
  lemma {:induction false} ProjectionPartition(ctx: Context, aiPredictions: map<int, real>, picks: seq<Pick>)
    ensures var pr := ProjectionOf(ctx, aiPredictions, picks);
      var details := PickDetails(ctx, aiPredictions, picks);
      && |details| == |picks|
      && (forall i :: 0 <= i < |picks| ==>
            && details[i].playerId == picks[i].element
            && details[i].multiplier == picks[i].multiplier
            && details[i].isCaptain == picks[i].isCaptain
            && details[i].isVice == picks[i].isViceCaptain)
      && multiset(pr.starters) + multiset(pr.bench) == multiset(details)
      && (forall d :: d in pr.starters ==> d.multiplier > 0)
      && (forall d :: d in pr.bench ==> d.multiplier <= 0)
  {
    var details := PickDetails(ctx, aiPredictions, picks);
    FilterPartition(details, Starting, Benched);
  }

  /** The predicted points of a pick come from the AI map first, then the fallback model. */
  lemma {:induction false} ProjectedSource(ctx: Context, aiPredictions: map<int, real>, picks: seq<Pick>, i: nat)
    requires i < |picks|
    ensures var d := PickDetails(ctx, aiPredictions, picks)[i];
      var fallback := FplLogic.Predictions(ctx.bootstrap, ctx.fixtures, ctx.currentGameweek);
      var id := picks[i].element;
      && (id in aiPredictions ==> d.predicted == aiPredictions[id])
      && (id !in aiPredictions && id in fallback ==> d.predicted == fallback[id])
      && (id !in aiPredictions && id !in fallback ==> d.predicted == 0.0)
  {
  }

  lemma {:induction false} PointsSnoc(details: seq<Detail>, d: Detail)
    ensures Points(details + [d]) == Points(details) + Contribution(d)
  {
    var all := details + [d];
    assert all[|all| - 1] == d && all[..|all| - 1] == details;
  }

  /** Points over a list of details extended at the end, starters only. */
  lemma {:induction false} StartersPointsSnoc(details: seq<Detail>, d: Detail)
    ensures Points(Filter(details + [d], Starting))
         == Points(Filter(details, Starting)) + if d.multiplier > 0 then Contribution(d) else 0.0
  {
    FilterSnoc(details, d, Starting);
    var s := Filter(details, Starting);
    if d.multiplier > 0 {
      PointsSnoc(s, d);
    } else {
      assert s + [] == s;
    }
  }

  /**
   * Without AI predictions, and with multipliers of 2 for the captain and 1
   * for the other starters, the projected total is the manager score the
   * league predictions use (`FplLogic.WeightedTotal`).
   */
  lemma {:induction false} ProjectionWeighted(ctx: Context, picks: seq<Pick>, captain: Option<int>)
    requires forall i :: 0 <= i < |picks| && picks[i].multiplier > 0 ==>
      picks[i].multiplier == if captain == Some(picks[i].element) then 2 else 1
    ensures ProjectionOf(ctx, map[], picks).predictedTotal == FplLogic.WeightedTotal(picks, captain, Fallback(ctx))
  {
    PointsWeighted(ctx, Fallback(ctx), picks, captain);
  }

  lemma {:induction false} PointsWeighted(ctx: Context, fallback: map<int, real>, picks: seq<Pick>, captain: Option<int>)
    requires forall i :: 0 <= i < |picks| && picks[i].multiplier > 0 ==>
      picks[i].multiplier == if captain == Some(picks[i].element) then 2 else 1
    ensures Points(Filter(Map(picks, PickDetailOf(ctx, map[], fallback)), Starting))
         == FplLogic.WeightedTotal(picks, captain, fallback)
  {
    if picks != [] {
      var init, last := picks[..|picks| - 1], picks[|picks| - 1];
      PointsWeighted(ctx, fallback, init, captain);
      StartersSnoc(ctx, fallback, picks);
      if last.multiplier > 0 {
        WeightedContribution(ctx, fallback, last, captain);
      }
    }
  }

  /** The starters' points of a pick list, from those of all but its last pick. */
  lemma {:induction false} StartersSnoc(ctx: Context, fallback: map<int, real>, picks: seq<Pick>)
    requires picks != []
    ensures var f := PickDetailOf(ctx, map[], fallback);
      var last := picks[|picks| - 1];
      Points(Filter(Map(picks, f), Starting))
        == Points(Filter(Map(picks[..|picks| - 1], f), Starting))
           + if last.multiplier > 0 then Contribution(f(last)) else 0.0
  {
    var f := PickDetailOf(ctx, map[], fallback);
    var init, last := picks[..|picks| - 1], picks[|picks| - 1];
    assert Map(picks, f) == Map(init, f) + [f(last)];
    StartersPointsSnoc(Map(init, f), f(last));
  }

  lemma {:induction false} WeightedContribution(ctx: Context, fallback: map<int, real>, pick: Pick, captain: Option<int>)
    requires pick.multiplier == if captain == Some(pick.element) then 2 else 1
    ensures Contribution(PickDetail(ctx, map[], fallback, pick))
         == (if captain == Some(pick.element) then 2.0 else 1.0) * FplLogic.PredictionFor(fallback, pick.element)
  {
    var predicted := FplLogic.PredictionFor(fallback, pick.element);
    assert PickDetail(ctx, map[], fallback, pick).predicted == predicted;
    if captain == Some(pick.element) {
      assert Contribution(PickDetail(ctx, map[], fallback, pick)) == predicted * 2.0;
    } else {
      assert Contribution(PickDetail(ctx, map[], fallback, pick)) == predicted * 1.0;
    }
  }

  // ---------------------------------------------------------------------------
  // Reading the league-prediction report back
  // ---------------------------------------------------------------------------

  /** What `parse_league_predictions` returns. */
  datatype LeagueReport = LeagueReport(leagueName: Option<string>, results: seq<LeagueRow>)

  predicate NonBlank(line: string) {
    Text.Strip(line) != []
  }

  /** The report's non-blank lines, each without its trailing whitespace. */
  function ReportLines(text: string): seq<string> {
    Map(Filter(Text.SplitLines(text), NonBlank), Text.RStrip)
  }

  const TitleMarker: string := "Predicted Results for"

  /** The quoted text of the first line holding the title marker; None without such a line or quote. */
  function LeagueName(lines: seq<string>): Option<string> {
    if lines == [] then None
    else if Text.Contains(lines[0], TitleMarker) then Text.FindQuoted(lines[0], 0)
    else LeagueName(lines[1..])
  }

  /** The column header: starts with 'Rank' and names the 'Manager' column. */
  predicate IsHeader(line: string) {
    Text.StartsWith(line, "Rank") && Text.Contains(line, "Manager")
  }

  /** The index of the first header line at or after `from`. */
  function HeaderFrom(lines: seq<string>, from: nat): (r: Option<nat>)
    requires from <= |lines|
    ensures r.Some? ==> from <= r.value < |lines| && IsHeader(lines[r.value])
    ensures forall j :: from <= j < |lines| && (r.None? || j < r.value) ==> !IsHeader(lines[j])
    decreases |lines| - from
  {
    if from == |lines| then None
    else if IsHeader(lines[from]) then Some(from)
    else HeaderFrom(lines, from + 1)
  }

  /** One standings row: rank, manager words, score; None for separators and unreadable lines. */
  function ParseRow(line: string): Option<LeagueRow> {
    var stripped := Text.Strip(line);
    if stripped == [] || stripped[0] == '-' then None
    else RowOf(Text.SplitFields(stripped))
  }

  /** The row held by the fields of a line: rank first, score last, the manager between. */
  function RowOf(parts: seq<string>): Option<LeagueRow> {
    if |parts| < 3 then None
    else
      var rank := Text.ParseInt(parts[0]);
      var score := Text.ParseFloat(parts[|parts| - 1]);
      if rank.None? || score.None? then None
      else Some(LeagueRow(rank.value, Text.Strip(Text.Join(parts[1..|parts| - 1], " ")), score.value))
  }

  /** The rows read from the lines, in order. */
  function ParseRows(lines: seq<string>): (rows: seq<LeagueRow>)
    ensures |rows| <= |lines|
  {
    if lines == [] then []
    else
      var row := ParseRow(lines[|lines| - 1]);
      ParseRows(lines[..|lines| - 1]) + if row.Some? then [row.value] else []
  }

  /** The lines from two past the header on: the header and the rule under it are not rows. */
  function RowLines(lines: seq<string>): seq<string> {
    match HeaderFrom(lines, 0)
    case None => []
    case Some(idx) => if idx + 2 <= |lines| then lines[idx + 2..] else []
  }

  function LeagueReportOf(text: string): LeagueReport {
    var lines := ReportLines(text);
    LeagueReport(LeagueName(lines), ParseRows(RowLines(lines)))
  }

  /** `parse_league_predictions(text)`. */
  method ParseLeaguePredictions(text: string) returns (report: LeagueReport)
    ensures report == LeagueReportOf(text)
  {
    var lines := ReportLines(text);
    var leagueName := FindLeagueName(lines);
    var body := FindRowLines(lines);
    var results := ReadRows(body);
    report := LeagueReport(leagueName, results);
  }

  /** The first loop: the league name from the first title line. */
  method FindLeagueName(lines: seq<string>) returns (leagueName: Option<string>)
    ensures leagueName == LeagueName(lines)
  {
    leagueName := None;
    var i := 0;
    while i < |lines|
      invariant 0 <= i <= |lines|
      invariant LeagueName(lines) == LeagueName(lines[i..])
    {
      if Text.Contains(lines[i], TitleMarker) {
        leagueName := Text.FindQuoted(lines[i], 0);
        return;
      }
      assert lines[i..][1..] == lines[i + 1..];
      i := i + 1;
    }
  }

  /** The second loop: the lines after the header and its rule. */
  method FindRowLines(lines: seq<string>) returns (body: seq<string>)
    ensures body == RowLines(lines)
  {
    var start: Option<nat> := None;
    var idx := 0;
    while idx < |lines|
      invariant 0 <= idx <= |lines|
      invariant HeaderFrom(lines, 0) == HeaderFrom(lines, idx)
    {
      if IsHeader(lines[idx]) {
        start := Some(idx + 2);
        break;
      }
      idx := idx + 1;
    }
    body := if start.Some? && start.value <= |lines| then lines[start.value..] else [];
  }

  /** The third loop: a row for every line that reads as one. */
  method ReadRows(body: seq<string>) returns (results: seq<LeagueRow>)
    ensures results == ParseRows(body)
  {
    results := [];
    for k := 0 to |body|
      invariant results == ParseRows(body[..k])
    {
      assert body[..k + 1][..k] == body[..k];
      var row := ParseRow(body[k]);
      if row.None? {
        continue;
      }
      results := results + [row.value];
    }
    assert body[..|body|] == body;
  }

  /** The league named on the first title line, whatever follows. */
  lemma {:induction false} LeagueNameFirst(lines: seq<string>, i: nat)
    requires i < |lines| && Text.Contains(lines[i], TitleMarker)
    requires forall j :: 0 <= j < i ==> !Text.Contains(lines[j], TitleMarker)
    ensures LeagueName(lines) == Text.FindQuoted(lines[i], 0)
  {
    if i > 0 {
      assert !Text.Contains(lines[0], TitleMarker);
      assert lines[1..][i - 1] == lines[i];
      LeagueNameFirst(lines[1..], i - 1);
    }
  }

  /** Without a title line there is no league name. */
  lemma {:induction false} LeagueNameAbsent(lines: seq<string>)
    requires forall j :: 0 <= j < |lines| ==> !Text.Contains(lines[j], TitleMarker)
    ensures LeagueName(lines) == None
  {
    if lines != [] {
      assert !Text.Contains(lines[0], TitleMarker);
      LeagueNameAbsent(lines[1..]);
    }
  }

  /** A standings row as `get_league_predictions_string` writes it: `f"{i:<5} {name:<25} {score:.2f}"`. */
  function ReportRow(rank: int, name: string, scoreText: string): string {
    PaddedRow(Text.IntString(rank), name, scoreText)
  }

  /** The row laid out from its rank text: rank left-aligned in 5 columns, name in 25. */
  function PaddedRow(rankText: string, name: string, scoreText: string): string {
    Text.PadRight(rankText, 5) + " " + Text.PadRight(name, 25) + " " + scoreText
  }

  /**
   * Round trip: a row written for a non-negative rank, a manager name of
   * space-separated words and a score field that `float` reads reads back as
   * that rank, name and score.
   */
  lemma {:induction false} RowRoundTrip(rank: int, words: seq<string>, scoreText: string, score: real)
    requires rank >= 0 && words != [] && forall i :: 0 <= i < |words| ==> Text.Word(words[i])
    requires Text.Word(scoreText) && Text.ParseFloat(scoreText) == Some(score)
    ensures ParseRow(ReportRow(rank, Text.Join(words, " "), scoreText))
         == Some(LeagueRow(rank, Text.Join(words, " "), score))
  {
    Text.DigitsWord(rank);
    RowParsed(Text.IntString(rank), words, scoreText);
    RowOfFields(rank, words, scoreText, score);
  }

  /** A laid-out row is read from its fields: the rank text, the name's words and the score text. */
  lemma {:induction false} RowParsed(r: string, words: seq<string>, scoreText: string)
    requires Text.Word(r) && r[0] != '-' && Text.Word(scoreText)
    requires words != [] && forall i :: 0 <= i < |words| ==> Text.Word(words[i])
    ensures ParseRow(PaddedRow(r, Text.Join(words, " "), scoreText)) == RowOf([r] + words + [scoreText])
  {
    var name := Text.Join(words, " ");
    var pad1, pad2 := Text.Spaces(5 - |r|), Text.Spaces(25 - |name|);
    var line := r + (pad1 + " " + (name + (pad2 + " " + scoreText)));
    assert PaddedRow(r, name, scoreText) == line by {
      assert Text.PadRight(r, 5) == r + pad1 && Text.PadRight(name, 25) == name + pad2;
      Regroup(r, pad1, name, pad2, scoreText);
    }
    RowFields(r, words, scoreText, pad1, pad2);
    ParseTrimmed(line);
  }

  /** The fields of a written row hold its rank, manager and score. */
  lemma {:induction false} RowOfFields(rank: int, words: seq<string>, scoreText: string, score: real)
    requires rank >= 0 && words != [] && forall i :: 0 <= i < |words| ==> Text.Word(words[i])
    requires Text.ParseFloat(scoreText) == Some(score)
    ensures RowOf([Text.IntString(rank)] + words + [scoreText]) == Some(LeagueRow(rank, Text.Join(words, " "), score))
  {
    var parts := [Text.IntString(rank)] + words + [scoreText];
    Text.IntStringRoundTrip(rank);
    assert parts[0] == Text.IntString(rank) && parts[|parts| - 1] == scoreText && parts[1..|parts| - 1] == words;
    Text.JoinEnds(words);
    Text.StripSelf(Text.Join(words, " "));
  }

  /** The padded row regrouped from the right. */
  lemma {:induction false} Regroup(r: string, pad1: string, name: string, pad2: string, scoreText: string)
    ensures r + pad1 + " " + (name + pad2) + " " + scoreText
         == r + (pad1 + " " + (name + (pad2 + " " + scoreText)))
  {
  }

  /** A line already trimmed that is not a rule is read from its fields. */
  lemma {:induction false} ParseTrimmed(line: string)
    requires line != [] && !Text.IsSpace(line[0]) && !Text.IsSpace(line[|line| - 1]) && line[0] != '-'
    ensures ParseRow(line) == RowOf(Text.SplitFields(line))
  {
    Text.StripSelf(line);
  }

  /** The fields of a written row, and its first and last characters. */
  lemma {:induction false} RowFields(r: string, words: seq<string>, scoreText: string, pad1: string, pad2: string)
    requires Text.Word(r) && Text.Word(scoreText) && Text.Blank(pad1) && Text.Blank(pad2)
    requires words != [] && forall i :: 0 <= i < |words| ==> Text.Word(words[i])
    ensures var line := r + (pad1 + " " + (Text.Join(words, " ") + (pad2 + " " + scoreText)));
      && Text.SplitFields(line) == [r] + words + [scoreText]
      && !Text.IsSpace(line[0]) && !Text.IsSpace(line[|line| - 1])
  {
    var tail2 := pad2 + " " + scoreText;
    var mid := Text.Join(words, " ") + tail2;
    var tail1 := pad1 + " " + mid;
    assert tail1[0] == (pad1 + " ")[0] && tail2[0] == (pad2 + " ")[0];
    Text.SplitFieldsWord(r, tail1);
    Text.SplitFieldsBlank(pad1 + " ", mid);
    Text.SplitFieldsJoin(words, tail2);
    Text.SplitFieldsBlank(pad2 + " ", scoreText);
    Text.SplitFieldsSingle(scoreText);
    var line := r + tail1;
    assert line[0] == r[0] && line[|line| - 1] == scoreText[|scoreText| - 1];
  }

  /** The rule under the report's header, `"-" * n`, is not a row. */
  lemma {:induction false} RuleSkipped(n: nat)
    requires n >= 1
    ensures ParseRow(seq(n, _ => '-')) == None
  {
    var rule: string := seq(n, _ => '-');
    assert rule[0] == '-' && rule[n - 1] == '-';
    Text.StripSelf(rule);
  }

  // ---------------------------------------------------------------------------
  // Answers
  // ---------------------------------------------------------------------------

  /** One `{id, title}` citation. */
  datatype Citation = Citation(id: string, title: string)

  /** The `{text, citations}` answer. */
  datatype Answer = Answer(text: string, citations: seq<Citation>)

  const NothingFound := "I couldn't find anything relevant. Try being more specific about players or teams."
  const Heading := "Here's what I found:"
  const IndexError := "IndexError: list index out of range"

  function CitationOf(d: Document): Citation {
    Citation(d.id, d.title)
  }

  function DetailName(d: Detail): string {
    d.name
  }

  /** `f"{r['manager']} {r['predicted_score']:.1f}"`. */
  function RowSummary(render: Render): LeagueRow -> string {
    (r: LeagueRow) => r.manager + " " + render.fixed(r.predictedScore, 1)
  }

  /** `f"#{row['rank']} {row['player_name']} {row['total']} pts"`. */
  function StandingSummary(row: Standing): string {
    "#" + Text.IntString(row.rank) + " " + row.playerName + " " + Text.IntString(row.total) + " pts"
  }

  /** A chip document has a line break but fewer than two lines, so `splitlines()[1]` raises. */
  predicate ChipFails(d: Document) {
    d.metadata.ChipInfo? && '\n' in d.text && |Text.SplitLines(d.text)| < 2
  }

  /** What a bullet says after its `"{index}. "`, by `doc_type`. */
  function BulletBody(render: Render, d: Document): (r: Result<string>)
    ensures r.Failure? <==> ChipFails(d)
    ensures r.Failure? ==> r.error == IndexError
  {
    match d.metadata
    case PlayerInfo(_, _, _, _, prediction, form, totalPoints, fixture, _) =>
      Success(d.title + ": form " + render.shown(form) + ", total points " + Text.IntString(totalPoints)
        + ", next " + fixture + ". Model prediction " + render.fixed(prediction, 2) + " pts.")
    case AiPlayerInfo(_, _, _, predicted, avgPoints, form) =>
      Success("AI favours " + d.title + " with " + render.fixed(predicted, 2) + " pts (avg "
        + render.fixed(avgPoints, 2) + ", form " + render.shown(form) + ").")
    case AiOverviewInfo(_, _) => Success(d.text)
    case TransferInfo => Success("Transfer insight: " + Take(d.text, 300) + "...")
    case ProjectionInfo(total, starters, bench, _) =>
      var head := "Squad projection: " + render.fixed(total, 2) + " pts next GW; key starters include "
        + Text.Join(Map(Take(starters, 3), DetailName), ", ") + ".";
      if bench == [] then Success(head)
      else Success(head + " Bench depth: " + Text.Join(Map(Take(bench, 3), DetailName), ", ") + ".")
    case HeadToHeadInfo(_, _, results) =>
      var summary := Text.Join(Map(Take(results, 3), RowSummary(render)), ", ");
      Success(if summary != [] then "League projection: " + summary else d.title)
    case CurrentLeagueInfo(_, _, standings) =>
      var summary := Text.Join(Map(Take(standings, 3), StandingSummary), ", ");
      Success(if summary != [] then "Current league standings: " + summary else d.title)
    case ChipInfo =>
      if '\n' in d.text then
        var lines := Text.SplitLines(d.text);
        if |lines| < 2 then Failure(IndexError) else Success("Chip overview: " + lines[1])
      else Success("Chip overview: " + Take(d.text, 200))
    case _ => Success(d.title + ": " + Take(d.text, 250) + "...")
  }

  /** The numbered bullet for the document at 1-based `index`, with its note when there is one. */
  function Bullet(render: Render, index: int, d: Document): (r: Result<string>)
    ensures r.Failure? <==> ChipFails(d)
    ensures r.Failure? ==> r.error == IndexError
    ensures r.Success? ==> Text.StartsWith(r.value, Text.IntString(index) + ". ")
  {
    match BulletBody(render, d)
    case Failure(e) => Failure(e)
    case Success(body) =>
      var note := if d.note.Some? && d.note.value != [] then " " + d.note.value else "";
      Success(Text.IntString(index) + ". " + body + note)
  }

  /** The bullets of the documents, numbered from 1; the first failing bullet raises. */
  function Bullets(render: Render, docs: seq<Document>): (r: Result<seq<string>>)
    ensures r.Success? ==> |r.value| == |docs|
    ensures r.Failure? ==> r.error == IndexError
  {
    if docs == [] then Success([])
    else
      match Bullets(render, docs[..|docs| - 1])
      case Failure(e) => Failure(e)
      case Success(init) =>
        match Bullet(render, |docs|, docs[|docs| - 1])
        case Failure(e) => Failure(e)
        case Success(b) => Success(init + [b])
  }

  /** `generate_answer(query, documents)`. */
  function AnswerOf(render: Render, docs: seq<Document>): Result<Answer> {
    if docs == [] then Success(Answer(NothingFound, []))
    else
      match Bullets(render, docs)
      case Failure(e) => Failure(e)
      case Success(bullets) => Success(Answer(Text.Join([Heading] + bullets, "\n"), Map(docs, CitationOf)))
  }

  /** `generate_answer`: one bullet and one citation per document, appended in order; `query` is unused. */
  method GenerateAnswer(render: Render, query: string, documents: seq<Document>) returns (r: Result<Answer>)
    ensures r == AnswerOf(render, documents)
  {
    if documents == [] {
      return Success(Answer(NothingFound, []));
    }
    var bullets, citations := AnswerLines(render, documents);
    if bullets.Failure? {
      return Failure(bullets.error);
    }
    return Success(Answer(Text.Join([Heading] + bullets.value, "\n"), citations));
  }

  /** The loop of `generate_answer`: one bullet and one citation per document; a failing bullet raises. */
  method AnswerLines(render: Render, documents: seq<Document>) returns (bullets: Result<seq<string>>, citations: seq<Citation>)
    ensures bullets == Bullets(render, documents)
    ensures bullets.Success? ==> citations == Map(documents, CitationOf)
  {
    var lines := [];
    citations := [];
    for i := 0 to |documents|
      invariant Bullets(render, documents[..i]) == Success(lines)
      invariant citations == Map(documents[..i], CitationOf)
    {
      var bullet := Bullet(render, i + 1, documents[i]);
      if bullet.Failure? {
        BulletsFail(render, documents);
        return Failure(bullet.error), citations;
      }
      BulletsLastSuccess(render, documents, i);
      MapPrefix(documents, CitationOf, i);
      lines := lines + [bullet.value];
      citations := citations + [CitationOf(documents[i])];
    }
    assert documents[..|documents|] == documents;
    return Success(lines), citations;
  }

  /** With the bullets of the first `i` documents written, the next bullet extends them. */
  lemma {:induction false} BulletsLastSuccess(render: Render, docs: seq<Document>, i: nat)
    requires i < |docs| && Bullets(render, docs[..i]).Success? && Bullet(render, i + 1, docs[i]).Success?
    ensures Bullets(render, docs[..i + 1])
         == Success(Bullets(render, docs[..i]).value + [Bullet(render, i + 1, docs[i]).value])
  {
    assert docs[..i + 1][..i] == docs[..i] && docs[..i + 1][i] == docs[i];
  }

  /**
   * An answer cites each document once, in retrieval order, by its id and
   * title; with nothing retrieved it is the fixed fallback text without citations.
   */
  lemma {:induction false} AnswerCitations(render: Render, docs: seq<Document>)
    ensures docs == [] ==> AnswerOf(render, docs) == Success(Answer(NothingFound, []))
    ensures AnswerOf(render, docs).Success? ==>
      var c := AnswerOf(render, docs).value.citations;
      |c| == |docs| && forall i :: 0 <= i < |docs| ==> c[i] == Citation(docs[i].id, docs[i].title)
  {
  }

  /** The i-th bullet is the document's own bullet, numbered `i + 1`. */
  lemma {:induction false} BulletsNumbered(render: Render, docs: seq<Document>, i: nat)
    requires i < |docs| && Bullets(render, docs).Success?
    ensures Bullet(render, i + 1, docs[i]) == Success(Bullets(render, docs).value[i])
    ensures Text.StartsWith(Bullets(render, docs).value[i], Text.IntString(i + 1) + ". ")
  {
    var init := docs[..|docs| - 1];
    if i < |docs| - 1 {
      BulletsNumbered(render, init, i);
    }
  }

  /** Building an answer raises exactly when some chip document's text breaks after at most one line. */
  lemma {:induction false} BulletsFail(render: Render, docs: seq<Document>)
    ensures Bullets(render, docs).Failure? <==> exists i :: 0 <= i < |docs| && ChipFails(docs[i])
  {
    if docs != [] {
      BulletsFail(render, docs[..|docs| - 1]);
      BulletsLast(render, docs);
      SomeChipFailsLast(docs);
    }
  }

  predicate SomeChipFails(docs: seq<Document>) {
    exists i :: 0 <= i < |docs| && ChipFails(docs[i])
  }

  lemma {:induction false} SomeChipFailsLast(docs: seq<Document>)
    requires docs != []
    ensures SomeChipFails(docs) <==> SomeChipFails(docs[..|docs| - 1]) || ChipFails(docs[|docs| - 1])
  {
    var init := docs[..|docs| - 1];
    if exists i :: 0 <= i < |docs| && ChipFails(docs[i]) {
      var i :| 0 <= i < |docs| && ChipFails(docs[i]);
      if i < |init| {
        assert init[i] == docs[i];
      }
    }
    if exists i :: 0 <= i < |init| && ChipFails(init[i]) {
      var i :| 0 <= i < |init| && ChipFails(init[i]);
      assert docs[i] == init[i];
    }
  }

  /** The bullets of a non-empty list fail when those of the rest fail or the last document's does. */
  lemma {:induction false} BulletsLast(render: Render, docs: seq<Document>)
    requires docs != []
    ensures Bullets(render, docs).Failure?
        <==> Bullets(render, docs[..|docs| - 1]).Failure? || ChipFails(docs[|docs| - 1])
  {
    var b := Bullet(render, |docs|, docs[|docs| - 1]);
    assert b.Failure? <==> ChipFails(docs[|docs| - 1]);
  }

  /** A one-line chip text ending in a line break makes `generate_answer` raise. */
  lemma {:induction false} ChipTrailingBreak(render: Render, line: string, id: string, title: string)
    requires forall j :: 0 <= j < |line| ==> !Text.IsLineBreak(line[j])
    ensures AnswerOf(render, [Document(id, title, line + "\n", ChipInfo, None)]).Failure?
  {
    var d := Document(id, title, line + "\n", ChipInfo, None);
    assert (line + "\n")[|line|] == '\n';
    ChipLines(line);
    BulletsFail(render, [d]);
  }

  /** A line followed by one break splits into that line alone. */
  lemma {:induction false} ChipLines(line: string)
    requires forall j :: 0 <= j < |line| ==> !Text.IsLineBreak(line[j])
    ensures Text.SplitLines(line + "\n") == [line]
  {
    var s := line + "\n";
    assert s[|line|] == '\n' && s[..|line|] == line;
    assert Text.LineLength(s) == |line|;
  }
}
