/**
 * The written save read back, section by section: each top-level section
 * stores the entity it was written from, a plot gathers its units and
 * cities from its subsections, and the whole save scans to the map it was
 * written from. Stated for any step obeying the laws of the sections;
 * WbRoundTrip shows that the corrected parser's step does.
 */
module WbReadSave {
  import opened Wrappers
  import opened Strconv
  import opened Text
  import opened WbGenerator
  import opened WbStructs
  import opened WbParser
  import opened WbFormat
  import opened WbRows
  import opened WbEntities
  import opened WbScan
  import opened WbReadGame
  import opened WbReadPlayer
  import opened WbReadUnit
  import opened WbReadCity
  import opened WbReadPlot
  import opened WbReadPlotFields

  type Stepper = (Progress, string, nat) -> Result<Progress, ParseError>

  // ------------------------------------------ the sections and what they store

  function GameOpen(g: Game): Open { InGame(g) }
  function TeamOpen(t: Team): Open { InTeam(t) }
  function PlayerOpen(p: Player): Open { InPlayer(p) }
  function MapOpen(m: MapProps): Open { InMap(m) }
  function PlotOpen(p: Plot): Open { InPlot(p) }

  /** The subsections of the plot `plot` being read. */
  function UnitIn(plot: Plot): Unit -> Open { u => InUnit(plot, u) }
  function CityIn(plot: Plot): City -> Open { c => InCity(plot, c) }

  function StoreGame(saved: WbMap, g: Game): WbMap { saved.(Game := Some(g)) }
  function StoreTeam(saved: WbMap, t: Team): WbMap { saved.(Teams := saved.Teams + [t]) }
  function StorePlayer(saved: WbMap, p: Player): WbMap { saved.(Players := saved.Players + [p]) }
  function StoreMap(saved: WbMap, m: MapProps): WbMap { saved.(Map := Some(m)) }
  function StorePlot(saved: WbMap, p: Plot): WbMap { saved.(Plots := saved.Plots + [p]) }

  /** The trimmed texts of two runs of lines, then the texts after them. */
  lemma SplitContents(a: seq<string>, b: seq<string>, rest: seq<string>)
    ensures Contents(a + b) + rest == Contents(a) + (Contents(b) + rest)
  {
    ContentsAppend(a, b);
  }

  lemma ConsTail<T>(prefix: seq<T>, s: seq<T>)
    requires s != []
    ensures prefix + [s[0]] + s[1..] == prefix + s
  {
    assert s == [s[0]] + s[1..];
  }

  lemma NoContents(rest: seq<string>)
    ensures Contents([]) + rest == rest
  {
  }

  // ---------------------------------------------------------- lists of sections

  ghost predicate TeamLaws(step: Stepper) {
    OpensAt(step, BeginTeam, TeamOpen, EmptyTeam) && FillsAt(step, TeamOpen, TeamField)
    && ClosesAt(step, EndTeam, TeamOpen, StoreTeam)
  }

  /** One Team section reads back as the team it was written from, appended to the teams. */
  lemma TeamScan(step: Stepper, saved: WbMap, t: Team, rest: seq<string>, done: nat, closing: nat)
    requires TeamLaws(step) && TeamOk(t)
    requires closing == done + |TeamLines(t)|
    ensures Scan(step, Progress(saved, Global), Contents(TeamLines(t)) + rest, done) ==
            Scan(step, Progress(StoreTeam(saved, t), Global), rest, closing)
  {
    TagsText();
    TeamRead(t);
    TopSectionScan(step, saved, BeginTeam, EndTeam, TeamOpen, TeamField, EmptyTeam, StoreTeam, t, TeamFields(t),
                   rest, done, closing);
  }

  /** The Team sections read back one after another, each appended to the teams read so far. */
  lemma {:induction false} TeamsScan(step: Stepper, saved: WbMap, teams: seq<Team>, rest: seq<string>,
                                     done: nat, last: nat)
    requires TeamLaws(step) && forall i :: 0 <= i < |teams| ==> TeamOk(teams[i])
    requires last == done + |TeamsLines(teams)|
    ensures Scan(step, Progress(saved, Global), Contents(TeamsLines(teams)) + rest, done) ==
            Scan(step, Progress(saved.(Teams := saved.Teams + teams), Global), rest, last)
    decreases |teams|
  {
    if teams == [] {
      NoContents(rest);
      assert saved.(Teams := saved.Teams + teams) == saved;
      SameScan(step, Progress(saved, Global), Contents(TeamsLines(teams)) + rest, rest, done,
               Scan(step, Progress(saved, Global), rest, last));
    } else {
      var t, tail := teams[0], teams[1..];
      var after := Contents(TeamsLines(tail)) + rest;
      var mid := done + |TeamLines(t)|;
      SplitContents(TeamLines(t), TeamsLines(tail), rest);
      TeamScan(step, saved, t, after, done, mid);
      var stored := StoreTeam(saved, t);
      TeamsScan(step, stored, tail, rest, mid, last);
      ConsTail(saved.Teams, teams);
      SameScan(step, Progress(saved, Global), Contents(TeamsLines(teams)) + rest, Contents(TeamLines(t)) + after, done,
               Scan(step, Progress(stored, Global), after, mid));
    }
  }

  ghost predicate PlayerLaws(step: Stepper) {
    OpensAt(step, BeginPlayer, PlayerOpen, EmptyPlayer) && FillsAt(step, PlayerOpen, PlayerField)
    && ClosesAt(step, EndPlayer, PlayerOpen, StorePlayer)
  }

  /** One Player section reads back as the player it was written from, appended to the players. */
  lemma PlayerScan(step: Stepper, saved: WbMap, p: Player, rest: seq<string>, done: nat, closing: nat)
    requires PlayerLaws(step) && PlayerOk(p)
    requires closing == done + |PlayerLines(p)|
    ensures Scan(step, Progress(saved, Global), Contents(PlayerLines(p)) + rest, done) ==
            Scan(step, Progress(StorePlayer(saved, p), Global), rest, closing)
  {
    TagsText();
    PlayerRead(p);
    TopSectionScan(step, saved, BeginPlayer, EndPlayer, PlayerOpen, PlayerField, EmptyPlayer, StorePlayer, p,
                   PlayerFields(p), rest, done, closing);
  }

  /** The Player sections read back one after another, each appended to the players read so far. */
  lemma {:induction false} PlayersScan(step: Stepper, saved: WbMap, players: seq<Player>, rest: seq<string>,
                                       done: nat, last: nat)
    requires PlayerLaws(step) && forall i :: 0 <= i < |players| ==> PlayerOk(players[i])
    requires last == done + |PlayersLines(players)|
    ensures Scan(step, Progress(saved, Global), Contents(PlayersLines(players)) + rest, done) ==
            Scan(step, Progress(saved.(Players := saved.Players + players), Global), rest, last)
    decreases |players|
  {
    if players == [] {
      NoContents(rest);
      assert saved.(Players := saved.Players + players) == saved;
      SameScan(step, Progress(saved, Global), Contents(PlayersLines(players)) + rest, rest, done,
               Scan(step, Progress(saved, Global), rest, last));
    } else {
      var p, tail := players[0], players[1..];
      var after := Contents(PlayersLines(tail)) + rest;
      var mid := done + |PlayerLines(p)|;
      SplitContents(PlayerLines(p), PlayersLines(tail), rest);
      PlayerScan(step, saved, p, after, done, mid);
      var stored := StorePlayer(saved, p);
      PlayersScan(step, stored, tail, rest, mid, last);
      ConsTail(saved.Players, players);
      SameScan(step, Progress(saved, Global), Contents(PlayersLines(players)) + rest, Contents(PlayerLines(p)) + after,
               done, Scan(step, Progress(stored, Global), after, mid));
    }
  }

  // ------------------------------------------------------------ subsections

  /** Inside a plot, a Unit subsection opens on the zero unit, reads its rows and joins the plot's units. */
  ghost predicate UnitLaws(step: Stepper) {
    && (forall saved: WbMap, plot: Plot, line: nat ::
          step(Progress(saved, InPlot(plot)), BeginUnit, line) == Success(Progress(saved, InUnit(plot, EmptyUnit))))
    && (forall saved: WbMap, plot: Plot :: ReadsRows(step, saved, UnitIn(plot), UnitField))
    && (forall saved: WbMap, plot: Plot, u: Unit, line: nat ::
          step(Progress(saved, InUnit(plot, u)), EndUnit, line) ==
          Success(Progress(saved, InPlot(plot.(Units := plot.Units + [u])))))
  }

  /** One Unit subsection of a plot reads back as the unit it was written from, appended to the plot's units. */
  lemma UnitScan(step: Stepper, saved: WbMap, plot: Plot, u: Unit, rest: seq<string>, done: nat, closing: nat)
    requires UnitLaws(step) && UnitOk(u)
    requires closing == done + |UnitLines(1, u)|
    ensures Scan(step, Progress(saved, InPlot(plot)), Contents(UnitLines(1, u)) + rest, done) ==
            Scan(step, Progress(saved, InPlot(plot.(Units := plot.Units + [u]))), rest, closing)
  {
    var p := Progress(saved, InPlot(plot));
    TagsText();
    UnitRead(u);
    assert UnitIn(plot)(EmptyUnit) == InUnit(plot, EmptyUnit) && UnitIn(plot)(u) == InUnit(plot, u);
    assert ReadsRows(step, p.saved, UnitIn(plot), UnitField);
    SectionLinesScan(step, p, 1, BeginUnit, EndUnit, UnitIn(plot), UnitField, EmptyUnit, u, UnitFields(u),
                     Progress(saved, InPlot(plot.(Units := plot.Units + [u]))), rest, done, closing);
  }

  /** The Unit subsections of a plot read back one after another, each appended to the plot's units. */
  lemma {:induction false} UnitsScan(step: Stepper, saved: WbMap, plot: Plot, units: seq<Unit>, rest: seq<string>,
                                     done: nat, last: nat)
    requires UnitLaws(step) && forall i :: 0 <= i < |units| ==> UnitOk(units[i])
    requires last == done + |UnitsLines(1, units)|
    ensures Scan(step, Progress(saved, InPlot(plot)), Contents(UnitsLines(1, units)) + rest, done) ==
            Scan(step, Progress(saved, InPlot(plot.(Units := plot.Units + units))), rest, last)
    decreases |units|
  {
    if units == [] {
      NoContents(rest);
      assert plot.(Units := plot.Units + units) == plot;
      SameScan(step, Progress(saved, InPlot(plot)), Contents(UnitsLines(1, units)) + rest, rest, done,
               Scan(step, Progress(saved, InPlot(plot)), rest, last));
    } else {
      var u, tail := units[0], units[1..];
      var after := Contents(UnitsLines(1, tail)) + rest;
      var mid := done + |UnitLines(1, u)|;
      var joined := plot.(Units := plot.Units + [u]);
      SplitContents(UnitLines(1, u), UnitsLines(1, tail), rest);
      UnitScan(step, saved, plot, u, after, done, mid);
      UnitsScan(step, saved, joined, tail, rest, mid, last);
      ConsTail(plot.Units, units);
      SameScan(step, Progress(saved, InPlot(plot)), Contents(UnitsLines(1, units)) + rest, Contents(UnitLines(1, u)) + after,
               done, Scan(step, Progress(saved, InPlot(joined)), after, mid));
    }
  }

  /** Inside a plot, a City subsection opens on the zero city, reads its rows and joins the plot's cities. */
  ghost predicate CityLaws(step: Stepper) {
    && (forall saved: WbMap, plot: Plot, line: nat ::
          step(Progress(saved, InPlot(plot)), BeginCity, line) == Success(Progress(saved, InCity(plot, EmptyCity))))
    && (forall saved: WbMap, plot: Plot :: ReadsRows(step, saved, CityIn(plot), CityField))
    && (forall saved: WbMap, plot: Plot, c: City, line: nat ::
          step(Progress(saved, InCity(plot, c)), EndCity, line) ==
          Success(Progress(saved, InPlot(plot.(Cities := plot.Cities + [c])))))
  }

  /** One City subsection of a plot reads back as the city it was written from, appended to the plot's cities. */
  lemma CityScan(step: Stepper, saved: WbMap, plot: Plot, c: City, rest: seq<string>, done: nat, closing: nat)
    requires CityLaws(step) && CityReadable(c)
    requires closing == done + |CityLines(1, c)|
    ensures Scan(step, Progress(saved, InPlot(plot)), Contents(CityLines(1, c)) + rest, done) ==
            Scan(step, Progress(saved, InPlot(plot.(Cities := plot.Cities + [c]))), rest, closing)
  {
    var p := Progress(saved, InPlot(plot));
    TagsText();
    CityRead(c);
    assert CityIn(plot)(EmptyCity) == InCity(plot, EmptyCity) && CityIn(plot)(c) == InCity(plot, c);
    assert ReadsRows(step, p.saved, CityIn(plot), CityField);
    SectionLinesScan(step, p, 1, BeginCity, EndCity, CityIn(plot), CityField, EmptyCity, c, CityFields(c),
                     Progress(saved, InPlot(plot.(Cities := plot.Cities + [c]))), rest, done, closing);
  }

  /** The City subsections of a plot read back one after another, each appended to the plot's cities. */
  lemma {:induction false} CitiesScan(step: Stepper, saved: WbMap, plot: Plot, cities: seq<City>, rest: seq<string>,
                                      done: nat, last: nat)
    requires CityLaws(step) && forall i :: 0 <= i < |cities| ==> CityReadable(cities[i])
    requires last == done + |CitiesLines(1, cities)|
    ensures Scan(step, Progress(saved, InPlot(plot)), Contents(CitiesLines(1, cities)) + rest, done) ==
            Scan(step, Progress(saved, InPlot(plot.(Cities := plot.Cities + cities))), rest, last)
    decreases |cities|
  {
    if cities == [] {
      NoContents(rest);
      assert plot.(Cities := plot.Cities + cities) == plot;
      SameScan(step, Progress(saved, InPlot(plot)), Contents(CitiesLines(1, cities)) + rest, rest, done,
               Scan(step, Progress(saved, InPlot(plot)), rest, last));
    } else {
      var c, tail := cities[0], cities[1..];
      var after := Contents(CitiesLines(1, tail)) + rest;
      var mid := done + |CityLines(1, c)|;
      var joined := plot.(Cities := plot.Cities + [c]);
      SplitContents(CityLines(1, c), CitiesLines(1, tail), rest);
      CityScan(step, saved, plot, c, after, done, mid);
      CitiesScan(step, saved, joined, tail, rest, mid, last);
      ConsTail(plot.Cities, cities);
      SameScan(step, Progress(saved, InPlot(plot)), Contents(CitiesLines(1, cities)) + rest, Contents(CityLines(1, c)) + after,
               done, Scan(step, Progress(saved, InPlot(joined)), after, mid));
    }
  }

  // ------------------------------------------------------------------ plots

  /** A plot whose section reads back: its fields, its units, its cities and its TeamReveal numbers. */
  predicate PlotOk(p: Plot) {
    && FeaturesFit(p) && PlotFieldsOk(p) && Uint64s(p.TeamReveal)
    && (forall i :: 0 <= i < |p.Units| ==> UnitOk(p.Units[i]))
    && (forall i :: 0 <= i < |p.Cities| ==> CityReadable(p.Cities[i]))
  }

  ghost predicate PlotLaws(step: Stepper) {
    && OpensAt(step, BeginPlot, PlotOpen, EmptyPlot) && FillsAt(step, PlotOpen, PlotField)
    && ClosesAt(step, EndPlot, PlotOpen, StorePlot) && UnitLaws(step) && CityLaws(step)
  }

  /** The rows a plot's fields are written as. */
  function PlotRows(p: Plot): seq<Row>
    requires FeaturesFit(p)
  {
    FieldsRows(PlotFields(p))
  }

  function RevealRows(p: Plot): seq<Row> {
    UintArrayRows("TeamReveal", p.TeamReveal)
  }

  /** The regrouping of a plot section that PlotContents needs, named to keep its proof cheap. */
  lemma Regroup6<T>(a: seq<T>, b: seq<T>, c: seq<T>, d: seq<T>, e: seq<T>, f: seq<T>, rest: seq<T>)
    ensures a + (b + c + d + e) + f + rest == a + (b + (c + (d + (e + (f + rest)))))
  {
  }

  /** A plot section trims to its tags around its rows' texts, its subsections' texts and its TeamReveal rows' texts. */
  lemma PlotContents(p: Plot, rest: seq<string>)
    requires FeaturesFit(p) && AllClean(PlotRows(p)) && AllClean(RevealRows(p))
    ensures Contents(PlotLines(p)) + rest ==
            [BeginPlot] + (RowTexts(PlotRows(p)) + (Contents(UnitsLines(1, p.Units)) +
            (Contents(CitiesLines(1, p.Cities)) + (RowTexts(RevealRows(p)) + ([EndPlot] + rest)))))
  {
    var fields := RowLines(1, PlotRows(p));
    var units := UnitsLines(1, p.Units);
    var cities := CitiesLines(1, p.Cities);
    var revealRows := RowLines(1, RevealRows(p));
    TagsText();
    SectionContents(0, BeginPlot, PlotBody(p), EndPlot);
    ContentsAppend(fields + units + cities, revealRows);
    ContentsAppend(fields + units, cities);
    ContentsAppend(fields, units);
    RowsContents(1, PlotRows(p));
    RowsContents(1, RevealRows(p));
    Regroup6([BeginPlot], RowTexts(PlotRows(p)), Contents(units), Contents(cities), RowTexts(RevealRows(p)),
             [EndPlot], rest);
  }

  /** The rows of a plot's fields fill the zero plot with everything but its units, cities and TeamReveal. */
  lemma PlotFieldsScan(step: Stepper, saved: WbMap, p: Plot, rest: seq<string>, first: nat, last: nat)
    requires PlotLaws(step) && PlotOk(p)
    requires last == first + |PlotRows(p)|
    ensures AllClean(PlotRows(p))
    ensures Scan(step, Progress(saved, InPlot(EmptyPlot)), RowTexts(PlotRows(p)) + rest, first) ==
            Scan(step, Progress(saved, InPlot(p.(Units := [], Cities := [], TeamReveal := []))), rest, last)
  {
    PlotFieldsRead(p);
    assert ReadsRows(step, saved, PlotOpen, PlotField);
    RowsScan(step, saved, PlotOpen, PlotField, EmptyPlot, p.(Units := [], Cities := [], TeamReveal := []),
             PlotRows(p), rest, first, last);
  }

  /** The TeamReveal rows of a plot complete the plot. */
  lemma PlotRevealScan(step: Stepper, saved: WbMap, p: Plot, rest: seq<string>, first: nat, last: nat)
    requires PlotLaws(step) && Uint64s(p.TeamReveal)
    requires last == first + |RevealRows(p)|
    ensures AllClean(RevealRows(p))
    ensures Scan(step, Progress(saved, InPlot(p.(TeamReveal := []))), RowTexts(RevealRows(p)) + rest, first) ==
            Scan(step, Progress(saved, InPlot(p)), rest, last)
  {
    var bare := p.(TeamReveal := []);
    PlotTeamReveal(p, bare);
    assert bare.(TeamReveal := p.TeamReveal) == p;
    assert ReadsRows(step, saved, PlotOpen, PlotField);
    RowsScan(step, saved, PlotOpen, PlotField, bare, p, RevealRows(p), rest, first, last);
  }

  /** A plot emptied of its lists, given back its units and then its cities, lacks only its TeamReveal. */
  lemma PlotRejoined(p: Plot)
    ensures var p0 := p.(Units := [], Cities := [], TeamReveal := []);
            var p1 := p0.(Units := p0.Units + p.Units);
            p1.(Cities := p1.Cities + p.Cities) == p.(TeamReveal := [])
  {
    assert [] + p.Units == p.Units && [] + p.Cities == p.Cities;
  }

  /** Inside an opened plot: its field rows, its units, its cities and its TeamReveal rows make the plot. */
  lemma PlotInsideScan(step: Stepper, saved: WbMap, p: Plot, rest: seq<string>, first: nat, last: nat)
    requires PlotLaws(step) && PlotOk(p)
    requires last == first + |PlotRows(p)| + |UnitsLines(1, p.Units)| + |CitiesLines(1, p.Cities)| + |RevealRows(p)|
    ensures AllClean(PlotRows(p)) && AllClean(RevealRows(p))
    ensures Scan(step, Progress(saved, InPlot(EmptyPlot)),
                 RowTexts(PlotRows(p)) + (Contents(UnitsLines(1, p.Units)) +
                 (Contents(CitiesLines(1, p.Cities)) + (RowTexts(RevealRows(p)) + rest))), first) ==
            Scan(step, Progress(saved, InPlot(p)), rest, last)
  {
    var t3 := RowTexts(RevealRows(p)) + rest;
    var t2 := Contents(CitiesLines(1, p.Cities)) + t3;
    var t1 := Contents(UnitsLines(1, p.Units)) + t2;
    var l1 := first + |PlotRows(p)|;
    var l2 := l1 + |UnitsLines(1, p.Units)|;
    var l3 := l2 + |CitiesLines(1, p.Cities)|;
    var p0 := p.(Units := [], Cities := [], TeamReveal := []);
    var p1 := p0.(Units := p0.Units + p.Units);
    var p2 := p1.(Cities := p1.Cities + p.Cities);
    PlotRejoined(p);
    PlotFieldsScan(step, saved, p, t1, first, l1);
    UnitsScan(step, saved, p0, p.Units, t2, l1, l2);
    CitiesScan(step, saved, p1, p.Cities, t3, l2, l3);
    PlotRevealScan(step, saved, p, rest, l3, last);
    ChainScans(Scan(step, Progress(saved, InPlot(EmptyPlot)), RowTexts(PlotRows(p)) + t1, first),
               Scan(step, Progress(saved, InPlot(p0)), t1, l1),
               Scan(step, Progress(saved, InPlot(p1)), t2, l2),
               Scan(step, Progress(saved, InPlot(p2)), t3, l3));
  }

  /** A Plot section reads back as the plot it was written from, with its units and cities, appended to the plots. */
  lemma PlotScan(step: Stepper, saved: WbMap, p: Plot, rest: seq<string>, done: nat, closing: nat)
    requires PlotLaws(step) && PlotOk(p)
    requires closing == done + |PlotLines(p)|
    ensures Scan(step, Progress(saved, Global), Contents(PlotLines(p)) + rest, done) ==
            Scan(step, Progress(StorePlot(saved, p), Global), rest, closing)
  {
    var inside := RowTexts(PlotRows(p)) + (Contents(UnitsLines(1, p.Units)) +
                  (Contents(CitiesLines(1, p.Cities)) + (RowTexts(RevealRows(p)) + ([EndPlot] + rest))));
    var first := done + 1;
    var last := closing - 1;
    var entered := Progress(saved, InPlot(EmptyPlot));
    var filled := Progress(saved, InPlot(p));
    TagsText();
    PlotInsideScan(step, saved, p, [EndPlot] + rest, first, last);
    PlotContents(p, rest);
    assert PlotOpen(EmptyPlot) == InPlot(EmptyPlot) && PlotOpen(p) == InPlot(p);
    LineScan(step, Progress(saved, Global), BeginPlot, inside, done, first, entered);
    LineScan(step, filled, EndPlot, rest, last, closing, Progress(StorePlot(saved, p), Global));
    ChainScans(Scan(step, Progress(saved, Global), [BeginPlot] + inside, done), Scan(step, entered, inside, first),
               Scan(step, filled, [EndPlot] + rest, last), Scan(step, Progress(StorePlot(saved, p), Global), rest, closing));
    SameScan(step, Progress(saved, Global), Contents(PlotLines(p)) + rest, [BeginPlot] + inside, done,
             Scan(step, Progress(StorePlot(saved, p), Global), rest, closing));
  }

  /** The first of the Plot sections reads back. */
  lemma PlotsFirst(step: Stepper, saved: WbMap, plots: seq<Plot>, rest: seq<string>, done: nat, mid: nat)
    requires plots != [] && forall i :: 0 <= i < |plots| ==> FeaturesFit(plots[i])
    requires PlotLaws(step) && PlotOk(plots[0])
    requires mid == done + |PlotLines(plots[0])|
    ensures Scan(step, Progress(saved, Global), Contents(PlotsLines(plots)) + rest, done) ==
            Scan(step, Progress(StorePlot(saved, plots[0]), Global), Contents(PlotsLines(plots[1..])) + rest, mid)
  {
    var p, tail := plots[0], plots[1..];
    var after := Contents(PlotsLines(tail)) + rest;
    SplitContents(PlotLines(p), PlotsLines(tail), rest);
    PlotScan(step, saved, p, after, done, mid);
    SameScan(step, Progress(saved, Global), Contents(PlotsLines(plots)) + rest, Contents(PlotLines(p)) + after,
             done, Scan(step, Progress(StorePlot(saved, p), Global), after, mid));
  }

  /** The Plot sections read back one after another, each appended to the plots read so far. */
  lemma {:induction false} PlotsScan(step: Stepper, saved: WbMap, plots: seq<Plot>, rest: seq<string>,
                                     done: nat, last: nat)
    requires PlotLaws(step) && forall i :: 0 <= i < |plots| ==> FeaturesFit(plots[i]) && PlotOk(plots[i])
    requires last == done + |PlotsLines(plots)|
    ensures Scan(step, Progress(saved, Global), Contents(PlotsLines(plots)) + rest, done) ==
            Scan(step, Progress(saved.(Plots := saved.Plots + plots), Global), rest, last)
    decreases |plots|
  {
    if plots == [] {
      NoContents(rest);
      assert saved.(Plots := saved.Plots + plots) == saved;
      SameScan(step, Progress(saved, Global), Contents(PlotsLines(plots)) + rest, rest, done,
               Scan(step, Progress(saved, Global), rest, last));
    } else {
      var mid := done + |PlotLines(plots[0])|;
      PlotsFirst(step, saved, plots, rest, done, mid);
      PlotsScan(step, StorePlot(saved, plots[0]), plots[1..], rest, mid, last);
      ConsTail(saved.Plots, plots);
    }
  }

  // ------------------------------------------------------------ the whole save

  /** A save whose every section reads back: the conditions under which the written text parses to the save. */
  predicate SaveOk(m: WbMap) {
    && m.Game.Some? && m.Map.Some? && InInt64(m.Version)
    && GameOk(m.Game.value) && MapPropsOk(m.Map.value)
    && (forall i :: 0 <= i < |m.Teams| ==> TeamOk(m.Teams[i]))
    && (forall i :: 0 <= i < |m.Players| ==> PlayerOk(m.Players[i]))
    && (forall i :: 0 <= i < |m.Plots| ==> PlotOk(m.Plots[i]))
  }

  lemma SaveWritable(m: WbMap)
    requires SaveOk(m)
    ensures Writable(m)
  {
  }

  function VersionText(v: int): string {
    VersionPrefix + Itoa(v)
  }

  /** Outside every section, the version line sets the version. */
  ghost predicate VersionLaw(step: Stepper) {
    forall saved: WbMap, v: int, line: nat | InInt64(v) ::
      step(Progress(saved, Global), VersionText(v), line) == Success(Progress(saved.(Version := v), Global))
  }

  ghost predicate GameLaws(step: Stepper) {
    OpensAt(step, BeginGame, GameOpen, EmptyGame) && FillsAt(step, GameOpen, GameField)
    && ClosesAt(step, EndGame, GameOpen, StoreGame)
  }

  ghost predicate MapLaws(step: Stepper) {
    OpensAt(step, BeginMap, MapOpen, EmptyMapProps) && FillsAt(step, MapOpen, MapField)
    && ClosesAt(step, EndMap, MapOpen, StoreMap)
  }

  /** What the scanner needs of its step to read back every section of a save. */
  ghost predicate SaveLaws(step: Stepper) {
    HeadLaws(step) && TailLaws(step)
  }

  /** The laws the version line, the Game section and the Team sections need. */
  ghost predicate HeadLaws(step: Stepper) {
    VersionLaw(step) && GameLaws(step) && TeamLaws(step)
  }

  /** The laws the Player sections, the Map section and the Plot sections need. */
  ghost predicate TailLaws(step: Stepper) {
    PlayerLaws(step) && MapLaws(step) && PlotLaws(step)
  }

  /** The version line is its own trimmed text, and the scanner does not skip it. */
  lemma VersionContents(v: int)
    ensures Contents([VersionText(v)]) == [VersionText(v)] && !Skipped(VersionText(v))
  {
    var text := VersionText(v);
    ItoaPlain(v);
    assert text[0] == 'V';
    assert text[|text| - 1] == Itoa(v)[|Itoa(v)| - 1];
    IndentedContent(text, 0);
    assert Tabs(0) + text == text;
  }

  lemma ContentsSix(a: seq<string>, b: seq<string>, c: seq<string>, d: seq<string>, e: seq<string>, f: seq<string>)
    ensures Contents(a + b + c + d + e + f) ==
            Contents(a) + (Contents(b) + (Contents(c) + (Contents(d) + (Contents(e) + (Contents(f) + [])))))
  {
    var tail := Contents(f) + [];
    assert Contents(a + b + c + d + e + f) + [] == Contents(a + b + c + d + e + f);
    SplitContents(a + b + c + d + e, f, []);
    SplitContents(a + b + c + d, e, tail);
    SplitContents(a + b + c, d, Contents(e) + tail);
    SplitContents(a + b, c, Contents(d) + (Contents(e) + tail));
    SplitContents(a, b, Contents(c) + (Contents(d) + (Contents(e) + tail)));
  }

  /** The trimmed lines of a written save, grouped section by section. */
  function SaveSections(m: WbMap): seq<string>
    requires Writable(m)
  {
    [VersionText(m.Version)] + (Contents(GameLines(m.Game.value)) + (Contents(TeamsLines(m.Teams)) + SaveTail(m)))
  }

  /** The trimmed lines of the players, the map and the plots of a written save. */
  function SaveTail(m: WbMap): seq<string>
    requires Writable(m)
  {
    Contents(PlayersLines(m.Players)) + (Contents(MapPropsLines(m.Map.value)) + (Contents(PlotsLines(m.Plots)) + []))
  }

  /** The number of lines before the first Player section of a written save. */
  function Middle(m: WbMap): nat
    requires m.Game.Some?
  {
    1 + |GameLines(m.Game.value)| + |TeamsLines(m.Teams)|
  }

  /** What the scanner looks at in a written save is its sections' trimmed lines, in order. */
  lemma SaveContents(m: WbMap)
    requires Writable(m)
    ensures Contents(WbMapLines(m)) == SaveSections(m)
  {
    VersionContents(m.Version);
    ContentsSix([VersionText(m.Version)], GameLines(m.Game.value), TeamsLines(m.Teams), PlayersLines(m.Players),
                MapPropsLines(m.Map.value), PlotsLines(m.Plots));
  }

  /** What the head of a save stores: its version, its game and its teams. */
  function HeadSaved(m: WbMap): WbMap {
    Start.saved.(Version := m.Version, Game := m.Game, Teams := m.Teams)
  }

  /** What the tail of a save adds: its players, its map and its plots. */
  function TailSaved(saved: WbMap, m: WbMap): WbMap {
    saved.(Players := saved.Players + m.Players, Map := m.Map, Plots := saved.Plots + m.Plots)
  }

  lemma HeadJoined(m: WbMap)
    requires m.Game.Some?
    ensures var versioned := Start.saved.(Version := m.Version);
            var withGame := StoreGame(versioned, m.Game.value);
            withGame.(Teams := withGame.Teams + m.Teams) == HeadSaved(m)
  {
    assert [] + m.Teams == m.Teams;
  }

  lemma TailJoined(saved: WbMap, m: WbMap)
    requires m.Map.Some?
    ensures var withPlayers := saved.(Players := saved.Players + m.Players);
            var withMap := StoreMap(withPlayers, m.Map.value);
            withMap.(Plots := withMap.Plots + m.Plots) == TailSaved(saved, m)
  {
  }

  /** The head and the tail of a save together store the whole save. */
  lemma SaveJoined(m: WbMap)
    ensures TailSaved(HeadSaved(m), m) == m
  {
    assert [] + m.Players == m.Players && [] + m.Plots == m.Plots;
  }

  /** The version line, the Game section and the Team sections of a save read back. */
  lemma SaveHeadScan(step: Stepper, m: WbMap, rest: seq<string>, last: nat)
    requires VersionLaw(step) && GameLaws(step) && TeamLaws(step)
    requires m.Game.Some? && InInt64(m.Version) && GameOk(m.Game.value)
    requires forall i :: 0 <= i < |m.Teams| ==> TeamOk(m.Teams[i])
    requires last == 1 + |GameLines(m.Game.value)| + |TeamsLines(m.Teams)|
    ensures Scan(step, Start, [VersionText(m.Version)] + (Contents(GameLines(m.Game.value)) +
                 (Contents(TeamsLines(m.Teams)) + rest)), 0) ==
            Scan(step, Progress(HeadSaved(m), Global), rest, last)
  {
    var g := m.Game.value;
    var versioned := Start.saved.(Version := m.Version);
    var withGame := StoreGame(versioned, g);
    var teams := Contents(TeamsLines(m.Teams)) + rest;
    var afterGame := 1 + |GameLines(g)|;
    VersionContents(m.Version);
    LineScan(step, Start, VersionText(m.Version), Contents(GameLines(g)) + teams, 0, 1, Progress(versioned, Global));
    TagsText();
    GameRead(g);
    TopSectionScan(step, versioned, BeginGame, EndGame, GameOpen, GameField, EmptyGame, StoreGame, g, GameFields(g),
                   teams, 1, afterGame);
    TeamsScan(step, withGame, m.Teams, rest, afterGame, last);
    HeadJoined(m);
  }

  /** The Player sections, the Map section and the Plot sections of a save read back, to the end of the text. */
  lemma SaveTailScan(step: Stepper, saved: WbMap, m: WbMap, first: nat, last: nat)
    requires PlayerLaws(step) && MapLaws(step) && PlotLaws(step)
    requires m.Map.Some? && MapPropsOk(m.Map.value)
    requires forall i :: 0 <= i < |m.Players| ==> PlayerOk(m.Players[i])
    requires forall i :: 0 <= i < |m.Plots| ==> FeaturesFit(m.Plots[i]) && PlotOk(m.Plots[i])
    requires last == first + |PlayersLines(m.Players)| + |MapPropsLines(m.Map.value)| + |PlotsLines(m.Plots)|
    ensures Scan(step, Progress(saved, Global), Contents(PlayersLines(m.Players)) + (Contents(MapPropsLines(m.Map.value)) +
                 (Contents(PlotsLines(m.Plots)) + [])), first) ==
            Success(Progress(TailSaved(saved, m), Global))
  {
    var props := m.Map.value;
    var withPlayers := saved.(Players := saved.Players + m.Players);
    var withMap := StoreMap(withPlayers, props);
    var plots := Contents(PlotsLines(m.Plots)) + [];
    var afterPlayers := first + |PlayersLines(m.Players)|;
    var afterMap := afterPlayers + |MapPropsLines(props)|;
    PlayersScan(step, saved, m.Players, Contents(MapPropsLines(props)) + plots, first, afterPlayers);
    TagsText();
    MapPropsRead(props);
    TopSectionScan(step, withPlayers, BeginMap, EndMap, MapOpen, MapField, EmptyMapProps, StoreMap, props,
                   MapPropsFields(props), plots, afterPlayers, afterMap);
    PlotsScan(step, withMap, m.Plots, [], afterMap, last);
    var final := withMap.(Plots := withMap.Plots + m.Plots);
    assert Scan(step, Progress(final, Global), [], last) == Success(Progress(final, Global));
    TailJoined(saved, m);
  }

  /** The head of a written save leaves the scanner outside every section, holding the head of the save. */
  lemma SectionsHead(step: Stepper, m: WbMap)
    requires HeadLaws(step) && SaveOk(m)
    ensures Writable(m)
    ensures Scan(step, Start, SaveSections(m), 0) == Scan(step, Progress(HeadSaved(m), Global), SaveTail(m), Middle(m))
  {
    SaveWritable(m);
    SaveHeadScan(step, m, SaveTail(m), Middle(m));
  }

  /** The tail of a written save completes the save. */
  lemma SectionsTail(step: Stepper, m: WbMap)
    requires TailLaws(step) && SaveOk(m)
    ensures Writable(m)
    ensures Scan(step, Progress(HeadSaved(m), Global), SaveTail(m), Middle(m)) == Success(Progress(m, Global))
  {
    SaveWritable(m);
    SaveTailScan(step, HeadSaved(m), m, Middle(m),
                 Middle(m) + |PlayersLines(m.Players)| + |MapPropsLines(m.Map.value)| + |PlotsLines(m.Plots)|);
    SaveJoined(m);
  }

  /** A step obeying the laws of every section reads the trimmed sections of a readable save as the save. */
  lemma SaveSectionsScan(step: Stepper, m: WbMap)
    requires SaveLaws(step) && SaveOk(m)
    ensures Writable(m) && Scan(step, Start, SaveSections(m), 0) == Success(Progress(m, Global))
  {
    SectionsHead(step, m);
    SectionsTail(step, m);
  }
}
