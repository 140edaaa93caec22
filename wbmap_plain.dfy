/**
 * Every line WbMap.ToWbFormat writes for a readable save is a plain line:
 * it holds no line break and does not end in a carriage return, so the
 * scanner's split of the written text gives the lines back as written.
 */
module WbPlain {
  import opened Strconv
  import opened Text
  import opened WbGenerator
  import opened WbStructs
  import opened WbFormat
  import opened WbRows
  import opened WbEntities
  import opened WbScan
  import opened WbReadGame
  import opened WbReadPlayer
  import opened WbReadUnit
  import opened WbReadCity
  import opened WbReadPlot
  import opened WbReadPlotFields
  import opened WbReadSave

  predicate AllPlain(lines: seq<string>) {
    forall k :: 0 <= k < |lines| ==> PlainLine(lines[k])
  }

  lemma PlainAppend(a: seq<string>, b: seq<string>)
    requires AllPlain(a) && AllPlain(b)
    ensures AllPlain(a + b)
  {
    assert forall k :: 0 <= k < |a + b| ==> (a + b)[k] == if k < |a| then a[k] else b[k - |a|];
  }

  lemma PlainFour(a: seq<string>, b: seq<string>, c: seq<string>, d: seq<string>)
    requires AllPlain(a) && AllPlain(b) && AllPlain(c) && AllPlain(d)
    ensures AllPlain(a + b + c + d)
  {
    PlainAppend(a, b);
    PlainAppend(a + b, c);
    PlainAppend(a + b + c, d);
  }

  lemma PlainSix(a: seq<string>, b: seq<string>, c: seq<string>, d: seq<string>, e: seq<string>, f: seq<string>)
    requires AllPlain(a) && AllPlain(b) && AllPlain(c) && AllPlain(d) && AllPlain(e) && AllPlain(f)
    ensures AllPlain(a + b + c + d + e + f)
  {
    PlainFour(a, b, c, d);
    PlainAppend(a + b + c + d, e);
    PlainAppend(a + b + c + d + e, f);
  }

  /** Joining parts that lack a character, with another character, never writes it. */
  lemma {:induction false} JoinLacks(parts: seq<string>, sep: char, c: char)
    requires c != sep && forall k :: 0 <= k < |parts| ==> c !in parts[k]
    ensures c !in Join(parts, sep)
    decreases |parts|
  {
    if |parts| > 1 {
      JoinLacks(parts[1..], sep, c);
      assert Join(parts, sep) == parts[0] + [sep] + Join(parts[1..], sep);
    }
  }

  /** The text of a clean row breaks no line. */
  lemma RowUnbroken(row: Row)
    requires CleanRow(row)
    ensures '\n' !in RowText(row) && '\r' !in RowText(row)
  {
    match row
    case KeyValues(pairs) =>
      var parts := Fragments(pairs);
      forall k | 0 <= k < |parts| ensures '\n' !in parts[k] && '\r' !in parts[k] {
        assert parts[k] == pairs[k].0 + "=" + pairs[k].1;
      }
      JoinLacks(parts, ',', '\n');
      JoinLacks(parts, ',', '\r');
    case Bare(token) =>
  }

  /** Indenting a plain, non-empty text keeps it plain. */
  lemma IndentedPlain(depth: nat, text: string)
    requires text != [] && PlainLine(text)
    ensures PlainLine(Tabs(depth) + text)
  {
    TabsAreTabs(depth);
    var line := Tabs(depth) + text;
    assert line[|line| - 1] == text[|text| - 1];
    assert forall i :: 0 <= i < |line| ==> line[i] == '\t' || line[i] in text by {
      forall i | 0 <= i < |line| ensures line[i] == '\t' || line[i] in text {
        if i >= |Tabs(depth)| {
          assert line[i] == text[i - |Tabs(depth)|];
        }
      }
    }
  }

  /** Clean rows at any depth are plain lines. */
  /** The indented text of one clean row is a plain line. */
  lemma RowPlain(depth: nat, row: Row)
    requires CleanRow(row)
    ensures AllPlain([Tabs(depth) + RowText(row)])
  {
    var text := RowText(row);
    RowRead(row, 0);
    RowUnbroken(row);
    assert text[|text| - 1] in text;
    IndentedPlain(depth, text);
  }

  lemma {:induction false} RowLinesPlain(depth: nat, rows: seq<Row>)
    requires AllClean(rows)
    ensures AllPlain(RowLines(depth, rows))
    decreases |rows|
  {
    if rows != [] {
      RowPlain(depth, rows[0]);
      RowLinesPlain(depth, rows[1..]);
      PlainAppend([Tabs(depth) + RowText(rows[0])], RowLines(depth, rows[1..]));
    }
  }

  /** A section of plain lines between two tags is plain. */
  lemma SectionPlain(depth: nat, open: string, body: seq<string>, close: string)
    requires open != [] && PlainLine(open) && close != [] && PlainLine(close) && AllPlain(body)
    ensures AllPlain(Section(depth, open, body, close))
  {
    IndentedPlain(depth, open);
    IndentedPlain(depth, close);
  }

  lemma TagsPlain()
    ensures PlainLine(BeginGame) && PlainLine(EndGame) && PlainLine(BeginTeam) && PlainLine(EndTeam)
    ensures PlainLine(BeginPlayer) && PlainLine(EndPlayer) && PlainLine(BeginMap) && PlainLine(EndMap)
    ensures PlainLine(BeginPlot) && PlainLine(EndPlot) && PlainLine(BeginUnit) && PlainLine(EndUnit)
    ensures PlainLine(BeginCity) && PlainLine(EndCity)
  {
  }

  /** The section of a readable entity, given its fields' cleanliness, is plain. */
  lemma FieldsSectionPlain(depth: nat, open: string, fields: seq<Field>, close: string)
    requires open != [] && PlainLine(open) && close != [] && PlainLine(close)
    requires AllClean(FieldsRows(fields))
    ensures AllPlain(Section(depth, open, RowLines(depth + 1, FieldsRows(fields)), close))
  {
    RowLinesPlain(depth + 1, FieldsRows(fields));
    SectionPlain(depth, open, RowLines(depth + 1, FieldsRows(fields)), close);
  }

  lemma GameLinesPlain(g: Game)
    requires GameOk(g)
    ensures AllPlain(GameLines(g))
  {
    GameRead(g);
    TagsPlain();
    FieldsSectionPlain(0, BeginGame, GameFields(g), EndGame);
  }

  lemma TeamLinesPlain(t: Team)
    requires TeamOk(t)
    ensures AllPlain(TeamLines(t))
  {
    TeamRead(t);
    TagsPlain();
    FieldsSectionPlain(0, BeginTeam, TeamFields(t), EndTeam);
  }

  lemma PlayerLinesPlain(p: Player)
    requires PlayerOk(p)
    ensures AllPlain(PlayerLines(p))
  {
    PlayerRead(p);
    TagsPlain();
    FieldsSectionPlain(0, BeginPlayer, PlayerFields(p), EndPlayer);
  }

  lemma MapPropsLinesPlain(m: MapProps)
    requires MapPropsOk(m)
    ensures AllPlain(MapPropsLines(m))
  {
    MapPropsRead(m);
    TagsPlain();
    FieldsSectionPlain(0, BeginMap, MapPropsFields(m), EndMap);
  }

  lemma {:induction false} TeamsLinesPlain(teams: seq<Team>)
    requires forall i :: 0 <= i < |teams| ==> TeamOk(teams[i])
    ensures AllPlain(TeamsLines(teams))
    decreases |teams|
  {
    if teams != [] {
      TeamLinesPlain(teams[0]);
      TeamsLinesPlain(teams[1..]);
      PlainAppend(TeamLines(teams[0]), TeamsLines(teams[1..]));
    }
  }

  lemma {:induction false} PlayersLinesPlain(players: seq<Player>)
    requires forall i :: 0 <= i < |players| ==> PlayerOk(players[i])
    ensures AllPlain(PlayersLines(players))
    decreases |players|
  {
    if players != [] {
      PlayerLinesPlain(players[0]);
      PlayersLinesPlain(players[1..]);
      PlainAppend(PlayerLines(players[0]), PlayersLines(players[1..]));
    }
  }

  lemma {:induction false} UnitsLinesPlain(depth: nat, units: seq<Unit>)
    requires forall i :: 0 <= i < |units| ==> UnitOk(units[i])
    ensures AllPlain(UnitsLines(depth, units))
    decreases |units|
  {
    if units != [] {
      UnitRead(units[0]);
      TagsPlain();
      FieldsSectionPlain(depth, BeginUnit, UnitFields(units[0]), EndUnit);
      UnitsLinesPlain(depth, units[1..]);
      PlainAppend(UnitLines(depth, units[0]), UnitsLines(depth, units[1..]));
    }
  }

  lemma {:induction false} CitiesLinesPlain(depth: nat, cities: seq<City>)
    requires forall i :: 0 <= i < |cities| ==> CityReadable(cities[i])
    ensures AllPlain(CitiesLines(depth, cities))
    decreases |cities|
  {
    if cities != [] {
      CityRead(cities[0]);
      TagsPlain();
      FieldsSectionPlain(depth, BeginCity, CityFields(cities[0]), EndCity);
      CitiesLinesPlain(depth, cities[1..]);
      PlainAppend(CityLines(depth, cities[0]), CitiesLines(depth, cities[1..]));
    }
  }

  lemma PlotFieldsPlain(p: Plot)
    requires FeaturesFit(p) && PlotFieldsOk(p)
    ensures AllPlain(RowLines(1, PlotRows(p)))
  {
    PlotFieldsRead(p);
    RowLinesPlain(1, PlotRows(p));
  }

  lemma PlotRevealPlain(p: Plot)
    requires Uint64s(p.TeamReveal)
    ensures AllPlain(RowLines(1, RevealRows(p)))
  {
    PlotTeamReveal(p, p.(TeamReveal := []));
    RowLinesPlain(1, RevealRows(p));
  }

  lemma PlotBodyPlain(p: Plot)
    requires FeaturesFit(p) && PlotOk(p)
    ensures AllPlain(PlotBody(p))
  {
    PlotFieldsPlain(p);
    UnitsLinesPlain(1, p.Units);
    CitiesLinesPlain(1, p.Cities);
    PlotRevealPlain(p);
    PlainFour(RowLines(1, PlotRows(p)), UnitsLines(1, p.Units), CitiesLines(1, p.Cities), RowLines(1, RevealRows(p)));
  }

  lemma PlotLinesPlain(p: Plot)
    requires FeaturesFit(p) && PlotOk(p)
    ensures AllPlain(PlotLines(p))
  {
    PlotBodyPlain(p);
    TagsPlain();
    SectionPlain(0, BeginPlot, PlotBody(p), EndPlot);
  }

  lemma {:induction false} PlotsLinesPlain(plots: seq<Plot>)
    requires forall i :: 0 <= i < |plots| ==> FeaturesFit(plots[i]) && PlotOk(plots[i])
    ensures AllPlain(PlotsLines(plots))
    decreases |plots|
  {
    if plots != [] {
      PlotLinesPlain(plots[0]);
      PlotsLinesPlain(plots[1..]);
      PlainAppend(PlotLines(plots[0]), PlotsLines(plots[1..]));
    }
  }

  /** The version line is plain. */
  lemma VersionPlain(v: int)
    ensures PlainLine("Version=" + Itoa(v))
  {
    var version := "Version=" + Itoa(v);
    ItoaPlain(v);
    assert version[|version| - 1] == Itoa(v)[|Itoa(v)| - 1];
    forall i | 0 <= i < |version| ensures version[i] != '\n' {
      if i >= 8 {
        assert version[i] == Itoa(v)[i - 8];
      }
    }
  }

  /** Every line of a readable save is plain. */
  /** Each part of a readable save is plain. */
  lemma SavePartsPlain(m: WbMap)
    requires SaveOk(m)
    ensures PlainLine("Version=" + Itoa(m.Version))
    ensures AllPlain(GameLines(m.Game.value)) && AllPlain(TeamsLines(m.Teams)) && AllPlain(PlayersLines(m.Players))
    ensures AllPlain(MapPropsLines(m.Map.value)) && AllPlain(PlotsLines(m.Plots))
  {
    VersionPlain(m.Version);
    GameLinesPlain(m.Game.value);
    TeamsLinesPlain(m.Teams);
    PlayersLinesPlain(m.Players);
    MapPropsLinesPlain(m.Map.value);
    PlotsLinesPlain(m.Plots);
  }

  /** A save is plain when each of its parts is. */
  lemma SaveLinesJoin(m: WbMap)
    requires Writable(m) && PlainLine("Version=" + Itoa(m.Version))
    requires AllPlain(GameLines(m.Game.value)) && AllPlain(TeamsLines(m.Teams)) && AllPlain(PlayersLines(m.Players))
    requires AllPlain(MapPropsLines(m.Map.value)) && AllPlain(PlotsLines(m.Plots))
    ensures AllPlain(WbMapLines(m))
  {
    PlainSix(["Version=" + Itoa(m.Version)], GameLines(m.Game.value), TeamsLines(m.Teams), PlayersLines(m.Players),
             MapPropsLines(m.Map.value), PlotsLines(m.Plots));
  }

  /** Every line of a readable save is plain. */
  lemma SaveLinesPlain(m: WbMap)
    requires SaveOk(m)
    ensures Writable(m) && AllPlain(WbMapLines(m))
  {
    SaveWritable(m);
    SavePartsPlain(m);
    SaveLinesJoin(m);
  }
}
