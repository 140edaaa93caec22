/**
 * The writing half of the codec: what each entity's ToWbFormat (and, for
 * cities and units, AddAsSubsection) writes. Each section's sequence of
 * SimpleGenerator calls is given as a table of field writes (`GameFields`
 * and the like), executed in order by `WriteFields`; the lines a table
 * produces are the specification each method is proved to write.
 */
module WbFormat {
  import opened Wrappers
  import opened Strconv
  import opened Text
  import opened WbGenerator
  import opened WbStructs

  /** One SimpleGenerator call that writes a field. */
  datatype Field =
    | Str(key: string, text: string)              // AddKeyValueString (AddKeyValue of a string)
    | Strs(key: string, texts: seq<string>)       // AddKeyValueArray
    | Int(key: string, number: int)               // AddKeyValueInt
    | Int64(key: string, number: int)             // AddKeyValueInt64
    | Uint(key: string, number: int)              // AddKeyValueUint
    | Ints(key: string, numbers: seq<int>)        // AddKeyValueIntArray
    | Uints(key: string, numbers: seq<int>)       // AddKeyValueUintArray
    | Flag(key: string, flag: bool)               // AddKeyValueBool
    | Joined(pairs: seq<(string, string)>)        // AddCommaSeparatedValues of `key=value` fragments
    | Line(token: string)                         // AddLine

  /** The rows one field write produces. */
  function FieldRows(f: Field): seq<Row> {
    match f
    case Str(key, text) => StrRow(key, text)
    case Strs(key, texts) => StrArrayRows(key, texts)
    case Int(key, number) => IntRow(key, number)
    case Int64(key, number) => IntRow(key, number)
    case Uint(key, number) => UintRow(key, number)
    case Ints(key, numbers) => IntArrayRows(key, numbers)
    case Uints(key, numbers) => UintArrayRows(key, numbers)
    case Flag(key, flag) => BoolRow(key, flag)
    case Joined(pairs) => [KeyValues(pairs)]
    case Line(token) => [Bare(token)]
  }

  function FieldsRows(fields: seq<Field>): seq<Row> {
    if fields == [] then [] else FieldRows(fields[0]) + FieldsRows(fields[1..])
  }

  /** A section at `depth`: its opening tag, its body, and its closing tag at the same depth. */
  function Section(depth: nat, open: string, body: seq<string>, close: string): seq<string> {
    [Tabs(depth) + open] + body + [Tabs(depth) + close]
  }

  /** The writes Game.ToWbFormat makes inside its section, in order. */
  function GameFields(g: Game): seq<Field> {
    [Str("Era", g.Era),
     Str("Speed", g.Speed),
     Str("Calendar", g.Calendar),
     Strs("Victory", g.Victory),
     Uint("GameTurn", g.GameTurn),
     Uint("MaxCityElimination", g.MaxCityElimination),
     Uint("NumAdvancedStartPoints", g.NumAdvancedStartPoints),
     Uint("TargetScore", g.TargetScore),
     Int("StartYear", g.StartYear),
     Str("Description", g.Description),
     Str("ModPath", g.ModPath),
     Flag("Tutorial", g.Tutorial),
     Strs("Option", g.Option),
     Strs("MPOption", g.MPOption),
     Strs("ForceControl", g.ForceControl),
     Uint("MaxTurns", g.MaxTurns)]
  }

  /** The writes Team.ToWbFormat makes inside its section, in order. */
  function TeamFields(t: Team): seq<Field> {
    [Uint("TeamID", t.TeamID),
     Strs("Tech", t.Tech),
     Uints("ContactWithTeam", t.ContactWithTeam),
     Uints("AtWar", t.AtWar),
     Uints("PermanentWarPeace", t.PermanentWarPeace),
     Uints("OpenBordersWithTeam", t.OpenBordersWithTeam),
     Uints("DefensivePactWithTeam", t.DefensivePactWithTeam),
     Strs("ProjectType", t.ProjectType),
     Flag("RevealMap", t.RevealMap)]
  }

  /** The writes Player.ToWbFormat makes inside its section, in order. */
  function PlayerFields(p: Player): seq<Field> {
    [Str("CivDesc", p.CivDesc),
     Str("CivShortDesc", p.CivShortDesc),
     Str("LeaderName", p.LeaderName),
     Str("CivAdjective", p.CivAdjective),
     Str("FlagDecal", p.FlagDecal),
     Flag("WhiteFlag", p.WhiteFlag),
     Str("LeaderType", p.LeaderType),
     Str("CivType", p.CivType),
     Uint("Team", p.Team),
     Str("Handicap", p.Handicap),
     Str("Color", p.Color),
     Str("ArtStyle", p.ArtStyle),
     Flag("PlayableCiv", p.PlayableCiv),
     Flag("MinorNationStatus", p.MinorNationStatus),
     Int("StartingGold", p.StartingGold),
     Flag("RandomStartLocation", p.RandomStartLocation),
     Joined([("StartingX", Itoa(p.StartingX)), ("StartingY", Itoa(p.StartingY))]),
     Str("StateReligion", p.StateReligion),
     Str("StartingEra", p.StartingEra),
     Strs("CityList", p.CityList),
     Strs("CivicOption", p.CivicOption),
     Strs("Civic", p.Civic),
     Uints("AttitudePlayer", p.AttitudePlayer),
     Ints("AttitudeExtra", p.AttitudeExtra)]
  }

  /** The writes MapProps.ToWbFormat makes inside its section, in order. */
  function MapPropsFields(m: MapProps): seq<Field> {
    [Uint("grid width", m.GridWidth),
     Uint("grid height", m.GridHeight),
     Int64("top latitude", m.TopLatitude),
     Int64("bottom latitude", m.BottomLatitude),
     Int("wrap X", m.WrapX),
     Int("wrap Y", m.WrapY),
     Str("world size", m.WorldSize),
     Str("climate", m.Climate),
     Str("sealevel", m.SeaLevel),
     Uint("num plots written", m.NumPlotsWritten),
     Uint("num signs written", m.NumSignsWritten),
     Flag("Randomize Resources", m.RandomizeResources)]
  }

  /** The writes Unit.AddAsSubsection makes inside its section, in order. */
  function UnitFields(u: Unit): seq<Field> {
    [Joined([("UnitType", u.UnitType), ("UnitOwner", Itoa(u.UnitOwner))]),
     Joined([("Level", Itoa(u.Level)), ("Experience", Itoa(u.Experience))]),
     Str("PromotionType", u.PromotionType),
     Str("UnitAIType", u.UnitAIType),
     Uint("Damage", u.Damage),
     Int("FacingDirection", u.FacingDirection)]
  }

  /** The writes City.AddAsSubsection makes before the culture entries. */
  function CityFixedFields(c: City): seq<Field> {
    [Uint("CityOwner", c.CityOwner),
     Str("CityName", c.CityName),
     Uint("CityPopulation", c.CityPopulation),
     Str("ProductionUnit", c.ProductionUnit),
     Str("ProductionBuilding", c.ProductionBuilding),
     Str("ProductionProject", c.ProductionProject),
     Str("ProductionProcess", c.ProductionProcess),
     Str("BuildingType", c.BuildingType),
     Str("ReligionType", c.ReligionType),
     Str("HolyCityReligionType", c.HolyCityReligionType),
     Str("ScriptData", c.ScriptData)]
  }

  /** The first writes of Plot.ToWbFormat. */
  function PlotHeadFields(p: Plot): seq<Field> {
    [Joined([("x", Itoa(p.X)), ("y", Itoa(p.Y))]),
     Str("Landmark", p.Landmark),
     Str("ScriptData", p.ScriptData)]
  }

  /** The writes between the river flags and the features. */
  function PlotMiddleFields(p: Plot): seq<Field> {
    [Flag("StartingPlot", p.StartingPlot),
     Str("BonusType", p.BonusType),
     Str("ImprovementType", p.ImprovementType)]
  }

  /** The writes after the features, before the units. */
  function PlotTailFields(p: Plot): seq<Field> {
    [Str("RouteType", p.RouteType),
     Str("TerrainType", p.TerrainType),
     Uint("PlotType", p.PlotType)]
  }

  function GameLines(g: Game): seq<string> {
    Section(0, BeginGame, RowLines(1, FieldsRows(GameFields(g))), EndGame)
  }

  function TeamLines(t: Team): seq<string> {
    Section(0, BeginTeam, RowLines(1, FieldsRows(TeamFields(t))), EndTeam)
  }

  function PlayerLines(p: Player): seq<string> {
    Section(0, BeginPlayer, RowLines(1, FieldsRows(PlayerFields(p))), EndPlayer)
  }

  function MapPropsLines(m: MapProps): seq<string> {
    Section(0, BeginMap, RowLines(1, FieldsRows(MapPropsFields(m))), EndMap)
  }

  /** A unit as a subsection of a plot opened at `depth`. */
  function UnitLines(depth: nat, u: Unit): seq<string> {
    Section(depth, BeginUnit, RowLines(depth + 1, FieldsRows(UnitFields(u))), EndUnit)
  }

  /** One `Player<n>Culture=<amount>` write per player, in the order of `keys`. */
  function CultureFields(keys: seq<int>, culture: map<int, int>): (fields: seq<Field>)
    requires forall i :: 0 <= i < |keys| ==> keys[i] in culture
    ensures |fields| == |keys|
  {
    seq(|keys|, i requires 0 <= i < |keys| => Uint(CultureKey(keys[i]), culture[keys[i]]))
  }

  /** The writes of City.AddAsSubsection; culture entries come in ascending player order. */
  function CityFields(c: City): seq<Field> {
    CityFixedFields(c) + CultureFields(Ascending(c.PlayerCulture.Keys), c.PlayerCulture)
  }

  function CityLines(depth: nat, c: City): seq<string> {
    Section(depth, BeginCity, RowLines(depth + 1, FieldsRows(CityFields(c))), EndCity)
  }

  /** A river flag and its direction, written only when the flag is set. */
  function RiverFields(flag: bool, token: string, key: string, direction: int): seq<Field> {
    if flag then [Line(token), Int(key, direction)] else []
  }

  /** Plot.ToWbFormat indexes FeatureVariety by the position in FeatureType; a shorter FeatureVariety is a Go panic. */
  predicate FeaturesFit(p: Plot) {
    |p.FeatureVariety| >= |p.FeatureType|
  }

  /** One `FeatureType=…,FeatureVariety=…` line per feature type. */
  function FeatureFields(types: seq<string>, varieties: seq<string>): (fields: seq<Field>)
    requires |varieties| >= |types|
    ensures |fields| == |types|
  {
    seq(|types|, i requires 0 <= i < |types| => Joined([("FeatureType", types[i]), ("FeatureVariety", varieties[i])]))
  }

  /** The writes of Plot.ToWbFormat before its units. */
  function PlotFields(p: Plot): seq<Field>
    requires FeaturesFit(p)
  {
    PlotHeadFields(p)
      + RiverFields(p.IsNOfRiver, "isNOfRiver", "RiverWEDirection", p.RiverWEDirection)
      + RiverFields(p.IsWOfRiver, "isWOfRiver", "RiverNSDirection", p.RiverNSDirection)
      + PlotMiddleFields(p)
      + FeatureFields(p.FeatureType, p.FeatureVariety)
      + PlotTailFields(p)
  }

  /** The subsections of a plot's units, one after another. */
  function UnitsLines(depth: nat, units: seq<Unit>): seq<string>
  {
    if units == [] then [] else UnitLines(depth, units[0]) + UnitsLines(depth, units[1..])
  }

  /** The subsections of a plot's cities, one after another. */
  function CitiesLines(depth: nat, cities: seq<City>): seq<string>
  {
    if cities == [] then [] else CityLines(depth, cities[0]) + CitiesLines(depth, cities[1..])
  }

  /** The body of a Plot section: its fields, its units, its cities, then its TeamReveal lines. */
  function PlotBody(p: Plot): seq<string>
    requires FeaturesFit(p)
  {
    RowLines(1, FieldsRows(PlotFields(p))) + UnitsLines(1, p.Units) + CitiesLines(1, p.Cities)
      + RowLines(1, UintArrayRows("TeamReveal", p.TeamReveal))
  }

  function PlotLines(p: Plot): seq<string>
    requires FeaturesFit(p)
  {
    Section(0, BeginPlot, PlotBody(p), EndPlot)
  }

  /** What WbMap.ToWbFormat can write without a nil dereference or an index panic. */
  predicate Writable(m: WbMap) {
    m.Game.Some? && m.Map.Some? && forall i :: 0 <= i < |m.Plots| ==> FeaturesFit(m.Plots[i])
  }

  /** The Plot sections, one after another. */
  function PlotsLines(plots: seq<Plot>): seq<string>
    requires forall k :: 0 <= k < |plots| ==> FeaturesFit(plots[k])
  {
    if plots == [] then [] else PlotLines(plots[0]) + PlotsLines(plots[1..])
  }

  /** The Team sections, one after another. */
  function TeamsLines(teams: seq<Team>): seq<string>
  {
    if teams == [] then [] else TeamLines(teams[0]) + TeamsLines(teams[1..])
  }

  /** The Player sections, one after another. */
  function PlayersLines(players: seq<Player>): seq<string>
  {
    if players == [] then [] else PlayerLines(players[0]) + PlayersLines(players[1..])
  }

  /** The whole save: the version line, the game, the teams, the players, the map, the plots. */
  function WbMapLines(m: WbMap): seq<string>
    requires Writable(m)
  {
    ["Version=" + Itoa(m.Version)]
      + GameLines(m.Game.value)
      + TeamsLines(m.Teams)
      + PlayersLines(m.Players)
      + MapPropsLines(m.Map.value)
      + PlotsLines(m.Plots)
  }

  // ----------------------------------------------------------- methods

  /** One field write, made with the SimpleGenerator call the source uses for it. */
  method WriteField(gen: SimpleGenerator, f: Field)
    modifies gen`buffer
    ensures gen.buffer == old(gen.buffer) + Render(RowLines(gen.indent, FieldRows(f)))
  {
    match f
    case Str(key, text) => gen.AddKeyValueString(key, text);
    case Strs(key, texts) => gen.AddKeyValueArray(key, texts);
    case Flag(key, flag) => gen.AddKeyValueBool(key, flag);
    case Joined(pairs) =>
      gen.AddCommaSeparatedValues(Fragments(pairs));
    case Line(token) => gen.AddLine(token);
    case _ => WriteNumberField(gen, f);
  }

  /** The number writes: AddKeyValueInt, AddKeyValueInt64, AddKeyValueUint and the two array helpers. */
  method WriteNumberField(gen: SimpleGenerator, f: Field)
    requires f.Int? || f.Int64? || f.Uint? || f.Ints? || f.Uints?
    modifies gen`buffer
    ensures gen.buffer == old(gen.buffer) + Render(RowLines(gen.indent, FieldRows(f)))
  {
    match f
    case Int(key, number) => gen.AddKeyValueInt(key, number);
    case Int64(key, number) => gen.AddKeyValueInt64(key, number);
    case Uint(key, number) => gen.AddKeyValueUint(key, number);
    case Ints(key, numbers) => gen.AddKeyValueIntArray(key, numbers);
    case Uints(key, numbers) => gen.AddKeyValueUintArray(key, numbers);
  }

  /** The field writes of a table, in order, at the generator's current depth. */
  method WriteFields(gen: SimpleGenerator, fields: seq<Field>)
    modifies gen`buffer
    ensures gen.buffer == old(gen.buffer) + Render(RowLines(gen.indent, FieldsRows(fields)))
  {
    var i := 0;
    while i < |fields|
      invariant 0 <= i <= |fields|
      invariant gen.buffer == old(gen.buffer) + Render(RowLines(gen.indent, FieldsRows(fields[..i])))
    {
      ghost var before := gen.buffer;
      WriteField(gen, fields[i]);
      FieldsRowsSnoc(fields, i);
      AppendRows(old(gen.buffer), before, gen.buffer, gen.indent, FieldsRows(fields[..i]), FieldRows(fields[i]));
      i := i + 1;
    }
    assert fields[..i] == fields;
  }

  /** StartSection, the table's field writes one level deeper, EndSection. */
  method WriteSection(gen: SimpleGenerator, open: string, close: string, fields: seq<Field>)
    requires gen.Valid()
    modifies gen
    ensures gen.Valid() && gen.indent == old(gen.indent) && gen.endTag == old(gen.endTag)
    ensures gen.buffer == old(gen.buffer) +
              Render(Section(old(gen.indent), open, RowLines(old(gen.indent) + 1, FieldsRows(fields)), close))
  {
    ghost var depth := gen.indent;
    ghost var b0 := gen.buffer;
    gen.StartSection(open, close);
    ghost var b1 := gen.buffer;
    assert b1 == b0 + Render([Tabs(depth) + open]);
    WriteFields(gen, fields);
    ghost var b2 := gen.buffer;
    assert b2 == b1 + Render(RowLines(depth + 1, FieldsRows(fields)));
    gen.EndSection();
    assert gen.buffer == b2 + Render([Tabs(depth) + close]);
    RenderSection(b0, depth, open, RowLines(depth + 1, FieldsRows(fields)), close);
  }

  /** Game.ToWbFormat: a fresh generator holding one section. */
  method GameToWbFormat(g: Game) returns (out: string)
    ensures out == Render(GameLines(g))
  {
    var gen := new SimpleGenerator();
    WriteSection(gen, BeginGame, EndGame, GameFields(g));
    out := gen.Bytes();
  }

  method TeamToWbFormat(t: Team) returns (out: string)
    ensures out == Render(TeamLines(t))
  {
    var gen := new SimpleGenerator();
    WriteSection(gen, BeginTeam, EndTeam, TeamFields(t));
    out := gen.Bytes();
  }

  method PlayerToWbFormat(p: Player) returns (out: string)
    ensures out == Render(PlayerLines(p))
  {
    var gen := new SimpleGenerator();
    WriteSection(gen, BeginPlayer, EndPlayer, PlayerFields(p));
    out := gen.Bytes();
  }

  method MapPropsToWbFormat(m: MapProps) returns (out: string)
    ensures out == Render(MapPropsLines(m))
  {
    var gen := new SimpleGenerator();
    WriteSection(gen, BeginMap, EndMap, MapPropsFields(m));
    out := gen.Bytes();
  }

  /** Unit.AddAsSubsection: the unit's section at the generator's current depth; the depth is restored. */
  method UnitAddAsSubsection(u: Unit, gen: SimpleGenerator)
    requires gen.Valid()
    modifies gen
    ensures gen.Valid() && gen.indent == old(gen.indent) && gen.endTag == old(gen.endTag)
    ensures gen.buffer == old(gen.buffer) + Render(UnitLines(old(gen.indent), u))
  {
    WriteSection(gen, BeginUnit, EndUnit, UnitFields(u));
  }

  /** Unit.ToWbFormat: the subsection on its own, at depth 0. */
  method UnitToWbFormat(u: Unit) returns (out: string)
    ensures out == Render(UnitLines(0, u))
  {
    var gen := new SimpleGenerator();
    UnitAddAsSubsection(u, gen);
    out := gen.Bytes();
  }

  /**
   * City.AddAsSubsection: the city's section at the generator's current
   * depth. Go visits PlayerCulture in map order, which is unspecified; the
   * table CityFields fixes ascending player order.
   */
  method CityAddAsSubsection(c: City, gen: SimpleGenerator)
    requires gen.Valid()
    modifies gen
    ensures gen.Valid() && gen.indent == old(gen.indent) && gen.endTag == old(gen.endTag)
    ensures gen.buffer == old(gen.buffer) + Render(CityLines(old(gen.indent), c))
  {
    WriteSection(gen, BeginCity, EndCity, CityFields(c));
  }

  /** City.ToWbFormat: the subsection on its own, at depth 0. */
  method CityToWbFormat(c: City) returns (out: string)
    ensures out == Render(CityLines(0, c))
  {
    var gen := new SimpleGenerator();
    CityAddAsSubsection(c, gen);
    out := gen.Bytes();
  }

  /** The loop over a plot's units: each one added as a subsection at the current depth. */
  method AddUnits(gen: SimpleGenerator, units: seq<Unit>)
    requires gen.Valid()
    modifies gen
    ensures gen.Valid() && gen.indent == old(gen.indent) && gen.endTag == old(gen.endTag)
    ensures gen.buffer == old(gen.buffer) + Render(UnitsLines(old(gen.indent), units))
  {
    ghost var b0 := gen.buffer;
    ghost var depth := gen.indent;
    var i := 0;
    assert units[..0] == [];
    while i < |units|
      invariant 0 <= i <= |units|
      invariant gen.Valid() && gen.indent == depth && gen.endTag == old(gen.endTag)
      invariant gen.buffer == b0 + Render(UnitsLines(depth, units[..i]))
    {
      UnitAddAsSubsection(units[i], gen);
      UnitsLinesSnoc(depth, units, i);
      RenderAppendAt(b0, UnitsLines(depth, units[..i]), UnitLines(depth, units[i]));
      i := i + 1;
    }
    assert units[..i] == units;
  }

  /** The loop over a plot's cities: each one added as a subsection at the current depth. */
  method AddCities(gen: SimpleGenerator, cities: seq<City>)
    requires gen.Valid()
    modifies gen
    ensures gen.Valid() && gen.indent == old(gen.indent) && gen.endTag == old(gen.endTag)
    ensures gen.buffer == old(gen.buffer) + Render(CitiesLines(old(gen.indent), cities))
  {
    ghost var b0 := gen.buffer;
    ghost var depth := gen.indent;
    var i := 0;
    assert cities[..0] == [];
    while i < |cities|
      invariant 0 <= i <= |cities|
      invariant gen.Valid() && gen.indent == depth && gen.endTag == old(gen.endTag)
      invariant gen.buffer == b0 + Render(CitiesLines(depth, cities[..i]))
    {
      CityAddAsSubsection(cities[i], gen);
      CitiesLinesSnoc(depth, cities, i);
      RenderAppendAt(b0, CitiesLines(depth, cities[..i]), CityLines(depth, cities[i]));
      i := i + 1;
    }
    assert cities[..i] == cities;
  }

  /** The part of Plot.ToWbFormat between StartSection and EndSection. */
  method WritePlotBody(gen: SimpleGenerator, p: Plot)
    requires FeaturesFit(p)
    requires gen.Valid() && gen.indent == 1
    modifies gen
    ensures gen.Valid() && gen.indent == 1 && gen.endTag == old(gen.endTag)
    ensures gen.buffer == old(gen.buffer) + Render(PlotBody(p))
  {
    ghost var b0 := gen.buffer;
    ghost var fields := RowLines(1, FieldsRows(PlotFields(p)));
    ghost var units := UnitsLines(1, p.Units);
    ghost var cities := CitiesLines(1, p.Cities);
    ghost var revealed := RowLines(1, UintArrayRows("TeamReveal", p.TeamReveal));
    WriteFields(gen, PlotFields(p));
    ghost var b1 := gen.buffer;
    assert b1 == b0 + Render(fields);
    AddUnits(gen, p.Units);
    ghost var b2 := gen.buffer;
    assert b2 == b1 + Render(units);
    AddCities(gen, p.Cities);
    ghost var b3 := gen.buffer;
    assert b3 == b2 + Render(cities);
    gen.AddKeyValueUintArray("TeamReveal", p.TeamReveal);
    assert gen.buffer == b3 + Render(revealed);
    RenderJoin4(fields, units, cities, revealed);
    Regroup4(b0, Render(fields), Render(units), Render(cities), Render(revealed));
  }

  /** Plot.ToWbFormat: the plot's fields, its units, its cities and TeamReveal, in one section. */
  method PlotToWbFormat(p: Plot) returns (out: string)
    requires FeaturesFit(p)
    ensures out == Render(PlotLines(p))
  {
    var gen := new SimpleGenerator();
    gen.StartSection(BeginPlot, EndPlot);
    ghost var b1 := gen.buffer;
    assert b1 == Render([Tabs(0) + BeginPlot]);
    WritePlotBody(gen, p);
    ghost var b2 := gen.buffer;
    assert b2 == b1 + Render(PlotBody(p));
    gen.EndSection();
    assert gen.buffer == b2 + Render([Tabs(0) + EndPlot]);
    out := gen.Bytes();
    RenderSection("", 0, BeginPlot, PlotBody(p), EndPlot);
  }

  /** The loop over the teams, each one written by Team.ToWbFormat. */
  method TeamsToWbFormat(teams: seq<Team>) returns (out: string)
    ensures out == Render(TeamsLines(teams))
  {
    out := "";
    var i := 0;
    assert teams[..0] == [];
    while i < |teams|
      invariant 0 <= i <= |teams|
      invariant out == Render(TeamsLines(teams[..i]))
    {
      var s := TeamToWbFormat(teams[i]);
      TeamsLinesSnoc(teams, i);
      RenderAppend(TeamsLines(teams[..i]), TeamLines(teams[i]));
      out := out + s;
      i := i + 1;
    }
    assert teams[..i] == teams;
  }

  /** The loop over the players, each one written by Player.ToWbFormat. */
  method PlayersToWbFormat(players: seq<Player>) returns (out: string)
    ensures out == Render(PlayersLines(players))
  {
    out := "";
    var i := 0;
    assert players[..0] == [];
    while i < |players|
      invariant 0 <= i <= |players|
      invariant out == Render(PlayersLines(players[..i]))
    {
      var s := PlayerToWbFormat(players[i]);
      PlayersLinesSnoc(players, i);
      RenderAppend(PlayersLines(players[..i]), PlayerLines(players[i]));
      out := out + s;
      i := i + 1;
    }
    assert players[..i] == players;
  }

  /** The loop over the plots, each one written by Plot.ToWbFormat. */
  method PlotsToWbFormat(plots: seq<Plot>) returns (out: string)
    requires forall i :: 0 <= i < |plots| ==> FeaturesFit(plots[i])
    ensures out == Render(PlotsLines(plots))
  {
    out := "";
    var i := 0;
    assert plots[..0] == [];
    while i < |plots|
      invariant 0 <= i <= |plots|
      invariant out == Render(PlotsLines(plots[..i]))
    {
      var s := PlotToWbFormat(plots[i]);
      PlotsLinesSnoc(plots, i);
      RenderAppend(PlotsLines(plots[..i]), PlotLines(plots[i]));
      out := out + s;
      i := i + 1;
    }
    assert plots[..i] == plots;
  }

  /** WbMap.ToWbFormat: the version line, then every section's own output, concatenated. */
  method WbMapToWbFormat(m: WbMap) returns (out: string)
    requires Writable(m)
    ensures out == Render(WbMapLines(m))
  {
    var version := "Version=" + Itoa(m.Version) + "\n";
    var game := GameToWbFormat(m.Game.value);
    var teams := TeamsToWbFormat(m.Teams);
    var players := PlayersToWbFormat(m.Players);
    var props := MapPropsToWbFormat(m.Map.value);
    var plots := PlotsToWbFormat(m.Plots);
    out := version + game + teams + players + props + plots;
    ghost var first := ["Version=" + Itoa(m.Version)];
    RenderOne(first[0]);
    RenderedJoin6(version, game, teams, players, props, plots,
      first, GameLines(m.Game.value), TeamsLines(m.Teams),
      PlayersLines(m.Players), MapPropsLines(m.Map.value), PlotsLines(m.Plots));
  }

  // ------------------------------------------------------------ lemmas

  /**
   * Regroupings of a concatenation (Regroup3, Regroup4, LinesRegroup): facts
   * the solver knows, stated as lemmas so that a caller names the one
   * regrouping it needs instead of searching for it, which keeps those
   * callers' proofs cheap.
   */
  lemma Regroup3(prefix: string, x: string, y: string)
    ensures prefix + x + y == prefix + (x + y)
  {
  }

  lemma Regroup4(prefix: string, x: string, y: string, z: string, w: string)
    ensures prefix + x + y + z + w == prefix + (x + y + z + w)
  {
  }

  /** RenderAppend behind a common prefix. */
  lemma RenderAppendAt(prefix: string, a: seq<string>, b: seq<string>)
    ensures prefix + Render(a + b) == prefix + Render(a) + Render(b)
  {
    RenderAppend(a, b);
    Regroup3(prefix, Render(a), Render(b));
  }

  /** Rendering a section renders its opening line, its body and its closing line. */
  lemma RenderSection(prefix: string, depth: nat, open: string, body: seq<string>, close: string)
    ensures prefix + Render(Section(depth, open, body, close)) ==
            prefix + Render([Tabs(depth) + open]) + Render(body) + Render([Tabs(depth) + close])
  {
    var first, last := [Tabs(depth) + open], [Tabs(depth) + close];
    RenderAppend(first + body, last);
    RenderAppend(first, body);
    assert Render(Section(depth, open, body, close)) == Render(first) + Render(body) + Render(last);
    Regroup3(prefix + Render(first), Render(body), Render(last));
    Regroup3(prefix, Render(first), Render(body) + Render(last));
  }

  lemma RenderJoin4(a: seq<string>, b: seq<string>, c: seq<string>, d: seq<string>)
    ensures Render(a + b + c + d) == Render(a) + Render(b) + Render(c) + Render(d)
  {
    RenderAppend(a, b);
    RenderAppend(a + b, c);
    RenderAppend(a + b + c, d);
  }

  lemma RenderJoin6(a: seq<string>, b: seq<string>, c: seq<string>, d: seq<string>, e: seq<string>, f: seq<string>)
    ensures Render(a + b + c + d + e + f) ==
            Render(a) + Render(b) + Render(c) + Render(d) + Render(e) + Render(f)
  {
    RenderJoin4(a, b, c, d);
    RenderAppend(a + b + c + d, e);
    RenderAppend(a + b + c + d + e, f);
  }

  /** Six rendered pieces written one after another are the rendering of the six pieces joined. */
  lemma RenderedJoin6(ra: string, rb: string, rc: string, rd: string, re: string, rf: string,
                      a: seq<string>, b: seq<string>, c: seq<string>, d: seq<string>, e: seq<string>, f: seq<string>)
    requires ra == Render(a) && rb == Render(b) && rc == Render(c)
    requires rd == Render(d) && re == Render(e) && rf == Render(f)
    ensures ra + rb + rc + rd + re + rf == Render(a + b + c + d + e + f)
  {
    RenderJoin6(a, b, c, d, e, f);
  }

  lemma {:induction false} FieldsRowsAppend(a: seq<Field>, b: seq<Field>)
    ensures FieldsRows(a + b) == FieldsRows(a) + FieldsRows(b)
    decreases |a|
  {
    if a == [] {
      assert a + b == b;
    } else {
      assert (a + b)[1..] == a[1..] + b;
      FieldsRowsAppend(a[1..], b);
    }
  }

  lemma FieldsRowsSnoc(fields: seq<Field>, i: nat)
    requires i < |fields|
    ensures FieldsRows(fields[..i + 1]) == FieldsRows(fields[..i]) + FieldRows(fields[i])
  {
    assert fields[..i + 1] == fields[..i] + [fields[i]];
    FieldsRowsAppend(fields[..i], [fields[i]]);
  }

  /** A regrouping of lines, stated for the solver's sake as Regroup3 is. */
  lemma LinesRegroup(a: seq<string>, b: seq<string>, c: seq<string>)
    ensures a + b + c == a + (b + c)
  {
  }

  lemma {:induction false} UnitsLinesSnoc(depth: nat, units: seq<Unit>, i: nat)
    requires i < |units|
    ensures UnitsLines(depth, units[..i + 1]) == UnitsLines(depth, units[..i]) + UnitLines(depth, units[i])
    decreases i
  {
    if i == 0 {
      assert units[..1] == [units[0]] && units[..0] == [];
    } else {
      var rest := units[1..];
      assert units[..i + 1][1..] == rest[..i];
      assert units[..i][1..] == rest[..i - 1];
      UnitsLinesSnoc(depth, rest, i - 1);
      LinesRegroup(UnitLines(depth, units[0]), UnitsLines(depth, rest[..i - 1]), UnitLines(depth, units[i]));
    }
  }

  lemma {:induction false} CitiesLinesSnoc(depth: nat, cities: seq<City>, i: nat)
    requires i < |cities|
    ensures CitiesLines(depth, cities[..i + 1]) == CitiesLines(depth, cities[..i]) + CityLines(depth, cities[i])
    decreases i
  {
    if i == 0 {
      assert cities[..1] == [cities[0]] && cities[..0] == [];
    } else {
      var rest := cities[1..];
      assert cities[..i + 1][1..] == rest[..i];
      assert cities[..i][1..] == rest[..i - 1];
      CitiesLinesSnoc(depth, rest, i - 1);
      LinesRegroup(CityLines(depth, cities[0]), CitiesLines(depth, rest[..i - 1]), CityLines(depth, cities[i]));
    }
  }

  lemma {:induction false} TeamsLinesSnoc(teams: seq<Team>, i: nat)
    requires i < |teams|
    ensures TeamsLines(teams[..i + 1]) == TeamsLines(teams[..i]) + TeamLines(teams[i])
    decreases i
  {
    if i == 0 {
      assert teams[..1] == [teams[0]] && teams[..0] == [];
    } else {
      var rest := teams[1..];
      assert teams[..i + 1][1..] == rest[..i];
      assert teams[..i][1..] == rest[..i - 1];
      TeamsLinesSnoc(rest, i - 1);
      LinesRegroup(TeamLines(teams[0]), TeamsLines(rest[..i - 1]), TeamLines(teams[i]));
    }
  }

  lemma {:induction false} PlayersLinesSnoc(players: seq<Player>, i: nat)
    requires i < |players|
    ensures PlayersLines(players[..i + 1]) == PlayersLines(players[..i]) + PlayerLines(players[i])
    decreases i
  {
    if i == 0 {
      assert players[..1] == [players[0]] && players[..0] == [];
    } else {
      var rest := players[1..];
      assert players[..i + 1][1..] == rest[..i];
      assert players[..i][1..] == rest[..i - 1];
      PlayersLinesSnoc(rest, i - 1);
      LinesRegroup(PlayerLines(players[0]), PlayersLines(rest[..i - 1]), PlayerLines(players[i]));
    }
  }

  lemma {:induction false} PlotsLinesSnoc(plots: seq<Plot>, i: nat)
    requires i < |plots|
    requires forall k :: 0 <= k < |plots| ==> FeaturesFit(plots[k])
    ensures PlotsLines(plots[..i + 1]) == PlotsLines(plots[..i]) + PlotLines(plots[i])
    decreases i
  {
    if i == 0 {
      assert plots[..1] == [plots[0]] && plots[..0] == [];
    } else {
      var rest := plots[1..];
      assert plots[..i + 1][1..] == rest[..i];
      assert plots[..i][1..] == rest[..i - 1];
      PlotsLinesSnoc(rest, i - 1);
      LinesRegroup(PlotLines(plots[0]), PlotsLines(rest[..i - 1]), PlotLines(plots[i]));
    }
  }

  // -------------------------------------------- ascending order of keys

  lemma {:induction false} MinExists(s: set<int>)
    requires s != {}
    ensures exists m :: m in s && forall x :: x in s ==> m <= x
    decreases |s|
  {
    if forall z :: z !in s {
      assert false;
    }
    var y :| y in s;
    if s == {y} {
      assert forall x :: x in s ==> y <= x;
    } else {
      var rest := s - {y};
      MinExists(rest);
      var m :| m in rest && forall x :: x in rest ==> m <= x;
      var least := if y < m then y else m;
      forall x | x in s
        ensures least <= x
      {
        if x != y {
          assert x in rest;
        }
      }
      assert least in s;
    }
  }

  /** The least element of a non-empty set. */
  function SetMin(s: set<int>): (m: int)
    requires s != {}
    ensures m in s && forall x :: x in s ==> m <= x
  {
    MinExists(s);
    var m :| m in s && forall x :: x in s ==> m <= x;
    m
  }

  /** The elements of a set in ascending order. */
  function Ascending(s: set<int>): (r: seq<int>)
    ensures forall i :: 0 <= i < |r| ==> r[i] in s
    ensures forall x :: x in s ==> x in r
    ensures forall i, j :: 0 <= i < j < |r| ==> r[i] < r[j]
    decreases |s|
  {
    if s == {} then []
    else
      var m := SetMin(s);
      var rest := Ascending(s - {m});
      assert forall x :: x in s ==> x == m || x in rest;
      [m] + rest
  }
}
