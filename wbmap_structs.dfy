/**
 * The scenario tree of a WorldBuilder save and the per-entity `Unpack`
 * rules: each entity accepts a closed set of keys, reads `1` as true,
 * converts integer fields with Atoi, and appends repeated keys in order.
 * Go's uint, uint64 and int64 fields are `int` here; an unsigned field
 * receives `uint(i)` of the parsed number, which wraps negatives modulo 2^64.
 */
module WbStructs {
  import opened Wrappers
  import opened Strconv

  // The section tags of the save format.
  const BeginGame := "BeginGame"
  const EndGame := "EndGame"
  const BeginPlayer := "BeginPlayer"
  const EndPlayer := "EndPlayer"
  const NonePlayer := "NONE"
  const BeginTeam := "BeginTeam"
  const EndTeam := "EndTeam"
  const BeginMap := "BeginMap"
  const EndMap := "EndMap"
  const BeginPlot := "BeginPlot"
  const EndPlot := "EndPlot"
  const BeginUnit := "BeginUnit"
  const EndUnit := "EndUnit"
  const BeginCity := "BeginCity"
  const EndCity := "EndCity"

  /** Why one `key=value` pair could not be applied to an entity. */
  datatype UnpackError =
    | UnknownKey(key: string)         // "unknown key: <k>"
    | NumError(fn: string, text: string, outOfRange: bool)  // a *strconv.NumError
    | NilMapWrite(key: string)        // a Go panic: assignment to entry in a nil map

  datatype Game = Game(
    Era: string, Speed: string, Calendar: string, Victory: seq<string>,
    GameTurn: int, MaxCityElimination: int, NumAdvancedStartPoints: int, TargetScore: int,
    StartYear: int, Description: string, ModPath: string, Tutorial: bool,
    Option: seq<string>, MPOption: seq<string>, ForceControl: seq<string>, MaxTurns: int)

  datatype Team = Team(
    TeamID: int, Tech: seq<string>, ContactWithTeam: seq<int>, AtWar: seq<int>,
    PermanentWarPeace: seq<int>, OpenBordersWithTeam: seq<int>, DefensivePactWithTeam: seq<int>,
    ProjectType: seq<string>, RevealMap: bool)

  datatype Player = Player(
    CivDesc: string, CivShortDesc: string, LeaderName: string, CivAdjective: string,
    FlagDecal: string, WhiteFlag: bool, LeaderType: string, CivType: string, Team: int,
    Handicap: string, Color: string, ArtStyle: string, PlayableCiv: bool, MinorNationStatus: bool,
    StartingGold: int, RandomStartLocation: bool, StartingX: int, StartingY: int,
    StateReligion: string, StartingEra: string, CityList: seq<string>, CivicOption: seq<string>,
    Civic: seq<string>, AttitudePlayer: seq<int>, AttitudeExtra: seq<int>)

  datatype MapProps = MapProps(
    GridWidth: int, GridHeight: int, TopLatitude: int, BottomLatitude: int,
    WrapX: int, WrapY: int, WorldSize: string, Climate: string, SeaLevel: string,
    NumPlotsWritten: int, NumSignsWritten: int, RandomizeResources: bool)

  datatype City = City(
    CityOwner: int, CityName: string, CityPopulation: int,
    ProductionUnit: string, ProductionBuilding: string, ProductionProject: string,
    ProductionProcess: string, BuildingType: string, ReligionType: string,
    HolyCityReligionType: string, ScriptData: string, PlayerCulture: map<int, int>)

  datatype Unit = Unit(
    UnitType: string, UnitOwner: int, Level: int, Experience: int,
    PromotionType: string, UnitAIType: string, Damage: int, FacingDirection: int)

  datatype Plot = Plot(
    X: int, Y: int, Landmark: string, ScriptData: string,
    IsNOfRiver: bool, IsWOfRiver: bool, RiverNSDirection: int, RiverWEDirection: int,
    StartingPlot: bool, BonusType: string, ImprovementType: string,
    FeatureType: seq<string>, FeatureVariety: seq<string>,
    RouteType: string, TerrainType: string, PlotType: int,
    Units: seq<Unit>, Cities: seq<City>, TeamReveal: seq<int>)

  /** The root of the tree; Game and Map are Go pointers that may be nil. */
  datatype WbMap = WbMap(
    Version: int, Game: Option<Game>, Teams: seq<Team>, Map: Option<MapProps>,
    Players: seq<Player>, Plots: seq<Plot>)

  // The zero values a `&Game{}` (and so on) starts from.
  const EmptyGame := Game("", "", "", [], 0, 0, 0, 0, 0, "", "", false, [], [], [], 0)
  const EmptyTeam := Team(0, [], [], [], [], [], [], [], false)
  const EmptyPlayer := Player("", "", "", "", "", false, "", "", 0, "", "", "", false, false,
                              0, false, 0, 0, "", "", [], [], [], [], [])
  const EmptyMapProps := MapProps(0, 0, 0, 0, 0, 0, "", "", "", 0, 0, false)
  const EmptyCity := City(0, "", 0, "", "", "", "", "", "", "", "", map[])
  const EmptyUnit := Unit("", 0, 0, 0, "", "", 0, 0)
  const EmptyPlot := Plot(0, 0, "", "", false, false, 0, 0, false, "", "", [], [], "", "", 0, [], [], [])

  /** strconv.Atoi (or ParseInt with base 10 and 64 bits, named `fn`) with its error. */
  function Number(text: string, fn: string := "Atoi"): (r: Result<int, UnpackError>)
    ensures r.Success? <==> Atoi(text).Some?
    ensures r.Success? ==> r.value == Atoi(text).value
    ensures r.Failure? ==> r.error == NumError(fn, text, RangeError(text))
  {
    match Atoi(text)
    case Some(n) => Success(n)
    case None => Failure(NumError(fn, text, RangeError(text)))
  }

  // ---------------------------------------------------------------- Game

  const GameKeys: set<string> := {
    "Era", "Speed", "Calendar", "Victory", "GameTurn", "MaxCityElimination",
    "NumAdvancedStartPoints", "TargetScore", "StartYear", "Description", "ModPath",
    "Tutorial", "Option", "MPOption", "ForceControl", "MaxTurns"}
  const GameNumberKeys: set<string> := {
    "GameTurn", "MaxCityElimination", "NumAdvancedStartPoints", "TargetScore", "StartYear", "MaxTurns"}

  /** One case of Game.Unpack's switch. */
  function GameField(g: Game, key: string, value: string): (r: Result<Game, UnpackError>)
    ensures key !in GameKeys ==> r == Failure(UnknownKey(key))
    ensures key in GameKeys ==> (r.Success? <==> key !in GameNumberKeys || Atoi(value).Some?)
  {
    match key
    case "Era" => Success(g.(Era := value))
    case "Speed" => Success(g.(Speed := value))
    case "Calendar" => Success(g.(Calendar := value))
    case "Victory" => Success(g.(Victory := g.Victory + [value]))
    case "GameTurn" => var n :- Number(value); Success(g.(GameTurn := Unsigned(n)))
    case "MaxCityElimination" => var n :- Number(value); Success(g.(MaxCityElimination := Unsigned(n)))
    case "NumAdvancedStartPoints" => var n :- Number(value); Success(g.(NumAdvancedStartPoints := Unsigned(n)))
    case "TargetScore" => var n :- Number(value); Success(g.(TargetScore := Unsigned(n)))
    case "StartYear" => var n :- Number(value); Success(g.(StartYear := n))
    case "Description" => Success(g.(Description := value))
    case "ModPath" => Success(g.(ModPath := value))
    case "Tutorial" => Success(g.(Tutorial := value == "1"))
    case "Option" => Success(g.(Option := g.Option + [value]))
    case "MPOption" => Success(g.(MPOption := g.MPOption + [value]))
    case "ForceControl" => Success(g.(ForceControl := g.ForceControl + [value]))
    case "MaxTurns" => var n :- Number(value); Success(g.(MaxTurns := Unsigned(n)))
    case _ => Failure(UnknownKey(key))
  }

  // ---------------------------------------------------------------- Team

  const TeamKeys: set<string> := {
    "TeamID", "Tech", "ContactWithTeam", "AtWar", "PermanentWarPeace", "OpenBordersWithTeam",
    "DefensivePactWithTeam", "ProjectType", "RevealMap"}
  const TeamNumberKeys: set<string> := {
    "TeamID", "ContactWithTeam", "AtWar", "PermanentWarPeace", "OpenBordersWithTeam",
    "DefensivePactWithTeam"}

  function TeamField(t: Team, key: string, value: string): (r: Result<Team, UnpackError>)
    ensures key !in TeamKeys ==> r == Failure(UnknownKey(key))
    ensures key in TeamKeys ==> (r.Success? <==> key !in TeamNumberKeys || Atoi(value).Some?)
  {
    match key
    case "TeamID" => var n :- Number(value); Success(t.(TeamID := Unsigned(n)))
    case "Tech" => Success(t.(Tech := t.Tech + [value]))
    case "ContactWithTeam" => var n :- Number(value); Success(t.(ContactWithTeam := t.ContactWithTeam + [Unsigned(n)]))
    case "AtWar" => var n :- Number(value); Success(t.(AtWar := t.AtWar + [Unsigned(n)]))
    case "PermanentWarPeace" => var n :- Number(value); Success(t.(PermanentWarPeace := t.PermanentWarPeace + [Unsigned(n)]))
    case "OpenBordersWithTeam" => var n :- Number(value); Success(t.(OpenBordersWithTeam := t.OpenBordersWithTeam + [Unsigned(n)]))
    case "DefensivePactWithTeam" => var n :- Number(value); Success(t.(DefensivePactWithTeam := t.DefensivePactWithTeam + [Unsigned(n)]))
    case "ProjectType" => Success(t.(ProjectType := t.ProjectType + [value]))
    case "RevealMap" => Success(t.(RevealMap := value == "1"))
    case _ => Failure(UnknownKey(key))
  }

  // -------------------------------------------------------------- Player

  const PlayerKeys: set<string> := {
    "CivDesc", "CivShortDesc", "LeaderName", "CivAdjective", "FlagDecal", "WhiteFlag",
    "LeaderType", "CivType", "Team", "Handicap", "Color", "ArtStyle", "PlayableCiv",
    "MinorNationStatus", "StartingGold", "RandomStartLocation", "StartingX", "StartingY",
    "StateReligion", "StartingEra", "CityList", "CivicOption", "Civic", "AttitudePlayer",
    "AttitudeExtra"}
  const PlayerNumberKeys: set<string> := {
    "Team", "StartingGold", "StartingX", "StartingY", "AttitudePlayer", "AttitudeExtra"}

  function PlayerField(p: Player, key: string, value: string): (r: Result<Player, UnpackError>)
    ensures key !in PlayerKeys ==> r == Failure(UnknownKey(key))
    ensures key in PlayerKeys ==> (r.Success? <==> key !in PlayerNumberKeys || Atoi(value).Some?)
  {
    match key
    case "CivDesc" => Success(p.(CivDesc := value))
    case "CivShortDesc" => Success(p.(CivShortDesc := value))
    case "LeaderName" => Success(p.(LeaderName := value))
    case "CivAdjective" => Success(p.(CivAdjective := value))
    case "FlagDecal" => Success(p.(FlagDecal := value))
    case "WhiteFlag" => Success(p.(WhiteFlag := value == "1"))
    case "LeaderType" => Success(p.(LeaderType := value))
    case "CivType" => Success(p.(CivType := value))
    case "Team" => var n :- Number(value); Success(p.(Team := Unsigned(n)))
    case "Handicap" => Success(p.(Handicap := value))
    case "Color" => Success(p.(Color := value))
    case "ArtStyle" => Success(p.(ArtStyle := value))
    case "PlayableCiv" => Success(p.(PlayableCiv := value == "1"))
    case "MinorNationStatus" => Success(p.(MinorNationStatus := value == "1"))
    case "StartingGold" => var n :- Number(value); Success(p.(StartingGold := n))
    case "RandomStartLocation" => Success(p.(RandomStartLocation := value == "1"))
    case "StartingX" => var n :- Number(value); Success(p.(StartingX := n))
    case "StartingY" => var n :- Number(value); Success(p.(StartingY := n))
    case "StateReligion" => Success(p.(StateReligion := value))
    case "StartingEra" => Success(p.(StartingEra := value))
    case "CityList" => Success(p.(CityList := p.CityList + [value]))
    case "CivicOption" => Success(p.(CivicOption := p.CivicOption + [value]))
    case "Civic" => Success(p.(Civic := p.Civic + [value]))
    case "AttitudePlayer" => var n :- Number(value); Success(p.(AttitudePlayer := p.AttitudePlayer + [Unsigned(n)]))
    case "AttitudeExtra" => var n :- Number(value); Success(p.(AttitudeExtra := p.AttitudeExtra + [n]))
    case _ => Failure(UnknownKey(key))
  }

  // ---------------------------------------------------------------- Plot

  const PlotKeys: set<string> := {
    "x", "y", "Landmark", "ScriptData", "isNOfRiver", "isWOfRiver", "RiverNSDirection",
    "RiverWEDirection", "StartingPlot", "BonusType", "ImprovementType", "FeatureType",
    "FeatureVariety", "RouteType", "TerrainType", "PlotType", "TeamReveal"}
  const PlotNumberKeys: set<string> := {
    "x", "y", "RiverNSDirection", "RiverWEDirection", "PlotType", "TeamReveal"}

  function PlotField(p: Plot, key: string, value: string): (r: Result<Plot, UnpackError>)
    ensures key !in PlotKeys ==> r == Failure(UnknownKey(key))
    ensures key in PlotKeys ==> (r.Success? <==> key !in PlotNumberKeys || Atoi(value).Some?)
    ensures r.Success? ==> r.value.Units == p.Units && r.value.Cities == p.Cities
  {
    match key
    case "x" => var n :- Number(value); Success(p.(X := Unsigned(n)))
    case "y" => var n :- Number(value); Success(p.(Y := Unsigned(n)))
    case "Landmark" => Success(p.(Landmark := value))
    case "ScriptData" => Success(p.(ScriptData := value))
    case "isNOfRiver" => Success(p.(IsNOfRiver := value == "1"))
    case "isWOfRiver" => Success(p.(IsWOfRiver := value == "1"))
    case "RiverNSDirection" => var n :- Number(value); Success(p.(RiverNSDirection := n))
    case "RiverWEDirection" => var n :- Number(value); Success(p.(RiverWEDirection := n))
    case "StartingPlot" => Success(p.(StartingPlot := value == "1"))
    case "BonusType" => Success(p.(BonusType := value))
    case "ImprovementType" => Success(p.(ImprovementType := value))
    case "FeatureType" => Success(p.(FeatureType := p.FeatureType + [value]))
    case "FeatureVariety" => Success(p.(FeatureVariety := p.FeatureVariety + [value]))
    case "RouteType" => Success(p.(RouteType := value))
    case "TerrainType" => Success(p.(TerrainType := value))
    case "PlotType" => var n :- Number(value); Success(p.(PlotType := Unsigned(n)))
    case "TeamReveal" => var n :- Number(value); Success(p.(TeamReveal := p.TeamReveal + [Unsigned(n)]))
    case _ => Failure(UnknownKey(key))
  }

  // ------------------------------------------------------------ MapProps

  const MapKeys: set<string> := {
    "grid width", "grid height", "top latitude", "bottom latitude", "wrap X", "wrap Y",
    "world size", "climate", "sealevel", "num plots written", "num signs written",
    "Randomize Resources"}
  const MapNumberKeys: set<string> := {
    "grid width", "grid height", "top latitude", "bottom latitude", "wrap X", "wrap Y",
    "num plots written", "num signs written"}

  function MapField(m: MapProps, key: string, value: string): (r: Result<MapProps, UnpackError>)
    ensures key !in MapKeys ==> r == Failure(UnknownKey(key))
    ensures key in MapKeys ==> (r.Success? <==> key !in MapNumberKeys || Atoi(value).Some?)
  {
    match key
    case "grid width" => var n :- Number(value); Success(m.(GridWidth := Unsigned(n)))
    case "grid height" => var n :- Number(value); Success(m.(GridHeight := Unsigned(n)))
    case "top latitude" => var n :- Number(value); Success(m.(TopLatitude := n))
    case "bottom latitude" => var n :- Number(value); Success(m.(BottomLatitude := n))
    case "wrap X" => var n :- Number(value); Success(m.(WrapX := n))
    case "wrap Y" => var n :- Number(value); Success(m.(WrapY := n))
    case "world size" => Success(m.(WorldSize := value))
    case "climate" => Success(m.(Climate := value))
    case "sealevel" => Success(m.(SeaLevel := value))
    case "num plots written" => var n :- Number(value); Success(m.(NumPlotsWritten := Unsigned(n)))
    case "num signs written" => var n :- Number(value); Success(m.(NumSignsWritten := Unsigned(n)))
    case "Randomize Resources" => Success(m.(RandomizeResources := value == "1"))
    case _ => Failure(UnknownKey(key))
  }

  // ---------------------------------------------------------------- City

  const CityKeys: set<string> := {
    "CityOwner", "CityName", "CityPopulation", "ProductionUnit", "ProductionBuilding",
    "ProductionProject", "ProductionProcess", "BuildingType", "ReligionType",
    "HolyCityReligionType", "ScriptData"}
  const CityNumberKeys: set<string> := {"CityOwner", "CityPopulation"}

  /** The pattern City.Unpack compiles: `Player([0-9]+)Culture`, backticks included. */
  const WrittenOpen: string := "`Player"
  const WrittenClose: string := "Culture`"
  /** The pattern without the backticks, matching the keys City.AddAsSubsection writes. */
  const CultureOpen: string := "Player"
  const CultureClose: string := "Culture"

  /** The length of the run of decimal digits `s` starts with. */
  function DigitRun(s: string): (n: nat)
    ensures n <= |s| && AllDigits(s[..n]) && (n < |s| ==> !IsDigit(s[n]))
  {
    if s != [] && IsDigit(s[0]) then
      var n := 1 + DigitRun(s[1..]);
      assert s[..n] == [s[0]] + s[1..][..n - 1];
      n
    else 0
  }

  /** Does a match of `open`, one or more digits, then `close` start here? */
  predicate CultureAt(s: string, open: string, close: string) {
    && |s| >= |open|
    && s[..|open|] == open
    && var rest := s[|open|..];
       var d := DigitRun(rest);
       && d > 0
       && |rest| - d >= |close|
       && rest[d..d + |close|] == close
  }

  /**
   * A regular-expression search for open([0-9]+)close: the digits of the
   * leftmost match anywhere in the key, or None. Every character of `open`
   * occurs in a key that matches.
   */
  function CultureMatch(key: string, open: string, close: string): (r: Option<string>)
    ensures r.Some? ==> |r.value| > 0 && AllDigits(r.value)
    ensures r.Some? ==> forall i :: 0 <= i < |open| ==> open[i] in key
    ensures r.Some? ==> exists i :: 0 <= i < |key| && IsDigit(key[i])
    decreases |key|
  {
    if key == [] then None
    else if CultureAt(key, open, close) then
      var rest := key[|open|..];
      assert forall i :: 0 <= i < |open| ==> open[i] == key[i];
      assert IsDigit(key[|open|]) by { assert rest[..DigitRun(rest)][0] == key[|open|]; }
      Some(rest[..DigitRun(rest)])
    else
      var r := CultureMatch(key[1..], open, close);
      assert forall ch :: ch in key[1..] ==> ch in key;
      assert forall i :: 0 <= i < |key[1..]| ==> key[1..][i] == key[i + 1];
      r
  }

  /** City.Unpack's switch on the fixed keys. */
  function CityPlainField(c: City, key: string, value: string): (r: Result<City, UnpackError>)
    ensures key !in CityKeys ==> r == Failure(UnknownKey(key))
    ensures key in CityKeys ==> (r.Success? <==> key !in CityNumberKeys || Atoi(value).Some?)
    ensures r.Success? ==> r.value.PlayerCulture == c.PlayerCulture
  {
    match key
    case "CityOwner" => var n :- Number(value); Success(c.(CityOwner := Unsigned(n)))
    case "CityName" => Success(c.(CityName := value))
    case "CityPopulation" => var n :- Number(value); Success(c.(CityPopulation := Unsigned(n)))
    case "ProductionUnit" => Success(c.(ProductionUnit := value))
    case "ProductionBuilding" => Success(c.(ProductionBuilding := value))
    case "ProductionProject" => Success(c.(ProductionProject := value))
    case "ProductionProcess" => Success(c.(ProductionProcess := value))
    case "BuildingType" => Success(c.(BuildingType := value))
    case "ReligionType" => Success(c.(ReligionType := value))
    case "HolyCityReligionType" => Success(c.(HolyCityReligionType := value))
    case "ScriptData" => Success(c.(ScriptData := value))
    case _ => Failure(UnknownKey(key))
  }

  /**
   * One case of City.Unpack as the source has it. Only a key holding
   * backticks can match the compiled pattern; such a key has its digits and
   * value parsed and is then written into PlayerCulture, which no parsed
   * city ever initialises: that write is a Go panic.
   */
  function CityFieldAsWritten(c: City, key: string, value: string): (r: Result<City, UnpackError>)
    ensures '`' !in key && key !in CityKeys ==> r == Failure(UnknownKey(key))
    ensures CultureMatch(key, WrittenOpen, WrittenClose).Some? ==> r.Failure?
    ensures CultureMatch(key, WrittenOpen, WrittenClose).Some? &&
            Atoi(CultureMatch(key, WrittenOpen, WrittenClose).value).Some? && Atoi(value).Some? ==>
              r == Failure(NilMapWrite(key))
    ensures CultureMatch(key, WrittenOpen, WrittenClose).None? && key in CityKeys ==>
              (r.Success? <==> key !in CityNumberKeys || Atoi(value).Some?)
  {
    var m := CultureMatch(key, WrittenOpen, WrittenClose);
    assert m.Some? ==> WrittenOpen[0] in key;
    if m.Some? then
      var _ :- Number(m.value);
      var _ :- Number(value, "ParseInt");
      Failure(NilMapWrite(key))
    else CityPlainField(c, key, value)
  }

  /**
   * One case of City.Unpack as evidently intended: the culture pattern
   * without backticks, and the player's culture written into the city's
   * map. Every other key goes to the fixed-key switch.
   */
  function CityField(c: City, key: string, value: string): (r: Result<City, UnpackError>)
    ensures CultureMatch(key, CultureOpen, CultureClose).None? ==> r == CityPlainField(c, key, value)
    ensures CultureMatch(key, CultureOpen, CultureClose).Some? ==>
              (r.Success? <==> Atoi(CultureMatch(key, CultureOpen, CultureClose).value).Some? && Atoi(value).Some?)
    ensures r.Success? && CultureMatch(key, CultureOpen, CultureClose).Some? ==>
              var player := Atoi(CultureMatch(key, CultureOpen, CultureClose).value).value;
              r.value == c.(PlayerCulture := c.PlayerCulture[Unsigned(player) := Unsigned(Atoi(value).value)])
  {
    match CultureMatch(key, CultureOpen, CultureClose)
    case Some(digits) =>
      var player :- Number(digits);
      var n :- Number(value, "ParseInt");
      Success(c.(PlayerCulture := c.PlayerCulture[Unsigned(player) := Unsigned(n)]))
    case None => CityPlainField(c, key, value)
  }

  /** The key City.AddAsSubsection writes for a player's starting culture. */
  function CultureKey(player: int): string {
    CultureOpen + Itoa(player) + CultureClose
  }

  lemma {:induction false} DigitRunStops(digits: string, tail: string)
    requires AllDigits(digits)
    requires tail == [] || !IsDigit(tail[0])
    ensures DigitRun(digits + tail) == |digits|
    decreases |digits|
  {
    if digits != [] {
      assert (digits + tail)[1..] == digits[1..] + tail;
      DigitRunStops(digits[1..], tail);
    } else {
      assert digits + tail == tail;
    }
  }

  /** The pattern without backticks finds the player number in every culture key written. */
  lemma CultureKeyMatches(player: nat)
    ensures CultureMatch(CultureKey(player), CultureOpen, CultureClose) == Some(Itoa(player))
  {
    var key := CultureKey(player);
    var rest := key[|CultureOpen|..];
    assert key[..|CultureOpen|] == CultureOpen;
    assert rest == Itoa(player) + CultureClose;
    DigitRunStops(Itoa(player), CultureClose);
    assert rest[|Itoa(player)|..|Itoa(player)| + |CultureClose|] == CultureClose;
    assert rest[..|Itoa(player)|] == Itoa(player);
  }

  lemma CultureKeyHasNoBacktick(player: nat)
    ensures '`' !in CultureKey(player)
  {
    var key := CultureKey(player);
    var ds := Itoa(player);
    forall i | 0 <= i < |key| ensures key[i] != '`' {
      if |CultureOpen| <= i < |CultureOpen| + |ds| {
        assert key[i] == ds[i - |CultureOpen|];
      }
    }
  }

  /** A culture key holds a digit, which no fixed City key does. */
  lemma CultureKeyNotFixed(player: nat)
    ensures CultureKey(player) !in CityKeys
  {
    var key := CultureKey(player);
    assert IsDigit(key[|CultureOpen|]) by { assert key[|CultureOpen|] == Itoa(player)[0]; }
    if key in CityKeys {
      FixedCityKeysHaveNoDigit(key);
    }
  }

  /**
   * The source's culture pattern never matches a key City.AddAsSubsection
   * writes, so every written culture entry is refused as an unknown key.
   */
  lemma CultureKeyRefusedAsWritten(c: City, player: nat, amount: string)
    ensures CityFieldAsWritten(c, CultureKey(player), amount) == Failure(UnknownKey(CultureKey(player)))
  {
    CultureKeyHasNoBacktick(player);
    CultureKeyNotFixed(player);
  }

  /** With the corrected pattern a culture entry written for a player reads back into the map. */
  lemma CultureKeyRead(c: City, player: nat, amount: nat)
    requires player <= MaxInt64 && InUint64(amount)
    ensures CityField(c, CultureKey(player), Itoa(Signed(amount))) ==
            Success(c.(PlayerCulture := c.PlayerCulture[player := amount]))
  {
    CultureKeyMatches(player);
    AtoiItoa(player);
    AtoiItoa(Signed(amount));
  }

  lemma FixedCityKeysHaveNoDigit(key: string)
    requires key in CityKeys
    ensures forall i :: 0 <= i < |key| ==> !IsDigit(key[i])
  {
  }

  /** No fixed City key matches the corrected culture pattern. */
  lemma FixedCityKeys(key: string)
    requires key in CityKeys
    ensures CultureMatch(key, CultureOpen, CultureClose) == None
  {
    FixedCityKeysHaveNoDigit(key);
  }

  /**
   * A pair the source's City.Unpack accepts is a fixed key, which the
   * corrected reader treats the same way; it leaves the culture alone.
   */
  lemma WrittenCityFieldAccepted(c: City, key: string, value: string)
    requires CityFieldAsWritten(c, key, value).Success?
    ensures CityField(c, key, value) == CityFieldAsWritten(c, key, value)
    ensures CityFieldAsWritten(c, key, value).value.PlayerCulture == c.PlayerCulture
  {
    assert key in CityKeys;
    FixedCityKeys(key);
  }

  /**
   * A pair the corrected reader accepts without leaving any culture behind
   * is a fixed key, which the source's City.Unpack reads the same way.
   */
  lemma CorrectedCityFieldFree(c: City, key: string, value: string)
    requires CityField(c, key, value).Success? && CityField(c, key, value).value.PlayerCulture == map[]
    ensures CityFieldAsWritten(c, key, value) == CityField(c, key, value)
  {
    CityFieldStoresCulture(c, key, value);
    assert CityField(c, key, value) == CityPlainField(c, key, value);
    FixedCityKeysHaveNoBacktick(key);
    WrittenMatchHasBacktick(key);
  }

  /** The source's pattern only matches keys holding a backtick. */
  lemma WrittenMatchHasBacktick(key: string)
    ensures CultureMatch(key, WrittenOpen, WrittenClose).Some? ==> '`' in key
  {
    if CultureMatch(key, WrittenOpen, WrittenClose).Some? {
      assert WrittenOpen[0] in key;
    }
  }

  /** A key matching the corrected pattern leaves that player's culture in the city. */
  lemma CityFieldStoresCulture(c: City, key: string, value: string)
    ensures CityField(c, key, value).Success? && CultureMatch(key, CultureOpen, CultureClose).Some? ==>
              CityField(c, key, value).value.PlayerCulture != map[]
  {
    if CityField(c, key, value).Success? && CultureMatch(key, CultureOpen, CultureClose).Some? {
      var player := Unsigned(Atoi(CultureMatch(key, CultureOpen, CultureClose).value).value);
      assert player in CityField(c, key, value).value.PlayerCulture;
    }
  }

  lemma FixedCityKeysHaveNoBacktick(key: string)
    requires key in CityKeys
    ensures '`' !in key
  {
  }

  /** The corrected reader never drops a player from the culture. */
  lemma CityFieldGrows(c: City, key: string, value: string)
    requires CityField(c, key, value).Success?
    ensures c.PlayerCulture.Keys <= CityField(c, key, value).value.PlayerCulture.Keys
  {
  }

  // ---------------------------------------------------------------- Unit

  const UnitKeys: set<string> := {
    "UnitType", "UnitOwner", "Level", "Experience", "PromotionType", "UnitAIType",
    "Damage", "FacingDirection"}
  const UnitNumberKeys: set<string> := {"UnitOwner", "Level", "Experience", "Damage", "FacingDirection"}

  function UnitField(u: Unit, key: string, value: string): (r: Result<Unit, UnpackError>)
    ensures key !in UnitKeys ==> r == Failure(UnknownKey(key))
    ensures key in UnitKeys ==> (r.Success? <==> key !in UnitNumberKeys || Atoi(value).Some?)
  {
    match key
    case "UnitType" => Success(u.(UnitType := value))
    case "UnitOwner" => var n :- Number(value); Success(u.(UnitOwner := n))
    case "Level" => var n :- Number(value); Success(u.(Level := n))
    case "Experience" => var n :- Number(value); Success(u.(Experience := n))
    case "PromotionType" => Success(u.(PromotionType := value))
    case "UnitAIType" => Success(u.(UnitAIType := value))
    case "Damage" => var n :- Number(value); Success(u.(Damage := Unsigned(n)))
    case "FacingDirection" => var n :- Number(value); Success(u.(FacingDirection := n))
    case _ => Failure(UnknownKey(key))
  }

  // --------------------------------------------------------------- WbMap

  /** WbMap.Unpack (not used by the parser): only `Version` is known. */
  function WbMapField(m: WbMap, key: string, value: string): (r: Result<WbMap, UnpackError>)
    ensures key != "Version" ==> r == Failure(UnknownKey(key))
    ensures key == "Version" ==> (r.Success? <==> Atoi(value).Some?)
    ensures r.Success? ==> r.value.Version == Atoi(value).value && r.value.(Version := m.Version) == m
  {
    if key == "Version" then var n :- Number(value); Success(m.(Version := n)) else Failure(UnknownKey(key))
  }

  // -------------------------------------------------------------- Unpack

  /**
   * Unpack: apply one line's key/value pairs to an entity, stopping at the
   * first pair that fails. The pairs come from one line, so their keys are
   * distinct.
   */
  function Unpack<E>(e: E, kvs: seq<(string, string)>, field: (E, string, string) -> Result<E, UnpackError>)
    : (r: Result<E, UnpackError>)
    ensures kvs == [] ==> r == Success(e)
    decreases |kvs|
  {
    if kvs == [] then Success(e)
    else
      var e' :- field(e, kvs[0].0, kvs[0].1);
      Unpack(e', kvs[1..], field)
  }

  /** Unpacking two runs of pairs one after the other is unpacking their concatenation. */
  lemma {:induction false} UnpackAppend<E>(e: E, a: seq<(string, string)>, b: seq<(string, string)>,
                                           field: (E, string, string) -> Result<E, UnpackError>)
    ensures Unpack(e, a + b, field) ==
            match Unpack(e, a, field)
            case Success(e') => Unpack(e', b, field)
            case Failure(err) => Failure(err)
    decreases |a|
  {
    if a != [] {
      assert (a + b)[0] == a[0] && (a + b)[1..] == a[1..] + b;
      match field(e, a[0].0, a[0].1)
      case Success(e') =>
        assert Unpack(e, a, field) == Unpack(e', a[1..], field);
        assert Unpack(e, a + b, field) == Unpack(e', a[1..] + b, field);
        UnpackAppend(e', a[1..], b, field);
      case Failure(err) =>
        assert Unpack(e, a, field) == Failure(err);
        assert Unpack(e, a + b, field) == Failure(err);
    } else {
      assert a + b == b;
    }
  }

  /** A pair that the entity rejects whatever its state makes the whole line fail. */
  lemma {:induction false} UnpackRejects<E>(e: E, kvs: seq<(string, string)>, i: nat,
                                            field: (E, string, string) -> Result<E, UnpackError>)
    requires i < |kvs|
    requires forall e0: E :: field(e0, kvs[i].0, kvs[i].1).Failure?
    ensures Unpack(e, kvs, field).Failure?
    decreases |kvs|
  {
    if i > 0 {
      match field(e, kvs[0].0, kvs[0].1)
      case Success(e') => UnpackRejects(e', kvs[1..], i - 1, field);
      case Failure(_) =>
    }
  }

  /** The loop of each `Unpack` method: one field at a time, returning the first error. */
  method UnpackLine<E>(e: E, kvs: seq<(string, string)>, field: (E, string, string) -> Result<E, UnpackError>)
    returns (r: Result<E, UnpackError>)
    ensures r == Unpack(e, kvs, field)
  {
    var cur := e;
    var i := 0;
    while i < |kvs|
      invariant 0 <= i <= |kvs|
      invariant Unpack(e, kvs, field) == Unpack(cur, kvs[i..], field)
    {
      var next := field(cur, kvs[i].0, kvs[i].1);
      if next.Failure? {
        return Failure(next.error);
      }
      cur := next.value;
      i := i + 1;
    }
    return Success(cur);
  }
}
