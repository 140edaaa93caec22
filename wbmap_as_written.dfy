/**
 * ParseWbMap as the source has it, next to the corrected parser. The two
 * differ only on City lines, and there only on the culture keys: the
 * source's pattern never matches the `PlayerNCulture` keys the writer
 * uses. So ParseWbMap accepts a subset of what the corrected parser
 * accepts, with the same result, and never reads a culture; it reads back
 * every readable save without culture, and refuses every readable save
 * with some.
 */
module WbAsWritten {
  import opened Wrappers
  import opened Text
  import opened WbStructs
  import opened WbParser
  import opened WbFormat
  import opened WbRows
  import opened WbReadSave
  import opened WbRoundTrip
  import opened WbPlain

  // ------------------------------------------------------ culture-free values

  predicate CitiesFree(cities: seq<City>) {
    forall i :: 0 <= i < |cities| ==> cities[i].PlayerCulture == map[]
  }

  predicate PlotsFree(plots: seq<Plot>) {
    forall i :: 0 <= i < |plots| ==> CitiesFree(plots[i].Cities)
  }

  /** No city of the save holds a culture entry. */
  predicate CultureFree(m: WbMap) {
    PlotsFree(m.Plots)
  }

  /** No city read so far, stored or still open, holds a culture entry. */
  predicate Free(p: Progress) {
    && PlotsFree(p.saved.Plots)
    && match p.open
       case InPlot(plot) => CitiesFree(plot.Cities)
       case InCity(plot, city) => CitiesFree(plot.Cities) && city.PlayerCulture == map[]
       case InUnit(plot, _) => CitiesFree(plot.Cities)
       case _ => true
  }

  // ---------------------------------------------------------- City.Unpack

  /** City.Unpack as written accepts a line only when the corrected one reads it the same way, culture untouched. */
  lemma {:induction false} UnpackWrittenAccepted(c: City, kvs: seq<(string, string)>)
    requires Unpack(c, kvs, CityFieldAsWritten).Success?
    ensures Unpack(c, kvs, CityField) == Unpack(c, kvs, CityFieldAsWritten)
    ensures Unpack(c, kvs, CityFieldAsWritten).value.PlayerCulture == c.PlayerCulture
    decreases |kvs|
  {
    if kvs != [] {
      WrittenCityFieldAccepted(c, kvs[0].0, kvs[0].1);
      UnpackWrittenAccepted(CityFieldAsWritten(c, kvs[0].0, kvs[0].1).value, kvs[1..]);
    }
  }

  /** A line the corrected City.Unpack reads into a city without culture is read the same way as written. */
  lemma {:induction false} UnpackCorrectedFree(c: City, kvs: seq<(string, string)>)
    requires Unpack(c, kvs, CityField).Success? && Unpack(c, kvs, CityField).value.PlayerCulture == map[]
    ensures c.PlayerCulture == map[]
    ensures Unpack(c, kvs, CityFieldAsWritten) == Unpack(c, kvs, CityField)
    decreases |kvs|
  {
    if kvs != [] {
      var key, value := kvs[0].0, kvs[0].1;
      var next := CityField(c, key, value).value;
      UnpackCorrectedFree(next, kvs[1..]);
      CityFieldGrows(c, key, value);
      CorrectedCityFieldFree(c, key, value);
      assert c.PlayerCulture.Keys == {};
    }
  }

  /** Plot.Unpack leaves the plot's cities alone. */
  lemma {:induction false} UnpackPlotCities(plot: Plot, kvs: seq<(string, string)>)
    requires Unpack(plot, kvs, PlotField).Success?
    ensures Unpack(plot, kvs, PlotField).value.Cities == plot.Cities
    decreases |kvs|
  {
    if kvs != [] {
      UnpackPlotCities(PlotField(plot, kvs[0].0, kvs[0].1).value, kvs[1..]);
    }
  }

  // ------------------------------------------------------------ one step

  /** In a City subsection the two steps differ only in the reader of the body lines. */
  lemma StepCityWritten(p: Progress, plot: Plot, city: City, content: string, line: nat)
    requires p.open == InCity(plot, city) && StepCity(AsWritten, p, plot, city, content, line).Success?
    ensures StepCity(Corrected, p, plot, city, content, line) == StepCity(AsWritten, p, plot, city, content, line)
    ensures Free(p) ==> Free(StepCity(AsWritten, p, plot, city, content, line).value)
  {
    if content == EndCity {
      CitiesAppend(plot.Cities, city);
    } else {
      UnpackWrittenAccepted(city, ParseLine(content, line).value);
    }
  }

  lemma StepCityCorrected(p: Progress, plot: Plot, city: City, content: string, line: nat)
    requires p.open == InCity(plot, city) && StepCity(Corrected, p, plot, city, content, line).Success?
    requires Free(StepCity(Corrected, p, plot, city, content, line).value)
    ensures Free(p) && StepCity(AsWritten, p, plot, city, content, line) == StepCity(Corrected, p, plot, city, content, line)
  {
    if content == EndCity {
      CitiesAppend(plot.Cities, city);
    } else {
      UnpackCorrectedFree(city, ParseLine(content, line).value);
    }
  }

  /** In a Plot section no step adds or removes a culture entry. */
  lemma StepPlotFree(p: Progress, plot: Plot, content: string, line: nat)
    requires p.open == InPlot(plot) && StepPlot(p, plot, content, line).Success?
    ensures Free(p) <==> Free(StepPlot(p, plot, content, line).value)
  {
    if content == EndPlot {
      PlotsAppend(p.saved.Plots, plot);
    } else if content != BeginCity && content != BeginUnit {
      UnpackPlotCities(plot, ParseLine(content, line).value);
    }
  }

  /** Outside Plot and City sections the two steps agree, and no culture entry is added or removed. */
  lemma StepOtherFree(p: Progress, content: string, line: nat)
    requires !p.open.InCity? && !p.open.InPlot? && Step(AsWritten, p, content, line).Success?
    ensures Step(Corrected, p, content, line) == Step(AsWritten, p, content, line)
    ensures Free(p) <==> Free(Step(AsWritten, p, content, line).value)
  {
    StepsAgree(p, content, line);
    StepCases(AsWritten, p, content, line);
    match p.open
    case Global => StepGlobalFree(p, content, line);
    case InUnit(plot, unit) => StepUnitFree(p, plot, unit, content, line);
    case InMap(props) => StepMapFree(p, props, content, line);
    case InPlayer(player) => StepPlayerFree(p, player, content, line);
    case InTeam(team) => StepTeamFree(p, team, content, line);
    case InGame(game) => StepGameFree(p, game, content, line);
  }

  /** Outside a City subsection the culture pattern plays no part. */
  lemma StepsAgree(p: Progress, content: string, line: nat)
    requires !p.open.InCity?
    ensures Step(Corrected, p, content, line) == Step(AsWritten, p, content, line)
  {
    StepCases(Corrected, p, content, line);
    StepCases(AsWritten, p, content, line);
  }

  lemma StepGlobalFree(p: Progress, content: string, line: nat)
    requires p.open.Global? && StepGlobal(p, content, line).Success?
    ensures Free(p) <==> Free(StepGlobal(p, content, line).value)
  {
  }

  lemma StepUnitFree(p: Progress, plot: Plot, unit: Unit, content: string, line: nat)
    requires p.open == InUnit(plot, unit) && StepUnit(p, plot, unit, content, line).Success?
    ensures Free(p) <==> Free(StepUnit(p, plot, unit, content, line).value)
  {
  }

  lemma StepMapFree(p: Progress, props: MapProps, content: string, line: nat)
    requires p.open == InMap(props) && StepMap(p, props, content, line).Success?
    ensures Free(p) <==> Free(StepMap(p, props, content, line).value)
  {
  }

  lemma StepPlayerFree(p: Progress, player: Player, content: string, line: nat)
    requires p.open == InPlayer(player) && StepPlayer(p, player, content, line).Success?
    ensures Free(p) <==> Free(StepPlayer(p, player, content, line).value)
  {
  }

  lemma StepTeamFree(p: Progress, team: Team, content: string, line: nat)
    requires p.open == InTeam(team) && StepTeam(p, team, content, line).Success?
    ensures Free(p) <==> Free(StepTeam(p, team, content, line).value)
  {
  }

  lemma StepGameFree(p: Progress, game: Game, content: string, line: nat)
    requires p.open == InGame(game) && StepGame(p, game, content, line).Success?
    ensures Free(p) <==> Free(StepGame(p, game, content, line).value)
  {
  }

  lemma CitiesAppend(cities: seq<City>, city: City)
    ensures CitiesFree(cities + [city]) <==> CitiesFree(cities) && city.PlayerCulture == map[]
  {
    assert forall i :: 0 <= i < |cities| ==> (cities + [city])[i] == cities[i];
    assert (cities + [city])[|cities|] == city;
  }

  lemma PlotsAppend(plots: seq<Plot>, plot: Plot)
    ensures PlotsFree(plots + [plot]) <==> PlotsFree(plots) && CitiesFree(plot.Cities)
  {
    assert forall i :: 0 <= i < |plots| ==> (plots + [plot])[i] == plots[i];
    assert (plots + [plot])[|plots|] == plot;
  }

  /** A line ParseWbMap's step accepts, the corrected step takes to the same state, bringing in no culture. */
  lemma StepWrittenAccepted(p: Progress, content: string, line: nat)
    requires Step(AsWritten, p, content, line).Success?
    ensures Step(Corrected, p, content, line) == Step(AsWritten, p, content, line)
    ensures Free(p) ==> Free(Step(AsWritten, p, content, line).value)
  {
    StepCases(AsWritten, p, content, line);
    StepCases(Corrected, p, content, line);
    match p.open
    case InCity(plot, city) => StepCityWritten(p, plot, city, content, line);
    case InPlot(plot) => StepPlotFree(p, plot, content, line);
    case _ => StepOtherFree(p, content, line);
  }

  /**
   * A step of the corrected parser that ends in a state without culture
   * starts from one, and ParseWbMap's step takes it the same way.
   */
  lemma StepCorrectedFree(p: Progress, content: string, line: nat)
    requires Step(Corrected, p, content, line).Success? && Free(Step(Corrected, p, content, line).value)
    ensures Free(p) && Step(AsWritten, p, content, line) == Step(Corrected, p, content, line)
  {
    StepCases(AsWritten, p, content, line);
    StepCases(Corrected, p, content, line);
    match p.open
    case InCity(plot, city) => StepCityCorrected(p, plot, city, content, line);
    case InPlot(plot) => StepPlotFree(p, plot, content, line);
    case _ => StepOtherFree(p, content, line);
  }

  // ------------------------------------------------------------ the scan

  /** Whatever ParseWbMap's scanner loop reads, the corrected one reads the same way, and without culture. */
  lemma {:induction false} RunWrittenAccepted(p: Progress, lines: seq<string>, done: nat)
    requires Run(AsWritten, p, lines, done).Success?
    ensures Run(Corrected, p, lines, done) == Run(AsWritten, p, lines, done)
    ensures Free(p) ==> Free(Run(AsWritten, p, lines, done).value)
    decreases |lines|
  {
    if lines != [] {
      RunNext(AsWritten, p, lines, done);
      RunNext(Corrected, p, lines, done);
      var content := Trim(lines[0], Blank);
      if Skipped(content) {
        RunWrittenAccepted(p, lines[1..], done + 1);
      } else {
        StepWrittenAccepted(p, content, done + 1);
        RunWrittenAccepted(Step(AsWritten, p, content, done + 1).value, lines[1..], done + 1);
      }
    }
  }

  /** Lines the corrected scanner loop takes to a state without culture, ParseWbMap's loop takes there too. */
  lemma {:induction false} RunCorrectedFree(p: Progress, lines: seq<string>, done: nat)
    requires Run(Corrected, p, lines, done).Success? && Free(Run(Corrected, p, lines, done).value)
    ensures Free(p)
    ensures Run(AsWritten, p, lines, done) == Run(Corrected, p, lines, done)
    decreases |lines|
  {
    if lines != [] {
      RunNext(AsWritten, p, lines, done);
      RunNext(Corrected, p, lines, done);
      var content := Trim(lines[0], Blank);
      if Skipped(content) {
        RunCorrectedFree(p, lines[1..], done + 1);
      } else {
        RunCorrectedFree(Step(Corrected, p, content, done + 1).value, lines[1..], done + 1);
        StepCorrectedFree(p, content, done + 1);
      }
    }
  }

  // ----------------------------------------------------------- the parse

  /**
   * ParseWbMap succeeds only where the corrected parser does, with the same
   * save, and the save it gives has no culture.
   */
  lemma ParseWrittenAccepted(input: string)
    requires Parse(AsWritten, input).Success?
    ensures Parse(Corrected, input) == Parse(AsWritten, input)
    ensures CultureFree(Parse(AsWritten, input).value)
  {
    RunWrittenAccepted(Start, Lines(input), 0);
  }

  /** The corrected scanner loop takes the written lines of a readable save to that save, outside every section. */
  lemma CorrectedRun(m: WbMap)
    requires SaveOk(m)
    ensures Writable(m) && Run(Corrected, Start, WbMapLines(m), 0) == Success(Progress(m, Global))
  {
    SaveScan(m);
    RunIsScan(Start, WbMapLines(m), 0);
  }

  /** ParseWbMap reads back the lines WbMap.ToWbFormat writes for a readable save without culture. */
  lemma RoundTripLines(m: WbMap)
    requires SaveOk(m) && CultureFree(m)
    ensures ParseLines(AsWritten, WbMapLines(m)) == Success(m)
  {
    CorrectedRun(m);
    ParsedFree(WbMapLines(m), m);
  }

  /** Lines the corrected scanner loop takes to a save with a game and no culture, ParseWbMap reads as that save. */
  lemma ParsedFree(lines: seq<string>, m: WbMap)
    requires m.Game.Some? && CultureFree(m)
    requires Run(Corrected, Start, lines, 0) == Success(Progress(m, Global))
    ensures ParseLines(AsWritten, lines) == Success(m)
  {
    RunCorrectedFree(Start, lines, 0);
  }

  /**
   * The round trip of the program as written: ParseWbMap, given the text
   * WbMap.ToWbFormat writes for a readable save whose cities hold no
   * culture, gives that save back.
   */
  lemma RoundTrip(m: WbMap)
    requires SaveOk(m) && CultureFree(m)
    ensures Parse(AsWritten, Render(WbMapLines(m))) == Success(m)
  {
    SaveLinesPlain(m);
    LinesRender(WbMapLines(m));
    RoundTripLines(m);
  }

  /** ParseWbMap refuses the text WbMap.ToWbFormat writes for a readable save with any culture entry. */
  lemma CultureRefused(m: WbMap)
    requires SaveOk(m) && !CultureFree(m)
    ensures Parse(AsWritten, Render(WbMapLines(m))).Failure?
  {
    var input := Render(WbMapLines(m));
    if Parse(AsWritten, input).Success? {
      ParseWrittenAccepted(input);
      CorrectedRoundTrip(m);
    }
  }
}
