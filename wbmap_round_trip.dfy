/**
 * The corrected parser reads back what WbMap.ToWbFormat writes: its step
 * obeys the laws of every section, so the scanner takes the written lines
 * of a save to the save. WbAsWritten carries this over to ParseWbMap as
 * the source has it.
 */
module WbRoundTrip {
  import opened Wrappers
  import opened Strconv
  import opened Text
  import opened WbGenerator
  import opened WbStructs
  import opened WbParser
  import opened WbFormat
  import opened WbRows
  import opened WbScan
  import opened WbReadSave
  import opened WbPlain

  /** The corrected step hands a line to the function of the section that is open. */
  lemma StepSwitch(p: Progress, content: string, line: nat)
    ensures p.open.InGame? ==> CorrectedStep(p, content, line) == StepGame(p, p.open.game, content, line)
    ensures p.open.InTeam? ==> CorrectedStep(p, content, line) == StepTeam(p, p.open.team, content, line)
    ensures p.open.InPlayer? ==> CorrectedStep(p, content, line) == StepPlayer(p, p.open.player, content, line)
    ensures p.open.InMap? ==> CorrectedStep(p, content, line) == StepMap(p, p.open.props, content, line)
    ensures p.open.InPlot? ==> CorrectedStep(p, content, line) == StepPlot(p, p.open.plot, content, line)
    ensures p.open.InCity? ==> CorrectedStep(p, content, line) == StepCity(Corrected, p, p.open.owner, p.open.city, content, line)
    ensures p.open.InUnit? ==> CorrectedStep(p, content, line) == StepUnit(p, p.open.holder, p.open.unit, content, line)
  {
  }

  // --------------------------------------------------------- the version line

  lemma StepVersionLaw()
    ensures VersionLaw(CorrectedStep)
  {
    forall saved: WbMap, v: int, line: nat | InInt64(v)
      ensures CorrectedStep(Progress(saved, Global), VersionText(v), line) == Success(Progress(saved.(Version := v), Global))
    {
      var text := VersionText(v);
      assert text[..|VersionPrefix|] == VersionPrefix;
      assert text[|VersionPrefix|..] == Itoa(v);
      AtoiItoa(v);
    }
  }

  // ------------------------------------------------------------------ Game

  lemma StepGameOpens()
    ensures OpensAt(CorrectedStep, BeginGame, GameOpen, EmptyGame)
  {
    assert BeginGame[0] != VersionPrefix[0];
  }

  /** In a Game section, a line other than its closing tag is a body line of the game. */
  lemma StepGameBody(saved: WbMap, x: Game, content: string, line: nat)
    requires content != EndGame
    ensures CorrectedStep(Progress(saved, InGame(x)), content, line) == Reading(saved, GameOpen, Body(x, content, line, GameField))
  {
    StepSwitch(Progress(saved, InGame(x)), content, line);
  }

  lemma StepGameFills()
    ensures FillsAt(CorrectedStep, GameOpen, GameField)
  {
    forall saved: WbMap, x: Game, row: Row, line: nat
      ensures ReadsRow(CorrectedStep, saved, GameOpen, GameField, x, row, line)
    {
      if CleanRow(row) {
        RowRead(row, line);
        assert EndGame in Tags;
        StepGameBody(saved, x, RowText(row), line);
      }
    }
  }

  lemma StepGameCloses()
    ensures ClosesAt(CorrectedStep, EndGame, GameOpen, StoreGame)
  {
  }

  lemma StepGameLaws()
    ensures GameLaws(CorrectedStep)
  {
    StepGameOpens();
    StepGameFills();
    StepGameCloses();
  }

  // ------------------------------------------------------------------ Team

  lemma StepTeamOpens()
    ensures OpensAt(CorrectedStep, BeginTeam, TeamOpen, EmptyTeam)
  {
    assert BeginTeam[0] != VersionPrefix[0];
  }

  /** In a Team section, a line other than its closing tag is a body line of the team. */
  lemma StepTeamBody(saved: WbMap, x: Team, content: string, line: nat)
    requires content != EndTeam
    ensures CorrectedStep(Progress(saved, InTeam(x)), content, line) == Reading(saved, TeamOpen, Body(x, content, line, TeamField))
  {
    StepSwitch(Progress(saved, InTeam(x)), content, line);
  }

  lemma StepTeamFills()
    ensures FillsAt(CorrectedStep, TeamOpen, TeamField)
  {
    forall saved: WbMap, x: Team, row: Row, line: nat
      ensures ReadsRow(CorrectedStep, saved, TeamOpen, TeamField, x, row, line)
    {
      if CleanRow(row) {
        RowRead(row, line);
        assert EndTeam in Tags;
        StepTeamBody(saved, x, RowText(row), line);
      }
    }
  }

  lemma StepTeamCloses()
    ensures ClosesAt(CorrectedStep, EndTeam, TeamOpen, StoreTeam)
  {
  }

  lemma StepTeamLaws()
    ensures TeamLaws(CorrectedStep)
  {
    StepTeamOpens();
    StepTeamFills();
    StepTeamCloses();
  }

  // ------------------------------------------------------------------ Player

  lemma StepPlayerOpens()
    ensures OpensAt(CorrectedStep, BeginPlayer, PlayerOpen, EmptyPlayer)
  {
    assert BeginPlayer[0] != VersionPrefix[0];
  }

  /** In a Player section, a line other than its closing tag is a body line of the player. */
  lemma StepPlayerBody(saved: WbMap, x: Player, content: string, line: nat)
    requires content != EndPlayer
    ensures CorrectedStep(Progress(saved, InPlayer(x)), content, line) == Reading(saved, PlayerOpen, Body(x, content, line, PlayerField))
  {
    StepSwitch(Progress(saved, InPlayer(x)), content, line);
  }

  lemma StepPlayerFills()
    ensures FillsAt(CorrectedStep, PlayerOpen, PlayerField)
  {
    forall saved: WbMap, x: Player, row: Row, line: nat
      ensures ReadsRow(CorrectedStep, saved, PlayerOpen, PlayerField, x, row, line)
    {
      if CleanRow(row) {
        RowRead(row, line);
        assert EndPlayer in Tags;
        StepPlayerBody(saved, x, RowText(row), line);
      }
    }
  }

  lemma StepPlayerCloses()
    ensures ClosesAt(CorrectedStep, EndPlayer, PlayerOpen, StorePlayer)
  {
  }

  lemma StepPlayerLaws()
    ensures PlayerLaws(CorrectedStep)
  {
    StepPlayerOpens();
    StepPlayerFills();
    StepPlayerCloses();
  }

  // ------------------------------------------------------------------ Map

  lemma StepMapOpens()
    ensures OpensAt(CorrectedStep, BeginMap, MapOpen, EmptyMapProps)
  {
    assert BeginMap[0] != VersionPrefix[0];
  }

  /** In a Map section, a line other than its closing tag is a body line of the mapprops. */
  lemma StepMapBody(saved: WbMap, x: MapProps, content: string, line: nat)
    requires content != EndMap
    ensures CorrectedStep(Progress(saved, InMap(x)), content, line) == Reading(saved, MapOpen, Body(x, content, line, MapField))
  {
    StepSwitch(Progress(saved, InMap(x)), content, line);
  }

  lemma StepMapFills()
    ensures FillsAt(CorrectedStep, MapOpen, MapField)
  {
    forall saved: WbMap, x: MapProps, row: Row, line: nat
      ensures ReadsRow(CorrectedStep, saved, MapOpen, MapField, x, row, line)
    {
      if CleanRow(row) {
        RowRead(row, line);
        assert EndMap in Tags;
        StepMapBody(saved, x, RowText(row), line);
      }
    }
  }

  lemma StepMapCloses()
    ensures ClosesAt(CorrectedStep, EndMap, MapOpen, StoreMap)
  {
  }

  lemma StepMapLaws()
    ensures MapLaws(CorrectedStep)
  {
    StepMapOpens();
    StepMapFills();
    StepMapCloses();
  }

  // ------------------------------------------------------------------ Unit

  lemma StepUnitOpens()
    ensures forall saved: WbMap, plot: Plot, line: nat ::
              CorrectedStep(Progress(saved, InPlot(plot)), BeginUnit, line) == Success(Progress(saved, InUnit(plot, EmptyUnit)))
  {
  }

  /** In a Unit subsection, a line other than its closing tag is a body line of the unit. */
  lemma StepUnitBody(saved: WbMap, plot: Plot, x: Unit, content: string, line: nat)
    requires content != EndUnit
    ensures CorrectedStep(Progress(saved, InUnit(plot, x)), content, line) == Reading(saved, UnitIn(plot), Body(x, content, line, UnitField))
  {
    StepSwitch(Progress(saved, InUnit(plot, x)), content, line);
  }

  lemma StepUnitFills()
    ensures forall saved: WbMap, plot: Plot :: ReadsRows(CorrectedStep, saved, UnitIn(plot), UnitField)
  {
    forall saved: WbMap, plot: Plot, x: Unit, row: Row, line: nat
      ensures ReadsRow(CorrectedStep, saved, UnitIn(plot), UnitField, x, row, line)
    {
      if CleanRow(row) {
        RowRead(row, line);
        assert EndUnit in Tags;
        assert UnitIn(plot)(x) == InUnit(plot, x);
        StepUnitBody(saved, plot, x, RowText(row), line);
      }
    }
  }

  lemma StepUnitCloses()
    ensures forall saved: WbMap, plot: Plot, x: Unit, line: nat ::
              CorrectedStep(Progress(saved, InUnit(plot, x)), EndUnit, line) ==
              Success(Progress(saved, InPlot(plot.(Units := plot.Units + [x]))))
  {
  }

  lemma StepUnitLaws()
    ensures UnitLaws(CorrectedStep)
  {
    StepUnitOpens();
    StepUnitFills();
    StepUnitCloses();
  }

  // ------------------------------------------------------------------ City

  lemma StepCityOpens()
    ensures forall saved: WbMap, plot: Plot, line: nat ::
              CorrectedStep(Progress(saved, InPlot(plot)), BeginCity, line) == Success(Progress(saved, InCity(plot, EmptyCity)))
  {
  }

  /** In a City subsection, a line other than its closing tag is a body line of the city. */
  lemma StepCityBody(saved: WbMap, plot: Plot, x: City, content: string, line: nat)
    requires content != EndCity
    ensures CorrectedStep(Progress(saved, InCity(plot, x)), content, line) == Reading(saved, CityIn(plot), Body(x, content, line, CityField))
  {
    StepSwitch(Progress(saved, InCity(plot, x)), content, line);
  }

  lemma StepCityFills()
    ensures forall saved: WbMap, plot: Plot :: ReadsRows(CorrectedStep, saved, CityIn(plot), CityField)
  {
    forall saved: WbMap, plot: Plot, x: City, row: Row, line: nat
      ensures ReadsRow(CorrectedStep, saved, CityIn(plot), CityField, x, row, line)
    {
      if CleanRow(row) {
        RowRead(row, line);
        assert EndCity in Tags;
        assert CityIn(plot)(x) == InCity(plot, x);
        StepCityBody(saved, plot, x, RowText(row), line);
      }
    }
  }

  lemma StepCityCloses()
    ensures forall saved: WbMap, plot: Plot, x: City, line: nat ::
              CorrectedStep(Progress(saved, InCity(plot, x)), EndCity, line) ==
              Success(Progress(saved, InPlot(plot.(Cities := plot.Cities + [x]))))
  {
  }

  lemma StepCityLaws()
    ensures CityLaws(CorrectedStep)
  {
    StepCityOpens();
    StepCityFills();
    StepCityCloses();
  }

  // ------------------------------------------------------------------ Plot

  lemma StepPlotOpens()
    ensures OpensAt(CorrectedStep, BeginPlot, PlotOpen, EmptyPlot)
  {
    assert BeginPlot[0] != VersionPrefix[0];
  }

  /** In a Plot section, a line that is no tag a plot knows is a body line of the plot. */
  lemma StepPlotBody(saved: WbMap, x: Plot, content: string, line: nat)
    requires content != EndPlot && content != BeginCity && content != BeginUnit
    ensures CorrectedStep(Progress(saved, InPlot(x)), content, line) == Reading(saved, PlotOpen, Body(x, content, line, PlotField))
  {
    StepSwitch(Progress(saved, InPlot(x)), content, line);
  }

  lemma StepPlotFills()
    ensures FillsAt(CorrectedStep, PlotOpen, PlotField)
  {
    forall saved: WbMap, x: Plot, row: Row, line: nat
      ensures ReadsRow(CorrectedStep, saved, PlotOpen, PlotField, x, row, line)
    {
      if CleanRow(row) {
        RowRead(row, line);
        assert EndPlot in Tags && BeginCity in Tags && BeginUnit in Tags;
        StepPlotBody(saved, x, RowText(row), line);
      }
    }
  }

  lemma StepPlotCloses()
    ensures ClosesAt(CorrectedStep, EndPlot, PlotOpen, StorePlot)
  {
  }

  lemma StepPlotLaws()
    ensures PlotLaws(CorrectedStep)
  {
    StepPlotOpens();
    StepPlotFills();
    StepPlotCloses();
    StepUnitLaws();
    StepCityLaws();
  }

  // ------------------------------------------------------------ the save

  /** The corrected step obeys the laws of every section of a save. */
  lemma StepSaveLaws()
    ensures SaveLaws(CorrectedStep)
  {
    StepVersionLaw();
    StepGameLaws();
    StepTeamLaws();
    StepPlayerLaws();
    StepMapLaws();
    StepPlotLaws();
  }

  /** The scanner, with the corrected step, takes the trimmed lines of a written save to the save. */
  lemma SaveScan(m: WbMap)
    requires SaveOk(m)
    ensures Writable(m) && Scan(CorrectedStep, Start, Contents(WbMapLines(m)), 0) == Success(Progress(m, Global))
  {
    StepSaveLaws();
    SaveSectionsScan(CorrectedStep, m);
    SaveContents(m);
    SameScan(CorrectedStep, Start, Contents(WbMapLines(m)), SaveSections(m), 0, Success(Progress(m, Global)));
  }

  /** The corrected parser's result on lines the scanner takes, from the start, to a save with a game. */
  lemma ParsedAs(lines: seq<string>, m: WbMap)
    requires m.Game.Some? && Scan(CorrectedStep, Start, Contents(lines), 0) == Success(Progress(m, Global))
    ensures ParseLines(Corrected, lines) == Success(m)
  {
    RunIsScan(Start, lines, 0);
  }

  /** The corrected parser, reading back the lines WbMap.ToWbFormat writes, gives the save that was written. */
  lemma CorrectedRoundTripLines(m: WbMap)
    requires SaveOk(m)
    ensures ParseLines(Corrected, WbMapLines(m)) == Success(m)
  {
    SaveScan(m);
    ParsedAs(WbMapLines(m), m);
  }

  /**
   * The round trip of the corrected parser: given the text WbMap.ToWbFormat
   * writes for a readable save, culture included, it gives that save back.
   */
  lemma CorrectedRoundTrip(m: WbMap)
    requires SaveOk(m)
    ensures Parse(Corrected, Render(WbMapLines(m))) == Success(m)
  {
    SaveLinesPlain(m);
    LinesRender(WbMapLines(m));
    CorrectedRoundTripLines(m);
  }
}
