/**
 * The Game, Team and Map sections read back: the rows their ToWbFormat
 * writes, applied by Unpack to the zero value, give the entity back, one
 * field at a time in the order the rows are written. Each field has three
 * small lemmas: its key is clean (Key), the field function stores what
 * the row holds (Law), and the field's rows take a state to the state
 * with that field set (the lemma named after the field).
 */
module WbReadGame {
  import opened Wrappers
  import opened Strconv
  import opened WbStructs
  import opened WbFormat
  import opened WbRows
  import opened WbEntities

  // ------------------------------------------------------------ Game

  /** A game whose every field Game.ToWbFormat writes reads back. */
  predicate GameOk(g: Game) {
    && CleanValue(g.Era)
    && CleanValue(g.Speed)
    && CleanValue(g.Calendar)
    && Texts(g.Victory)
    && InUint64(g.GameTurn)
    && InUint64(g.MaxCityElimination)
    && InUint64(g.NumAdvancedStartPoints)
    && InUint64(g.TargetScore)
    && InInt64(g.StartYear)
    && CleanValue(g.Description)
    && CleanValue(g.ModPath)
    && Texts(g.Option)
    && Texts(g.MPOption)
    && Texts(g.ForceControl)
    && InUint64(g.MaxTurns)
  }

  lemma GameEraKey()
    ensures CleanKey("Era")
  {
    CleanKeyByChars("Era");
  }

  lemma GameEraLaw(x: Game, v: string)
    ensures GameField(x, "Era", v) == Success(x.(Era := v))
  {
  }

  lemma GameEra(g: Game, s: Game)
    requires CleanValue(g.Era) && s.Era == ""
    ensures FieldReads(s, Str("Era", g.Era), GameField, s.(Era := g.Era))
  {
    GameEraKey();
    GameEraLaw(s, g.Era);
    StrReads(s, "Era", g.Era, GameField, s.(Era := g.Era));
  }

  lemma GameSpeedKey()
    ensures CleanKey("Speed")
  {
    CleanKeyByChars("Speed");
  }

  lemma GameSpeedLaw(x: Game, v: string)
    ensures GameField(x, "Speed", v) == Success(x.(Speed := v))
  {
  }

  lemma GameSpeed(g: Game, s: Game)
    requires CleanValue(g.Speed) && s.Speed == ""
    ensures FieldReads(s, Str("Speed", g.Speed), GameField, s.(Speed := g.Speed))
  {
    GameSpeedKey();
    GameSpeedLaw(s, g.Speed);
    StrReads(s, "Speed", g.Speed, GameField, s.(Speed := g.Speed));
  }

  lemma GameCalendarKey()
    ensures CleanKey("Calendar")
  {
    CleanKeyByChars("Calendar");
  }

  lemma GameCalendarLaw(x: Game, v: string)
    ensures GameField(x, "Calendar", v) == Success(x.(Calendar := v))
  {
  }

  lemma GameCalendar(g: Game, s: Game)
    requires CleanValue(g.Calendar) && s.Calendar == ""
    ensures FieldReads(s, Str("Calendar", g.Calendar), GameField, s.(Calendar := g.Calendar))
  {
    GameCalendarKey();
    GameCalendarLaw(s, g.Calendar);
    StrReads(s, "Calendar", g.Calendar, GameField, s.(Calendar := g.Calendar));
  }

  lemma GameVictoryKey()
    ensures CleanKey("Victory")
  {
    CleanKeyByChars("Victory");
  }

  lemma GameVictoryLaw(x: Game, v: string)
    ensures GameField(x, "Victory", v) == Success(x.(Victory := x.Victory + [v]))
  {
  }

  function GameVictoryOf(x: Game): seq<string> { x.Victory }

  function GameWithVictory(x: Game, v: seq<string>): Game { x.(Victory := v) }

  lemma GameVictoryLens()
    ensures Lens(GameVictoryOf, GameWithVictory)
  {
  }

  lemma GameVictoryAppends(texts: seq<string>)
    ensures AppendsTexts(GameField, "Victory", texts, GameVictoryOf, GameWithVictory)
  {
    forall x: Game, i | 0 <= i < |texts|
      ensures GameField(x, "Victory", texts[i]) == Success(GameWithVictory(x, GameVictoryOf(x) + [texts[i]]))
    {
      GameVictoryLaw(x, texts[i]);
    }
  }

  lemma GameVictoryAppended(g: Game, s: Game)
    requires Texts(g.Victory)
    ensures FieldReads(s, Strs("Victory", g.Victory), GameField, GameWithVictory(s, GameVictoryOf(s) + g.Victory))
  {
    GameVictoryLens();
    GameVictoryAppends(g.Victory);
    GameVictoryKey();
    StrsReads(s, "Victory", g.Victory, GameField, GameVictoryOf, GameWithVictory);
  }

  lemma GameVictory(g: Game, s: Game)
    requires Texts(g.Victory) && s.Victory == []
    ensures FieldReads(s, Strs("Victory", g.Victory), GameField, s.(Victory := g.Victory))
  {
    GameVictoryAppended(g, s);
    assert GameWithVictory(s, GameVictoryOf(s) + g.Victory) == s.(Victory := g.Victory) by {
      assert [] + g.Victory == g.Victory;
    }
  }

  lemma GameGameTurnKey()
    ensures CleanKey("GameTurn")
  {
    CleanKeyByChars("GameTurn");
  }

  lemma GameGameTurnLaw(x: Game, n: int)
    requires InUint64(n)
    ensures GameField(x, "GameTurn", Itoa(Signed(n))) == Success(x.(GameTurn := n))
  {
    NumberItoa(Signed(n));
  }

  lemma GameGameTurn(g: Game, s: Game)
    requires InUint64(g.GameTurn)
    ensures FieldReads(s, Uint("GameTurn", g.GameTurn), GameField, s.(GameTurn := g.GameTurn))
  {
    GameGameTurnKey();
    GameGameTurnLaw(s, g.GameTurn);
    NumberReads(s, Uint("GameTurn", g.GameTurn), GameField, s.(GameTurn := g.GameTurn));
  }

  lemma GameMaxCityEliminationKey()
    ensures CleanKey("MaxCityElimination")
  {
    CleanKeyByChars("MaxCityElimination");
  }

  lemma GameMaxCityEliminationLaw(x: Game, n: int)
    requires InUint64(n)
    ensures GameField(x, "MaxCityElimination", Itoa(Signed(n))) == Success(x.(MaxCityElimination := n))
  {
    NumberItoa(Signed(n));
  }

  lemma GameMaxCityElimination(g: Game, s: Game)
    requires InUint64(g.MaxCityElimination)
    ensures FieldReads(s, Uint("MaxCityElimination", g.MaxCityElimination), GameField, s.(MaxCityElimination := g.MaxCityElimination))
  {
    GameMaxCityEliminationKey();
    GameMaxCityEliminationLaw(s, g.MaxCityElimination);
    NumberReads(s, Uint("MaxCityElimination", g.MaxCityElimination), GameField, s.(MaxCityElimination := g.MaxCityElimination));
  }

  lemma GameNumAdvancedStartPointsKey()
    ensures CleanKey("NumAdvancedStartPoints")
  {
    CleanKeyByChars("NumAdvancedStartPoints");
  }

  lemma GameNumAdvancedStartPointsLaw(x: Game, n: int)
    requires InUint64(n)
    ensures GameField(x, "NumAdvancedStartPoints", Itoa(Signed(n))) == Success(x.(NumAdvancedStartPoints := n))
  {
    NumberItoa(Signed(n));
  }

  lemma GameNumAdvancedStartPoints(g: Game, s: Game)
    requires InUint64(g.NumAdvancedStartPoints)
    ensures FieldReads(s, Uint("NumAdvancedStartPoints", g.NumAdvancedStartPoints), GameField, s.(NumAdvancedStartPoints := g.NumAdvancedStartPoints))
  {
    GameNumAdvancedStartPointsKey();
    GameNumAdvancedStartPointsLaw(s, g.NumAdvancedStartPoints);
    NumberReads(s, Uint("NumAdvancedStartPoints", g.NumAdvancedStartPoints), GameField, s.(NumAdvancedStartPoints := g.NumAdvancedStartPoints));
  }

  lemma GameTargetScoreKey()
    ensures CleanKey("TargetScore")
  {
    CleanKeyByChars("TargetScore");
  }

  lemma GameTargetScoreLaw(x: Game, n: int)
    requires InUint64(n)
    ensures GameField(x, "TargetScore", Itoa(Signed(n))) == Success(x.(TargetScore := n))
  {
    NumberItoa(Signed(n));
  }

  lemma GameTargetScore(g: Game, s: Game)
    requires InUint64(g.TargetScore)
    ensures FieldReads(s, Uint("TargetScore", g.TargetScore), GameField, s.(TargetScore := g.TargetScore))
  {
    GameTargetScoreKey();
    GameTargetScoreLaw(s, g.TargetScore);
    NumberReads(s, Uint("TargetScore", g.TargetScore), GameField, s.(TargetScore := g.TargetScore));
  }

  lemma GameStartYearKey()
    ensures CleanKey("StartYear")
  {
    CleanKeyByChars("StartYear");
  }

  lemma GameStartYearLaw(x: Game, n: int)
    requires InInt64(n)
    ensures GameField(x, "StartYear", Itoa(n)) == Success(x.(StartYear := n))
  {
    NumberItoa(n);
  }

  lemma GameStartYear(g: Game, s: Game)
    requires InInt64(g.StartYear)
    ensures FieldReads(s, Int("StartYear", g.StartYear), GameField, s.(StartYear := g.StartYear))
  {
    GameStartYearKey();
    GameStartYearLaw(s, g.StartYear);
    NumberReads(s, Int("StartYear", g.StartYear), GameField, s.(StartYear := g.StartYear));
  }

  lemma GameDescriptionKey()
    ensures CleanKey("Description")
  {
    CleanKeyByChars("Description");
  }

  lemma GameDescriptionLaw(x: Game, v: string)
    ensures GameField(x, "Description", v) == Success(x.(Description := v))
  {
  }

  lemma GameDescription(g: Game, s: Game)
    requires CleanValue(g.Description) && s.Description == ""
    ensures FieldReads(s, Str("Description", g.Description), GameField, s.(Description := g.Description))
  {
    GameDescriptionKey();
    GameDescriptionLaw(s, g.Description);
    StrReads(s, "Description", g.Description, GameField, s.(Description := g.Description));
  }

  lemma GameModPathKey()
    ensures CleanKey("ModPath")
  {
    CleanKeyByChars("ModPath");
  }

  lemma GameModPathLaw(x: Game, v: string)
    ensures GameField(x, "ModPath", v) == Success(x.(ModPath := v))
  {
  }

  lemma GameModPath(g: Game, s: Game)
    requires CleanValue(g.ModPath) && s.ModPath == ""
    ensures FieldReads(s, Str("ModPath", g.ModPath), GameField, s.(ModPath := g.ModPath))
  {
    GameModPathKey();
    GameModPathLaw(s, g.ModPath);
    StrReads(s, "ModPath", g.ModPath, GameField, s.(ModPath := g.ModPath));
  }

  lemma GameTutorialKey()
    ensures CleanKey("Tutorial")
  {
    CleanKeyByChars("Tutorial");
  }

  lemma GameTutorialLaw(x: Game, b: bool)
    ensures GameField(x, "Tutorial", if b then "1" else "0") == Success(x.(Tutorial := b))
  {
  }

  lemma GameTutorial(g: Game, s: Game)
    ensures FieldReads(s, Flag("Tutorial", g.Tutorial), GameField, s.(Tutorial := g.Tutorial))
  {
    GameTutorialKey();
    GameTutorialLaw(s, g.Tutorial);
    FlagReads(s, "Tutorial", g.Tutorial, GameField, s.(Tutorial := g.Tutorial));
  }

  lemma GameOptionKey()
    ensures CleanKey("Option")
  {
    CleanKeyByChars("Option");
  }

  lemma GameOptionLaw(x: Game, v: string)
    ensures GameField(x, "Option", v) == Success(x.(Option := x.Option + [v]))
  {
  }

  function GameOptionOf(x: Game): seq<string> { x.Option }

  function GameWithOption(x: Game, v: seq<string>): Game { x.(Option := v) }

  lemma GameOptionLens()
    ensures Lens(GameOptionOf, GameWithOption)
  {
  }

  lemma GameOptionAppends(texts: seq<string>)
    ensures AppendsTexts(GameField, "Option", texts, GameOptionOf, GameWithOption)
  {
    forall x: Game, i | 0 <= i < |texts|
      ensures GameField(x, "Option", texts[i]) == Success(GameWithOption(x, GameOptionOf(x) + [texts[i]]))
    {
      GameOptionLaw(x, texts[i]);
    }
  }

  lemma GameOptionAppended(g: Game, s: Game)
    requires Texts(g.Option)
    ensures FieldReads(s, Strs("Option", g.Option), GameField, GameWithOption(s, GameOptionOf(s) + g.Option))
  {
    GameOptionLens();
    GameOptionAppends(g.Option);
    GameOptionKey();
    StrsReads(s, "Option", g.Option, GameField, GameOptionOf, GameWithOption);
  }

  lemma GameOption(g: Game, s: Game)
    requires Texts(g.Option) && s.Option == []
    ensures FieldReads(s, Strs("Option", g.Option), GameField, s.(Option := g.Option))
  {
    GameOptionAppended(g, s);
    assert GameWithOption(s, GameOptionOf(s) + g.Option) == s.(Option := g.Option) by {
      assert [] + g.Option == g.Option;
    }
  }

  lemma GameMPOptionKey()
    ensures CleanKey("MPOption")
  {
    CleanKeyByChars("MPOption");
  }

  lemma GameMPOptionLaw(x: Game, v: string)
    ensures GameField(x, "MPOption", v) == Success(x.(MPOption := x.MPOption + [v]))
  {
  }

  function GameMPOptionOf(x: Game): seq<string> { x.MPOption }

  function GameWithMPOption(x: Game, v: seq<string>): Game { x.(MPOption := v) }

  lemma GameMPOptionLens()
    ensures Lens(GameMPOptionOf, GameWithMPOption)
  {
  }

  lemma GameMPOptionAppends(texts: seq<string>)
    ensures AppendsTexts(GameField, "MPOption", texts, GameMPOptionOf, GameWithMPOption)
  {
    forall x: Game, i | 0 <= i < |texts|
      ensures GameField(x, "MPOption", texts[i]) == Success(GameWithMPOption(x, GameMPOptionOf(x) + [texts[i]]))
    {
      GameMPOptionLaw(x, texts[i]);
    }
  }

  lemma GameMPOptionAppended(g: Game, s: Game)
    requires Texts(g.MPOption)
    ensures FieldReads(s, Strs("MPOption", g.MPOption), GameField, GameWithMPOption(s, GameMPOptionOf(s) + g.MPOption))
  {
    GameMPOptionLens();
    GameMPOptionAppends(g.MPOption);
    GameMPOptionKey();
    StrsReads(s, "MPOption", g.MPOption, GameField, GameMPOptionOf, GameWithMPOption);
  }

  lemma GameMPOption(g: Game, s: Game)
    requires Texts(g.MPOption) && s.MPOption == []
    ensures FieldReads(s, Strs("MPOption", g.MPOption), GameField, s.(MPOption := g.MPOption))
  {
    GameMPOptionAppended(g, s);
    assert GameWithMPOption(s, GameMPOptionOf(s) + g.MPOption) == s.(MPOption := g.MPOption) by {
      assert [] + g.MPOption == g.MPOption;
    }
  }

  lemma GameForceControlKey()
    ensures CleanKey("ForceControl")
  {
    CleanKeyByChars("ForceControl");
  }

  lemma GameForceControlLaw(x: Game, v: string)
    ensures GameField(x, "ForceControl", v) == Success(x.(ForceControl := x.ForceControl + [v]))
  {
  }

  function GameForceControlOf(x: Game): seq<string> { x.ForceControl }

  function GameWithForceControl(x: Game, v: seq<string>): Game { x.(ForceControl := v) }

  lemma GameForceControlLens()
    ensures Lens(GameForceControlOf, GameWithForceControl)
  {
  }

  lemma GameForceControlAppends(texts: seq<string>)
    ensures AppendsTexts(GameField, "ForceControl", texts, GameForceControlOf, GameWithForceControl)
  {
    forall x: Game, i | 0 <= i < |texts|
      ensures GameField(x, "ForceControl", texts[i]) == Success(GameWithForceControl(x, GameForceControlOf(x) + [texts[i]]))
    {
      GameForceControlLaw(x, texts[i]);
    }
  }

  lemma GameForceControlAppended(g: Game, s: Game)
    requires Texts(g.ForceControl)
    ensures FieldReads(s, Strs("ForceControl", g.ForceControl), GameField, GameWithForceControl(s, GameForceControlOf(s) + g.ForceControl))
  {
    GameForceControlLens();
    GameForceControlAppends(g.ForceControl);
    GameForceControlKey();
    StrsReads(s, "ForceControl", g.ForceControl, GameField, GameForceControlOf, GameWithForceControl);
  }

  lemma GameForceControl(g: Game, s: Game)
    requires Texts(g.ForceControl) && s.ForceControl == []
    ensures FieldReads(s, Strs("ForceControl", g.ForceControl), GameField, s.(ForceControl := g.ForceControl))
  {
    GameForceControlAppended(g, s);
    assert GameWithForceControl(s, GameForceControlOf(s) + g.ForceControl) == s.(ForceControl := g.ForceControl) by {
      assert [] + g.ForceControl == g.ForceControl;
    }
  }

  lemma GameMaxTurnsKey()
    ensures CleanKey("MaxTurns")
  {
    CleanKeyByChars("MaxTurns");
  }

  lemma GameMaxTurnsLaw(x: Game, n: int)
    requires InUint64(n)
    ensures GameField(x, "MaxTurns", Itoa(Signed(n))) == Success(x.(MaxTurns := n))
  {
    NumberItoa(Signed(n));
  }

  lemma GameMaxTurns(g: Game, s: Game)
    requires InUint64(g.MaxTurns)
    ensures FieldReads(s, Uint("MaxTurns", g.MaxTurns), GameField, s.(MaxTurns := g.MaxTurns))
  {
    GameMaxTurnsKey();
    GameMaxTurnsLaw(s, g.MaxTurns);
    NumberReads(s, Uint("MaxTurns", g.MaxTurns), GameField, s.(MaxTurns := g.MaxTurns));
  }

  lemma GameTable0(g: Game)
    ensures |GameFields(g)| == 16
    ensures GameFields(g)[0] == Str("Era", g.Era)
    ensures GameFields(g)[1] == Str("Speed", g.Speed)
    ensures GameFields(g)[2] == Str("Calendar", g.Calendar)
    ensures GameFields(g)[3] == Strs("Victory", g.Victory)
  {
  }

  lemma GamePart0(g: Game, s: Game)
    requires CleanValue(g.Era) && s.Era == ""
    requires CleanValue(g.Speed) && s.Speed == ""
    requires CleanValue(g.Calendar) && s.Calendar == ""
    requires Texts(g.Victory) && s.Victory == []
    ensures FieldReads(s, GameFields(g)[0], GameField, s.(Era := g.Era))
    ensures FieldReads(s.(Era := g.Era), GameFields(g)[1], GameField, s.(Era := g.Era, Speed := g.Speed))
    ensures FieldReads(s.(Era := g.Era, Speed := g.Speed), GameFields(g)[2], GameField, s.(Era := g.Era, Speed := g.Speed, Calendar := g.Calendar))
    ensures FieldReads(s.(Era := g.Era, Speed := g.Speed, Calendar := g.Calendar), GameFields(g)[3], GameField, s.(Era := g.Era, Speed := g.Speed, Calendar := g.Calendar, Victory := g.Victory))
  {
    GameTable0(g);
    var s1 := s.(Era := g.Era);
    GameEra(g, s);
    var s2 := s1.(Speed := g.Speed);
    GameSpeed(g, s1);
    var s3 := s2.(Calendar := g.Calendar);
    GameCalendar(g, s2);
    var s4 := s3.(Victory := g.Victory);
    GameVictory(g, s3);
  }

  lemma GameLink0(g: Game, s: Game)
    requires CleanValue(g.Era) && s.Era == ""
    requires CleanValue(g.Speed) && s.Speed == ""
    requires CleanValue(g.Calendar) && s.Calendar == ""
    requires Texts(g.Victory) && s.Victory == []
    ensures ReadsTo(s, GameFields(g)[..4], GameField, s.(Era := g.Era, Speed := g.Speed, Calendar := g.Calendar, Victory := g.Victory))
  {
    var fs := GameFields(g);
    GamePart0(g, s);
    ReadsFirstFour(fs, s, s.(Era := g.Era), s.(Era := g.Era, Speed := g.Speed), s.(Era := g.Era, Speed := g.Speed, Calendar := g.Calendar), s.(Era := g.Era, Speed := g.Speed, Calendar := g.Calendar, Victory := g.Victory), GameField);
  }

  lemma GameTable1(g: Game)
    ensures |GameFields(g)| == 16
    ensures GameFields(g)[4] == Uint("GameTurn", g.GameTurn)
    ensures GameFields(g)[5] == Uint("MaxCityElimination", g.MaxCityElimination)
    ensures GameFields(g)[6] == Uint("NumAdvancedStartPoints", g.NumAdvancedStartPoints)
    ensures GameFields(g)[7] == Uint("TargetScore", g.TargetScore)
  {
  }

  lemma GamePart1(g: Game, s: Game)
    requires InUint64(g.GameTurn)
    requires InUint64(g.MaxCityElimination)
    requires InUint64(g.NumAdvancedStartPoints)
    requires InUint64(g.TargetScore)
    ensures FieldReads(s, GameFields(g)[4], GameField, s.(GameTurn := g.GameTurn))
    ensures FieldReads(s.(GameTurn := g.GameTurn), GameFields(g)[5], GameField, s.(GameTurn := g.GameTurn, MaxCityElimination := g.MaxCityElimination))
    ensures FieldReads(s.(GameTurn := g.GameTurn, MaxCityElimination := g.MaxCityElimination), GameFields(g)[6], GameField, s.(GameTurn := g.GameTurn, MaxCityElimination := g.MaxCityElimination, NumAdvancedStartPoints := g.NumAdvancedStartPoints))
    ensures FieldReads(s.(GameTurn := g.GameTurn, MaxCityElimination := g.MaxCityElimination, NumAdvancedStartPoints := g.NumAdvancedStartPoints), GameFields(g)[7], GameField, s.(GameTurn := g.GameTurn, MaxCityElimination := g.MaxCityElimination, NumAdvancedStartPoints := g.NumAdvancedStartPoints, TargetScore := g.TargetScore))
  {
    GameTable1(g);
    var s5 := s.(GameTurn := g.GameTurn);
    GameGameTurn(g, s);
    var s6 := s5.(MaxCityElimination := g.MaxCityElimination);
    GameMaxCityElimination(g, s5);
    var s7 := s6.(NumAdvancedStartPoints := g.NumAdvancedStartPoints);
    GameNumAdvancedStartPoints(g, s6);
    var s8 := s7.(TargetScore := g.TargetScore);
    GameTargetScore(g, s7);
  }

  lemma GameLink1(g: Game, s: Game)
    requires InUint64(g.GameTurn)
    requires InUint64(g.MaxCityElimination)
    requires InUint64(g.NumAdvancedStartPoints)
    requires InUint64(g.TargetScore)
    requires ReadsTo(EmptyGame, GameFields(g)[..4], GameField, s)
    ensures ReadsTo(EmptyGame, GameFields(g)[..8], GameField, s.(GameTurn := g.GameTurn, MaxCityElimination := g.MaxCityElimination, NumAdvancedStartPoints := g.NumAdvancedStartPoints, TargetScore := g.TargetScore))
  {
    var fs := GameFields(g);
    GamePart1(g, s);
    ReadsFour(fs, 4, EmptyGame, s, s.(GameTurn := g.GameTurn), s.(GameTurn := g.GameTurn, MaxCityElimination := g.MaxCityElimination), s.(GameTurn := g.GameTurn, MaxCityElimination := g.MaxCityElimination, NumAdvancedStartPoints := g.NumAdvancedStartPoints), s.(GameTurn := g.GameTurn, MaxCityElimination := g.MaxCityElimination, NumAdvancedStartPoints := g.NumAdvancedStartPoints, TargetScore := g.TargetScore), GameField);
  }

  lemma GameTable2(g: Game)
    ensures |GameFields(g)| == 16
    ensures GameFields(g)[8] == Int("StartYear", g.StartYear)
    ensures GameFields(g)[9] == Str("Description", g.Description)
    ensures GameFields(g)[10] == Str("ModPath", g.ModPath)
    ensures GameFields(g)[11] == Flag("Tutorial", g.Tutorial)
  {
  }

  lemma GamePart2(g: Game, s: Game)
    requires InInt64(g.StartYear)
    requires CleanValue(g.Description) && s.Description == ""
    requires CleanValue(g.ModPath) && s.ModPath == ""
    ensures FieldReads(s, GameFields(g)[8], GameField, s.(StartYear := g.StartYear))
    ensures FieldReads(s.(StartYear := g.StartYear), GameFields(g)[9], GameField, s.(StartYear := g.StartYear, Description := g.Description))
    ensures FieldReads(s.(StartYear := g.StartYear, Description := g.Description), GameFields(g)[10], GameField, s.(StartYear := g.StartYear, Description := g.Description, ModPath := g.ModPath))
    ensures FieldReads(s.(StartYear := g.StartYear, Description := g.Description, ModPath := g.ModPath), GameFields(g)[11], GameField, s.(StartYear := g.StartYear, Description := g.Description, ModPath := g.ModPath, Tutorial := g.Tutorial))
  {
    GameTable2(g);
    var s9 := s.(StartYear := g.StartYear);
    GameStartYear(g, s);
    var s10 := s9.(Description := g.Description);
    GameDescription(g, s9);
    var s11 := s10.(ModPath := g.ModPath);
    GameModPath(g, s10);
    var s12 := s11.(Tutorial := g.Tutorial);
    GameTutorial(g, s11);
  }

  lemma GameLink2(g: Game, s: Game)
    requires InInt64(g.StartYear)
    requires CleanValue(g.Description) && s.Description == ""
    requires CleanValue(g.ModPath) && s.ModPath == ""
    requires ReadsTo(EmptyGame, GameFields(g)[..8], GameField, s)
    ensures ReadsTo(EmptyGame, GameFields(g)[..12], GameField, s.(StartYear := g.StartYear, Description := g.Description, ModPath := g.ModPath, Tutorial := g.Tutorial))
  {
    var fs := GameFields(g);
    GamePart2(g, s);
    ReadsFour(fs, 8, EmptyGame, s, s.(StartYear := g.StartYear), s.(StartYear := g.StartYear, Description := g.Description), s.(StartYear := g.StartYear, Description := g.Description, ModPath := g.ModPath), s.(StartYear := g.StartYear, Description := g.Description, ModPath := g.ModPath, Tutorial := g.Tutorial), GameField);
  }

  lemma GameTable3(g: Game)
    ensures |GameFields(g)| == 16
    ensures GameFields(g)[12] == Strs("Option", g.Option)
    ensures GameFields(g)[13] == Strs("MPOption", g.MPOption)
    ensures GameFields(g)[14] == Strs("ForceControl", g.ForceControl)
    ensures GameFields(g)[15] == Uint("MaxTurns", g.MaxTurns)
  {
  }

  lemma GamePart3(g: Game, s: Game)
    requires Texts(g.Option) && s.Option == []
    requires Texts(g.MPOption) && s.MPOption == []
    requires Texts(g.ForceControl) && s.ForceControl == []
    requires InUint64(g.MaxTurns)
    ensures FieldReads(s, GameFields(g)[12], GameField, s.(Option := g.Option))
    ensures FieldReads(s.(Option := g.Option), GameFields(g)[13], GameField, s.(Option := g.Option, MPOption := g.MPOption))
    ensures FieldReads(s.(Option := g.Option, MPOption := g.MPOption), GameFields(g)[14], GameField, s.(Option := g.Option, MPOption := g.MPOption, ForceControl := g.ForceControl))
    ensures FieldReads(s.(Option := g.Option, MPOption := g.MPOption, ForceControl := g.ForceControl), GameFields(g)[15], GameField, s.(Option := g.Option, MPOption := g.MPOption, ForceControl := g.ForceControl, MaxTurns := g.MaxTurns))
  {
    GameTable3(g);
    var s13 := s.(Option := g.Option);
    GameOption(g, s);
    var s14 := s13.(MPOption := g.MPOption);
    GameMPOption(g, s13);
    var s15 := s14.(ForceControl := g.ForceControl);
    GameForceControl(g, s14);
    var s16 := s15.(MaxTurns := g.MaxTurns);
    GameMaxTurns(g, s15);
  }

  lemma GameLink3(g: Game, s: Game)
    requires Texts(g.Option) && s.Option == []
    requires Texts(g.MPOption) && s.MPOption == []
    requires Texts(g.ForceControl) && s.ForceControl == []
    requires InUint64(g.MaxTurns)
    requires ReadsTo(EmptyGame, GameFields(g)[..12], GameField, s)
    ensures ReadsTo(EmptyGame, GameFields(g)[..16], GameField, s.(Option := g.Option, MPOption := g.MPOption, ForceControl := g.ForceControl, MaxTurns := g.MaxTurns))
  {
    var fs := GameFields(g);
    GamePart3(g, s);
    ReadsFour(fs, 12, EmptyGame, s, s.(Option := g.Option), s.(Option := g.Option, MPOption := g.MPOption), s.(Option := g.Option, MPOption := g.MPOption, ForceControl := g.ForceControl), s.(Option := g.Option, MPOption := g.MPOption, ForceControl := g.ForceControl, MaxTurns := g.MaxTurns), GameField);
  }

  /** The rows of a Game section take the zero game to the game written. */
  lemma GameRead(g: Game)
    requires GameOk(g)
    ensures ReadsTo(EmptyGame, GameFields(g), GameField, g)
  {
    var s0 := EmptyGame;
    GameLink0(g, s0);
    var s1 := s0.(Era := g.Era, Speed := g.Speed, Calendar := g.Calendar, Victory := g.Victory);
    GameLink1(g, s1);
    var s2 := s1.(GameTurn := g.GameTurn, MaxCityElimination := g.MaxCityElimination, NumAdvancedStartPoints := g.NumAdvancedStartPoints, TargetScore := g.TargetScore);
    GameLink2(g, s2);
    var s3 := s2.(StartYear := g.StartYear, Description := g.Description, ModPath := g.ModPath, Tutorial := g.Tutorial);
    GameLink3(g, s3);
    var s4 := s3.(Option := g.Option, MPOption := g.MPOption, ForceControl := g.ForceControl, MaxTurns := g.MaxTurns);
    ReadsAll(s0, GameFields(g), GameField, s4);
  }

  // ------------------------------------------------------------ Team

  /** A team whose every field Team.ToWbFormat writes reads back. */
  predicate TeamOk(t: Team) {
    && InUint64(t.TeamID)
    && Texts(t.Tech)
    && Uint64s(t.ContactWithTeam)
    && Uint64s(t.AtWar)
    && Uint64s(t.PermanentWarPeace)
    && Uint64s(t.OpenBordersWithTeam)
    && Uint64s(t.DefensivePactWithTeam)
    && Texts(t.ProjectType)
  }

  lemma TeamTeamIDKey()
    ensures CleanKey("TeamID")
  {
    CleanKeyByChars("TeamID");
  }

  lemma TeamTeamIDLaw(x: Team, n: int)
    requires InUint64(n)
    ensures TeamField(x, "TeamID", Itoa(Signed(n))) == Success(x.(TeamID := n))
  {
    NumberItoa(Signed(n));
  }

  lemma TeamTeamID(t: Team, s: Team)
    requires InUint64(t.TeamID)
    ensures FieldReads(s, Uint("TeamID", t.TeamID), TeamField, s.(TeamID := t.TeamID))
  {
    TeamTeamIDKey();
    TeamTeamIDLaw(s, t.TeamID);
    NumberReads(s, Uint("TeamID", t.TeamID), TeamField, s.(TeamID := t.TeamID));
  }

  lemma TeamTechKey()
    ensures CleanKey("Tech")
  {
    CleanKeyByChars("Tech");
  }

  lemma TeamTechLaw(x: Team, v: string)
    ensures TeamField(x, "Tech", v) == Success(x.(Tech := x.Tech + [v]))
  {
  }

  function TeamTechOf(x: Team): seq<string> { x.Tech }

  function TeamWithTech(x: Team, v: seq<string>): Team { x.(Tech := v) }

  lemma TeamTechLens()
    ensures Lens(TeamTechOf, TeamWithTech)
  {
  }

  lemma TeamTechAppends(texts: seq<string>)
    ensures AppendsTexts(TeamField, "Tech", texts, TeamTechOf, TeamWithTech)
  {
    forall x: Team, i | 0 <= i < |texts|
      ensures TeamField(x, "Tech", texts[i]) == Success(TeamWithTech(x, TeamTechOf(x) + [texts[i]]))
    {
      TeamTechLaw(x, texts[i]);
    }
  }

  lemma TeamTechAppended(t: Team, s: Team)
    requires Texts(t.Tech)
    ensures FieldReads(s, Strs("Tech", t.Tech), TeamField, TeamWithTech(s, TeamTechOf(s) + t.Tech))
  {
    TeamTechLens();
    TeamTechAppends(t.Tech);
    TeamTechKey();
    StrsReads(s, "Tech", t.Tech, TeamField, TeamTechOf, TeamWithTech);
  }

  lemma TeamTech(t: Team, s: Team)
    requires Texts(t.Tech) && s.Tech == []
    ensures FieldReads(s, Strs("Tech", t.Tech), TeamField, s.(Tech := t.Tech))
  {
    TeamTechAppended(t, s);
    assert TeamWithTech(s, TeamTechOf(s) + t.Tech) == s.(Tech := t.Tech) by {
      assert [] + t.Tech == t.Tech;
    }
  }

  lemma TeamContactWithTeamKey()
    ensures CleanKey("ContactWithTeam")
  {
    CleanKeyByChars("ContactWithTeam");
  }

  lemma TeamContactWithTeamLaw(x: Team, n: int)
    requires InUint64(n)
    ensures TeamField(x, "ContactWithTeam", Itoa(Signed(n))) == Success(x.(ContactWithTeam := x.ContactWithTeam + [n]))
  {
    NumberItoa(Signed(n));
  }

  function TeamContactWithTeamOf(x: Team): seq<int> { x.ContactWithTeam }

  function TeamWithContactWithTeam(x: Team, v: seq<int>): Team { x.(ContactWithTeam := v) }

  lemma TeamContactWithTeamLens()
    ensures Lens(TeamContactWithTeamOf, TeamWithContactWithTeam)
  {
  }

  lemma TeamContactWithTeamAppends(numbers: seq<int>)
    requires Uint64s(numbers)
    ensures AppendsUnsigneds(TeamField, "ContactWithTeam", numbers, TeamContactWithTeamOf, TeamWithContactWithTeam)
  {
    forall x: Team, i | 0 <= i < |numbers|
      ensures TeamField(x, "ContactWithTeam", Itoa(Signed(numbers[i]))) == Success(TeamWithContactWithTeam(x, TeamContactWithTeamOf(x) + [numbers[i]]))
    {
      TeamContactWithTeamLaw(x, numbers[i]);
    }
  }

  lemma TeamContactWithTeamAppended(t: Team, s: Team)
    requires Uint64s(t.ContactWithTeam)
    ensures FieldReads(s, Uints("ContactWithTeam", t.ContactWithTeam), TeamField, TeamWithContactWithTeam(s, TeamContactWithTeamOf(s) + t.ContactWithTeam))
  {
    TeamContactWithTeamLens();
    TeamContactWithTeamAppends(t.ContactWithTeam);
    TeamContactWithTeamKey();
    UnsignedsReads(s, Uints("ContactWithTeam", t.ContactWithTeam), TeamField, TeamContactWithTeamOf, TeamWithContactWithTeam);
  }

  lemma TeamContactWithTeam(t: Team, s: Team)
    requires Uint64s(t.ContactWithTeam) && s.ContactWithTeam == []
    ensures FieldReads(s, Uints("ContactWithTeam", t.ContactWithTeam), TeamField, s.(ContactWithTeam := t.ContactWithTeam))
  {
    TeamContactWithTeamAppended(t, s);
    assert TeamWithContactWithTeam(s, TeamContactWithTeamOf(s) + t.ContactWithTeam) == s.(ContactWithTeam := t.ContactWithTeam) by {
      assert [] + t.ContactWithTeam == t.ContactWithTeam;
    }
  }

  lemma TeamAtWarKey()
    ensures CleanKey("AtWar")
  {
    CleanKeyByChars("AtWar");
  }

  lemma TeamAtWarLaw(x: Team, n: int)
    requires InUint64(n)
    ensures TeamField(x, "AtWar", Itoa(Signed(n))) == Success(x.(AtWar := x.AtWar + [n]))
  {
    NumberItoa(Signed(n));
  }

  function TeamAtWarOf(x: Team): seq<int> { x.AtWar }

  function TeamWithAtWar(x: Team, v: seq<int>): Team { x.(AtWar := v) }

  lemma TeamAtWarLens()
    ensures Lens(TeamAtWarOf, TeamWithAtWar)
  {
  }

  lemma TeamAtWarAppends(numbers: seq<int>)
    requires Uint64s(numbers)
    ensures AppendsUnsigneds(TeamField, "AtWar", numbers, TeamAtWarOf, TeamWithAtWar)
  {
    forall x: Team, i | 0 <= i < |numbers|
      ensures TeamField(x, "AtWar", Itoa(Signed(numbers[i]))) == Success(TeamWithAtWar(x, TeamAtWarOf(x) + [numbers[i]]))
    {
      TeamAtWarLaw(x, numbers[i]);
    }
  }

  lemma TeamAtWarAppended(t: Team, s: Team)
    requires Uint64s(t.AtWar)
    ensures FieldReads(s, Uints("AtWar", t.AtWar), TeamField, TeamWithAtWar(s, TeamAtWarOf(s) + t.AtWar))
  {
    TeamAtWarLens();
    TeamAtWarAppends(t.AtWar);
    TeamAtWarKey();
    UnsignedsReads(s, Uints("AtWar", t.AtWar), TeamField, TeamAtWarOf, TeamWithAtWar);
  }

  lemma TeamAtWar(t: Team, s: Team)
    requires Uint64s(t.AtWar) && s.AtWar == []
    ensures FieldReads(s, Uints("AtWar", t.AtWar), TeamField, s.(AtWar := t.AtWar))
  {
    TeamAtWarAppended(t, s);
    assert TeamWithAtWar(s, TeamAtWarOf(s) + t.AtWar) == s.(AtWar := t.AtWar) by {
      assert [] + t.AtWar == t.AtWar;
    }
  }

  lemma TeamPermanentWarPeaceKey()
    ensures CleanKey("PermanentWarPeace")
  {
    CleanKeyByChars("PermanentWarPeace");
  }

  lemma TeamPermanentWarPeaceLaw(x: Team, n: int)
    requires InUint64(n)
    ensures TeamField(x, "PermanentWarPeace", Itoa(Signed(n))) == Success(x.(PermanentWarPeace := x.PermanentWarPeace + [n]))
  {
    NumberItoa(Signed(n));
  }

  function TeamPermanentWarPeaceOf(x: Team): seq<int> { x.PermanentWarPeace }

  function TeamWithPermanentWarPeace(x: Team, v: seq<int>): Team { x.(PermanentWarPeace := v) }

  lemma TeamPermanentWarPeaceLens()
    ensures Lens(TeamPermanentWarPeaceOf, TeamWithPermanentWarPeace)
  {
  }

  lemma TeamPermanentWarPeaceAppends(numbers: seq<int>)
    requires Uint64s(numbers)
    ensures AppendsUnsigneds(TeamField, "PermanentWarPeace", numbers, TeamPermanentWarPeaceOf, TeamWithPermanentWarPeace)
  {
    forall x: Team, i | 0 <= i < |numbers|
      ensures TeamField(x, "PermanentWarPeace", Itoa(Signed(numbers[i]))) == Success(TeamWithPermanentWarPeace(x, TeamPermanentWarPeaceOf(x) + [numbers[i]]))
    {
      TeamPermanentWarPeaceLaw(x, numbers[i]);
    }
  }

  lemma TeamPermanentWarPeaceAppended(t: Team, s: Team)
    requires Uint64s(t.PermanentWarPeace)
    ensures FieldReads(s, Uints("PermanentWarPeace", t.PermanentWarPeace), TeamField, TeamWithPermanentWarPeace(s, TeamPermanentWarPeaceOf(s) + t.PermanentWarPeace))
  {
    TeamPermanentWarPeaceLens();
    TeamPermanentWarPeaceAppends(t.PermanentWarPeace);
    TeamPermanentWarPeaceKey();
    UnsignedsReads(s, Uints("PermanentWarPeace", t.PermanentWarPeace), TeamField, TeamPermanentWarPeaceOf, TeamWithPermanentWarPeace);
  }

  lemma TeamPermanentWarPeace(t: Team, s: Team)
    requires Uint64s(t.PermanentWarPeace) && s.PermanentWarPeace == []
    ensures FieldReads(s, Uints("PermanentWarPeace", t.PermanentWarPeace), TeamField, s.(PermanentWarPeace := t.PermanentWarPeace))
  {
    TeamPermanentWarPeaceAppended(t, s);
    assert TeamWithPermanentWarPeace(s, TeamPermanentWarPeaceOf(s) + t.PermanentWarPeace) == s.(PermanentWarPeace := t.PermanentWarPeace) by {
      assert [] + t.PermanentWarPeace == t.PermanentWarPeace;
    }
  }

  lemma TeamOpenBordersWithTeamKey()
    ensures CleanKey("OpenBordersWithTeam")
  {
    CleanKeyByChars("OpenBordersWithTeam");
  }

  lemma TeamOpenBordersWithTeamLaw(x: Team, n: int)
    requires InUint64(n)
    ensures TeamField(x, "OpenBordersWithTeam", Itoa(Signed(n))) == Success(x.(OpenBordersWithTeam := x.OpenBordersWithTeam + [n]))
  {
    NumberItoa(Signed(n));
  }

  function TeamOpenBordersWithTeamOf(x: Team): seq<int> { x.OpenBordersWithTeam }

  function TeamWithOpenBordersWithTeam(x: Team, v: seq<int>): Team { x.(OpenBordersWithTeam := v) }

  lemma TeamOpenBordersWithTeamLens()
    ensures Lens(TeamOpenBordersWithTeamOf, TeamWithOpenBordersWithTeam)
  {
  }

  lemma TeamOpenBordersWithTeamAppends(numbers: seq<int>)
    requires Uint64s(numbers)
    ensures AppendsUnsigneds(TeamField, "OpenBordersWithTeam", numbers, TeamOpenBordersWithTeamOf, TeamWithOpenBordersWithTeam)
  {
    forall x: Team, i | 0 <= i < |numbers|
      ensures TeamField(x, "OpenBordersWithTeam", Itoa(Signed(numbers[i]))) == Success(TeamWithOpenBordersWithTeam(x, TeamOpenBordersWithTeamOf(x) + [numbers[i]]))
    {
      TeamOpenBordersWithTeamLaw(x, numbers[i]);
    }
  }

  lemma TeamOpenBordersWithTeamAppended(t: Team, s: Team)
    requires Uint64s(t.OpenBordersWithTeam)
    ensures FieldReads(s, Uints("OpenBordersWithTeam", t.OpenBordersWithTeam), TeamField, TeamWithOpenBordersWithTeam(s, TeamOpenBordersWithTeamOf(s) + t.OpenBordersWithTeam))
  {
    TeamOpenBordersWithTeamLens();
    TeamOpenBordersWithTeamAppends(t.OpenBordersWithTeam);
    TeamOpenBordersWithTeamKey();
    UnsignedsReads(s, Uints("OpenBordersWithTeam", t.OpenBordersWithTeam), TeamField, TeamOpenBordersWithTeamOf, TeamWithOpenBordersWithTeam);
  }

  lemma TeamOpenBordersWithTeam(t: Team, s: Team)
    requires Uint64s(t.OpenBordersWithTeam) && s.OpenBordersWithTeam == []
    ensures FieldReads(s, Uints("OpenBordersWithTeam", t.OpenBordersWithTeam), TeamField, s.(OpenBordersWithTeam := t.OpenBordersWithTeam))
  {
    TeamOpenBordersWithTeamAppended(t, s);
    assert TeamWithOpenBordersWithTeam(s, TeamOpenBordersWithTeamOf(s) + t.OpenBordersWithTeam) == s.(OpenBordersWithTeam := t.OpenBordersWithTeam) by {
      assert [] + t.OpenBordersWithTeam == t.OpenBordersWithTeam;
    }
  }

  lemma TeamDefensivePactWithTeamKey()
    ensures CleanKey("DefensivePactWithTeam")
  {
    CleanKeyByChars("DefensivePactWithTeam");
  }

  lemma TeamDefensivePactWithTeamLaw(x: Team, n: int)
    requires InUint64(n)
    ensures TeamField(x, "DefensivePactWithTeam", Itoa(Signed(n))) == Success(x.(DefensivePactWithTeam := x.DefensivePactWithTeam + [n]))
  {
    NumberItoa(Signed(n));
  }

  function TeamDefensivePactWithTeamOf(x: Team): seq<int> { x.DefensivePactWithTeam }

  function TeamWithDefensivePactWithTeam(x: Team, v: seq<int>): Team { x.(DefensivePactWithTeam := v) }

  lemma TeamDefensivePactWithTeamLens()
    ensures Lens(TeamDefensivePactWithTeamOf, TeamWithDefensivePactWithTeam)
  {
  }

  lemma TeamDefensivePactWithTeamAppends(numbers: seq<int>)
    requires Uint64s(numbers)
    ensures AppendsUnsigneds(TeamField, "DefensivePactWithTeam", numbers, TeamDefensivePactWithTeamOf, TeamWithDefensivePactWithTeam)
  {
    forall x: Team, i | 0 <= i < |numbers|
      ensures TeamField(x, "DefensivePactWithTeam", Itoa(Signed(numbers[i]))) == Success(TeamWithDefensivePactWithTeam(x, TeamDefensivePactWithTeamOf(x) + [numbers[i]]))
    {
      TeamDefensivePactWithTeamLaw(x, numbers[i]);
    }
  }

  lemma TeamDefensivePactWithTeamAppended(t: Team, s: Team)
    requires Uint64s(t.DefensivePactWithTeam)
    ensures FieldReads(s, Uints("DefensivePactWithTeam", t.DefensivePactWithTeam), TeamField, TeamWithDefensivePactWithTeam(s, TeamDefensivePactWithTeamOf(s) + t.DefensivePactWithTeam))
  {
    TeamDefensivePactWithTeamLens();
    TeamDefensivePactWithTeamAppends(t.DefensivePactWithTeam);
    TeamDefensivePactWithTeamKey();
    UnsignedsReads(s, Uints("DefensivePactWithTeam", t.DefensivePactWithTeam), TeamField, TeamDefensivePactWithTeamOf, TeamWithDefensivePactWithTeam);
  }

  lemma TeamDefensivePactWithTeam(t: Team, s: Team)
    requires Uint64s(t.DefensivePactWithTeam) && s.DefensivePactWithTeam == []
    ensures FieldReads(s, Uints("DefensivePactWithTeam", t.DefensivePactWithTeam), TeamField, s.(DefensivePactWithTeam := t.DefensivePactWithTeam))
  {
    TeamDefensivePactWithTeamAppended(t, s);
    assert TeamWithDefensivePactWithTeam(s, TeamDefensivePactWithTeamOf(s) + t.DefensivePactWithTeam) == s.(DefensivePactWithTeam := t.DefensivePactWithTeam) by {
      assert [] + t.DefensivePactWithTeam == t.DefensivePactWithTeam;
    }
  }

  lemma TeamProjectTypeKey()
    ensures CleanKey("ProjectType")
  {
    CleanKeyByChars("ProjectType");
  }

  lemma TeamProjectTypeLaw(x: Team, v: string)
    ensures TeamField(x, "ProjectType", v) == Success(x.(ProjectType := x.ProjectType + [v]))
  {
  }

  function TeamProjectTypeOf(x: Team): seq<string> { x.ProjectType }

  function TeamWithProjectType(x: Team, v: seq<string>): Team { x.(ProjectType := v) }

  lemma TeamProjectTypeLens()
    ensures Lens(TeamProjectTypeOf, TeamWithProjectType)
  {
  }

  lemma TeamProjectTypeAppends(texts: seq<string>)
    ensures AppendsTexts(TeamField, "ProjectType", texts, TeamProjectTypeOf, TeamWithProjectType)
  {
    forall x: Team, i | 0 <= i < |texts|
      ensures TeamField(x, "ProjectType", texts[i]) == Success(TeamWithProjectType(x, TeamProjectTypeOf(x) + [texts[i]]))
    {
      TeamProjectTypeLaw(x, texts[i]);
    }
  }

  lemma TeamProjectTypeAppended(t: Team, s: Team)
    requires Texts(t.ProjectType)
    ensures FieldReads(s, Strs("ProjectType", t.ProjectType), TeamField, TeamWithProjectType(s, TeamProjectTypeOf(s) + t.ProjectType))
  {
    TeamProjectTypeLens();
    TeamProjectTypeAppends(t.ProjectType);
    TeamProjectTypeKey();
    StrsReads(s, "ProjectType", t.ProjectType, TeamField, TeamProjectTypeOf, TeamWithProjectType);
  }

  lemma TeamProjectType(t: Team, s: Team)
    requires Texts(t.ProjectType) && s.ProjectType == []
    ensures FieldReads(s, Strs("ProjectType", t.ProjectType), TeamField, s.(ProjectType := t.ProjectType))
  {
    TeamProjectTypeAppended(t, s);
    assert TeamWithProjectType(s, TeamProjectTypeOf(s) + t.ProjectType) == s.(ProjectType := t.ProjectType) by {
      assert [] + t.ProjectType == t.ProjectType;
    }
  }

  lemma TeamRevealMapKey()
    ensures CleanKey("RevealMap")
  {
    CleanKeyByChars("RevealMap");
  }

  lemma TeamRevealMapLaw(x: Team, b: bool)
    ensures TeamField(x, "RevealMap", if b then "1" else "0") == Success(x.(RevealMap := b))
  {
  }

  lemma TeamRevealMap(t: Team, s: Team)
    ensures FieldReads(s, Flag("RevealMap", t.RevealMap), TeamField, s.(RevealMap := t.RevealMap))
  {
    TeamRevealMapKey();
    TeamRevealMapLaw(s, t.RevealMap);
    FlagReads(s, "RevealMap", t.RevealMap, TeamField, s.(RevealMap := t.RevealMap));
  }

  lemma TeamTable0(t: Team)
    ensures |TeamFields(t)| == 9
    ensures TeamFields(t)[0] == Uint("TeamID", t.TeamID)
    ensures TeamFields(t)[1] == Strs("Tech", t.Tech)
    ensures TeamFields(t)[2] == Uints("ContactWithTeam", t.ContactWithTeam)
    ensures TeamFields(t)[3] == Uints("AtWar", t.AtWar)
  {
  }

  lemma TeamPart0(t: Team, s: Team)
    requires InUint64(t.TeamID)
    requires Texts(t.Tech) && s.Tech == []
    requires Uint64s(t.ContactWithTeam) && s.ContactWithTeam == []
    requires Uint64s(t.AtWar) && s.AtWar == []
    ensures FieldReads(s, TeamFields(t)[0], TeamField, s.(TeamID := t.TeamID))
    ensures FieldReads(s.(TeamID := t.TeamID), TeamFields(t)[1], TeamField, s.(TeamID := t.TeamID, Tech := t.Tech))
    ensures FieldReads(s.(TeamID := t.TeamID, Tech := t.Tech), TeamFields(t)[2], TeamField, s.(TeamID := t.TeamID, Tech := t.Tech, ContactWithTeam := t.ContactWithTeam))
    ensures FieldReads(s.(TeamID := t.TeamID, Tech := t.Tech, ContactWithTeam := t.ContactWithTeam), TeamFields(t)[3], TeamField, s.(TeamID := t.TeamID, Tech := t.Tech, ContactWithTeam := t.ContactWithTeam, AtWar := t.AtWar))
  {
    TeamTable0(t);
    var s1 := s.(TeamID := t.TeamID);
    TeamTeamID(t, s);
    var s2 := s1.(Tech := t.Tech);
    TeamTech(t, s1);
    var s3 := s2.(ContactWithTeam := t.ContactWithTeam);
    TeamContactWithTeam(t, s2);
    var s4 := s3.(AtWar := t.AtWar);
    TeamAtWar(t, s3);
  }

  lemma TeamLink0(t: Team, s: Team)
    requires InUint64(t.TeamID)
    requires Texts(t.Tech) && s.Tech == []
    requires Uint64s(t.ContactWithTeam) && s.ContactWithTeam == []
    requires Uint64s(t.AtWar) && s.AtWar == []
    ensures ReadsTo(s, TeamFields(t)[..4], TeamField, s.(TeamID := t.TeamID, Tech := t.Tech, ContactWithTeam := t.ContactWithTeam, AtWar := t.AtWar))
  {
    var fs := TeamFields(t);
    TeamPart0(t, s);
    ReadsFirstFour(fs, s, s.(TeamID := t.TeamID), s.(TeamID := t.TeamID, Tech := t.Tech), s.(TeamID := t.TeamID, Tech := t.Tech, ContactWithTeam := t.ContactWithTeam), s.(TeamID := t.TeamID, Tech := t.Tech, ContactWithTeam := t.ContactWithTeam, AtWar := t.AtWar), TeamField);
  }

  lemma TeamTable1(t: Team)
    ensures |TeamFields(t)| == 9
    ensures TeamFields(t)[4] == Uints("PermanentWarPeace", t.PermanentWarPeace)
    ensures TeamFields(t)[5] == Uints("OpenBordersWithTeam", t.OpenBordersWithTeam)
    ensures TeamFields(t)[6] == Uints("DefensivePactWithTeam", t.DefensivePactWithTeam)
    ensures TeamFields(t)[7] == Strs("ProjectType", t.ProjectType)
  {
  }

  lemma TeamPart1(t: Team, s: Team)
    requires Uint64s(t.PermanentWarPeace) && s.PermanentWarPeace == []
    requires Uint64s(t.OpenBordersWithTeam) && s.OpenBordersWithTeam == []
    requires Uint64s(t.DefensivePactWithTeam) && s.DefensivePactWithTeam == []
    requires Texts(t.ProjectType) && s.ProjectType == []
    ensures FieldReads(s, TeamFields(t)[4], TeamField, s.(PermanentWarPeace := t.PermanentWarPeace))
    ensures FieldReads(s.(PermanentWarPeace := t.PermanentWarPeace), TeamFields(t)[5], TeamField, s.(PermanentWarPeace := t.PermanentWarPeace, OpenBordersWithTeam := t.OpenBordersWithTeam))
    ensures FieldReads(s.(PermanentWarPeace := t.PermanentWarPeace, OpenBordersWithTeam := t.OpenBordersWithTeam), TeamFields(t)[6], TeamField, s.(PermanentWarPeace := t.PermanentWarPeace, OpenBordersWithTeam := t.OpenBordersWithTeam, DefensivePactWithTeam := t.DefensivePactWithTeam))
    ensures FieldReads(s.(PermanentWarPeace := t.PermanentWarPeace, OpenBordersWithTeam := t.OpenBordersWithTeam, DefensivePactWithTeam := t.DefensivePactWithTeam), TeamFields(t)[7], TeamField, s.(PermanentWarPeace := t.PermanentWarPeace, OpenBordersWithTeam := t.OpenBordersWithTeam, DefensivePactWithTeam := t.DefensivePactWithTeam, ProjectType := t.ProjectType))
  {
    TeamTable1(t);
    var s5 := s.(PermanentWarPeace := t.PermanentWarPeace);
    TeamPermanentWarPeace(t, s);
    var s6 := s5.(OpenBordersWithTeam := t.OpenBordersWithTeam);
    TeamOpenBordersWithTeam(t, s5);
    var s7 := s6.(DefensivePactWithTeam := t.DefensivePactWithTeam);
    TeamDefensivePactWithTeam(t, s6);
    var s8 := s7.(ProjectType := t.ProjectType);
    TeamProjectType(t, s7);
  }

  lemma TeamLink1(t: Team, s: Team)
    requires Uint64s(t.PermanentWarPeace) && s.PermanentWarPeace == []
    requires Uint64s(t.OpenBordersWithTeam) && s.OpenBordersWithTeam == []
    requires Uint64s(t.DefensivePactWithTeam) && s.DefensivePactWithTeam == []
    requires Texts(t.ProjectType) && s.ProjectType == []
    requires ReadsTo(EmptyTeam, TeamFields(t)[..4], TeamField, s)
    ensures ReadsTo(EmptyTeam, TeamFields(t)[..8], TeamField, s.(PermanentWarPeace := t.PermanentWarPeace, OpenBordersWithTeam := t.OpenBordersWithTeam, DefensivePactWithTeam := t.DefensivePactWithTeam, ProjectType := t.ProjectType))
  {
    var fs := TeamFields(t);
    TeamPart1(t, s);
    ReadsFour(fs, 4, EmptyTeam, s, s.(PermanentWarPeace := t.PermanentWarPeace), s.(PermanentWarPeace := t.PermanentWarPeace, OpenBordersWithTeam := t.OpenBordersWithTeam), s.(PermanentWarPeace := t.PermanentWarPeace, OpenBordersWithTeam := t.OpenBordersWithTeam, DefensivePactWithTeam := t.DefensivePactWithTeam), s.(PermanentWarPeace := t.PermanentWarPeace, OpenBordersWithTeam := t.OpenBordersWithTeam, DefensivePactWithTeam := t.DefensivePactWithTeam, ProjectType := t.ProjectType), TeamField);
  }

  lemma TeamTable2(t: Team)
    ensures |TeamFields(t)| == 9
    ensures TeamFields(t)[8] == Flag("RevealMap", t.RevealMap)
  {
  }

  lemma TeamPart2(t: Team, s: Team)
    ensures FieldReads(s, TeamFields(t)[8], TeamField, s.(RevealMap := t.RevealMap))
  {
    TeamTable2(t);
    var s9 := s.(RevealMap := t.RevealMap);
    TeamRevealMap(t, s);
  }

  lemma TeamLink2(t: Team, s: Team)
    requires ReadsTo(EmptyTeam, TeamFields(t)[..8], TeamField, s)
    ensures ReadsTo(EmptyTeam, TeamFields(t)[..9], TeamField, s.(RevealMap := t.RevealMap))
  {
    var fs := TeamFields(t);
    TeamPart2(t, s);
    ReadsNext(fs, 8, EmptyTeam, s, s.(RevealMap := t.RevealMap), TeamField);
  }

  /** The rows of a Team section take the zero team to the team written. */
  lemma TeamRead(t: Team)
    requires TeamOk(t)
    ensures ReadsTo(EmptyTeam, TeamFields(t), TeamField, t)
  {
    var s0 := EmptyTeam;
    TeamLink0(t, s0);
    var s1 := s0.(TeamID := t.TeamID, Tech := t.Tech, ContactWithTeam := t.ContactWithTeam, AtWar := t.AtWar);
    TeamLink1(t, s1);
    var s2 := s1.(PermanentWarPeace := t.PermanentWarPeace, OpenBordersWithTeam := t.OpenBordersWithTeam, DefensivePactWithTeam := t.DefensivePactWithTeam, ProjectType := t.ProjectType);
    TeamLink2(t, s2);
    var s3 := s2.(RevealMap := t.RevealMap);
    ReadsAll(s0, TeamFields(t), TeamField, s3);
  }

  // ------------------------------------------------------------ MapProps

  /** Map properties whose every field MapProps.ToWbFormat writes reads back. */
  predicate MapPropsOk(m: MapProps) {
    && InUint64(m.GridWidth)
    && InUint64(m.GridHeight)
    && InInt64(m.TopLatitude)
    && InInt64(m.BottomLatitude)
    && InInt64(m.WrapX)
    && InInt64(m.WrapY)
    && CleanValue(m.WorldSize)
    && CleanValue(m.Climate)
    && CleanValue(m.SeaLevel)
    && InUint64(m.NumPlotsWritten)
    && InUint64(m.NumSignsWritten)
  }

  lemma MapPropsGridWidthKey()
    ensures CleanKey("grid width")
  {
    CleanKeyByChars("grid width");
  }

  lemma MapPropsGridWidthLaw(x: MapProps, n: int)
    requires InUint64(n)
    ensures MapField(x, "grid width", Itoa(Signed(n))) == Success(x.(GridWidth := n))
  {
    NumberItoa(Signed(n));
  }

  lemma MapPropsGridWidth(m: MapProps, s: MapProps)
    requires InUint64(m.GridWidth)
    ensures FieldReads(s, Uint("grid width", m.GridWidth), MapField, s.(GridWidth := m.GridWidth))
  {
    MapPropsGridWidthKey();
    MapPropsGridWidthLaw(s, m.GridWidth);
    NumberReads(s, Uint("grid width", m.GridWidth), MapField, s.(GridWidth := m.GridWidth));
  }

  lemma MapPropsGridHeightKey()
    ensures CleanKey("grid height")
  {
    CleanKeyByChars("grid height");
  }

  lemma MapPropsGridHeightLaw(x: MapProps, n: int)
    requires InUint64(n)
    ensures MapField(x, "grid height", Itoa(Signed(n))) == Success(x.(GridHeight := n))
  {
    NumberItoa(Signed(n));
  }

  lemma MapPropsGridHeight(m: MapProps, s: MapProps)
    requires InUint64(m.GridHeight)
    ensures FieldReads(s, Uint("grid height", m.GridHeight), MapField, s.(GridHeight := m.GridHeight))
  {
    MapPropsGridHeightKey();
    MapPropsGridHeightLaw(s, m.GridHeight);
    NumberReads(s, Uint("grid height", m.GridHeight), MapField, s.(GridHeight := m.GridHeight));
  }

  lemma MapPropsTopLatitudeKey()
    ensures CleanKey("top latitude")
  {
    CleanKeyByChars("top latitude");
  }

  lemma MapPropsTopLatitudeLaw(x: MapProps, n: int)
    requires InInt64(n)
    ensures MapField(x, "top latitude", Itoa(n)) == Success(x.(TopLatitude := n))
  {
    NumberItoa(n);
  }

  lemma MapPropsTopLatitude(m: MapProps, s: MapProps)
    requires InInt64(m.TopLatitude)
    ensures FieldReads(s, Int64("top latitude", m.TopLatitude), MapField, s.(TopLatitude := m.TopLatitude))
  {
    MapPropsTopLatitudeKey();
    MapPropsTopLatitudeLaw(s, m.TopLatitude);
    NumberReads(s, Int64("top latitude", m.TopLatitude), MapField, s.(TopLatitude := m.TopLatitude));
  }

  lemma MapPropsBottomLatitudeKey()
    ensures CleanKey("bottom latitude")
  {
    CleanKeyByChars("bottom latitude");
  }

  lemma MapPropsBottomLatitudeLaw(x: MapProps, n: int)
    requires InInt64(n)
    ensures MapField(x, "bottom latitude", Itoa(n)) == Success(x.(BottomLatitude := n))
  {
    NumberItoa(n);
  }

  lemma MapPropsBottomLatitude(m: MapProps, s: MapProps)
    requires InInt64(m.BottomLatitude)
    ensures FieldReads(s, Int64("bottom latitude", m.BottomLatitude), MapField, s.(BottomLatitude := m.BottomLatitude))
  {
    MapPropsBottomLatitudeKey();
    MapPropsBottomLatitudeLaw(s, m.BottomLatitude);
    NumberReads(s, Int64("bottom latitude", m.BottomLatitude), MapField, s.(BottomLatitude := m.BottomLatitude));
  }

  lemma MapPropsWrapXKey()
    ensures CleanKey("wrap X")
  {
    CleanKeyByChars("wrap X");
  }

  lemma MapPropsWrapXLaw(x: MapProps, n: int)
    requires InInt64(n)
    ensures MapField(x, "wrap X", Itoa(n)) == Success(x.(WrapX := n))
  {
    NumberItoa(n);
  }

  lemma MapPropsWrapX(m: MapProps, s: MapProps)
    requires InInt64(m.WrapX)
    ensures FieldReads(s, Int("wrap X", m.WrapX), MapField, s.(WrapX := m.WrapX))
  {
    MapPropsWrapXKey();
    MapPropsWrapXLaw(s, m.WrapX);
    NumberReads(s, Int("wrap X", m.WrapX), MapField, s.(WrapX := m.WrapX));
  }

  lemma MapPropsWrapYKey()
    ensures CleanKey("wrap Y")
  {
    CleanKeyByChars("wrap Y");
  }

  lemma MapPropsWrapYLaw(x: MapProps, n: int)
    requires InInt64(n)
    ensures MapField(x, "wrap Y", Itoa(n)) == Success(x.(WrapY := n))
  {
    NumberItoa(n);
  }

  lemma MapPropsWrapY(m: MapProps, s: MapProps)
    requires InInt64(m.WrapY)
    ensures FieldReads(s, Int("wrap Y", m.WrapY), MapField, s.(WrapY := m.WrapY))
  {
    MapPropsWrapYKey();
    MapPropsWrapYLaw(s, m.WrapY);
    NumberReads(s, Int("wrap Y", m.WrapY), MapField, s.(WrapY := m.WrapY));
  }

  lemma MapPropsWorldSizeKey()
    ensures CleanKey("world size")
  {
    CleanKeyByChars("world size");
  }

  lemma MapPropsWorldSizeLaw(x: MapProps, v: string)
    ensures MapField(x, "world size", v) == Success(x.(WorldSize := v))
  {
  }

  lemma MapPropsWorldSize(m: MapProps, s: MapProps)
    requires CleanValue(m.WorldSize) && s.WorldSize == ""
    ensures FieldReads(s, Str("world size", m.WorldSize), MapField, s.(WorldSize := m.WorldSize))
  {
    MapPropsWorldSizeKey();
    MapPropsWorldSizeLaw(s, m.WorldSize);
    StrReads(s, "world size", m.WorldSize, MapField, s.(WorldSize := m.WorldSize));
  }

  lemma MapPropsClimateKey()
    ensures CleanKey("climate")
  {
    CleanKeyByChars("climate");
  }

  lemma MapPropsClimateLaw(x: MapProps, v: string)
    ensures MapField(x, "climate", v) == Success(x.(Climate := v))
  {
  }

  lemma MapPropsClimate(m: MapProps, s: MapProps)
    requires CleanValue(m.Climate) && s.Climate == ""
    ensures FieldReads(s, Str("climate", m.Climate), MapField, s.(Climate := m.Climate))
  {
    MapPropsClimateKey();
    MapPropsClimateLaw(s, m.Climate);
    StrReads(s, "climate", m.Climate, MapField, s.(Climate := m.Climate));
  }

  lemma MapPropsSeaLevelKey()
    ensures CleanKey("sealevel")
  {
    CleanKeyByChars("sealevel");
  }

  lemma MapPropsSeaLevelLaw(x: MapProps, v: string)
    ensures MapField(x, "sealevel", v) == Success(x.(SeaLevel := v))
  {
  }

  lemma MapPropsSeaLevel(m: MapProps, s: MapProps)
    requires CleanValue(m.SeaLevel) && s.SeaLevel == ""
    ensures FieldReads(s, Str("sealevel", m.SeaLevel), MapField, s.(SeaLevel := m.SeaLevel))
  {
    MapPropsSeaLevelKey();
    MapPropsSeaLevelLaw(s, m.SeaLevel);
    StrReads(s, "sealevel", m.SeaLevel, MapField, s.(SeaLevel := m.SeaLevel));
  }

  lemma MapPropsNumPlotsWrittenKey()
    ensures CleanKey("num plots written")
  {
    CleanKeyByChars("num plots written");
  }

  lemma MapPropsNumPlotsWrittenLaw(x: MapProps, n: int)
    requires InUint64(n)
    ensures MapField(x, "num plots written", Itoa(Signed(n))) == Success(x.(NumPlotsWritten := n))
  {
    NumberItoa(Signed(n));
  }

  lemma MapPropsNumPlotsWritten(m: MapProps, s: MapProps)
    requires InUint64(m.NumPlotsWritten)
    ensures FieldReads(s, Uint("num plots written", m.NumPlotsWritten), MapField, s.(NumPlotsWritten := m.NumPlotsWritten))
  {
    MapPropsNumPlotsWrittenKey();
    MapPropsNumPlotsWrittenLaw(s, m.NumPlotsWritten);
    NumberReads(s, Uint("num plots written", m.NumPlotsWritten), MapField, s.(NumPlotsWritten := m.NumPlotsWritten));
  }

  lemma MapPropsNumSignsWrittenKey()
    ensures CleanKey("num signs written")
  {
    CleanKeyByChars("num signs written");
  }

  lemma MapPropsNumSignsWrittenLaw(x: MapProps, n: int)
    requires InUint64(n)
    ensures MapField(x, "num signs written", Itoa(Signed(n))) == Success(x.(NumSignsWritten := n))
  {
    NumberItoa(Signed(n));
  }

  lemma MapPropsNumSignsWritten(m: MapProps, s: MapProps)
    requires InUint64(m.NumSignsWritten)
    ensures FieldReads(s, Uint("num signs written", m.NumSignsWritten), MapField, s.(NumSignsWritten := m.NumSignsWritten))
  {
    MapPropsNumSignsWrittenKey();
    MapPropsNumSignsWrittenLaw(s, m.NumSignsWritten);
    NumberReads(s, Uint("num signs written", m.NumSignsWritten), MapField, s.(NumSignsWritten := m.NumSignsWritten));
  }

  lemma MapPropsRandomizeResourcesKey()
    ensures CleanKey("Randomize Resources")
  {
    CleanKeyByChars("Randomize Resources");
  }

  lemma MapPropsRandomizeResourcesLaw(x: MapProps, b: bool)
    ensures MapField(x, "Randomize Resources", if b then "1" else "0") == Success(x.(RandomizeResources := b))
  {
  }

  lemma MapPropsRandomizeResources(m: MapProps, s: MapProps)
    ensures FieldReads(s, Flag("Randomize Resources", m.RandomizeResources), MapField, s.(RandomizeResources := m.RandomizeResources))
  {
    MapPropsRandomizeResourcesKey();
    MapPropsRandomizeResourcesLaw(s, m.RandomizeResources);
    FlagReads(s, "Randomize Resources", m.RandomizeResources, MapField, s.(RandomizeResources := m.RandomizeResources));
  }

  lemma MapPropsTable0(m: MapProps)
    ensures |MapPropsFields(m)| == 12
    ensures MapPropsFields(m)[0] == Uint("grid width", m.GridWidth)
    ensures MapPropsFields(m)[1] == Uint("grid height", m.GridHeight)
    ensures MapPropsFields(m)[2] == Int64("top latitude", m.TopLatitude)
    ensures MapPropsFields(m)[3] == Int64("bottom latitude", m.BottomLatitude)
  {
  }

  lemma MapPropsPart0(m: MapProps, s: MapProps)
    requires InUint64(m.GridWidth)
    requires InUint64(m.GridHeight)
    requires InInt64(m.TopLatitude)
    requires InInt64(m.BottomLatitude)
    ensures FieldReads(s, MapPropsFields(m)[0], MapField, s.(GridWidth := m.GridWidth))
    ensures FieldReads(s.(GridWidth := m.GridWidth), MapPropsFields(m)[1], MapField, s.(GridWidth := m.GridWidth, GridHeight := m.GridHeight))
    ensures FieldReads(s.(GridWidth := m.GridWidth, GridHeight := m.GridHeight), MapPropsFields(m)[2], MapField, s.(GridWidth := m.GridWidth, GridHeight := m.GridHeight, TopLatitude := m.TopLatitude))
    ensures FieldReads(s.(GridWidth := m.GridWidth, GridHeight := m.GridHeight, TopLatitude := m.TopLatitude), MapPropsFields(m)[3], MapField, s.(GridWidth := m.GridWidth, GridHeight := m.GridHeight, TopLatitude := m.TopLatitude, BottomLatitude := m.BottomLatitude))
  {
    MapPropsTable0(m);
    var s1 := s.(GridWidth := m.GridWidth);
    MapPropsGridWidth(m, s);
    var s2 := s1.(GridHeight := m.GridHeight);
    MapPropsGridHeight(m, s1);
    var s3 := s2.(TopLatitude := m.TopLatitude);
    MapPropsTopLatitude(m, s2);
    var s4 := s3.(BottomLatitude := m.BottomLatitude);
    MapPropsBottomLatitude(m, s3);
  }

  lemma MapPropsLink0(m: MapProps, s: MapProps)
    requires InUint64(m.GridWidth)
    requires InUint64(m.GridHeight)
    requires InInt64(m.TopLatitude)
    requires InInt64(m.BottomLatitude)
    ensures ReadsTo(s, MapPropsFields(m)[..4], MapField, s.(GridWidth := m.GridWidth, GridHeight := m.GridHeight, TopLatitude := m.TopLatitude, BottomLatitude := m.BottomLatitude))
  {
    var fs := MapPropsFields(m);
    MapPropsPart0(m, s);
    ReadsFirstFour(fs, s, s.(GridWidth := m.GridWidth), s.(GridWidth := m.GridWidth, GridHeight := m.GridHeight), s.(GridWidth := m.GridWidth, GridHeight := m.GridHeight, TopLatitude := m.TopLatitude), s.(GridWidth := m.GridWidth, GridHeight := m.GridHeight, TopLatitude := m.TopLatitude, BottomLatitude := m.BottomLatitude), MapField);
  }

  lemma MapPropsTable1(m: MapProps)
    ensures |MapPropsFields(m)| == 12
    ensures MapPropsFields(m)[4] == Int("wrap X", m.WrapX)
    ensures MapPropsFields(m)[5] == Int("wrap Y", m.WrapY)
    ensures MapPropsFields(m)[6] == Str("world size", m.WorldSize)
    ensures MapPropsFields(m)[7] == Str("climate", m.Climate)
  {
  }

  lemma MapPropsPart1(m: MapProps, s: MapProps)
    requires InInt64(m.WrapX)
    requires InInt64(m.WrapY)
    requires CleanValue(m.WorldSize) && s.WorldSize == ""
    requires CleanValue(m.Climate) && s.Climate == ""
    ensures FieldReads(s, MapPropsFields(m)[4], MapField, s.(WrapX := m.WrapX))
    ensures FieldReads(s.(WrapX := m.WrapX), MapPropsFields(m)[5], MapField, s.(WrapX := m.WrapX, WrapY := m.WrapY))
    ensures FieldReads(s.(WrapX := m.WrapX, WrapY := m.WrapY), MapPropsFields(m)[6], MapField, s.(WrapX := m.WrapX, WrapY := m.WrapY, WorldSize := m.WorldSize))
    ensures FieldReads(s.(WrapX := m.WrapX, WrapY := m.WrapY, WorldSize := m.WorldSize), MapPropsFields(m)[7], MapField, s.(WrapX := m.WrapX, WrapY := m.WrapY, WorldSize := m.WorldSize, Climate := m.Climate))
  {
    MapPropsTable1(m);
    var s5 := s.(WrapX := m.WrapX);
    MapPropsWrapX(m, s);
    var s6 := s5.(WrapY := m.WrapY);
    MapPropsWrapY(m, s5);
    var s7 := s6.(WorldSize := m.WorldSize);
    MapPropsWorldSize(m, s6);
    var s8 := s7.(Climate := m.Climate);
    MapPropsClimate(m, s7);
  }

  lemma MapPropsLink1(m: MapProps, s: MapProps)
    requires InInt64(m.WrapX)
    requires InInt64(m.WrapY)
    requires CleanValue(m.WorldSize) && s.WorldSize == ""
    requires CleanValue(m.Climate) && s.Climate == ""
    requires ReadsTo(EmptyMapProps, MapPropsFields(m)[..4], MapField, s)
    ensures ReadsTo(EmptyMapProps, MapPropsFields(m)[..8], MapField, s.(WrapX := m.WrapX, WrapY := m.WrapY, WorldSize := m.WorldSize, Climate := m.Climate))
  {
    var fs := MapPropsFields(m);
    MapPropsPart1(m, s);
    ReadsFour(fs, 4, EmptyMapProps, s, s.(WrapX := m.WrapX), s.(WrapX := m.WrapX, WrapY := m.WrapY), s.(WrapX := m.WrapX, WrapY := m.WrapY, WorldSize := m.WorldSize), s.(WrapX := m.WrapX, WrapY := m.WrapY, WorldSize := m.WorldSize, Climate := m.Climate), MapField);
  }

  lemma MapPropsTable2(m: MapProps)
    ensures |MapPropsFields(m)| == 12
    ensures MapPropsFields(m)[8] == Str("sealevel", m.SeaLevel)
    ensures MapPropsFields(m)[9] == Uint("num plots written", m.NumPlotsWritten)
    ensures MapPropsFields(m)[10] == Uint("num signs written", m.NumSignsWritten)
    ensures MapPropsFields(m)[11] == Flag("Randomize Resources", m.RandomizeResources)
  {
  }

  lemma MapPropsPart2(m: MapProps, s: MapProps)
    requires CleanValue(m.SeaLevel) && s.SeaLevel == ""
    requires InUint64(m.NumPlotsWritten)
    requires InUint64(m.NumSignsWritten)
    ensures FieldReads(s, MapPropsFields(m)[8], MapField, s.(SeaLevel := m.SeaLevel))
    ensures FieldReads(s.(SeaLevel := m.SeaLevel), MapPropsFields(m)[9], MapField, s.(SeaLevel := m.SeaLevel, NumPlotsWritten := m.NumPlotsWritten))
    ensures FieldReads(s.(SeaLevel := m.SeaLevel, NumPlotsWritten := m.NumPlotsWritten), MapPropsFields(m)[10], MapField, s.(SeaLevel := m.SeaLevel, NumPlotsWritten := m.NumPlotsWritten, NumSignsWritten := m.NumSignsWritten))
    ensures FieldReads(s.(SeaLevel := m.SeaLevel, NumPlotsWritten := m.NumPlotsWritten, NumSignsWritten := m.NumSignsWritten), MapPropsFields(m)[11], MapField, s.(SeaLevel := m.SeaLevel, NumPlotsWritten := m.NumPlotsWritten, NumSignsWritten := m.NumSignsWritten, RandomizeResources := m.RandomizeResources))
  {
    MapPropsTable2(m);
    var s9 := s.(SeaLevel := m.SeaLevel);
    MapPropsSeaLevel(m, s);
    var s10 := s9.(NumPlotsWritten := m.NumPlotsWritten);
    MapPropsNumPlotsWritten(m, s9);
    var s11 := s10.(NumSignsWritten := m.NumSignsWritten);
    MapPropsNumSignsWritten(m, s10);
    var s12 := s11.(RandomizeResources := m.RandomizeResources);
    MapPropsRandomizeResources(m, s11);
  }

  lemma MapPropsLink2(m: MapProps, s: MapProps)
    requires CleanValue(m.SeaLevel) && s.SeaLevel == ""
    requires InUint64(m.NumPlotsWritten)
    requires InUint64(m.NumSignsWritten)
    requires ReadsTo(EmptyMapProps, MapPropsFields(m)[..8], MapField, s)
    ensures ReadsTo(EmptyMapProps, MapPropsFields(m)[..12], MapField, s.(SeaLevel := m.SeaLevel, NumPlotsWritten := m.NumPlotsWritten, NumSignsWritten := m.NumSignsWritten, RandomizeResources := m.RandomizeResources))
  {
    var fs := MapPropsFields(m);
    MapPropsPart2(m, s);
    ReadsFour(fs, 8, EmptyMapProps, s, s.(SeaLevel := m.SeaLevel), s.(SeaLevel := m.SeaLevel, NumPlotsWritten := m.NumPlotsWritten), s.(SeaLevel := m.SeaLevel, NumPlotsWritten := m.NumPlotsWritten, NumSignsWritten := m.NumSignsWritten), s.(SeaLevel := m.SeaLevel, NumPlotsWritten := m.NumPlotsWritten, NumSignsWritten := m.NumSignsWritten, RandomizeResources := m.RandomizeResources), MapField);
  }

  /** The rows of a Map section take the zero properties to the properties written. */
  lemma MapPropsRead(m: MapProps)
    requires MapPropsOk(m)
    ensures ReadsTo(EmptyMapProps, MapPropsFields(m), MapField, m)
  {
    var s0 := EmptyMapProps;
    MapPropsLink0(m, s0);
    var s1 := s0.(GridWidth := m.GridWidth, GridHeight := m.GridHeight, TopLatitude := m.TopLatitude, BottomLatitude := m.BottomLatitude);
    MapPropsLink1(m, s1);
    var s2 := s1.(WrapX := m.WrapX, WrapY := m.WrapY, WorldSize := m.WorldSize, Climate := m.Climate);
    MapPropsLink2(m, s2);
    var s3 := s2.(SeaLevel := m.SeaLevel, NumPlotsWritten := m.NumPlotsWritten, NumSignsWritten := m.NumSignsWritten, RandomizeResources := m.RandomizeResources);
    ReadsAll(s0, MapPropsFields(m), MapField, s3);
  }

}
