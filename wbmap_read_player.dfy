/**
 * The Player section reads back: the rows Player.ToWbFormat writes,
 * applied by Unpack to the zero player, give the player back, field by
 * field in the order the rows are written (Key, Law and field lemmas as
 * for the Game section).
 */
module WbReadPlayer {
  import opened Wrappers
  import opened Strconv
  import opened WbStructs
  import opened WbFormat
  import opened WbRows
  import opened WbEntities

  // ------------------------------------------------------------ Player

  /** A player whose every field Player.ToWbFormat writes reads back. */
  predicate PlayerOk(p: Player) {
    && CleanValue(p.CivDesc)
    && CleanValue(p.CivShortDesc)
    && CleanValue(p.LeaderName)
    && CleanValue(p.CivAdjective)
    && CleanValue(p.FlagDecal)
    && CleanValue(p.LeaderType)
    && CleanValue(p.CivType)
    && InUint64(p.Team)
    && CleanValue(p.Handicap)
    && CleanValue(p.Color)
    && CleanValue(p.ArtStyle)
    && InInt64(p.StartingGold)
    && InInt64(p.StartingX)
    && InInt64(p.StartingY)
    && CleanValue(p.StateReligion)
    && CleanValue(p.StartingEra)
    && Texts(p.CityList)
    && Texts(p.CivicOption)
    && Texts(p.Civic)
    && Uint64s(p.AttitudePlayer)
    && Int64s(p.AttitudeExtra)
  }

  lemma PlayerCivDescKey()
    ensures CleanKey("CivDesc")
  {
    CleanKeyByChars("CivDesc");
  }

  lemma PlayerCivDescLaw(x: Player, v: string)
    ensures PlayerField(x, "CivDesc", v) == Success(x.(CivDesc := v))
  {
  }

  lemma PlayerCivDesc(p: Player, s: Player)
    requires CleanValue(p.CivDesc) && s.CivDesc == ""
    ensures FieldReads(s, Str("CivDesc", p.CivDesc), PlayerField, s.(CivDesc := p.CivDesc))
  {
    PlayerCivDescKey();
    PlayerCivDescLaw(s, p.CivDesc);
    StrReads(s, "CivDesc", p.CivDesc, PlayerField, s.(CivDesc := p.CivDesc));
  }

  lemma PlayerCivShortDescKey()
    ensures CleanKey("CivShortDesc")
  {
    CleanKeyByChars("CivShortDesc");
  }

  lemma PlayerCivShortDescLaw(x: Player, v: string)
    ensures PlayerField(x, "CivShortDesc", v) == Success(x.(CivShortDesc := v))
  {
  }

  lemma PlayerCivShortDesc(p: Player, s: Player)
    requires CleanValue(p.CivShortDesc) && s.CivShortDesc == ""
    ensures FieldReads(s, Str("CivShortDesc", p.CivShortDesc), PlayerField, s.(CivShortDesc := p.CivShortDesc))
  {
    PlayerCivShortDescKey();
    PlayerCivShortDescLaw(s, p.CivShortDesc);
    StrReads(s, "CivShortDesc", p.CivShortDesc, PlayerField, s.(CivShortDesc := p.CivShortDesc));
  }

  lemma PlayerLeaderNameKey()
    ensures CleanKey("LeaderName")
  {
    CleanKeyByChars("LeaderName");
  }

  lemma PlayerLeaderNameLaw(x: Player, v: string)
    ensures PlayerField(x, "LeaderName", v) == Success(x.(LeaderName := v))
  {
  }

  lemma PlayerLeaderName(p: Player, s: Player)
    requires CleanValue(p.LeaderName) && s.LeaderName == ""
    ensures FieldReads(s, Str("LeaderName", p.LeaderName), PlayerField, s.(LeaderName := p.LeaderName))
  {
    PlayerLeaderNameKey();
    PlayerLeaderNameLaw(s, p.LeaderName);
    StrReads(s, "LeaderName", p.LeaderName, PlayerField, s.(LeaderName := p.LeaderName));
  }

  lemma PlayerCivAdjectiveKey()
    ensures CleanKey("CivAdjective")
  {
    CleanKeyByChars("CivAdjective");
  }

  lemma PlayerCivAdjectiveLaw(x: Player, v: string)
    ensures PlayerField(x, "CivAdjective", v) == Success(x.(CivAdjective := v))
  {
  }

  lemma PlayerCivAdjective(p: Player, s: Player)
    requires CleanValue(p.CivAdjective) && s.CivAdjective == ""
    ensures FieldReads(s, Str("CivAdjective", p.CivAdjective), PlayerField, s.(CivAdjective := p.CivAdjective))
  {
    PlayerCivAdjectiveKey();
    PlayerCivAdjectiveLaw(s, p.CivAdjective);
    StrReads(s, "CivAdjective", p.CivAdjective, PlayerField, s.(CivAdjective := p.CivAdjective));
  }

  lemma PlayerFlagDecalKey()
    ensures CleanKey("FlagDecal")
  {
    CleanKeyByChars("FlagDecal");
  }

  lemma PlayerFlagDecalLaw(x: Player, v: string)
    ensures PlayerField(x, "FlagDecal", v) == Success(x.(FlagDecal := v))
  {
  }

  lemma PlayerFlagDecal(p: Player, s: Player)
    requires CleanValue(p.FlagDecal) && s.FlagDecal == ""
    ensures FieldReads(s, Str("FlagDecal", p.FlagDecal), PlayerField, s.(FlagDecal := p.FlagDecal))
  {
    PlayerFlagDecalKey();
    PlayerFlagDecalLaw(s, p.FlagDecal);
    StrReads(s, "FlagDecal", p.FlagDecal, PlayerField, s.(FlagDecal := p.FlagDecal));
  }

  lemma PlayerWhiteFlagKey()
    ensures CleanKey("WhiteFlag")
  {
    CleanKeyByChars("WhiteFlag");
  }

  lemma PlayerWhiteFlagLaw(x: Player, b: bool)
    ensures PlayerField(x, "WhiteFlag", if b then "1" else "0") == Success(x.(WhiteFlag := b))
  {
  }

  lemma PlayerWhiteFlag(p: Player, s: Player)
    ensures FieldReads(s, Flag("WhiteFlag", p.WhiteFlag), PlayerField, s.(WhiteFlag := p.WhiteFlag))
  {
    PlayerWhiteFlagKey();
    PlayerWhiteFlagLaw(s, p.WhiteFlag);
    FlagReads(s, "WhiteFlag", p.WhiteFlag, PlayerField, s.(WhiteFlag := p.WhiteFlag));
  }

  lemma PlayerLeaderTypeKey()
    ensures CleanKey("LeaderType")
  {
    CleanKeyByChars("LeaderType");
  }

  lemma PlayerLeaderTypeLaw(x: Player, v: string)
    ensures PlayerField(x, "LeaderType", v) == Success(x.(LeaderType := v))
  {
  }

  lemma PlayerLeaderType(p: Player, s: Player)
    requires CleanValue(p.LeaderType) && s.LeaderType == ""
    ensures FieldReads(s, Str("LeaderType", p.LeaderType), PlayerField, s.(LeaderType := p.LeaderType))
  {
    PlayerLeaderTypeKey();
    PlayerLeaderTypeLaw(s, p.LeaderType);
    StrReads(s, "LeaderType", p.LeaderType, PlayerField, s.(LeaderType := p.LeaderType));
  }

  lemma PlayerCivTypeKey()
    ensures CleanKey("CivType")
  {
    CleanKeyByChars("CivType");
  }

  lemma PlayerCivTypeLaw(x: Player, v: string)
    ensures PlayerField(x, "CivType", v) == Success(x.(CivType := v))
  {
  }

  lemma PlayerCivType(p: Player, s: Player)
    requires CleanValue(p.CivType) && s.CivType == ""
    ensures FieldReads(s, Str("CivType", p.CivType), PlayerField, s.(CivType := p.CivType))
  {
    PlayerCivTypeKey();
    PlayerCivTypeLaw(s, p.CivType);
    StrReads(s, "CivType", p.CivType, PlayerField, s.(CivType := p.CivType));
  }

  lemma PlayerTeamKey()
    ensures CleanKey("Team")
  {
    CleanKeyByChars("Team");
  }

  lemma PlayerTeamLaw(x: Player, n: int)
    requires InUint64(n)
    ensures PlayerField(x, "Team", Itoa(Signed(n))) == Success(x.(Team := n))
  {
    NumberItoa(Signed(n));
  }

  lemma PlayerTeam(p: Player, s: Player)
    requires InUint64(p.Team)
    ensures FieldReads(s, Uint("Team", p.Team), PlayerField, s.(Team := p.Team))
  {
    PlayerTeamKey();
    PlayerTeamLaw(s, p.Team);
    NumberReads(s, Uint("Team", p.Team), PlayerField, s.(Team := p.Team));
  }

  lemma PlayerHandicapKey()
    ensures CleanKey("Handicap")
  {
    CleanKeyByChars("Handicap");
  }

  lemma PlayerHandicapLaw(x: Player, v: string)
    ensures PlayerField(x, "Handicap", v) == Success(x.(Handicap := v))
  {
  }

  lemma PlayerHandicap(p: Player, s: Player)
    requires CleanValue(p.Handicap) && s.Handicap == ""
    ensures FieldReads(s, Str("Handicap", p.Handicap), PlayerField, s.(Handicap := p.Handicap))
  {
    PlayerHandicapKey();
    PlayerHandicapLaw(s, p.Handicap);
    StrReads(s, "Handicap", p.Handicap, PlayerField, s.(Handicap := p.Handicap));
  }

  lemma PlayerColorKey()
    ensures CleanKey("Color")
  {
    CleanKeyByChars("Color");
  }

  lemma PlayerColorLaw(x: Player, v: string)
    ensures PlayerField(x, "Color", v) == Success(x.(Color := v))
  {
  }

  lemma PlayerColor(p: Player, s: Player)
    requires CleanValue(p.Color) && s.Color == ""
    ensures FieldReads(s, Str("Color", p.Color), PlayerField, s.(Color := p.Color))
  {
    PlayerColorKey();
    PlayerColorLaw(s, p.Color);
    StrReads(s, "Color", p.Color, PlayerField, s.(Color := p.Color));
  }

  lemma PlayerArtStyleKey()
    ensures CleanKey("ArtStyle")
  {
    CleanKeyByChars("ArtStyle");
  }

  lemma PlayerArtStyleLaw(x: Player, v: string)
    ensures PlayerField(x, "ArtStyle", v) == Success(x.(ArtStyle := v))
  {
  }

  lemma PlayerArtStyle(p: Player, s: Player)
    requires CleanValue(p.ArtStyle) && s.ArtStyle == ""
    ensures FieldReads(s, Str("ArtStyle", p.ArtStyle), PlayerField, s.(ArtStyle := p.ArtStyle))
  {
    PlayerArtStyleKey();
    PlayerArtStyleLaw(s, p.ArtStyle);
    StrReads(s, "ArtStyle", p.ArtStyle, PlayerField, s.(ArtStyle := p.ArtStyle));
  }

  lemma PlayerPlayableCivKey()
    ensures CleanKey("PlayableCiv")
  {
    CleanKeyByChars("PlayableCiv");
  }

  lemma PlayerPlayableCivLaw(x: Player, b: bool)
    ensures PlayerField(x, "PlayableCiv", if b then "1" else "0") == Success(x.(PlayableCiv := b))
  {
  }

  lemma PlayerPlayableCiv(p: Player, s: Player)
    ensures FieldReads(s, Flag("PlayableCiv", p.PlayableCiv), PlayerField, s.(PlayableCiv := p.PlayableCiv))
  {
    PlayerPlayableCivKey();
    PlayerPlayableCivLaw(s, p.PlayableCiv);
    FlagReads(s, "PlayableCiv", p.PlayableCiv, PlayerField, s.(PlayableCiv := p.PlayableCiv));
  }

  lemma PlayerMinorNationStatusKey()
    ensures CleanKey("MinorNationStatus")
  {
    CleanKeyByChars("MinorNationStatus");
  }

  lemma PlayerMinorNationStatusLaw(x: Player, b: bool)
    ensures PlayerField(x, "MinorNationStatus", if b then "1" else "0") == Success(x.(MinorNationStatus := b))
  {
  }

  lemma PlayerMinorNationStatus(p: Player, s: Player)
    ensures FieldReads(s, Flag("MinorNationStatus", p.MinorNationStatus), PlayerField, s.(MinorNationStatus := p.MinorNationStatus))
  {
    PlayerMinorNationStatusKey();
    PlayerMinorNationStatusLaw(s, p.MinorNationStatus);
    FlagReads(s, "MinorNationStatus", p.MinorNationStatus, PlayerField, s.(MinorNationStatus := p.MinorNationStatus));
  }

  lemma PlayerStartingGoldKey()
    ensures CleanKey("StartingGold")
  {
    CleanKeyByChars("StartingGold");
  }

  lemma PlayerStartingGoldLaw(x: Player, n: int)
    requires InInt64(n)
    ensures PlayerField(x, "StartingGold", Itoa(n)) == Success(x.(StartingGold := n))
  {
    NumberItoa(n);
  }

  lemma PlayerStartingGold(p: Player, s: Player)
    requires InInt64(p.StartingGold)
    ensures FieldReads(s, Int("StartingGold", p.StartingGold), PlayerField, s.(StartingGold := p.StartingGold))
  {
    PlayerStartingGoldKey();
    PlayerStartingGoldLaw(s, p.StartingGold);
    NumberReads(s, Int("StartingGold", p.StartingGold), PlayerField, s.(StartingGold := p.StartingGold));
  }

  lemma PlayerRandomStartLocationKey()
    ensures CleanKey("RandomStartLocation")
  {
    CleanKeyByChars("RandomStartLocation");
  }

  lemma PlayerRandomStartLocationLaw(x: Player, b: bool)
    ensures PlayerField(x, "RandomStartLocation", if b then "1" else "0") == Success(x.(RandomStartLocation := b))
  {
  }

  lemma PlayerRandomStartLocation(p: Player, s: Player)
    ensures FieldReads(s, Flag("RandomStartLocation", p.RandomStartLocation), PlayerField, s.(RandomStartLocation := p.RandomStartLocation))
  {
    PlayerRandomStartLocationKey();
    PlayerRandomStartLocationLaw(s, p.RandomStartLocation);
    FlagReads(s, "RandomStartLocation", p.RandomStartLocation, PlayerField, s.(RandomStartLocation := p.RandomStartLocation));
  }

  lemma PlayerStartingXKey()
    ensures CleanKey("StartingX")
  {
    CleanKeyByChars("StartingX");
  }

  lemma PlayerStartingXLaw(x: Player, n: int)
    requires InInt64(n)
    ensures PlayerField(x, "StartingX", Itoa(n)) == Success(x.(StartingX := n))
  {
    NumberItoa(n);
  }

  lemma PlayerStartingYKey()
    ensures CleanKey("StartingY")
  {
    CleanKeyByChars("StartingY");
  }

  lemma PlayerStartingYLaw(x: Player, n: int)
    requires InInt64(n)
    ensures PlayerField(x, "StartingY", Itoa(n)) == Success(x.(StartingY := n))
  {
    NumberItoa(n);
  }

  lemma PlayerStart(p: Player, s: Player)
    requires InInt64(p.StartingX) && InInt64(p.StartingY)
    ensures FieldReads(s, Joined([("StartingX", Itoa(p.StartingX)), ("StartingY", Itoa(p.StartingY))]), PlayerField, s.(StartingX := p.StartingX, StartingY := p.StartingY))
  {
    PlayerStartingXKey();
    PlayerStartingYKey();
    PlayerStartingXLaw(s, p.StartingX);
    PlayerStartingYLaw(s.(StartingX := p.StartingX), p.StartingY);
    ItoaClean(p.StartingX);
    ItoaClean(p.StartingY);
    PairReads(s, "StartingX", Itoa(p.StartingX), "StartingY", Itoa(p.StartingY), PlayerField, s.(StartingX := p.StartingX), s.(StartingX := p.StartingX, StartingY := p.StartingY));
  }

  lemma PlayerStateReligionKey()
    ensures CleanKey("StateReligion")
  {
    CleanKeyByChars("StateReligion");
  }

  lemma PlayerStateReligionLaw(x: Player, v: string)
    ensures PlayerField(x, "StateReligion", v) == Success(x.(StateReligion := v))
  {
  }

  lemma PlayerStateReligion(p: Player, s: Player)
    requires CleanValue(p.StateReligion) && s.StateReligion == ""
    ensures FieldReads(s, Str("StateReligion", p.StateReligion), PlayerField, s.(StateReligion := p.StateReligion))
  {
    PlayerStateReligionKey();
    PlayerStateReligionLaw(s, p.StateReligion);
    StrReads(s, "StateReligion", p.StateReligion, PlayerField, s.(StateReligion := p.StateReligion));
  }

  lemma PlayerStartingEraKey()
    ensures CleanKey("StartingEra")
  {
    CleanKeyByChars("StartingEra");
  }

  lemma PlayerStartingEraLaw(x: Player, v: string)
    ensures PlayerField(x, "StartingEra", v) == Success(x.(StartingEra := v))
  {
  }

  lemma PlayerStartingEra(p: Player, s: Player)
    requires CleanValue(p.StartingEra) && s.StartingEra == ""
    ensures FieldReads(s, Str("StartingEra", p.StartingEra), PlayerField, s.(StartingEra := p.StartingEra))
  {
    PlayerStartingEraKey();
    PlayerStartingEraLaw(s, p.StartingEra);
    StrReads(s, "StartingEra", p.StartingEra, PlayerField, s.(StartingEra := p.StartingEra));
  }

  lemma PlayerCityListKey()
    ensures CleanKey("CityList")
  {
    CleanKeyByChars("CityList");
  }

  lemma PlayerCityListLaw(x: Player, v: string)
    ensures PlayerField(x, "CityList", v) == Success(x.(CityList := x.CityList + [v]))
  {
  }

  function PlayerCityListOf(x: Player): seq<string> { x.CityList }

  function PlayerWithCityList(x: Player, v: seq<string>): Player { x.(CityList := v) }

  lemma PlayerCityListLens()
    ensures Lens(PlayerCityListOf, PlayerWithCityList)
  {
  }

  lemma PlayerCityListAppends(texts: seq<string>)
    ensures AppendsTexts(PlayerField, "CityList", texts, PlayerCityListOf, PlayerWithCityList)
  {
    forall x: Player, i | 0 <= i < |texts|
      ensures PlayerField(x, "CityList", texts[i]) == Success(PlayerWithCityList(x, PlayerCityListOf(x) + [texts[i]]))
    {
      PlayerCityListLaw(x, texts[i]);
    }
  }

  lemma PlayerCityListAppended(p: Player, s: Player)
    requires Texts(p.CityList)
    ensures FieldReads(s, Strs("CityList", p.CityList), PlayerField, PlayerWithCityList(s, PlayerCityListOf(s) + p.CityList))
  {
    PlayerCityListLens();
    PlayerCityListAppends(p.CityList);
    PlayerCityListKey();
    StrsReads(s, "CityList", p.CityList, PlayerField, PlayerCityListOf, PlayerWithCityList);
  }

  lemma PlayerCityList(p: Player, s: Player)
    requires Texts(p.CityList) && s.CityList == []
    ensures FieldReads(s, Strs("CityList", p.CityList), PlayerField, s.(CityList := p.CityList))
  {
    PlayerCityListAppended(p, s);
    assert PlayerWithCityList(s, PlayerCityListOf(s) + p.CityList) == s.(CityList := p.CityList) by {
      assert [] + p.CityList == p.CityList;
    }
  }

  lemma PlayerCivicOptionKey()
    ensures CleanKey("CivicOption")
  {
    CleanKeyByChars("CivicOption");
  }

  lemma PlayerCivicOptionLaw(x: Player, v: string)
    ensures PlayerField(x, "CivicOption", v) == Success(x.(CivicOption := x.CivicOption + [v]))
  {
  }

  function PlayerCivicOptionOf(x: Player): seq<string> { x.CivicOption }

  function PlayerWithCivicOption(x: Player, v: seq<string>): Player { x.(CivicOption := v) }

  lemma PlayerCivicOptionLens()
    ensures Lens(PlayerCivicOptionOf, PlayerWithCivicOption)
  {
  }

  lemma PlayerCivicOptionAppends(texts: seq<string>)
    ensures AppendsTexts(PlayerField, "CivicOption", texts, PlayerCivicOptionOf, PlayerWithCivicOption)
  {
    forall x: Player, i | 0 <= i < |texts|
      ensures PlayerField(x, "CivicOption", texts[i]) == Success(PlayerWithCivicOption(x, PlayerCivicOptionOf(x) + [texts[i]]))
    {
      PlayerCivicOptionLaw(x, texts[i]);
    }
  }

  lemma PlayerCivicOptionAppended(p: Player, s: Player)
    requires Texts(p.CivicOption)
    ensures FieldReads(s, Strs("CivicOption", p.CivicOption), PlayerField, PlayerWithCivicOption(s, PlayerCivicOptionOf(s) + p.CivicOption))
  {
    PlayerCivicOptionLens();
    PlayerCivicOptionAppends(p.CivicOption);
    PlayerCivicOptionKey();
    StrsReads(s, "CivicOption", p.CivicOption, PlayerField, PlayerCivicOptionOf, PlayerWithCivicOption);
  }

  lemma PlayerCivicOption(p: Player, s: Player)
    requires Texts(p.CivicOption) && s.CivicOption == []
    ensures FieldReads(s, Strs("CivicOption", p.CivicOption), PlayerField, s.(CivicOption := p.CivicOption))
  {
    PlayerCivicOptionAppended(p, s);
    assert PlayerWithCivicOption(s, PlayerCivicOptionOf(s) + p.CivicOption) == s.(CivicOption := p.CivicOption) by {
      assert [] + p.CivicOption == p.CivicOption;
    }
  }

  lemma PlayerCivicKey()
    ensures CleanKey("Civic")
  {
    CleanKeyByChars("Civic");
  }

  lemma PlayerCivicLaw(x: Player, v: string)
    ensures PlayerField(x, "Civic", v) == Success(x.(Civic := x.Civic + [v]))
  {
  }

  function PlayerCivicOf(x: Player): seq<string> { x.Civic }

  function PlayerWithCivic(x: Player, v: seq<string>): Player { x.(Civic := v) }

  lemma PlayerCivicLens()
    ensures Lens(PlayerCivicOf, PlayerWithCivic)
  {
  }

  lemma PlayerCivicAppends(texts: seq<string>)
    ensures AppendsTexts(PlayerField, "Civic", texts, PlayerCivicOf, PlayerWithCivic)
  {
    forall x: Player, i | 0 <= i < |texts|
      ensures PlayerField(x, "Civic", texts[i]) == Success(PlayerWithCivic(x, PlayerCivicOf(x) + [texts[i]]))
    {
      PlayerCivicLaw(x, texts[i]);
    }
  }

  lemma PlayerCivicAppended(p: Player, s: Player)
    requires Texts(p.Civic)
    ensures FieldReads(s, Strs("Civic", p.Civic), PlayerField, PlayerWithCivic(s, PlayerCivicOf(s) + p.Civic))
  {
    PlayerCivicLens();
    PlayerCivicAppends(p.Civic);
    PlayerCivicKey();
    StrsReads(s, "Civic", p.Civic, PlayerField, PlayerCivicOf, PlayerWithCivic);
  }

  lemma PlayerCivic(p: Player, s: Player)
    requires Texts(p.Civic) && s.Civic == []
    ensures FieldReads(s, Strs("Civic", p.Civic), PlayerField, s.(Civic := p.Civic))
  {
    PlayerCivicAppended(p, s);
    assert PlayerWithCivic(s, PlayerCivicOf(s) + p.Civic) == s.(Civic := p.Civic) by {
      assert [] + p.Civic == p.Civic;
    }
  }

  lemma PlayerAttitudePlayerKey()
    ensures CleanKey("AttitudePlayer")
  {
    CleanKeyByChars("AttitudePlayer");
  }

  lemma PlayerAttitudePlayerLaw(x: Player, n: int)
    requires InUint64(n)
    ensures PlayerField(x, "AttitudePlayer", Itoa(Signed(n))) == Success(x.(AttitudePlayer := x.AttitudePlayer + [n]))
  {
    NumberItoa(Signed(n));
  }

  function PlayerAttitudePlayerOf(x: Player): seq<int> { x.AttitudePlayer }

  function PlayerWithAttitudePlayer(x: Player, v: seq<int>): Player { x.(AttitudePlayer := v) }

  lemma PlayerAttitudePlayerLens()
    ensures Lens(PlayerAttitudePlayerOf, PlayerWithAttitudePlayer)
  {
  }

  lemma PlayerAttitudePlayerAppends(numbers: seq<int>)
    requires Uint64s(numbers)
    ensures AppendsUnsigneds(PlayerField, "AttitudePlayer", numbers, PlayerAttitudePlayerOf, PlayerWithAttitudePlayer)
  {
    forall x: Player, i | 0 <= i < |numbers|
      ensures PlayerField(x, "AttitudePlayer", Itoa(Signed(numbers[i]))) == Success(PlayerWithAttitudePlayer(x, PlayerAttitudePlayerOf(x) + [numbers[i]]))
    {
      PlayerAttitudePlayerLaw(x, numbers[i]);
    }
  }

  lemma PlayerAttitudePlayerAppended(p: Player, s: Player)
    requires Uint64s(p.AttitudePlayer)
    ensures FieldReads(s, Uints("AttitudePlayer", p.AttitudePlayer), PlayerField, PlayerWithAttitudePlayer(s, PlayerAttitudePlayerOf(s) + p.AttitudePlayer))
  {
    PlayerAttitudePlayerLens();
    PlayerAttitudePlayerAppends(p.AttitudePlayer);
    PlayerAttitudePlayerKey();
    UnsignedsReads(s, Uints("AttitudePlayer", p.AttitudePlayer), PlayerField, PlayerAttitudePlayerOf, PlayerWithAttitudePlayer);
  }

  lemma PlayerAttitudePlayer(p: Player, s: Player)
    requires Uint64s(p.AttitudePlayer) && s.AttitudePlayer == []
    ensures FieldReads(s, Uints("AttitudePlayer", p.AttitudePlayer), PlayerField, s.(AttitudePlayer := p.AttitudePlayer))
  {
    PlayerAttitudePlayerAppended(p, s);
    assert PlayerWithAttitudePlayer(s, PlayerAttitudePlayerOf(s) + p.AttitudePlayer) == s.(AttitudePlayer := p.AttitudePlayer) by {
      assert [] + p.AttitudePlayer == p.AttitudePlayer;
    }
  }

  lemma PlayerAttitudeExtraKey()
    ensures CleanKey("AttitudeExtra")
  {
    CleanKeyByChars("AttitudeExtra");
  }

  lemma PlayerAttitudeExtraLaw(x: Player, n: int)
    requires InInt64(n)
    ensures PlayerField(x, "AttitudeExtra", Itoa(n)) == Success(x.(AttitudeExtra := x.AttitudeExtra + [n]))
  {
    NumberItoa(n);
  }

  function PlayerAttitudeExtraOf(x: Player): seq<int> { x.AttitudeExtra }

  function PlayerWithAttitudeExtra(x: Player, v: seq<int>): Player { x.(AttitudeExtra := v) }

  lemma PlayerAttitudeExtraLens()
    ensures Lens(PlayerAttitudeExtraOf, PlayerWithAttitudeExtra)
  {
  }

  lemma PlayerAttitudeExtraAppends(numbers: seq<int>)
    requires Int64s(numbers)
    ensures AppendsNumbers(PlayerField, "AttitudeExtra", numbers, PlayerAttitudeExtraOf, PlayerWithAttitudeExtra)
  {
    forall x: Player, i | 0 <= i < |numbers|
      ensures PlayerField(x, "AttitudeExtra", Itoa(numbers[i])) == Success(PlayerWithAttitudeExtra(x, PlayerAttitudeExtraOf(x) + [numbers[i]]))
    {
      PlayerAttitudeExtraLaw(x, numbers[i]);
    }
  }

  lemma PlayerAttitudeExtraAppended(p: Player, s: Player)
    requires Int64s(p.AttitudeExtra)
    ensures FieldReads(s, Ints("AttitudeExtra", p.AttitudeExtra), PlayerField, PlayerWithAttitudeExtra(s, PlayerAttitudeExtraOf(s) + p.AttitudeExtra))
  {
    PlayerAttitudeExtraLens();
    PlayerAttitudeExtraAppends(p.AttitudeExtra);
    PlayerAttitudeExtraKey();
    NumbersReads(s, Ints("AttitudeExtra", p.AttitudeExtra), PlayerField, PlayerAttitudeExtraOf, PlayerWithAttitudeExtra);
  }

  lemma PlayerAttitudeExtra(p: Player, s: Player)
    requires Int64s(p.AttitudeExtra) && s.AttitudeExtra == []
    ensures FieldReads(s, Ints("AttitudeExtra", p.AttitudeExtra), PlayerField, s.(AttitudeExtra := p.AttitudeExtra))
  {
    PlayerAttitudeExtraAppended(p, s);
    assert PlayerWithAttitudeExtra(s, PlayerAttitudeExtraOf(s) + p.AttitudeExtra) == s.(AttitudeExtra := p.AttitudeExtra) by {
      assert [] + p.AttitudeExtra == p.AttitudeExtra;
    }
  }

  lemma PlayerTable0(p: Player)
    ensures |PlayerFields(p)| == 24
    ensures PlayerFields(p)[0] == Str("CivDesc", p.CivDesc)
    ensures PlayerFields(p)[1] == Str("CivShortDesc", p.CivShortDesc)
    ensures PlayerFields(p)[2] == Str("LeaderName", p.LeaderName)
    ensures PlayerFields(p)[3] == Str("CivAdjective", p.CivAdjective)
  {
  }

  lemma PlayerPart0(p: Player, s: Player)
    requires CleanValue(p.CivDesc) && s.CivDesc == ""
    requires CleanValue(p.CivShortDesc) && s.CivShortDesc == ""
    requires CleanValue(p.LeaderName) && s.LeaderName == ""
    requires CleanValue(p.CivAdjective) && s.CivAdjective == ""
    ensures FieldReads(s, PlayerFields(p)[0], PlayerField, s.(CivDesc := p.CivDesc))
    ensures FieldReads(s.(CivDesc := p.CivDesc), PlayerFields(p)[1], PlayerField, s.(CivDesc := p.CivDesc, CivShortDesc := p.CivShortDesc))
    ensures FieldReads(s.(CivDesc := p.CivDesc, CivShortDesc := p.CivShortDesc), PlayerFields(p)[2], PlayerField, s.(CivDesc := p.CivDesc, CivShortDesc := p.CivShortDesc, LeaderName := p.LeaderName))
    ensures FieldReads(s.(CivDesc := p.CivDesc, CivShortDesc := p.CivShortDesc, LeaderName := p.LeaderName), PlayerFields(p)[3], PlayerField, s.(CivDesc := p.CivDesc, CivShortDesc := p.CivShortDesc, LeaderName := p.LeaderName, CivAdjective := p.CivAdjective))
  {
    PlayerTable0(p);
    var s1 := s.(CivDesc := p.CivDesc);
    PlayerCivDesc(p, s);
    var s2 := s1.(CivShortDesc := p.CivShortDesc);
    PlayerCivShortDesc(p, s1);
    var s3 := s2.(LeaderName := p.LeaderName);
    PlayerLeaderName(p, s2);
    var s4 := s3.(CivAdjective := p.CivAdjective);
    PlayerCivAdjective(p, s3);
  }

  lemma PlayerLink0(p: Player, s: Player)
    requires CleanValue(p.CivDesc) && s.CivDesc == ""
    requires CleanValue(p.CivShortDesc) && s.CivShortDesc == ""
    requires CleanValue(p.LeaderName) && s.LeaderName == ""
    requires CleanValue(p.CivAdjective) && s.CivAdjective == ""
    ensures ReadsTo(s, PlayerFields(p)[..4], PlayerField, s.(CivDesc := p.CivDesc, CivShortDesc := p.CivShortDesc, LeaderName := p.LeaderName, CivAdjective := p.CivAdjective))
  {
    var fs := PlayerFields(p);
    PlayerPart0(p, s);
    ReadsFirstFour(fs, s, s.(CivDesc := p.CivDesc), s.(CivDesc := p.CivDesc, CivShortDesc := p.CivShortDesc), s.(CivDesc := p.CivDesc, CivShortDesc := p.CivShortDesc, LeaderName := p.LeaderName), s.(CivDesc := p.CivDesc, CivShortDesc := p.CivShortDesc, LeaderName := p.LeaderName, CivAdjective := p.CivAdjective), PlayerField);
  }

  lemma PlayerTable1(p: Player)
    ensures |PlayerFields(p)| == 24
    ensures PlayerFields(p)[4] == Str("FlagDecal", p.FlagDecal)
    ensures PlayerFields(p)[5] == Flag("WhiteFlag", p.WhiteFlag)
    ensures PlayerFields(p)[6] == Str("LeaderType", p.LeaderType)
    ensures PlayerFields(p)[7] == Str("CivType", p.CivType)
  {
  }

  lemma PlayerPart1(p: Player, s: Player)
    requires CleanValue(p.FlagDecal) && s.FlagDecal == ""
    requires CleanValue(p.LeaderType) && s.LeaderType == ""
    requires CleanValue(p.CivType) && s.CivType == ""
    ensures FieldReads(s, PlayerFields(p)[4], PlayerField, s.(FlagDecal := p.FlagDecal))
    ensures FieldReads(s.(FlagDecal := p.FlagDecal), PlayerFields(p)[5], PlayerField, s.(FlagDecal := p.FlagDecal, WhiteFlag := p.WhiteFlag))
    ensures FieldReads(s.(FlagDecal := p.FlagDecal, WhiteFlag := p.WhiteFlag), PlayerFields(p)[6], PlayerField, s.(FlagDecal := p.FlagDecal, WhiteFlag := p.WhiteFlag, LeaderType := p.LeaderType))
    ensures FieldReads(s.(FlagDecal := p.FlagDecal, WhiteFlag := p.WhiteFlag, LeaderType := p.LeaderType), PlayerFields(p)[7], PlayerField, s.(FlagDecal := p.FlagDecal, WhiteFlag := p.WhiteFlag, LeaderType := p.LeaderType, CivType := p.CivType))
  {
    PlayerTable1(p);
    var s5 := s.(FlagDecal := p.FlagDecal);
    PlayerFlagDecal(p, s);
    var s6 := s5.(WhiteFlag := p.WhiteFlag);
    PlayerWhiteFlag(p, s5);
    var s7 := s6.(LeaderType := p.LeaderType);
    PlayerLeaderType(p, s6);
    var s8 := s7.(CivType := p.CivType);
    PlayerCivType(p, s7);
  }

  lemma PlayerLink1(p: Player, s: Player)
    requires CleanValue(p.FlagDecal) && s.FlagDecal == ""
    requires CleanValue(p.LeaderType) && s.LeaderType == ""
    requires CleanValue(p.CivType) && s.CivType == ""
    requires ReadsTo(EmptyPlayer, PlayerFields(p)[..4], PlayerField, s)
    ensures ReadsTo(EmptyPlayer, PlayerFields(p)[..8], PlayerField, s.(FlagDecal := p.FlagDecal, WhiteFlag := p.WhiteFlag, LeaderType := p.LeaderType, CivType := p.CivType))
  {
    var fs := PlayerFields(p);
    PlayerPart1(p, s);
    ReadsFour(fs, 4, EmptyPlayer, s, s.(FlagDecal := p.FlagDecal), s.(FlagDecal := p.FlagDecal, WhiteFlag := p.WhiteFlag), s.(FlagDecal := p.FlagDecal, WhiteFlag := p.WhiteFlag, LeaderType := p.LeaderType), s.(FlagDecal := p.FlagDecal, WhiteFlag := p.WhiteFlag, LeaderType := p.LeaderType, CivType := p.CivType), PlayerField);
  }

  lemma PlayerTable2(p: Player)
    ensures |PlayerFields(p)| == 24
    ensures PlayerFields(p)[8] == Uint("Team", p.Team)
    ensures PlayerFields(p)[9] == Str("Handicap", p.Handicap)
    ensures PlayerFields(p)[10] == Str("Color", p.Color)
    ensures PlayerFields(p)[11] == Str("ArtStyle", p.ArtStyle)
  {
  }

  lemma PlayerPart2(p: Player, s: Player)
    requires InUint64(p.Team)
    requires CleanValue(p.Handicap) && s.Handicap == ""
    requires CleanValue(p.Color) && s.Color == ""
    requires CleanValue(p.ArtStyle) && s.ArtStyle == ""
    ensures FieldReads(s, PlayerFields(p)[8], PlayerField, s.(Team := p.Team))
    ensures FieldReads(s.(Team := p.Team), PlayerFields(p)[9], PlayerField, s.(Team := p.Team, Handicap := p.Handicap))
    ensures FieldReads(s.(Team := p.Team, Handicap := p.Handicap), PlayerFields(p)[10], PlayerField, s.(Team := p.Team, Handicap := p.Handicap, Color := p.Color))
    ensures FieldReads(s.(Team := p.Team, Handicap := p.Handicap, Color := p.Color), PlayerFields(p)[11], PlayerField, s.(Team := p.Team, Handicap := p.Handicap, Color := p.Color, ArtStyle := p.ArtStyle))
  {
    PlayerTable2(p);
    var s9 := s.(Team := p.Team);
    PlayerTeam(p, s);
    var s10 := s9.(Handicap := p.Handicap);
    PlayerHandicap(p, s9);
    var s11 := s10.(Color := p.Color);
    PlayerColor(p, s10);
    var s12 := s11.(ArtStyle := p.ArtStyle);
    PlayerArtStyle(p, s11);
  }

  lemma PlayerLink2(p: Player, s: Player)
    requires InUint64(p.Team)
    requires CleanValue(p.Handicap) && s.Handicap == ""
    requires CleanValue(p.Color) && s.Color == ""
    requires CleanValue(p.ArtStyle) && s.ArtStyle == ""
    requires ReadsTo(EmptyPlayer, PlayerFields(p)[..8], PlayerField, s)
    ensures ReadsTo(EmptyPlayer, PlayerFields(p)[..12], PlayerField, s.(Team := p.Team, Handicap := p.Handicap, Color := p.Color, ArtStyle := p.ArtStyle))
  {
    var fs := PlayerFields(p);
    PlayerPart2(p, s);
    ReadsFour(fs, 8, EmptyPlayer, s, s.(Team := p.Team), s.(Team := p.Team, Handicap := p.Handicap), s.(Team := p.Team, Handicap := p.Handicap, Color := p.Color), s.(Team := p.Team, Handicap := p.Handicap, Color := p.Color, ArtStyle := p.ArtStyle), PlayerField);
  }

  lemma PlayerTable3(p: Player)
    ensures |PlayerFields(p)| == 24
    ensures PlayerFields(p)[12] == Flag("PlayableCiv", p.PlayableCiv)
    ensures PlayerFields(p)[13] == Flag("MinorNationStatus", p.MinorNationStatus)
    ensures PlayerFields(p)[14] == Int("StartingGold", p.StartingGold)
    ensures PlayerFields(p)[15] == Flag("RandomStartLocation", p.RandomStartLocation)
  {
  }

  lemma PlayerPart3(p: Player, s: Player)
    requires InInt64(p.StartingGold)
    ensures FieldReads(s, PlayerFields(p)[12], PlayerField, s.(PlayableCiv := p.PlayableCiv))
    ensures FieldReads(s.(PlayableCiv := p.PlayableCiv), PlayerFields(p)[13], PlayerField, s.(PlayableCiv := p.PlayableCiv, MinorNationStatus := p.MinorNationStatus))
    ensures FieldReads(s.(PlayableCiv := p.PlayableCiv, MinorNationStatus := p.MinorNationStatus), PlayerFields(p)[14], PlayerField, s.(PlayableCiv := p.PlayableCiv, MinorNationStatus := p.MinorNationStatus, StartingGold := p.StartingGold))
    ensures FieldReads(s.(PlayableCiv := p.PlayableCiv, MinorNationStatus := p.MinorNationStatus, StartingGold := p.StartingGold), PlayerFields(p)[15], PlayerField, s.(PlayableCiv := p.PlayableCiv, MinorNationStatus := p.MinorNationStatus, StartingGold := p.StartingGold, RandomStartLocation := p.RandomStartLocation))
  {
    PlayerTable3(p);
    var s13 := s.(PlayableCiv := p.PlayableCiv);
    PlayerPlayableCiv(p, s);
    var s14 := s13.(MinorNationStatus := p.MinorNationStatus);
    PlayerMinorNationStatus(p, s13);
    var s15 := s14.(StartingGold := p.StartingGold);
    PlayerStartingGold(p, s14);
    var s16 := s15.(RandomStartLocation := p.RandomStartLocation);
    PlayerRandomStartLocation(p, s15);
  }

  lemma PlayerLink3(p: Player, s: Player)
    requires InInt64(p.StartingGold)
    requires ReadsTo(EmptyPlayer, PlayerFields(p)[..12], PlayerField, s)
    ensures ReadsTo(EmptyPlayer, PlayerFields(p)[..16], PlayerField, s.(PlayableCiv := p.PlayableCiv, MinorNationStatus := p.MinorNationStatus, StartingGold := p.StartingGold, RandomStartLocation := p.RandomStartLocation))
  {
    var fs := PlayerFields(p);
    PlayerPart3(p, s);
    ReadsFour(fs, 12, EmptyPlayer, s, s.(PlayableCiv := p.PlayableCiv), s.(PlayableCiv := p.PlayableCiv, MinorNationStatus := p.MinorNationStatus), s.(PlayableCiv := p.PlayableCiv, MinorNationStatus := p.MinorNationStatus, StartingGold := p.StartingGold), s.(PlayableCiv := p.PlayableCiv, MinorNationStatus := p.MinorNationStatus, StartingGold := p.StartingGold, RandomStartLocation := p.RandomStartLocation), PlayerField);
  }

  lemma PlayerTable4(p: Player)
    ensures |PlayerFields(p)| == 24
    ensures PlayerFields(p)[16] == Joined([("StartingX", Itoa(p.StartingX)), ("StartingY", Itoa(p.StartingY))])
    ensures PlayerFields(p)[17] == Str("StateReligion", p.StateReligion)
    ensures PlayerFields(p)[18] == Str("StartingEra", p.StartingEra)
    ensures PlayerFields(p)[19] == Strs("CityList", p.CityList)
  {
  }

  lemma PlayerPart4(p: Player, s: Player)
    requires InInt64(p.StartingX) && InInt64(p.StartingY)
    requires CleanValue(p.StateReligion) && s.StateReligion == ""
    requires CleanValue(p.StartingEra) && s.StartingEra == ""
    requires Texts(p.CityList) && s.CityList == []
    ensures FieldReads(s, PlayerFields(p)[16], PlayerField, s.(StartingX := p.StartingX, StartingY := p.StartingY))
    ensures FieldReads(s.(StartingX := p.StartingX, StartingY := p.StartingY), PlayerFields(p)[17], PlayerField, s.(StartingX := p.StartingX, StartingY := p.StartingY, StateReligion := p.StateReligion))
    ensures FieldReads(s.(StartingX := p.StartingX, StartingY := p.StartingY, StateReligion := p.StateReligion), PlayerFields(p)[18], PlayerField, s.(StartingX := p.StartingX, StartingY := p.StartingY, StateReligion := p.StateReligion, StartingEra := p.StartingEra))
    ensures FieldReads(s.(StartingX := p.StartingX, StartingY := p.StartingY, StateReligion := p.StateReligion, StartingEra := p.StartingEra), PlayerFields(p)[19], PlayerField, s.(StartingX := p.StartingX, StartingY := p.StartingY, StateReligion := p.StateReligion, StartingEra := p.StartingEra, CityList := p.CityList))
  {
    PlayerTable4(p);
    var s17 := s.(StartingX := p.StartingX, StartingY := p.StartingY);
    PlayerStart(p, s);
    var s18 := s17.(StateReligion := p.StateReligion);
    PlayerStateReligion(p, s17);
    var s19 := s18.(StartingEra := p.StartingEra);
    PlayerStartingEra(p, s18);
    var s20 := s19.(CityList := p.CityList);
    PlayerCityList(p, s19);
  }

  lemma PlayerLink4(p: Player, s: Player)
    requires InInt64(p.StartingX) && InInt64(p.StartingY)
    requires CleanValue(p.StateReligion) && s.StateReligion == ""
    requires CleanValue(p.StartingEra) && s.StartingEra == ""
    requires Texts(p.CityList) && s.CityList == []
    requires ReadsTo(EmptyPlayer, PlayerFields(p)[..16], PlayerField, s)
    ensures ReadsTo(EmptyPlayer, PlayerFields(p)[..20], PlayerField, s.(StartingX := p.StartingX, StartingY := p.StartingY, StateReligion := p.StateReligion, StartingEra := p.StartingEra, CityList := p.CityList))
  {
    var fs := PlayerFields(p);
    PlayerPart4(p, s);
    ReadsFour(fs, 16, EmptyPlayer, s, s.(StartingX := p.StartingX, StartingY := p.StartingY), s.(StartingX := p.StartingX, StartingY := p.StartingY, StateReligion := p.StateReligion), s.(StartingX := p.StartingX, StartingY := p.StartingY, StateReligion := p.StateReligion, StartingEra := p.StartingEra), s.(StartingX := p.StartingX, StartingY := p.StartingY, StateReligion := p.StateReligion, StartingEra := p.StartingEra, CityList := p.CityList), PlayerField);
  }

  lemma PlayerTable5(p: Player)
    ensures |PlayerFields(p)| == 24
    ensures PlayerFields(p)[20] == Strs("CivicOption", p.CivicOption)
    ensures PlayerFields(p)[21] == Strs("Civic", p.Civic)
    ensures PlayerFields(p)[22] == Uints("AttitudePlayer", p.AttitudePlayer)
    ensures PlayerFields(p)[23] == Ints("AttitudeExtra", p.AttitudeExtra)
  {
  }

  lemma PlayerPart5(p: Player, s: Player)
    requires Texts(p.CivicOption) && s.CivicOption == []
    requires Texts(p.Civic) && s.Civic == []
    requires Uint64s(p.AttitudePlayer) && s.AttitudePlayer == []
    requires Int64s(p.AttitudeExtra) && s.AttitudeExtra == []
    ensures FieldReads(s, PlayerFields(p)[20], PlayerField, s.(CivicOption := p.CivicOption))
    ensures FieldReads(s.(CivicOption := p.CivicOption), PlayerFields(p)[21], PlayerField, s.(CivicOption := p.CivicOption, Civic := p.Civic))
    ensures FieldReads(s.(CivicOption := p.CivicOption, Civic := p.Civic), PlayerFields(p)[22], PlayerField, s.(CivicOption := p.CivicOption, Civic := p.Civic, AttitudePlayer := p.AttitudePlayer))
    ensures FieldReads(s.(CivicOption := p.CivicOption, Civic := p.Civic, AttitudePlayer := p.AttitudePlayer), PlayerFields(p)[23], PlayerField, s.(CivicOption := p.CivicOption, Civic := p.Civic, AttitudePlayer := p.AttitudePlayer, AttitudeExtra := p.AttitudeExtra))
  {
    PlayerTable5(p);
    var s21 := s.(CivicOption := p.CivicOption);
    PlayerCivicOption(p, s);
    var s22 := s21.(Civic := p.Civic);
    PlayerCivic(p, s21);
    var s23 := s22.(AttitudePlayer := p.AttitudePlayer);
    PlayerAttitudePlayer(p, s22);
    var s24 := s23.(AttitudeExtra := p.AttitudeExtra);
    PlayerAttitudeExtra(p, s23);
  }

  lemma PlayerLink5(p: Player, s: Player)
    requires Texts(p.CivicOption) && s.CivicOption == []
    requires Texts(p.Civic) && s.Civic == []
    requires Uint64s(p.AttitudePlayer) && s.AttitudePlayer == []
    requires Int64s(p.AttitudeExtra) && s.AttitudeExtra == []
    requires ReadsTo(EmptyPlayer, PlayerFields(p)[..20], PlayerField, s)
    ensures ReadsTo(EmptyPlayer, PlayerFields(p)[..24], PlayerField, s.(CivicOption := p.CivicOption, Civic := p.Civic, AttitudePlayer := p.AttitudePlayer, AttitudeExtra := p.AttitudeExtra))
  {
    var fs := PlayerFields(p);
    PlayerPart5(p, s);
    ReadsFour(fs, 20, EmptyPlayer, s, s.(CivicOption := p.CivicOption), s.(CivicOption := p.CivicOption, Civic := p.Civic), s.(CivicOption := p.CivicOption, Civic := p.Civic, AttitudePlayer := p.AttitudePlayer), s.(CivicOption := p.CivicOption, Civic := p.Civic, AttitudePlayer := p.AttitudePlayer, AttitudeExtra := p.AttitudeExtra), PlayerField);
  }

  /** The rows of a Player section take the zero player to the player written. */
  lemma PlayerRead(p: Player)
    requires PlayerOk(p)
    ensures ReadsTo(EmptyPlayer, PlayerFields(p), PlayerField, p)
  {
    var s0 := EmptyPlayer;
    PlayerLink0(p, s0);
    var s1 := s0.(CivDesc := p.CivDesc, CivShortDesc := p.CivShortDesc, LeaderName := p.LeaderName, CivAdjective := p.CivAdjective);
    PlayerLink1(p, s1);
    var s2 := s1.(FlagDecal := p.FlagDecal, WhiteFlag := p.WhiteFlag, LeaderType := p.LeaderType, CivType := p.CivType);
    PlayerLink2(p, s2);
    var s3 := s2.(Team := p.Team, Handicap := p.Handicap, Color := p.Color, ArtStyle := p.ArtStyle);
    PlayerLink3(p, s3);
    var s4 := s3.(PlayableCiv := p.PlayableCiv, MinorNationStatus := p.MinorNationStatus, StartingGold := p.StartingGold, RandomStartLocation := p.RandomStartLocation);
    PlayerLink4(p, s4);
    var s5 := s4.(StartingX := p.StartingX, StartingY := p.StartingY, StateReligion := p.StateReligion, StartingEra := p.StartingEra, CityList := p.CityList);
    PlayerLink5(p, s5);
    var s6 := s5.(CivicOption := p.CivicOption, Civic := p.Civic, AttitudePlayer := p.AttitudePlayer, AttitudeExtra := p.AttitudeExtra);
    ReadsAll(s0, PlayerFields(p), PlayerField, s6);
  }

}
