/**
 * The fields of a Plot section read back: the rows Plot.ToWbFormat writes
 * before its units, applied by Plot.Unpack, give the fields back (Key, Law
 * and field lemmas as for the Game section), and so do its TeamReveal rows.
 */
module WbReadPlot {
  import opened Wrappers
  import opened Strconv
  import opened WbStructs
  import opened WbFormat
  import opened WbRows
  import opened WbEntities

  lemma PlotXKey()
    ensures CleanKey("x")
  {
    CleanKeyByChars("x");
  }

  lemma PlotXLaw(x: Plot, n: int)
    requires Count(n)
    ensures PlotField(x, "x", Itoa(n)) == Success(x.(X := n))
  {
    NumberItoa(n);
  }

  lemma PlotYKey()
    ensures CleanKey("y")
  {
    CleanKeyByChars("y");
  }

  lemma PlotYLaw(x: Plot, n: int)
    requires Count(n)
    ensures PlotField(x, "y", Itoa(n)) == Success(x.(Y := n))
  {
    NumberItoa(n);
  }

  lemma PlotXY(p: Plot, s: Plot)
    requires Count(p.X) && Count(p.Y)
    ensures FieldReads(s, Joined([("x", Itoa(p.X)), ("y", Itoa(p.Y))]), PlotField, s.(X := p.X, Y := p.Y))
  {
    PlotXKey();
    PlotYKey();
    PlotXLaw(s, p.X);
    PlotYLaw(s.(X := p.X), p.Y);
    ItoaClean(p.X);
    ItoaClean(p.Y);
    PairReads(s, "x", Itoa(p.X), "y", Itoa(p.Y), PlotField, s.(X := p.X), s.(X := p.X, Y := p.Y));
  }

  lemma PlotLandmarkKey()
    ensures CleanKey("Landmark")
  {
    CleanKeyByChars("Landmark");
  }

  lemma PlotLandmarkLaw(x: Plot, v: string)
    ensures PlotField(x, "Landmark", v) == Success(x.(Landmark := v))
  {
  }

  lemma PlotLandmark(p: Plot, s: Plot)
    requires CleanValue(p.Landmark) && s.Landmark == ""
    ensures FieldReads(s, Str("Landmark", p.Landmark), PlotField, s.(Landmark := p.Landmark))
  {
    PlotLandmarkKey();
    PlotLandmarkLaw(s, p.Landmark);
    StrReads(s, "Landmark", p.Landmark, PlotField, s.(Landmark := p.Landmark));
  }

  lemma PlotScriptDataKey()
    ensures CleanKey("ScriptData")
  {
    CleanKeyByChars("ScriptData");
  }

  lemma PlotScriptDataLaw(x: Plot, v: string)
    ensures PlotField(x, "ScriptData", v) == Success(x.(ScriptData := v))
  {
  }

  lemma PlotScriptData(p: Plot, s: Plot)
    requires CleanValue(p.ScriptData) && s.ScriptData == ""
    ensures FieldReads(s, Str("ScriptData", p.ScriptData), PlotField, s.(ScriptData := p.ScriptData))
  {
    PlotScriptDataKey();
    PlotScriptDataLaw(s, p.ScriptData);
    StrReads(s, "ScriptData", p.ScriptData, PlotField, s.(ScriptData := p.ScriptData));
  }

  lemma PlotStartingPlotKey()
    ensures CleanKey("StartingPlot")
  {
    CleanKeyByChars("StartingPlot");
  }

  lemma PlotStartingPlotLaw(x: Plot, b: bool)
    ensures PlotField(x, "StartingPlot", if b then "1" else "0") == Success(x.(StartingPlot := b))
  {
  }

  lemma PlotStartingPlot(p: Plot, s: Plot)
    ensures FieldReads(s, Flag("StartingPlot", p.StartingPlot), PlotField, s.(StartingPlot := p.StartingPlot))
  {
    PlotStartingPlotKey();
    PlotStartingPlotLaw(s, p.StartingPlot);
    FlagReads(s, "StartingPlot", p.StartingPlot, PlotField, s.(StartingPlot := p.StartingPlot));
  }

  lemma PlotBonusTypeKey()
    ensures CleanKey("BonusType")
  {
    CleanKeyByChars("BonusType");
  }

  lemma PlotBonusTypeLaw(x: Plot, v: string)
    ensures PlotField(x, "BonusType", v) == Success(x.(BonusType := v))
  {
  }

  lemma PlotBonusType(p: Plot, s: Plot)
    requires CleanValue(p.BonusType) && s.BonusType == ""
    ensures FieldReads(s, Str("BonusType", p.BonusType), PlotField, s.(BonusType := p.BonusType))
  {
    PlotBonusTypeKey();
    PlotBonusTypeLaw(s, p.BonusType);
    StrReads(s, "BonusType", p.BonusType, PlotField, s.(BonusType := p.BonusType));
  }

  lemma PlotImprovementTypeKey()
    ensures CleanKey("ImprovementType")
  {
    CleanKeyByChars("ImprovementType");
  }

  lemma PlotImprovementTypeLaw(x: Plot, v: string)
    ensures PlotField(x, "ImprovementType", v) == Success(x.(ImprovementType := v))
  {
  }

  lemma PlotImprovementType(p: Plot, s: Plot)
    requires CleanValue(p.ImprovementType) && s.ImprovementType == ""
    ensures FieldReads(s, Str("ImprovementType", p.ImprovementType), PlotField, s.(ImprovementType := p.ImprovementType))
  {
    PlotImprovementTypeKey();
    PlotImprovementTypeLaw(s, p.ImprovementType);
    StrReads(s, "ImprovementType", p.ImprovementType, PlotField, s.(ImprovementType := p.ImprovementType));
  }

  lemma PlotRouteTypeKey()
    ensures CleanKey("RouteType")
  {
    CleanKeyByChars("RouteType");
  }

  lemma PlotRouteTypeLaw(x: Plot, v: string)
    ensures PlotField(x, "RouteType", v) == Success(x.(RouteType := v))
  {
  }

  lemma PlotRouteType(p: Plot, s: Plot)
    requires CleanValue(p.RouteType) && s.RouteType == ""
    ensures FieldReads(s, Str("RouteType", p.RouteType), PlotField, s.(RouteType := p.RouteType))
  {
    PlotRouteTypeKey();
    PlotRouteTypeLaw(s, p.RouteType);
    StrReads(s, "RouteType", p.RouteType, PlotField, s.(RouteType := p.RouteType));
  }

  lemma PlotTerrainTypeKey()
    ensures CleanKey("TerrainType")
  {
    CleanKeyByChars("TerrainType");
  }

  lemma PlotTerrainTypeLaw(x: Plot, v: string)
    ensures PlotField(x, "TerrainType", v) == Success(x.(TerrainType := v))
  {
  }

  lemma PlotTerrainType(p: Plot, s: Plot)
    requires CleanValue(p.TerrainType) && s.TerrainType == ""
    ensures FieldReads(s, Str("TerrainType", p.TerrainType), PlotField, s.(TerrainType := p.TerrainType))
  {
    PlotTerrainTypeKey();
    PlotTerrainTypeLaw(s, p.TerrainType);
    StrReads(s, "TerrainType", p.TerrainType, PlotField, s.(TerrainType := p.TerrainType));
  }

  lemma PlotPlotTypeKey()
    ensures CleanKey("PlotType")
  {
    CleanKeyByChars("PlotType");
  }

  lemma PlotPlotTypeLaw(x: Plot, n: int)
    requires InUint64(n)
    ensures PlotField(x, "PlotType", Itoa(Signed(n))) == Success(x.(PlotType := n))
  {
    NumberItoa(Signed(n));
  }

  lemma PlotPlotType(p: Plot, s: Plot)
    requires InUint64(p.PlotType)
    ensures FieldReads(s, Uint("PlotType", p.PlotType), PlotField, s.(PlotType := p.PlotType))
  {
    PlotPlotTypeKey();
    PlotPlotTypeLaw(s, p.PlotType);
    NumberReads(s, Uint("PlotType", p.PlotType), PlotField, s.(PlotType := p.PlotType));
  }

  lemma PlotRiverWEDirectionKey()
    ensures CleanKey("RiverWEDirection")
  {
    CleanKeyByChars("RiverWEDirection");
  }

  lemma PlotRiverWEDirectionLaw(x: Plot, n: int)
    requires InInt64(n)
    ensures PlotField(x, "RiverWEDirection", Itoa(n)) == Success(x.(RiverWEDirection := n))
  {
    NumberItoa(n);
  }

  lemma PlotRiverWEDirection(p: Plot, s: Plot)
    requires InInt64(p.RiverWEDirection)
    ensures FieldReads(s, Int("RiverWEDirection", p.RiverWEDirection), PlotField, s.(RiverWEDirection := p.RiverWEDirection))
  {
    PlotRiverWEDirectionKey();
    PlotRiverWEDirectionLaw(s, p.RiverWEDirection);
    NumberReads(s, Int("RiverWEDirection", p.RiverWEDirection), PlotField, s.(RiverWEDirection := p.RiverWEDirection));
  }

  lemma PlotRiverNSDirectionKey()
    ensures CleanKey("RiverNSDirection")
  {
    CleanKeyByChars("RiverNSDirection");
  }

  lemma PlotRiverNSDirectionLaw(x: Plot, n: int)
    requires InInt64(n)
    ensures PlotField(x, "RiverNSDirection", Itoa(n)) == Success(x.(RiverNSDirection := n))
  {
    NumberItoa(n);
  }

  lemma PlotRiverNSDirection(p: Plot, s: Plot)
    requires InInt64(p.RiverNSDirection)
    ensures FieldReads(s, Int("RiverNSDirection", p.RiverNSDirection), PlotField, s.(RiverNSDirection := p.RiverNSDirection))
  {
    PlotRiverNSDirectionKey();
    PlotRiverNSDirectionLaw(s, p.RiverNSDirection);
    NumberReads(s, Int("RiverNSDirection", p.RiverNSDirection), PlotField, s.(RiverNSDirection := p.RiverNSDirection));
  }

  lemma PlotTeamRevealKey()
    ensures CleanKey("TeamReveal")
  {
    CleanKeyByChars("TeamReveal");
  }

  lemma PlotTeamRevealLaw(x: Plot, n: int)
    requires InUint64(n)
    ensures PlotField(x, "TeamReveal", Itoa(Signed(n))) == Success(x.(TeamReveal := x.TeamReveal + [n]))
  {
    NumberItoa(Signed(n));
  }

  function PlotTeamRevealOf(x: Plot): seq<int> { x.TeamReveal }

  function PlotWithTeamReveal(x: Plot, v: seq<int>): Plot { x.(TeamReveal := v) }

  lemma PlotTeamRevealLens()
    ensures Lens(PlotTeamRevealOf, PlotWithTeamReveal)
  {
  }

  lemma PlotTeamRevealAppends(numbers: seq<int>)
    requires Uint64s(numbers)
    ensures AppendsUnsigneds(PlotField, "TeamReveal", numbers, PlotTeamRevealOf, PlotWithTeamReveal)
  {
    forall x: Plot, i | 0 <= i < |numbers|
      ensures PlotField(x, "TeamReveal", Itoa(Signed(numbers[i]))) == Success(PlotWithTeamReveal(x, PlotTeamRevealOf(x) + [numbers[i]]))
    {
      PlotTeamRevealLaw(x, numbers[i]);
    }
  }

  lemma PlotTeamRevealAppended(p: Plot, s: Plot)
    requires Uint64s(p.TeamReveal)
    ensures FieldReads(s, Uints("TeamReveal", p.TeamReveal), PlotField, PlotWithTeamReveal(s, PlotTeamRevealOf(s) + p.TeamReveal))
  {
    PlotTeamRevealLens();
    PlotTeamRevealAppends(p.TeamReveal);
    PlotTeamRevealKey();
    UnsignedsReads(s, Uints("TeamReveal", p.TeamReveal), PlotField, PlotTeamRevealOf, PlotWithTeamReveal);
  }

  lemma PlotTeamReveal(p: Plot, s: Plot)
    requires Uint64s(p.TeamReveal) && s.TeamReveal == []
    ensures FieldReads(s, Uints("TeamReveal", p.TeamReveal), PlotField, s.(TeamReveal := p.TeamReveal))
  {
    PlotTeamRevealAppended(p, s);
    assert PlotWithTeamReveal(s, PlotTeamRevealOf(s) + p.TeamReveal) == s.(TeamReveal := p.TeamReveal) by {
      assert [] + p.TeamReveal == p.TeamReveal;
    }
  }

  lemma PlotFeatureTypeLaw(x: Plot, v: string)
    ensures PlotField(x, "FeatureType", v) == Success(x.(FeatureType := x.FeatureType + [v]))
  {
  }

  lemma PlotFeatureVarietyLaw(x: Plot, v: string)
    ensures PlotField(x, "FeatureVariety", v) == Success(x.(FeatureVariety := x.FeatureVariety + [v]))
  {
  }

  lemma PlotHeadReadTable(p: Plot)
    ensures |PlotHeadFields(p)| == 3
    ensures PlotHeadFields(p)[0] == Joined([("x", Itoa(p.X)), ("y", Itoa(p.Y))])
    ensures PlotHeadFields(p)[1] == Str("Landmark", p.Landmark)
    ensures PlotHeadFields(p)[2] == Str("ScriptData", p.ScriptData)
  {
  }

  lemma PlotHeadReadPart(p: Plot, s: Plot)
    requires Count(p.X) && Count(p.Y)
    requires CleanValue(p.Landmark) && s.Landmark == ""
    requires CleanValue(p.ScriptData) && s.ScriptData == ""
    ensures FieldReads(s, PlotHeadFields(p)[0], PlotField, s.(X := p.X, Y := p.Y))
    ensures FieldReads(s.(X := p.X, Y := p.Y), PlotHeadFields(p)[1], PlotField, s.(X := p.X, Y := p.Y, Landmark := p.Landmark))
    ensures FieldReads(s.(X := p.X, Y := p.Y, Landmark := p.Landmark), PlotHeadFields(p)[2], PlotField, s.(X := p.X, Y := p.Y, Landmark := p.Landmark, ScriptData := p.ScriptData))
  {
    PlotHeadReadTable(p);
    var s1 := s.(X := p.X, Y := p.Y);
    PlotXY(p, s);
    var s2 := s1.(Landmark := p.Landmark);
    PlotLandmark(p, s1);
    var s3 := s2.(ScriptData := p.ScriptData);
    PlotScriptData(p, s2);
  }

  /** The coordinates, the landmark and the script data read back. */
  lemma PlotHeadRead(p: Plot, s: Plot)
    requires Count(p.X) && Count(p.Y)
    requires CleanValue(p.Landmark) && s.Landmark == ""
    requires CleanValue(p.ScriptData) && s.ScriptData == ""
    ensures ReadsTo(s, PlotHeadFields(p), PlotField, s.(X := p.X, Y := p.Y, Landmark := p.Landmark, ScriptData := p.ScriptData))
  {
    PlotHeadReadPart(p, s);
    PlotHeadReadTable(p);
    ReadsAllThree(PlotHeadFields(p), s, s.(X := p.X, Y := p.Y), s.(X := p.X, Y := p.Y, Landmark := p.Landmark), s.(X := p.X, Y := p.Y, Landmark := p.Landmark, ScriptData := p.ScriptData), PlotField);
  }

  lemma PlotMiddleReadTable(p: Plot)
    ensures |PlotMiddleFields(p)| == 3
    ensures PlotMiddleFields(p)[0] == Flag("StartingPlot", p.StartingPlot)
    ensures PlotMiddleFields(p)[1] == Str("BonusType", p.BonusType)
    ensures PlotMiddleFields(p)[2] == Str("ImprovementType", p.ImprovementType)
  {
  }

  lemma PlotMiddleReadPart(p: Plot, s: Plot)
    requires CleanValue(p.BonusType) && s.BonusType == ""
    requires CleanValue(p.ImprovementType) && s.ImprovementType == ""
    ensures FieldReads(s, PlotMiddleFields(p)[0], PlotField, s.(StartingPlot := p.StartingPlot))
    ensures FieldReads(s.(StartingPlot := p.StartingPlot), PlotMiddleFields(p)[1], PlotField, s.(StartingPlot := p.StartingPlot, BonusType := p.BonusType))
    ensures FieldReads(s.(StartingPlot := p.StartingPlot, BonusType := p.BonusType), PlotMiddleFields(p)[2], PlotField, s.(StartingPlot := p.StartingPlot, BonusType := p.BonusType, ImprovementType := p.ImprovementType))
  {
    PlotMiddleReadTable(p);
    var s1 := s.(StartingPlot := p.StartingPlot);
    PlotStartingPlot(p, s);
    var s2 := s1.(BonusType := p.BonusType);
    PlotBonusType(p, s1);
    var s3 := s2.(ImprovementType := p.ImprovementType);
    PlotImprovementType(p, s2);
  }

  /** The starting flag, the bonus and the improvement read back. */
  lemma PlotMiddleRead(p: Plot, s: Plot)
    requires CleanValue(p.BonusType) && s.BonusType == ""
    requires CleanValue(p.ImprovementType) && s.ImprovementType == ""
    ensures ReadsTo(s, PlotMiddleFields(p), PlotField, s.(StartingPlot := p.StartingPlot, BonusType := p.BonusType, ImprovementType := p.ImprovementType))
  {
    PlotMiddleReadPart(p, s);
    PlotMiddleReadTable(p);
    ReadsAllThree(PlotMiddleFields(p), s, s.(StartingPlot := p.StartingPlot), s.(StartingPlot := p.StartingPlot, BonusType := p.BonusType), s.(StartingPlot := p.StartingPlot, BonusType := p.BonusType, ImprovementType := p.ImprovementType), PlotField);
  }

  lemma PlotTailReadTable(p: Plot)
    ensures |PlotTailFields(p)| == 3
    ensures PlotTailFields(p)[0] == Str("RouteType", p.RouteType)
    ensures PlotTailFields(p)[1] == Str("TerrainType", p.TerrainType)
    ensures PlotTailFields(p)[2] == Uint("PlotType", p.PlotType)
  {
  }

  lemma PlotTailReadPart(p: Plot, s: Plot)
    requires CleanValue(p.RouteType) && s.RouteType == ""
    requires CleanValue(p.TerrainType) && s.TerrainType == ""
    requires InUint64(p.PlotType)
    ensures FieldReads(s, PlotTailFields(p)[0], PlotField, s.(RouteType := p.RouteType))
    ensures FieldReads(s.(RouteType := p.RouteType), PlotTailFields(p)[1], PlotField, s.(RouteType := p.RouteType, TerrainType := p.TerrainType))
    ensures FieldReads(s.(RouteType := p.RouteType, TerrainType := p.TerrainType), PlotTailFields(p)[2], PlotField, s.(RouteType := p.RouteType, TerrainType := p.TerrainType, PlotType := p.PlotType))
  {
    PlotTailReadTable(p);
    var s1 := s.(RouteType := p.RouteType);
    PlotRouteType(p, s);
    var s2 := s1.(TerrainType := p.TerrainType);
    PlotTerrainType(p, s1);
    var s3 := s2.(PlotType := p.PlotType);
    PlotPlotType(p, s2);
  }

  /** The route, the terrain and the plot type read back. */
  lemma PlotTailRead(p: Plot, s: Plot)
    requires CleanValue(p.RouteType) && s.RouteType == ""
    requires CleanValue(p.TerrainType) && s.TerrainType == ""
    requires InUint64(p.PlotType)
    ensures ReadsTo(s, PlotTailFields(p), PlotField, s.(RouteType := p.RouteType, TerrainType := p.TerrainType, PlotType := p.PlotType))
  {
    PlotTailReadPart(p, s);
    PlotTailReadTable(p);
    ReadsAllThree(PlotTailFields(p), s, s.(RouteType := p.RouteType), s.(RouteType := p.RouteType, TerrainType := p.TerrainType), s.(RouteType := p.RouteType, TerrainType := p.TerrainType, PlotType := p.PlotType), PlotField);
  }

}
