/**
 * All the fields of a Plot section read back: the head, the two river
 * flags with their directions (written only when the flag is set), the
 * middle, one `FeatureType=…,FeatureVariety=…` line per feature, and the
 * tail. The units, the cities and TeamReveal follow in the section; they
 * are read by the scanner's own states.
 */
module WbReadPlotFields {
  import opened Wrappers
  import opened Strconv
  import opened WbStructs
  import opened WbFormat
  import opened WbRows
  import opened WbEntities
  import opened WbReadPlot

  /**
   * A river flag that is not set is not written, so its direction is read
   * back only when it is the zero value.
   */
  predicate RiverOk(flag: bool, direction: int) {
    InInt64(direction) && (!flag ==> direction == 0)
  }

  /** The feature lines pair the two lists position by position. */
  predicate FeaturesOk(types: seq<string>, varieties: seq<string>) {
    && |types| == |varieties|
    && (forall i :: 0 <= i < |types| ==> CleanValue(types[i]))
    && (forall i :: 0 <= i < |varieties| ==> CleanValue(varieties[i]))
  }

  /** A plot whose fields, before its units, read back. */
  predicate PlotFieldsOk(p: Plot) {
    && Count(p.X) && Count(p.Y) && CleanValue(p.Landmark) && CleanValue(p.ScriptData)
    && RiverOk(p.IsNOfRiver, p.RiverWEDirection) && RiverOk(p.IsWOfRiver, p.RiverNSDirection)
    && CleanValue(p.BonusType) && CleanValue(p.ImprovementType)
    && FeaturesOk(p.FeatureType, p.FeatureVariety)
    && CleanValue(p.RouteType) && CleanValue(p.TerrainType) && InUint64(p.PlotType)
  }

  /** No section tag starts with a lower-case letter. */
  lemma LowerCaseNoTag(token: string)
    requires token != [] && 'a' <= token[0] <= 'z'
    ensures token !in Tags
  {
  }

  lemma NorthRiverToken()
    ensures CleanKey("isNOfRiver") && ' ' !in "isNOfRiver" && "isNOfRiver" !in Tags
  {
    CleanKeyByChars("isNOfRiver");
    LowerCaseNoTag("isNOfRiver");
  }

  lemma WestRiverToken()
    ensures CleanKey("isWOfRiver") && ' ' !in "isWOfRiver" && "isWOfRiver" !in Tags
  {
    CleanKeyByChars("isWOfRiver");
    LowerCaseNoTag("isWOfRiver");
  }

  lemma NorthRiverLaw(x: Plot)
    ensures PlotField(x, "isNOfRiver", "1") == Success(x.(IsNOfRiver := true))
  {
  }

  lemma WestRiverLaw(x: Plot)
    ensures PlotField(x, "isWOfRiver", "1") == Success(x.(IsWOfRiver := true))
  {
  }

  /** The river north of the plot: its flag and west-east direction, when set. */
  lemma NorthRiverRead(p: Plot, s: Plot)
    requires RiverOk(p.IsNOfRiver, p.RiverWEDirection)
    requires !s.IsNOfRiver && s.RiverWEDirection == 0
    ensures ReadsTo(s, RiverFields(p.IsNOfRiver, "isNOfRiver", "RiverWEDirection", p.RiverWEDirection), PlotField,
                    s.(IsNOfRiver := p.IsNOfRiver, RiverWEDirection := p.RiverWEDirection))
  {
    var fs := RiverFields(p.IsNOfRiver, "isNOfRiver", "RiverWEDirection", p.RiverWEDirection);
    if p.IsNOfRiver {
      var s1 := s.(IsNOfRiver := true);
      NorthRiverToken();
      NorthRiverLaw(s);
      LineReads(s, "isNOfRiver", PlotField, s1);
      PlotRiverWEDirection(p, s1);
      ReadsAllTwo(fs, s, s1, s1.(RiverWEDirection := p.RiverWEDirection), PlotField);
    } else {
      ReadsEmpty(s, PlotField);
    }
  }

  /** The river west of the plot: its flag and north-south direction, when set. */
  lemma WestRiverRead(p: Plot, s: Plot)
    requires RiverOk(p.IsWOfRiver, p.RiverNSDirection)
    requires !s.IsWOfRiver && s.RiverNSDirection == 0
    ensures ReadsTo(s, RiverFields(p.IsWOfRiver, "isWOfRiver", "RiverNSDirection", p.RiverNSDirection), PlotField,
                    s.(IsWOfRiver := p.IsWOfRiver, RiverNSDirection := p.RiverNSDirection))
  {
    var fs := RiverFields(p.IsWOfRiver, "isWOfRiver", "RiverNSDirection", p.RiverNSDirection);
    if p.IsWOfRiver {
      var s1 := s.(IsWOfRiver := true);
      WestRiverToken();
      WestRiverLaw(s);
      LineReads(s, "isWOfRiver", PlotField, s1);
      PlotRiverNSDirection(p, s1);
      ReadsAllTwo(fs, s, s1, s1.(RiverNSDirection := p.RiverNSDirection), PlotField);
    } else {
      ReadsEmpty(s, PlotField);
    }
  }

  lemma FeatureKeys()
    ensures CleanKey("FeatureType") && CleanKey("FeatureVariety")
  {
    CleanKeyByChars("FeatureType");
    CleanKeyByChars("FeatureVariety");
  }

  /** One feature line appends its type and its variety. */
  lemma FeatureRead(e: Plot, t: string, v: string)
    requires CleanValue(t) && CleanValue(v)
    ensures FieldReads(e, Joined([("FeatureType", t), ("FeatureVariety", v)]), PlotField,
                       e.(FeatureType := e.FeatureType + [t], FeatureVariety := e.FeatureVariety + [v]))
  {
    var e1 := e.(FeatureType := e.FeatureType + [t]);
    FeatureKeys();
    PlotFeatureTypeLaw(e, t);
    PlotFeatureVarietyLaw(e1, v);
    PairReads(e, "FeatureType", t, "FeatureVariety", v, PlotField, e1, e1.(FeatureVariety := e.FeatureVariety + [v]));
  }

  lemma FeatureFieldsPrefix(types: seq<string>, varieties: seq<string>, n: nat)
    requires |varieties| >= |types| && n <= |types|
    ensures FeatureFields(types, varieties)[..n] == FeatureFields(types[..n], varieties[..n])
  {
  }

  lemma SnocLast<T>(xs: seq<T>)
    requires xs != []
    ensures xs[..|xs| - 1] + [xs[|xs| - 1]] == xs
  {
  }

  /** The feature lines read one feature further. */
  lemma FeaturesNext(s: Plot, types: seq<string>, varieties: seq<string>)
    requires FeaturesOk(types, varieties) && types != []
    requires ReadsTo(s, FeatureFields(types[..|types| - 1], varieties[..|types| - 1]), PlotField,
                     s.(FeatureType := types[..|types| - 1], FeatureVariety := varieties[..|types| - 1]))
    ensures ReadsTo(s, FeatureFields(types, varieties), PlotField, s.(FeatureType := types, FeatureVariety := varieties))
  {
    var n := |types| - 1;
    var fs := FeatureFields(types, varieties);
    var e := s.(FeatureType := types[..n], FeatureVariety := varieties[..n]);
    var target := s.(FeatureType := types, FeatureVariety := varieties);
    FeatureFieldsPrefix(types, varieties, n);
    FeatureRead(e, types[n], varieties[n]);
    SnocLast(types);
    SnocLast(varieties);
    ReadsNext(fs, n, s, e, target, PlotField);
    ReadsAll(s, fs, PlotField, target);
  }

  /** The feature lines of two lists of the same length append both lists. */
  lemma {:induction false} FeaturesRead(s: Plot, types: seq<string>, varieties: seq<string>)
    requires FeaturesOk(types, varieties)
    requires s.FeatureType == [] && s.FeatureVariety == []
    ensures ReadsTo(s, FeatureFields(types, varieties), PlotField, s.(FeatureType := types, FeatureVariety := varieties))
    decreases |types|
  {
    if types == [] {
      ReadsEmpty(s, PlotField);
      assert s.(FeatureType := types, FeatureVariety := varieties) == s;
    } else {
      var n := |types| - 1;
      FeaturesRead(s, types[..n], varieties[..n]);
      FeaturesNext(s, types, varieties);
    }
  }

  /** The fields of a plot up to its middle, read from the zero plot. */
  lemma PlotUpToMiddle(p: Plot)
    requires PlotFieldsOk(p)
    ensures ReadsTo(EmptyPlot,
                    PlotHeadFields(p)
                      + RiverFields(p.IsNOfRiver, "isNOfRiver", "RiverWEDirection", p.RiverWEDirection)
                      + RiverFields(p.IsWOfRiver, "isWOfRiver", "RiverNSDirection", p.RiverNSDirection)
                      + PlotMiddleFields(p),
                    PlotField,
                    EmptyPlot.(X := p.X, Y := p.Y, Landmark := p.Landmark, ScriptData := p.ScriptData,
                               IsNOfRiver := p.IsNOfRiver, RiverWEDirection := p.RiverWEDirection,
                               IsWOfRiver := p.IsWOfRiver, RiverNSDirection := p.RiverNSDirection,
                               StartingPlot := p.StartingPlot, BonusType := p.BonusType,
                               ImprovementType := p.ImprovementType))
  {
    var north := RiverFields(p.IsNOfRiver, "isNOfRiver", "RiverWEDirection", p.RiverWEDirection);
    var west := RiverFields(p.IsWOfRiver, "isWOfRiver", "RiverNSDirection", p.RiverNSDirection);
    var s0 := EmptyPlot;
    var s1 := s0.(X := p.X, Y := p.Y, Landmark := p.Landmark, ScriptData := p.ScriptData);
    var s2 := s1.(IsNOfRiver := p.IsNOfRiver, RiverWEDirection := p.RiverWEDirection);
    var s3 := s2.(IsWOfRiver := p.IsWOfRiver, RiverNSDirection := p.RiverNSDirection);
    var s4 := s3.(StartingPlot := p.StartingPlot, BonusType := p.BonusType, ImprovementType := p.ImprovementType);
    PlotHeadRead(p, s0);
    NorthRiverRead(p, s1);
    ReadsAppend(s0, PlotHeadFields(p), s1, north, s2, PlotField);
    WestRiverRead(p, s2);
    ReadsAppend(s0, PlotHeadFields(p) + north, s2, west, s3, PlotField);
    PlotMiddleRead(p, s3);
    ReadsAppend(s0, PlotHeadFields(p) + north + west, s3, PlotMiddleFields(p), s4, PlotField);
  }

  /**
   * The rows Plot.ToWbFormat writes before its units take the zero plot to
   * the plot written, with no units, no cities and no TeamReveal yet.
   */
  lemma PlotFieldsRead(p: Plot)
    requires PlotFieldsOk(p)
    ensures ReadsTo(EmptyPlot, PlotFields(p), PlotField, p.(Units := [], Cities := [], TeamReveal := []))
  {
    var front := PlotHeadFields(p)
                   + RiverFields(p.IsNOfRiver, "isNOfRiver", "RiverWEDirection", p.RiverWEDirection)
                   + RiverFields(p.IsWOfRiver, "isWOfRiver", "RiverNSDirection", p.RiverNSDirection)
                   + PlotMiddleFields(p);
    var s4 := EmptyPlot.(X := p.X, Y := p.Y, Landmark := p.Landmark, ScriptData := p.ScriptData,
                         IsNOfRiver := p.IsNOfRiver, RiverWEDirection := p.RiverWEDirection,
                         IsWOfRiver := p.IsWOfRiver, RiverNSDirection := p.RiverNSDirection,
                         StartingPlot := p.StartingPlot, BonusType := p.BonusType,
                         ImprovementType := p.ImprovementType);
    var s5 := s4.(FeatureType := p.FeatureType, FeatureVariety := p.FeatureVariety);
    var s6 := s5.(RouteType := p.RouteType, TerrainType := p.TerrainType, PlotType := p.PlotType);
    PlotUpToMiddle(p);
    FeaturesRead(s4, p.FeatureType, p.FeatureVariety);
    ReadsAppend(EmptyPlot, front, s4, FeatureFields(p.FeatureType, p.FeatureVariety), s5, PlotField);
    PlotTailRead(p, s5);
    ReadsAppend(EmptyPlot, front + FeatureFields(p.FeatureType, p.FeatureVariety), s5, PlotTailFields(p), s6, PlotField);
  }
}
