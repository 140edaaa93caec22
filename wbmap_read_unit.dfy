/**
 * The Unit and City subsections read back: the rows Unit.AddAsSubsection
 * and City.AddAsSubsection write before a city's culture entries, applied
 * by Unpack to the zero value, give the fields back (Key, Law and field
 * lemmas as for the Game section).
 */
module WbReadUnit {
  import opened Wrappers
  import opened Strconv
  import opened WbStructs
  import opened WbFormat
  import opened WbRows
  import opened WbEntities

  /** A key without digits is never taken for a culture entry. */
  lemma PlainCityKey(key: string)
    requires forall i :: 0 <= i < |key| ==> !IsDigit(key[i])
    ensures forall c: City, v: string :: CityField(c, key, v) == CityPlainField(c, key, v)
  {
  }

  // ------------------------------------------------------------ Unit

  /** A unit whose every field Unit.AddAsSubsection writes reads back. */
  predicate UnitOk(u: Unit) {
    && CleanValue(u.UnitType)
    && InInt64(u.UnitOwner)
    && InInt64(u.Level)
    && InInt64(u.Experience)
    && CleanValue(u.PromotionType)
    && CleanValue(u.UnitAIType)
    && InUint64(u.Damage)
    && InInt64(u.FacingDirection)
  }

  lemma UnitUnitTypeKey()
    ensures CleanKey("UnitType")
  {
    CleanKeyByChars("UnitType");
  }

  lemma UnitUnitTypeLaw(x: Unit, v: string)
    ensures UnitField(x, "UnitType", v) == Success(x.(UnitType := v))
  {
  }

  lemma UnitUnitOwnerKey()
    ensures CleanKey("UnitOwner")
  {
    CleanKeyByChars("UnitOwner");
  }

  lemma UnitUnitOwnerLaw(x: Unit, n: int)
    requires InInt64(n)
    ensures UnitField(x, "UnitOwner", Itoa(n)) == Success(x.(UnitOwner := n))
  {
    NumberItoa(n);
  }

  lemma UnitKind(u: Unit, s: Unit)
    requires CleanValue(u.UnitType) && InInt64(u.UnitOwner)
    ensures FieldReads(s, Joined([("UnitType", u.UnitType), ("UnitOwner", Itoa(u.UnitOwner))]), UnitField, s.(UnitType := u.UnitType, UnitOwner := u.UnitOwner))
  {
    UnitUnitTypeKey();
    UnitUnitOwnerKey();
    UnitUnitTypeLaw(s, u.UnitType);
    UnitUnitOwnerLaw(s.(UnitType := u.UnitType), u.UnitOwner);
    ItoaClean(u.UnitOwner);
    PairReads(s, "UnitType", u.UnitType, "UnitOwner", Itoa(u.UnitOwner), UnitField, s.(UnitType := u.UnitType), s.(UnitType := u.UnitType, UnitOwner := u.UnitOwner));
  }

  lemma UnitLevelKey()
    ensures CleanKey("Level")
  {
    CleanKeyByChars("Level");
  }

  lemma UnitLevelLaw(x: Unit, n: int)
    requires InInt64(n)
    ensures UnitField(x, "Level", Itoa(n)) == Success(x.(Level := n))
  {
    NumberItoa(n);
  }

  lemma UnitExperienceKey()
    ensures CleanKey("Experience")
  {
    CleanKeyByChars("Experience");
  }

  lemma UnitExperienceLaw(x: Unit, n: int)
    requires InInt64(n)
    ensures UnitField(x, "Experience", Itoa(n)) == Success(x.(Experience := n))
  {
    NumberItoa(n);
  }

  lemma UnitRank(u: Unit, s: Unit)
    requires InInt64(u.Level) && InInt64(u.Experience)
    ensures FieldReads(s, Joined([("Level", Itoa(u.Level)), ("Experience", Itoa(u.Experience))]), UnitField, s.(Level := u.Level, Experience := u.Experience))
  {
    UnitLevelKey();
    UnitExperienceKey();
    UnitLevelLaw(s, u.Level);
    UnitExperienceLaw(s.(Level := u.Level), u.Experience);
    ItoaClean(u.Level);
    ItoaClean(u.Experience);
    PairReads(s, "Level", Itoa(u.Level), "Experience", Itoa(u.Experience), UnitField, s.(Level := u.Level), s.(Level := u.Level, Experience := u.Experience));
  }

  lemma UnitPromotionTypeKey()
    ensures CleanKey("PromotionType")
  {
    CleanKeyByChars("PromotionType");
  }

  lemma UnitPromotionTypeLaw(x: Unit, v: string)
    ensures UnitField(x, "PromotionType", v) == Success(x.(PromotionType := v))
  {
  }

  lemma UnitPromotionType(u: Unit, s: Unit)
    requires CleanValue(u.PromotionType) && s.PromotionType == ""
    ensures FieldReads(s, Str("PromotionType", u.PromotionType), UnitField, s.(PromotionType := u.PromotionType))
  {
    UnitPromotionTypeKey();
    UnitPromotionTypeLaw(s, u.PromotionType);
    StrReads(s, "PromotionType", u.PromotionType, UnitField, s.(PromotionType := u.PromotionType));
  }

  lemma UnitUnitAITypeKey()
    ensures CleanKey("UnitAIType")
  {
    CleanKeyByChars("UnitAIType");
  }

  lemma UnitUnitAITypeLaw(x: Unit, v: string)
    ensures UnitField(x, "UnitAIType", v) == Success(x.(UnitAIType := v))
  {
  }

  lemma UnitUnitAIType(u: Unit, s: Unit)
    requires CleanValue(u.UnitAIType) && s.UnitAIType == ""
    ensures FieldReads(s, Str("UnitAIType", u.UnitAIType), UnitField, s.(UnitAIType := u.UnitAIType))
  {
    UnitUnitAITypeKey();
    UnitUnitAITypeLaw(s, u.UnitAIType);
    StrReads(s, "UnitAIType", u.UnitAIType, UnitField, s.(UnitAIType := u.UnitAIType));
  }

  lemma UnitDamageKey()
    ensures CleanKey("Damage")
  {
    CleanKeyByChars("Damage");
  }

  lemma UnitDamageLaw(x: Unit, n: int)
    requires InUint64(n)
    ensures UnitField(x, "Damage", Itoa(Signed(n))) == Success(x.(Damage := n))
  {
    NumberItoa(Signed(n));
  }

  lemma UnitDamage(u: Unit, s: Unit)
    requires InUint64(u.Damage)
    ensures FieldReads(s, Uint("Damage", u.Damage), UnitField, s.(Damage := u.Damage))
  {
    UnitDamageKey();
    UnitDamageLaw(s, u.Damage);
    NumberReads(s, Uint("Damage", u.Damage), UnitField, s.(Damage := u.Damage));
  }

  lemma UnitFacingDirectionKey()
    ensures CleanKey("FacingDirection")
  {
    CleanKeyByChars("FacingDirection");
  }

  lemma UnitFacingDirectionLaw(x: Unit, n: int)
    requires InInt64(n)
    ensures UnitField(x, "FacingDirection", Itoa(n)) == Success(x.(FacingDirection := n))
  {
    NumberItoa(n);
  }

  lemma UnitFacingDirection(u: Unit, s: Unit)
    requires InInt64(u.FacingDirection)
    ensures FieldReads(s, Int("FacingDirection", u.FacingDirection), UnitField, s.(FacingDirection := u.FacingDirection))
  {
    UnitFacingDirectionKey();
    UnitFacingDirectionLaw(s, u.FacingDirection);
    NumberReads(s, Int("FacingDirection", u.FacingDirection), UnitField, s.(FacingDirection := u.FacingDirection));
  }

  lemma UnitTable0(u: Unit)
    ensures |UnitFields(u)| == 6
    ensures UnitFields(u)[0] == Joined([("UnitType", u.UnitType), ("UnitOwner", Itoa(u.UnitOwner))])
    ensures UnitFields(u)[1] == Joined([("Level", Itoa(u.Level)), ("Experience", Itoa(u.Experience))])
    ensures UnitFields(u)[2] == Str("PromotionType", u.PromotionType)
    ensures UnitFields(u)[3] == Str("UnitAIType", u.UnitAIType)
  {
  }

  lemma UnitPart0(u: Unit, s: Unit)
    requires CleanValue(u.UnitType) && InInt64(u.UnitOwner)
    requires InInt64(u.Level) && InInt64(u.Experience)
    requires CleanValue(u.PromotionType) && s.PromotionType == ""
    requires CleanValue(u.UnitAIType) && s.UnitAIType == ""
    ensures FieldReads(s, UnitFields(u)[0], UnitField, s.(UnitType := u.UnitType, UnitOwner := u.UnitOwner))
    ensures FieldReads(s.(UnitType := u.UnitType, UnitOwner := u.UnitOwner), UnitFields(u)[1], UnitField, s.(UnitType := u.UnitType, UnitOwner := u.UnitOwner, Level := u.Level, Experience := u.Experience))
    ensures FieldReads(s.(UnitType := u.UnitType, UnitOwner := u.UnitOwner, Level := u.Level, Experience := u.Experience), UnitFields(u)[2], UnitField, s.(UnitType := u.UnitType, UnitOwner := u.UnitOwner, Level := u.Level, Experience := u.Experience, PromotionType := u.PromotionType))
    ensures FieldReads(s.(UnitType := u.UnitType, UnitOwner := u.UnitOwner, Level := u.Level, Experience := u.Experience, PromotionType := u.PromotionType), UnitFields(u)[3], UnitField, s.(UnitType := u.UnitType, UnitOwner := u.UnitOwner, Level := u.Level, Experience := u.Experience, PromotionType := u.PromotionType, UnitAIType := u.UnitAIType))
  {
    UnitTable0(u);
    var s1 := s.(UnitType := u.UnitType, UnitOwner := u.UnitOwner);
    UnitKind(u, s);
    var s2 := s1.(Level := u.Level, Experience := u.Experience);
    UnitRank(u, s1);
    var s3 := s2.(PromotionType := u.PromotionType);
    UnitPromotionType(u, s2);
    var s4 := s3.(UnitAIType := u.UnitAIType);
    UnitUnitAIType(u, s3);
  }

  lemma UnitLink0(u: Unit, s: Unit)
    requires CleanValue(u.UnitType) && InInt64(u.UnitOwner)
    requires InInt64(u.Level) && InInt64(u.Experience)
    requires CleanValue(u.PromotionType) && s.PromotionType == ""
    requires CleanValue(u.UnitAIType) && s.UnitAIType == ""
    ensures ReadsTo(s, UnitFields(u)[..4], UnitField, s.(UnitType := u.UnitType, UnitOwner := u.UnitOwner, Level := u.Level, Experience := u.Experience, PromotionType := u.PromotionType, UnitAIType := u.UnitAIType))
  {
    var fs := UnitFields(u);
    UnitPart0(u, s);
    ReadsFirstFour(fs, s, s.(UnitType := u.UnitType, UnitOwner := u.UnitOwner), s.(UnitType := u.UnitType, UnitOwner := u.UnitOwner, Level := u.Level, Experience := u.Experience), s.(UnitType := u.UnitType, UnitOwner := u.UnitOwner, Level := u.Level, Experience := u.Experience, PromotionType := u.PromotionType), s.(UnitType := u.UnitType, UnitOwner := u.UnitOwner, Level := u.Level, Experience := u.Experience, PromotionType := u.PromotionType, UnitAIType := u.UnitAIType), UnitField);
  }

  lemma UnitTable1(u: Unit)
    ensures |UnitFields(u)| == 6
    ensures UnitFields(u)[4] == Uint("Damage", u.Damage)
    ensures UnitFields(u)[5] == Int("FacingDirection", u.FacingDirection)
  {
  }

  lemma UnitPart1(u: Unit, s: Unit)
    requires InUint64(u.Damage)
    requires InInt64(u.FacingDirection)
    ensures FieldReads(s, UnitFields(u)[4], UnitField, s.(Damage := u.Damage))
    ensures FieldReads(s.(Damage := u.Damage), UnitFields(u)[5], UnitField, s.(Damage := u.Damage, FacingDirection := u.FacingDirection))
  {
    UnitTable1(u);
    var s5 := s.(Damage := u.Damage);
    UnitDamage(u, s);
    var s6 := s5.(FacingDirection := u.FacingDirection);
    UnitFacingDirection(u, s5);
  }

  lemma UnitLink1(u: Unit, s: Unit)
    requires InUint64(u.Damage)
    requires InInt64(u.FacingDirection)
    requires ReadsTo(EmptyUnit, UnitFields(u)[..4], UnitField, s)
    ensures ReadsTo(EmptyUnit, UnitFields(u)[..6], UnitField, s.(Damage := u.Damage, FacingDirection := u.FacingDirection))
  {
    var fs := UnitFields(u);
    UnitPart1(u, s);
    ReadsTwo(fs, 4, EmptyUnit, s, s.(Damage := u.Damage), s.(Damage := u.Damage, FacingDirection := u.FacingDirection), UnitField);
  }

  /** The rows of a Unit subsection take the zero unit to the unit written. */
  lemma UnitRead(u: Unit)
    requires UnitOk(u)
    ensures ReadsTo(EmptyUnit, UnitFields(u), UnitField, u)
  {
    var s0 := EmptyUnit;
    UnitLink0(u, s0);
    var s1 := s0.(UnitType := u.UnitType, UnitOwner := u.UnitOwner, Level := u.Level, Experience := u.Experience, PromotionType := u.PromotionType, UnitAIType := u.UnitAIType);
    UnitLink1(u, s1);
    var s2 := s1.(Damage := u.Damage, FacingDirection := u.FacingDirection);
    ReadsAll(s0, UnitFields(u), UnitField, s2);
  }

  // ------------------------------------------------------------ City

  /** A city whose fixed fields City.AddAsSubsection writes read back. */
  predicate CityOk(c: City) {
    && InUint64(c.CityOwner)
    && CleanValue(c.CityName)
    && InUint64(c.CityPopulation)
    && CleanValue(c.ProductionUnit)
    && CleanValue(c.ProductionBuilding)
    && CleanValue(c.ProductionProject)
    && CleanValue(c.ProductionProcess)
    && CleanValue(c.BuildingType)
    && CleanValue(c.ReligionType)
    && CleanValue(c.HolyCityReligionType)
    && CleanValue(c.ScriptData)
  }

  lemma CityCityOwnerKey()
    ensures CleanKey("CityOwner")
  {
    CleanKeyByChars("CityOwner");
  }

  lemma CityCityOwnerPlainLaw(x: City, n: int)
    requires InUint64(n)
    ensures CityPlainField(x, "CityOwner", Itoa(Signed(n))) == Success(x.(CityOwner := n))
  {
    NumberItoa(Signed(n));
  }

  lemma CityCityOwnerNoDigits()
    ensures forall i :: 0 <= i < |"CityOwner"| ==> !IsDigit("CityOwner"[i])
  {
  }

  lemma CityCityOwnerLaw(x: City, n: int)
    requires InUint64(n)
    ensures CityField(x, "CityOwner", Itoa(Signed(n))) == Success(x.(CityOwner := n))
  {
    CityCityOwnerNoDigits();
    PlainCityKey("CityOwner");
    CityCityOwnerPlainLaw(x, n);
  }

  lemma CityCityOwner(c: City, s: City)
    requires InUint64(c.CityOwner)
    ensures FieldReads(s, Uint("CityOwner", c.CityOwner), CityField, s.(CityOwner := c.CityOwner))
  {
    CityCityOwnerKey();
    CityCityOwnerLaw(s, c.CityOwner);
    NumberReads(s, Uint("CityOwner", c.CityOwner), CityField, s.(CityOwner := c.CityOwner));
  }

  lemma CityCityNameKey()
    ensures CleanKey("CityName")
  {
    CleanKeyByChars("CityName");
  }

  lemma CityCityNamePlainLaw(x: City, v: string)
    ensures CityPlainField(x, "CityName", v) == Success(x.(CityName := v))
  {
  }

  lemma CityCityNameNoDigits()
    ensures forall i :: 0 <= i < |"CityName"| ==> !IsDigit("CityName"[i])
  {
  }

  lemma CityCityNameLaw(x: City, v: string)
    ensures CityField(x, "CityName", v) == Success(x.(CityName := v))
  {
    CityCityNameNoDigits();
    PlainCityKey("CityName");
    CityCityNamePlainLaw(x, v);
  }

  lemma CityCityName(c: City, s: City)
    requires CleanValue(c.CityName) && s.CityName == ""
    ensures FieldReads(s, Str("CityName", c.CityName), CityField, s.(CityName := c.CityName))
  {
    CityCityNameKey();
    CityCityNameLaw(s, c.CityName);
    StrReads(s, "CityName", c.CityName, CityField, s.(CityName := c.CityName));
  }

  lemma CityCityPopulationKey()
    ensures CleanKey("CityPopulation")
  {
    CleanKeyByChars("CityPopulation");
  }

  lemma CityCityPopulationPlainLaw(x: City, n: int)
    requires InUint64(n)
    ensures CityPlainField(x, "CityPopulation", Itoa(Signed(n))) == Success(x.(CityPopulation := n))
  {
    NumberItoa(Signed(n));
  }

  lemma CityCityPopulationNoDigits()
    ensures forall i :: 0 <= i < |"CityPopulation"| ==> !IsDigit("CityPopulation"[i])
  {
  }

  lemma CityCityPopulationLaw(x: City, n: int)
    requires InUint64(n)
    ensures CityField(x, "CityPopulation", Itoa(Signed(n))) == Success(x.(CityPopulation := n))
  {
    CityCityPopulationNoDigits();
    PlainCityKey("CityPopulation");
    CityCityPopulationPlainLaw(x, n);
  }

  lemma CityCityPopulation(c: City, s: City)
    requires InUint64(c.CityPopulation)
    ensures FieldReads(s, Uint("CityPopulation", c.CityPopulation), CityField, s.(CityPopulation := c.CityPopulation))
  {
    CityCityPopulationKey();
    CityCityPopulationLaw(s, c.CityPopulation);
    NumberReads(s, Uint("CityPopulation", c.CityPopulation), CityField, s.(CityPopulation := c.CityPopulation));
  }

  lemma CityProductionUnitKey()
    ensures CleanKey("ProductionUnit")
  {
    CleanKeyByChars("ProductionUnit");
  }

  lemma CityProductionUnitPlainLaw(x: City, v: string)
    ensures CityPlainField(x, "ProductionUnit", v) == Success(x.(ProductionUnit := v))
  {
  }

  lemma CityProductionUnitNoDigits()
    ensures forall i :: 0 <= i < |"ProductionUnit"| ==> !IsDigit("ProductionUnit"[i])
  {
  }

  lemma CityProductionUnitLaw(x: City, v: string)
    ensures CityField(x, "ProductionUnit", v) == Success(x.(ProductionUnit := v))
  {
    CityProductionUnitNoDigits();
    PlainCityKey("ProductionUnit");
    CityProductionUnitPlainLaw(x, v);
  }

  lemma CityProductionUnit(c: City, s: City)
    requires CleanValue(c.ProductionUnit) && s.ProductionUnit == ""
    ensures FieldReads(s, Str("ProductionUnit", c.ProductionUnit), CityField, s.(ProductionUnit := c.ProductionUnit))
  {
    CityProductionUnitKey();
    CityProductionUnitLaw(s, c.ProductionUnit);
    StrReads(s, "ProductionUnit", c.ProductionUnit, CityField, s.(ProductionUnit := c.ProductionUnit));
  }

  lemma CityProductionBuildingKey()
    ensures CleanKey("ProductionBuilding")
  {
    CleanKeyByChars("ProductionBuilding");
  }

  lemma CityProductionBuildingPlainLaw(x: City, v: string)
    ensures CityPlainField(x, "ProductionBuilding", v) == Success(x.(ProductionBuilding := v))
  {
  }

  lemma CityProductionBuildingNoDigits()
    ensures forall i :: 0 <= i < |"ProductionBuilding"| ==> !IsDigit("ProductionBuilding"[i])
  {
  }

  lemma CityProductionBuildingLaw(x: City, v: string)
    ensures CityField(x, "ProductionBuilding", v) == Success(x.(ProductionBuilding := v))
  {
    CityProductionBuildingNoDigits();
    PlainCityKey("ProductionBuilding");
    CityProductionBuildingPlainLaw(x, v);
  }

  lemma CityProductionBuilding(c: City, s: City)
    requires CleanValue(c.ProductionBuilding) && s.ProductionBuilding == ""
    ensures FieldReads(s, Str("ProductionBuilding", c.ProductionBuilding), CityField, s.(ProductionBuilding := c.ProductionBuilding))
  {
    CityProductionBuildingKey();
    CityProductionBuildingLaw(s, c.ProductionBuilding);
    StrReads(s, "ProductionBuilding", c.ProductionBuilding, CityField, s.(ProductionBuilding := c.ProductionBuilding));
  }

  lemma CityProductionProjectKey()
    ensures CleanKey("ProductionProject")
  {
    CleanKeyByChars("ProductionProject");
  }

  lemma CityProductionProjectPlainLaw(x: City, v: string)
    ensures CityPlainField(x, "ProductionProject", v) == Success(x.(ProductionProject := v))
  {
  }

  lemma CityProductionProjectNoDigits()
    ensures forall i :: 0 <= i < |"ProductionProject"| ==> !IsDigit("ProductionProject"[i])
  {
  }

  lemma CityProductionProjectLaw(x: City, v: string)
    ensures CityField(x, "ProductionProject", v) == Success(x.(ProductionProject := v))
  {
    CityProductionProjectNoDigits();
    PlainCityKey("ProductionProject");
    CityProductionProjectPlainLaw(x, v);
  }

  lemma CityProductionProject(c: City, s: City)
    requires CleanValue(c.ProductionProject) && s.ProductionProject == ""
    ensures FieldReads(s, Str("ProductionProject", c.ProductionProject), CityField, s.(ProductionProject := c.ProductionProject))
  {
    CityProductionProjectKey();
    CityProductionProjectLaw(s, c.ProductionProject);
    StrReads(s, "ProductionProject", c.ProductionProject, CityField, s.(ProductionProject := c.ProductionProject));
  }

  lemma CityProductionProcessKey()
    ensures CleanKey("ProductionProcess")
  {
    CleanKeyByChars("ProductionProcess");
  }

  lemma CityProductionProcessPlainLaw(x: City, v: string)
    ensures CityPlainField(x, "ProductionProcess", v) == Success(x.(ProductionProcess := v))
  {
  }

  lemma CityProductionProcessNoDigits()
    ensures forall i :: 0 <= i < |"ProductionProcess"| ==> !IsDigit("ProductionProcess"[i])
  {
  }

  lemma CityProductionProcessLaw(x: City, v: string)
    ensures CityField(x, "ProductionProcess", v) == Success(x.(ProductionProcess := v))
  {
    CityProductionProcessNoDigits();
    PlainCityKey("ProductionProcess");
    CityProductionProcessPlainLaw(x, v);
  }

  lemma CityProductionProcess(c: City, s: City)
    requires CleanValue(c.ProductionProcess) && s.ProductionProcess == ""
    ensures FieldReads(s, Str("ProductionProcess", c.ProductionProcess), CityField, s.(ProductionProcess := c.ProductionProcess))
  {
    CityProductionProcessKey();
    CityProductionProcessLaw(s, c.ProductionProcess);
    StrReads(s, "ProductionProcess", c.ProductionProcess, CityField, s.(ProductionProcess := c.ProductionProcess));
  }

  lemma CityBuildingTypeKey()
    ensures CleanKey("BuildingType")
  {
    CleanKeyByChars("BuildingType");
  }

  lemma CityBuildingTypePlainLaw(x: City, v: string)
    ensures CityPlainField(x, "BuildingType", v) == Success(x.(BuildingType := v))
  {
  }

  lemma CityBuildingTypeNoDigits()
    ensures forall i :: 0 <= i < |"BuildingType"| ==> !IsDigit("BuildingType"[i])
  {
  }

  lemma CityBuildingTypeLaw(x: City, v: string)
    ensures CityField(x, "BuildingType", v) == Success(x.(BuildingType := v))
  {
    CityBuildingTypeNoDigits();
    PlainCityKey("BuildingType");
    CityBuildingTypePlainLaw(x, v);
  }

  lemma CityBuildingType(c: City, s: City)
    requires CleanValue(c.BuildingType) && s.BuildingType == ""
    ensures FieldReads(s, Str("BuildingType", c.BuildingType), CityField, s.(BuildingType := c.BuildingType))
  {
    CityBuildingTypeKey();
    CityBuildingTypeLaw(s, c.BuildingType);
    StrReads(s, "BuildingType", c.BuildingType, CityField, s.(BuildingType := c.BuildingType));
  }

  lemma CityReligionTypeKey()
    ensures CleanKey("ReligionType")
  {
    CleanKeyByChars("ReligionType");
  }

  lemma CityReligionTypePlainLaw(x: City, v: string)
    ensures CityPlainField(x, "ReligionType", v) == Success(x.(ReligionType := v))
  {
  }

  lemma CityReligionTypeNoDigits()
    ensures forall i :: 0 <= i < |"ReligionType"| ==> !IsDigit("ReligionType"[i])
  {
  }

  lemma CityReligionTypeLaw(x: City, v: string)
    ensures CityField(x, "ReligionType", v) == Success(x.(ReligionType := v))
  {
    CityReligionTypeNoDigits();
    PlainCityKey("ReligionType");
    CityReligionTypePlainLaw(x, v);
  }

  lemma CityReligionType(c: City, s: City)
    requires CleanValue(c.ReligionType) && s.ReligionType == ""
    ensures FieldReads(s, Str("ReligionType", c.ReligionType), CityField, s.(ReligionType := c.ReligionType))
  {
    CityReligionTypeKey();
    CityReligionTypeLaw(s, c.ReligionType);
    StrReads(s, "ReligionType", c.ReligionType, CityField, s.(ReligionType := c.ReligionType));
  }

  lemma CityHolyCityReligionTypeKey()
    ensures CleanKey("HolyCityReligionType")
  {
    CleanKeyByChars("HolyCityReligionType");
  }

  lemma CityHolyCityReligionTypePlainLaw(x: City, v: string)
    ensures CityPlainField(x, "HolyCityReligionType", v) == Success(x.(HolyCityReligionType := v))
  {
  }

  lemma CityHolyCityReligionTypeNoDigits()
    ensures forall i :: 0 <= i < |"HolyCityReligionType"| ==> !IsDigit("HolyCityReligionType"[i])
  {
  }

  lemma CityHolyCityReligionTypeLaw(x: City, v: string)
    ensures CityField(x, "HolyCityReligionType", v) == Success(x.(HolyCityReligionType := v))
  {
    CityHolyCityReligionTypeNoDigits();
    PlainCityKey("HolyCityReligionType");
    CityHolyCityReligionTypePlainLaw(x, v);
  }

  lemma CityHolyCityReligionType(c: City, s: City)
    requires CleanValue(c.HolyCityReligionType) && s.HolyCityReligionType == ""
    ensures FieldReads(s, Str("HolyCityReligionType", c.HolyCityReligionType), CityField, s.(HolyCityReligionType := c.HolyCityReligionType))
  {
    CityHolyCityReligionTypeKey();
    CityHolyCityReligionTypeLaw(s, c.HolyCityReligionType);
    StrReads(s, "HolyCityReligionType", c.HolyCityReligionType, CityField, s.(HolyCityReligionType := c.HolyCityReligionType));
  }

  lemma CityScriptDataKey()
    ensures CleanKey("ScriptData")
  {
    CleanKeyByChars("ScriptData");
  }

  lemma CityScriptDataPlainLaw(x: City, v: string)
    ensures CityPlainField(x, "ScriptData", v) == Success(x.(ScriptData := v))
  {
  }

  lemma CityScriptDataNoDigits()
    ensures forall i :: 0 <= i < |"ScriptData"| ==> !IsDigit("ScriptData"[i])
  {
  }

  lemma CityScriptDataLaw(x: City, v: string)
    ensures CityField(x, "ScriptData", v) == Success(x.(ScriptData := v))
  {
    CityScriptDataNoDigits();
    PlainCityKey("ScriptData");
    CityScriptDataPlainLaw(x, v);
  }

  lemma CityScriptData(c: City, s: City)
    requires CleanValue(c.ScriptData) && s.ScriptData == ""
    ensures FieldReads(s, Str("ScriptData", c.ScriptData), CityField, s.(ScriptData := c.ScriptData))
  {
    CityScriptDataKey();
    CityScriptDataLaw(s, c.ScriptData);
    StrReads(s, "ScriptData", c.ScriptData, CityField, s.(ScriptData := c.ScriptData));
  }

  lemma CityTable0(c: City)
    ensures |CityFixedFields(c)| == 11
    ensures CityFixedFields(c)[0] == Uint("CityOwner", c.CityOwner)
    ensures CityFixedFields(c)[1] == Str("CityName", c.CityName)
    ensures CityFixedFields(c)[2] == Uint("CityPopulation", c.CityPopulation)
    ensures CityFixedFields(c)[3] == Str("ProductionUnit", c.ProductionUnit)
  {
  }

  lemma CityPart0(c: City, s: City)
    requires InUint64(c.CityOwner)
    requires CleanValue(c.CityName) && s.CityName == ""
    requires InUint64(c.CityPopulation)
    requires CleanValue(c.ProductionUnit) && s.ProductionUnit == ""
    ensures FieldReads(s, CityFixedFields(c)[0], CityField, s.(CityOwner := c.CityOwner))
    ensures FieldReads(s.(CityOwner := c.CityOwner), CityFixedFields(c)[1], CityField, s.(CityOwner := c.CityOwner, CityName := c.CityName))
    ensures FieldReads(s.(CityOwner := c.CityOwner, CityName := c.CityName), CityFixedFields(c)[2], CityField, s.(CityOwner := c.CityOwner, CityName := c.CityName, CityPopulation := c.CityPopulation))
    ensures FieldReads(s.(CityOwner := c.CityOwner, CityName := c.CityName, CityPopulation := c.CityPopulation), CityFixedFields(c)[3], CityField, s.(CityOwner := c.CityOwner, CityName := c.CityName, CityPopulation := c.CityPopulation, ProductionUnit := c.ProductionUnit))
  {
    CityTable0(c);
    var s1 := s.(CityOwner := c.CityOwner);
    CityCityOwner(c, s);
    var s2 := s1.(CityName := c.CityName);
    CityCityName(c, s1);
    var s3 := s2.(CityPopulation := c.CityPopulation);
    CityCityPopulation(c, s2);
    var s4 := s3.(ProductionUnit := c.ProductionUnit);
    CityProductionUnit(c, s3);
  }

  lemma CityLink0(c: City, s: City)
    requires InUint64(c.CityOwner)
    requires CleanValue(c.CityName) && s.CityName == ""
    requires InUint64(c.CityPopulation)
    requires CleanValue(c.ProductionUnit) && s.ProductionUnit == ""
    ensures ReadsTo(s, CityFixedFields(c)[..4], CityField, s.(CityOwner := c.CityOwner, CityName := c.CityName, CityPopulation := c.CityPopulation, ProductionUnit := c.ProductionUnit))
  {
    var fs := CityFixedFields(c);
    CityPart0(c, s);
    ReadsFirstFour(fs, s, s.(CityOwner := c.CityOwner), s.(CityOwner := c.CityOwner, CityName := c.CityName), s.(CityOwner := c.CityOwner, CityName := c.CityName, CityPopulation := c.CityPopulation), s.(CityOwner := c.CityOwner, CityName := c.CityName, CityPopulation := c.CityPopulation, ProductionUnit := c.ProductionUnit), CityField);
  }

  lemma CityTable1(c: City)
    ensures |CityFixedFields(c)| == 11
    ensures CityFixedFields(c)[4] == Str("ProductionBuilding", c.ProductionBuilding)
    ensures CityFixedFields(c)[5] == Str("ProductionProject", c.ProductionProject)
    ensures CityFixedFields(c)[6] == Str("ProductionProcess", c.ProductionProcess)
    ensures CityFixedFields(c)[7] == Str("BuildingType", c.BuildingType)
  {
  }

  lemma CityPart1(c: City, s: City)
    requires CleanValue(c.ProductionBuilding) && s.ProductionBuilding == ""
    requires CleanValue(c.ProductionProject) && s.ProductionProject == ""
    requires CleanValue(c.ProductionProcess) && s.ProductionProcess == ""
    requires CleanValue(c.BuildingType) && s.BuildingType == ""
    ensures FieldReads(s, CityFixedFields(c)[4], CityField, s.(ProductionBuilding := c.ProductionBuilding))
    ensures FieldReads(s.(ProductionBuilding := c.ProductionBuilding), CityFixedFields(c)[5], CityField, s.(ProductionBuilding := c.ProductionBuilding, ProductionProject := c.ProductionProject))
    ensures FieldReads(s.(ProductionBuilding := c.ProductionBuilding, ProductionProject := c.ProductionProject), CityFixedFields(c)[6], CityField, s.(ProductionBuilding := c.ProductionBuilding, ProductionProject := c.ProductionProject, ProductionProcess := c.ProductionProcess))
    ensures FieldReads(s.(ProductionBuilding := c.ProductionBuilding, ProductionProject := c.ProductionProject, ProductionProcess := c.ProductionProcess), CityFixedFields(c)[7], CityField, s.(ProductionBuilding := c.ProductionBuilding, ProductionProject := c.ProductionProject, ProductionProcess := c.ProductionProcess, BuildingType := c.BuildingType))
  {
    CityTable1(c);
    var s5 := s.(ProductionBuilding := c.ProductionBuilding);
    CityProductionBuilding(c, s);
    var s6 := s5.(ProductionProject := c.ProductionProject);
    CityProductionProject(c, s5);
    var s7 := s6.(ProductionProcess := c.ProductionProcess);
    CityProductionProcess(c, s6);
    var s8 := s7.(BuildingType := c.BuildingType);
    CityBuildingType(c, s7);
  }

  lemma CityLink1(c: City, s: City)
    requires CleanValue(c.ProductionBuilding) && s.ProductionBuilding == ""
    requires CleanValue(c.ProductionProject) && s.ProductionProject == ""
    requires CleanValue(c.ProductionProcess) && s.ProductionProcess == ""
    requires CleanValue(c.BuildingType) && s.BuildingType == ""
    requires ReadsTo(EmptyCity, CityFixedFields(c)[..4], CityField, s)
    ensures ReadsTo(EmptyCity, CityFixedFields(c)[..8], CityField, s.(ProductionBuilding := c.ProductionBuilding, ProductionProject := c.ProductionProject, ProductionProcess := c.ProductionProcess, BuildingType := c.BuildingType))
  {
    var fs := CityFixedFields(c);
    CityPart1(c, s);
    ReadsFour(fs, 4, EmptyCity, s, s.(ProductionBuilding := c.ProductionBuilding), s.(ProductionBuilding := c.ProductionBuilding, ProductionProject := c.ProductionProject), s.(ProductionBuilding := c.ProductionBuilding, ProductionProject := c.ProductionProject, ProductionProcess := c.ProductionProcess), s.(ProductionBuilding := c.ProductionBuilding, ProductionProject := c.ProductionProject, ProductionProcess := c.ProductionProcess, BuildingType := c.BuildingType), CityField);
  }

  lemma CityTable2(c: City)
    ensures |CityFixedFields(c)| == 11
    ensures CityFixedFields(c)[8] == Str("ReligionType", c.ReligionType)
    ensures CityFixedFields(c)[9] == Str("HolyCityReligionType", c.HolyCityReligionType)
    ensures CityFixedFields(c)[10] == Str("ScriptData", c.ScriptData)
  {
  }

  lemma CityPart2(c: City, s: City)
    requires CleanValue(c.ReligionType) && s.ReligionType == ""
    requires CleanValue(c.HolyCityReligionType) && s.HolyCityReligionType == ""
    requires CleanValue(c.ScriptData) && s.ScriptData == ""
    ensures FieldReads(s, CityFixedFields(c)[8], CityField, s.(ReligionType := c.ReligionType))
    ensures FieldReads(s.(ReligionType := c.ReligionType), CityFixedFields(c)[9], CityField, s.(ReligionType := c.ReligionType, HolyCityReligionType := c.HolyCityReligionType))
    ensures FieldReads(s.(ReligionType := c.ReligionType, HolyCityReligionType := c.HolyCityReligionType), CityFixedFields(c)[10], CityField, s.(ReligionType := c.ReligionType, HolyCityReligionType := c.HolyCityReligionType, ScriptData := c.ScriptData))
  {
    CityTable2(c);
    var s9 := s.(ReligionType := c.ReligionType);
    CityReligionType(c, s);
    var s10 := s9.(HolyCityReligionType := c.HolyCityReligionType);
    CityHolyCityReligionType(c, s9);
    var s11 := s10.(ScriptData := c.ScriptData);
    CityScriptData(c, s10);
  }

  lemma CityLink2(c: City, s: City)
    requires CleanValue(c.ReligionType) && s.ReligionType == ""
    requires CleanValue(c.HolyCityReligionType) && s.HolyCityReligionType == ""
    requires CleanValue(c.ScriptData) && s.ScriptData == ""
    requires ReadsTo(EmptyCity, CityFixedFields(c)[..8], CityField, s)
    ensures ReadsTo(EmptyCity, CityFixedFields(c)[..11], CityField, s.(ReligionType := c.ReligionType, HolyCityReligionType := c.HolyCityReligionType, ScriptData := c.ScriptData))
  {
    var fs := CityFixedFields(c);
    CityPart2(c, s);
    ReadsThree(fs, 8, EmptyCity, s, s.(ReligionType := c.ReligionType), s.(ReligionType := c.ReligionType, HolyCityReligionType := c.HolyCityReligionType), s.(ReligionType := c.ReligionType, HolyCityReligionType := c.HolyCityReligionType, ScriptData := c.ScriptData), CityField);
  }

  /** The fixed rows of a City subsection take the zero city to the city written, culture aside. */
  lemma CityFixedRead(c: City)
    requires CityOk(c)
    ensures ReadsTo(EmptyCity, CityFixedFields(c), CityField, c.(PlayerCulture := map[]))
  {
    var s0 := EmptyCity;
    CityLink0(c, s0);
    var s1 := s0.(CityOwner := c.CityOwner, CityName := c.CityName, CityPopulation := c.CityPopulation, ProductionUnit := c.ProductionUnit);
    CityLink1(c, s1);
    var s2 := s1.(ProductionBuilding := c.ProductionBuilding, ProductionProject := c.ProductionProject, ProductionProcess := c.ProductionProcess, BuildingType := c.BuildingType);
    CityLink2(c, s2);
    var s3 := s2.(ReligionType := c.ReligionType, HolyCityReligionType := c.HolyCityReligionType, ScriptData := c.ScriptData);
    ReadsAll(s0, CityFixedFields(c), CityField, s3);
  }

}
