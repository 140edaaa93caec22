/**
 * Look-ups over the rule-data registries that the XML loader fills: the
 * language-string table with its `TXT_KEY_` fallback, and the lists of era,
 * speed and calendar type names. The registries are global maps in the
 * program; here each is passed in as a parameter.
 */
module GameInfo {

  datatype TypeInfo = TypeInfo(Type: string, Description: string)

  const TxtKeyPrefix: string := "TXT_KEY_"

  /**
   * GetLangString: the text for `key`, trying `key` itself first and then
   * `TXT_KEY_` + `key`; when neither is in the table the key is its own text.
   */
  function GetLangString(langStrings: map<string, string>, key: string): (text: string)
    ensures key == "" ==> text == ""
    ensures key != "" && key in langStrings ==> text == langStrings[key]
    ensures key != "" && key !in langStrings && TxtKeyPrefix + key in langStrings ==>
              text == langStrings[TxtKeyPrefix + key]
    ensures key != "" && key !in langStrings && TxtKeyPrefix + key !in langStrings ==> text == key
  {
    if key == "" then ""
    else if key in langStrings then langStrings[key]
    else if TxtKeyPrefix + key in langStrings then langStrings[TxtKeyPrefix + key]
    else key
  }

  /** Adding a translation for a key that had none makes the look-up return it. */
  lemma LangStringAdded(langStrings: map<string, string>, key: string, text: string)
    requires key != "" && key !in langStrings
    ensures GetLangString(langStrings[TxtKeyPrefix + key := text], key) == text
  {
    assert key != TxtKeyPrefix + key by {
      assert |TxtKeyPrefix + key| == |key| + 8;
    }
  }

  /** The type names a registry holds. */
  function TypesOf(infos: map<string, TypeInfo>): set<string> {
    set k | k in infos :: infos[k].Type
  }

  /**
   * `names` holds the `Type` of every registry entry, one per entry, in the
   * order `order` visits the keys: each key exactly once.
   */
  ghost predicate ListsTypes(infos: map<string, TypeInfo>, names: seq<string>, order: seq<string>)
  {
    && |names| == |order| == |infos|
    && (forall k :: k in order <==> k in infos)
    && (forall i, j :: 0 <= i < j < |order| ==> order[i] != order[j])
    && (forall i :: 0 <= i < |names| ==> order[i] in infos && names[i] == infos[order[i]].Type)
  }

  /**
   * The range loop shared by the three name lists: one `Type` per registry
   * entry, in the map's iteration order; `order` is that (unspecified)
   * order of the keys.
   */
  method TypeNames(infos: map<string, TypeInfo>) returns (names: seq<string>, ghost order: seq<string>)
    ensures ListsTypes(infos, names, order)
  {
    names, order := [], [];
    var rest := infos.Keys;
    while rest != {}
      invariant rest <= infos.Keys
      invariant |names| == |order| && |order| + |rest| == |infos|
      invariant forall k :: k in order <==> k in infos && k !in rest
      invariant forall i, j :: 0 <= i < j < |order| ==> order[i] != order[j]
      invariant forall i :: 0 <= i < |names| ==> order[i] in infos && names[i] == infos[order[i]].Type
      decreases rest
    {
      var k :| k in rest;
      names, order := names + [infos[k].Type], order + [k];
      rest := rest - {k};
    }
  }

  /** GetEraNames over the era registry. */
  method GetEraNames(eraInfos: map<string, TypeInfo>) returns (names: seq<string>, ghost order: seq<string>)
    ensures ListsTypes(eraInfos, names, order)
    ensures forall i :: 0 <= i < |names| ==> names[i] in TypesOf(eraInfos)
    ensures forall t :: t in TypesOf(eraInfos) ==> t in names
  {
    names, order := TypeNames(eraInfos);
    NamesCover(eraInfos, names, order);
  }

  /** GetSpeedNames over the game-speed registry. */
  method GetSpeedNames(speedInfos: map<string, TypeInfo>) returns (names: seq<string>, ghost order: seq<string>)
    ensures ListsTypes(speedInfos, names, order)
    ensures forall i :: 0 <= i < |names| ==> names[i] in TypesOf(speedInfos)
    ensures forall t :: t in TypesOf(speedInfos) ==> t in names
  {
    names, order := TypeNames(speedInfos);
    NamesCover(speedInfos, names, order);
  }

  /** GetCalendarNames over the calendar registry. */
  method GetCalendarNames(calendarInfos: map<string, TypeInfo>) returns (names: seq<string>, ghost order: seq<string>)
    ensures ListsTypes(calendarInfos, names, order)
    ensures forall i :: 0 <= i < |names| ==> names[i] in TypesOf(calendarInfos)
    ensures forall t :: t in TypesOf(calendarInfos) ==> t in names
  {
    names, order := TypeNames(calendarInfos);
    NamesCover(calendarInfos, names, order);
  }

  /** The names listed are exactly the registry's type names. */
  lemma NamesCover(infos: map<string, TypeInfo>, names: seq<string>, order: seq<string>)
    requires ListsTypes(infos, names, order)
    ensures forall i :: 0 <= i < |names| ==> names[i] in TypesOf(infos)
    ensures forall t :: t in TypesOf(infos) ==> t in names
  {
    forall t | t in TypesOf(infos) ensures t in names {
      var k :| k in infos && infos[k].Type == t;
      var i :| 0 <= i < |order| && order[i] == k;
      assert names[i] == t;
    }
  }
}
