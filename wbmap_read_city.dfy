/**
 * Reading back a whole city: its fixed fields, then one
 * `Player<n>Culture=<amount>` row per entry of PlayerCulture, each of
 * which the culture pattern puts back into the map.
 */
module WbReadCity {
  import opened Wrappers
  import opened Strconv
  import opened WbStructs
  import opened WbFormat
  import opened WbRows
  import opened WbEntities
  import opened WbReadUnit

  /** What a city's culture needs to read back: players printed with their digits that Atoi reads, amounts of any 64-bit size. */
  predicate CultureOk(culture: map<int, int>) {
    forall player :: player in culture ==> Count(player) && InUint64(culture[player])
  }

  /** The culture of a city that reads back: the fixed fields, and a culture that reads back. */
  predicate CityReadable(c: City) {
    CityOk(c) && CultureOk(c.PlayerCulture)
  }

  /** The entries of `culture` for the players of `keys`, written into the map one after another. */
  function Entries(keys: seq<int>, culture: map<int, int>): (m: map<int, int>)
    requires forall i :: 0 <= i < |keys| ==> keys[i] in culture
    ensures forall player :: player in m <==> player in keys
    ensures forall player :: player in m ==> m[player] == culture[player]
  {
    if keys == [] then map[]
    else
      var last := keys[|keys| - 1];
      var m := Entries(keys[..|keys| - 1], culture)[last := culture[last]];
      assert forall player :: player in keys <==> player in keys[..|keys| - 1] || player == last;
      m
  }

  /** Every player of the culture listed in ascending order brings back the whole map. */
  lemma EntriesAll(culture: map<int, int>)
    ensures Entries(Ascending(culture.Keys), culture) == culture
  {
  }

  /** A culture key is clean: letters around the digits of the player. */
  lemma CultureKeyClean(player: int)
    requires Count(player)
    ensures CleanKey(CultureKey(player))
  {
    var key := CultureKey(player);
    ItoaPlain(player);
    assert key == "Player" + Itoa(player) + "Culture";
    assert forall i :: 0 <= i < |key| ==> key[i] in "Player" || IsDigit(key[i]) || key[i] == '-' || key[i] in "Culture";
    CleanKeyByChars(key);
  }

  /** One culture entry reads back into the map. */
  lemma CultureEntry(c: City, player: int, amount: int)
    requires Count(player) && InUint64(amount)
    ensures FieldReads(c, Uint(CultureKey(player), amount), CityField,
                       c.(PlayerCulture := c.PlayerCulture[player := amount]))
  {
    CultureKeyClean(player);
    ItoaClean(Signed(amount));
    CultureKeyRead(c, player, amount);
    OneRow(c, CultureKey(player), Itoa(Signed(amount)), CityField, c.(PlayerCulture := c.PlayerCulture[player := amount]));
  }

  lemma CultureFieldsPrefix(keys: seq<int>, culture: map<int, int>, i: nat)
    requires forall k :: 0 <= k < |keys| ==> keys[k] in culture
    requires i <= |keys|
    ensures CultureFields(keys, culture)[..i] == CultureFields(keys[..i], culture)
  {
  }

  /** The culture rows of the first players of `keys` put exactly their entries into an empty map. */
  lemma {:induction false} CultureReads(c: City, keys: seq<int>, culture: map<int, int>)
    requires CultureOk(culture) && c.PlayerCulture == map[]
    requires forall i :: 0 <= i < |keys| ==> keys[i] in culture
    ensures ReadsTo(c, CultureFields(keys, culture), CityField, c.(PlayerCulture := Entries(keys, culture)))
    decreases |keys|
  {
    var fs := CultureFields(keys, culture);
    if keys == [] {
      ReadsNothing(c, fs, CityField);
      assert fs[..0] == fs;
    } else {
      var n := |keys| - 1;
      var front, last := keys[..n], keys[n];
      CultureReads(c, front, culture);
      CultureFieldsPrefix(keys, culture, n);
      var e := c.(PlayerCulture := Entries(front, culture));
      CultureEntry(e, last, culture[last]);
      assert fs[n] == Uint(CultureKey(last), culture[last]);
      ReadsNext(fs, n, c, e, c.(PlayerCulture := Entries(keys, culture)), CityField);
      ReadsAll(c, fs, CityField, c.(PlayerCulture := Entries(keys, culture)));
    }
  }

  /** The rows City.AddAsSubsection writes read back, by City.Unpack, as the city. */
  lemma CityRead(c: City)
    requires CityReadable(c)
    ensures ReadsTo(EmptyCity, CityFields(c), CityField, c)
  {
    var fixed := c.(PlayerCulture := map[]);
    var keys := Ascending(c.PlayerCulture.Keys);
    CityFixedRead(c);
    CultureReads(fixed, keys, c.PlayerCulture);
    EntriesAll(c.PlayerCulture);
    ReadsAppend(EmptyCity, CityFixedFields(c), fixed, CultureFields(keys, c.PlayerCulture), c, CityField);
  }
}
