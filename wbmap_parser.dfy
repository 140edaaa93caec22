/**
 * ParseWbMap: the reader of WorldBuilder saves. The text is scanned line by
 * line; each line is trimmed of spaces and tabs, blank lines and `#`
 * comments are skipped, and a small state machine tracks which section is
 * open. Inside a section every line is a comma-separated list of `key=value`
 * fragments (a bare `key` means `key=1`), applied to the entity being read.
 * A section is stored only when its closing tag is read.
 */
module WbParser {
  import opened Wrappers
  import opened Strconv
  import opened Text
  import opened WbStructs

  const VersionPrefix := "Version="
  const DefaultVersion := 11

  // ------------------------------------------------------------- errors

  /** What ParseWbMap reports, with the 1-based number of the offending line. */
  datatype ParseError =
    | BadVersion(line: nat, text: string)
    | OutsideSection(line: nat, content: string)
    | BadFragment(line: nat, fragment: string)
    | BadField(line: nat, cause: UnpackError, content: string)
    | Panicked(line: nat, key: string)
    | NoGame

  /** The text of an Unpack error, as its Error method gives it. */
  function UnpackText(e: UnpackError): (s: string)
    ensures e.UnknownKey? ==> s == "unknown key: " + e.key
    ensures e.NumError? ==> HasPrefix(s, "strconv." + e.fn + ": parsing " + Quote(e.text) + ": ")
    ensures e.NumError? ==> (HasSuffix(s, "value out of range") <==> e.outOfRange)
  {
    match e
    case UnknownKey(key) => "unknown key: " + key
    case NumError(fn, text, outOfRange) =>
      var head := "strconv." + fn + ": parsing " + Quote(text) + ": ";
      var tail := if outOfRange then "value out of range" else "invalid syntax";
      assert (head + tail)[..|head|] == head;
      assert (head + tail)[|head + tail| - |tail|..] == tail;
      assert HasSuffix(head + tail, "value out of range") ==> (head + tail)[|head + tail| - 1] == 'e';
      head + tail
    case NilMapWrite(_) => "assignment to entry in nil map"
  }

  /**
   * createParserError: the message, then the line number. Where the
   * message is itself an error text it is used as the format with one
   * argument too many, which fmt.Sprintf reports with an EXTRA suffix.
   */
  function Located(message: string, line: nat): string {
    "parse error: " + message + " (at line " + Itoa(line) + ")"
  }

  function Extra(format: string, argument: string): string {
    format + "%!(EXTRA string=" + argument + ")"
  }

  /** The text of the error ParseWbMap returns (a panic carries the runtime's text). */
  function Message(e: ParseError): (s: string)
    ensures e.NoGame? <==> s == "no game info specified"
    ensures !e.NoGame? && !e.Panicked? ==> HasPrefix(s, "parse error: ")
  {
    match e
    case BadVersion(line, text) => Located("bad version number '" + text + "'", line)
    case OutsideSection(line, content) => Located("cannot parse line in global context: '" + content + "'", line)
    case BadFragment(line, fragment) => Located(Extra("unknown line format", fragment), line)
    case BadField(line, cause, content) => Located(Extra(UnpackText(cause), content), line)
    case Panicked(_, _) => "assignment to entry in nil map"
    case NoGame => "no game info specified"
  }

  /** An Unpack failure becomes a located error, except a nil-map write, which is a panic. */
  function FieldError(line: nat, cause: UnpackError, content: string): (e: ParseError)
    ensures !e.NoGame? && e.line == line
    ensures cause.NilMapWrite? <==> e.Panicked?
  {
    if cause.NilMapWrite? then Panicked(line, cause.key) else BadField(line, cause, content)
  }

  // -------------------------------------------------- key/value fragments

  /**
   * parseKeyValue: a fragment with neither `=` nor a space is a flag worth
   * `1`; otherwise it is split at its first `=`, and with no `=` at all it
   * is refused.
   */
  function ParseKeyValue(fragment: string): (r: Result<(string, string), string>)
    ensures '=' !in fragment && ' ' !in fragment ==> r == Success((fragment, "1"))
    ensures '=' !in fragment && ' ' in fragment ==> r == Failure("unknown line format")
    ensures '=' in fragment ==> r.Success? && '=' !in r.value.0 && fragment == r.value.0 + "=" + r.value.1
  {
    if '=' !in fragment && ' ' !in fragment then Success((fragment, "1"))
    else
      var i := IndexOf(fragment, '=');
      if i == |fragment| then Failure("unknown line format")
      else
        assert fragment == fragment[..i] + "=" + fragment[i + 1..];
        Success((fragment[..i], fragment[i + 1..]))
  }

  /** A fragment written as `key=value` reads back as that pair, whatever the value holds. */
  lemma ParseKeyValueFragment(key: string, value: string)
    requires '=' !in key
    ensures ParseKeyValue(key + "=" + value) == Success((key, value))
  {
    var fragment := key + "=" + value;
    assert fragment[|key|] == '=';
    IndexOfPrefix(key, "=" + value, '=');
    assert fragment == key + ("=" + value);
    assert fragment[..|key|] == key && fragment[|key| + 1..] == value;
  }

  // ------------------------------------------------- the map of one line

  /** The value a line's map holds for a key. */
  function Lookup(kvs: seq<(string, string)>, key: string): Option<string> {
    if kvs == [] then None
    else if kvs[0].0 == key then Some(kvs[0].1)
    else Lookup(kvs[1..], key)
  }

  function Keys(kvs: seq<(string, string)>): set<string> {
    if kvs == [] then {} else {kvs[0].0} + Keys(kvs[1..])
  }

  /** Every key occurs once: the pairs are the entries of a Go map. */
  predicate DistinctKeys(kvs: seq<(string, string)>) {
    kvs == [] || (kvs[0].0 !in Keys(kvs[1..]) && DistinctKeys(kvs[1..]))
  }

  /**
   * `kv[key] = value`: an existing entry is overwritten where it stands, a
   * new key is added after the others.
   */
  function Put(kvs: seq<(string, string)>, key: string, value: string): (r: seq<(string, string)>)
    ensures Lookup(r, key) == Some(value)
    ensures forall k :: k != key ==> Lookup(r, k) == Lookup(kvs, k)
    ensures Keys(r) == Keys(kvs) + {key}
    ensures DistinctKeys(kvs) ==> DistinctKeys(r)
  {
    if kvs == [] then [(key, value)]
    else if kvs[0].0 == key then [(key, value)] + kvs[1..]
    else [kvs[0]] + Put(kvs[1..], key, value)
  }

  /**
   * parseLine's loop over the comma-separated parts: each is trimmed of
   * spaces, empty ones are skipped, and the first part parseKeyValue
   * refuses is the error.
   */
  function AddParts(kvs: seq<(string, string)>, parts: seq<string>): (r: Result<seq<(string, string)>, string>)
    ensures DistinctKeys(kvs) && r.Success? ==> DistinctKeys(r.value)
    ensures r.Success? ==> Keys(kvs) <= Keys(r.value)
    decreases |parts|
  {
    if parts == [] then Success(kvs)
    else
      var part := Trim(parts[0], {' '});
      if part == "" then AddParts(kvs, parts[1..])
      else
        match ParseKeyValue(part)
        case Failure(_) => Failure(part)
        case Success(kv) => AddParts(Put(kvs, kv.0, kv.1), parts[1..])
  }

  /** parseLine: the map of one section line, or the fragment that could not be read. */
  function ParseLine(content: string, line: nat): (r: Result<seq<(string, string)>, ParseError>)
    ensures r.Success? ==> DistinctKeys(r.value)
    ensures r.Failure? ==> r.error.BadFragment? && r.error.line == line
  {
    match AddParts([], Split(content, ','))
    case Success(kvs) => Success(kvs)
    case Failure(fragment) => Failure(BadFragment(line, fragment))
  }

  /** parseLine as the loop it is. */
  method ParseLineLoop(content: string, line: nat) returns (r: Result<seq<(string, string)>, ParseError>)
    ensures r == ParseLine(content, line)
  {
    var parts := Split(content, ',');
    var kv: seq<(string, string)> := [];
    var i := 0;
    while i < |parts|
      invariant 0 <= i <= |parts|
      invariant AddParts([], parts) == AddParts(kv, parts[i..])
    {
      var part := Trim(parts[i], {' '});
      AddPartsAt(kv, parts, i);
      if part != "" {
        var kvr := ParseKeyValue(part);
        if kvr.Failure? {
          return Failure(BadFragment(line, part));
        }
        kv := Put(kv, kvr.value.0, kvr.value.1);
      }
      i := i + 1;
    }
    assert parts[i..] == [];
    return Success(kv);
  }

  /** One step of AddParts, taken at the part with index i. */
  lemma AddPartsAt(kvs: seq<(string, string)>, parts: seq<string>, i: nat)
    requires i < |parts|
    ensures var part := Trim(parts[i], {' '});
      part == "" ==> AddParts(kvs, parts[i..]) == AddParts(kvs, parts[i + 1..])
    ensures var part := Trim(parts[i], {' '});
      part != "" && ParseKeyValue(part).Failure? ==> AddParts(kvs, parts[i..]) == Failure(part)
    ensures var part := Trim(parts[i], {' '});
      part != "" && ParseKeyValue(part).Success? ==>
        AddParts(kvs, parts[i..]) == AddParts(Put(kvs, ParseKeyValue(part).value.0, ParseKeyValue(part).value.1), parts[i + 1..])
  {
    assert parts[i..][0] == parts[i] && parts[i..][1..] == parts[i + 1..];
  }

  // ---------------------------------------------------- the state machine

  /**
   * The section being read, with the entity it is filling. A city or a
   * unit is read inside a plot, which it joins when it is closed.
   */
  datatype Open =
    | Global
    | InGame(game: Game)
    | InTeam(team: Team)
    | InPlayer(player: Player)
    | InMap(props: MapProps)
    | InPlot(plot: Plot)
    | InCity(owner: Plot, city: City)
    | InUnit(holder: Plot, unit: Unit)

  /** The save read so far and the section that is open. */
  datatype Progress = Progress(saved: WbMap, open: Open)

  const Start := Progress(WbMap(DefaultVersion, None, [], None, [], []), Global)

  /** A section line: its map applied to the open entity. */
  function Body<E>(e: E, content: string, line: nat, field: (E, string, string) -> Result<E, UnpackError>)
    : (r: Result<E, ParseError>)
    ensures r.Failure? ==> !r.error.NoGame? && r.error.line == line
    ensures ParseLine(content, line).Success? ==>
              (r.Success? <==> Unpack(e, ParseLine(content, line).value, field).Success?)
  {
    var kvs :- ParseLine(content, line);
    match Unpack(e, kvs, field)
    case Success(e') => Success(e')
    case Failure(cause) => Failure(FieldError(line, cause, content))
  }

  /** The tags that open a section outside every section. */
  predicate OpensSection(content: string) {
    content == BeginGame || content == BeginTeam || content == BeginPlayer || content == BeginMap || content == BeginPlot
  }

  /** A line outside every section: the version, or the opening tag of a section. */
  function StepGlobal(p: Progress, content: string, line: nat): (r: Result<Progress, ParseError>)
    ensures r.Success? ==> r.value.saved.(Version := p.saved.Version) == p.saved
    ensures r.Failure? ==> !r.error.NoGame? && r.error.line == line && (r.error.BadVersion? || r.error.OutsideSection?)
    ensures HasPrefix(content, VersionPrefix) ==> (r.Failure? <==> Atoi(content[|VersionPrefix|..]).None?)
    ensures HasPrefix(content, VersionPrefix) && r.Success? ==>
              r.value.open == p.open && r.value.saved.Version == Atoi(content[|VersionPrefix|..]).value
    ensures !HasPrefix(content, VersionPrefix) && OpensSection(content) ==>
              r.Success? && r.value.saved == p.saved && !r.value.open.Global?
    ensures !HasPrefix(content, VersionPrefix) && !OpensSection(content) ==> r == Failure(OutsideSection(line, content))
  {
    if HasPrefix(content, VersionPrefix) then
      var text := content[|VersionPrefix|..];
      match Atoi(text)
      case Some(v) => Success(p.(saved := p.saved.(Version := v)))
      case None => Failure(BadVersion(line, text))
    else if content == BeginGame then Success(p.(open := InGame(EmptyGame)))
    else if content == BeginTeam then Success(p.(open := InTeam(EmptyTeam)))
    else if content == BeginPlayer then Success(p.(open := InPlayer(EmptyPlayer)))
    else if content == BeginMap then Success(p.(open := InMap(EmptyMapProps)))
    else if content == BeginPlot then Success(p.(open := InPlot(EmptyPlot)))
    else Failure(OutsideSection(line, content))
  }

  /** A line inside the Map section. */
  function StepMap(p: Progress, props: MapProps, content: string, line: nat): Result<Progress, ParseError> {
    if content == EndMap then Success(Progress(p.saved.(Map := Some(props)), Global))
    else var e :- Body(props, content, line, MapField); Success(p.(open := InMap(e)))
  }

  /** A line inside a Plot section, outside its City and Unit subsections. */
  function StepPlot(p: Progress, plot: Plot, content: string, line: nat): Result<Progress, ParseError> {
    if content == EndPlot then Success(Progress(p.saved.(Plots := p.saved.Plots + [plot]), Global))
    else if content == BeginCity then Success(p.(open := InCity(plot, EmptyCity)))
    else if content == BeginUnit then Success(p.(open := InUnit(plot, EmptyUnit)))
    else var e :- Body(plot, content, line, PlotField); Success(p.(open := InPlot(e)))
  }

  /**
   * The culture pattern a City section is read with: the one City.Unpack
   * compiles, or the corrected one that matches the keys the writer uses.
   * ParseWbMap is the parser as written; the corrected parser is the one
   * the round trip of every readable save holds for.
   */
  datatype CulturePattern = AsWritten | Corrected

  function CityReader(pattern: CulturePattern): (City, string, string) -> Result<City, UnpackError> {
    if pattern.AsWritten? then CityFieldAsWritten else CityField
  }

  /** A line inside a City subsection; the closing tag appends the city to its plot. */
  function StepCity(pattern: CulturePattern, p: Progress, plot: Plot, city: City, content: string, line: nat)
    : Result<Progress, ParseError>
  {
    if content == EndCity then Success(p.(open := InPlot(plot.(Cities := plot.Cities + [city]))))
    else var e :- Body(city, content, line, CityReader(pattern)); Success(p.(open := InCity(plot, e)))
  }

  /** A line inside a Unit subsection; the closing tag appends the unit to its plot. */
  function StepUnit(p: Progress, plot: Plot, unit: Unit, content: string, line: nat): Result<Progress, ParseError> {
    if content == EndUnit then Success(p.(open := InPlot(plot.(Units := plot.Units + [unit]))))
    else var e :- Body(unit, content, line, UnitField); Success(p.(open := InUnit(plot, e)))
  }

  function StepPlayer(p: Progress, player: Player, content: string, line: nat): Result<Progress, ParseError> {
    if content == EndPlayer then Success(Progress(p.saved.(Players := p.saved.Players + [player]), Global))
    else var e :- Body(player, content, line, PlayerField); Success(p.(open := InPlayer(e)))
  }

  function StepTeam(p: Progress, team: Team, content: string, line: nat): Result<Progress, ParseError> {
    if content == EndTeam then Success(Progress(p.saved.(Teams := p.saved.Teams + [team]), Global))
    else var e :- Body(team, content, line, TeamField); Success(p.(open := InTeam(e)))
  }

  function StepGame(p: Progress, game: Game, content: string, line: nat): Result<Progress, ParseError> {
    if content == EndGame then Success(Progress(p.saved.(Game := Some(game)), Global))
    else var e :- Body(game, content, line, GameField); Success(p.(open := InGame(e)))
  }

  /** One trimmed, non-blank, non-comment line in the state `p`: the switch on the open section. */
  function Step(pattern: CulturePattern, p: Progress, content: string, line: nat): (r: Result<Progress, ParseError>)
    ensures r.Failure? ==> !r.error.NoGame? && r.error.line == line
  {
    match p.open
    case Global => StepGlobal(p, content, line)
    case InMap(props) => StepMap(p, props, content, line)
    case InPlot(plot) => StepPlot(p, plot, content, line)
    case InCity(plot, city) => StepCity(pattern, p, plot, city, content, line)
    case InUnit(plot, unit) => StepUnit(p, plot, unit, content, line)
    case InPlayer(player) => StepPlayer(p, player, content, line)
    case InTeam(team) => StepTeam(p, team, content, line)
    case InGame(game) => StepGame(p, game, content, line)
  }

  /** Lines the scanner loop skips once trimmed. */
  predicate Skipped(content: string) {
    content == "" || HasPrefix(content, "#")
  }

  const Blank: set<char> := {' ', '\t'}

  /** The scanner loop from line number `done` + 1 on; stops at the first error. */
  function Run(pattern: CulturePattern, p: Progress, lines: seq<string>, done: nat): (r: Result<Progress, ParseError>)
    ensures r.Failure? ==> !r.error.NoGame? && done < r.error.line <= done + |lines|
    decreases |lines|
  {
    if lines == [] then Success(p)
    else
      var content := Trim(lines[0], Blank);
      if Skipped(content) then Run(pattern, p, lines[1..], done + 1)
      else
        var next :- Step(pattern, p, content, done + 1);
        Run(pattern, next, lines[1..], done + 1)
  }

  /**
   * ParseWbMap on the scanned lines: whatever sections were closed, with
   * any section left open at the end dropped; a save without a Game
   * section is refused.
   */
  function ParseLines(pattern: CulturePattern, lines: seq<string>): (r: Result<WbMap, ParseError>)
    ensures r.Success? ==> r.value.Game.Some?
    ensures Run(pattern, Start, lines, 0).Failure? ==> r == Failure(Run(pattern, Start, lines, 0).error)
    ensures Run(pattern, Start, lines, 0).Success? ==>
              (r.Failure? <==> Run(pattern, Start, lines, 0).value.saved.Game.None?)
    ensures r.Failure? ==> (r.error.NoGame? <==> Run(pattern, Start, lines, 0).Success?)
    ensures r.Success? ==> r.value == Run(pattern, Start, lines, 0).value.saved
  {
    var last :- Run(pattern, Start, lines, 0);
    if last.saved.Game.None? then Failure(NoGame) else Success(last.saved)
  }

  /** ParseWbMap on the bytes of a save. */
  function Parse(pattern: CulturePattern, input: string): Result<WbMap, ParseError> {
    ParseLines(pattern, Lines(input))
  }

  // ------------------------------------------- what the scanner loop stores

  /** No line of `lines`, once trimmed, is `tag`. */
  predicate Lacks(lines: seq<string>, tag: string) {
    forall i :: 0 <= i < |lines| ==> Trim(lines[i], Blank) != tag
  }

  /** No line of `lines`, once trimmed, is a version line. */
  predicate NoVersionLine(lines: seq<string>) {
    forall i :: 0 <= i < |lines| ==> !HasPrefix(Trim(lines[i], Blank), VersionPrefix)
  }

  lemma LinesTail(lines: seq<string>)
    requires lines != []
    ensures forall tag :: Lacks(lines, tag) ==> Lacks(lines[1..], tag) && Trim(lines[0], Blank) != tag
    ensures NoVersionLine(lines) ==> NoVersionLine(lines[1..]) && !HasPrefix(Trim(lines[0], Blank), VersionPrefix)
  {
    assert forall i :: 0 <= i < |lines[1..]| ==> lines[1..][i] == lines[i + 1];
    assert lines[0] == lines[..1][0];
  }

  /** Going from `before` to `after` stores a section only at its closing tag, and sets the version only at a version line. */
  predicate StoresOnlyAt(content: string, before: WbMap, after: WbMap) {
    && (content != EndGame ==> after.Game == before.Game)
    && (content != EndTeam ==> after.Teams == before.Teams)
    && (content != EndPlayer ==> after.Players == before.Players)
    && (content != EndMap ==> after.Map == before.Map)
    && (content != EndPlot ==> after.Plots == before.Plots)
    && (!HasPrefix(content, VersionPrefix) ==> after.Version == before.Version)
  }

  lemma StepGlobalStores(p: Progress, content: string, line: nat)
    requires StepGlobal(p, content, line).Success?
    ensures StoresOnlyAt(content, p.saved, StepGlobal(p, content, line).value.saved)
  {
  }

  lemma StepMapStores(p: Progress, props: MapProps, content: string, line: nat)
    requires StepMap(p, props, content, line).Success?
    ensures StoresOnlyAt(content, p.saved, StepMap(p, props, content, line).value.saved)
  {
  }

  lemma StepPlotStores(p: Progress, plot: Plot, content: string, line: nat)
    requires StepPlot(p, plot, content, line).Success?
    ensures StoresOnlyAt(content, p.saved, StepPlot(p, plot, content, line).value.saved)
  {
  }

  lemma StepCityStores(pattern: CulturePattern, p: Progress, plot: Plot, city: City, content: string, line: nat)
    requires StepCity(pattern, p, plot, city, content, line).Success?
    ensures StoresOnlyAt(content, p.saved, StepCity(pattern, p, plot, city, content, line).value.saved)
  {
  }

  lemma StepUnitStores(p: Progress, plot: Plot, unit: Unit, content: string, line: nat)
    requires StepUnit(p, plot, unit, content, line).Success?
    ensures StoresOnlyAt(content, p.saved, StepUnit(p, plot, unit, content, line).value.saved)
  {
  }

  lemma StepPlayerStores(p: Progress, player: Player, content: string, line: nat)
    requires StepPlayer(p, player, content, line).Success?
    ensures StoresOnlyAt(content, p.saved, StepPlayer(p, player, content, line).value.saved)
  {
  }

  lemma StepTeamStores(p: Progress, team: Team, content: string, line: nat)
    requires StepTeam(p, team, content, line).Success?
    ensures StoresOnlyAt(content, p.saved, StepTeam(p, team, content, line).value.saved)
  {
  }

  lemma StepGameStores(p: Progress, game: Game, content: string, line: nat)
    requires StepGame(p, game, content, line).Success?
    ensures StoresOnlyAt(content, p.saved, StepGame(p, game, content, line).value.saved)
  {
  }

  /** Step hands a line to the function of the section that is open. */
  lemma StepCases(pattern: CulturePattern, p: Progress, content: string, line: nat)
    ensures p.open.Global? ==> Step(pattern, p, content, line) == StepGlobal(p, content, line)
    ensures p.open.InGame? ==> Step(pattern, p, content, line) == StepGame(p, p.open.game, content, line)
    ensures p.open.InTeam? ==> Step(pattern, p, content, line) == StepTeam(p, p.open.team, content, line)
    ensures p.open.InPlayer? ==> Step(pattern, p, content, line) == StepPlayer(p, p.open.player, content, line)
    ensures p.open.InMap? ==> Step(pattern, p, content, line) == StepMap(p, p.open.props, content, line)
    ensures p.open.InPlot? ==> Step(pattern, p, content, line) == StepPlot(p, p.open.plot, content, line)
    ensures p.open.InCity? ==> Step(pattern, p, content, line) == StepCity(pattern, p, p.open.owner, p.open.city, content, line)
    ensures p.open.InUnit? ==> Step(pattern, p, content, line) == StepUnit(p, p.open.holder, p.open.unit, content, line)
  {
  }

  /** One step stores a section only at its closing tag, and sets the version only at a version line. */
  lemma StepStores(pattern: CulturePattern, p: Progress, content: string, line: nat)
    requires Step(pattern, p, content, line).Success?
    ensures StoresOnlyAt(content, p.saved, Step(pattern, p, content, line).value.saved)
  {
    StepCases(pattern, p, content, line);
    match p.open
    case Global => StepGlobalStores(p, content, line);
    case InMap(props) => StepMapStores(p, props, content, line);
    case InPlot(plot) => StepPlotStores(p, plot, content, line);
    case InCity(plot, city) => StepCityStores(pattern, p, plot, city, content, line);
    case InUnit(plot, unit) => StepUnitStores(p, plot, unit, content, line);
    case InPlayer(player) => StepPlayerStores(p, player, content, line);
    case InTeam(team) => StepTeamStores(p, team, content, line);
    case InGame(game) => StepGameStores(p, game, content, line);
  }

  /**
   * The scanner loop stores a Game, Team, Player, Map or Plot section only
   * when it reads its closing tag, and sets the version only at a version
   * line: an entity whose End tag never comes is dropped.
   */
  lemma {:induction false} RunStores(pattern: CulturePattern, p: Progress, lines: seq<string>, done: nat)
    requires Run(pattern, p, lines, done).Success?
    ensures var s := Run(pattern, p, lines, done).value.saved;
            && (Lacks(lines, EndGame) ==> s.Game == p.saved.Game)
            && (Lacks(lines, EndTeam) ==> s.Teams == p.saved.Teams)
            && (Lacks(lines, EndPlayer) ==> s.Players == p.saved.Players)
            && (Lacks(lines, EndMap) ==> s.Map == p.saved.Map)
            && (Lacks(lines, EndPlot) ==> s.Plots == p.saved.Plots)
            && (NoVersionLine(lines) ==> s.Version == p.saved.Version)
    decreases |lines|
  {
    if lines != [] {
      LinesTail(lines);
      var content := Trim(lines[0], Blank);
      if Skipped(content) {
        RunStores(pattern, p, lines[1..], done + 1);
      } else {
        var next := Step(pattern, p, content, done + 1).value;
        StepStores(pattern, p, content, done + 1);
        RunStores(pattern, next, lines[1..], done + 1);
      }
    }
  }

  /** ParseWbMap stores a game only at an `EndGame` line: a text without one is refused. */
  lemma NoEndGameRefused(pattern: CulturePattern, lines: seq<string>)
    requires Lacks(lines, EndGame)
    ensures ParseLines(pattern, lines).Failure?
    ensures Run(pattern, Start, lines, 0).Success? ==> ParseLines(pattern, lines) == Failure(NoGame)
  {
    if Run(pattern, Start, lines, 0).Success? {
      RunStores(pattern, Start, lines, 0);
    }
  }

  /** Without a version line, a parsed save keeps the default version, 11. */
  lemma DefaultVersionKept(pattern: CulturePattern, lines: seq<string>)
    requires NoVersionLine(lines) && ParseLines(pattern, lines).Success?
    ensures ParseLines(pattern, lines).value.Version == DefaultVersion == 11
  {
    RunStores(pattern, Start, lines, 0);
  }

  /** The step of the corrected parser, as the scanner of WbRows takes it. */
  function CorrectedStep(p: Progress, content: string, line: nat): Result<Progress, ParseError> {
    Step(Corrected, p, content, line)
  }

  // ------------------------------------------------- the scanner loop

  /** A section line in ParseWbMap: parseLine, then the entity's Unpack loop. */
  method ReadBody<E>(e: E, content: string, line: nat, field: (E, string, string) -> Result<E, UnpackError>)
    returns (r: Result<E, ParseError>)
    ensures r == Body(e, content, line, field)
  {
    var parsed := ParseLineLoop(content, line);
    if parsed.Failure? {
      return Failure(parsed.error);
    }
    var unpacked := UnpackLine(e, parsed.value, field);
    if unpacked.Failure? {
      return Failure(FieldError(line, unpacked.error, content));
    }
    return Success(unpacked.value);
  }

  /**
   * The switch on the parser state in ParseWbMap's loop, for one trimmed
   * line that is neither blank nor a comment. Go keeps the state code and
   * one variable per open entity; here they are the one value `p.open`.
   */
  method ScanLine(p: Progress, content: string, line: nat) returns (r: Result<Progress, ParseError>)
    ensures r == Step(AsWritten, p, content, line)
  {
    var wbMap := p.saved;
    match p.open {
      case Global =>
        if HasPrefix(content, VersionPrefix) {
          var text := content[|VersionPrefix|..];
          var version := Atoi(text);
          if version.None? {
            return Failure(BadVersion(line, text));
          }
          return Success(p.(saved := wbMap.(Version := version.value)));
        } else if content == BeginGame {
          return Success(p.(open := InGame(EmptyGame)));
        } else if content == BeginTeam {
          return Success(p.(open := InTeam(EmptyTeam)));
        } else if content == BeginPlayer {
          return Success(p.(open := InPlayer(EmptyPlayer)));
        } else if content == BeginMap {
          return Success(p.(open := InMap(EmptyMapProps)));
        } else if content == BeginPlot {
          return Success(p.(open := InPlot(EmptyPlot)));
        }
        return Failure(OutsideSection(line, content));
      case InMap(mapProps) =>
        if content == EndMap {
          return Success(Progress(wbMap.(Map := Some(mapProps)), Global));
        }
        var next := ReadBody(mapProps, content, line, MapField);
        if next.Failure? {
          return Failure(next.error);
        }
        return Success(p.(open := InMap(next.value)));
      case InPlot(lastPlot) =>
        if content == EndPlot {
          return Success(Progress(wbMap.(Plots := wbMap.Plots + [lastPlot]), Global));
        } else if content == BeginCity {
          return Success(p.(open := InCity(lastPlot, EmptyCity)));
        } else if content == BeginUnit {
          return Success(p.(open := InUnit(lastPlot, EmptyUnit)));
        }
        var next := ReadBody(lastPlot, content, line, PlotField);
        if next.Failure? {
          return Failure(next.error);
        }
        return Success(p.(open := InPlot(next.value)));
      case InCity(lastPlot, lastCity) =>
        if content == EndCity {
          return Success(p.(open := InPlot(lastPlot.(Cities := lastPlot.Cities + [lastCity]))));
        }
        var next := ReadBody(lastCity, content, line, CityFieldAsWritten);
        if next.Failure? {
          return Failure(next.error);
        }
        return Success(p.(open := InCity(lastPlot, next.value)));
      case InUnit(lastPlot, lastUnit) =>
        if content == EndUnit {
          return Success(p.(open := InPlot(lastPlot.(Units := lastPlot.Units + [lastUnit]))));
        }
        var next := ReadBody(lastUnit, content, line, UnitField);
        if next.Failure? {
          return Failure(next.error);
        }
        return Success(p.(open := InUnit(lastPlot, next.value)));
      case InPlayer(lastPlayer) =>
        if content == EndPlayer {
          return Success(Progress(wbMap.(Players := wbMap.Players + [lastPlayer]), Global));
        }
        var next := ReadBody(lastPlayer, content, line, PlayerField);
        if next.Failure? {
          return Failure(next.error);
        }
        return Success(p.(open := InPlayer(next.value)));
      case InTeam(lastTeam) =>
        if content == EndTeam {
          return Success(Progress(wbMap.(Teams := wbMap.Teams + [lastTeam]), Global));
        }
        var next := ReadBody(lastTeam, content, line, TeamField);
        if next.Failure? {
          return Failure(next.error);
        }
        return Success(p.(open := InTeam(next.value)));
      case InGame(game) =>
        if content == EndGame {
          return Success(Progress(wbMap.(Game := Some(game)), Global));
        }
        var next := ReadBody(game, content, line, GameField);
        if next.Failure? {
          return Failure(next.error);
        }
        return Success(p.(open := InGame(next.value)));
    }
  }

  /** One turn of the scanner loop, as Run takes it. */
  lemma RunNext(pattern: CulturePattern, p: Progress, lines: seq<string>, done: nat)
    requires lines != []
    ensures Skipped(Trim(lines[0], Blank)) ==> Run(pattern, p, lines, done) == Run(pattern, p, lines[1..], done + 1)
    ensures !Skipped(Trim(lines[0], Blank)) ==>
              Run(pattern, p, lines, done) ==
              match Step(pattern, p, Trim(lines[0], Blank), done + 1)
              case Success(next) => Run(pattern, next, lines[1..], done + 1)
              case Failure(e) => Failure(e)
  {
  }

  /** The turn of the scanner loop at the line after `line`, as ParseWbMap takes it. */
  lemma RunAt(pattern: CulturePattern, p: Progress, lines: seq<string>, line: nat)
    requires line < |lines|
    ensures var content := Trim(lines[line], Blank);
            && (Skipped(content) ==> Run(pattern, p, lines[line..], line) == Run(pattern, p, lines[line + 1..], line + 1))
            && (!Skipped(content) && Step(pattern, p, content, line + 1).Failure? ==>
                  Run(pattern, p, lines[line..], line) == Failure(Step(pattern, p, content, line + 1).error))
            && (!Skipped(content) && Step(pattern, p, content, line + 1).Success? ==>
                  Run(pattern, p, lines[line..], line) ==
                  Run(pattern, Step(pattern, p, content, line + 1).value, lines[line + 1..], line + 1))
  {
    RunNext(pattern, p, lines[line..], line);
    assert lines[line..][0] == lines[line] && lines[line..][1..] == lines[line + 1..];
  }

  /** Past the last line the scanner loop has nothing left to do. */
  lemma RunEnd(pattern: CulturePattern, p: Progress, lines: seq<string>, line: nat)
    requires line == |lines|
    ensures Run(pattern, p, lines[line..], line) == Success(p)
  {
    assert lines[line..] == [];
  }

  /**
   * ParseWbMap: the scanner loop over the lines of `input`, then the check
   * that a Game section was read. City sections are read with the culture
   * pattern the source compiles.
   */
  method ParseWbMap(input: string) returns (r: Result<WbMap, ParseError>)
    ensures r == Parse(AsWritten, input)
  {
    var lines := Lines(input);
    var current := Start;
    var line := 0;
    while line < |lines|
      invariant 0 <= line <= |lines|
      invariant Run(AsWritten, Start, lines, 0) == Run(AsWritten, current, lines[line..], line)
    {
      var content := Trim(lines[line], Blank);
      RunAt(AsWritten, current, lines, line);
      line := line + 1;
      if Skipped(content) {
        continue;
      }
      var next := ScanLine(current, content, line);
      if next.Failure? {
        return Failure(next.error);
      }
      current := next.value;
    }
    RunEnd(AsWritten, current, lines, line);
    if current.saved.Game.None? {
      return Failure(NoGame);
    }
    return Success(current.saved);
  }

  /** A player whose civilization and leader are both NONE: a placeholder slot. */
  predicate Placeholder(p: Player) {
    p.CivType == NonePlayer && p.LeaderType == NonePlayer
  }

  function CountPlaceholders(players: seq<Player>): (n: nat)
    ensures n <= |players|
  {
    if players == [] then 0
    else (if Placeholder(players[0]) then 1 else 0) + CountPlaceholders(players[1..])
  }

  /** The tally ParseWbMap logs once the loop is done: real players and placeholders. */
  method TallyPlayers(players: seq<Player>) returns (realPlayers: nat, emptyPlayers: nat)
    ensures emptyPlayers == CountPlaceholders(players)
    ensures realPlayers + emptyPlayers == |players|
  {
    realPlayers, emptyPlayers := 0, 0;
    var i := 0;
    while i < |players|
      invariant 0 <= i <= |players|
      invariant emptyPlayers + CountPlaceholders(players[i..]) == CountPlaceholders(players)
      invariant realPlayers + emptyPlayers == i
    {
      assert players[i..][1..] == players[i + 1..];
      if Placeholder(players[i]) {
        emptyPlayers := emptyPlayers + 1;
      } else {
        realPlayers := realPlayers + 1;
      }
      i := i + 1;
    }
    assert players[i..] == [];
  }
}
