/**
 * The tile-type loader (utils/TileLoader.java): a line-by-line reading of a
 * small JSON file in which `"<id>": {` opens a tile, `"file"` and
 * `"collision"` lines fill it in and a line holding `}` stores it.
 */
module TileLoading {
  import opened Wrappers
  import opened JavaInt
  import opened JavaString
  import opened Tiles

  /** extractValue: what follows the first ':', with every '"' and ',' removed, trimmed. */
  function ExtractValue(line: string): (v: string)
    ensures '"' !in v && ',' !in v
  {
    var start := IndexOf(line, ':') + 1;
    Trim(Remove(Remove(line[start..], '"'), ','))
  }

  /**
   * A `"key": value` line gives back its value: with or without quotes
   * around it and a trailing comma, a value free of quotes, commas and
   * surrounding blanks comes out as written.
   */
  lemma ExtractValueOf(key: string, pad: string, q: string, v: string, comma: string)
    requires ':' !in key
    requires forall i :: 0 <= i < |pad| ==> IsTrimmable(pad[i])
    requires q == "" || q == "\""
    requires comma == "" || comma == ","
    requires '"' !in v && ',' !in v && (v == [] || (!IsTrimmable(v[0]) && !IsTrimmable(v[|v| - 1])))
    ensures ExtractValue(key + ":" + (pad + q + v + q + comma)) == v
  {
    var rest := pad + q + v + q + comma;
    AfterColon(key, rest);
    assert '"' !in pad && ',' !in pad by {
      forall i | 0 <= i < |pad| ensures pad[i] != '"' && pad[i] != ',' {
        assert IsTrimmable(pad[i]);
      }
    }
    assert '"' !in comma;
    RemoveQuotes(pad, q, v, comma);
    var b := pad + v;
    assert Remove(comma, ',') == [] by { if comma != [] { assert comma[1..] == []; } }
    RemoveAbsent(pad, ',');
    RemoveAbsent(v, ',');
    RemoveAppend(pad, v, ',');
    assert Remove(b, ',') == b;
    RemoveAppend(b, comma, ',');
    assert Remove(b + comma, ',') == b;
    TrimStartSkips(pad, v);
    TrimOfTrimmed(v);
  }

  /** extractValue looks only at what follows the first colon. */
  lemma AfterColon(key: string, rest: string)
    requires ':' !in key
    ensures ExtractValue(key + ":" + rest) == Trim(Remove(Remove(rest, '"'), ','))
  {
    var line := key + ":" + rest;
    assert line[|key|] == ':';
    assert line[..|key|] == key;
    IndexOfAt(line, ':', |key|);
    assert line[|key| + 1..] == rest;
  }

  lemma RemoveQuotes(pad: string, q: string, v: string, comma: string)
    requires q == "" || q == "\""
    requires '"' !in pad && '"' !in v && '"' !in comma
    ensures Remove(pad + q + v + q + comma, '"') == pad + v + comma
  {
    var a := pad + q;
    var b := a + v;
    var c := b + q;
    assert Remove(q, '"') == [] by { if q != [] { assert q[1..] == []; } }
    RemoveAbsent(pad, '"');
    RemoveAbsent(v, '"');
    RemoveAbsent(comma, '"');
    RemoveAppend(pad, q, '"');
    assert Remove(a, '"') == pad;
    RemoveAppend(a, v, '"');
    assert Remove(b, '"') == pad + v;
    RemoveAppend(b, q, '"');
    assert Remove(c, '"') == pad + v;
    RemoveAppend(c, comma, '"');
  }

  /** The characters `\s` matches in a Java regular expression: space, \t, \n, \x0B, \f and \r. */
  predicate IsRegexSpace(c: char) {
    c == ' ' || 0x09 <= c as int <= 0x0D
  }

  predicate AllRegexSpace(s: string) {
    forall i :: 0 <= i < |s| ==> IsRegexSpace(s[i])
  }

  /** `s` without its leading `\s*`. */
  function DropSpaces(s: string): (r: string)
    ensures |r| <= |s| && r == s[|s| - |r|..]
    ensures AllRegexSpace(s[..|s| - |r|])
    ensures r == [] || !IsRegexSpace(r[0])
  {
    if s != [] && IsRegexSpace(s[0]) then DropSpaces(s[1..]) else s
  }

  /** `s` matches `\s*:\s*\{`. */
  predicate HeaderTail(s: string) {
    var a := DropSpaces(s);
    a != [] && a[0] == ':' && DropSpaces(a[1..]) == "{"
  }

  /**
   * The id line test `^"\d+"\s*:\s*\{` on a whole (trimmed) line: the digits
   * between the opening quote and the next one, or None when the line does
   * not match.
   */
  function IdHeader(line: string): (d: Option<string>)
    ensures d.Some? ==> d.value != [] && AllDigits(d.value)
    ensures d.Some? ==> |d.value| + 2 <= |line| && line[0] == '"' && line[1..|d.value| + 1] == d.value && line[|d.value| + 1] == '"'
    ensures d.Some? ==> HeaderTail(line[|d.value| + 2..])
  {
    if |line| < 2 || line[0] != '"' then None
    else
      var close := IndexOfFrom(line, '"', 1);
      if close == -1 then None
      else
        var digits := line[1..close];
        if digits == [] || !AllDigits(digits) || !HeaderTail(line[close + 1..]) then None
        else Some(digits)
  }

  lemma {:induction false} DropSpacesSkips(w: string, s: string)
    requires AllRegexSpace(w) && (s == [] || !IsRegexSpace(s[0]))
    ensures DropSpaces(w + s) == s
  {
    if w != [] {
      assert (w + s)[1..] == w[1..] + s;
      DropSpacesSkips(w[1..], s);
    }
  }

  /** `<spaces> : <spaces> {` is a header tail. */
  lemma HeaderTailOf(w1: string, w2: string)
    requires AllRegexSpace(w1) && AllRegexSpace(w2)
    ensures HeaderTail(w1 + ":" + w2 + "{")
  {
    assert w1 + ":" + w2 + "{" == w1 + (":" + w2 + "{");
    DropSpacesSkips(w1, ":" + w2 + "{");
    assert (":" + w2 + "{")[1..] == w2 + "{";
    DropSpacesSkips(w2, "{");
  }

  /**
   * The converse of IdHeader's contract: every line made of quoted digits
   * and a header tail is an id line, for those digits.
   */
  lemma IdHeaderOf(line: string, d: string)
    requires d != [] && AllDigits(d) && |d| + 2 <= |line|
    requires line[0] == '"' && line[1..|d| + 1] == d && line[|d| + 1] == '"'
    requires HeaderTail(line[|d| + 2..])
    ensures IdHeader(line) == Some(d)
  {
    ClosingQuote(line, d);
  }

  /** The quote that closes a run of digits is the first one after the opening quote. */
  lemma ClosingQuote(line: string, d: string)
    requires AllDigits(d) && |d| + 2 <= |line|
    requires line[1..|d| + 1] == d && line[|d| + 1] == '"'
    ensures IndexOfFrom(line, '"', 1) == |d| + 1
  {
    assert '"' !in d by {
      forall i | 0 <= i < |d| ensures d[i] != '"' { assert IsDigit(d[i]); }
    }
    IndexOfFromAt(line, '"', 1, |d| + 1);
  }

  /** Why loadTiles throws its RuntimeException. */
  datatype TileLoadError =
    | JsonNotFound
    | ImageNotFound(path: string)
    | BadId(digits: string)
    | NoCurrentTile

  /**
   * The tile being read. Java puts the very Tile object in the map at `}`,
   * so later "file" and "collision" lines of the same block still change
   * the stored entry: `stored` records that the entry is this tile.
   */
  datatype Current = Current(id: int, tile: Tile, stored: bool)

  datatype TileLoadState = TileLoadState(current: Option<Current>, tileMap: map<int, Tile>)

  const Initial := TileLoadState(None, map[])

  /** A stored current tile is the map entry under its id. */
  predicate Consistent(st: TileLoadState) {
    st.current.Some? && st.current.value.stored ==>
      st.current.value.id in st.tileMap && st.tileMap[st.current.value.id] == st.current.value.tile
  }

  /** The current tile changed to `t`, and with it the map entry it is stored as, if any. */
  function Retile(st: TileLoadState, c: Current, t: Tile): TileLoadState {
    TileLoadState(Some(c.(tile := t)), if c.stored then st.tileMap[c.id := t] else st.tileMap)
  }

  /**
   * One pass of loadTiles' loop on a raw line: trim it, then classify it as
   * an id line, a "file" line, a "collision" line or a closing line, the
   * first test that matches deciding. `resourceExists` stands for
   * getResourceAsStream finding the image.
   */
  function TileStep(st: TileLoadState, rawLine: string, basePath: string, resourceExists: string -> bool)
    : Result<TileLoadState, TileLoadError>
  {
    var line := Trim(rawLine);
    match IdHeader(line)
    case Some(digits) =>
      (match ParseInt(digits)
       case None => Failure(BadId(digits))
       case Some(id) => Success(st.(current := Some(Current(id, NewTile, false)))))
    case None =>
      if Contains(line, "\"file\"") then
        var path := basePath + ExtractValue(line);
        if !resourceExists(path) then Failure(ImageNotFound(path))
        else if st.current.None? then Failure(NoCurrentTile)
        else Success(Retile(st, st.current.value, st.current.value.tile.(image := Some(path))))
      else if Contains(line, "\"collision\"") then
        if st.current.None? then Failure(NoCurrentTile)
        else Success(Retile(st, st.current.value, st.current.value.tile.(collision := ParseBoolean(ExtractValue(line)))))
      else if Contains(line, "}") then
        if st.current.None? then Success(st)
        else
          var c := st.current.value;
          Success(TileLoadState(Some(c.(stored := true)), st.tileMap[c.id := c.tile]))
      else Success(st)
  }

  /** The loop over all lines, stopping at the first exception. */
  function RunTiles(st: TileLoadState, lines: seq<string>, basePath: string, resourceExists: string -> bool)
    : Result<TileLoadState, TileLoadError>
    decreases |lines|
  {
    if lines == [] then Success(st)
    else
      var next :- TileStep(st, lines[0], basePath, resourceExists);
      RunTiles(next, lines[1..], basePath, resourceExists)
  }

  /** loadTiles as a function of the JSON file's lines (None: the resource is missing). */
  function LoadTilesSpec(json: Option<seq<string>>, basePath: string, resourceExists: string -> bool)
    : Result<map<int, Tile>, TileLoadError>
  {
    match json
    case None => Failure(JsonNotFound)
    case Some(lines) =>
      var st :- RunTiles(Initial, lines, basePath, resourceExists);
      Success(st.tileMap)
  }

  /** Every step keeps a stored current tile equal to its map entry. */
  lemma StepConsistent(st: TileLoadState, line: string, basePath: string, resourceExists: string -> bool)
    requires Consistent(st)
    ensures TileStep(st, line, basePath, resourceExists).Success? ==> Consistent(TileStep(st, line, basePath, resourceExists).value)
  {
    var t := Trim(line);
    var r := TileStep(st, line, basePath, resourceExists);
    match IdHeader(t)
    case Some(d) =>
      assert r.Success? ==> r.value.current.value.stored == false;
    case None =>
      if Contains(t, "\"file\"") {
        var path := basePath + ExtractValue(t);
        if resourceExists(path) && st.current.Some? {
          var c := st.current.value;
          assert r == Success(Retile(st, c, c.tile.(image := Some(path))));
        } else {
          assert r.Failure?;
        }
      } else if Contains(t, "\"collision\"") {
        if st.current.Some? {
          var c := st.current.value;
          assert r == Success(Retile(st, c, c.tile.(collision := ParseBoolean(ExtractValue(t)))));
        } else {
          assert r.Failure?;
        }
      } else if Contains(t, "}") && st.current.Some? {
        var c := st.current.value;
        assert r == Success(TileLoadState(Some(c.(stored := true)), st.tileMap[c.id := c.tile]));
      } else {
        assert r == Success(st);
      }
  }

  lemma {:induction false} RunConsistent(st: TileLoadState, lines: seq<string>, basePath: string, resourceExists: string -> bool)
    requires Consistent(st)
    decreases |lines|
    ensures RunTiles(st, lines, basePath, resourceExists).Success? ==> Consistent(RunTiles(st, lines, basePath, resourceExists).value)
  {
    if lines != [] {
      StepConsistent(st, lines[0], basePath, resourceExists);
      var next := TileStep(st, lines[0], basePath, resourceExists);
      if next.Success? {
        RunConsistent(next.value, lines[1..], basePath, resourceExists);
      }
    }
  }

  /**
   * An id line starts a new tile with that id, no image and collision off,
   * and leaves the map alone; a repeated id starts afresh too.
   */
  lemma IdLineStartsTile(st: TileLoadState, line: string, d: string, basePath: string, resourceExists: string -> bool)
    requires IdHeader(Trim(line)) == Some(d) && DigitsValue(d) <= MAX
    ensures TileStep(st, line, basePath, resourceExists)
         == Success(TileLoadState(Some(Current(DigitsValue(d), Tile(None, false), false)), st.tileMap))
  {
    ParseDigits(d);
  }

  /** An id line whose digits exceed the int range fails where Integer.parseInt throws. */
  lemma IdLineBadNumberFails(st: TileLoadState, line: string, d: string, basePath: string, resourceExists: string -> bool)
    requires IdHeader(Trim(line)) == Some(d) && DigitsValue(d) > MAX
    ensures TileStep(st, line, basePath, resourceExists) == Failure(BadId(d))
  {
    ParseDigits(d);
  }

  /** Every line `"<digits>" <spaces> : <spaces> {` is an id line, for those digits. */
  lemma IdLineOf(d: string, w1: string, w2: string)
    requires d != [] && AllDigits(d) && AllRegexSpace(w1) && AllRegexSpace(w2)
    ensures IdHeader(Trim("\"" + d + "\"" + (w1 + ":" + w2 + "{"))) == Some(d)
  {
    var line := "\"" + d + "\"" + (w1 + ":" + w2 + "{");
    HeaderTailOf(w1, w2);
    QuotedShape(d, w1 + ":" + w2 + "{");
    IdHeaderOf(line, d);
    TrimOfTrimmed(line);
  }

  /** A line holding `}` (and not matching an earlier test) stores the current tile under its id, replacing any earlier entry. */
  lemma CloseStoresTile(st: TileLoadState, line: string, basePath: string, resourceExists: string -> bool)
    requires var t := Trim(line);
      IdHeader(t).None? && !Contains(t, "\"file\"") && !Contains(t, "\"collision\"") && Contains(t, "}")
    requires st.current.Some?
    ensures var r := TileStep(st, line, basePath, resourceExists);
      && r.Success?
      && r.value.tileMap == st.tileMap[st.current.value.id := st.current.value.tile]
      && r.value.tileMap[st.current.value.id] == st.current.value.tile
  {
  }

  /**
   * A "collision" line sets the flag exactly when the value reads "true" in
   * any letter case, and changes nothing else of the tile; a tile already
   * stored is changed in the map as well.
   */
  lemma CollisionLineSetsFlag(st: TileLoadState, line: string, basePath: string, resourceExists: string -> bool)
    requires Consistent(st)
    requires var t := Trim(line); IdHeader(t).None? && !Contains(t, "\"file\"") && Contains(t, "\"collision\"")
    requires st.current.Some?
    ensures var r := TileStep(st, line, basePath, resourceExists);
      && r.Success? && r.value.current.Some?
      && (r.value.current.value.tile.collision <==> ToUpper(ExtractValue(Trim(line))) == "TRUE")
      && r.value.current.value.tile.image == st.current.value.tile.image
      && r.value.current.value.id == st.current.value.id
      && Consistent(r.value)
  {
  }

  /** A "file" or "collision" line before any id line is an error, as is a missing image. */
  lemma PropertyWithoutTileFails(st: TileLoadState, line: string, basePath: string, resourceExists: string -> bool)
    requires st.current.None?
    requires var t := Trim(line); IdHeader(t).None? && (Contains(t, "\"file\"") || Contains(t, "\"collision\""))
    ensures TileStep(st, line, basePath, resourceExists).Failure?
  {
    var t := Trim(line);
    if Contains(t, "\"file\"") {
      var path := basePath + ExtractValue(t);
      assert TileStep(st, line, basePath, resourceExists)
          == if resourceExists(path) then Failure(NoCurrentTile) else Failure(ImageNotFound(path));
    } else {
      assert TileStep(st, line, basePath, resourceExists) == Failure(NoCurrentTile);
    }
  }

  /**
   * A "file" line naming an existing image sets the current tile's image to
   * that path and changes nothing else of the tile; a tile already stored is
   * changed in the map as well.
   */
  lemma FileLineSetsImage(st: TileLoadState, line: string, basePath: string, resourceExists: string -> bool)
    requires Consistent(st)
    requires var t := Trim(line); IdHeader(t).None? && Contains(t, "\"file\"")
    requires resourceExists(basePath + ExtractValue(Trim(line)))
    requires st.current.Some?
    ensures var r := TileStep(st, line, basePath, resourceExists);
      && r.Success? && r.value.current.Some?
      && r.value.current.value.tile.image == Some(basePath + ExtractValue(Trim(line)))
      && r.value.current.value.tile.collision == st.current.value.tile.collision
      && r.value.current.value.id == st.current.value.id
      && Consistent(r.value)
  {
  }

  /** A "file" line naming a missing image fails with that path. */
  lemma MissingImageFails(st: TileLoadState, line: string, basePath: string, resourceExists: string -> bool)
    requires var t := Trim(line); IdHeader(t).None? && Contains(t, "\"file\"")
    requires !resourceExists(basePath + ExtractValue(Trim(line)))
    ensures TileStep(st, line, basePath, resourceExists) == Failure(ImageNotFound(basePath + ExtractValue(Trim(line))))
  {
  }

  /**
   * loadTiles: read the lines in order, tracking the current id and tile,
   * and return the map, or the error of the first line that throws.
   */
  method LoadTiles(json: Option<seq<string>>, basePath: string, resourceExists: string -> bool)
    returns (r: Result<map<int, Tile>, TileLoadError>)
    ensures r == LoadTilesSpec(json, basePath, resourceExists)
  {
    if json.None? {
      return Failure(JsonNotFound);
    }
    var lines := json.value;
    var tileMap: map<int, Tile> := map[];
    var current: Option<Current> := None;
    var i := 0;
    while i < |lines|
      invariant 0 <= i <= |lines|
      invariant RunTiles(Initial, lines, basePath, resourceExists)
             == RunTiles(TileLoadState(current, tileMap), lines[i..], basePath, resourceExists)
    {
      assert lines[i..][1..] == lines[i + 1..];
      var st := TileLoadState(current, tileMap);
      var line := Trim(lines[i]);
      var header := IdHeader(line);
      if header.Some? {
        var id := ParseInt(header.value);
        if id.None? {
          return Failure(BadId(header.value));
        }
        current := Some(Current(id.value, NewTile, false));
      } else if Contains(line, "\"file\"") {
        var path := basePath + ExtractValue(line);
        if !resourceExists(path) {
          return Failure(ImageNotFound(path));
        }
        if current.None? {
          return Failure(NoCurrentTile);
        }
        var t := current.value.tile.(image := Some(path));
        if current.value.stored {
          tileMap := tileMap[current.value.id := t];
        }
        current := Some(current.value.(tile := t));
      } else if Contains(line, "\"collision\"") {
        if current.None? {
          return Failure(NoCurrentTile);
        }
        var t := current.value.tile.(collision := ParseBoolean(ExtractValue(line)));
        if current.value.stored {
          tileMap := tileMap[current.value.id := t];
        }
        current := Some(current.value.(tile := t));
      } else if Contains(line, "}") {
        if current.Some? {
          tileMap := tileMap[current.value.id := current.value.tile];
          current := Some(current.value.(stored := true));
        }
      }
      assert TileStep(st, lines[i], basePath, resourceExists) == Success(TileLoadState(current, tileMap));
      i := i + 1;
    }
    return Success(tileMap);
  }
}
