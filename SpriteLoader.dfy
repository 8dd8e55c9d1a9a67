/**
 * The sprite loader (utils/SpriteLoader.java): a line-by-line reading of a
 * small JSON file in which a quoted key line names a direction and the
 * ".png" lines after it fill a two-slot buffer; the second image stores
 * the pair under the direction.
 */
module SpriteLoading {
  import opened Wrappers
  import opened JavaString

  /** Why loadSprites throws its RuntimeException. */
  datatype SpriteLoadError =
    | JsonNotFound
    | MissingQuote(line: string)     // substring(1, -1) on a key line
    | BadFileName(line: string)      // substring(start, end) with start > end
    | ImageNotFound(path: string)
    | TooManyImages                  // currentImages[2]

  /**
   * The loop's locals: the current direction, the two image slots, the
   * next slot to fill and the map built so far. An image is its path.
   */
  datatype SpriteLoadState = SpriteLoadState(
    direction: Option<string>,
    first: Option<string>,
    second: Option<string>,
    index: nat,
    sprites: map<string, (string, string)>)

  const Initial := SpriteLoadState(None, None, None, 0, map[])

  /** The index never passes 2, and once one image is in, the first slot holds it. */
  predicate Consistent(st: SpriteLoadState) {
    st.index <= 2 && (st.index == 1 ==> st.first.Some?)
  }

  /** The key test: the trimmed line starts with a quote and holds a colon. */
  predicate IsKeyLine(line: string) {
    line != [] && line[0] == '"' && ':' in line
  }

  /** The name between the first and the last quote, or None when substring would throw. */
  function FileName(line: string): Option<string>
  {
    var start := IndexOf(line, '"') + 1;
    var end := LastIndexOf(line, '"');
    if start > end then None else Some(line[start..end])
  }

  /** One pass of loadSprites' loop on a raw line. */
  function SpriteStep(st: SpriteLoadState, rawLine: string, basePath: string, resourceExists: string -> bool)
    : (r: Result<SpriteLoadState, SpriteLoadError>)
    requires Consistent(st)
    ensures r.Success? ==> Consistent(r.value)
  {
    var line := Trim(rawLine);
    if IsKeyLine(line) then
      var quoteEnd := IndexOfFrom(line, '"', 1);
      if quoteEnd == -1 then Failure(MissingQuote(line))
      else Success(st.(direction := Some(ToUpper(line[1..quoteEnd])), index := 0))
    else if Contains(line, ".png") then
      match FileName(line)
      case None => Failure(BadFileName(line))
      case Some(name) =>
        var path := basePath + name;
        if !resourceExists(path) then Failure(ImageNotFound(path))
        else AddImage(st, path)
    else Success(st)
  }

  /**
   * `currentImages[imageIndex++] = img` and the test after it: the second
   * image of a named direction stores the pair and empties the slots.
   */
  function AddImage(st: SpriteLoadState, path: string): (r: Result<SpriteLoadState, SpriteLoadError>)
    requires Consistent(st)
    ensures r.Success? ==> Consistent(r.value)
  {
    if st.index == 2 then Failure(TooManyImages)
    else if st.index == 0 then Success(st.(first := Some(path), index := 1))
    else if st.direction.Some? then
      Success(st.(first := None, second := None, index := 2,
                  sprites := st.sprites[st.direction.value := (st.first.value, path)]))
    else Success(st.(second := Some(path), index := 2))
  }

  /** The loop over all lines, stopping at the first exception. */
  function RunSprites(st: SpriteLoadState, lines: seq<string>, basePath: string, resourceExists: string -> bool)
    : (r: Result<SpriteLoadState, SpriteLoadError>)
    requires Consistent(st)
    ensures r.Success? ==> Consistent(r.value)
    decreases |lines|
  {
    if lines == [] then Success(st)
    else
      var next :- SpriteStep(st, lines[0], basePath, resourceExists);
      RunSprites(next, lines[1..], basePath, resourceExists)
  }

  /** loadSprites as a function of the JSON file's lines (None: the resource is missing). */
  function LoadSpritesSpec(json: Option<seq<string>>, basePath: string, resourceExists: string -> bool)
    : Result<map<string, (string, string)>, SpriteLoadError>
  {
    match json
    case None => Failure(JsonNotFound)
    case Some(lines) =>
      var st :- RunSprites(Initial, lines, basePath, resourceExists);
      Success(st.sprites)
  }

  /**
   * A key line `"<name>"...:...` selects the upper-cased name as the
   * direction and restarts the slot index, keeping the slots and the map.
   */
  lemma KeyLineSelects(st: SpriteLoadState, line: string, name: string, rest: string, basePath: string, resourceExists: string -> bool)
    requires Consistent(st)
    requires Trim(line) == "\"" + name + "\"" + rest && '"' !in name && ':' in rest
    ensures SpriteStep(st, line, basePath, resourceExists)
         == Success(SpriteLoadState(Some(ToUpper(name)), st.first, st.second, 0, st.sprites))
  {
    var t := Trim(line);
    QuotedShape(name, rest);
    assert t[|name| + 2..] == rest;
    assert ':' in t;
    IndexOfFromAt(t, '"', 1, |name| + 1);
  }

  /** The file name sits between the first and the last quote of the line. */
  lemma FileNameOf(pre: string, name: string, post: string)
    requires '"' !in pre && '"' !in name && '"' !in post
    ensures FileName(pre + "\"" + name + "\"" + post) == Some(name)
  {
    var line := pre + "\"" + name + "\"" + post;
    var open := |pre|;
    var close := |pre| + |name| + 1;
    assert line[open] == '"' && line[..open] == pre;
    IndexOfAt(line, '"', open);
    assert line[close] == '"' && line[close + 1..] == post;
    LastIndexOfAt(line, '"', close);
    assert line[open + 1..close] == name;
  }

  /** An image line holds ".png", does not pass the key test, and names an image. */
  predicate ImageLine(line: string, name: string) {
    var t := Trim(line);
    !IsKeyLine(t) && Contains(t, ".png") && FileName(t) == Some(name)
  }

  /**
   * After a key line, two image lines store the pair of images under the
   * direction and empty the slots; the index stays at 2.
   */
  lemma TwoImagesStorePair(st: SpriteLoadState, l1: string, n1: string, l2: string, n2: string,
                           basePath: string, resourceExists: string -> bool)
    requires Consistent(st) && st.index == 0 && st.direction.Some?
    requires ImageLine(l1, n1) && ImageLine(l2, n2)
    requires resourceExists(basePath + n1) && resourceExists(basePath + n2)
    ensures RunSprites(st, [l1, l2], basePath, resourceExists)
         == Success(st.(first := None, second := None, index := 2,
                        sprites := st.sprites[st.direction.value := (basePath + n1, basePath + n2)]))
  {
    var s1 := st.(first := Some(basePath + n1), index := 1);
    assert SpriteStep(st, l1, basePath, resourceExists) == Success(s1);
    assert [l1, l2][1..] == [l2];
    assert RunSprites(s1, [l2], basePath, resourceExists) == SpriteStep(s1, l2, basePath, resourceExists);
  }

  /** With two images in and no new key line, a third image throws. */
  lemma ThirdImageFails(st: SpriteLoadState, line: string, name: string, basePath: string, resourceExists: string -> bool)
    requires Consistent(st) && st.index == 2
    requires ImageLine(line, name) && resourceExists(basePath + name)
    ensures SpriteStep(st, line, basePath, resourceExists) == Failure(TooManyImages)
  {
  }

  /** An image line whose resource does not exist throws with the full path, whatever the slots hold. */
  lemma MissingSpriteImageFails(st: SpriteLoadState, line: string, name: string, basePath: string, resourceExists: string -> bool)
    requires Consistent(st)
    requires ImageLine(line, name) && !resourceExists(basePath + name)
    ensures SpriteStep(st, line, basePath, resourceExists) == Failure(ImageNotFound(basePath + name))
  {
  }

  /** Images read before any key line are never stored: the map stays as it was. */
  lemma NoDirectionNoStore(st: SpriteLoadState, line: string, basePath: string, resourceExists: string -> bool)
    requires Consistent(st) && st.direction.None?
    ensures var r := SpriteStep(st, line, basePath, resourceExists);
      r.Success? ==> r.value.sprites == st.sprites
  {
    var t := Trim(line);
    var r := SpriteStep(st, line, basePath, resourceExists);
    if IsKeyLine(t) {
      var q := IndexOfFrom(t, '"', 1);
      if q != -1 {
        assert r == Success(st.(direction := Some(ToUpper(t[1..q])), index := 0));
      } else {
        assert r == Failure(MissingQuote(t));
      }
    } else if !Contains(t, ".png") {
      assert r == Success(st);
    } else if FileName(t).Some? {
      var path := basePath + FileName(t).value;
      if resourceExists(path) {
        assert r == AddImage(st, path);
        assert r.Success? ==> r.value.sprites == st.sprites;
      } else {
        assert r == Failure(ImageNotFound(path));
      }
    } else {
      assert r == Failure(BadFileName(t));
    }
  }

  /** Every stored entry was stored by an image line: lines that are neither keys nor images change nothing. */
  lemma OtherLinesIgnored(st: SpriteLoadState, line: string, basePath: string, resourceExists: string -> bool)
    requires Consistent(st)
    requires !IsKeyLine(Trim(line)) && !Contains(Trim(line), ".png")
    ensures SpriteStep(st, line, basePath, resourceExists) == Success(st)
  {
  }

  /**
   * loadSprites: read the lines in order, filling a fresh two-slot array,
   * and return the map, or the error of the first line that throws.
   */
  method LoadSprites(json: Option<seq<string>>, basePath: string, resourceExists: string -> bool)
    returns (r: Result<map<string, (string, string)>, SpriteLoadError>)
    ensures r == LoadSpritesSpec(json, basePath, resourceExists)
  {
    if json.None? {
      return Failure(JsonNotFound);
    }
    var lines := json.value;
    var spriteMap: map<string, (string, string)> := map[];
    var currentDirection: Option<string> := None;
    var currentImages := new Option<string>[2](_ => None);
    var imageIndex := 0;
    var i := 0;
    while i < |lines|
      invariant 0 <= i <= |lines|
      invariant fresh(currentImages) && currentImages.Length == 2
      invariant Consistent(SpriteLoadState(currentDirection, currentImages[0], currentImages[1], imageIndex, spriteMap))
      invariant RunSprites(Initial, lines, basePath, resourceExists)
             == RunSprites(SpriteLoadState(currentDirection, currentImages[0], currentImages[1], imageIndex, spriteMap),
                           lines[i..], basePath, resourceExists)
    {
      assert lines[i..][1..] == lines[i + 1..];
      ghost var st := SpriteLoadState(currentDirection, currentImages[0], currentImages[1], imageIndex, spriteMap);
      var failure;
      currentImages, imageIndex, currentDirection, spriteMap, failure :=
        ReadLine(currentImages, imageIndex, currentDirection, spriteMap, lines[i], basePath, resourceExists);
      if failure.Some? {
        FailureStops(st, lines[i..], basePath, resourceExists);
        return Failure(failure.value);
      }
      i := i + 1;
    }
    assert lines[i..] == [];
    return Success(spriteMap);
  }

  /**
   * One pass of the loop body on the array buffer; `failure` is the
   * exception the line throws, if any.
   */
  method ReadLine(images: array<Option<string>>, index: nat, direction: Option<string>,
                  spriteMap: map<string, (string, string)>, rawLine: string,
                  basePath: string, resourceExists: string -> bool)
    returns (images': array<Option<string>>, index': nat, direction': Option<string>,
             spriteMap': map<string, (string, string)>, failure: Option<SpriteLoadError>)
    requires images.Length == 2
    requires Consistent(SpriteLoadState(direction, images[0], images[1], index, spriteMap))
    modifies images
    ensures images'.Length == 2 && (images' == images || fresh(images'))
    ensures failure.Some? ==>
      SpriteStep(old(SpriteLoadState(direction, images[0], images[1], index, spriteMap)), rawLine, basePath, resourceExists)
      == Failure(failure.value)
    ensures failure.None? ==>
      SpriteStep(old(SpriteLoadState(direction, images[0], images[1], index, spriteMap)), rawLine, basePath, resourceExists)
      == Success(SpriteLoadState(direction', images'[0], images'[1], index', spriteMap'))
  {
    images', index', direction', spriteMap', failure := images, index, direction, spriteMap, None;
    var line := Trim(rawLine);
    if IsKeyLine(line) {
      var quoteEnd := IndexOfFrom(line, '"', 1);
      if quoteEnd == -1 {
        failure := Some(MissingQuote(line));
      } else {
        direction' := Some(ToUpper(line[1..quoteEnd]));
        index' := 0;
      }
    } else if Contains(line, ".png") {
      var start := IndexOf(line, '"') + 1;
      var end := LastIndexOf(line, '"');
      if start > end {
        failure := Some(BadFileName(line));
      } else {
        var path := basePath + line[start..end];
        if !resourceExists(path) {
          failure := Some(ImageNotFound(path));
        } else if index == 2 {
          failure := Some(TooManyImages);
        } else {
          images', index', spriteMap' := TakeImage(images, index, direction, spriteMap, path);
        }
      }
    }
  }

  /** The first line that throws ends the run with its error. */
  lemma FailureStops(st: SpriteLoadState, lines: seq<string>, basePath: string, resourceExists: string -> bool)
    requires Consistent(st) && lines != [] && SpriteStep(st, lines[0], basePath, resourceExists).Failure?
    ensures RunSprites(st, lines, basePath, resourceExists)
         == Failure(SpriteStep(st, lines[0], basePath, resourceExists).error)
  {
  }

  /** The image branch of the loop on the array buffer: fill the next slot, and store the pair at the second. */
  method TakeImage(images: array<Option<string>>, index: nat, direction: Option<string>,
                   spriteMap: map<string, (string, string)>, path: string)
    returns (images': array<Option<string>>, index': nat, spriteMap': map<string, (string, string)>)
    requires images.Length == 2 && index < 2
    requires Consistent(SpriteLoadState(direction, images[0], images[1], index, spriteMap))
    modifies images
    ensures images'.Length == 2 && (images' == images || fresh(images'))
    ensures Success(SpriteLoadState(direction, images'[0], images'[1], index', spriteMap'))
         == AddImage(old(SpriteLoadState(direction, images[0], images[1], index, spriteMap)), path)
  {
    images[index] := Some(path);
    index' := index + 1;
    spriteMap' := spriteMap;
    images' := images;
    if index' == 2 && direction.Some? {
      spriteMap' := spriteMap[direction.value := (images[0].value, images[1].value)];
      images' := new Option<string>[2](_ => None);
    }
  }
}
