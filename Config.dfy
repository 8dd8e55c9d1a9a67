/**
 * The game configuration (main/Config.java): positive-integer properties, the
 * sizes derived from them, the window title and the movement key bindings.
 * The properties file itself is an input; the key-name lookup done by
 * reflection on KeyEvent is the parameter `keyCodeOf`.
 */
module Settings {
  import opened Wrappers
  import JavaInt
  import opened JavaString
  import opened Keyboard

  type Properties = map<string, string>

  /** The actions a key can be bound to (main/GameAction.java). */
  datatype GameAction = MoveUp | MoveDown | MoveLeft | MoveRight

  /** The reasons Config.load stops the program. */
  datatype ConfigError =
    | FileUnreadable
    | MissingProperty(key: string)
    | NotAnInteger(key: string)
    | NotPositive(key: string)
    | KeyNotDefined(action: GameAction)
    | InvalidKey(name: string)
    | SizeOverflow(key: string)    // only in the corrected LoadChecked

  datatype Config = Config(
    originalTileSize: int, scale: int, maxScreenCol: int, maxScreenRow: int,
    windowTitle: string,
    tileSize: int, screenWidth: int, screenHeight: int,
    playerInitialX: int, playerInitialY: int, playerSpeed: int, fps: int,
    keyBindings: KeyBindings)
  {
    /**
     * What the rest of the game relies on: every validated value positive and
     * the derived sizes equal to the exact products.
     */
    predicate Valid() {
      && InIntRange()
      && originalTileSize > 0 && scale > 0 && maxScreenCol > 0 && maxScreenRow > 0
      && playerInitialX > 0 && playerInitialY > 0 && playerSpeed > 0 && fps > 0
      && tileSize == originalTileSize * scale
      && screenWidth == tileSize * maxScreenCol && screenHeight == tileSize * maxScreenRow
    }

    /** Every integer field holds a Java int, as the static int fields of Config do. */
    predicate InIntRange() {
      && JavaInt.IsInt(originalTileSize) && JavaInt.IsInt(scale) && JavaInt.IsInt(maxScreenCol) && JavaInt.IsInt(maxScreenRow)
      && JavaInt.IsInt(playerInitialX) && JavaInt.IsInt(playerInitialY) && JavaInt.IsInt(playerSpeed) && JavaInt.IsInt(fps)
      && JavaInt.IsInt(tileSize) && JavaInt.IsInt(screenWidth) && JavaInt.IsInt(screenHeight)
    }
  }

  /** A product of positive factors is at least either factor. */
  lemma ProductAtLeast(a: int, b: int)
    requires a > 0 && b > 0
    ensures a * b >= a && a * b >= b
  {
    assert a * b == a * (b - 1) + a;
    assert b * a == b * (a - 1) + b;
  }

  /** A valid configuration has a positive tile no larger than the screen. */
  lemma ValidSizes(c: Config)
    requires c.Valid()
    ensures 0 < c.tileSize <= c.screenWidth <= JavaInt.MAX
    ensures 0 < c.tileSize <= c.screenHeight <= JavaInt.MAX
  {
    ProductAtLeast(c.originalTileSize, c.scale);
    ProductAtLeast(c.tileSize, c.maxScreenCol);
    ProductAtLeast(c.tileSize, c.maxScreenRow);
  }

  /** parsePositiveInt: a required property holding a positive int literal. */
  function ParsePositiveInt(props: Properties, key: string): (r: Result<int, ConfigError>)
    ensures r.Success? ==> 0 < r.value <= JavaInt.MAX
    ensures r.Success? <==>
      && key in props && !IsBlank(props[key])
      && ParseInt(Trim(props[key])).Some? && ParseInt(Trim(props[key])).value > 0
    ensures r == Failure(MissingProperty(key)) <==> key !in props || IsBlank(props[key])
    ensures r.Success? ==> r.value == ParseInt(Trim(props[key])).value
    ensures r == Failure(NotAnInteger(key)) <==>
      key in props && !IsBlank(props[key]) && ParseInt(Trim(props[key])).None?
    ensures r == Failure(NotPositive(key)) <==>
      key in props && !IsBlank(props[key]) && ParseInt(Trim(props[key])).Some? && ParseInt(Trim(props[key])).value <= 0
  {
    if key !in props || IsBlank(props[key]) then Failure(MissingProperty(key))
    else
      match ParseInt(Trim(props[key]))
      case None => Failure(NotAnInteger(key))
      case Some(n) => if n <= 0 then Failure(NotPositive(key)) else Success(n)
  }

  /** A property holding the decimal text of a positive int is read back as that int. */
  lemma ParsePositiveIntShow(props: Properties, key: string, n: int)
    requires 0 < n <= JavaInt.MAX
    ensures ParsePositiveInt(props[key := Show(n)], key) == Success(n)
  {
    var s := Show(n);
    assert s == Decimal(n);
    assert IsDigit(s[0]) && IsDigit(s[|s| - 1]);
    assert !IsBlank(s) by { assert !IsWhitespace(s[0]); }
    TrimOfTrimmed(s);
    ParseShow(n);
  }

  /** bindKey: a non-blank key name, resolved to a key code. */
  function BindKey(props: Properties, action: GameAction, propertyKey: string,
                   keyCodeOf: string -> Option<int>): (r: Result<int, ConfigError>)
    ensures r == Failure(KeyNotDefined(action)) <==> propertyKey !in props || IsBlank(props[propertyKey])
    ensures r.Success? ==> propertyKey in props && keyCodeOf(ToUpper(Trim(props[propertyKey]))) == Some(r.value)
    ensures propertyKey in props && !IsBlank(props[propertyKey]) ==>
      (r.Success? <==> keyCodeOf(ToUpper(Trim(props[propertyKey]))).Some?)
    ensures propertyKey in props && !IsBlank(props[propertyKey]) && keyCodeOf(ToUpper(Trim(props[propertyKey]))).None? ==>
      r == Failure(InvalidKey(ToUpper(Trim(props[propertyKey]))))
  {
    if propertyKey !in props || IsBlank(props[propertyKey]) then Failure(KeyNotDefined(action))
    else
      var name := ToUpper(Trim(props[propertyKey]));
      match keyCodeOf(name)
      case None => Failure(InvalidKey(name))
      case Some(code) => Success(code)
  }

  /** loadKeyBindings: the four movement actions, bound in the order up, down, left, right. */
  function LoadKeyBindings(props: Properties, keyCodeOf: string -> Option<int>): Result<KeyBindings, ConfigError> {
    var up :- BindKey(props, MoveUp, "key.moveUp", keyCodeOf);
    var down :- BindKey(props, MoveDown, "key.moveDown", keyCodeOf);
    var left :- BindKey(props, MoveLeft, "key.moveLeft", keyCodeOf);
    var right :- BindKey(props, MoveRight, "key.moveRight", keyCodeOf);
    Success(KeyBindings(up, down, left, right))
  }

  /** Every property load reads with parsePositiveInt holds a positive int. */
  predicate RequiredValid(props: Properties) {
    && ParsePositiveInt(props, "originalTileSize").Success?
    && ParsePositiveInt(props, "scale").Success?
    && ParsePositiveInt(props, "maxScreenCol").Success?
    && ParsePositiveInt(props, "maxScreenRow").Success?
    && ParsePositiveInt(props, "playerInitialX").Success?
    && ParsePositiveInt(props, "playerInitialY").Success?
    && ParsePositiveInt(props, "playerSpeed").Success?
    && ParsePositiveInt(props, "fps").Success?
  }

  /** TILE_SIZE, SCREEN_WIDTH and SCREEN_HEIGHT as Java's int products compute them. */
  function DerivedSizes(originalTileSize: int, scale: int, maxScreenCol: int, maxScreenRow: int): (d: (int, int, int))
    ensures JavaInt.IsInt(d.0) && (originalTileSize * scale - d.0) % JavaInt.MODULUS == 0
    ensures JavaInt.IsInt(d.1) && (d.0 * maxScreenCol - d.1) % JavaInt.MODULUS == 0
    ensures JavaInt.IsInt(d.2) && (d.0 * maxScreenRow - d.2) % JavaInt.MODULUS == 0
  {
    var tileSize := JavaInt.Wrap(originalTileSize * scale);
    (tileSize, JavaInt.Wrap(tileSize * maxScreenCol), JavaInt.Wrap(tileSize * maxScreenRow))
  }

  /** When the products fit in an int the derived sizes are exact. */
  lemma DerivedSizesExact(originalTileSize: int, scale: int, maxScreenCol: int, maxScreenRow: int)
    requires JavaInt.IsInt(originalTileSize * scale)
    requires JavaInt.IsInt(originalTileSize * scale * maxScreenCol)
    requires JavaInt.IsInt(originalTileSize * scale * maxScreenRow)
    ensures DerivedSizes(originalTileSize, scale, maxScreenCol, maxScreenRow) ==
      (originalTileSize * scale, originalTileSize * scale * maxScreenCol, originalTileSize * scale * maxScreenRow)
  {
  }

  /**
   * load: read the properties in order, stopping at the first invalid one
   * (where the program prints the error and exits). `file` is None when
   * config.properties cannot be read.
   */
  function Load(file: Option<Properties>, keyCodeOf: string -> Option<int>): (r: Result<Config, ConfigError>)
    ensures file.None? ==> r == Failure(FileUnreadable)
    ensures r.Success? ==> file.Some? && r.value.InIntRange()
    ensures r.Success? ==> var c := r.value; var props := file.value;
      && ParsePositiveInt(props, "originalTileSize") == Success(c.originalTileSize)
      && ParsePositiveInt(props, "scale") == Success(c.scale)
      && ParsePositiveInt(props, "maxScreenCol") == Success(c.maxScreenCol)
      && ParsePositiveInt(props, "maxScreenRow") == Success(c.maxScreenRow)
      && ParsePositiveInt(props, "playerInitialX") == Success(c.playerInitialX)
      && ParsePositiveInt(props, "playerInitialY") == Success(c.playerInitialY)
      && ParsePositiveInt(props, "playerSpeed") == Success(c.playerSpeed)
      && ParsePositiveInt(props, "fps") == Success(c.fps)
      && LoadKeyBindings(props, keyCodeOf) == Success(c.keyBindings)
    ensures r.Success? ==> var c := r.value;
      && (c.tileSize, c.screenWidth, c.screenHeight) ==
         DerivedSizes(c.originalTileSize, c.scale, c.maxScreenCol, c.maxScreenRow)
    ensures r.Success? ==>
      r.value.windowTitle == Trim(if "windowTitle" in file.value then file.value["windowTitle"] else "Jogo")
  {
    match file
    case None => Failure(FileUnreadable)
    case Some(props) =>
      var originalTileSize :- ParsePositiveInt(props, "originalTileSize");
      var scale :- ParsePositiveInt(props, "scale");
      var maxScreenCol :- ParsePositiveInt(props, "maxScreenCol");
      var maxScreenRow :- ParsePositiveInt(props, "maxScreenRow");
      var windowTitle := Trim(if "windowTitle" in props then props["windowTitle"] else "Jogo");
      var (tileSize, screenWidth, screenHeight) := DerivedSizes(originalTileSize, scale, maxScreenCol, maxScreenRow);
      var playerInitialX :- ParsePositiveInt(props, "playerInitialX");
      var playerInitialY :- ParsePositiveInt(props, "playerInitialY");
      var playerSpeed :- ParsePositiveInt(props, "playerSpeed");
      var fps :- ParsePositiveInt(props, "fps");
      var keyBindings :- LoadKeyBindings(props, keyCodeOf);
      Success(Config(originalTileSize, scale, maxScreenCol, maxScreenRow, windowTitle,
                     tileSize, screenWidth, screenHeight,
                     playerInitialX, playerInitialY, playerSpeed, fps, keyBindings))
  }

  /** load succeeds exactly when every required property and every key binding is valid. */
  lemma LoadSucceeds(props: Properties, keyCodeOf: string -> Option<int>)
    ensures Load(Some(props), keyCodeOf).Success? <==>
      RequiredValid(props) && LoadKeyBindings(props, keyCodeOf).Success?
  {
  }

  /** Without a windowTitle property the title is "Jogo". */
  lemma DefaultTitle(props: Properties, keyCodeOf: string -> Option<int>)
    requires "windowTitle" !in props
    requires Load(Some(props), keyCodeOf).Success?
    ensures Load(Some(props), keyCodeOf).value.windowTitle == "Jogo"
  {
    TrimOfTrimmed("Jogo");
  }

  /**
   * Both tile-size factors pass validation, yet TILE_SIZE = 65536 * 65536
   * wraps to 0 in Java int arithmetic.
   */
  lemma TileSizeOverflow(props: Properties, keyCodeOf: string -> Option<int>)
    requires RequiredValid(props)
    requires LoadKeyBindings(props, keyCodeOf).Success?
    requires ParsePositiveInt(props, "originalTileSize") == Success(65536)
    requires ParsePositiveInt(props, "scale") == Success(65536)
    ensures Load(Some(props), keyCodeOf).Success?
    ensures Load(Some(props), keyCodeOf).value.tileSize == 0
  {
    LoadSucceeds(props, keyCodeOf);
    var c := Load(Some(props), keyCodeOf).value;
    assert c.originalTileSize == 65536 && c.scale == 65536;
    var w := JavaInt.Wrap(0x1_0000_0000);
    assert 0x1_8000_0000 % 0x1_0000_0000 == 0x8000_0000;
    assert w == 0;
    assert DerivedSizes(65536, 65536, c.maxScreenCol, c.maxScreenRow).0 == w;
  }

  /**
   * load with the derived sizes checked: it fails where a product leaves the
   * int range, and it accepts exactly the configurations load accepts that
   * are Valid.
   */
  function LoadChecked(file: Option<Properties>, keyCodeOf: string -> Option<int>): (r: Result<Config, ConfigError>)
    ensures r.Success? ==> r.value.Valid()
    ensures r.Success? <==> Load(file, keyCodeOf).Success? && Load(file, keyCodeOf).value.Valid()
    ensures r.Success? ==> r == Load(file, keyCodeOf)
    ensures Load(file, keyCodeOf).Failure? ==> r == Load(file, keyCodeOf)
    ensures r.Failure? && Load(file, keyCodeOf).Success? ==> r.error.SizeOverflow?
  {
    var c :- Load(file, keyCodeOf);
    if !JavaInt.IsInt(c.originalTileSize * c.scale) then Failure(SizeOverflow("scale"))
    else if !JavaInt.IsInt(c.originalTileSize * c.scale * c.maxScreenCol) then Failure(SizeOverflow("maxScreenCol"))
    else if !JavaInt.IsInt(c.originalTileSize * c.scale * c.maxScreenRow) then Failure(SizeOverflow("maxScreenRow"))
    else Success(c)
  }
}
