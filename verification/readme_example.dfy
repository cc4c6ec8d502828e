/**
  The example of the project's README, replayed on the model: a `colors`
  style, a `lightTheme` inheriting from it, and a `buttonStyle` with a
  nested text style whose self references fall back to the enclosing
  style. Payloads are the colour names. No lookup below needs more than
  three nested self references, so four units of fuel are enough.
*/
module ReadmeExample {
  import opened Dotted
  import opened Styles
  import opened Resolution
  import opened ResolutionLaws
  import opened Stylized
  import opened GroupBuilder

  const Fuel: nat := 4

  // ---------------------------------------------------------------------
  // The styles
  // ---------------------------------------------------------------------

  /** The attribute `blue`, declared with the value BLUE. */
  const blue := NamedReference("blue", Value("BLUE"))
  /** Attributes declared without a value refer to their own name. */
  const white := SelfReference([Text("white")])
  const green := SelfReference([Text("green")])
  const textStyle := SelfReference([Text("textStyle")])
  const defaultColor := SelfReference([Text("defaultColor")])
  /** The attribute `colorPrimary`, declared as the attribute `blue`. */
  const colorPrimary := NamedReference("colorPrimary", Reference(blue))
  /** The attribute `colorBackground` is declared with a callback, which
      this model leaves out; only its name is used here, so a reference
      carrying that name stands in for it. */
  const colorBackground := NamedReference("colorBackground", Value("GREEN"))
  /** References through dotted paths. */
  const colorsColorPrimary := SelfReference([Text("colors.colorPrimary")])
  const colorsBlue := SelfReference([Text("colors.blue")])

  /** `colors`: blue added as itself, white and green given values, and
      "example" set to blue (stored as a self reference to its name). */
  const colorsGroup := Multi(map[
    "blue" := Reference(blue),
    "white" := Value("WHITE"),
    "green" := Value("GREEN"),
    "example" := Reference(SelfReference([RefArg(blue)]))], None)
  const colors := NamedReference("colors", Group(colorsGroup))

  /** `lightTheme`, built on `colors`: colorPrimary redefined as a
      reference to "green", colorBackground set to white, "example1" to
      colorPrimary and "example2" to colorPrimary dereferenced. */
  const lightGroup := Multi(map[
    "colorPrimary" := Reference(SelfReference([RefArg(green)])),
    "colorBackground" := Reference(SelfReference([RefArg(white)])),
    "example1" := Reference(SelfReference([RefArg(colorPrimary)])),
    "example2" := Value("BLUE")], Some(Reference(colors)))
  const lightTheme := NamedReference("lightTheme", Group(lightGroup))

  /** The text style nested in `buttonStyle`: its entries refer to
      defaultColor and to "colors.blue", neither of which it holds. */
  const textGroup := Multi(map[
    "h1TextColor" := Reference(SelfReference([RefArg(defaultColor)])),
    "h2TextColor" := Reference(SelfReference([RefArg(colorsBlue)]))], None)

  /** `buttonStyle`: colors set to lightTheme dereferenced, defaultColor to
      the dotted reference, and the text style. */
  const buttonGroup := Multi(map[
    "colors" := Group(lightGroup),
    "defaultColor" := Reference(SelfReference([RefArg(colorsColorPrimary)])),
    "textStyle" := Group(textGroup)], None)
  const buttonStyle := NamedReference("buttonStyle", Group(buttonGroup))

  // ---------------------------------------------------------------------
  // Evaluation steps
  // ---------------------------------------------------------------------

  /** One segment found at `n`, holding a reference to a value or a group. */
  lemma ResolveOneRef(n: Node, k: string, check: bool, fuel: nat, r: Ref, t: Style)
    requires ChildOf(n.current, n, k, fuel) == Ok(Some(Reference(r)))
    requires RefGet(r, n, fuel) == Ok(t) && !t.Reference?
    ensures Resolve(n, [k], check, fuel) == Ok(Some(Node(t, Some(n))))
  {
    assert [k][1..] == [];
    assert AsNode(t, n, After(r, fuel)) == Ok(Node(t, Some(n)));
    assert AsNode(Reference(r), n, fuel) == Ok(Node(t, Some(n)));
    assert Resolve(Node(t, Some(n)), [], false, fuel) == Ok(Some(Node(t, Some(n))));
    assert ResolveDown(n, [], k, check, fuel) == Ok(Some(Node(t, Some(n))));
  }

  /** A first segment missing at `n` is looked up from its parent node. */
  lemma FallBackOne(n: Node, p: Node, rest: seq<string>, k: string, fuel: nat)
    requires n.parent == Some(p) && ChildOf(n.current, n, k, fuel) == Ok(None)
    ensures ResolveDown(n, rest, k, true, fuel) == ResolveDown(p, rest, k, true, fuel)
  {
  }

  /** A self reference fetches the current style of the node its path
      resolves to. */
  lemma SelfRefGet(args: seq<PathArg>, path: seq<string>, n: Node, fuel: nat, m: Node)
    requires PathOf(args) == path
    requires fuel > 0 && Resolve(n, path, true, fuel - 1) == Ok(Some(m))
    ensures RefGet(SelfReference(args), n, fuel) == Ok(m.current)
  {
  }

  /** One segment found at `n`, holding a self reference whose path
      resolves from `n` to a value or a group. */
  lemma ResolveOneSelf(n: Node, k: string, check: bool, fuel: nat, args: seq<PathArg>, path: seq<string>, m: Node)
    requires ChildOf(n.current, n, k, fuel) == Ok(Some(Reference(SelfReference(args))))
    requires PathOf(args) == path && fuel > 0
    requires Resolve(n, path, true, fuel - 1) == Ok(Some(m)) && !m.current.Reference?
    ensures Resolve(n, [k], check, fuel) == Ok(Some(Node(m.current, Some(n))))
  {
    SelfRefGet(args, path, n, fuel, m);
    ResolveOneRef(n, k, check, fuel, SelfReference(args), m.current);
  }

  /** The value read at the end of a resolved path. */
  lemma GetAt(s: Style, args: seq<PathArg>, fuel: nat, m: Node)
    requires |PathOf(args)| > 0 && Resolve(Node(s, None), PathOf(args), true, fuel) == Ok(Some(m))
    ensures !m.current.Reference? && Get(s, args, fuel) == Ok(Read(m.current))
  {
    GetReadsResolvedStyle(s, args, fuel);
  }

  /** Asking a named group for a key is asking the group. */
  lemma InNamedGroup(name: string, g: GroupShape, n: Node, k: string, fuel: nat)
    ensures ChildOf(Reference(NamedReference(name, Group(g))), n, k, fuel) == GroupGet(g, n, k, fuel)
  {
  }

  // ---------------------------------------------------------------------
  // Paths
  // ---------------------------------------------------------------------

  /** A plain word is a path of one segment, whether written as text or as
      the name of a self reference. */
  lemma WordPath(w: string)
    requires IsToken(w)
    ensures PathOf([Text(w)]) == [w]
    ensures PathOf([RefArg(SelfReference([Text(w)]))]) == [w]
  {
    TokenIsFixed(w);
    PathOfSingle(Text(w));
    SelfNameIsPath([Text(w)]);
    PathOfSingle(RefArg(SelfReference([Text(w)])));
  }

  /** The name of a named reference, when it is a plain word. */
  lemma NamedPath(name: string, s: Style)
    requires IsToken(name)
    ensures PathOf([RefArg(NamedReference(name, s))]) == [name]
  {
    TokenIsFixed(name);
    PathOfSingle(RefArg(NamedReference(name, s)));
  }

  /** A dotted string of two words is a path of two segments. */
  lemma DottedPath(a: string, b: string)
    requires IsToken(a) && IsToken(b)
    ensures PathOf([RefArg(SelfReference([Text(a + "." + b)]))]) == [a, b]
  {
    assert Join([a, b]) == a + "." + b by {
      assert [a, b][1..] == [b];
    }
    DottedTextPath([a, b]);
    SelfNameIsPath([Text(a + "." + b)]);
    PathOfSingle(RefArg(SelfReference([Text(a + "." + b)])));
  }

  /** The path of an attribute declared without a value is its name. */
  lemma OwnNamePath(r: Ref, w: string)
    requires IsToken(w) && r == SelfReference([Text(w)])
    ensures PathOf([RefArg(r)]) == [w]
  {
    WordPath(w);
  }

  /** The dotted references of buttonStyle and its text style. */
  lemma DottedRefPath(r: Ref, a: string, b: string)
    requires IsToken(a) && IsToken(b) && r == SelfReference([Text(a + "." + b)])
    ensures PathOf([RefArg(r)]) == [a, b]
  {
    DottedPath(a, b);
  }

  /** The two dotted references used, each stated in a lemma of its own:
      the literal concatenation costs the verifier far more inside the
      larger proofs that use these paths. */
  lemma ColorsColorPrimaryPath()
    ensures PathOf([RefArg(colorsColorPrimary)]) == ["colors", "colorPrimary"]
  {
    assert "colors" + "." + "colorPrimary" == "colors.colorPrimary";
    DottedRefPath(colorsColorPrimary, "colors", "colorPrimary");
  }

  lemma ColorsBluePath()
    ensures PathOf([RefArg(colorsBlue)]) == ["colors", "blue"]
  {
    assert "colors" + "." + "blue" == "colors.blue";
    DottedRefPath(colorsBlue, "colors", "blue");
  }

  /** Two arguments of one segment each. */
  lemma TwoArgPath(x: PathArg, y: PathArg, a: string, b: string)
    requires PathOf([x]) == [a] && PathOf([y]) == [b]
    ensures PathOf([x, y]) == [a, b]
  {
    PathOfConcat([x], [y]);
    assert [x] + [y] == [x, y];
  }

  lemma BluePath()
    ensures PathOf([RefArg(blue)]) == ["blue"]
  {
    NamedPath("blue", Value("BLUE"));
  }

  // ---------------------------------------------------------------------
  // Attributes and colors
  // ---------------------------------------------------------------------

  /** `blue.get()` is BLUE, and so is `colorPrimary.get()`: a named
      reference reads its target. */
  lemma AttributeValues()
    ensures GetValue(Reference(blue), Fuel) == Ok(PayloadAnswer("BLUE"))
    ensures GetValue(Reference(colorPrimary), Fuel) == Ok(PayloadAnswer("BLUE"))
  {
  }

  /** `colorPrimary.dereference()` is the value BLUE: this is what
      lightTheme stores under "example2". */
  lemma PrimaryDereferenced()
    ensures Dereference(Reference(colorPrimary), Fuel) == Ok(Value("BLUE"))
  {
  }

  const colorsRoot := Node(Reference(colors), None)

  /** The entries `colors` holds. */
  lemma ColorsEntries(fuel: nat)
    ensures ChildOf(colorsRoot.current, colorsRoot, "blue", fuel) == Ok(Some(Reference(blue)))
    ensures ChildOf(colorsRoot.current, colorsRoot, "white", fuel) == Ok(Some(Value("WHITE")))
    ensures ChildOf(colorsRoot.current, colorsRoot, "green", fuel) == Ok(Some(Value("GREEN")))
    ensures ChildOf(colorsRoot.current, colorsRoot, "example", fuel)
      == Ok(Some(Reference(SelfReference([RefArg(blue)]))))
  {
    InNamedGroup("colors", colorsGroup, colorsRoot, "blue", fuel);
    InNamedGroup("colors", colorsGroup, colorsRoot, "white", fuel);
    InNamedGroup("colors", colorsGroup, colorsRoot, "green", fuel);
    InNamedGroup("colors", colorsGroup, colorsRoot, "example", fuel);
  }

  lemma ColorsBlueNode(fuel: nat)
    ensures Resolve(colorsRoot, ["blue"], true, fuel) == Ok(Some(Node(Value("BLUE"), Some(colorsRoot))))
  {
    ColorsEntries(fuel);
    ResolveOneRef(colorsRoot, "blue", true, fuel, blue, Value("BLUE"));
  }

  /** colors[white] is WHITE. */
  lemma ColorsWhite()
    ensures Get(Reference(colors), [RefArg(white)], Fuel) == Ok(PayloadAnswer("WHITE"))
  {
    ColorsEntries(Fuel);
    OwnNamePath(white, "white");
    ResolveOne(colorsRoot, "white", true, Fuel, Value("WHITE"));
    GetAt(Reference(colors), [RefArg(white)], Fuel, Node(Value("WHITE"), Some(colorsRoot)));
  }

  /** colors[blue] is BLUE: the entry is the attribute, read through. */
  lemma ColorsBlue()
    ensures Get(Reference(colors), [RefArg(blue)], Fuel) == Ok(PayloadAnswer("BLUE"))
  {
    BluePath();
    ColorsBlueNode(Fuel);
    GetAt(Reference(colors), [RefArg(blue)], Fuel, Node(Value("BLUE"), Some(colorsRoot)));
  }

  /** colors["green"] and colors[green] are GREEN. */
  lemma ColorsGreen()
    ensures Get(Reference(colors), [Text("green")], Fuel) == Ok(PayloadAnswer("GREEN"))
    ensures Get(Reference(colors), [RefArg(green)], Fuel) == Ok(PayloadAnswer("GREEN"))
  {
    ColorsEntries(Fuel);
    OwnNamePath(green, "green");
    WordPath("green");
    ResolveOne(colorsRoot, "green", true, Fuel, Value("GREEN"));
    GetAt(Reference(colors), [Text("green")], Fuel, Node(Value("GREEN"), Some(colorsRoot)));
    GetAt(Reference(colors), [RefArg(green)], Fuel, Node(Value("GREEN"), Some(colorsRoot)));
  }

  /** colors["example"] is BLUE: the stored self reference names blue,
      which colors holds. */
  lemma ColorsExample()
    ensures Get(Reference(colors), [Text("example")], Fuel) == Ok(PayloadAnswer("BLUE"))
  {
    ColorsEntries(Fuel);
    BluePath();
    ColorsBlueNode(Fuel - 1);
    ResolveOneSelf(colorsRoot, "example", true, Fuel, [RefArg(blue)], ["blue"], Node(Value("BLUE"), Some(colorsRoot)));
    WordPath("example");
    GetAt(Reference(colors), [Text("example")], Fuel, Node(Value("BLUE"), Some(colorsRoot)));
  }

  // ---------------------------------------------------------------------
  // lightTheme
  // ---------------------------------------------------------------------

  /** A node looking into lightTheme, through the named reference or as
      the dereferenced group. */
  predicate AtLight(n: Node) {
    n.current == Reference(lightTheme) || n.current == Group(lightGroup)
  }

  lemma InLight(n: Node, k: string, fuel: nat)
    requires AtLight(n)
    ensures ChildOf(n.current, n, k, fuel) == GroupGet(lightGroup, n, k, fuel)
  {
    InNamedGroup("lightTheme", lightGroup, n, k, fuel);
  }

  /** The entries lightTheme holds itself. */
  lemma LightEntries(n: Node, fuel: nat)
    requires AtLight(n)
    ensures ChildOf(n.current, n, "colorPrimary", fuel) == Ok(Some(Reference(SelfReference([RefArg(green)]))))
    ensures ChildOf(n.current, n, "colorBackground", fuel) == Ok(Some(Reference(SelfReference([RefArg(white)]))))
    ensures ChildOf(n.current, n, "example1", fuel) == Ok(Some(Reference(SelfReference([RefArg(colorPrimary)]))))
    ensures ChildOf(n.current, n, "example2", fuel) == Ok(Some(Value("BLUE")))
  {
    InLight(n, "colorPrimary", fuel);
    InLight(n, "colorBackground", fuel);
    InLight(n, "example1", fuel);
    InLight(n, "example2", fuel);
  }

  /** `green` and `white` are not in lightTheme itself; its parent style
      `colors` holds them as values. */
  lemma LightInherits(n: Node, fuel: nat)
    ensures GroupGet(lightGroup, n, "green", fuel) == Ok(Some(Value("GREEN")))
    ensures GroupGet(lightGroup, n, "white", fuel) == Ok(Some(Value("WHITE")))
  {
    assert "green" !in lightGroup.styles && "white" !in lightGroup.styles;
    assert GroupGet(colorsGroup, n, "green", fuel) == Ok(Some(Value("GREEN")));
    assert GroupGet(colorsGroup, n, "white", fuel) == Ok(Some(Value("WHITE")));
    InNamedGroup("colors", colorsGroup, n, "green", fuel);
    InNamedGroup("colors", colorsGroup, n, "white", fuel);
  }

  /** `blue` is not in lightTheme either; `colors` holds the attribute
      itself, a reference to the value BLUE. */
  lemma LightInheritsBlue(n: Node, fuel: nat)
    ensures GroupGet(lightGroup, n, "blue", fuel) == Ok(Some(Reference(blue)))
  {
    assert "blue" !in lightGroup.styles;
    assert GroupGet(colorsGroup, n, "blue", fuel) == Ok(Some(Reference(blue)));
    InNamedGroup("colors", colorsGroup, n, "blue", fuel);
  }

  /** green and white, looked up in lightTheme, are the values its parent
      style holds. */
  lemma LightGreenWhite(n: Node, check: bool, fuel: nat)
    requires AtLight(n)
    ensures Resolve(n, ["green"], check, fuel) == Ok(Some(Node(Value("GREEN"), Some(n))))
    ensures Resolve(n, ["white"], check, fuel) == Ok(Some(Node(Value("WHITE"), Some(n))))
  {
    LightInherits(n, fuel);
    InLight(n, "green", fuel);
    InLight(n, "white", fuel);
    ResolveOne(n, "green", check, fuel, Value("GREEN"));
    ResolveOne(n, "white", check, fuel, Value("WHITE"));
  }

  lemma LightBlue(n: Node, check: bool, fuel: nat)
    requires AtLight(n)
    ensures Resolve(n, ["blue"], check, fuel) == Ok(Some(Node(Value("BLUE"), Some(n))))
  {
    LightInheritsBlue(n, fuel);
    InLight(n, "blue", fuel);
    ResolveOneRef(n, "blue", check, fuel, blue, Value("BLUE"));
  }

  /** lightTheme's colorPrimary is a reference to "green", looked up where
      it is used: GREEN, although the attribute itself is BLUE. */
  lemma LightPrimary(n: Node, check: bool, fuel: nat)
    requires AtLight(n) && fuel >= 1
    ensures Resolve(n, ["colorPrimary"], check, fuel) == Ok(Some(Node(Value("GREEN"), Some(n))))
  {
    LightEntries(n, fuel);
    OwnNamePath(green, "green");
    LightGreenWhite(n, true, fuel - 1);
    ResolveOneSelf(n, "colorPrimary", check, fuel, [RefArg(green)], ["green"], Node(Value("GREEN"), Some(n)));
  }

  lemma LightExample1(n: Node, fuel: nat)
    requires AtLight(n) && fuel >= 2
    ensures Resolve(n, ["example1"], true, fuel) == Ok(Some(Node(Value("GREEN"), Some(n))))
  {
    LightEntries(n, fuel);
    NamedPath("colorPrimary", Reference(blue));
    LightPrimary(n, true, fuel - 1);
    ResolveOneSelf(n, "example1", true, fuel, [RefArg(colorPrimary)], ["colorPrimary"], Node(Value("GREEN"), Some(n)));
  }

  lemma LightBackground(n: Node, fuel: nat)
    requires AtLight(n) && fuel >= 1
    ensures Resolve(n, ["colorBackground"], true, fuel) == Ok(Some(Node(Value("WHITE"), Some(n))))
  {
    LightEntries(n, fuel);
    OwnNamePath(white, "white");
    LightGreenWhite(n, true, fuel - 1);
    ResolveOneSelf(n, "colorBackground", true, fuel, [RefArg(white)], ["white"], Node(Value("WHITE"), Some(n)));
  }

  /** lightTheme[green] is GREEN: the key is found in the parent style. */
  lemma LightThemeGreen()
    ensures Get(Reference(lightTheme), [RefArg(green)], Fuel) == Ok(PayloadAnswer("GREEN"))
  {
    var root := Node(Reference(lightTheme), None);
    OwnNamePath(green, "green");
    LightGreenWhite(root, true, Fuel);
    GetAt(Reference(lightTheme), [RefArg(green)], Fuel, Node(Value("GREEN"), Some(root)));
  }

  /** lightTheme["example2"] is BLUE: colorPrimary was stored dereferenced,
      so the attribute's own value BLUE was kept. */
  lemma LightThemeExample2()
    ensures Get(Reference(lightTheme), [Text("example2")], Fuel) == Ok(PayloadAnswer("BLUE"))
  {
    var root := Node(Reference(lightTheme), None);
    WordPath("example2");
    LightEntries(root, Fuel);
    ResolveOne(root, "example2", true, Fuel, Value("BLUE"));
    GetAt(Reference(lightTheme), [Text("example2")], Fuel, Node(Value("BLUE"), Some(root)));
  }

  /** lightTheme["example1"] is GREEN: the stored reference to colorPrimary
      is looked up in lightTheme, where colorPrimary is green. */
  lemma LightThemeExample1()
    ensures Get(Reference(lightTheme), [Text("example1")], Fuel) == Ok(PayloadAnswer("GREEN"))
  {
    var root := Node(Reference(lightTheme), None);
    WordPath("example1");
    LightExample1(root, Fuel);
    GetAt(Reference(lightTheme), [Text("example1")], Fuel, Node(Value("GREEN"), Some(root)));
  }

  /** lightTheme[colorBackground] is WHITE: white refers to its own name,
      which the parent style holds. */
  lemma LightThemeBackground()
    ensures Get(Reference(lightTheme), [RefArg(colorBackground)], Fuel) == Ok(PayloadAnswer("WHITE"))
  {
    var root := Node(Reference(lightTheme), None);
    NamedPath("colorBackground", Value("GREEN"));
    LightBackground(root, Fuel);
    GetAt(Reference(lightTheme), [RefArg(colorBackground)], Fuel, Node(Value("WHITE"), Some(root)));
  }

  // ---------------------------------------------------------------------
  // buttonStyle
  // ---------------------------------------------------------------------

  const buttonRoot := Node(Reference(buttonStyle), None)
  /** The node for buttonStyle's colors, a copy of lightTheme. */
  const buttonColors := Node(Group(lightGroup), Some(buttonRoot))
  /** The node for buttonStyle's text style. */
  const buttonText := Node(Group(textGroup), Some(buttonRoot))

  /** The text style holds only its two entries and has no parent style. */
  lemma TextLacks(n: Node, k: string, fuel: nat)
    requires k != "h1TextColor" && k != "h2TextColor"
    ensures ChildOf(Group(textGroup), n, k, fuel) == Ok(None)
  {
    assert k !in textGroup.styles && textGroup.parent == None;
    assert GroupGet(textGroup, n, k, fuel) == ParentLookup(None, n, k, fuel);
  }

  lemma TextEntries(fuel: nat)
    ensures ChildOf(buttonText.current, buttonText, "h1TextColor", fuel)
      == Ok(Some(Reference(SelfReference([RefArg(defaultColor)]))))
    ensures ChildOf(buttonText.current, buttonText, "h2TextColor", fuel)
      == Ok(Some(Reference(SelfReference([RefArg(colorsBlue)]))))
  {
    assert GroupGet(textGroup, buttonText, "h1TextColor", fuel)
      == Ok(Some(Reference(SelfReference([RefArg(defaultColor)]))));
    assert GroupGet(textGroup, buttonText, "h2TextColor", fuel)
      == Ok(Some(Reference(SelfReference([RefArg(colorsBlue)]))));
  }

  /** The entries buttonStyle holds. */
  lemma ButtonEntries(fuel: nat)
    ensures ChildOf(buttonRoot.current, buttonRoot, "colors", fuel) == Ok(Some(Group(lightGroup)))
    ensures ChildOf(buttonRoot.current, buttonRoot, "textStyle", fuel) == Ok(Some(Group(textGroup)))
    ensures ChildOf(buttonRoot.current, buttonRoot, "defaultColor", fuel)
      == Ok(Some(Reference(SelfReference([RefArg(colorsColorPrimary)]))))
  {
    assert GroupGet(buttonGroup, buttonRoot, "colors", fuel) == Ok(Some(Group(lightGroup)));
    assert GroupGet(buttonGroup, buttonRoot, "textStyle", fuel) == Ok(Some(Group(textGroup)));
    assert GroupGet(buttonGroup, buttonRoot, "defaultColor", fuel)
      == Ok(Some(Reference(SelfReference([RefArg(colorsColorPrimary)]))));
    InNamedGroup("buttonStyle", buttonGroup, buttonRoot, "colors", fuel);
    InNamedGroup("buttonStyle", buttonGroup, buttonRoot, "textStyle", fuel);
    InNamedGroup("buttonStyle", buttonGroup, buttonRoot, "defaultColor", fuel);
  }

  lemma ButtonColors(check: bool, fuel: nat)
    ensures Resolve(buttonRoot, ["colors"], check, fuel) == Ok(Some(buttonColors))
  {
    ButtonEntries(fuel);
    ResolveOne(buttonRoot, "colors", check, fuel, Group(lightGroup));
  }

  lemma ButtonTextStyle(fuel: nat)
    ensures Resolve(buttonRoot, ["textStyle"], true, fuel) == Ok(Some(buttonText))
  {
    ButtonEntries(fuel);
    ResolveOne(buttonRoot, "textStyle", true, fuel, Group(textGroup));
  }

  /** colors.colorPrimary from buttonStyle: GREEN, as in lightTheme. */
  lemma ButtonColorsPrimary(fuel: nat)
    requires fuel >= 1
    ensures Resolve(buttonRoot, ["colors", "colorPrimary"], true, fuel)
      == Ok(Some(Node(Value("GREEN"), Some(buttonColors))))
  {
    ButtonColors(true, fuel);
    assert ["colors", "colorPrimary"] == ["colors"] + ["colorPrimary"];
    ResolveConcat(buttonRoot, ["colors"], ["colorPrimary"], true, fuel);
    LightPrimary(buttonColors, false, fuel);
  }

  /** colors.blue from buttonStyle: BLUE, inherited by lightTheme. */
  lemma ButtonColorsBlue(fuel: nat)
    ensures Resolve(buttonRoot, ["colors", "blue"], true, fuel)
      == Ok(Some(Node(Value("BLUE"), Some(buttonColors))))
  {
    ButtonColors(true, fuel);
    assert ["colors", "blue"] == ["colors"] + ["blue"];
    ResolveConcat(buttonRoot, ["colors"], ["blue"], true, fuel);
    LightBlue(buttonColors, false, fuel);
  }

  /** buttonStyle's defaultColor: the dotted reference, resolved from
      buttonStyle, is GREEN. */
  lemma ButtonDefaultColor(fuel: nat)
    requires fuel >= 2
    ensures Resolve(buttonRoot, ["defaultColor"], true, fuel) == Ok(Some(Node(Value("GREEN"), Some(buttonRoot))))
  {
    ButtonEntries(fuel);
    ColorsColorPrimaryPath();
    ButtonColorsPrimary(fuel - 1);
    ResolveOneSelf(buttonRoot, "defaultColor", true, fuel, [RefArg(colorsColorPrimary)],
      ["colors", "colorPrimary"], Node(Value("GREEN"), Some(buttonColors)));
  }

  /** defaultColor asked for from inside the text style, which lacks it:
      found in buttonStyle. */
  lemma TextDefaultColor(fuel: nat)
    requires fuel >= 2
    ensures Resolve(buttonText, ["defaultColor"], true, fuel) == Ok(Some(Node(Value("GREEN"), Some(buttonRoot))))
  {
    TextLacks(buttonText, "defaultColor", fuel);
    FallBackOne(buttonText, buttonRoot, [], "defaultColor", fuel);
    ButtonDefaultColor(fuel);
    assert ["defaultColor"][1..] == [];
  }

  /** "colors.blue" asked for from inside the text style: the first
      segment falls back to buttonStyle. */
  lemma TextColorsBlue(fuel: nat)
    ensures Resolve(buttonText, ["colors", "blue"], true, fuel) == Ok(Some(Node(Value("BLUE"), Some(buttonColors))))
  {
    TextLacks(buttonText, "colors", fuel);
    FallBackOne(buttonText, buttonRoot, ["blue"], "colors", fuel);
    ButtonColorsBlue(fuel);
    assert ["colors", "blue"][1..] == ["blue"];
  }

  lemma TextH1(fuel: nat)
    requires fuel >= 3
    ensures Resolve(buttonText, ["h1TextColor"], false, fuel) == Ok(Some(Node(Value("GREEN"), Some(buttonText))))
  {
    TextEntries(fuel);
    OwnNamePath(defaultColor, "defaultColor");
    TextDefaultColor(fuel - 1);
    ResolveOneSelf(buttonText, "h1TextColor", false, fuel, [RefArg(defaultColor)], ["defaultColor"],
      Node(Value("GREEN"), Some(buttonRoot)));
  }

  lemma TextH2(fuel: nat)
    requires fuel >= 1
    ensures Resolve(buttonText, ["h2TextColor"], false, fuel) == Ok(Some(Node(Value("BLUE"), Some(buttonText))))
  {
    TextEntries(fuel);
    ColorsBluePath();
    TextColorsBlue(fuel - 1);
    ResolveOneSelf(buttonText, "h2TextColor", false, fuel, [RefArg(colorsBlue)],
      ["colors", "blue"], Node(Value("BLUE"), Some(buttonColors)));
  }

  lemma ButtonH1(fuel: nat)
    requires fuel >= 3
    ensures Resolve(buttonRoot, ["textStyle", "h1TextColor"], true, fuel)
      == Ok(Some(Node(Value("GREEN"), Some(buttonText))))
  {
    ButtonTextStyle(fuel);
    assert ["textStyle", "h1TextColor"] == ["textStyle"] + ["h1TextColor"];
    ResolveConcat(buttonRoot, ["textStyle"], ["h1TextColor"], true, fuel);
    TextH1(fuel);
  }

  lemma ButtonH2(fuel: nat)
    requires fuel >= 1
    ensures Resolve(buttonRoot, ["textStyle", "h2TextColor"], true, fuel)
      == Ok(Some(Node(Value("BLUE"), Some(buttonText))))
  {
    ButtonTextStyle(fuel);
    assert ["textStyle", "h2TextColor"] == ["textStyle"] + ["h2TextColor"];
    ResolveConcat(buttonRoot, ["textStyle"], ["h2TextColor"], true, fuel);
    TextH2(fuel);
  }

  /** The two-argument paths of the buttonStyle lookups. */
  lemma ColorsPrimaryArgsPath()
    ensures PathOf([RefArg(colors), RefArg(colorPrimary)]) == ["colors", "colorPrimary"]
  {
    NamedPath("colors", Group(colorsGroup));
    NamedPath("colorPrimary", Reference(blue));
    TwoArgPath(RefArg(colors), RefArg(colorPrimary), "colors", "colorPrimary");
  }

  lemma ColorsBlueArgsPath()
    ensures PathOf([RefArg(colors), RefArg(blue)]) == ["colors", "blue"]
  {
    NamedPath("colors", Group(colorsGroup));
    BluePath();
    TwoArgPath(RefArg(colors), RefArg(blue), "colors", "blue");
  }

  lemma TextEntryArgsPath(h: string)
    requires IsToken(h)
    ensures PathOf([RefArg(textStyle), Text(h)]) == ["textStyle", h]
  {
    OwnNamePath(textStyle, "textStyle");
    WordPath(h);
    TwoArgPath(RefArg(textStyle), Text(h), "textStyle", h);
  }

  /** buttonStyle[colors, colorPrimary] is GREEN: the copy of lightTheme
      keeps its references to "green". */
  lemma ButtonStyleColorPrimary()
    ensures Get(Reference(buttonStyle), [RefArg(colors), RefArg(colorPrimary)], Fuel) == Ok(PayloadAnswer("GREEN"))
  {
    ColorsPrimaryArgsPath();
    ButtonColorsPrimary(Fuel);
    GetAt(Reference(buttonStyle), [RefArg(colors), RefArg(colorPrimary)], Fuel,
      Node(Value("GREEN"), Some(buttonColors)));
  }

  /** buttonStyle[colors, blue] is BLUE: lightTheme's copy inherits blue
      from `colors`. */
  lemma ButtonStyleColorsBlue()
    ensures Get(Reference(buttonStyle), [RefArg(colors), RefArg(blue)], Fuel) == Ok(PayloadAnswer("BLUE"))
  {
    ColorsBlueArgsPath();
    ButtonColorsBlue(Fuel);
    GetAt(Reference(buttonStyle), [RefArg(colors), RefArg(blue)], Fuel,
      Node(Value("BLUE"), Some(buttonColors)));
  }

  /** buttonStyle[textStyle, "h1TextColor"] is GREEN: defaultColor is found
      in buttonStyle and refers to colors.colorPrimary. */
  lemma ButtonStyleH1()
    ensures Get(Reference(buttonStyle), [RefArg(textStyle), Text("h1TextColor")], Fuel) == Ok(PayloadAnswer("GREEN"))
  {
    TextEntryArgsPath("h1TextColor");
    ButtonH1(Fuel);
    GetAt(Reference(buttonStyle), [RefArg(textStyle), Text("h1TextColor")], Fuel,
      Node(Value("GREEN"), Some(buttonText)));
  }

  /** buttonStyle[textStyle, "h2TextColor"] is BLUE: "colors.blue" is found
      through buttonStyle's colors, which inherit blue from `colors`. */
  lemma ButtonStyleH2()
    ensures Get(Reference(buttonStyle), [RefArg(textStyle), Text("h2TextColor")], Fuel) == Ok(PayloadAnswer("BLUE"))
  {
    TextEntryArgsPath("h2TextColor");
    ButtonH2(Fuel);
    GetAt(Reference(buttonStyle), [RefArg(textStyle), Text("h2TextColor")], Fuel,
      Node(Value("BLUE"), Some(buttonText)));
  }

  /** The answers of lightTheme do not depend on the fuel granted, beyond
      what they need. */
  lemma LightThemeAnyFuel(f: nat)
    requires f >= Fuel
    ensures Get(Reference(lightTheme), [RefArg(green)], f) == Ok(PayloadAnswer("GREEN"))
    ensures Get(Reference(lightTheme), [RefArg(colorBackground)], f) == Ok(PayloadAnswer("WHITE"))
    ensures Get(Reference(lightTheme), [Text("example1")], f) == Ok(PayloadAnswer("GREEN"))
    ensures Get(Reference(lightTheme), [Text("example2")], f) == Ok(PayloadAnswer("BLUE"))
  {
    var s := Reference(lightTheme);
    var a1, a2, a3, a4 := [RefArg(green)], [RefArg(colorBackground)], [Text("example1")], [Text("example2")];
    assert Get(s, a1, f) == Ok(PayloadAnswer("GREEN")) by { LightThemeGreen(); GetMoreFuel(s, a1, Fuel, f); }
    assert Get(s, a2, f) == Ok(PayloadAnswer("WHITE")) by { LightThemeBackground(); GetMoreFuel(s, a2, Fuel, f); }
    assert Get(s, a3, f) == Ok(PayloadAnswer("GREEN")) by { LightThemeExample1(); GetMoreFuel(s, a3, Fuel, f); }
    assert Get(s, a4, f) == Ok(PayloadAnswer("BLUE")) by { LightThemeExample2(); GetMoreFuel(s, a4, Fuel, f); }
  }

  /** The answers of buttonStyle do not depend on the fuel granted, beyond
      what they need. */
  lemma ButtonStyleAnyFuel(f: nat)
    requires f >= Fuel
    ensures Get(Reference(buttonStyle), [RefArg(colors), RefArg(colorPrimary)], f) == Ok(PayloadAnswer("GREEN"))
    ensures Get(Reference(buttonStyle), [RefArg(colors), RefArg(blue)], f) == Ok(PayloadAnswer("BLUE"))
    ensures Get(Reference(buttonStyle), [RefArg(textStyle), Text("h1TextColor")], f) == Ok(PayloadAnswer("GREEN"))
    ensures Get(Reference(buttonStyle), [RefArg(textStyle), Text("h2TextColor")], f) == Ok(PayloadAnswer("BLUE"))
  {
    var s := Reference(buttonStyle);
    var a1, a2 := [RefArg(colors), RefArg(colorPrimary)], [RefArg(colors), RefArg(blue)];
    var a3, a4 := [RefArg(textStyle), Text("h1TextColor")], [RefArg(textStyle), Text("h2TextColor")];
    assert Get(s, a1, f) == Ok(PayloadAnswer("GREEN")) by { ButtonStyleColorPrimary(); GetMoreFuel(s, a1, Fuel, f); }
    assert Get(s, a2, f) == Ok(PayloadAnswer("BLUE")) by { ButtonStyleColorsBlue(); GetMoreFuel(s, a2, Fuel, f); }
    assert Get(s, a3, f) == Ok(PayloadAnswer("GREEN")) by { ButtonStyleH1(); GetMoreFuel(s, a3, Fuel, f); }
    assert Get(s, a4, f) == Ok(PayloadAnswer("BLUE")) by { ButtonStyleH2(); GetMoreFuel(s, a4, Fuel, f); }
  }

  // ---------------------------------------------------------------------
  // The groups, as the builder makes them
  // ---------------------------------------------------------------------

  /** A named reference whose name is one word is accepted under it. */
  lemma NamedAccepted(w: string, t: Style)
    requires IsToken(w)
    ensures AssertName(NamedReference(w, t)) == Accepted(w)
  {
    TokenIsFixed(w);
  }

  /** So is an attribute declared without a value. */
  lemma OwnNameAccepted(r: Ref, w: string)
    requires IsToken(w) && r == SelfReference([Text(w)])
    ensures AssertName(r) == Accepted(w)
  {
    WordPath(w);
    SelfNameIsPath([Text(w)]);
  }

  /** The block of `colors`: add blue, set white, set "green", set
      "example" to blue. */
  function BuildColors(): Checked<GroupShape> {
    var b0 := NewBuilder(None);
    var b1 :- AddReference(b0, blue);
    var b2 :- SetByReference(b1, white, SetPlain("WHITE"));
    var b3 := SetByName(b2, "green", SetPlain("GREEN"));
    var b4 := SetByName(b3, "example", SetStyle(Reference(blue)));
    Accepted(Build(b4))
  }

  /** The block of `lightTheme`, over `colors`. */
  function BuildLight(): Checked<GroupShape> {
    var b0 := NewBuilder(Some(Reference(colors)));
    var b1 :- SetByReference(b0, colorPrimary, SetStyle(Reference(green)));
    var b2 :- SetByReference(b1, colorBackground, SetStyle(Reference(white)));
    var b3 := SetByName(b2, "example1", SetStyle(Reference(colorPrimary)));
    var b4 := SetByName(b3, "example2", SetStyle(Value("BLUE")));
    Accepted(Build(b4))
  }

  lemma BlueName()
    ensures AssertName(blue) == Accepted("blue")
  {
    var w := "blue";
    NamedAccepted(w, Value("BLUE"));
  }

  lemma WhiteName()
    ensures AssertName(white) == Accepted("white")
  {
    var w := "white";
    OwnNameAccepted(white, w);
  }

  lemma PrimaryName()
    ensures AssertName(colorPrimary) == Accepted("colorPrimary")
  {
    var w := "colorPrimary";
    NamedAccepted(w, Reference(blue));
  }

  lemma BackgroundName()
    ensures AssertName(colorBackground) == Accepted("colorBackground")
  {
    var w := "colorBackground";
    NamedAccepted(w, Value("GREEN"));
  }

  /** Two distinct keys make a Multi group. */
  lemma BuildsMulti(b: Builder, k1: string, k2: string)
    requires k1 in b.values && k2 in b.values && k1 != k2
    ensures Build(b) == Multi(b.values, b.parent)
  {
    assert {k1, k2} <= b.values.Keys;
    assert |{k1, k2}| == 2;
    SubsetCardinality({k1, k2}, b.values.Keys);
  }

  lemma SubsetCardinality(a: set<string>, b: set<string>)
    requires a <= b
    ensures |a| <= |b|
  {
    assert b == a + (b - a);
  }

  /** A builder holding a group's entries over its parent builds that
      group, when there are at least two. */
  lemma BuildsGroup(g: GroupShape, k1: string, k2: string)
    requires g.Multi? && k1 in g.styles && k2 in g.styles && k1 != k2
    ensures Build(Builder(g.parent, g.styles)) == g
  {
    BuildsMulti(Builder(g.parent, g.styles), k1, k2);
  }

  /** The `colors` block collects the entries of the `colors` group. */
  lemma ColorsEntriesAsBuilt()
    ensures BuildColors() == Accepted(Build(Builder(None, colorsGroup.styles)))
  {
    var b2 := Add(colorsFirst, "white", Value("WHITE"));
    var b4 := SetByName(SetByName(b2, "green", SetPlain("GREEN")), "example", SetStyle(Reference(blue)));
    assert BuildColors() == Accepted(Build(b4)) by {
      ColorsFirstEntry();
      ColorsSecondEntry();
    }
    assert b4 == Builder(None, colorsGroup.styles);
  }

  const colorsFirst := Builder(None, map["blue" := Reference(blue)])

  lemma ColorsFirstEntry()
    ensures AddReference(NewBuilder(None), blue) == Accepted(colorsFirst)
  {
    BlueName();
  }

  lemma ColorsSecondEntry()
    ensures SetByReference(colorsFirst, white, SetPlain("WHITE")) == Accepted(Add(colorsFirst, "white", Value("WHITE")))
  {
    WhiteName();
  }

  /** The builder makes the `colors` group used above. */
  lemma ColorsAsBuilt()
    ensures BuildColors() == Accepted(colorsGroup)
  {
    ColorsEntriesAsBuilt();
    BuildsGroup(colorsGroup, "blue", "white");
  }

  /** The `lightTheme` block collects the entries of the `lightTheme`
      group. */
  lemma LightEntriesAsBuilt()
    ensures BuildLight() == Accepted(Build(Builder(Some(Reference(colors)), lightGroup.styles)))
  {
    var b2 := Add(lightFirst, "colorBackground", Reference(SelfReference([RefArg(white)])));
    var b4 := SetByName(SetByName(b2, "example1", SetStyle(Reference(colorPrimary))), "example2", SetStyle(Value("BLUE")));
    assert BuildLight() == Accepted(Build(b4)) by {
      LightFirstEntry();
      LightSecondEntry();
    }
    assert b4 == Builder(Some(Reference(colors)), lightGroup.styles);
  }

  const lightFirst := Builder(Some(Reference(colors)), map["colorPrimary" := Reference(SelfReference([RefArg(green)]))])

  lemma LightFirstEntry()
    ensures SetByReference(NewBuilder(Some(Reference(colors))), colorPrimary, SetStyle(Reference(green))) == Accepted(lightFirst)
  {
    PrimaryName();
  }

  lemma LightSecondEntry()
    ensures SetByReference(lightFirst, colorBackground, SetStyle(Reference(white)))
      == Accepted(Add(lightFirst, "colorBackground", Reference(SelfReference([RefArg(white)]))))
  {
    BackgroundName();
  }

  /** The builder makes the `lightTheme` group used above. */
  lemma LightAsBuilt()
    ensures BuildLight() == Accepted(lightGroup)
  {
    LightEntriesAsBuilt();
    BuildsGroup(lightGroup, "example1", "example2");
  }

  /** What lightTheme holds under "example2" is colorPrimary dereferenced. */
  lemma Example2IsDereferenced()
    ensures Dereference(Reference(colorPrimary), Fuel) == Ok(lightGroup.styles["example2"])
  {
    PrimaryDereferenced();
  }

  /** The block of the text style: both entries set by name. */
  function BuildText(): (g: GroupShape) {
    var b0 := NewBuilder(None);
    var b1 := SetByName(b0, "h1TextColor", SetStyle(Reference(defaultColor)));
    var b2 := SetByName(b1, "h2TextColor", SetStyle(Reference(colorsBlue)));
    Build(b2)
  }

  /** The block of `buttonStyle`. */
  function BuildButton(): Checked<GroupShape> {
    var b0 := NewBuilder(None);
    var b1 :- SetByReference(b0, colors, SetStyle(Group(lightGroup)));
    var b2 :- SetByReference(b1, defaultColor, SetStyle(Reference(colorsColorPrimary)));
    var b3 :- SetByReference(b2, textStyle, SetStyle(Group(BuildText())));
    Accepted(Build(b3))
  }

  lemma ColorsName()
    ensures AssertName(colors) == Accepted("colors")
  {
    var w := "colors";
    NamedAccepted(w, Group(colorsGroup));
  }

  lemma DefaultColorName()
    ensures AssertName(defaultColor) == Accepted("defaultColor")
  {
    var w := "defaultColor";
    OwnNameAccepted(defaultColor, w);
  }

  lemma TextStyleName()
    ensures AssertName(textStyle) == Accepted("textStyle")
  {
    var w := "textStyle";
    OwnNameAccepted(textStyle, w);
  }

  /** The builder makes the text style used above. */
  lemma TextAsBuilt()
    ensures BuildText() == textGroup
  {
  }

  /** The `buttonStyle` block collects the entries of the `buttonStyle`
      group. */
  lemma ButtonEntriesAsBuilt()
    ensures BuildButton() == Accepted(Build(Builder(None, buttonGroup.styles)))
  {
    var b2 := Add(buttonFirst, "defaultColor", Reference(SelfReference([RefArg(colorsColorPrimary)])));
    var b3 := Add(b2, "textStyle", Group(textGroup));
    assert BuildButton() == Accepted(Build(b3)) by {
      ButtonFirstEntry();
      ButtonSecondEntry();
      ButtonThirdEntry(b2);
    }
    assert b3 == Builder(None, buttonGroup.styles);
  }

  const buttonFirst := Builder(None, map["colors" := Group(lightGroup)])

  lemma ButtonFirstEntry()
    ensures SetByReference(NewBuilder(None), colors, SetStyle(Group(lightGroup))) == Accepted(buttonFirst)
  {
    ColorsName();
  }

  lemma ButtonSecondEntry()
    ensures SetByReference(buttonFirst, defaultColor, SetStyle(Reference(colorsColorPrimary)))
      == Accepted(Add(buttonFirst, "defaultColor", Reference(SelfReference([RefArg(colorsColorPrimary)]))))
  {
    DefaultColorName();
  }

  lemma ButtonThirdEntry(b: Builder)
    ensures SetByReference(b, textStyle, SetStyle(Group(BuildText()))) == Accepted(Add(b, "textStyle", Group(textGroup)))
  {
    TextAsBuilt();
    TextStyleName();
  }

  /** The builder makes the `buttonStyle` group used above. */
  lemma ButtonAsBuilt()
    ensures BuildButton() == Accepted(buttonGroup)
  {
    ButtonEntriesAsBuilt();
    BuildsGroup(buttonGroup, "colors", "textStyle");
  }
}
