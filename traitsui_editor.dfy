/**
  The TraitsUI widget mount of jigna: a class-wide table from
  "<model name>.<trait name>" keys to widget factories, the WebKit plugin
  factory's `create` that looks an `<object>` tag's arguments up in that table,
  the once-only session setup, the editor's size-argument parsing and the size
  rule of the embedded widget.
*/
module TraitsUIEditor {
  import opened Wrappers
  import opened PyInt
  import opened Chars

  /** An embeddable Qt widget; what it shows is outside the model. */
  type Widget
  /** A traitsui editor object handed to a generated view. */
  type Editor(==)
  /** A QWebView, known by identity. */
  type WebView(==)

  /** A registered widget factory: called with the model name and the tag's arguments. */
  type WidgetFactory = (string, map<string, string>) -> Widget

  // ---------------------------------------------------------------------------
  // TraitsUIWidget: which size the embedded widget asks for
  // ---------------------------------------------------------------------------

  /** The default `width` and `height` of `TraitsUIWidget`. */
  const DefaultSize := 300

  /** A traitsui `View`'s requested size; a value that is not positive states no size. */
  datatype ViewSize = ViewSize(width: int, height: int)

  /** The view the widget edits the trait with: the one supplied, or one generated
      for the trait, in custom style without a label, resizable, with the given editor. */
  datatype ShownView =
    | Supplied(size: ViewSize)
    | Generated(traitName: string, editor: Option<Editor>, width: int, height: int)

  /** The width and height the shown view itself asks for. */
  function ViewWidth(v: ShownView): int
  {
    match v
    case Supplied(size) => size.width
    case Generated(_, _, width, _) => width
  }

  function ViewHeight(v: ShownView): int
  {
    match v
    case Supplied(size) => size.height
    case Generated(_, _, _, height) => height
  }

  /** What `TraitsUIWidget.__init__` fixes: its minimum size and the view it shows. */
  datatype TraitsUIWidget = TraitsUIWidget(minWidth: int, minHeight: int, view: ShownView)

  /** `TraitsUIWidget(model, trait_name, view, editor, width, height)`. */
  function NewTraitsUIWidget(traitName: string, view: Option<ViewSize>, editor: Option<Editor>,
                             width: int, height: int): (w: TraitsUIWidget)
    // The view shown is the one supplied, or else one generated for the trait and editor.
    ensures view.Some? ==> w.view == Supplied(view.value)
    ensures view.None? ==> w.view == Generated(traitName, editor, width, height)
    // A size the shown view states is the minimum size; otherwise the parameter is.
    ensures ViewWidth(w.view) > 0 ==> w.minWidth == ViewWidth(w.view)
    ensures ViewHeight(w.view) > 0 ==> w.minHeight == ViewHeight(w.view)
    ensures ViewWidth(w.view) <= 0 ==> w.minWidth == width
    ensures ViewHeight(w.view) <= 0 ==> w.minHeight == height
    // Without a view the minimum size is the width and height parameters.
    ensures view.None? ==> w.minWidth == width && w.minHeight == height
    // Positive parameters always give a positive minimum size.
    ensures width > 0 && height > 0 ==> w.minWidth > 0 && w.minHeight > 0
  {
    match view
    case Some(v) =>
      var h := if v.height > 0 then v.height else height;
      var wd := if v.width > 0 then v.width else width;
      TraitsUIWidget(wd, h, Supplied(v))
    case None =>
      TraitsUIWidget(width, height, Generated(traitName, editor, width, height))
  }

  /** A supplied view with a positive size overrides the width and height parameters. */
  lemma SuppliedSizeWins(traitName: string, v: ViewSize, editor: Option<Editor>, width: int, height: int)
    requires v.width > 0 && v.height > 0
    ensures var w := NewTraitsUIWidget(traitName, Some(v), editor, width, height);
      w.minWidth == v.width && w.minHeight == v.height
  {
  }

  /** Without a view and with the default arguments the widget is at least 300 by 300,
      and the generated view asks for that same size. */
  lemma DefaultWidgetSize(traitName: string, editor: Option<Editor>)
    ensures var w := NewTraitsUIWidget(traitName, None, editor, DefaultSize, DefaultSize);
      && w.minWidth == 300 && w.minHeight == 300
      && w.view == Generated(traitName, editor, 300, 300)
  {
  }

  // ---------------------------------------------------------------------------
  // TraitsUIEditor: size arguments of the <object> tag
  // ---------------------------------------------------------------------------

  /** What `_get_int` answers when the argument is missing or is not an integer. */
  const SizeSentinel := -10000

  /** `TraitsUIEditor._get_int(name, args)`: the integer the argument spells, or the
      sentinel when it is missing or spells none. */
  function GetInt(name: string, args: map<string, string>): (r: int)
    ensures r != SizeSentinel ==> name in args && ParseInt(args[name]) == Some(r)
    ensures name in args && ParseInt(args[name]).Some? ==> r == ParseInt(args[name]).value
    ensures name !in args || ParseInt(args[name]).None? ==> r == SizeSentinel
  {
    if name in args then
      match ParseInt(args[name])
      case Some(n) => n
      case None => SizeSentinel
    else SizeSentinel
  }

  /** `TraitsUIEditor.get_size(args)`: the `width` and then the `height` argument. */
  function GetSize(args: map<string, string>): (size: (int, int))
    // A component is the sentinel exactly when its argument is missing, is no
    // integer, or is the integer -10000 itself.
    ensures size.0 == SizeSentinel <==>
      "width" !in args || ParseInt(args["width"]) in {None, Some(SizeSentinel)}
    ensures size.1 == SizeSentinel <==>
      "height" !in args || ParseInt(args["height"]) in {None, Some(SizeSentinel)}
    // Otherwise it is the integer the argument spells.
    ensures size.0 != SizeSentinel ==> ParseInt(args["width"]) == Some(size.0)
    ensures size.1 != SizeSentinel ==> ParseInt(args["height"]) == Some(size.1)
  {
    (GetInt("width", args), GetInt("height", args))
  }

  /** Any two integers written as the `width` and `height` arguments are the size. */
  lemma GetSizeShown(args: map<string, string>, width: int, height: int)
    ensures GetSize(args["width" := ShowInt(width)]["height" := ShowInt(height)]) == (width, height)
  {
    var a := args["width" := ShowInt(width)];
    GetIntShown("width", args, width);
    GetIntShown("height", a, height);
    assert a["height" := ShowInt(height)]["width"] == a["width"];
  }

  /** Any integer written as an argument is read back as that integer. */
  lemma GetIntShown(name: string, args: map<string, string>, n: int)
    ensures GetInt(name, args[name := ShowInt(n)]) == n
  {
    ParseShowInt(n);
  }

  /** The sentinel cannot tell a missing argument, an unparseable one and an explicit
      -10000 apart; no `None` is ever returned for defaults. */
  lemma SentinelIsAmbiguous(name: string, args: map<string, string>)
    ensures GetInt(name, args - {name}) == SizeSentinel
    ensures GetInt(name, args[name := "wide"]) == SizeSentinel
    ensures GetInt(name, args[name := ShowInt(SizeSentinel)]) == SizeSentinel
  {
    assert Strip("wide") == "wide";
    assert !IsDigit("wide"[0]);
    GetIntShown(name, args, SizeSentinel);
  }

  /** The editor's own tag writes `width="100%"` and `height="60%"`; neither parses,
      so `get_size` answers the sentinel pair for it. */
  lemma EditorTagSize(args: map<string, string>)
    requires "width" in args && args["width"] == "100%"
    requires "height" in args && args["height"] == "60%"
    ensures GetSize(args) == (SizeSentinel, SizeSentinel)
  {
    assert Strip("100%") == "100%" && !IsDigit("100%"[3]);
    assert Strip("60%") == "60%" && !IsDigit("60%"[2]);
  }

  // ---------------------------------------------------------------------------
  // TraitsUIWidgetFactory: the registry and `create`
  // ---------------------------------------------------------------------------

  /** The MIME type of the `<object>` tags this plugin factory serves. */
  const MimeType := "application/x-traitsuiwidget"

  /** The registry key `'%s.%s' % (model_name, trait_name)`. */
  function Key(modelName: string, traitName: string): (k: string)
    ensures |k| == |modelName| + 1 + |traitName|
    ensures k[..|modelName|] == modelName && k[|modelName|] == '.' && k[|modelName| + 1..] == traitName
  {
    modelName + "." + traitName
  }

  /** Two different (model, trait) pairs can share a key, so one registration can
      replace another's factory. */
  lemma KeyNotInjective()
    ensures ("a.b", "c") != ("a", "b.c") && Key("a.b", "c") == Key("a", "b.c")
  {
    assert Key("a.b", "c") == "a.b.c";
    assert Key("a", "b.c") == "a.b.c";
  }

  /** When model names hold no '.', the key determines both names. */
  lemma KeyInjectiveForDotlessModels(m1: string, t1: string, m2: string, t2: string)
    requires '.' !in m1 && '.' !in m2
    requires Key(m1, t1) == Key(m2, t2)
    ensures m1 == m2 && t1 == t2
  {
    var k := Key(m1, t1);
    if |m1| < |m2| {
      assert false;
    } else if |m2| < |m1| {
      assert false;
    }
    assert m1 == k[..|m1|] == m2;
  }

  function Min(a: nat, b: nat): nat { if a <= b then a else b }

  /** The dictionary after the first `n` pairs of the zipped lists have been stored. */
  function ArgsPrefix(names: seq<string>, values: seq<string>, n: nat): map<string, string>
    requires n <= |names| && n <= |values|
  {
    if n == 0 then map[] else ArgsPrefix(names, values, n - 1)[names[n - 1] := values[n - 1]]
  }

  /** The dictionary `create` fills from `zip(argNames, argValues)`: its names are
      exactly the names of the zipped pairs. */
  function ArgsOf(names: seq<string>, values: seq<string>): (args: map<string, string>)
    ensures args.Keys == set i | 0 <= i < Min(|names|, |values|) :: names[i]
  {
    ArgsPrefixKeys(names, values, Min(|names|, |values|));
    ArgsPrefix(names, values, Min(|names|, |values|))
  }

  lemma {:induction false} ArgsPrefixSamePairs(n1: seq<string>, v1: seq<string>, n2: seq<string>, v2: seq<string>, n: nat)
    requires n <= |n1| && n <= |v1| && n <= |n2| && n <= |v2|
    requires n1[..n] == n2[..n] && v1[..n] == v2[..n]
    ensures ArgsPrefix(n1, v1, n) == ArgsPrefix(n2, v2, n)
  {
    if n > 0 {
      assert n1[n - 1] == n1[..n][n - 1] == n2[n - 1];
      assert v1[n - 1] == v1[..n][n - 1] == v2[n - 1];
      assert n1[..n - 1] == n1[..n][..n - 1];
      assert n2[..n - 1] == n2[..n][..n - 1];
      assert v1[..n - 1] == v1[..n][..n - 1];
      assert v2[..n - 1] == v2[..n][..n - 1];
      ArgsPrefixSamePairs(n1, v1, n2, v2, n - 1);
    }
  }

  /** Names or values beyond the shorter list are ignored, as `zip` drops them. */
  lemma ZipDropsSurplus(names: seq<string>, values: seq<string>, extra: seq<string>)
    ensures |names| <= |values| ==> ArgsOf(names, values + extra) == ArgsOf(names, values)
    ensures |values| <= |names| ==> ArgsOf(names + extra, values) == ArgsOf(names, values)
  {
    if |names| <= |values| {
      ArgsPrefixSamePairs(names, values + extra, names, values, |names|);
    }
    if |values| <= |names| {
      ArgsPrefixSamePairs(names + extra, values, names, values, |values|);
    }
  }

  /** The dictionary's names are exactly the names of the zipped pairs. */
  lemma {:induction false} ArgsPrefixKeys(names: seq<string>, values: seq<string>, n: nat)
    requires n <= |names| && n <= |values|
    ensures ArgsPrefix(names, values, n).Keys == set i | 0 <= i < n :: names[i]
  {
    if n > 0 {
      ArgsPrefixKeys(names, values, n - 1);
      assert (set i | 0 <= i < n :: names[i]) == (set i | 0 <= i < n - 1 :: names[i]) + {names[n - 1]};
    }
  }

  /** For a repeated name the value of its last pair wins. */
  lemma {:induction false} ArgsPrefixLastWins(names: seq<string>, values: seq<string>, n: nat, j: nat)
    requires n <= |names| && n <= |values| && j < n
    requires forall k | j < k < n :: names[k] != names[j]
    ensures names[j] in ArgsPrefix(names, values, n) && ArgsPrefix(names, values, n)[names[j]] == values[j]
  {
    if j < n - 1 {
      ArgsPrefixLastWins(names, values, n - 1, j);
    }
  }

  /** The dictionary holds the zipped names, each with the value of its last pair. */
  lemma ArgsOfContents(names: seq<string>, values: seq<string>, j: nat)
    requires j < Min(|names|, |values|)
    requires forall k | j < k < Min(|names|, |values|) :: names[k] != names[j]
    ensures ArgsOf(names, values).Keys == set i | 0 <= i < Min(|names|, |values|) :: names[i]
    ensures ArgsOf(names, values)[names[j]] == values[j]
  {
    ArgsPrefixKeys(names, values, Min(|names|, |values|));
    ArgsPrefixLastWins(names, values, Min(|names|, |values|), j);
  }

  /** `args.get(name, '')`. */
  function GetOr(args: map<string, string>, name: string, default: string): string
  {
    if name in args then args[name] else default
  }

  /** What `create` answers, given the class-wide registry. */
  function CreateResult(registry: map<string, WidgetFactory>, mimeType: string,
                        argNames: seq<string>, argValues: seq<string>): (w: Option<Widget>)
    // A widget is made exactly for the served MIME type and a registered key.
    ensures w.Some? <==> (mimeType == MimeType &&
      var args := ArgsOf(argNames, argValues);
      Key(GetOr(args, "model_name", ""), GetOr(args, "trait_name", "")) in registry)
  {
    if mimeType != MimeType then None
    else
      var args := ArgsOf(argNames, argValues);
      var modelName := GetOr(args, "model_name", "");
      var key := Key(modelName, GetOr(args, "trait_name", ""));
      if key in registry then Some(registry[key](modelName, args)) else None
  }

  /** A foreign MIME type gets no widget, whatever the registry and the arguments. */
  lemma ForeignMimeType(registry: map<string, WidgetFactory>, mimeType: string,
                        argNames: seq<string>, argValues: seq<string>)
    requires mimeType != MimeType
    ensures CreateResult(registry, mimeType, argNames, argValues) == None
  {
  }

  /** With the right MIME type, the factory registered under the arguments' model and
      trait names (each `''` when absent) is called with the model name and the
      arguments, and its widget is returned; with none registered there is no widget. */
  lemma CreateLooksUpKey(registry: map<string, WidgetFactory>, argNames: seq<string>, argValues: seq<string>)
    ensures var args := ArgsOf(argNames, argValues);
      var m, t := GetOr(args, "model_name", ""), GetOr(args, "trait_name", "");
      && (Key(m, t) in registry ==> CreateResult(registry, MimeType, argNames, argValues) == Some(registry[Key(m, t)](m, args)))
      && (Key(m, t) !in registry ==> CreateResult(registry, MimeType, argNames, argValues) == None)
  {
  }

  /** After `register_widget_factory(m, t, f)`, a tag whose last zipped `model_name`
      pair (at `jm`) says `m` and whose last zipped `trait_name` pair (at `jt`) says
      `t`, among any other arguments in any order, gets `f(m, args)`. */
  lemma CreateAfterRegister(registry: map<string, WidgetFactory>, m: string, t: string, f: WidgetFactory,
                            names: seq<string>, values: seq<string>, jm: nat, jt: nat)
    requires jm < Min(|names|, |values|) && names[jm] == "model_name" && values[jm] == m
    requires jt < Min(|names|, |values|) && names[jt] == "trait_name" && values[jt] == t
    requires forall k | jm < k < Min(|names|, |values|) :: names[k] != "model_name"
    requires forall k | jt < k < Min(|names|, |values|) :: names[k] != "trait_name"
    ensures CreateResult(registry[Key(m, t) := f], MimeType, names, values) == Some(f(m, ArgsOf(names, values)))
  {
    var n := Min(|names|, |values|);
    ArgsPrefixLastWins(names, values, n, jm);
    ArgsPrefixLastWins(names, values, n, jt);
  }

  /** A value the editor's tag can carry unquoted (`model_name=${model_name}`, not
      escaped): non-empty, with no whitespace, quote, `=`, `<`, `>`, backtick or `&`. */
  predicate UnquotedAttributeValue(v: string)
  {
    v != [] && forall i | 0 <= i < |v| :: !IsSpace(v[i]) && v[i] !in "\"'=<>`&"
  }

  /** A value the editor's tag can carry in double quotes without escaping: no `"`, no `&`. */
  predicate QuotedAttributeValue(v: string)
  {
    '"' !in v && '&' !in v
  }

  /** The tag the editor writes, `<object type=... model_name=m trait_name="t"
      width="100%" height="60%">`, reaches the factory registered for `(m, t)`, and
      its size arguments read as the sentinel pair. Only names that the unescaped
      tag text carries through unchanged are covered. */
  lemma EditorTagReachesFactory(registry: map<string, WidgetFactory>, m: string, t: string, f: WidgetFactory)
    requires UnquotedAttributeValue(m) && QuotedAttributeValue(t)
    ensures var names := ["type", "model_name", "trait_name", "width", "height"];
      var values := [MimeType, m, t, "100%", "60%"];
      && CreateResult(registry[Key(m, t) := f], MimeType, names, values) == Some(f(m, ArgsOf(names, values)))
      && GetSize(ArgsOf(names, values)) == (SizeSentinel, SizeSentinel)
  {
    var names := ["type", "model_name", "trait_name", "width", "height"];
    var values := [MimeType, m, t, "100%", "60%"];
    CreateAfterRegister(registry, m, t, f, names, values, 1, 2);
    ArgsPrefixLastWins(names, values, 5, 3);
    ArgsPrefixLastWins(names, values, 5, 4);
    EditorTagSize(ArgsOf(names, values));
  }

  /** A missing model or trait name is read as `''`: a tag with neither reaches the
      factory registered under the key ".". */
  lemma MissingNamesDefaultEmpty(registry: map<string, WidgetFactory>, f: WidgetFactory)
    ensures CreateResult(registry[Key("", "") := f], MimeType, [], []) == Some(f("", map[]))
  {
  }

  /** A later registration whose key collides replaces the factory of an earlier one:
      registering for ("a", "b.c") takes over the tag naming model "a.b", trait "c". */
  lemma CollidingRegistrationShadows(registry: map<string, WidgetFactory>, f: WidgetFactory, g: WidgetFactory)
    ensures var r := registry[Key("a.b", "c") := f][Key("a", "b.c") := g];
      var args := map["model_name" := "a.b", "trait_name" := "c"];
      CreateResult(r, MimeType, ["model_name", "trait_name"], ["a.b", "c"]) == Some(g("a.b", args))
  {
    KeyNotInjective();
    var names, values: seq<string> := ["model_name", "trait_name"], ["a.b", "c"];
    CreateAfterRegister(registry[Key("a.b", "c") := f], "a.b", "c", g, names, values, 0, 1);
    assert ArgsPrefix(names, values, 1) == map["model_name" := "a.b"];
    assert ArgsOf(names, values) == map["model_name" := "a.b", "trait_name" := "c"];
  }

  // ---------------------------------------------------------------------------
  // Session setup: the class attribute `instance` is set once
  // ---------------------------------------------------------------------------

  /** `instance` of the factory class, and the two global WebKit settings it turns on. */
  datatype SessionState = SessionState(instance: Option<WebView>, pluginsEnabled: bool, developerExtrasEnabled: bool)

  /** `setup_session(webview)`: only the first call installs a factory for its web view. */
  function AfterSetup(s: SessionState, webview: WebView): (t: SessionState)
    ensures t.instance.Some?
    ensures s.instance.None? ==> t == SessionState(Some(webview), true, true)
    ensures s.instance.Some? ==> t == s
  {
    if s.instance.None? then SessionState(Some(webview), true, true) else s
  }

  /** A series of `setup_session` calls, in order. */
  function AfterSetups(s: SessionState, webviews: seq<WebView>): SessionState
    decreases |webviews|
  {
    if webviews == [] then s else AfterSetups(AfterSetup(s, webviews[0]), webviews[1..])
  }

  /** Once a factory is installed, further setup calls change nothing. */
  lemma {:induction false} SetupsAfterInstallChangeNothing(s: SessionState, webviews: seq<WebView>)
    requires s.instance.Some?
    ensures AfterSetups(s, webviews) == s
    decreases |webviews|
  {
    if webviews != [] {
      SetupsAfterInstallChangeNothing(AfterSetup(s, webviews[0]), webviews[1..]);
    }
  }

  /** From a fresh session, the first web view set up is the one that keeps the factory. */
  lemma FirstSetupWins(s: SessionState, webviews: seq<WebView>)
    requires s.instance.None? && webviews != []
    ensures AfterSetups(s, webviews) == SessionState(Some(webviews[0]), true, true)
  {
    SetupsAfterInstallChangeNothing(AfterSetup(s, webviews[0]), webviews[1..]);
  }

  /** The class attributes of `TraitsUIWidgetFactory` (`registry`, `instance`) with the
      global WebKit settings that `setup_session` changes. */
  class TraitsUIWidgetFactory {
    var registry: map<string, WidgetFactory>
    var instance: Option<WebView>
    var pluginsEnabled: bool
    var developerExtrasEnabled: bool

    /** The class as defined: empty registry, no instance, plugins not yet enabled. */
    constructor ()
      ensures registry == map[] && Session() == SessionState(None, false, false)
    {
      registry := map[];
      instance := None;
      pluginsEnabled := false;
      developerExtrasEnabled := false;
    }

    function Session(): SessionState
      reads this
    {
      SessionState(instance, pluginsEnabled, developerExtrasEnabled)
    }

    /** `TraitsUIWidgetFactory.setup_session(webview)`. */
    method SetupSession(webview: WebView)
      modifies this
      ensures Session() == AfterSetup(old(Session()), webview)
      ensures registry == old(registry)
    {
      if instance.None? {
        pluginsEnabled := true;
        developerExtrasEnabled := true;
        instance := Some(webview);
      }
    }

    /** `TraitsUIWidgetFactory.register_widget_factory(model_name, trait_name, f)`:
        the key's entry becomes `f`, every other entry is kept. */
    method RegisterWidgetFactory(modelName: string, traitName: string, f: WidgetFactory)
      modifies this
      ensures registry == old(registry)[Key(modelName, traitName) := f]
      ensures Session() == old(Session())
    {
      var key := Key(modelName, traitName);
      registry := registry[key := f];
    }

    /** `TraitsUIWidgetFactory.create(mimeType, url, argNames, argValues)`. */
    method Create(mimeType: string, url: string, argNames: seq<string>, argValues: seq<string>)
      returns (w: Option<Widget>)
      ensures w == CreateResult(registry, mimeType, argNames, argValues)
      ensures mimeType != MimeType ==> w == None
    {
      if mimeType != MimeType {
        return None;
      }
      var args: map<string, string> := map[];
      var n := Min(|argNames|, |argValues|);
      for i := 0 to n
        invariant args == ArgsPrefix(argNames, argValues, i)
      {
        args := args[argNames[i] := argValues[i]];
      }
      var modelName := GetOr(args, "model_name", "");
      var traitName := GetOr(args, "trait_name", "");
      var key := Key(modelName, traitName);
      if key in registry {
        var widgetFactory := registry[key];
        w := Some(widgetFactory(modelName, args));
      } else {
        w := None;
      }
    }
  }

  /** `TraitsUIEditor.setup_session`: set the session up for the editor's web view, then
      register the editor's `create_widget` under its model and trait names. The model
      name is the one the object registry gives the edited object. */
  method SetupEditorSession(factory: TraitsUIWidgetFactory, webview: WebView, modelName: string,
                            traitName: string, createWidget: WidgetFactory)
    modifies factory
    ensures factory.Session() == AfterSetup(old(factory.Session()), webview)
    ensures factory.registry == old(factory.registry)[Key(modelName, traitName) := createWidget]
  {
    factory.SetupSession(webview);
    factory.RegisterWidgetFactory(modelName, traitName, createWidget);
  }
}
