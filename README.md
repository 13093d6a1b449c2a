# jigna widget mount and default document, in Dafny

This project models two small, deterministic parts of jigna, the library that
mirrors Traits objects into an HTML/AngularJS user interface:

- **The TraitsUI widget mount** (`jigna/editors/traitsui_editor.py`). A WebKit
  plugin factory keeps a class-wide registry from the key
  `"<model name>.<trait name>"` to a widget factory. Its `create` answers a
  `<object type="application/x-traitsuiwidget">` tag. It ignores other MIME
  types. It folds the tag's parallel name/value lists into a dictionary, reads
  `model_name` and `trait_name` (each `''` when missing), and calls the
  registered factory or answers `None`. `setup_session` installs the factory
  only once. The editor parses its `width`/`height` arguments with the sentinel
  `-10000`. The embedded widget picks its minimum size from the view or from
  its parameters.
- **The default document of a `View`** (`jigna/view.py`). When no explicit
  `html` is given, the document is `DOCUMENT_HTML_TEMPLATE.format(...)` with
  the view's `head_html` and `body_html`.

The code is Python 2. It uses implicit relative imports, and `from_file` stores
the file's bytes in a `Str` trait. Texts are modelled as Python 2 byte strings,
that is, plain sequences of characters. Python 2 `unicode` values are not
modelled.

Modules:

- `Wrappers` (`wrappers.dfy`): `Option` and `Result`.
- `Chars` (`chars.dfy`): the ASCII digit class shared by the next two modules.
- `PyInt` (`py_int.dfy`): the subset of Python's `int(text)` that the editor
  uses, with its inverse `str(n)`.
- `StrFormat` (`str_format.dfy`): Python's `str.format(**fields)` over the raw
  template text. It scans once, left to right. `{{` and `}}` are escapes.
  `{name}` is a keyword field. Malformed templates raise errors. Inserted values
  are never rescanned.
- `JignaView` (`view.dfy`): the template, `_html_default`, the `html` trait and
  `from_file`.
- `TraitsUIEditor` (`traitsui_editor.dfy`): the widget size rule, `_get_int`,
  `get_size`, the registry key, the argument dictionary, `create`, and the
  session setup. The class-level attributes of `TraitsUIWidgetFactory`
  (`registry`, `instance`) and the two global WebKit settings that
  `setup_session` turns on are fields of the Dafny class
  `TraitsUIWidgetFactory`. One object of that class stands for the Python
  class object.

The docstring of `get_size` says it answers `None` for defaults. The code
answers `-10000`. The model follows the code; `SentinelIsAmbiguous` states the
consequence.

## Model

| member | source | states |
|---|---|---|
| `TraitsUIEditor.NewTraitsUIWidget` | jigna/editors/traitsui_editor.py:17-55 | The supplied view is shown as given. Without one, a view is generated for the trait, with the given editor and the width/height parameters, and the minimum size is exactly those parameters. With a supplied view, each positive size the view states is the minimum size; otherwise the width/height parameter is. Positive parameters always give a positive minimum size. |
| `TraitsUIEditor.SuppliedSizeWins` | jigna/editors/traitsui_editor.py:40-44 | A supplied view with positive width and height overrides both parameters. |
| `TraitsUIEditor.DefaultWidgetSize` | jigna/editors/traitsui_editor.py:17-18 | With no view and default arguments, the minimum size is 300 by 300. The generated view asks for the same size. |
| `TraitsUIEditor.GetIntShown` | jigna/editors/traitsui_editor.py:174-181 | An argument holding any integer's decimal text is read back as that integer. |
| `TraitsUIEditor.SentinelIsAmbiguous` | jigna/editors/traitsui_editor.py:174-186 | A missing argument, an unparseable one and an explicit `-10000` all give `-10000`. No `None` is answered. |
| `TraitsUIEditor.EditorTagSize` | jigna/editors/traitsui_editor.py:156-158 | The editor's own tag arguments `width="100%"` and `height="60%"` make `get_size` answer `(-10000, -10000)`. |
| `TraitsUIEditor.GetInt` | jigna/editors/traitsui_editor.py:174-181 | Any answer other than `-10000` is the integer that `int()` reads from the named argument. A missing or unparseable argument gives `-10000`. |
| `TraitsUIEditor.GetSize` | jigna/editors/traitsui_editor.py:183-186 | Each component is `-10000` exactly when its argument (`width` first, `height` second) is missing, not an integer, or the integer `-10000`. Otherwise it is the integer the argument spells. |
| `TraitsUIEditor.GetSizeShown` | jigna/editors/traitsui_editor.py:183-186 | For any integers `a`, `b` and any other arguments, `width=str(a)`, `height=str(b)` give the size `(a, b)`. |
| `TraitsUIEditor.Key` | jigna/editors/traitsui_editor.py:107 | The key is the model name, one `.`, then the trait name, at those positions. |
| `TraitsUIEditor.KeyNotInjective` | jigna/editors/traitsui_editor.py:145 | `("a.b", "c")` and `("a", "b.c")` are different pairs with the same key. |
| `TraitsUIEditor.KeyInjectiveForDotlessModels` | jigna/editors/traitsui_editor.py:145 | If neither model name contains `.`, equal keys imply equal model and trait names. |
| `TraitsUIEditor.ZipDropsSurplus` | jigna/editors/traitsui_editor.py:101-103 | Names or values beyond the shorter list do not change the dictionary. |
| `TraitsUIEditor.ArgsPrefixKeys` | jigna/editors/traitsui_editor.py:101-103 | After `n` pairs are stored, the dictionary's names are exactly the first `n` names. |
| `TraitsUIEditor.ArgsPrefixLastWins` | jigna/editors/traitsui_editor.py:101-103 | A repeated name holds the value of its last stored pair. |
| `TraitsUIEditor.ArgsOf` | jigna/editors/traitsui_editor.py:101-103 | The dictionary's names are exactly the names of the zipped pairs. |
| `TraitsUIEditor.ArgsOfContents` | jigna/editors/traitsui_editor.py:101-103 | The dictionary built from the zipped lists has exactly the zipped names, each with the value of its last pair. |
| `TraitsUIEditor.CreateResult` | jigna/editors/traitsui_editor.py:94-113 | A widget is answered exactly when the MIME type is the served one and the key composed from the arguments' model and trait names (each `''` when missing) is registered. |
| `TraitsUIEditor.ForeignMimeType` | jigna/editors/traitsui_editor.py:94-96 | Any MIME type other than `application/x-traitsuiwidget` gets `None`, whatever the registry and arguments. |
| `TraitsUIEditor.CreateLooksUpKey` | jigna/editors/traitsui_editor.py:105-113 | With the right MIME type, names default to `''`. A factory registered under their key is called with the model name and the dictionary, and its widget is answered. If none is registered, the answer is `None`. |
| `TraitsUIEditor.CreateAfterRegister` | jigna/editors/traitsui_editor.py:101-113 | After registering `f` for `(m, t)`, a tag gets `f(m, args)` when its last zipped `model_name` pair says `m` and its last zipped `trait_name` pair says `t`. Other arguments may come in any order, before or after them. |
| `TraitsUIEditor.EditorTagReachesFactory` | jigna/editors/traitsui_editor.py:156-158 | This covers a model name `m` that the unescaped, unquoted `model_name=${model_name}` carries unchanged: non-empty, with no whitespace, quote, `=`, `<`, `>`, backtick or `&`. It also needs a trait name `t` with no `"` or `&`. For such names, the editor's own tag (`type`, `model_name=m`, `trait_name="t"`, `width="100%"`, `height="60%"`) reaches the factory registered for `(m, t)`. Its size arguments read as `(-10000, -10000)`. |
| `TraitsUIEditor.MissingNamesDefaultEmpty` | jigna/editors/traitsui_editor.py:105-107 | A tag with no arguments reaches the factory registered for `('', '')`, under key `"."`, with model name `''`. |
| `TraitsUIEditor.CollidingRegistrationShadows` | jigna/editors/traitsui_editor.py:107-110 | Registering for `("a", "b.c")` after `("a.b", "c")` makes the tag naming `"a.b"`/`"c"` call the later factory. |
| `TraitsUIEditor.AfterSetup` | jigna/editors/traitsui_editor.py:116-128 | A call with no instance yet installs a factory for the web view and turns on both settings. A call once an instance exists changes nothing. |
| `TraitsUIEditor.SetupsAfterInstallChangeNothing` | jigna/editors/traitsui_editor.py:117 | Once an instance is set, any series of further setup calls leaves the session state unchanged. |
| `TraitsUIEditor.FirstSetupWins` | jigna/editors/traitsui_editor.py:116-128 | From a fresh class, any non-empty series of setup calls leaves the first web view's factory installed, with both settings on. |
| `TraitsUIEditor.TraitsUIWidgetFactory.constructor` | jigna/editors/traitsui_editor.py:68-70 | The class starts with an empty registry and no instance. |
| `TraitsUIEditor.TraitsUIWidgetFactory.SetupSession` | jigna/editors/traitsui_editor.py:115-128 | The new session state is `AfterSetup` of the old state. The registry is unchanged. |
| `TraitsUIEditor.TraitsUIWidgetFactory.RegisterWidgetFactory` | jigna/editors/traitsui_editor.py:130-146 | The key's entry becomes the new factory, replacing any earlier one. Every other entry and the session are unchanged. |
| `TraitsUIEditor.TraitsUIWidgetFactory.Create` | jigna/editors/traitsui_editor.py:94-113 | The loop over the zipped lists builds `ArgsOf`. The answer is `CreateResult` of the current registry, which is `None` for a foreign MIME type. |
| `TraitsUIEditor.SetupEditorSession` | jigna/editors/traitsui_editor.py:167-172 | The session is set up for the editor's web view. Then `create_widget` is registered under the editor's model and trait names. |
| `PyInt.ParseInt` | jigna/editors/traitsui_editor.py:177 | `int(text)` succeeds exactly on this shape: optional whitespace, an optional sign, optional whitespace, one or more ASCII digits, optional whitespace. It gives the signed value. |
| `PyInt.SpaceAfterSign` | jigna/editors/traitsui_editor.py:177 | Whitespace between the sign and the digits is accepted: `int("- 5") == -5` and `int("+\t7") == 7`. A sign with no digits, as in `"- "`, is rejected. |
| `PyInt.StripTrims` | jigna/editors/traitsui_editor.py:177 | The whitespace stripping `int()` does removes only whitespace, and only from the two ends. The result is a contiguous piece of the text. |
| `PyInt.ParseShowInt` | jigna/editors/traitsui_editor.py:177 | `int(str(n)) == n` for every integer `n`. |
| `PyInt.ParseIgnoresSpace` | jigna/editors/traitsui_editor.py:177 | Leading or trailing whitespace does not change the parse. |
| `StrFormat.Format` | jigna/view.py:71-74 | A template without braces formats to itself. |
| `StrFormat.LiteralCopied` | jigna/view.py:71-74 | `format` copies brace-free template text unchanged, ahead of the formatted rest. |
| `StrFormat.FieldReplaced` | jigna/view.py:71-74 | `{name}` becomes the keyword argument's value, and scanning continues after the field. |
| `StrFormat.TwoFieldTemplate` | jigna/view.py:71-74 | A template of brace-free text around two fields formats to that text with the two values in place, whatever the values contain. |
| `StrFormat.PlaceholderAlone` | jigna/view.py:71-74 | A template that is a single field formats to that field's value. |
| `JignaView.TemplateSubstitution` | jigna/view.py:24-39 | Formatting `DOCUMENT_HTML_TEMPLATE` with any head and body text succeeds. It gives the fixed text with the head text and the body text each inserted once, in their places. |
| `JignaView.HtmlDefault` | jigna/view.py:68-76 | `_html_default` is the skeleton text before the head field, the head text, the text between the fields, the body text, and the closing text. |
| `JignaView.Html` | jigna/view.py:67-68 | The `html` trait is the explicit document when one was given, else the default document. |
| `JignaView.FromFile` | jigna/view.py:48-52 | A view built by `from_file` keeps the file's contents as its document. |
| `JignaView.ExplicitHtmlKept` | jigna/view.py:52 | The head and body texts do not affect a view whose `html` was given. |
| `JignaView.EmptyDefaults` | jigna/view.py:61-64 | With empty `head_html` and `body_html`, the document is the skeleton with both fields removed. |
| `JignaView.DocumentOrder` | jigna/view.py:25-37 | In the default document, `<head>` comes first. The jquery, angular and jigna script tags follow in that order. Then come the head text, `</head>`, `<body>`, the body text and `</body>`, each at a stated, non-overlapping position. |
| `JignaView.BracesNotReinterpreted` | jigna/view.py:71-74 | A head text that is itself `{body_html}` stays verbatim at the head position, although formatting it alone would replace it. |

## Left out

- Qt and WebKit plumbing. This covers the layout, `edit_traits` subpanel creation and `setMinimumWidth/Height` calls (jigna/editors/traitsui_editor.py:36-38, 54-58). The widget records the chosen minimum size and view instead.
- The `plugins()` metadata (jigna/editors/traitsui_editor.py:83-92): a constant description for Qt, with no logic.
- The `QWebSettings` calls and `setPluginFactory` (jigna/editors/traitsui_editor.py:119-128). They become two boolean fields and the `instance` field, which records the web view the factory was made for.
- `TraitsUIEditor.html` (jigna/editors/traitsui_editor.py:153-165). It is mako template rendering plus a lookup in the object registry, and `jigna/registry.py` is not part of this model. For the same reason, `SetupEditorSession` takes the model name as a parameter.
- Factories and widgets are opaque values. A factory is a pure function of the model name and the argument dictionary, so side effects of creating a Qt widget are not modelled.
- A factory registered as `None` would be treated by `create` as missing. The model's registry holds only factories.
- `PyInt.ParseInt`: only Python 2's `int` on byte strings in base 10 is modelled. It takes ASCII whitespace (space, tab, LF, VT, FF, CR) and ASCII digits. `int` of a `unicode` value also accepts Unicode digits and whitespace, and that case is not modelled. A trailing `L` is rejected, even for values beyond the machine word, and the model rejects it too. Only `long()` accepts it.
- `TraitsUIEditor.EditorTagReachesFactory`: the step from the tag text to WebKit's name and value lists is not modelled. Mako does not escape the substituted names, and HTML attribute parsing is left out. The lemma takes the lists to be the tag's attributes in order, for names that need no escaping. A model name with whitespace, a quote or `>` would split or end the unquoted attribute, and would reach `create` as a different name.
- `NewTraitsUIWidget`: view sizes are integers. traitsui also allows a fractional width or height meaning a share of the screen, and that case is not modelled.
- `StrFormat.Format`: fields with attribute or index access, a conversion, a format spec, or nested braces give `UnsupportedField` instead of Python's exact behaviour. The document template uses none of them.
- `JignaView.TemplateSubstitution`: texts are modelled as byte strings. In Python 2, `str.format` on the byte-string template raises `UnicodeEncodeError` when `head_html` or `body_html` is a `unicode` value holding a non-ASCII character. That failure is not modelled; the lemma answers a document for every text.
- `JignaView.HtmlDefault`: for the same reason, the `UnicodeEncodeError` that `_html_default` raises for non-ASCII `unicode` head or body text is not modelled. The function always yields a document.
- `JignaView.Html`: Traits computes the default document on first access and caches it. Later changes to `head_html` or `body_html` do not update an already-read `html`, and the model does not capture that caching.
- `View.from_file` reads the file in binary mode; the file's contents are a parameter here. `View.show` and `View.serve` (jigna/view.py:78-120) start servers and show widgets, and are left out. `base_url` is carried but not used by the document.
- jigna/tests/test_jigna_web_async.py drives the browser against the asynchronous bridge. The bridge server, object registry, marshaller and JavaScript proxy client are not part of this model.
