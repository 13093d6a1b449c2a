/**
  The default HTML document of a jigna `View`: a fixed skeleton that loads the
  jquery, angular and jigna scripts, with the view's `head_html` placed in the
  document head after the scripts and its `body_html` placed in the body.
*/
module JignaView {
  import opened Wrappers
  import opened StrFormat

  const JQuerySrc := "/jigna/js/jquery.min.js"
  const AngularSrc := "/jigna/js/angular.min.js"
  const JignaSrc := "/jigna/js/jigna.js"

  /** One script line of the skeleton's head. */
  function ScriptTag(src: string): string
  {
    "    <script type=\"text/javascript\" src=\"" + src + "\"></script>\n"
  }

  /** The skeleton's first lines, up to the indentation of `<head>`. */
  const HtmlOpen := "\n<html ng-app='jigna'>\n  "
  /** The skeleton up to and including `<head>` and its line break. */
  const HeadOpen := HtmlOpen + "<head>" + "\n"
  /** The three script lines, in loading order. */
  const Scripts := ScriptTag(JQuerySrc) + ScriptTag(AngularSrc) + ScriptTag(JignaSrc)
  /** Skeleton text before the `{head_html}` field. */
  const Pre := HeadOpen + Scripts + "\n    "
  /** Skeleton text between the `{head_html}` and `{body_html}` fields. */
  const Mid := "\n\n  " + "</head>" + "\n\n  " + "<body>" + "\n    "
  /** Skeleton text after the `{body_html}` field. */
  const Post := "\n  " + "</body>" + "\n</html>\n"

  /** `DOCUMENT_HTML_TEMPLATE`, as the raw text handed to `str.format`. */
  const DocumentTemplate := Pre + Placeholder("head_html") + Mid + Placeholder("body_html") + Post

  /** The skeleton with both fields left empty. */
  const Skeleton := Pre + Mid + Post

  /** The keyword arguments `_html_default` passes to `format`. */
  function Fields(headHtml: string, bodyHtml: string): map<string, string>
  {
    map["body_html" := bodyHtml, "head_html" := headHtml]
  }

  lemma ScriptTagBraceFree(src: string)
    requires BraceFree(src)
    ensures BraceFree(ScriptTag(src))
  {
    var open, close := "    <script type=\"text/javascript\" src=\"", "\"></script>\n";
    assert BraceFree(open) && BraceFree(close);
    BraceFreeConcat(open, src);
    BraceFreeConcat(open + src, close);
  }

  lemma FixedTextBraceFree()
    ensures BraceFree(HeadOpen) && BraceFree(Mid) && BraceFree(Post)
  {
    assert BraceFree(HtmlOpen) && BraceFree("<head>") && BraceFree("\n");
    BraceFreeConcat(HtmlOpen, "<head>");
    BraceFreeConcat(HtmlOpen + "<head>", "\n");
    assert BraceFree("\n\n  ") && BraceFree("</head>") && BraceFree("<body>") && BraceFree("\n    ");
    BraceFreeConcat("\n\n  ", "</head>");
    BraceFreeConcat("\n\n  " + "</head>", "\n\n  ");
    BraceFreeConcat("\n\n  " + "</head>" + "\n\n  ", "<body>");
    BraceFreeConcat("\n\n  " + "</head>" + "\n\n  " + "<body>", "\n    ");
    assert BraceFree("\n  ") && BraceFree("</body>") && BraceFree("\n</html>\n");
    BraceFreeConcat("\n  ", "</body>");
    BraceFreeConcat("\n  " + "</body>", "\n</html>\n");
  }

  lemma ScriptsBraceFree()
    ensures BraceFree(Scripts)
  {
    assert BraceFree(JQuerySrc) && BraceFree(AngularSrc) && BraceFree(JignaSrc);
    ScriptTagBraceFree(JQuerySrc);
    ScriptTagBraceFree(AngularSrc);
    ScriptTagBraceFree(JignaSrc);
    BraceFreeConcat(ScriptTag(JQuerySrc), ScriptTag(AngularSrc));
    BraceFreeConcat(ScriptTag(JQuerySrc) + ScriptTag(AngularSrc), ScriptTag(JignaSrc));
  }

  lemma SkeletonPiecesBraceFree()
    ensures BraceFree(Pre) && BraceFree(Mid) && BraceFree(Post)
  {
    FixedTextBraceFree();
    ScriptsBraceFree();
    BraceFreeConcat(HeadOpen, Scripts);
    BraceFreeConcat(HeadOpen + Scripts, "\n    ");
  }

  /** For byte-string texts, `DOCUMENT_HTML_TEMPLATE.format(body_html=..., head_html=...)`
      never fails and puts each inserted text, unchanged, in its one place in the skeleton. */
  lemma TemplateSubstitution(headHtml: string, bodyHtml: string)
    ensures Format(DocumentTemplate, Fields(headHtml, bodyHtml)) == Ok(Pre + headHtml + Mid + bodyHtml + Post)
  {
    SkeletonPiecesBraceFree();
    assert PlainName("body_html") && PlainName("head_html");
    TwoFieldTemplate(Pre, "head_html", Mid, "body_html", Post, Fields(headHtml, bodyHtml));
  }

  /** A jigna `View`: `html` is `Some` when the document was given explicitly. */
  datatype View = View(baseUrl: string, bodyHtml: string, headHtml: string, html: Option<string>)

  /** A view built from keyword arguments; unset string traits are empty and `html`
      is left to its default. */
  function NewView(baseUrl: string, bodyHtml: string, headHtml: string): (v: View)
    ensures v.html.None?
  {
    View(baseUrl, bodyHtml, headHtml, None)
  }

  /** `View._html_default`: the template formatted with the view's head and body. */
  function HtmlDefault(v: View): (html: string)
    ensures html == Pre + v.headHtml + Mid + v.bodyHtml + Post
  {
    TemplateSubstitution(v.headHtml, v.bodyHtml);
    Format(DocumentTemplate, Fields(v.headHtml, v.bodyHtml)).value
  }

  /** The value of the `html` trait: the explicit document, or else the default one. */
  function Html(v: View): (html: string)
    ensures v.html.Some? ==> html == v.html.value
    ensures v.html.None? ==> html == Pre + v.headHtml + Mid + v.bodyHtml + Post
  {
    match v.html
    case Some(doc) => doc
    case None => HtmlDefault(v)
  }

  /** `View.from_file`, given the file's contents: a view built with `html=contents`,
      whose document is exactly those contents. */
  function FromFile(contents: string): (v: View)
    ensures v.html == Some(contents) && Html(v) == contents
  {
    View("", "", "", Some(contents))
  }

  /** An explicit document is kept as it is: changing the head or body text of a view
      built with `html` does not change its document. */
  lemma ExplicitHtmlKept(v: View, headHtml: string, bodyHtml: string)
    requires v.html.Some?
    ensures Html(v.(headHtml := headHtml, bodyHtml := bodyHtml)) == Html(v) == v.html.value
  {
  }

  /** With `head_html` and `body_html` at their empty defaults the document is the
      skeleton with both fields removed. */
  lemma EmptyDefaults(baseUrl: string)
    ensures Html(NewView(baseUrl, "", "")) == Skeleton
  {
    assert Pre + "" + Mid + "" + Post == Pre + Mid + Post;
  }

  /** `sub` stands in `s` starting at position `i`. */
  predicate OccursAt(s: string, sub: string, i: nat)
  {
    i + |sub| <= |s| && s[i..i + |sub|] == sub
  }

  lemma OccursInMiddle(x: string, y: string, z: string)
    ensures OccursAt(x + y + z, y, |x|)
  {
    assert (x + y + z)[|x|..|x| + |y|] == y;
  }

  /** The default document's layout: `<head>`, then the jquery, angular and jigna
      scripts in that order, then the head text, `</head>`, `<body>`, the body text
      and `</body>`, each at the position given and none overlapping the next. */
  lemma DocumentOrder(v: View)
    requires v.html.None?
    ensures InOrder(Html(v), v.headHtml, v.bodyHtml)
  {
    var d, h, b := Html(v), v.headHtml, v.bodyHtml;
    LayoutInOrder(d, h, b);
  }

  /** The positions of the skeleton's landmarks and of the inserted texts in `d`. */
  predicate InOrder(d: string, h: string, b: string)
  {
    HeadInOrder(d, h) && BodyInOrder(d, h, b)
  }

  /** `<head>`, the three scripts in loading order, then the head text. */
  predicate HeadInOrder(d: string, h: string)
  {
    var s1, s2 := ScriptTag(JQuerySrc), ScriptTag(AngularSrc);
    && OccursAt(d, "<head>", |HtmlOpen|)
    && |HtmlOpen| + 6 < |HeadOpen|
    && OccursAt(d, s1, |HeadOpen|)
    && OccursAt(d, s2, |HeadOpen| + |s1|)
    && OccursAt(d, ScriptTag(JignaSrc), |HeadOpen| + |s1| + |s2|)
    && |HeadOpen| + |Scripts| < |Pre|
    && OccursAt(d, h, |Pre|)
  }

  /** After the head text: `</head>`, `<body>`, the body text, `</body>`. */
  predicate BodyInOrder(d: string, h: string, b: string)
  {
    && OccursAt(d, "</head>", |Pre| + |h| + |"\n\n  "|)
    && OccursAt(d, "<body>", |Pre| + |h| + |"\n\n  " + "</head>" + "\n\n  "|)
    && OccursAt(d, b, |Pre| + |h| + |Mid|)
    && |Mid| == |"\n\n  " + "</head>" + "\n\n  " + "<body>" + "\n    "|
    && OccursAt(d, "</body>", |Pre| + |h| + |Mid| + |b| + |"\n  "|)
  }

  lemma LayoutInOrder(d: string, h: string, b: string)
    requires d == Pre + h + Mid + b + Post
    ensures InOrder(d, h, b)
  {
    LayoutHeadInOrder(d, h, b);
    LayoutBodyInOrder(d, h, b);
  }

  lemma LayoutHeadInOrder(d: string, h: string, b: string)
    requires d == Pre + h + Mid + b + Post
    ensures HeadInOrder(d, h)
  {
    var s1, s2, s3 := ScriptTag(JQuerySrc), ScriptTag(AngularSrc), ScriptTag(JignaSrc);
    SkeletonLengths();
    assert d == Pre + h + (Mid + b + Post);
    assert Pre == HtmlOpen + "<head>" + "\n" + s1 + s2 + s3 + "\n    ";
    HeadLayout(d, Pre, HtmlOpen, "<head>", "\n", s1, s2, s3, "\n    ", h, Mid + b + Post,
               |HeadOpen|, |HeadOpen| + |s1|, |HeadOpen| + |s1| + |s2|);
  }

  lemma LayoutBodyInOrder(d: string, h: string, b: string)
    requires d == Pre + h + Mid + b + Post
    ensures BodyInOrder(d, h, b)
  {
    SkeletonLengths();
    assert d == (Pre + h) + Mid + b + Post;
    MidParts();
    PostParts();
    BodyLayout(d, Pre + h, Mid, "\n\n  ", "</head>", "\n\n  ", "<body>", "\n    ", b,
               Post, "\n  ", "</body>", "\n</html>\n",
               |Pre| + |h| + |"\n\n  "|, |Pre| + |h| + |"\n\n  " + "</head>" + "\n\n  "|,
               |Pre| + |h| + |Mid|, |Pre| + |h| + |Mid| + |b| + |"\n  "|);
  }

  lemma MidParts()
    ensures Mid == "\n\n  " + "</head>" + "\n\n  " + "<body>" + "\n    "
  {
  }

  lemma PostParts()
    ensures Post == "\n  " + "</body>" + "\n</html>\n"
  {
  }

  lemma SkeletonLengths()
    ensures |HeadOpen| == |HtmlOpen| + |"<head>" + "\n"| && |Pre| == |HeadOpen| + |Scripts| + |"\n    "|
    ensures |Mid| == |"\n\n  " + "</head>" + "\n\n  " + "<body>" + "\n    "|
    ensures |Scripts| == |ScriptTag(JQuerySrc)| + |ScriptTag(AngularSrc)| + |ScriptTag(JignaSrc)|
  {
  }

  lemma HeadLayout(d: string, pre: string, a: string, t: string, nl: string, s1: string, s2: string,
                   s3: string, e: string, h: string, rest: string, at1: nat, at2: nat, at3: nat)
    requires d == pre + h + rest && pre == a + t + nl + s1 + s2 + s3 + e
    requires at1 == |a| + |t| + |nl| && at2 == at1 + |s1| && at3 == at2 + |s2|
    ensures OccursAt(d, t, |a|)
    ensures OccursAt(d, s1, at1)
    ensures OccursAt(d, s2, at2)
    ensures OccursAt(d, s3, at3)
    ensures OccursAt(d, h, |pre|)
  {
    OccursInMiddle(a, t, nl + s1 + s2 + s3 + e + h + rest);
    OccursInMiddle(a + t + nl, s1, s2 + s3 + e + h + rest);
    OccursInMiddle(a + t + nl + s1, s2, s3 + e + h + rest);
    OccursInMiddle(a + t + nl + s1 + s2, s3, e + h + rest);
    OccursInMiddle(pre, h, rest);
  }

  lemma BodyLayout(d: string, x: string, mid: string, m1: string, ch: string, m2: string, ob: string,
                   m3: string, b: string, post: string, p1: string, cb: string, p2: string,
                   chAt: nat, obAt: nat, bAt: nat, cbAt: nat)
    requires d == x + mid + b + post
    requires mid == m1 + ch + m2 + ob + m3 && post == p1 + cb + p2
    requires chAt == |x| + |m1| && obAt == chAt + |ch| + |m2| && bAt == |x| + |mid| && cbAt == bAt + |b| + |p1|
    ensures OccursAt(d, ch, chAt)
    ensures OccursAt(d, ob, obAt)
    ensures OccursAt(d, b, bAt)
    ensures OccursAt(d, cb, cbAt)
  {
    OccursInMiddle(x + m1, ch, m2 + ob + m3 + b + p1 + cb + p2);
    OccursInMiddle(x + m1 + ch + m2, ob, m3 + b + p1 + cb + p2);
    assert |x + m1 + ch + m2| == obAt;
    OccursInMiddle(x + mid, b, post);
    OccursInMiddle(x + mid + b + p1, cb, p2);
  }

  /** Inserted text is copied verbatim: a head text that is itself the body placeholder
      stays in the document as written, although formatting that text on its own would
      have replaced it. */
  lemma BracesNotReinterpreted(bodyHtml: string)
    ensures var h := Placeholder("body_html");
      && Format(h, Fields(h, bodyHtml)) == Ok(bodyHtml)
      && OccursAt(Html(NewView("", bodyHtml, h)), h, |Pre|)
  {
    var h := Placeholder("body_html");
    PlaceholderAlone("body_html", Fields(h, bodyHtml));
    DocumentOrder(NewView("", bodyHtml, h));
  }
}
