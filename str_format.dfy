/**
  Python's `str.format(**fields)` for the template shapes a document skeleton uses.
  The template is scanned once, left to right: `{{` and `}}` stand for single
  braces, `{name}` is replaced by the keyword argument `name`, and every other
  character is copied. The first problem met while scanning is the error raised.
  Replacement text is copied as it is and never scanned again.
*/
module StrFormat {
  import opened Wrappers
  import opened Chars

  /** The exceptions `str.format` raises for the shapes modelled here. */
  datatype FormatError =
    | SingleClose                   // ValueError: "Single '}' encountered in format string"
    | SingleOpen                    // ValueError: "Single '{' encountered in format string"
    | UnclosedField                 // ValueError: "expected '}' before end of string"
    | PositionalField               // IndexError: `{}` or `{0}` with keyword arguments only
    | MissingKey(name: string)      // KeyError(name)
    | UnsupportedField(field: string) // nested fields, attribute/index access, conversion, format spec

  predicate IsBrace(c: char) { c == '{' || c == '}' }

  /** Text that `str.format` copies unchanged: it holds no brace. */
  predicate BraceFree(s: string) { '{' !in s && '}' !in s }

  lemma BraceFreeConcat(a: string, b: string)
    requires BraceFree(a) && BraceFree(b)
    ensures BraceFree(a + b)
  {
    assert forall c :: c in a + b ==> c in a || c in b;
  }

  /** A field name looked up among the keyword arguments: no brace and none of `!:.[`. */
  predicate PlainName(name: string)
  {
    BraceFree(name) && '!' !in name && ':' !in name && '.' !in name && '[' !in name
  }

  /** Position of the first `}` in `t` at or after `from`, or `|t|` when there is none. */
  function CloseAt(t: string, from: nat): (k: nat)
    requires from <= |t|
    ensures from <= k <= |t|
    ensures k < |t| ==> t[k] == '}'
    ensures forall i | from <= i < k :: t[i] != '}'
    decreases |t| - from
  {
    if from == |t| || t[from] == '}' then from else CloseAt(t, from + 1)
  }

  /** The replacement text for the field written `{field}`. */
  function Lookup(field: string, fields: map<string, string>): (r: Result<string, FormatError>)
    ensures PlainName(field) && field in fields && |field| > 0 && !IsDigit(field[0]) ==> r == Ok(fields[field])
    ensures r.Ok? ==> field in fields && r.value == fields[field]
  {
    if field == [] || forall i | 0 <= i < |field| :: IsDigit(field[i]) then Err(PositionalField)
    else if !PlainName(field) then Err(UnsupportedField(field))
    else if field in fields then Ok(fields[field])
    else Err(MissingKey(field))
  }

  /** `s` followed by the formatted rest, or the rest's error. */
  function Prepend(s: string, r: Result<string, FormatError>): Result<string, FormatError>
  {
    match r
    case Ok(x) => Ok(s + x)
    case Err(e) => Err(e)
  }

  /** `t.format(**fields)`. A template without braces is its own result. */
  function Format(t: string, fields: map<string, string>): (r: Result<string, FormatError>)
    ensures BraceFree(t) ==> r == Ok(t)
    decreases |t|
  {
    if t == [] then Ok("")
    else if |t| >= 2 && t[0] == '{' && t[1] == '{' then Prepend("{", Format(t[2..], fields))
    else if |t| >= 2 && t[0] == '}' && t[1] == '}' then Prepend("}", Format(t[2..], fields))
    else if t[0] == '}' then Err(SingleClose)
    else if t[0] == '{' then
      if |t| == 1 then Err(SingleOpen)
      else
        var k := CloseAt(t, 1);
        if k == |t| then Err(UnclosedField)
        else
          match Lookup(t[1..k], fields)
          case Err(e) => Err(e)
          case Ok(v) => Prepend(v, Format(t[k + 1..], fields))
    else
      assert t == [t[0]] + t[1..];
      Prepend([t[0]], Format(t[1..], fields))
  }

  lemma PrependPrepend(a: string, b: string, r: Result<string, FormatError>)
    ensures Prepend(a, Prepend(b, r)) == Prepend(a + b, r)
  {
    if r.Ok? {
      assert a + (b + r.value) == (a + b) + r.value;
    }
  }

  /** Brace-free text is copied to the output as it is, ahead of the formatted rest. */
  lemma {:induction false} LiteralCopied(s: string, rest: string, fields: map<string, string>)
    requires BraceFree(s)
    ensures Format(s + rest, fields) == Prepend(s, Format(rest, fields))
    decreases |s|
  {
    if s == [] {
      assert s + rest == rest;
      match Format(rest, fields)
      case Ok(x) => assert s + x == x;
      case Err(_) =>
    } else {
      var t := s + rest;
      assert t[0] == s[0] && !IsBrace(t[0]);
      assert t[1..] == s[1..] + rest;
      LiteralCopied(s[1..], rest, fields);
      PrependPrepend([s[0]], s[1..], Format(rest, fields));
      assert [s[0]] + s[1..] == s;
    }
  }

  /** `{name}` is replaced by the value of the keyword argument `name`, and scanning goes on after it. */
  lemma FieldReplaced(name: string, rest: string, fields: map<string, string>)
    requires PlainName(name) && name in fields
    requires |name| > 0 && !IsDigit(name[0])
    ensures Format(Placeholder(name) + rest, fields) == Prepend(fields[name], Format(rest, fields))
  {
    var t := Placeholder(name) + rest;
    var k := |name| + 1;
    assert t[k] == '}';
    assert forall i | 1 <= i < k :: t[i] == name[i - 1];
    assert CloseAt(t, 1) == k;
    assert t[1..k] == name;
    assert t[k + 1..] == rest;
    assert Lookup(name, fields) == Ok(fields[name]);
  }

  /** The replacement field written for a keyword argument. */
  function Placeholder(name: string): string
  {
    "{" + name + "}"
  }

  /** A template made of brace-free text around two fields formats to that text with
      the two values in the fields' places. */
  lemma TwoFieldTemplate(pre: string, n1: string, mid: string, n2: string, post: string,
                         fields: map<string, string>)
    requires BraceFree(pre) && BraceFree(mid) && BraceFree(post)
    requires PlainName(n1) && n1 in fields && |n1| > 0 && !IsDigit(n1[0])
    requires PlainName(n2) && n2 in fields && |n2| > 0 && !IsDigit(n2[0])
    ensures Format(pre + Placeholder(n1) + mid + Placeholder(n2) + post, fields)
            == Ok(pre + fields[n1] + mid + fields[n2] + post)
  {
    var v1, v2 := fields[n1], fields[n2];
    LiteralOk(post, "", "", fields);
    assert post + "" == post;
    FieldOk(n2, post, post, fields);
    LiteralOk(mid, Placeholder(n2) + post, v2 + post, fields);
    FieldOk(n1, mid + (Placeholder(n2) + post), mid + (v2 + post), fields);
    LiteralOk(pre, Placeholder(n1) + (mid + (Placeholder(n2) + post)), v1 + (mid + (v2 + post)), fields);
    Assoc5(pre, Placeholder(n1), mid, Placeholder(n2), post);
    Assoc5(pre, v1, mid, v2, post);
  }

  lemma Assoc5(a: string, b: string, c: string, d: string, e: string)
    ensures a + b + c + d + e == a + (b + (c + (d + e)))
  {
  }

  lemma LiteralOk(s: string, rest: string, out: string, fields: map<string, string>)
    requires BraceFree(s) && Format(rest, fields) == Ok(out)
    ensures Format(s + rest, fields) == Ok(s + out)
  {
    LiteralCopied(s, rest, fields);
  }

  lemma FieldOk(name: string, rest: string, out: string, fields: map<string, string>)
    requires PlainName(name) && name in fields && |name| > 0 && !IsDigit(name[0])
    requires Format(rest, fields) == Ok(out)
    ensures Format(Placeholder(name) + rest, fields) == Ok(fields[name] + out)
  {
    FieldReplaced(name, rest, fields);
  }

  /** A template that is a single field formats to that field's value. */
  lemma PlaceholderAlone(name: string, fields: map<string, string>)
    requires PlainName(name) && name in fields && |name| > 0 && !IsDigit(name[0])
    ensures Format(Placeholder(name), fields) == Ok(fields[name])
  {
    FieldOk(name, "", "", fields);
    assert Placeholder(name) + "" == Placeholder(name);
    assert fields[name] + "" == fields[name];
  }
}
