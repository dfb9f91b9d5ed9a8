/**
 * The part of Go's text/template that the registry manifests use: literal text
 * interleaved with `{{.Name}}` actions, each of which prints one field of the
 * data record verbatim (text/template does no escaping).
 *
 * A template is a sequence of segments. `Print` gives the template text a
 * sequence of segments stands for, `Parse` reads such a text back, and
 * `Execute` renders a parsed template against the record's fields, failing on
 * the first field the record does not have.
 */
module Template {
  import opened Wrappers

  datatype Segment =
    | Lit(text: string)    // literal text, copied to the output unchanged
    | Field(name: string)  // the action `{{.name}}`

  type Template = seq<Segment>

  datatype TemplateError =
    | ParseError(at: string)    // the rest of the text, from the action that could not be read
    | ExecError(field: string)  // a field the data record does not have

  /** The data record as the template sees it: a field's value by its name, None for no such field. */
  type Data = string -> Option<string>

  predicate IsOpen(s: string) {
    |s| >= 2 && s[0] == '{' && s[1] == '{'
  }

  predicate IsClose(s: string) {
    |s| >= 2 && s[0] == '}' && s[1] == '}'
  }

  predicate IsIdentChar(c: char) {
    'a' <= c <= 'z' || 'A' <= c <= 'Z' || '0' <= c <= '9' || c == '_'
  }

  /** A Go identifier (ASCII letters, digits and '_', not starting with a digit). */
  predicate IsFieldName(n: string) {
    && |n| > 0
    && !('0' <= n[0] <= '9')
    && forall i | 0 <= i < |n| :: IsIdentChar(n[i])
  }

  function PrintSegment(s: Segment): string {
    match s
    case Lit(text) => text
    case Field(name) => "{{." + name + "}}"
  }

  /** The template text that a sequence of segments stands for. */
  function Print(t: Template): string {
    if t == [] then [] else PrintSegment(t[0]) + Print(t[1..])
  }

  /** The literal text at the head of `s`: everything before the first "{{". */
  function LiteralPrefix(s: string): (p: string)
    ensures p <= s
    ensures s != [] && !IsOpen(s) ==> p != []
    ensures forall i | 0 <= i < |p| :: !IsOpen(s[i..])
    ensures |p| < |s| ==> IsOpen(s[|p|..])
  {
    if s == [] || IsOpen(s) then []
    else
      var rest := LiteralPrefix(s[1..]);
      assert forall i | 1 <= i <= |rest| :: s[i..] == s[1..][i - 1..];
      [s[0]] + rest
  }

  /** The longest run of identifier characters at the head of `s`. */
  function IdentPrefix(s: string): (p: string)
    ensures p <= s
    ensures forall i | 0 <= i < |p| :: IsIdentChar(p[i])
    ensures |p| < |s| ==> !IsIdentChar(s[|p|])
  {
    if s != [] && IsIdentChar(s[0]) then [s[0]] + IdentPrefix(s[1..]) else []
  }

  /**
   * Reads the segment at the head of a non-empty text: a literal run up to the
   * next "{{", or an action of the form `{{.Name}}`; any other action is a
   * parse error. Returns the segment and the text after it.
   */
  function ReadSegment(s: string): (r: Result<(Segment, string), TemplateError>)
    requires s != []
    ensures r.Success? ==> |r.value.1| < |s| && PrintSegment(r.value.0) + r.value.1 == s
    ensures r.Failure? ==> IsOpen(s) && r.error == ParseError(s)
  {
    if IsOpen(s) then
      if |s| < 3 || s[2] != '.' then Failure(ParseError(s))
      else
        var name := IdentPrefix(s[3..]);
        var after := s[3 + |name|..];
        if !IsFieldName(name) || !IsClose(after) then Failure(ParseError(s))
        else
          ActionText(s, name);
          Success((Field(name), after[2..]))
    else
      var text := LiteralPrefix(s);
      assert s == text + s[|text|..];
      Success((Lit(text), s[|text|..]))
  }

  lemma ActionText(s: string, name: string)
    requires |s| >= 3 && IsOpen(s) && s[2] == '.'
    requires name <= s[3..] && IsClose(s[3 + |name|..])
    ensures s == "{{." + name + "}}" + s[3 + |name|..][2..]
  {
    var after := s[3 + |name|..];
    assert s[3..] == name + after;
    assert after == "}}" + after[2..];
    assert s == s[..3] + s[3..];
    assert s[..3] == "{{.";
  }

  /** Reads a whole template text, segment by segment, stopping at the first parse error. */
  function Parse(s: string): (r: Result<Template, TemplateError>)
    decreases |s|
  {
    if s == [] then Success([])
    else
      match ReadSegment(s)
      case Failure(e) => Failure(e)
      case Success((segment, rest)) =>
        match Parse(rest)
        case Failure(e) => Failure(e)
        case Success(t) => Success([segment] + t)
  }

  /**
   * The canonical form of a segment sequence: literals are non-empty, hold no
   * '{' and are never adjacent, and every action names an identifier. It is a
   * subset of what `Parse` returns (a lone '{' stays inside a literal), and on
   * it `Parse` undoes `Print`.
   */
  predicate WellFormed(t: Template) {
    forall i: nat | i < |t| :: WellFormedAt(t, i)
  }

  predicate WellFormedAt(t: Template, i: nat)
    requires i < |t|
  {
    match t[i]
    case Lit(text) => text != [] && '{' !in text && (i + 1 < |t| ==> t[i + 1].Field?)
    case Field(name) => IsFieldName(name)
  }

  /** Every action of `t` names a field the record has. */
  predicate Resolves(t: Template, data: Data) {
    forall i | 0 <= i < |t| :: t[i].Field? ==> data(t[i].name).Some?
  }

  function SegmentValue(s: Segment, data: Data): string
    requires s.Field? ==> data(s.name).Some?
  {
    match s
    case Lit(text) => text
    case Field(name) => data(name).value
  }

  /** Reference semantics: each segment's text or field value, concatenated in order. */
  function Substitute(t: Template, data: Data): string
    requires Resolves(t, data)
  {
    if t == [] then [] else SegmentValue(t[0], data) + Substitute(t[1..], data)
  }

  function Concat(pieces: seq<string>): string {
    if pieces == [] then [] else pieces[0] + Concat(pieces[1..])
  }

  /** What each segment contributes to the output, in template order. */
  function Pieces(t: Template, data: Data): (ps: seq<string>)
    requires Resolves(t, data)
    ensures |ps| == |t|
    ensures forall i | 0 <= i < |t| :: ps[i] == SegmentValue(t[i], data)
  {
    seq(|t|, i requires 0 <= i < |t| => SegmentValue(t[i], data))
  }

  /**
   * Runs a parsed template against the record's fields, left to right; the
   * first field the record lacks stops it with an error and no output.
   */
  function Execute(t: Template, data: Data): (r: Result<string, TemplateError>)
    ensures r.Success? <==> Resolves(t, data)
    ensures r.Success? ==> r.value == Substitute(t, data)
    ensures r.Failure? ==>
      && r.error.ExecError?
      && data(r.error.field).None?
      && exists i | 0 <= i < |t| :: t[i] == Field(r.error.field) && Resolves(t[..i], data)
  {
    if t == [] then Success([])
    else
      var rest := Execute(t[1..], data);
      match t[0]
      case Lit(text) =>
        (match rest
         case Failure(e) =>
           assert forall i | 0 <= i < |t| - 1 :: t[1..][..i] == t[1..i + 1];
           Failure(e)
         case Success(out) => Success(text + out))
      case Field(name) =>
        if data(name).None? then
          assert t[0] == Field(name) && Resolves(t[..0], data);
          Failure(ExecError(name))
        else
          (match rest
           case Failure(e) =>
             assert forall i | 0 <= i < |t| - 1 :: t[1..][..i] == t[1..i + 1];
             Failure(e)
           case Success(out) => Success(data(name).value + out))
  }

  /** The indices at which `t` prints the field `name`. */
  function Placeholders(t: Template, name: string): set<nat> {
    set i: nat | i < |t| && t[i] == Field(name)
  }

  predicate EndsWith(s: string, suffix: string) {
    |suffix| <= |s| && s[|s| - |suffix|..] == suffix
  }

  lemma EndsWithAppend(s: string, suffix: string)
    ensures EndsWith(s + suffix, suffix)
  {
    assert (s + suffix)[|s|..] == suffix;
  }

  // ---------------------------------------------------------------------------
  // Parsing and printing are inverse to each other.
  // ---------------------------------------------------------------------------

  lemma {:induction false} LiteralPrefixOfText(text: string, rest: string)
    requires '{' !in text
    requires rest == [] || IsOpen(rest)
    ensures LiteralPrefix(text + rest) == text
  {
    if text == [] {
      assert text + rest == rest;
    } else {
      assert (text + rest)[1..] == text[1..] + rest;
      LiteralPrefixOfText(text[1..], rest);
    }
  }

  lemma {:induction false} IdentPrefixOfName(name: string, rest: string)
    requires forall i | 0 <= i < |name| :: IsIdentChar(name[i])
    requires rest != [] && !IsIdentChar(rest[0])
    ensures IdentPrefix(name + rest) == name
  {
    if name == [] {
      assert name + rest == rest;
    } else {
      assert (name + rest)[1..] == name[1..] + rest;
      IdentPrefixOfName(name[1..], rest);
    }
  }

  /** A well-formed template survives printing and re-parsing unchanged. */
  lemma {:induction false} ParsePrint(t: Template)
    requires WellFormed(t)
    ensures Parse(Print(t)) == Success(t)
  {
    if t != [] {
      var rest := Print(t[1..]);
      WellFormedTail(t);
      ParsePrint(t[1..]);
      ReadPrinted(t);
      assert Print(t) == PrintSegment(t[0]) + rest;
      assert [t[0]] + t[1..] == t;
    }
  }

  lemma WellFormedTail(t: Template)
    requires WellFormed(t) && t != []
    ensures WellFormed(t[1..])
  {
    forall i: nat | i < |t[1..]| ensures WellFormedAt(t[1..], i) {
      assert WellFormedAt(t, i + 1);
      assert t[1..][i] == t[i + 1];
      assert i + 1 < |t[1..]| ==> t[1..][i + 1] == t[i + 2];
    }
  }

  /** Reading the head of a printed well-formed template gives back its first segment. */
  lemma ReadPrinted(t: Template)
    requires WellFormed(t) && t != []
    ensures Print(t) != [] && ReadSegment(Print(t)) == Success((t[0], Print(t[1..])))
  {
    var rest := Print(t[1..]);
    assert WellFormedAt(t, 0);
    assert Print(t) == PrintSegment(t[0]) + rest;
    match t[0]
    case Lit(text) =>
      assert rest == [] || IsOpen(rest) by {
        if t[1..] != [] {
          assert rest == "{{." + t[1].name + "}}" + Print(t[2..]);
        }
      }
      ReadLiteral(text, rest);
    case Field(name) =>
      ReadField(name, rest);
  }

  lemma ReadLiteral(text: string, rest: string)
    requires text != [] && '{' !in text
    requires rest == [] || IsOpen(rest)
    ensures ReadSegment(text + rest) == Success((Lit(text), rest))
  {
    var s := text + rest;
    assert s[0] == text[0] && text[0] != '{';
    LiteralPrefixOfText(text, rest);
    assert s[|text|..] == rest;
  }

  lemma ReadField(name: string, rest: string)
    requires IsFieldName(name)
    ensures ReadSegment("{{." + name + "}}" + rest) == Success((Field(name), rest))
  {
    var s := "{{." + name + "}}" + rest;
    assert IsOpen(s) && s[2] == '.';
    assert s[3..] == name + ("}}" + rest);
    IdentPrefixOfName(name, "}}" + rest);
    assert s[3 + |name|..] == "}}" + rest;
    assert ("}}" + rest)[2..] == rest;
  }

  /** Parsing loses nothing: a successfully parsed text prints back to itself. */
  lemma {:induction false} PrintParse(s: string, t: Template)
    requires Parse(s) == Success(t)
    ensures Print(t) == s
    decreases |s|
  {
    if s != [] {
      var (segment, rest) := ReadSegment(s).value;
      var tail := Parse(rest).value;
      assert t == [segment] + tail;
      PrintParse(rest, tail);
    }
  }

  // ---------------------------------------------------------------------------
  // Rendering is concatenation: each segment contributes its own text.
  // ---------------------------------------------------------------------------

  lemma ResolvesAppend(a: Template, b: Template, data: Data)
    ensures Resolves(a + b, data) <==> Resolves(a, data) && Resolves(b, data)
  {
    assert forall i | 0 <= i < |a| :: (a + b)[i] == a[i];
    assert forall i | 0 <= i < |b| :: (a + b)[|a| + i] == b[i];
  }

  lemma ResolvesSlice(t: Template, data: Data, lo: nat, hi: nat)
    requires Resolves(t, data) && lo <= hi <= |t|
    ensures Resolves(t[lo..hi], data)
  {
    assert forall i | 0 <= i < hi - lo :: t[lo..hi][i] == t[lo + i];
  }

  lemma {:induction false} SubstituteAppend(a: Template, b: Template, data: Data)
    requires Resolves(a, data) && Resolves(b, data)
    ensures Resolves(a + b, data)
    ensures Substitute(a + b, data) == Substitute(a, data) + Substitute(b, data)
  {
    ResolvesAppend(a, b, data);
    if a == [] {
      assert a + b == b;
    } else {
      ResolvesAppend(a[1..], b, data);
      assert Resolves(a[1..], data) by {
        assert forall i | 0 <= i < |a| - 1 :: a[1..][i] == a[i + 1];
      }
      SubstituteAppend(a[1..], b, data);
      assert (a + b)[0] == a[0];
      assert (a + b)[1..] == a[1..] + b;
      calc {
        Substitute(a + b, data);
        SegmentValue(a[0], data) + Substitute(a[1..] + b, data);
        SegmentValue(a[0], data) + (Substitute(a[1..], data) + Substitute(b, data));
        Substitute(a, data) + Substitute(b, data);
      }
    }
  }

  /** Rendering is the concatenation of the segments' contributions, in order. */
  lemma {:induction false} SubstituteIsConcat(t: Template, data: Data)
    requires Resolves(t, data)
    ensures Substitute(t, data) == Concat(Pieces(t, data))
  {
    if t != [] {
      ResolvesSlice(t, data, 1, |t|);
      SubstituteIsConcat(t[1..], data);
      assert Pieces(t, data)[1..] == Pieces(t[1..], data);
    }
  }
}
