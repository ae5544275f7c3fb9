/** The subset of Python's `str.format` the note templates are rendered with:
    literal text, the escapes `{{` and `}}`, and the four keyword fields
    `{title}`, `{timestamp}`, `{project}` and `{content}`. */
module Template {
  import opened Results
  import opened Text

  datatype Placeholder = Title | Timestamp | Project | Content

  /** A parsed template is a sequence of literal characters and fields. */
  datatype Piece = Lit(c: char) | Field(p: Placeholder)

  /** The keyword arguments `format` is called with. */
  datatype Vars = Vars(title: string, timestamp: string, project: string, content: string)

  /** Why `format` raises. */
  datatype FormatError =
    | LoneOpenBrace              // "Single '{' encountered"
    | LoneCloseBrace             // "Single '}' encountered"
    | UnclosedField              // "expected '}' before end of string"
    | UnknownField(name: string) // a field naming none of the four: KeyError, IndexError, or ValueError for a malformed body
    | UnsupportedField(body: string) // a known name with a conversion, spec, attribute or index

  function NameOf(p: Placeholder): string {
    match p
    case Title => "title"
    case Timestamp => "timestamp"
    case Project => "project"
    case Content => "content"
  }

  function Named(name: string): (r: Option<Placeholder>)
    ensures r.Some? ==> NameOf(r.value) == name
  {
    if name == "title" then Some(Title)
    else if name == "timestamp" then Some(Timestamp)
    else if name == "project" then Some(Project)
    else if name == "content" then Some(Content)
    else None
  }

  function ValueOf(p: Placeholder, v: Vars): string {
    match p
    case Title => v.title
    case Timestamp => v.timestamp
    case Project => v.project
    case Content => v.content
  }

  /** The text of a field: the placeholder name between braces. */
  function Slot(p: Placeholder): string {
    "{" + NameOf(p) + "}"
  }

  /** Length of the argument name at the start of a field body: it ends at
      the first attribute dot, index bracket, conversion or format spec. */
  function NameLength(body: string): (n: nat)
    ensures n <= |body|
  {
    if body == [] || body[0] in ".[!:" then 0 else 1 + NameLength(body[1..])
  }

  function Prepend(p: Piece, r: Result<seq<Piece>, FormatError>): Result<seq<Piece>, FormatError> {
    match r
    case Success(ps) => Success([p] + ps)
    case Failure(e) => Failure(e)
  }

  /** The first piece of a non-empty template and how many characters it
      spans, or the error `str.format` raises on reaching it. */
  function NextPiece(t: string): (r: Result<(Piece, nat), FormatError>)
    requires t != []
    ensures r.Success? ==> 1 <= r.value.1 <= |t|
  {
    if t[0] == '{' && |t| > 1 && t[1] == '{' then Success((Lit('{'), 2))
    else if t[0] == '}' && |t| > 1 && t[1] == '}' then Success((Lit('}'), 2))
    else if t[0] == '}' then Failure(LoneCloseBrace)
    else if t[0] == '{' && |t| == 1 then Failure(LoneOpenBrace)
    else if t[0] == '{' then
      var close := 1 + FirstIndex(t[1..], '}');
      if close == |t| then Failure(UnclosedField)
      else
        match FieldPiece(t[1..close])
        case Success(p) => Success((p, close + 1))
        case Failure(e) => Failure(e)
    else Success((Lit(t[0]), 1))
  }

  /** The field a replacement-field body names, or why `format` rejects it:
      an argument name other than the four raises, and a known name followed
      by anything is outside this model. */
  function FieldPiece(body: string): Result<Piece, FormatError> {
    match Named(body)
    case Some(p) => Success(Field(p))
    case None =>
      var name := body[..NameLength(body)];
      if Named(name).Some? then Failure(UnsupportedField(body)) else Failure(UnknownField(name))
  }

  /** Scans a template left to right as `str.format` does; the first error
      met is the one raised. */
  function Parse(t: string): Result<seq<Piece>, FormatError>
    decreases |t|
  {
    if t == [] then Success([])
    else
      match NextPiece(t)
      case Failure(e) => Failure(e)
      case Success(step) => Prepend(step.0, Parse(t[step.1..]))
  }

  /** The canonical template text of a piece sequence: braces doubled. */
  function UnparsePiece(p: Piece): string {
    match p
    case Lit(c) => if c == '{' then "{{" else if c == '}' then "}}" else [c]
    case Field(x) => Slot(x)
  }

  function Unparse(ps: seq<Piece>): string {
    if ps == [] then "" else UnparsePiece(ps[0]) + Unparse(ps[1..])
  }

  /** The text `format` returns for parsed pieces: fields are replaced by
      their values, which are never scanned again. */
  function Expand(ps: seq<Piece>, v: Vars): string {
    if ps == [] then "" else ExpandPiece(ps[0], v) + Expand(ps[1..], v)
  }

  function ExpandPiece(p: Piece, v: Vars): string {
    match p
    case Lit(c) => [c]
    case Field(x) => ValueOf(x, v)
  }

  /** `template.format(title=…, timestamp=…, project=…, content=…)`: an
      accepted template is the canonical text of a piece sequence, and the
      result is that sequence with each field replaced by its value. */
  function Render(t: string, v: Vars): (r: Result<string, FormatError>)
    ensures r.Success? ==> exists ps :: Unparse(ps) == t && r.value == Expand(ps, v)
  {
    match Parse(t)
    case Success(ps) => UnparseParse(t, ps); Success(Expand(ps, v))
    case Failure(e) => Failure(e)
  }

  /** Conversely, the canonical text of any piece sequence renders to the
      sequence with its fields replaced. */
  lemma RenderUnparse(ps: seq<Piece>, v: Vars)
    ensures Render(Unparse(ps), v) == Success(Expand(ps, v))
  {
    ParseUnparse(ps);
  }

  /** `s` with every brace doubled, so that it renders as itself. */
  function Escape(s: string): string {
    if s == [] then "" else UnparsePiece(Lit(s[0])) + Escape(s[1..])
  }

  predicate BraceFree(s: string) {
    '{' !in s && '}' !in s
  }

  // ---------------------------------------------------------------------
  // Parse and Unparse are inverse bijections between well-formed templates
  // and piece sequences.

  /** One step of `Parse`. */
  lemma ParseStep(t: string)
    requires t != [] && NextPiece(t).Success?
    ensures Parse(t) == Prepend(NextPiece(t).value.0, Parse(t[NextPiece(t).value.1..]))
  {
  }

  /** The canonical text of a piece is read back as that piece, whatever follows. */
  lemma NextPieceUnparse(p: Piece, rest: string)
    ensures NextPiece(UnparsePiece(p) + rest) == Success((p, |UnparsePiece(p)|))
  {
    if p.Field? {
      NextPieceSlot(p.p, rest);
    }
  }

  /** A field's text is read back as that field. */
  lemma NextPieceSlot(x: Placeholder, rest: string)
    ensures NextPiece(Slot(x) + rest) == Success((Field(x), |Slot(x)|))
  {
    KnownName(x);
    NextPieceNamed(NameOf(x), rest, Field(x));
  }

  lemma KnownName(x: Placeholder)
    ensures NameOf(x) != [] && BraceFree(NameOf(x))
    ensures FieldPiece(NameOf(x)) == Success(Field(x))
  {
  }

  /** A brace-free field body that `FieldPiece` accepts is read as one piece. */
  lemma NextPieceNamed(name: string, rest: string, p: Piece)
    requires name != [] && BraceFree(name) && FieldPiece(name) == Success(p)
    ensures NextPiece("{" + name + "}" + rest) == Success((p, |name| + 2))
  {
    var t := "{" + name + "}" + rest;
    assert t[1..|name| + 1] == name;
    assert t[|name| + 1] == '}';
    FieldEnd(t, name);
    assert t[1] == name[0];
  }

  /** The characters a piece was read from are its canonical text. */
  lemma NextPieceSpan(t: string)
    requires t != [] && NextPiece(t).Success?
    ensures UnparsePiece(NextPiece(t).value.0) == t[..NextPiece(t).value.1]
  {
    var n := NextPiece(t).value.1;
    if t[0] == '{' && !(|t| > 1 && t[1] == '{') {
      assert t[..n] == "{" + t[1..n - 1] + "}";
    }
  }

  /** Reading a piece depends only on the characters it spans. */
  lemma NextPieceAppend(a: string, b: string)
    requires a != [] && NextPiece(a).Success?
    ensures NextPiece(a + b) == NextPiece(a)
  {
    var t := a + b;
    assert t[0] == a[0];
    if |a| > 1 { assert t[1] == a[1]; }
    if a[0] == '{' && |a| > 1 && a[1] != '{' {
      var k := FirstIndex(a[1..], '}');
      assert forall i :: 0 <= i <= k ==> t[1..][i] == a[1..][i];
      FirstIndexIs(t[1..], '}', k);
      assert t[1..1 + k] == a[1..1 + k];
    }
  }

  lemma ParsePiece(p: Piece, rest: string)
    ensures Parse(UnparsePiece(p) + rest) == Prepend(p, Parse(rest))
  {
    NextPieceUnparse(p, rest);
    assert (UnparsePiece(p) + rest)[|UnparsePiece(p)|..] == rest;
  }

  lemma {:induction false} ParseUnparse(ps: seq<Piece>)
    ensures Parse(Unparse(ps)) == Success(ps)
  {
    if ps != [] {
      ParsePiece(ps[0], Unparse(ps[1..]));
      ParseUnparse(ps[1..]);
      assert [ps[0]] + ps[1..] == ps;
    }
  }

  lemma {:induction false} UnparseParse(t: string, ps: seq<Piece>)
    requires Parse(t) == Success(ps)
    ensures Unparse(ps) == t
    decreases |t|
  {
    if t != [] {
      ParseSucceeds(t);
      var n := NextPiece(t).value.1;
      var rest := Parse(t[n..]).value;
      UnparseParse(t[n..], rest);
      NextPieceSpan(t);
      UnparseJoin(t, n, NextPiece(t).value.0, rest);
    } else {
      assert ps == [];
    }
  }

  /** A template that parses starts with a piece, and the rest parses too. */
  lemma ParseSucceeds(t: string)
    requires t != [] && Parse(t).Success?
    ensures NextPiece(t).Success?
    ensures var step := NextPiece(t).value;
            && Parse(t[step.1..]).Success?
            && Parse(t).value == [step.0] + Parse(t[step.1..]).value
  {
  }

  /** A piece spelled by the first `n` characters, then pieces spelled by the rest. */
  lemma UnparseJoin(t: string, n: nat, p: Piece, ps: seq<Piece>)
    requires n <= |t| && UnparsePiece(p) == t[..n] && Unparse(ps) == t[n..]
    ensures Unparse([p] + ps) == t
  {
    assert ([p] + ps)[1..] == ps;
    assert t == t[..n] + t[n..];
  }

  // ---------------------------------------------------------------------
  // Rendering composes over concatenation.

  function Concat(ps: seq<Piece>, r: Result<seq<Piece>, FormatError>): Result<seq<Piece>, FormatError> {
    match r
    case Success(qs) => Success(ps + qs)
    case Failure(e) => Failure(e)
  }

  /** A template that parses on its own parses the same way in front of any text. */
  lemma {:induction false} ParseAppend(a: string, b: string)
    requires Parse(a).Success?
    ensures Parse(a + b) == Concat(Parse(a).value, Parse(b))
    decreases |a|
  {
    if a == [] {
      assert a + b == b;
      ConcatNil(Parse(b));
    } else {
      var step := NextPiece(a).value;
      ParseStep(a);
      ParseAppend(a[step.1..], b);
      ParseAppendStep(a, b);
      PrependConcat(step.0, Parse(a[step.1..]).value, Parse(b));
    }
  }

  /** The first piece of `a + b` is the first piece of `a`. */
  lemma ParseAppendStep(a: string, b: string)
    requires a != [] && NextPiece(a).Success?
    ensures var step := NextPiece(a).value;
            Parse(a + b) == Prepend(step.0, Parse(a[step.1..] + b))
  {
    var n := NextPiece(a).value.1;
    NextPieceAppend(a, b);
    ParseStep(a + b);
    assert (a + b)[n..] == a[n..] + b;
  }

  lemma ConcatNil(r: Result<seq<Piece>, FormatError>)
    ensures Concat([], r) == r
  {
    if r.Success? {
      assert [] + r.value == r.value;
    }
  }

  lemma PrependConcat(p: Piece, qs: seq<Piece>, r: Result<seq<Piece>, FormatError>)
    ensures Prepend(p, Concat(qs, r)) == Concat([p] + qs, r)
  {
    if r.Success? {
      assert [p] + (qs + r.value) == ([p] + qs) + r.value;
    }
  }

  lemma ExpandAppend(ps: seq<Piece>, qs: seq<Piece>, v: Vars)
    ensures Expand(ps + qs, v) == Expand(ps, v) + Expand(qs, v)
  {
    if ps == [] {
      assert ps + qs == qs;
    } else {
      assert (ps + qs)[0] == ps[0];
      assert (ps + qs)[1..] == ps[1..] + qs;
      ExpandAppend(ps[1..], qs, v);
    }
  }

  /** Rendering two templates that each render renders their concatenation. */
  lemma RenderAppend(a: string, b: string, v: Vars)
    requires Render(a, v).Success? && Render(b, v).Success?
    ensures Render(a + b, v) == Success(Render(a, v).value + Render(b, v).value)
  {
    ParseAppend(a, b);
    ExpandAppend(Parse(a).value, Parse(b).value, v);
  }

  /** A field renders as its value, whatever braces the value holds. */
  lemma RenderSlot(p: Placeholder, v: Vars)
    ensures Render(Slot(p), v) == Success(ValueOf(p, v))
  {
    ParseUnparse([Field(p)]);
    assert Unparse([Field(p)]) == Slot(p) + Unparse([]) == Slot(p);
    assert Expand([Field(p)], v) == ValueOf(p, v) + Expand([], v) == ValueOf(p, v);
  }

  /** Escaped text renders back to itself. */
  lemma {:induction false} RenderEscape(s: string, v: Vars)
    ensures Render(Escape(s), v) == Success(s)
  {
    if s != [] {
      ParsePiece(Lit(s[0]), Escape(s[1..]));
      RenderEscape(s[1..], v);
      assert s == [s[0]] + s[1..];
    }
  }

  /** Text without braces is its own escape, so it renders as itself. */
  lemma {:induction false} RenderBraceFree(s: string, v: Vars)
    requires BraceFree(s)
    ensures Render(s, v) == Success(s)
  {
    EscapeBraceFree(s);
    RenderEscape(s, v);
  }

  lemma {:induction false} EscapeBraceFree(s: string)
    requires BraceFree(s)
    ensures Escape(s) == s
  {
    if s != [] {
      assert s[0] != '{' && s[0] != '}';
      EscapeBraceFree(s[1..]);
      assert s == [s[0]] + s[1..];
    }
  }

  /** A field naming anything but the four placeholders makes `format`
      raise, once everything before it is well formed. */
  lemma RenderUnknownField(before: string, name: string, after: string, v: Vars)
    requires name != [] && BraceFree(name) && NameLength(name) == |name| && Named(name).None?
    requires Parse(before).Success?
    ensures Render(before + ("{" + name + "}" + after), v) == Failure(UnknownField(name))
  {
    var tail := "{" + name + "}" + after;
    assert tail[1..|name| + 1] == name;
    assert tail[|name| + 1] == '}';
    NextPieceUnknown(tail, name);
    ParseAfterFails(before, tail);
  }

  /** A template fails as soon as its first piece after a good prefix fails. */
  lemma ParseAfterFails(before: string, tail: string)
    requires Parse(before).Success?
    requires tail != [] && NextPiece(tail).Failure?
    ensures Parse(before + tail) == Failure(NextPiece(tail).error)
  {
    assert Parse(tail) == Failure(NextPiece(tail).error);
    ParseAppend(before, tail);
  }

  /** A field naming anything but the four placeholders is rejected. */
  lemma NextPieceUnknown(t: string, name: string)
    requires name != [] && BraceFree(name) && NameLength(name) == |name| && Named(name).None?
    requires |t| > |name| + 1 && t[0] == '{' && t[1..|name| + 1] == name && t[|name| + 1] == '}'
    ensures NextPiece(t) == Failure(UnknownField(name))
  {
    UnknownName(name);
    FieldEnd(t, name);
    assert t[1] == name[0];
    NextPieceUnknownStep(t, name);
  }

  lemma UnknownName(name: string)
    requires name != [] && NameLength(name) == |name| && Named(name).None?
    ensures FieldPiece(name) == Failure(UnknownField(name))
  {
    assert name[..NameLength(name)] == name;
  }

  lemma FieldEnd(t: string, name: string)
    requires BraceFree(name)
    requires |t| > |name| + 1 && t[1..|name| + 1] == name && t[|name| + 1] == '}'
    ensures FirstIndex(t[1..], '}') == |name|
  {
    FirstIndexIs(t[1..], '}', |name|);
  }

  lemma NextPieceUnknownStep(t: string, name: string)
    requires FieldPiece(name) == Failure(UnknownField(name))
    requires |t| > |name| + 1 && t[0] == '{' && t[1] != '{' && t[1..|name| + 1] == name
    requires FirstIndex(t[1..], '}') == |name|
    ensures NextPiece(t) == Failure(UnknownField(name))
  {
    NextPieceFieldFails(t);
  }

  /** The step `NextPiece` takes on a field whose body is rejected. */
  lemma NextPieceFieldFails(t: string)
    requires |t| > 1 && t[0] == '{' && t[1] != '{'
    requires 1 + FirstIndex(t[1..], '}') < |t|
    requires FieldPiece(t[1..1 + FirstIndex(t[1..], '}')]).Failure?
    ensures NextPiece(t) == Failure(FieldPiece(t[1..1 + FirstIndex(t[1..], '}')]).error)
  {
  }

  // ---------------------------------------------------------------------
  // Templates written as literal text with fields between.

  /** A stretch of a template: text meant literally, or a field. */
  datatype Segment = Text(s: string) | Hole(p: Placeholder)

  /** The template text for a segment sequence, braces in literal text doubled. */
  function Compose(segs: seq<Segment>): string {
    if segs == [] then "" else SegmentText(segs[0]) + Compose(segs[1..])
  }

  function SegmentText(seg: Segment): string {
    match seg
    case Text(s) => Escape(s)
    case Hole(p) => Slot(p)
  }

  function SegmentValue(seg: Segment, v: Vars): string {
    match seg
    case Text(s) => s
    case Hole(p) => ValueOf(p, v)
  }

  /** What the template should render to: literal text as written, fields
      replaced by their values. */
  function Fill(segs: seq<Segment>, v: Vars): string {
    if segs == [] then "" else SegmentValue(segs[0], v) + Fill(segs[1..], v)
  }

  lemma FillCons(seg: Segment, rest: seq<Segment>, v: Vars)
    ensures Fill([seg] + rest, v) == SegmentValue(seg, v) + Fill(rest, v)
  {
    assert ([seg] + rest)[1..] == rest;
  }

  lemma ComposeCons(seg: Segment, rest: seq<Segment>)
    ensures Compose([seg] + rest) == SegmentText(seg) + Compose(rest)
  {
    assert ([seg] + rest)[1..] == rest;
  }

  /** A composed template renders to its intended text. */
  lemma {:induction false} RenderCompose(segs: seq<Segment>, v: Vars)
    ensures Render(Compose(segs), v) == Success(Fill(segs, v))
  {
    if segs == [] {
      assert Parse("") == Success([]);
    } else {
      var head := SegmentText(segs[0]);
      match segs[0] {
        case Text(s) => RenderEscape(s, v);
        case Hole(p) => RenderSlot(p, v);
      }
      RenderCompose(segs[1..], v);
      RenderAppend(head, Compose(segs[1..]), v);
    }
  }
}
