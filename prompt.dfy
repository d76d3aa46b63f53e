/**
 * Prompt template validation (src/queryboost/utils/prompt.py): the field
 * names of a `str.format` template are extracted with the grammar of
 * `string.Formatter().parse`, then checked against the data's columns.
 */
module Prompt {
  import opened Common
  import opened Exceptions

  const PromptRequiredMessage: string := "Prompt is required."
  const NoColumnReferenceMessage: string := "Prompt requires at least one column reference."
  /** Followed by the missing names joined with ", " (in set iteration order, which is not modelled) and a period. */
  const ColumnsNotFoundPrefix: string := "Column reference(s) not found in data: "

  /** Why a prompt is refused. All but the last are raised as the SDK's prompt error. */
  datatype PromptError =
    | PromptRequired
    | NoColumnReference
    | ColumnsNotFound(missing: set<string>)
      /** The template itself is malformed: the parser raises its own `ValueError`. */
    | MalformedTemplate

  /** The exception class each refusal is raised as. */
  function ErrorClass(e: PromptError): (c: ExcClass)
    ensures c == Queryboost(PromptError) <==> !e.MalformedTemplate?
  {
    if e.MalformedTemplate? then OtherException("ValueError") else Queryboost(PromptError)
  }

  /** `listing` holds every name of `names` exactly once, in some order. */
  predicate Enumerates(listing: seq<string>, names: set<string>) {
    |listing| == |names| && (forall n :: n in listing ==> n in names) && (forall n :: n in names ==> n in listing)
  }

  /** `sep.join(names)` */
  function Join(names: seq<string>, sep: string): (r: string)
    ensures names == [] ==> r == ""
    ensures |names| == 1 ==> r == names[0]
  {
    if names == [] then ""
    else if |names| == 1 then names[0]
    else names[0] + sep + Join(names[1..], sep)
  }

  /**
   * The text of the exception a refusal is raised with, where the model
   * knows it: `listing` enumerates the missing names, each exactly once, in
   * set iteration order (which is not modelled); the parser's own message
   * for a malformed template is not modelled either.
   */
  function Message(e: PromptError, listing: seq<string>): (m: Option<string>)
    requires e.ColumnsNotFound? ==> Enumerates(listing, e.missing)
    ensures m.None? <==> e.MalformedTemplate?
    ensures e.ColumnsNotFound? ==> m.value == ColumnsNotFoundPrefix + Join(listing, ", ") + "."
    ensures e.ColumnsNotFound? ==>
      |m.value| > |ColumnsNotFoundPrefix| && m.value[..|ColumnsNotFoundPrefix|] == ColumnsNotFoundPrefix &&
      m.value[|m.value| - 1] == '.'
  {
    match e
    case PromptRequired => Some(PromptRequiredMessage)
    case NoColumnReference => Some(NoColumnReferenceMessage)
    case ColumnsNotFound(_) =>
      var text := ColumnsNotFoundPrefix + Join(listing, ", ") + ".";
      assert text[..|ColumnsNotFoundPrefix|] == ColumnsNotFoundPrefix;
      Some(text)
    case MalformedTemplate => None
  }

  function Prepend(name: string, rest: Option<seq<string>>): Option<seq<string>> {
    match rest
    case None => None
    case Some(names) => Some([name] + names)
  }

  /** The index of the first `c` in `s`, or `|s|` when there is none. */
  function IndexOf(s: string, c: char): (r: nat)
    ensures r <= |s|
    ensures forall i :: 0 <= i < r ==> s[i] != c
    ensures r < |s| ==> s[r] == c
  {
    if s == [] then 0
    else if s[0] == c then 0
    else 1 + IndexOf(s[1..], c)
  }

  /**
   * The field names `string.Formatter().parse(s)` reports, in order (one
   * per replacement field, possibly empty), or None when it raises
   * `ValueError`. This is the state between fields: literal text, where
   * `{{` and `}}` stand for single braces.
   */
  function FieldNames(s: string): Option<seq<string>>
    decreases |s|
  {
    if s == [] then Some([])
    else if s[0] == '{' then
      if |s| == 1 then None
      else if s[1] == '{' then FieldNames(s[2..])
      else FieldName(s[1..], [])
    else if s[0] == '}' then
      if |s| >= 2 && s[1] == '}' then FieldNames(s[2..]) else None
    else FieldNames(s[1..])
  }

  /**
   * Inside a field, after `{` and the characters `name`: the name runs to
   * `}`, `:` or `!`; a `[` skips to the next `]`; a `{` is refused.
   */
  function FieldName(s: string, name: string): Option<seq<string>>
    decreases |s|
  {
    if s == [] then None
    else if s[0] == '{' then None
    else if s[0] == '[' then
      var k := IndexOf(s[1..], ']');
      if k == |s| - 1 then None
      else FieldName(s[k + 1..], name + s[..k + 1])
    else if s[0] == '}' then Prepend(name, FieldNames(s[1..]))
    else if s[0] == ':' then FormatSpec(s[1..], 0, name)
    else if s[0] == '!' then
      // one conversion character, then the end of the field or a format spec
      if |s| < 3 then None
      else if s[2] == '}' then Prepend(name, FieldNames(s[3..]))
      else if s[2] == ':' then FormatSpec(s[3..], 0, name)
      else None
    else FieldName(s[1..], name + [s[0]])
  }

  /**
   * Inside a format spec with `open` nested fields still open; the spec
   * ends at the `}` that closes the field. Nested fields are not reported.
   */
  function FormatSpec(s: string, open: nat, name: string): Option<seq<string>>
    decreases |s|
  {
    if s == [] then None
    else if s[0] == '{' then FormatSpec(s[1..], open + 1, name)
    else if s[0] == '}' then
      if open == 0 then Prepend(name, FieldNames(s[1..])) else FormatSpec(s[1..], open - 1, name)
    else FormatSpec(s[1..], open, name)
  }

  /** The names kept by `[... if column_name]`: the non-empty ones. */
  function References(names: seq<string>): (r: seq<string>)
    ensures forall n :: n in r <==> n in names && n != ""
  {
    if names == [] then []
    else if names[0] == "" then References(names[1..])
    else [names[0]] + References(names[1..])
  }

  /** `validate_prompt(prompt, column_names)`: True, or the refusal, checked in this order. */
  function ValidatePrompt(prompt: string, columnNames: seq<string>): (r: Result<bool, PromptError>)
    ensures r.Success? ==> r.value
    ensures r == Failure(PromptRequired) <==> prompt == ""
    ensures r == Failure(MalformedTemplate) <==> prompt != "" && FieldNames(prompt).None?
    ensures r.Success? <==>
      prompt != "" && FieldNames(prompt).Some? && References(FieldNames(prompt).value) != [] &&
      forall n :: n in FieldNames(prompt).value && n != "" ==> n in columnNames
    ensures r == Failure(NoColumnReference) <==>
      prompt != "" && FieldNames(prompt).Some? && References(FieldNames(prompt).value) == []
    ensures r.Failure? && r.error.ColumnsNotFound? ==>
      r.error.missing != {} &&
      forall n :: n in r.error.missing <==> n in FieldNames(prompt).value && n != "" && n !in columnNames
  {
    if prompt == "" then Failure(PromptRequired)
    else match FieldNames(prompt)
      case None => Failure(MalformedTemplate)
      case Some(names) =>
        var refs := References(names);
        if refs == [] then Failure(NoColumnReference)
        else
          var missing := Elements(refs) - Elements(columnNames);
          if missing != {} then
            assert forall n :: n in missing <==> n in names && n != "" && n !in columnNames;
            Failure(ColumnsNotFound(missing))
          else
            assert forall n :: n in names && n != "" ==> n in columnNames by {
              forall n | n in names && n != "" ensures n in columnNames {
                assert n in refs;
                assert n !in missing;
              }
            }
            Success(true)
  }

  // ---------------------------------------------------------------------
  // A reference grammar: templates built from pieces, and their text.
  // ---------------------------------------------------------------------

  /** One piece of a template: literal text, or a replacement field. */
  datatype Piece =
    | Text(text: string)
    | Field(name: string, conversion: Option<char>, spec: Option<string>)

  /** Literal text as it is written in a template: every brace doubled. */
  function Escape(t: string): (r: string)
    ensures |r| >= |t|
  {
    if t == [] then []
    else if t[0] == '{' || t[0] == '}' then [t[0], t[0]] + Escape(t[1..])
    else [t[0]] + Escape(t[1..])
  }

  /** What follows a field's name: the optional conversion, the optional spec, the closing brace. */
  function FieldSuffix(conversion: Option<char>, spec: Option<string>): string {
    (if conversion.Some? then ['!', conversion.value] else [])
    + (if spec.Some? then [':'] + spec.value else [])
    + "}"
  }

  function RenderPiece(p: Piece): string {
    match p
    case Text(t) => Escape(t)
    case Field(n, c, sp) => "{" + n + FieldSuffix(c, sp)
  }

  /** The template text of a sequence of pieces. */
  function Render(ps: seq<Piece>): string {
    if ps == [] then [] else RenderPiece(ps[0]) + Render(ps[1..])
  }

  /** The names of the fields among `ps`, in order. */
  function Names(ps: seq<Piece>): seq<string> {
    if ps == [] then []
    else if ps[0].Field? then [ps[0].name] + Names(ps[1..])
    else Names(ps[1..])
  }

  /** A field name that ends only where the field does: no brace, bracket, colon or bang. */
  predicate SimpleName(n: string) {
    forall i :: 0 <= i < |n| ==> !EndsName(n[i])
  }

  /** The characters that end or change the reading of a field name. */
  predicate EndsName(c: char) {
    c == '{' || c == '}' || c == '[' || c == ']' || c == ':' || c == '!'
  }

  /** Text without braces; as a format spec, one without nested fields. */
  predicate BraceFree(t: string) {
    forall i :: 0 <= i < |t| ==> t[i] != '{' && t[i] != '}'
  }

  predicate WellFormedPiece(p: Piece) {
    p.Field? ==> SimpleName(p.name) && (p.spec.Some? ==> BraceFree(p.spec.value))
  }

  predicate WellFormed(ps: seq<Piece>) {
    forall i :: 0 <= i < |ps| ==> WellFormedPiece(ps[i])
  }

  /** Escaped literal text reports no field and leaves the state unchanged. */
  lemma {:induction false} EscapedTextSkipped(t: string, rest: string)
    ensures FieldNames(Escape(t) + rest) == FieldNames(rest)
    decreases |t|
  {
    if t != [] {
      EscapedTextSkipped(t[1..], rest);
      var s := Escape(t) + rest;
      var tail := Escape(t[1..]) + rest;
      if t[0] == '{' || t[0] == '}' {
        assert s == [t[0], t[0]] + tail;
        assert s[0] == t[0] && s[1] == t[0] && s[2..] == tail;
        assert FieldNames(s) == FieldNames(s[2..]);
      } else {
        assert s == [t[0]] + tail;
        assert s[0] == t[0] && s[1..] == tail;
        assert FieldNames(s) == FieldNames(s[1..]);
      }
    } else {
      assert Escape(t) + rest == rest;
    }
  }

  /** A simple name is read into the field name character by character. */
  lemma {:induction false} SimpleNameScanned(n: string, rest: string, name: string)
    requires SimpleName(n)
    ensures FieldName(n + rest, name) == FieldName(rest, name + n)
    decreases |n|
  {
    if n != [] {
      assert !EndsName(n[0]);
      var s := n + rest;
      assert s[0] == n[0] && s[1..] == n[1..] + rest;
      assert SimpleName(n[1..]) by {
        forall i | 0 <= i < |n[1..]| ensures !EndsName(n[1..][i]) {
          assert n[1..][i] == n[i + 1];
        }
      }
      SimpleNameScanned(n[1..], rest, name + [n[0]]);
      assert name + [n[0]] + n[1..] == name + n;
    } else {
      assert n + rest == rest && name + n == name;
    }
  }

  /** A spec without braces is skipped without changing the nesting depth. */
  lemma {:induction false} BraceFreeSkipped(sp: string, rest: string, open: nat, name: string)
    requires BraceFree(sp)
    ensures FormatSpec(sp + rest, open, name) == FormatSpec(rest, open, name)
    decreases |sp|
  {
    if sp != [] {
      var s := sp + rest;
      assert s[0] == sp[0] && s[1..] == sp[1..] + rest;
      assert BraceFree(sp[1..]) by {
        forall i | 0 <= i < |sp[1..]| ensures sp[1..][i] != '{' && sp[1..][i] != '}' {
          assert sp[1..][i] == sp[i + 1];
        }
      }
      BraceFreeSkipped(sp[1..], rest, open, name);
      assert sp[0] != '{' && sp[0] != '}';
      assert FormatSpec(s, open, name) == FormatSpec(s[1..], open, name);
    } else {
      assert sp + rest == rest;
    }
  }

  /** A format spec without nested fields ends at the next closing brace. */
  lemma BraceFreeEnds(sp: string, rest: string, name: string)
    requires BraceFree(sp)
    ensures FormatSpec(sp + "}" + rest, 0, name) == Prepend(name, FieldNames(rest))
  {
    BraceFreeSkipped(sp, "}" + rest, 0, name);
    assert sp + "}" + rest == sp + ("}" + rest);
    assert ("}" + rest)[1..] == rest;
  }

  /** After the name, the conversion and spec are consumed and the field is reported. */
  lemma FieldSuffixParsed(c: Option<char>, sp: Option<string>, rest: string, name: string)
    requires sp.Some? ==> BraceFree(sp.value)
    ensures FieldName(FieldSuffix(c, sp) + rest, name) == Prepend(name, FieldNames(rest))
  {
    var s := FieldSuffix(c, sp) + rest;
    match c {
      case Some(ch) =>
        match sp {
          case Some(spec) =>
            assert s == ['!', ch, ':'] + (spec + "}" + rest);
            assert s[3..] == spec + "}" + rest;
            BraceFreeEnds(spec, rest, name);
          case None =>
            assert s == ['!', ch, '}'] + rest;
            assert s[3..] == rest;
        }
      case None =>
        match sp {
          case Some(spec) =>
            assert s == [':'] + (spec + "}" + rest);
            assert s[1..] == spec + "}" + rest;
            BraceFreeEnds(spec, rest, name);
          case None =>
            assert s == "}" + rest;
            assert s[1..] == rest;
        }
    }
  }

  /** An opening brace not followed by another one starts a field with an empty name so far. */
  lemma FieldOpened(x: string)
    requires x != [] && x[0] != '{'
    ensures FieldNames("{" + x) == FieldName(x, [])
  {
    var s := "{" + x;
    assert s[0] == '{' && s[1] == x[0] && s[1..] == x;
  }

  /** A field's text after its opening brace never starts with another one. */
  lemma FieldBodyStart(n: string, c: Option<char>, sp: Option<string>, rest: string)
    requires SimpleName(n)
    ensures (n + FieldSuffix(c, sp) + rest)[0] != '{'
  {
    if n != [] {
      assert !EndsName(n[0]);
    } else {
      assert FieldSuffix(c, sp)[0] != '{';
    }
  }

  /** A well-formed field is reported with its own name, then parsing resumes after it. */
  lemma FieldPieceParsed(p: Piece, rest: string)
    requires p.Field? && WellFormedPiece(p)
    ensures FieldNames(RenderPiece(p) + rest) == Prepend(p.name, FieldNames(rest))
  {
    var n := p.name;
    var tail := FieldSuffix(p.conversion, p.spec) + rest;
    var body := n + tail;
    assert RenderPiece(p) + rest == "{" + body;
    FieldBodyStart(n, p.conversion, p.spec, rest);
    assert n + FieldSuffix(p.conversion, p.spec) + rest == body;
    FieldOpened(body);
    SimpleNameScanned(n, tail, []);
    assert [] + n == n;
    FieldSuffixParsed(p.conversion, p.spec, rest, n);
  }

  /** Round trip: parsing the text of well-formed pieces reports exactly their field names. */
  lemma {:induction false} RenderedTemplateParsed(ps: seq<Piece>)
    requires WellFormed(ps)
    ensures FieldNames(Render(ps)) == Some(Names(ps))
    decreases |ps|
  {
    if ps != [] {
      assert WellFormedPiece(ps[0]);
      assert WellFormed(ps[1..]) by {
        forall i | 0 <= i < |ps[1..]| ensures WellFormedPiece(ps[1..][i]) {
          assert ps[1..][i] == ps[i + 1];
        }
      }
      RenderedTemplateParsed(ps[1..]);
      match ps[0] {
        case Text(t) =>
          EscapedTextSkipped(t, Render(ps[1..]));
        case Field(n, c, sp) =>
          FieldPieceParsed(ps[0], Render(ps[1..]));
      }
    }
  }

  /**
   * Validation of a well-formed template: accepted exactly when it names
   * some non-empty field and every such name is a column.
   */
  lemma RenderedTemplateValidated(ps: seq<Piece>, columnNames: seq<string>)
    requires WellFormed(ps) && Render(ps) != ""
    ensures ValidatePrompt(Render(ps), columnNames).Success? <==>
      (exists n :: n in Names(ps) && n != "") &&
      forall n :: n in Names(ps) && n != "" ==> n in columnNames
    ensures ValidatePrompt(Render(ps), columnNames) == Failure(NoColumnReference) <==>
      forall n :: n in Names(ps) ==> n == ""
  {
    RenderedTemplateParsed(ps);
    var refs := References(Names(ps));
    if refs != [] {
      assert refs[0] in refs;
    }
  }

  /** Literal text and doubled braces are not references: such a prompt has none. */
  lemma LiteralTextHasNoReference(t: string, columnNames: seq<string>)
    requires t != ""
    ensures ValidatePrompt(Escape(t), columnNames) == Failure(NoColumnReference)
  {
    assert Render([Text(t)]) == Escape(t) + [];
    assert Escape(t) + [] == Escape(t);
    assert |Escape(t)| >= |t|;
    RenderedTemplateValidated([Text(t)], columnNames);
    assert Names([Text(t)]) == [];
  }

  /** An empty prompt is refused before it is parsed, with the prompt error "Prompt is required.". */
  lemma EmptyPromptRejected(columnNames: seq<string>, listing: seq<string>)
    ensures ValidatePrompt("", columnNames) == Failure(PromptRequired)
    ensures ErrorClass(ValidatePrompt("", columnNames).error) == Queryboost(PromptError)
    ensures Message(ValidatePrompt("", columnNames).error, listing) == Some("Prompt is required.")
  {
  }

  /** A prompt without references is refused with "Prompt requires at least one column reference.". */
  lemma NoReferenceMessage(prompt: string, columnNames: seq<string>, listing: seq<string>)
    requires ValidatePrompt(prompt, columnNames) == Failure(NoColumnReference)
    ensures Message(ValidatePrompt(prompt, columnNames).error, listing) == Some("Prompt requires at least one column reference.")
  {
  }

  /** Every name of `names` occurs in `Join(names, sep)`. */
  lemma {:induction false} JoinContains(names: seq<string>, sep: string, i: int)
    requires 0 <= i < |names|
    ensures Contains(Join(names, sep), names[i])
    decreases |names|
  {
    var r := Join(names, sep);
    if |names| == 1 {
      assert OccursAt(r, names[i], 0);
      ContainsAt(r, names[i], 0);
    } else if i == 0 {
      assert r == names[0] + (sep + Join(names[1..], sep));
      assert r[..|names[0]|] == names[0];
      ContainsAt(r, names[i], 0);
    } else {
      var tail := Join(names[1..], sep);
      JoinContains(names[1..], sep, i - 1);
      var k := ContainsWitness(tail, names[i]);
      var front := names[0] + sep;
      assert r == front + tail;
      assert r[|front| + k..|front| + k + |names[i]|] == tail[k..k + |names[i]|];
      ContainsAt(r, names[i], |front| + k);
    }
  }

  /** A "not found" message names every missing column. */
  lemma MissingNamesListed(missing: set<string>, listing: seq<string>, name: string)
    requires Enumerates(listing, missing) && name in missing
    ensures Contains(Message(ColumnsNotFound(missing), listing).value, name)
  {
    var i :| 0 <= i < |listing| && listing[i] == name;
    var joined := Join(listing, ", ");
    JoinContains(listing, ", ", i);
    var k := ContainsWitness(joined, name);
    var m := ColumnsNotFoundPrefix + joined + ".";
    var at := |ColumnsNotFoundPrefix| + k;
    assert m[at..at + |name|] == joined[k..k + |name|];
    ContainsAt(m, name, at);
  }

  /** One missing name is reported as "Column reference(s) not found in data: <name>.". */
  lemma OneMissingMessage(name: string)
    ensures Message(ColumnsNotFound({name}), [name]) == Some("Column reference(s) not found in data: " + name + ".")
  {
  }

  /** A lone `}` makes the template malformed. */
  lemma SingleClosingBraceMalformed(t: string, rest: string, columnNames: seq<string>)
    requires rest == [] || rest[0] != '}'
    ensures ValidatePrompt(Escape(t) + "}" + rest, columnNames) == Failure(MalformedTemplate)
  {
    EscapedTextSkipped(t, "}" + rest);
    assert Escape(t) + "}" + rest == Escape(t) + ("}" + rest);
  }

  /** Text without braces is written as it is. */
  lemma {:induction false} BraceFreeTextUnescaped(t: string)
    requires BraceFree(t)
    ensures Escape(t) == t
    decreases |t|
  {
    if t != [] {
      assert t[0] != '{' && t[0] != '}';
      BraceFreeTextUnescaped(t[1..]);
      assert [t[0]] + t[1..] == t;
    }
  }

  /** Escaping works character by character, so it distributes over concatenation. */
  lemma {:induction false} EscapeAppend(a: string, b: string)
    ensures Escape(a + b) == Escape(a) + Escape(b)
    decreases |a|
  {
    if a == [] {
      assert a + b == b;
    } else {
      assert (a + b)[0] == a[0] && (a + b)[1..] == a[1..] + b;
      EscapeAppend(a[1..], b);
    }
  }

  /** The text of a template is the text of its parts, in order. */
  lemma {:induction false} RenderAppend(ps: seq<Piece>, qs: seq<Piece>)
    ensures Render(ps + qs) == Render(ps) + Render(qs)
    decreases |ps|
  {
    if ps == [] {
      assert ps + qs == qs;
    } else {
      assert (ps + qs)[0] == ps[0] && (ps + qs)[1..] == ps[1..] + qs;
      RenderAppend(ps[1..], qs);
    }
  }

  /** The names of a template are the names of its parts, in order. */
  lemma {:induction false} NamesAppend(ps: seq<Piece>, qs: seq<Piece>)
    ensures Names(ps + qs) == Names(ps) + Names(qs)
    decreases |ps|
  {
    if ps == [] {
      assert ps + qs == qs;
    } else {
      assert (ps + qs)[0] == ps[0] && (ps + qs)[1..] == ps[1..] + qs;
      NamesAppend(ps[1..], qs);
    }
  }

  /** The text of two pieces is the text of each, in order. */
  lemma RenderTwo(a: Piece, b: Piece)
    ensures Render([a, b]) == RenderPiece(a) + RenderPiece(b)
  {
    assert [a, b][1..] == [b];
    assert [b][1..] == [];
    assert Render([b]) == RenderPiece(b) + Render([]);
    assert RenderPiece(b) + [] == RenderPiece(b);
  }

  /** `{}` reports an empty name, which is not a reference. */
  lemma EmptyFieldIsNoReference(columnNames: seq<string>)
    ensures ValidatePrompt("{}", columnNames) == Failure(NoColumnReference)
  {
    var ps := [Field("", None, None)];
    assert Render(ps) == "{}" by {
      assert ps[1..] == [];
      assert RenderPiece(ps[0]) == "{}";
      assert "{}" + [] == "{}";
    }
    assert WellFormed(ps);
    assert Names(ps) == [""] by {
      assert ps[1..] == [];
    }
    RenderedTemplateValidated(ps, columnNames);
  }

  /** Literal text followed by one well-formed field reports that field's name alone. */
  lemma TextThenFieldParsed(t: string, p: Piece)
    requires p.Field? && WellFormedPiece(p)
    ensures FieldNames(Escape(t) + RenderPiece(p)) == Some([p.name])
  {
    EscapedTextSkipped(t, RenderPiece(p));
    FieldPieceParsed(p, []);
    assert RenderPiece(p) + [] == RenderPiece(p);
    assert FieldNames([]) == Some([]);
    assert [p.name] + [] == [p.name];
  }

  /** A template whose only field is `name` is accepted exactly when `name` is a column. */
  lemma OneReferenceValidated(prompt: string, name: string, columnNames: seq<string>)
    requires prompt != "" && name != "" && FieldNames(prompt) == Some([name])
    ensures name in columnNames ==> ValidatePrompt(prompt, columnNames) == Success(true)
    ensures name !in columnNames ==> ValidatePrompt(prompt, columnNames) == Failure(ColumnsNotFound({name}))
  {
    assert References([name]) == [name] by {
      assert [name][1..] == [];
    }
    assert Elements([name]) == {name};
    if name !in columnNames {
      assert {name} - Elements(columnNames) == {name};
    }
  }

  /** "Use {Content}" names the one field "Content". */
  lemma UseContentParsed(prompt: string)
    requires prompt == "Use {Content}"
    ensures FieldNames(prompt) == Some(["Content"])
  {
    var p := Field("Content", None, None);
    assert WellFormedPiece(p);
    BraceFreeTextUnescaped("Use ");
    assert prompt == Escape("Use ") + RenderPiece(p);
    TextThenFieldParsed("Use ", p);
  }

  /** Matching is exact: "Use {Content}" against lower-case columns reports "Content" missing. */
  lemma CaseSensitiveMatch(prompt: string)
    requires prompt == "Use {Content}"
    ensures ValidatePrompt(prompt, ["content", "data"]) == Failure(ColumnsNotFound({"Content"}))
  {
    UseContentParsed(prompt);
    var columns := ["content", "data"];
    assert "Content" !in columns by {
      assert "Content"[0] != columns[0][0] && |"Content"| != |columns[1]|;
    }
    OneReferenceValidated(prompt, "Content", columns);
  }

  /** A brace is written doubled. */
  lemma BraceEscaped(b: char, t: string)
    requires b == '{' || b == '}'
    ensures Escape([b] + t) == [b, b] + Escape(t)
  {
    assert ([b] + t)[0] == b && ([b] + t)[1..] == t;
  }

  /** Braces inside otherwise plain text are written doubled. */
  lemma BracedTextEscaped(pre: string, inner: string, post: string)
    requires BraceFree(pre) && BraceFree(inner) && BraceFree(post)
    ensures Escape(pre + ("{" + (inner + ("}" + post)))) == pre + ("{{" + (inner + ("}}" + post)))
  {
    var a := ['}'] + post;
    BraceFreeTextUnescaped(post);
    BraceEscaped('}', post);
    assert Escape(a) == "}}" + post;
    assert "}" + post == a;
    var b := inner + a;
    EscapeAppend(inner, a);
    BraceFreeTextUnescaped(inner);
    assert Escape(b) == inner + ("}}" + post);
    var c := ['{'] + b;
    BraceEscaped('{', b);
    assert Escape(c) == "{{" + (inner + ("}}" + post));
    assert "{" + b == c;
    EscapeAppend(pre, c);
    BraceFreeTextUnescaped(pre);
  }

  /** Doubled braces are text: in `pre{{inner}}post{name}` only `name` is a reference. */
  lemma DoubledBracesAreText(pre: string, inner: string, post: string, name: string, columnNames: seq<string>)
    requires BraceFree(pre) && BraceFree(inner) && BraceFree(post)
    requires SimpleName(name) && name != "" && name in columnNames
    ensures ValidatePrompt(pre + ("{{" + (inner + ("}}" + (post + ("{" + name + "}"))))), columnNames) == Success(true)
  {
    var t := pre + ("{" + (inner + ("}" + post)));
    BracedTextEscaped(pre, inner, post);
    var p := Field(name, None, None);
    assert RenderPiece(p) == "{" + name + "}";
    var prompt := pre + ("{{" + (inner + ("}}" + (post + ("{" + name + "}")))));
    assert prompt == Escape(t) + RenderPiece(p);
    TextThenFieldParsed(t, p);
    OneReferenceValidated(prompt, name, columnNames);
  }

  /** A format spec is not part of the name: `pre{name:spec}` refers to `name` alone. */
  lemma FormatSpecNotInName(pre: string, name: string, spec: string, columnNames: seq<string>)
    requires BraceFree(pre) && BraceFree(spec)
    requires SimpleName(name) && name != ""
    ensures name in columnNames ==> ValidatePrompt(pre + "{" + name + ":" + spec + "}", columnNames) == Success(true)
    ensures name !in columnNames ==>
      ValidatePrompt(pre + "{" + name + ":" + spec + "}", columnNames) == Failure(ColumnsNotFound({name}))
  {
    BraceFreeTextUnescaped(pre);
    var p := Field(name, None, Some(spec));
    var prompt := pre + "{" + name + ":" + spec + "}";
    assert prompt == Escape(pre) + RenderPiece(p);
    TextThenFieldParsed(pre, p);
    OneReferenceValidated(prompt, name, columnNames);
  }
}
