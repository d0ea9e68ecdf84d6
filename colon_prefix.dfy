/**
 * The colon-prefix SQL template rewriter: a left-to-right scan that turns every
 * named parameter `:name` into the positional marker `?` (remembering `name`),
 * turns the escape `\:` into a literal `:`, and copies every other character
 * unchanged and in order.
 *
 * The scan is split in two: `Lex` cuts the template into segments
 * (literal text runs, escaped colons, parameter references) and `Render`
 * produces the driver-ready SQL and the ordered parameter names from them.
 */
module ColonPrefixSql {
  import opened Wrappers

  /** Characters that may make up a parameter name: ASCII letters, digits and underscore. */
  predicate IsNameChar(c: char) {
    ('a' <= c <= 'z') || ('A' <= c <= 'Z') || ('0' <= c <= '9') || c == '_'
  }

  predicate IsName(s: string) {
    |s| > 0 && forall i :: 0 <= i < |s| ==> IsNameChar(s[i])
  }

  /** One piece of a lexed template. */
  datatype Segment =
    | Text(text: string)      // a run of characters copied verbatim
    | EscapedColon            // the two characters `\:`
    | Param(name: string)     // `:` followed by a parameter name

  /** The template characters a segment was lexed from. */
  function Source(seg: Segment): string {
    match seg
    case Text(t) => t
    case EscapedColon => "\\:"
    case Param(n) => ":" + n
  }

  /** What a segment contributes to the rewritten SQL. */
  function Emitted(seg: Segment): string {
    match seg
    case Text(t) => t
    case EscapedColon => ":"
    case Param(_) => "?"
  }

  function SourceOf(segs: seq<Segment>): string
    decreases |segs|
  {
    if segs == [] then [] else Source(segs[0]) + SourceOf(segs[1..])
  }

  /**
   * The shape every successful lex has: names are non-empty identifiers, text
   * runs are non-empty, hold no colon and are maximal, and a parameter name is
   * never followed by text that starts with a name character.
   */
  ghost predicate WellFormed(segs: seq<Segment>) {
    && (forall i :: 0 <= i < |segs| && segs[i].Param? ==> IsName(segs[i].name))
    && (forall i :: 0 <= i < |segs| && segs[i].Text? ==> segs[i].text != [] && ':' !in segs[i].text)
    && (forall i, j :: 0 <= i && j == i + 1 < |segs| && segs[i].Text? ==> !segs[j].Text?)
    && (forall i, j :: 0 <= i && j == i + 1 < |segs| && segs[i].Param? && segs[j].Text? ==>
          !IsNameChar(segs[j].text[0]))
  }

  /** Length of the longest prefix of `s` made of name characters. */
  function NameLength(s: string): (n: nat)
    ensures n <= |s|
    ensures forall i :: 0 <= i < n ==> IsNameChar(s[i])
    ensures n == |s| || !IsNameChar(s[n])
    decreases |s|
  {
    if s == [] || !IsNameChar(s[0]) then 0 else 1 + NameLength(s[1..])
  }

  /** Adds one literal character in front, extending a leading text run if there is one. */
  function PrependText(c: char, segs: seq<Segment>): seq<Segment> {
    if segs != [] && segs[0].Text? then [Text([c] + segs[0].text)] + segs[1..]
    else [Text([c])] + segs
  }

  /**
   * Cuts a template into segments. A failure carries the number of characters
   * from the offending colon to the end of the input, so that the lexer of a
   * suffix reports the same failure as the lexer of the whole template.
   */
  function Lex(s: string): (r: Result<seq<Segment>, nat>)
    ensures r.Failure? ==> 0 < r.error <= |s| && s[|s| - r.error] == ':'
    ensures r.Failure? ==> r.error == 1 || !IsNameChar(s[|s| - r.error + 1])
    decreases |s|
  {
    if s == [] then Success([])
    else if s[0] == '\\' && |s| >= 2 && s[1] == ':' then
      match Lex(s[2..])
      case Success(segs) => Success([EscapedColon] + segs)
      case Failure(k) =>
        FailureInSuffix(s, 2, k);
        Failure(k)
    else if s[0] == ':' then
      var n := NameLength(s[1..]);
      if n == 0 then Failure(|s|)
      else
        match Lex(s[1 + n..])
        case Success(segs) => Success([Param(s[1..1 + n])] + segs)
        case Failure(k) =>
          FailureInSuffix(s, 1 + n, k);
          Failure(k)
    else
      match Lex(s[1..])
      case Success(segs) => Success(PrependText(s[0], segs))
      case Failure(k) =>
        FailureInSuffix(s, 1, k);
        Failure(k)
  }

  /**
   * Every successful lex is well formed, and a leading text run starts with
   * the template's first character.
   */
  lemma {:induction false} LexWellFormed(s: string)
    requires Lex(s).Success?
    ensures WellFormed(Lex(s).value)
    ensures Lex(s).value != [] && Lex(s).value[0].Text? ==> s != [] && Lex(s).value[0].text[0] == s[0]
    decreases |s|
  {
    if s == [] {
    } else if s[0] == '\\' && |s| >= 2 && s[1] == ':' {
      LexEscape(s);
      LexWellFormed(s[2..]);
      ConsWellFormed(EscapedColon, Lex(s[2..]).value);
    } else if s[0] == ':' {
      var n := NameLength(s[1..]);
      LexParam(s);
      LexWellFormed(s[1 + n..]);
      ParamBoundary(s);
      ConsWellFormed(Param(s[1..1 + n]), Lex(s[1 + n..]).value);
    } else {
      LexLiteral(s);
      LexWellFormed(s[1..]);
      PrependTextWellFormed(s[0], Lex(s[1..]).value);
    }
  }

  /** The name of a parameter reference is an identifier that no name character follows. */
  lemma ParamBoundary(s: string)
    requires s != [] && s[0] == ':' && NameLength(s[1..]) > 0
    ensures IsName(s[1..1 + NameLength(s[1..])])
    ensures 1 + NameLength(s[1..]) == |s| || !IsNameChar(s[1 + NameLength(s[1..])..][0])
  {
  }

  /** Lexing a template that starts with an ordinary character. */
  lemma LexLiteral(s: string)
    requires s != [] && s[0] != ':' && !(s[0] == '\\' && |s| >= 2 && s[1] == ':') && Lex(s).Success?
    ensures Lex(s[1..]).Success? && Lex(s).value == PrependText(s[0], Lex(s[1..]).value)
  {
  }

  /** The colon a failed lex reports is never the second character of an escape `\:`. */
  lemma {:induction false} LexFailureNotEscaped(s: string)
    requires Lex(s).Failure?
    ensures |s| - Lex(s).error == 0 || s[|s| - Lex(s).error - 1] != '\\'
    decreases |s|
  {
    var d := LexFailureSuffix(s);
    if d > 0 {
      LexFailureNotEscaped(s[d..]);
      NotEscapedInSuffix(s, d, Lex(s).error);
    }
  }

  /**
   * Where a failed lex of `s` came from: either `s` starts with the offending
   * colon (`d == 0`), or the first step consumed `d` characters and the lex of
   * the rest failed at the same colon; the character before the rest is not a
   * backslash unless the rest fails further on.
   */
  lemma LexFailureSuffix(s: string) returns (d: nat)
    requires Lex(s).Failure?
    ensures d == 0 ==> Lex(s).error == |s|
    ensures d > 0 ==> d < |s| && Lex(s[d..]).Failure? && Lex(s[d..]).error == Lex(s).error
    ensures d > 0 && |s| - d - Lex(s).error == 0 ==> s[d - 1] != '\\'
  {
    if s[0] == '\\' && |s| >= 2 && s[1] == ':' {
      d := 2;
    } else if s[0] == ':' {
      var n := NameLength(s[1..]);
      d := if n == 0 then 0 else 1 + n;
    } else {
      d := 1;
    }
  }

  lemma NotEscapedInSuffix(s: string, d: nat, k: nat)
    requires 0 < d <= |s| && 0 < k <= |s| - d
    requires |s| - d - k == 0 || s[d..][|s| - d - k - 1] != '\\'
    requires |s| - d - k == 0 ==> s[d - 1] != '\\'
    ensures |s| - k == 0 || s[|s| - k - 1] != '\\'
  {
  }

  /** A failure the lexer of a suffix reports is at the same place in the whole input. */
  lemma FailureInSuffix(s: string, d: nat, k: nat)
    requires d <= |s| && 0 < k <= |s| - d
    requires s[d..][|s| - d - k] == ':'
    requires k == 1 || !IsNameChar(s[d..][|s| - d - k + 1])
    ensures s[|s| - k] == ':'
    ensures k == 1 || !IsNameChar(s[|s| - k + 1])
  {
  }

  lemma PrependTextWellFormed(c: char, segs: seq<Segment>)
    requires c != ':' && WellFormed(segs)
    ensures WellFormed(PrependText(c, segs))
    ensures PrependText(c, segs)[0].Text? && PrependText(c, segs)[0].text[0] == c
  {
    var r := PrependText(c, segs);
    if segs != [] && segs[0].Text? {
      assert forall i :: 1 <= i < |r| ==> r[i] == segs[i];
    } else {
      assert forall i :: 1 <= i < |r| ==> r[i] == segs[i - 1];
    }
  }

  lemma ConsWellFormed(seg: Segment, segs: seq<Segment>)
    requires !seg.Text? && WellFormed(segs)
    requires seg.Param? ==> IsName(seg.name)
    requires seg.Param? && segs != [] && segs[0].Text? ==> !IsNameChar(segs[0].text[0])
    ensures WellFormed([seg] + segs)
  {
    var r := [seg] + segs;
    assert forall i :: 1 <= i < |r| ==> r[i] == segs[i - 1];
  }

  /** The rewritten statement: driver-ready SQL and the parameter names in marker order. */
  datatype ParsedSql = ParsedSql(sql: string, parameterNames: seq<string>)

  function ParamNames(seg: Segment): seq<string> {
    if seg.Param? then [seg.name] else []
  }

  /**
   * The SQL and the parameter names a sequence of segments rewrites to. The
   * rewrite is never longer than the template text it comes from, and every
   * recorded name leaves a marker behind.
   */
  function Render(segs: seq<Segment>): (r: ParsedSql)
    ensures |r.parameterNames| <= |segs|
    ensures |r.sql| <= |SourceOf(segs)|
    ensures |r.parameterNames| <= |r.sql|
    decreases |segs|
  {
    if segs == [] then ParsedSql([], [])
    else
      var rest := Render(segs[1..]);
      ParsedSql(Emitted(segs[0]) + rest.sql, ParamNames(segs[0]) + rest.parameterNames)
  }

  /** A colon that is neither escaped nor followed by a parameter name. */
  datatype TemplateError = MalformedParameter(offset: nat)

  /** Rewrites a template: what `parse(src, ctx).getSql()` yields, with the parameter names. */
  function Parse(template: string): (r: Result<ParsedSql, TemplateError>)
    ensures r.Failure? ==> r.error.offset < |template| && template[r.error.offset] == ':'
    ensures r.Failure? ==>
      r.error.offset + 1 == |template| || !IsNameChar(template[r.error.offset + 1])
    ensures r.Failure? ==> r.error.offset == 0 || template[r.error.offset - 1] != '\\'
  {
    match Lex(template)
    case Success(segs) => Success(Render(segs))
    case Failure(k) =>
      LexFailureNotEscaped(template);
      Failure(MalformedParameter(|template| - k))
  }

  /**
   * The result of parsing a template whose first `consumed` characters produced
   * `sqlPrefix` and the names `names`, followed by the result for the rest.
   */
  function Then(sqlPrefix: string, names: seq<string>, consumed: nat,
                rest: Result<ParsedSql, TemplateError>): Result<ParsedSql, TemplateError>
  {
    match rest
    case Success(p) => Success(ParsedSql(sqlPrefix + p.sql, names + p.parameterNames))
    case Failure(e) => Failure(MalformedParameter(e.offset + consumed))
  }

  // ----- Lexing is lossless -----

  lemma {:induction false} SourceOfPrependText(c: char, segs: seq<Segment>)
    ensures SourceOf(PrependText(c, segs)) == [c] + SourceOf(segs)
  {
    if segs != [] && segs[0].Text? {
      var t := segs[0].text;
      SourceOfCons(Text([c] + t), segs[1..]);
      SourceOfCons(segs[0], segs[1..]);
      assert segs == [segs[0]] + segs[1..];
      assert ([c] + t) + SourceOf(segs[1..]) == [c] + (t + SourceOf(segs[1..]));
    } else {
      SourceOfCons(Text([c]), segs);
    }
  }

  /** Concatenating the source text of the segments gives back the template. */
  lemma {:induction false} LexLossless(s: string)
    requires Lex(s).Success?
    ensures SourceOf(Lex(s).value) == s
    decreases |s|
  {
    if s == [] {
    } else if s[0] == '\\' && |s| >= 2 && s[1] == ':' {
      LexLossless(s[2..]);
      LosslessEscape(s);
    } else if s[0] == ':' {
      LexLossless(s[1 + NameLength(s[1..])..]);
      LosslessParam(s);
    } else {
      LexLossless(s[1..]);
      LosslessLiteral(s);
    }
  }

  lemma LosslessEscape(s: string)
    requires |s| >= 2 && s[0] == '\\' && s[1] == ':' && Lex(s).Success?
    requires SourceOf(Lex(s[2..]).value) == s[2..]
    ensures SourceOf(Lex(s).value) == s
  {
    LexEscape(s);
    SourceOfCons(EscapedColon, Lex(s[2..]).value);
    SplitAfterEscape(s);
  }

  /** Lexing a template that starts with an escaped colon. */
  lemma LexEscape(s: string)
    requires |s| >= 2 && s[0] == '\\' && s[1] == ':' && Lex(s).Success?
    ensures Lex(s[2..]).Success? && Lex(s).value == [EscapedColon] + Lex(s[2..]).value
  {
  }

  lemma SplitAfterEscape(s: string)
    requires |s| >= 2 && s[0] == '\\' && s[1] == ':'
    ensures s == "\\:" + s[2..]
  {
  }

  lemma LosslessParam(s: string)
    requires s != [] && s[0] == ':' && Lex(s).Success?
    requires SourceOf(Lex(s[1 + NameLength(s[1..])..]).value) == s[1 + NameLength(s[1..])..]
    ensures SourceOf(Lex(s).value) == s
  {
    var n := NameLength(s[1..]);
    var name, rest := s[1..1 + n], s[1 + n..];
    LexParam(s);
    SourceOfCons(Param(name), Lex(rest).value);
    SplitAfterName(s, n);
  }

  lemma SplitAfterName(s: string, n: nat)
    requires s != [] && s[0] == ':' && 1 + n <= |s|
    ensures s == (":" + s[1..1 + n]) + s[1 + n..]
  {
  }

  /** Lexing a template that starts with a parameter reference. */
  lemma LexParam(s: string)
    requires s != [] && s[0] == ':' && Lex(s).Success?
    ensures NameLength(s[1..]) > 0 && Lex(s[1 + NameLength(s[1..])..]).Success?
    ensures Lex(s).value == [Param(s[1..1 + NameLength(s[1..])])] + Lex(s[1 + NameLength(s[1..])..]).value
  {
  }

  lemma SourceOfCons(seg: Segment, segs: seq<Segment>)
    ensures SourceOf([seg] + segs) == Source(seg) + SourceOf(segs)
  {
    assert ([seg] + segs)[1..] == segs;
  }

  lemma LosslessLiteral(s: string)
    requires s != [] && s[0] != ':' && !(s[0] == '\\' && |s| >= 2 && s[1] == ':') && Lex(s).Success?
    requires SourceOf(Lex(s[1..]).value) == s[1..]
    ensures SourceOf(Lex(s).value) == s
  {
    SourceOfPrependText(s[0], Lex(s[1..]).value);
    assert s == [s[0]] + s[1..];
  }

  // ----- One step of the scan, stated on Parse -----

  lemma RenderPrependText(c: char, segs: seq<Segment>)
    ensures Render(PrependText(c, segs)).sql == [c] + Render(segs).sql
    ensures Render(PrependText(c, segs)).parameterNames == Render(segs).parameterNames
  {
  }

  /** A character that starts neither a parameter nor an escape is copied. */
  lemma ParseLiteral(c: char, t: string)
    requires c != ':' && !(c == '\\' && t != [] && t[0] == ':')
    ensures Parse([c] + t) == Then([c], [], 1, Parse(t))
  {
    var s := [c] + t;
    assert s[1..] == t;
    match Lex(t)
    case Success(segs) =>
      RenderPrependText(c, segs);
      var q, p := Render(PrependText(c, segs)), Render(segs);
      assert [] + p.parameterNames == p.parameterNames;
      assert q == ParsedSql([c] + p.sql, [] + p.parameterNames);
    case Failure(k) =>
  }

  /** The escape `\:` yields one literal colon and no parameter. */
  lemma ParseEscapedColon(t: string)
    ensures Parse("\\:" + t) == Then(":", [], 2, Parse(t))
  {
    var s := "\\:" + t;
    assert s[2..] == t;
    match Lex(t)
    case Success(segs) =>
      assert Render([EscapedColon] + segs).sql == ":" + Render(segs).sql by {
        assert ([EscapedColon] + segs)[1..] == segs;
      }
    case Failure(k) =>
  }

  lemma {:induction false} NameLengthOfName(name: string, t: string)
    requires forall i :: 0 <= i < |name| ==> IsNameChar(name[i])
    requires t == [] || !IsNameChar(t[0])
    ensures NameLength(name + t) == |name|
    decreases |name|
  {
    if name != [] {
      assert (name + t)[1..] == name[1..] + t;
      NameLengthOfName(name[1..], t);
    }
  }

  /** `:name` becomes one marker, and the name ends before the first non-name character. */
  lemma ParseNamedParameter(name: string, t: string)
    requires IsName(name)
    requires t == [] || !IsNameChar(t[0])
    ensures Parse(":" + name + t) == Then("?", [name], 1 + |name|, Parse(t))
  {
    LexNamedParameter(name, t);
    match Lex(t)
    case Success(segs) =>
      RenderCons(Param(name), segs);
    case Failure(k) =>
  }

  lemma LexNamedParameter(name: string, t: string)
    requires IsName(name)
    requires t == [] || !IsNameChar(t[0])
    ensures Lex(":" + name + t) ==
      match Lex(t)
      case Success(segs) => Success([Param(name)] + segs)
      case Failure(k) => Failure(k)
  {
    NamedParameterPieces(name, t);
  }

  lemma NamedParameterPieces(name: string, t: string)
    requires IsName(name)
    requires t == [] || !IsNameChar(t[0])
    ensures var s := ":" + name + t;
      && s[0] == ':' && s[1..] == name + t && NameLength(s[1..]) == |name|
      && s[1..1 + |name|] == name && s[1 + |name|..] == t
  {
    var s := ":" + name + t;
    assert s[1..] == name + t;
    NameLengthOfName(name, t);
    assert s[1..1 + |name|] == name;
    assert s[1 + |name|..] == t;
  }

  lemma RenderCons(seg: Segment, segs: seq<Segment>)
    ensures Render([seg] + segs).sql == Emitted(seg) + Render(segs).sql
    ensures Render([seg] + segs).parameterNames == ParamNames(seg) + Render(segs).parameterNames
  {
    assert ([seg] + segs)[1..] == segs;
  }

  /** A colon not followed by a name character is rejected at its own offset. */
  lemma ParseBareColon(t: string)
    requires t == [] || !IsNameChar(t[0])
    ensures Parse(":" + t) == Failure(MalformedParameter(0))
  {
    var s := ":" + t;
    assert s[1..] == t;
  }

  /** Two consecutive steps that produce no parameter names combine into one. */
  lemma ThenText(a: string, b: string, x: Result<ParsedSql, TemplateError>)
    ensures Then(a, [], |a|, Then(b, [], |b|, x)) == Then(a + b, [], |a + b|, x)
  {
    match x
    case Success(q) =>
      assert [] + q.parameterNames == q.parameterNames;
      assert [] + ([] + q.parameterNames) == q.parameterNames;
      assert a + (b + q.sql) == (a + b) + q.sql;
    case Failure(e) =>
  }

  lemma ThenNothing(x: Result<ParsedSql, TemplateError>)
    ensures Then([], [], 0, x) == x
  {
    match x
    case Success(q) =>
      assert [] + q.parameterNames == q.parameterNames;
      assert [] + q.sql == q.sql;
    case Failure(e) =>
  }

  /** A colon-free run is copied verbatim, unless its last `\` would escape a following colon. */
  lemma {:induction false} ParsePlainText(p: string, t: string)
    requires ':' !in p
    requires p == [] || t == [] || p[|p| - 1] != '\\' || t[0] != ':'
    ensures Parse(p + t) == Then(p, [], |p|, Parse(t))
    decreases |p|
  {
    if p == [] {
      assert p + t == t;
      ThenNothing(Parse(t));
    } else {
      var rest := p[1..];
      PlainHead(p, t);
      ParsePlainText(rest, t);
      ThenText([p[0]], rest, Parse(t));
      assert [p[0]] + rest == p;
    }
  }

  /** The first character of a colon-free run is copied, and the rest of the run is again such a run. */
  lemma PlainHead(p: string, t: string)
    requires p != [] && ':' !in p
    requires t == [] || p[|p| - 1] != '\\' || t[0] != ':'
    ensures Parse(p + t) == Then([p[0]], [], 1, Parse(p[1..] + t))
    ensures ':' !in p[1..]
    ensures p[1..] == [] || t == [] || p[1..][|p[1..]| - 1] != '\\' || t[0] != ':'
  {
    var rest := p[1..];
    assert p + t == [p[0]] + (rest + t);
    assert p[0] in p;
    if rest != [] {
      assert rest[0] in p;
    }
    assert forall c :: c in rest ==> c in p;
    ParseLiteral(p[0], rest + t);
  }

  /** Two consecutive steps of the scan combine into one. */
  lemma ThenThen(x: string, xs: seq<string>, m: nat, y: string, ys: seq<string>, n: nat,
                 rest: Result<ParsedSql, TemplateError>)
    ensures Then(x, xs, m, Then(y, ys, n, rest)) == Then(x + y, xs + ys, m + n, rest)
  {
    match rest
    case Success(q) =>
      assert x + (y + q.sql) == (x + y) + q.sql;
      assert xs + (ys + q.parameterNames) == (xs + ys) + q.parameterNames;
    case Failure(e) =>
  }

  /**
   * The rewrite of a template whose first `consumed` characters rewrite to
   * `head`, followed by `rest`: a failure in the head is the failure of the
   * whole, otherwise the rewrite of the rest follows the head's.
   */
  function Append(consumed: nat, head: Result<ParsedSql, TemplateError>,
                  rest: Result<ParsedSql, TemplateError>): Result<ParsedSql, TemplateError> {
    if head.Failure? then head else Then(head.value.sql, head.value.parameterNames, consumed, rest)
  }

  /** A scan step in front of a composed rewrite gives a composed rewrite. */
  lemma ThenAppend(out: string, names: seq<string>, m: nat, n: nat,
                   head: Result<ParsedSql, TemplateError>, rest: Result<ParsedSql, TemplateError>)
    ensures Then(out, names, m, Append(n, head, rest)) == Append(m + n, Then(out, names, m, head), rest)
  {
    if head.Success? {
      ThenThen(out, names, m, head.value.sql, head.value.parameterNames, n, rest);
    }
  }

  /** The inductive step of `ParseAppend`, stated on the rewrites themselves. */
  lemma AppendStep(whole: Result<ParsedSql, TemplateError>, head: Result<ParsedSql, TemplateError>,
                   restWhole: Result<ParsedSql, TemplateError>, restHead: Result<ParsedSql, TemplateError>,
                   tail: Result<ParsedSql, TemplateError>, out: string, names: seq<string>, m: nat, n: nat, total: nat)
    requires total == m + n
    requires head == Then(out, names, m, restHead)
    requires whole == Then(out, names, m, restWhole)
    requires restWhole == Append(n, restHead, tail)
    ensures whole == Append(total, head, tail)
  {
    ThenAppend(out, names, m, n, restHead, tail);
  }

  /**
   * No scan step straddles the boundary between `a` and `t`: `t` does not
   * continue a parameter name, and a colon at its start is not escaped by a
   * `\` at the end of `a`.
   */
  predicate NoStraddle(a: string, t: string) {
    t == [] || (!IsNameChar(t[0]) && (t[0] != ':' || a == [] || a[|a| - 1] != '\\'))
  }

  /**
   * Rewriting is compositional at any boundary that no scan step straddles:
   * the rewrite of `a + t` is the rewrite of `a` followed by that of `t`.
   */
  lemma {:induction false} ParseAppend(a: string, t: string)
    requires NoStraddle(a, t)
    ensures Parse(a + t) == Append(|a|, Parse(a), Parse(t))
    decreases |a|
  {
    if a == [] {
      assert a + t == t;
      ThenNothing(Parse(t));
    } else if a[0] == '\\' && |a| >= 2 && a[1] == ':' {
      AppendEscape(a, t);
    } else if a[0] == ':' {
      if NameLength(a[1..]) == 0 {
        AppendBareColon(a, t);
      } else {
        AppendParameter(a, t);
      }
    } else {
      AppendLiteral(a, t);
    }
  }

  lemma {:induction false} AppendEscape(a: string, t: string)
    requires NoStraddle(a, t)
    requires |a| >= 2 && a[0] == '\\' && a[1] == ':'
    ensures Parse(a + t) == Append(|a|, Parse(a), Parse(t))
    decreases |a|, 0
  {
    var rest := a[2..];
    EscapeStep(a);
    EscapeBeforeAppend(a, t);
    EscapeStep(a + t);
    NoStraddleSuffix(a, 2, t);
    ParseAppend(rest, t);
    AppendStep(Parse(a + t), Parse(a), Parse(rest + t), Parse(rest), Parse(t), ":", [], 2, |rest|, |a|);
  }

  lemma AppendBareColon(a: string, t: string)
    requires NoStraddle(a, t)
    requires a != [] && a[0] == ':' && NameLength(a[1..]) == 0
    ensures Parse(a + t) == Append(|a|, Parse(a), Parse(t))
  {
    var rest := a[1..];
    assert a == ":" + rest;
    assert a + t == ":" + (rest + t);
    ParseBareColon(rest);
    ParseBareColon(rest + t);
  }

  lemma {:induction false} AppendParameter(a: string, t: string)
    requires NoStraddle(a, t)
    requires a != [] && a[0] == ':' && NameLength(a[1..]) > 0
    ensures Parse(a + t) == Append(|a|, Parse(a), Parse(t))
    decreases |a|, 0
  {
    var n := NameLength(a[1..]);
    var name, rest := a[1..1 + n], a[1 + n..];
    ParamStep(a);
    NameBeforeAppend(a, t);
    ParamStep(a + t);
    NoStraddleSuffix(a, 1 + n, t);
    ParseAppend(rest, t);
    AppendStep(Parse(a + t), Parse(a), Parse(rest + t), Parse(rest), Parse(t), "?", [name], 1 + n, |rest|, |a|);
  }

  lemma {:induction false} AppendLiteral(a: string, t: string)
    requires NoStraddle(a, t)
    requires a != [] && a[0] != ':' && !(a[0] == '\\' && |a| >= 2 && a[1] == ':')
    ensures Parse(a + t) == Append(|a|, Parse(a), Parse(t))
    decreases |a|, 0
  {
    var rest := a[1..];
    LiteralStep(a);
    LiteralBeforeAppend(a, t);
    LiteralStep(a + t);
    NoStraddleSuffix(a, 1, t);
    ParseAppend(rest, t);
    AppendStep(Parse(a + t), Parse(a), Parse(rest + t), Parse(rest), Parse(t), [a[0]], [], 1, |rest|, |a|);
  }

  /** A boundary that no scan step straddles stays so when `a` loses a prefix. */
  lemma NoStraddleSuffix(a: string, k: nat, t: string)
    requires k <= |a| && NoStraddle(a, t)
    ensures NoStraddle(a[k..], t)
  {
    if k < |a| {
      assert a[k..][|a[k..]| - 1] == a[|a| - 1];
    }
  }

  /** `ParseEscapedColon`, stated on a template that starts with `\:`. */
  lemma EscapeStep(s: string)
    requires |s| >= 2 && s[0] == '\\' && s[1] == ':'
    ensures Parse(s) == Then(":", [], 2, Parse(s[2..]))
  {
    assert s == "\\:" + s[2..];
    ParseEscapedColon(s[2..]);
  }

  /** Appending `t` does not lengthen the name of a leading parameter reference. */
  lemma NameBeforeAppend(a: string, t: string)
    requires t == [] || !IsNameChar(t[0])
    requires a != [] && a[0] == ':' && NameLength(a[1..]) > 0
    ensures var n := NameLength(a[1..]);
      && (a + t)[0] == ':' && NameLength((a + t)[1..]) == n
      && (a + t)[1..1 + n] == a[1..1 + n] && (a + t)[1 + n..] == a[1 + n..] + t
  {
    var n := NameLength(a[1..]);
    var name, rest := a[1..1 + n], a[1 + n..];
    ParamBoundary(a);
    assert rest == [] || !IsNameChar(rest[0]);
    NameLengthOfName(name, rest + t);
    assert (a + t)[1..] == name + (rest + t);
  }

  /** Appending `t` leaves a leading escape in place. */
  lemma EscapeBeforeAppend(a: string, t: string)
    requires |a| >= 2 && a[0] == '\\' && a[1] == ':'
    ensures |a + t| >= 2 && (a + t)[0] == '\\' && (a + t)[1] == ':' && (a + t)[2..] == a[2..] + t
  {
  }

  /** Appending `t` leaves a leading ordinary character ordinary. */
  lemma LiteralBeforeAppend(a: string, t: string)
    requires a != [] && a[0] != ':' && !(a[0] == '\\' && |a| >= 2 && a[1] == ':')
    requires t == [] || t[0] != ':' || a[|a| - 1] != '\\'
    ensures (a + t)[0] == a[0] && (a + t)[1..] == a[1..] + t
    ensures !((a + t)[0] == '\\' && |a + t| >= 2 && (a + t)[1] == ':')
  {
    if |a| == 1 {
      assert (a + t)[1..] == t;
    } else {
      assert (a + t)[1] == a[1];
    }
  }

  /** `ParseNamedParameter`, stated on a template that starts with `:name`. */
  lemma ParamStep(s: string)
    requires s != [] && s[0] == ':' && NameLength(s[1..]) > 0
    ensures var n := NameLength(s[1..]);
      Parse(s) == Then("?", [s[1..1 + n]], 1 + n, Parse(s[1 + n..]))
  {
    var n := NameLength(s[1..]);
    ParamBoundary(s);
    assert s == ":" + s[1..1 + n] + s[1 + n..];
    ParseNamedParameter(s[1..1 + n], s[1 + n..]);
  }

  /** `ParseLiteral`, stated on a template that starts with an ordinary character. */
  lemma LiteralStep(s: string)
    requires s != [] && s[0] != ':' && !(s[0] == '\\' && |s| >= 2 && s[1] == ':')
    ensures Parse(s) == Then([s[0]], [], 1, Parse(s[1..]))
  {
    assert s == [s[0]] + s[1..];
    ParseLiteral(s[0], s[1..]);
  }

  /**
   * An escape `\:` anywhere in a template contributes one literal colon and no
   * parameter name, between the rewrite of what precedes it and of what follows.
   */
  lemma ParseEscapeAnywhere(a: string, b: string)
    ensures Parse(a + ("\\:" + b)) ==
      if Parse(a).Failure? then Parse(a)
      else Then(Parse(a).value.sql + ":", Parse(a).value.parameterNames, |a| + 2, Parse(b))
  {
    ParseAppend(a, "\\:" + b);
    ParseEscapedColon(b);
    if Parse(a).Success? {
      var p := Parse(a).value;
      ThenThen(p.sql, p.parameterNames, |a|, ":", [], 2, Parse(b));
      assert p.parameterNames + [] == p.parameterNames;
    }
  }

  /**
   * A colon followed by no name character anywhere in a template, and not
   * escaped, makes the rewrite fail at that colon, unless it has already
   * failed earlier.
   */
  lemma BareColonAnywhere(a: string, t: string)
    requires a == [] || a[|a| - 1] != '\\'
    requires t == [] || !IsNameChar(t[0])
    ensures Parse(a + (":" + t)) ==
      if Parse(a).Failure? then Parse(a) else Failure(MalformedParameter(|a|))
  {
    ParseAppend(a, ":" + t);
    ParseBareColon(t);
  }

  lemma NoNames(sql: string)
    ensures Then(sql, [], |sql|, Success(ParsedSql([], []))) == Success(ParsedSql(sql, []))
  {
    var none: seq<string> := [];
    assert sql + [] == sql;
    assert none + none == none;
  }

  /** A template with no colon is a fixed point of the rewrite and has no parameters. */
  lemma PassThrough(s: string)
    requires ':' !in s
    ensures Parse(s) == Success(ParsedSql(s, []))
  {
    var empty: string := [];
    assert Parse(empty) == Success(ParsedSql([], []));
    calc {
      Parse(s);
      { assert s + empty == s; }
      Parse(s + empty);
      { ParsePlainText(s, empty); }
      Then(s, [], |s|, Parse(empty));
      Then(s, [], |s|, Success(ParsedSql([], [])));
      { NoNames(s); }
      Success(ParsedSql(s, []));
    }
  }

  lemma OneName(head: string, marker: string, name: string, rest: string)
    ensures Then(head, [], |head|, Then(marker, [name], |marker| + |name|, Success(ParsedSql(rest, [])))) ==
            Success(ParsedSql(head + (marker + rest), [name]))
  {
    var none: seq<string> := [];
    assert [name] + none == [name];
    assert none + [name] == [name];
  }

  lemma TwoColons(rest: string)
    ensures Then(":", [], 2, Then(":", [], 2, Success(ParsedSql(rest, []))) ) ==
            Success(ParsedSql("::" + rest, []))
  {
    var none: seq<string> := [];
    assert none + none == none;
    assert ":" + (":" + rest) == "::" + rest;
  }

  // ----- The three templates of TestEscapedCharacters -----

  lemma SimpleString()
    ensures Parse("hello, world") == Success(ParsedSql("hello, world", []))
  {
    PassThrough("hello, world");
  }

  lemma SimpleSql()
    ensures Parse("insert into foo (xyz) values (:bar)") ==
            Success(ParsedSql("insert into foo (xyz) values (?)", ["bar"]))
  {
    var head := "insert into foo (xyz) values (";
    var param := ":" + "bar" + ")";
    calc {
      Parse("insert into foo (xyz) values (:bar)");
      { assert "insert into foo (xyz) values (:bar)" == head + param; }
      Parse(head + param);
      { ParsePlainText(head, param); }
      Then(head, [], |head|, Parse(param));
      { ParseNamedParameter("bar", ")"); PassThrough(")"); }
      Then(head, [], |head|, Then("?", ["bar"], 4, Success(ParsedSql(")", []))));
      { OneName(head, "?", "bar", ")"); assert head + ("?" + ")") == "insert into foo (xyz) values (?)"; }
      Success(ParsedSql("insert into foo (xyz) values (?)", ["bar"]));
    }
  }

  /** The two escapes of the third template each leave one literal colon. */
  lemma EscapedCast(tail: string)
    requires ':' !in tail
    ensures Parse("\\:" + ("\\:" + tail)) == Success(ParsedSql("::" + tail, []))
  {
    var esc2 := "\\:" + tail;
    calc {
      Parse("\\:" + esc2);
      { ParseEscapedColon(esc2); }
      Then(":", [], 2, Parse(esc2));
      { ParseEscapedColon(tail); }
      Then(":", [], 2, Then(":", [], 2, Parse(tail)));
      { PassThrough(tail); }
      Then(":", [], 2, Then(":", [], 2, Success(ParsedSql(tail, []))));
      { TwoColons(tail); }
      Success(ParsedSql("::" + tail, []));
    }
  }

  /** `head:bar\:\:tail`, for colon-free `head` and `tail`, the shape of the third template. */
  lemma ParameterWithEscapedCast(head: string, tail: string)
    requires ':' !in head && ':' !in tail
    requires head == [] || head[|head| - 1] != '\\'
    ensures Parse(head + (":" + "bar" + ("\\:" + ("\\:" + tail)))) ==
            Success(ParsedSql(head + ("?" + ("::" + tail)), ["bar"]))
  {
    var esc1 := "\\:" + ("\\:" + tail);
    var param := ":" + "bar" + esc1;
    assert param[0] == ':';
    calc {
      Parse(head + param);
      { ParsePlainText(head, param); }
      Then(head, [], |head|, Parse(param));
      { assert IsName("bar"); ParseNamedParameter("bar", esc1); }
      Then(head, [], |head|, Then("?", ["bar"], 4, Parse(esc1)));
      { EscapedCast(tail); }
      Then(head, [], |head|, Then("?", ["bar"], 4, Success(ParsedSql("::" + tail, []))));
      { OneName(head, "?", "bar", "::" + tail); }
      Success(ParsedSql(head + ("?" + ("::" + tail)), ["bar"]));
    }
  }

  lemma EscapedSql()
    ensures Parse("insert into foo (xyz) values (:bar\\:\\:some_strange_type)") ==
            Success(ParsedSql("insert into foo (xyz) values (?::some_strange_type)", ["bar"]))
  {
    var head := "insert into foo (xyz) values (";
    var tail := "some_strange_type)";
    EscapedSqlTemplate(head, tail);
    EscapedSqlPiecesColonFree(head, tail);
    EscapedSqlRewrite(head, tail);
    ParameterWithEscapedCast(head, tail);
  }

  /** The third template, cut into the pieces `ParameterWithEscapedCast` speaks of. */
  lemma EscapedSqlTemplate(head: string, tail: string)
    requires head == "insert into foo (xyz) values (" && tail == "some_strange_type)"
    ensures "insert into foo (xyz) values (:bar\\:\\:some_strange_type)" == head + (":" + "bar" + ("\\:" + ("\\:" + tail)))
  {
  }

  lemma EscapedSqlPiecesColonFree(head: string, tail: string)
    requires head == "insert into foo (xyz) values (" && tail == "some_strange_type)"
    ensures ':' !in head && ':' !in tail && head[|head| - 1] != '\\'
  {
  }

  /** The rewrite of the third template, cut the same way. */
  lemma EscapedSqlRewrite(head: string, tail: string)
    requires head == "insert into foo (xyz) values (" && tail == "some_strange_type)"
    ensures "insert into foo (xyz) values (?::some_strange_type)" == head + ("?" + ("::" + tail))
  {
  }

  // ----- Markers and parameter names -----

  function Occurrences(c: char, s: string): nat
    decreases |s|
  {
    if s == [] then 0 else (if s[0] == c then 1 else 0) + Occurrences(c, s[1..])
  }

  lemma {:induction false} OccurrencesAppend(c: char, a: string, b: string)
    ensures Occurrences(c, a + b) == Occurrences(c, a) + Occurrences(c, b)
    decreases |a|
  {
    if a == [] {
      assert a + b == b;
    } else {
      assert (a + b)[1..] == a[1..] + b;
      OccurrencesAppend(c, a[1..], b);
    }
  }

  lemma {:induction false} OccurrencesInName(c: char, name: string)
    requires forall i :: 0 <= i < |name| ==> IsNameChar(name[i])
    requires !IsNameChar(c)
    ensures Occurrences(c, name) == 0
    decreases |name|
  {
    if name != [] {
      OccurrencesInName(c, name[1..]);
    }
  }

  /** The marker balance of a template and its rewrite. */
  ghost predicate MarkersBalanced(template: string, p: ParsedSql) {
    && Occurrences(':', template) == Occurrences(':', p.sql) + |p.parameterNames|
    && Occurrences('?', p.sql) == Occurrences('?', template) + |p.parameterNames|
  }

  /** A scan step whose own characters are balanced, before a balanced rest, keeps the whole rewrite balanced. */
  lemma StepBalanced(s: string, d: nat, out: string, names: seq<string>)
    requires 0 < d <= |s| && Parse(s[d..]).Success?
    requires Parse(s) == Then(out, names, d, Parse(s[d..]))
    requires MarkersBalanced(s[..d], ParsedSql(out, names))
    requires MarkersBalanced(s[d..], Parse(s[d..]).value)
    ensures Parse(s).Success? && MarkersBalanced(s, Parse(s).value)
  {
    var q := Parse(s[d..]).value;
    OccurrencesSplit(':', s, d);
    OccurrencesSplit('?', s, d);
    OccurrencesAppend(':', out, q.sql);
    OccurrencesAppend('?', out, q.sql);
  }

  lemma OccurrencesSplit(c: char, s: string, d: nat)
    requires d <= |s|
    ensures Occurrences(c, s) == Occurrences(c, s[..d]) + Occurrences(c, s[d..])
  {
    OccurrencesAppend(c, s[..d], s[d..]);
    assert s[..d] + s[d..] == s;
  }

  /**
   * The first step of a successful scan: it consumes the first `d` characters,
   * which rewrite to `out` with the names `names`, balanced and all
   * identifiers, and the rest of the template rewrites successfully on its own.
   */
  lemma FirstStep(s: string) returns (d: nat, out: string, names: seq<string>)
    requires s != [] && Parse(s).Success?
    ensures 0 < d <= |s| && Parse(s[d..]).Success?
    ensures Parse(s) == Then(out, names, d, Parse(s[d..]))
    ensures MarkersBalanced(s[..d], ParsedSql(out, names)) && AllNames(names)
  {
    if s[0] == '\\' && |s| >= 2 && s[1] == ':' {
      d, out, names := 2, ":", [];
      EscapeFirst(s);
    } else if s[0] == ':' {
      var n := NameLength(s[1..]);
      d, out, names := 1 + n, "?", [s[1..1 + n]];
      ParamFirst(s);
    } else {
      d, out, names := 1, [s[0]], [];
      LiteralFirst(s);
    }
  }

  lemma EscapeFirst(s: string)
    requires |s| >= 2 && s[0] == '\\' && s[1] == ':' && Parse(s).Success?
    ensures Parse(s[2..]).Success?
    ensures Parse(s) == Then(":", [], 2, Parse(s[2..]))
    ensures MarkersBalanced(s[..2], ParsedSql(":", []))
  {
    EscapeStep(s);
    assert s[..2] == "\\:";
    assert MarkersBalanced("\\:", ParsedSql(":", []));
  }

  lemma ParamFirst(s: string)
    requires s != [] && s[0] == ':' && Parse(s).Success?
    ensures var n := NameLength(s[1..]);
      && n > 0 && Parse(s[1 + n..]).Success?
      && Parse(s) == Then("?", [s[1..1 + n]], 1 + n, Parse(s[1 + n..]))
      && MarkersBalanced(s[..1 + n], ParsedSql("?", [s[1..1 + n]]))
      && AllNames([s[1..1 + n]])
  {
    LexParam(s);
    var n := NameLength(s[1..]);
    ParamStep(s);
    ParamBoundary(s);
    ParamPrefix(s, n);
    NameBalanced(s[1..1 + n]);
  }

  lemma ParamPrefix(s: string, n: nat)
    requires s != [] && s[0] == ':' && 1 + n <= |s|
    ensures s[..1 + n] == ":" + s[1..1 + n]
  {
  }

  lemma LiteralFirst(s: string)
    requires s != [] && s[0] != ':' && !(s[0] == '\\' && |s| >= 2 && s[1] == ':') && Parse(s).Success?
    ensures Parse(s[1..]).Success?
    ensures Parse(s) == Then([s[0]], [], 1, Parse(s[1..]))
    ensures MarkersBalanced(s[..1], ParsedSql([s[0]], []))
  {
    LiteralStep(s);
    assert s[..1] == [s[0]];
    assert MarkersBalanced([s[0]], ParsedSql([s[0]], []));
  }

  lemma NameBalanced(name: string)
    requires IsName(name)
    ensures MarkersBalanced(":" + name, ParsedSql("?", [name]))
  {
    OccurrencesInName(':', name);
    OccurrencesInName('?', name);
    OccurrencesAppend(':', ":", name);
    OccurrencesAppend('?', ":", name);
  }

  /**
   * Every parameter reference consumes one `:` and produces one `?`; every
   * other colon of the template (an escaped one) survives in the output.
   */
  lemma {:induction false} ParseCountsMarkers(s: string)
    requires Parse(s).Success?
    ensures Occurrences(':', s) == Occurrences(':', Parse(s).value.sql) + |Parse(s).value.parameterNames|
    ensures Occurrences('?', Parse(s).value.sql) == Occurrences('?', s) + |Parse(s).value.parameterNames|
    decreases |s|
  {
    if s != [] {
      var d, out, names := FirstStep(s);
      ParseCountsMarkers(s[d..]);
      StepBalanced(s, d, out, names);
    }
  }

  /**
   * In a template without positional markers of its own, there is exactly one
   * `?` in the rewrite per recorded parameter name.
   */
  lemma PositionalMarkersMatchNames(s: string)
    requires Parse(s).Success? && '?' !in s
    ensures Occurrences('?', Parse(s).value.sql) == |Parse(s).value.parameterNames|
  {
    ParseCountsMarkers(s);
    OccurrencesAbsent('?', s);
  }

  lemma {:induction false} OccurrencesAbsent(c: char, s: string)
    requires c !in s
    ensures Occurrences(c, s) == 0
    decreases |s|
  {
    if s != [] {
      assert forall x :: x in s[1..] ==> x in s;
      OccurrencesAbsent(c, s[1..]);
    }
  }

  /** Every parameter name reported is a non-empty identifier. */
  lemma {:induction false} ParameterNamesAreNames(s: string)
    requires Parse(s).Success?
    ensures AllNames(Parse(s).value.parameterNames)
    decreases |s|
  {
    if s != [] {
      var d, out, names := FirstStep(s);
      ParameterNamesAreNames(s[d..]);
      NamesAfter(names, Parse(s[d..]).value.parameterNames);
    }
  }

  predicate AllNames(names: seq<string>) {
    forall i :: 0 <= i < |names| ==> IsName(names[i])
  }

  lemma NamesAfter(first: seq<string>, names: seq<string>)
    requires AllNames(first) && AllNames(names)
    ensures AllNames(first + names)
  {
    assert forall i :: |first| <= i < |first + names| ==> (first + names)[i] == names[i - |first|];
  }
}
