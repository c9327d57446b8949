/**
 * The route language of lex_yacc4.py: its tokens, the labelled FILTER
 * tokens the lexer produces, and a hand-written parser for the grammar
 *
 *   branch : '(' pipe ')'
 *   pipe   : FILTER | pipe '>>>' FILTER | pipe '>>>' branch FILTER
 *
 * whose syntax tree mirrors the three `pipe` productions.
 */
module RouteSyntax {
  import opened Errors
  import opened Strings

  // =====================================================================
  // Tokens

  /** `nondigit`: the chars a FILTER token may start with. */
  predicate IsNameStart(c: char)
  {
    c == '_' || IsUpper(c) || IsLower(c) || c == '.' || c == ':' || c == '-' ||
    c == '%' || c == '$' || c == '{' || c == '}'
  }

  /** `digit | nondigit`: the chars a FILTER token continues with. */
  predicate IsNameChar(c: char) { IsNameStart(c) || IsDigit(c) }

  /** A FILTER token as the lexer rewrites it: its label and its text. */
  datatype Filt = Filt(num: nat, name: string)

  datatype Tok = Filter(f: Filt) | LParen | RParen | JoinTo

  predicate IsName(s: string)
  {
    |s| > 0 && IsNameStart(s[0]) && forall i :: 0 <= i < |s| ==> IsNameChar(s[i])
  }

  /** Length of the leading run of name chars (the greedy FILTER match). */
  function NameLen(s: string): (n: nat)
    ensures n <= |s|
    ensures forall i :: 0 <= i < n ==> IsNameChar(s[i])
    ensures n < |s| ==> !IsNameChar(s[n])
    decreases |s|
  {
    if |s| == 0 || !IsNameChar(s[0]) then 0 else 1 + NameLen(s[1..])
  }

  /** Length of a `#.*` comment: up to, not including, the next newline. */
  function CommentLen(s: string): (n: nat)
    ensures n <= |s|
    ensures forall i :: 0 <= i < n ==> s[i] != '\n'
    ensures n < |s| ==> s[n] == '\n'
    decreases |s|
  {
    if |s| == 0 || s[0] == '\n' then 0 else 1 + CommentLen(s[1..])
  }

  /** One lexer step: the tokens emitted, the chars consumed, the counter after. */
  datatype Scan = Scan(toks: seq<Tok>, width: nat, next: nat)

  /**
   * The token rule that matches at the head of a non-empty input: t_FILTER
   * takes the longest name and labels it with the counter plus 10, a `#`
   * comment runs to the end of its line, a blank, tab or newline is skipped,
   * `>>>`, `(` and `)` are tokens; None when no rule matches (t_error).
   */
  function ScanHead(s: string, counter: nat): (r: Option<Scan>)
    requires |s| > 0
    ensures r.Some? ==> 0 < r.value.width <= |s| && |r.value.toks| <= 1
    ensures r.Some? && r.value.toks == [] ==> r.value.next == counter
    ensures r.Some? && r.value.toks != [] && r.value.toks[0].Filter? ==>
      r.value.next == counter + 10 && r.value.toks[0].f.num == counter + 10 && IsName(r.value.toks[0].f.name)
    ensures r.Some? && r.value.toks != [] && !r.value.toks[0].Filter? ==> r.value.next == counter
    ensures r.None? <==> !IsNameStart(s[0]) && s[0] !in "# \t\n()" && !StartsWith(s, ">>>")
  {
    var c := s[0];
    if IsNameStart(c) then
      var n := NameLen(s);
      Some(Scan([Filter(Filt(counter + 10, s[..n]))], n, counter + 10))
    else if c == '#' then Some(Scan([], CommentLen(s), counter))
    else if c == ' ' || c == '\t' || c == '\n' then Some(Scan([], 1, counter))
    else if StartsWith(s, ">>>") then Some(Scan([JoinTo], 3, counter))
    else if c == '(' then Some(Scan([LParen], 1, counter))
    else if c == ')' then Some(Scan([RParen], 1, counter))
    else None
  }

  /**
   * The lexer: the token rules applied from the left until the input is
   * used up; an illegal char stops it with SyntaxError (t_error raises).
   */
  function Lex(s: string, counter: nat): (r: Result<seq<Tok>>)
    ensures r.Err? ==> r.error == SyntaxError
    decreases |s|
  {
    if |s| == 0 then Ok([])
    else
      match ScanHead(s, counter)
      case None => Err(SyntaxError)
      case Some(sc) =>
        match Lex(s[sc.width..], sc.next)
        case Ok(rest) => Ok(sc.toks + rest)
        case Err(e) => Err(e)
  }

  /** The FILTER tokens of a token list, in order. */
  function FilterToks(toks: seq<Tok>): (fs: seq<Filt>)
    ensures |fs| <= |toks|
    decreases |toks|
  {
    if |toks| == 0 then []
    else (if toks[0].Filter? then [toks[0].f] else []) + FilterToks(toks[1..])
  }

  lemma {:induction false} FilterToksAppend(a: seq<Tok>, b: seq<Tok>)
    ensures FilterToks(a + b) == FilterToks(a) + FilterToks(b)
    decreases |a|
  {
    if |a| == 0 {
      assert a + b == b;
    } else {
      assert (a + b)[0] == a[0];
      assert (a + b)[1..] == a[1..] + b;
      FilterToksAppend(a[1..], b);
    }
  }

  /** Labels that step by 10 from `counter`, as the token counter hands them out. */
  predicate Numbered(fs: seq<Filt>, counter: nat)
  {
    forall i :: 0 <= i < |fs| ==> fs[i].num == counter + 10 * (i + 1)
  }

  /** Every FILTER token is a name, labelled 10 more than the one before. */
  lemma {:induction false} LexLabels(s: string, counter: nat)
    requires Lex(s, counter).Ok?
    ensures Numbered(FilterToks(Lex(s, counter).value), counter)
    ensures forall i :: 0 <= i < |FilterToks(Lex(s, counter).value)| ==> IsName(FilterToks(Lex(s, counter).value)[i].name)
    decreases |s|
  {
    if |s| == 0 { return; }
    var sc := ScanHead(s, counter).value;
    LexLabels(s[sc.width..], sc.next);
    var rest := Lex(s[sc.width..], sc.next).value;
    FilterToksAppend(sc.toks, rest);
    if sc.toks != [] {
      assert sc.toks == [sc.toks[0]];
      assert sc.toks[1..] == [];
    }
  }

  /** A `#` comment up to the end of its line produces no tokens. */
  lemma CommentSkipped(c: string, rest: string, counter: nat)
    requires '\n' !in c
    ensures Lex("#" + c + "\n" + rest, counter) == Lex(rest, counter)
  {
    var s := "#" + c + "\n" + rest;
    assert CommentLen(s) == |c| + 1 by { CommentRun(s, |c| + 1); }
    assert s[|c| + 1..] == "\n" + rest;
    assert ("\n" + rest)[1..] == rest;
    assert ScanHead(s, counter) == Some(Scan([], |c| + 1, counter));
    assert ScanHead("\n" + rest, counter) == Some(Scan([], 1, counter));
    if Lex(rest, counter).Ok? {
      var v := Lex(rest, counter).value;
      assert [] + v == v;
      assert Lex("\n" + rest, counter) == Ok(v);
    }
  }

  lemma {:induction false} CommentRun(s: string, n: nat)
    requires n < |s| && s[n] == '\n' && forall i :: 0 <= i < n ==> s[i] != '\n'
    ensures CommentLen(s) == n
    decreases n
  {
    if n > 0 { CommentRun(s[1..], n - 1); }
  }

  // =====================================================================
  // Syntax tree

  /** A `pipe`, built exactly as the three productions build it. */
  datatype Pipe =
    | One(f: Filt)                            // pipe : FILTER
    | Then(p: Pipe, f: Filt)                  // pipe : pipe '>>>' FILTER
    | Fork(p: Pipe, inner: Pipe, f: Filt)     // pipe : pipe '>>>' branch FILTER

  function First(p: Pipe): Filt
  {
    match p
    case One(f) => f
    case Then(q, _) => First(q)
    case Fork(q, _, _) => First(q)
  }

  function Last(p: Pipe): Filt { p.f }

  /** The FILTERs of a pipe in reading order, branch contents included. */
  function Filters(p: Pipe): (fs: seq<Filt>)
    ensures |fs| > 0 && fs[0] == First(p) && fs[|fs| - 1] == Last(p)
  {
    match p
    case One(f) => [f]
    case Then(q, f) => Filters(q) + [f]
    case Fork(q, inner, f) => Filters(q) + Filters(inner) + [f]
  }

  /** The number of branches (forks) in a pipe, nested ones included. */
  function Forks(p: Pipe): nat
  {
    match p
    case One(_) => 0
    case Then(q, _) => Forks(q)
    case Fork(q, inner, _) => Forks(q) + 1 + Forks(inner)
  }

  /** The tokens a pipe is read from. */
  function Tokens(p: Pipe): (ts: seq<Tok>)
    ensures |ts| > 0 && ts[0] == Filter(First(p))
  {
    match p
    case One(f) => [Filter(f)]
    case Then(q, f) => Tokens(q) + [JoinTo, Filter(f)]
    case Fork(q, inner, f) => Tokens(q) + [JoinTo, LParen] + Tokens(inner) + [RParen, Filter(f)]
  }

  lemma {:induction false} TokensFilters(p: Pipe)
    ensures FilterToks(Tokens(p)) == Filters(p)
  {
    match p {
      case One(f) =>
      case Then(q, f) =>
        TokensFilters(q);
        FilterToksAppend(Tokens(q), [JoinTo, Filter(f)]);
      case Fork(q, inner, f) =>
        TokensFilters(q);
        TokensFilters(inner);
        FilterToksAppend(Tokens(q), [JoinTo, LParen]);
        FilterToksAppend(Tokens(q) + [JoinTo, LParen], Tokens(inner));
        FilterToksAppend(Tokens(q) + [JoinTo, LParen] + Tokens(inner), [RParen, Filter(f)]);
    }
  }

  // =====================================================================
  // Parser

  /** `pipe` at the head of the tokens: the tree and the tokens after it. */
  function ParsePipe(toks: seq<Tok>): (r: Result<(Pipe, seq<Tok>)>)
    ensures r.Ok? ==> |r.value.1| < |toks|
    ensures r.Err? ==> r.error == SyntaxError
    decreases |toks|, 1
  {
    if |toks| > 0 && toks[0].Filter? then ParseRest(toks[1..], One(toks[0].f))
    else Err(SyntaxError)
  }

  /**
   * The left-recursive productions, read as a loop: while `>>>` follows,
   * extend the pipe read so far with a FILTER or with a branch and FILTER.
   */
  function ParseRest(toks: seq<Tok>, acc: Pipe): (r: Result<(Pipe, seq<Tok>)>)
    ensures r.Ok? ==> |r.value.1| <= |toks|
    ensures r.Err? ==> r.error == SyntaxError
    decreases |toks|, 0
  {
    if |toks| > 0 && toks[0] == JoinTo then
      if |toks| > 1 && toks[1].Filter? then
        ParseRest(toks[2..], Then(acc, toks[1].f))
      else if |toks| > 1 && toks[1] == LParen then
        match ParsePipe(toks[2..])
        case Err(e) => Err(e)
        case Ok((inner, rest)) =>
          if |rest| > 1 && rest[0] == RParen && rest[1].Filter? then
            ParseRest(rest[2..], Fork(acc, inner, rest[1].f))
          else Err(SyntaxError)
      else Err(SyntaxError)
    else Ok((acc, toks))
  }

  /** The start symbol `branch`, which must take every token (p_error otherwise). */
  function ParseBranch(toks: seq<Tok>): (r: Result<Pipe>)
    ensures r.Err? ==> r.error == SyntaxError
  {
    if |toks| > 0 && toks[0] == LParen then
      match ParsePipe(toks[1..])
      case Err(e) => Err(e)
      case Ok((p, rest)) => if rest == [RParen] then Ok(p) else Err(SyntaxError)
    else Err(SyntaxError)
  }

  /** The tokens of a fork, grouped from the right. */
  lemma ForkTokensSplit(q: Pipe, inner: Pipe, f: Filt, rest: seq<Tok>)
    ensures Tokens(Fork(q, inner, f)) + rest
         == Tokens(q) + ([JoinTo, LParen] + (Tokens(inner) + ([RParen, Filter(f)] + rest)))
  {
    var a, b, c, d := Tokens(q), [JoinTo, LParen], Tokens(inner), [RParen, Filter(f)];
    ConcatAssoc(a + b + c, d, rest);
    ConcatAssoc(a + b, c, d + rest);
    ConcatAssoc(a, b, c + (d + rest));
  }

  /** Reading a pipe's own tokens gives the pipe back, whatever follows them. */
  lemma {:induction false} ParseTokens(p: Pipe, rest: seq<Tok>)
    ensures ParsePipe(Tokens(p) + rest) == ParseRest(rest, p)
    decreases p, 1
  {
    match p {
      case One(f) =>
        assert ([Filter(f)] + rest)[1..] == rest;
      case Then(q, f) =>
        ParseTokensThen(q, f, rest);
      case Fork(q, inner, f) =>
        ParseTokensFork(q, inner, f, rest);
    }
  }

  lemma {:induction false} ParseTokensThen(q: Pipe, f: Filt, rest: seq<Tok>)
    ensures ParsePipe(Tokens(Then(q, f)) + rest) == ParseRest(rest, Then(q, f))
    decreases Then(q, f), 0
  {
    var x := [JoinTo, Filter(f)] + rest;
    ConcatAssoc(Tokens(q), [JoinTo, Filter(f)], rest);
    ParseTokens(q, x);
    assert x[2..] == rest;
  }

  lemma {:induction false} ParseTokensFork(q: Pipe, inner: Pipe, f: Filt, rest: seq<Tok>)
    ensures ParsePipe(Tokens(Fork(q, inner, f)) + rest) == ParseRest(rest, Fork(q, inner, f))
    decreases Fork(q, inner, f), 0
  {
    var y := [RParen, Filter(f)] + rest;
    var x := [JoinTo, LParen] + (Tokens(inner) + y);
    ForkTokensSplit(q, inner, f, rest);
    ParseTokens(q, x);
    assert x[2..] == Tokens(inner) + y;
    ParseTokens(inner, y);
    assert ParseRest(y, inner) == Ok((inner, y));
    assert y[2..] == rest;
  }

  /** What the parser accepts is some pipe's tokens, then the tokens it leaves. */
  lemma {:induction false} ParsedTokens(toks: seq<Tok>)
    requires ParsePipe(toks).Ok?
    ensures var (p, rest) := ParsePipe(toks).value; toks == Tokens(p) + rest
    decreases |toks|, 2
  {
    RestTokens(toks[1..], One(toks[0].f));
    assert toks == [toks[0]] + toks[1..];
  }

  lemma {:induction false} RestTokens(toks: seq<Tok>, acc: Pipe)
    requires ParseRest(toks, acc).Ok?
    ensures var (p, rest) := ParseRest(toks, acc).value; Tokens(acc) + toks == Tokens(p) + rest
    decreases |toks|, 1
  {
    if |toks| > 0 && toks[0] == JoinTo {
      if |toks| > 1 && toks[1].Filter? {
        RestTokensThen(toks, acc);
      } else {
        RestTokensFork(toks, acc);
      }
    }
  }

  lemma {:induction false} RestTokensThen(toks: seq<Tok>, acc: Pipe)
    requires |toks| > 1 && toks[0] == JoinTo && toks[1].Filter?
    requires ParseRest(toks, acc).Ok?
    ensures var (p, rest) := ParseRest(toks, acc).value; Tokens(acc) + toks == Tokens(p) + rest
    decreases |toks|, 0
  {
    var f := toks[1].f;
    RestTokens(toks[2..], Then(acc, f));
    assert toks == [JoinTo, Filter(f)] + toks[2..];
    ConcatAssoc(Tokens(acc), [JoinTo, Filter(f)], toks[2..]);
  }

  lemma {:induction false} RestTokensFork(toks: seq<Tok>, acc: Pipe)
    requires |toks| > 1 && toks[0] == JoinTo && !toks[1].Filter?
    requires ParseRest(toks, acc).Ok?
    ensures var (p, rest) := ParseRest(toks, acc).value; Tokens(acc) + toks == Tokens(p) + rest
    decreases |toks|, 0
  {
    assert toks[1] == LParen && ParsePipe(toks[2..]).Ok?;
    ParsedTokens(toks[2..]);
    var (inner, y) := ParsePipe(toks[2..]).value;
    assert |y| > 1 && y[0] == RParen && y[1].Filter?;
    var f := y[1].f;
    RestTokens(y[2..], Fork(acc, inner, f));
    assert y == [RParen, Filter(f)] + y[2..];
    assert toks == [JoinTo, LParen] + (Tokens(inner) + y);
    ForkTokensSplit(acc, inner, f, y[2..]);
  }

  /**
   * The parser is exact: it accepts a token list if and only if the list is
   * `(`, the tokens of some pipe, and `)`, and then returns that pipe.
   */
  lemma ParseBranchExact(toks: seq<Tok>, p: Pipe)
    ensures ParseBranch(toks) == Ok(p) <==> toks == [LParen] + Tokens(p) + [RParen]
  {
    ConcatAssoc([LParen], Tokens(p), [RParen]);
    if ParseBranch(toks) == Ok(p) {
      ParsedTokens(toks[1..]);
      assert toks == [LParen] + toks[1..];
    }
    if toks == [LParen] + Tokens(p) + [RParen] {
      assert toks[1..] == Tokens(p) + [RParen];
      ParseTokens(p, [RParen]);
    }
  }

  /** The parse tree keeps the FILTER tokens, in order. */
  lemma ParseBranchFilters(toks: seq<Tok>)
    requires ParseBranch(toks).Ok?
    ensures Filters(ParseBranch(toks).value) == FilterToks(toks)
  {
    var p := ParseBranch(toks).value;
    ParseBranchExact(toks, p);
    TokensFilters(p);
    FilterToksAppend([LParen], Tokens(p));
    FilterToksAppend([LParen] + Tokens(p), [RParen]);
  }
}
