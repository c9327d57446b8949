/**
 * lex_yacc4.py's pipeline_for_print: a labelled route, one word per line,
 * each line indented by four blanks per open branch and, unless the word
 * closes a branch, followed by ` >>>`; the last line loses its arrow.
 */
module RoutePrint {
  import opened Errors
  import opened Strings
  import FilterUtils

  const BaseIndent: int := 4

  /** The number of times `c` occurs in `w`. */
  function Count(w: string, c: char): (n: nat)
    ensures n <= |w|
  {
    if |w| == 0 then 0 else (if w[0] == c then 1 else 0) + Count(w[1..], c)
  }

  lemma CountSnoc(w: string, c: char, i: nat)
    requires i < |w|
    ensures Count(w[..i + 1], c) == Count(w[..i], c) + (if w[i] == c then 1 else 0)
    decreases i
  {
    if i > 0 {
      assert w[..i + 1][1..] == w[1..][..i];
      assert w[..i][1..] == w[1..][..i - 1];
      CountSnoc(w[1..], c, i - 1);
    }
  }

  /**
   * The source's `while c in txt: ...; txt = txt.replace(c, marker, 1)`:
   * one step per occurrence of `c`, each adding `step` to `level`.
   */
  method CountSteps(w: string, c: char, level: int, step: int) returns (r: int)
    ensures r == Shift(level, w, c, step)
  {
    r := level;
    var i := 0;
    while i < |w|
      invariant 0 <= i <= |w|
      invariant r == level + step * Count(w[..i], c)
    {
      CountSnoc(w, c, i);
      if w[i] == c {
        r := r + step;
      }
      i := i + 1;
    }
    assert w[..|w|] == w;
  }

  /** `level` moved by `step` for every `c` in `w`. */
  function Shift(level: int, w: string, c: char, step: int): int
  {
    level + step * Count(w, c)
  }

  /** `' ' * n`, empty for n <= 0. */
  function Spaces(n: int): (s: string)
    ensures |s| == (if n < 0 then 0 else n)
    ensures forall k :: 0 <= k < |s| ==> s[k] == ' '
    decreases if n < 0 then 0 else n
  {
    if n <= 0 then "" else " " + Spaces(n - 1)
  }

  /** A word that does not close a branch gets ` >>>`. */
  function Arrowed(w: string): string
  {
    if EndsWith(w, ")") then w else w + " >>>"
  }

  /** One printed line: a word opening a branch is pulled one column left. */
  function Line(w: string, indent: int): string
  {
    var extra := if indent > 0 && StartsWith(w, "(") then BaseIndent - 1 else BaseIndent;
    Spaces(indent + extra) + FilterUtils.StripPrefix(Some(Arrowed(w)), '~').value
  }

  /** The lines for `ws` when the first is read at `indent`. */
  function Render(ws: seq<string>, indent: int): (ls: seq<string>)
    ensures |ls| == |ws|
    decreases |ws|
  {
    if ws == [] then []
    else
      var level := Shift(indent, ws[0], '(', BaseIndent);
      [Line(ws[0], level)] + Render(ws[1..], Shift(level, ws[0], ')', -BaseIndent))
  }

  /** `s[:-4]` */
  function DropLast4(s: string): (r: string)
    ensures |s| >= 4 ==> r == s[..|s| - 4]
    ensures |s| < 4 ==> r == ""
  {
    if |s| >= 4 then s[..|s| - 4] else ""
  }

  /** pipeline_for_print as a function: IndexError for a route with no word. */
  function PrintLines(route: string): (r: Result<seq<string>>)
  {
    var ls := Render(SplitWs(route), 0);
    if ls == [] then Err(IndexError)
    else Ok(ls[..|ls| - 1] + [DropLast4(ls[|ls| - 1])])
  }

  lemma RenderStep(ws: seq<string>, i: nat, indent: int, level: int, next: int)
    requires i < |ws|
    requires level == Shift(indent, ws[i], '(', BaseIndent)
    requires next == Shift(level, ws[i], ')', -BaseIndent)
    ensures Render(ws[i..], indent) == [Line(ws[i], level)] + Render(ws[i + 1..], next)
  {
    assert ws[i..][0] == ws[i] && ws[i..][1..] == ws[i + 1..];
  }

  lemma LoopStep(done: seq<string>, line: string, rest: seq<string>, whole: seq<string>)
    requires done + ([line] + rest) == whole
    ensures (done + [line]) + rest == whole
  {
    ConcatAssoc(done, [line], rest);
  }

  /** The loop of pipeline_for_print over the words of the route. */
  method PipelineForPrint(prefixedRoute: string) returns (r: Result<seq<string>>)
    ensures r == PrintLines(prefixedRoute)
  {
    var ws := SplitWs(prefixedRoute);
    var result: seq<string> := [];
    var indent := 0;
    for i := 0 to |ws|
      invariant result + Render(ws[i..], indent) == Render(ws, 0)
    {
      var txt := ws[i];
      var level := CountSteps(txt, '(', indent, BaseIndent);
      var next := CountSteps(txt, ')', level, -BaseIndent);
      RenderStep(ws, i, indent, level, next);
      var line := Line(txt, level);
      LoopStep(result, line, Render(ws[i + 1..], next), Render(ws, 0));
      result := result + [line];
      indent := next;
    }
    assert ws[|ws|..] == [] && result + [] == result;
    if result == [] {
      return Err(IndexError);
    }
    r := Ok(result[..|result| - 1] + [DropLast4(result[|result| - 1])]);
  }

  // =====================================================================
  // What the lines show

  /** The opening parentheses of ws[..n] less the closing ones of ws[..m]. */
  function Opens(ws: seq<string>): int
  {
    if ws == [] then 0 else Count(ws[0], '(') + Opens(ws[1..])
  }

  function Closes(ws: seq<string>): int
  {
    if ws == [] then 0 else Count(ws[0], ')') + Closes(ws[1..])
  }

  /** The indent of word i: `indent` plus four for every branch open at it. */
  function Level(ws: seq<string>, i: nat, indent: int): int
    requires i < |ws|
  {
    indent + BaseIndent * (Opens(ws[..i + 1]) - Closes(ws[..i]))
  }

  /**
   * Line i is indented by four blanks for every branch open at word i: the
   * parentheses opened up to and including it, less those closed before it.
   */
  lemma {:induction false} RenderIndent(ws: seq<string>, indent: int, i: nat)
    requires i < |ws|
    ensures Render(ws, indent)[i] == Line(ws[i], Level(ws, i, indent))
    decreases i
  {
    if i > 0 {
      var level := Shift(indent, ws[0], '(', BaseIndent);
      RenderIndent(ws[1..], Shift(level, ws[0], ')', -BaseIndent), i - 1);
      assert ws[..i + 1] == [ws[0]] + ws[1..][..i];
      assert ws[..i] == [ws[0]] + ws[1..][..i - 1];
      assert ws[..i + 1][1..] == ws[1..][..i];
      assert ws[..i][1..] == ws[1..][..i - 1];
      assert Level(ws, i, indent) == Level(ws[1..], i - 1, Shift(level, ws[0], ')', -BaseIndent));
    } else {
      assert ws[..1] == [ws[0]] && [ws[0]][1..] == [] && ws[..0] == [];
      assert Opens(ws[..1]) == Count(ws[0], '(') + Opens([]);
      assert Level(ws, 0, indent) == Shift(indent, ws[0], '(', BaseIndent);
    }
  }

  /** A word with at most one '~' (a label and a name, or a bare word). */
  predicate OneLabel(w: string)
  {
    |Split(w, '~')| <= 2
  }

  lemma {:induction false} SplitAppend(w: string, t: string, sep: char)
    requires sep !in t
    ensures var ps := Split(w, sep);
      Split(w + t, sep) == ps[..|ps| - 1] + [ps[|ps| - 1] + t]
    decreases |w|
  {
    if |w| == 0 {
      assert w + t == t;
      SplitHead(t, sep);
    } else {
      assert (w + t)[0] == w[0];
      assert (w + t)[1..] == w[1..] + t;
      SplitAppend(w[1..], t, sep);
      if w[0] != sep {
        SplitAppendCons(w[0], Split(w[1..], sep), t);
      } else {
        SplitAppendSep(sep, Split(w[1..], sep), t);
      }
    }
  }

  lemma SplitAppendCons(c: char, rest: seq<string>, t: string)
    requires |rest| >= 1
    ensures var ps := [[c] + rest[0]] + rest[1..];
      var rt := rest[..|rest| - 1] + [rest[|rest| - 1] + t];
      [[c] + rt[0]] + rt[1..] == ps[..|ps| - 1] + [ps[|ps| - 1] + t]
  {
    if |rest| == 1 {
      assert [c] + (rest[0] + t) == ([c] + rest[0]) + t;
    } else {
      var ps := [[c] + rest[0]] + rest[1..];
      assert ps[..|ps| - 1] == [[c] + rest[0]] + rest[1..|rest| - 1];
    }
  }

  lemma SplitAppendSep(sep: char, rest: seq<string>, t: string)
    requires |rest| >= 1
    ensures var ps := [""] + rest;
      [""] + (rest[..|rest| - 1] + [rest[|rest| - 1] + t]) == ps[..|ps| - 1] + [ps[|ps| - 1] + t]
  {
    var ps := [""] + rest;
    assert ps[..|ps| - 1] == [""] + rest[..|rest| - 1];
  }

  /** A suffix without '~' survives strip_prefix of a word with at most one '~'. */
  lemma StripPrefixAppend(w: string, t: string)
    requires OneLabel(w) && '~' !in t
    ensures FilterUtils.StripPrefix(Some(w + t), '~').value == FilterUtils.StripPrefix(Some(w), '~').value + t
  {
    SplitAppend(w, t, '~');
    SplitHead(w, '~');
    SplitHead(w + t, '~');
  }

  /** A word that does not close a branch is shown followed by ` >>>`. */
  lemma ArrowLine(w: string, indent: int)
    requires OneLabel(w) && !EndsWith(w, ")")
    ensures var shown := FilterUtils.StripPrefix(Some(w), '~').value;
      var extra := if indent > 0 && StartsWith(w, "(") then BaseIndent - 1 else BaseIndent;
      Line(w, indent) == Spaces(indent + extra) + shown + " >>>"
  {
    StripPrefixAppend(w, " >>>");
  }

  /**
   * pipeline_for_print gives one line per word, each but the last as Render
   * shows it: a word that does not close a branch ends in ` >>>` there. The
   * last line is its rendered line without that arrow.
   */
  lemma PrintedLines(route: string)
    requires SplitWs(route) != []
    ensures PrintLines(route).Ok? && |PrintLines(route).value| == |SplitWs(route)|
    ensures var ws := SplitWs(route); var ls := PrintLines(route).value;
      forall i :: 0 <= i < |ws| - 1 ==> ls[i] == Render(ws, 0)[i]
    ensures var ws := SplitWs(route); var ls := PrintLines(route).value; var n := |ws|;
      OneLabel(ws[n - 1]) && !EndsWith(ws[n - 1], ")") ==> ls[n - 1] + " >>>" == Render(ws, 0)[n - 1]
  {
    var ws := SplitWs(route);
    var rs := Render(ws, 0);
    assert PrintLines(route) == Ok(rs[..|rs| - 1] + [DropLast4(rs[|rs| - 1])]);
    RenderedPrinted(ws);
  }

  /** PrintedLines on the words themselves. */
  lemma RenderedPrinted(ws: seq<string>)
    requires ws != []
    ensures var rs := Render(ws, 0); var ls := rs[..|rs| - 1] + [DropLast4(rs[|rs| - 1])]; var n := |ws|;
      |ls| == n && (forall i :: 0 <= i < n - 1 ==> ls[i] == rs[i]) &&
      (OneLabel(ws[n - 1]) && !EndsWith(ws[n - 1], ")") ==> ls[n - 1] + " >>>" == rs[n - 1])
  {
    var n := |ws|;
    if OneLabel(ws[n - 1]) && !EndsWith(ws[n - 1], ")") {
      RenderedArrow(ws, n - 1);
    }
    LastLineDropped(Render(ws, 0));
  }

  /** The rendered lines with the last one's final four characters dropped. */
  lemma LastLineDropped(rs: seq<string>)
    requires rs != []
    ensures var ls := rs[..|rs| - 1] + [DropLast4(rs[|rs| - 1])];
      |ls| == |rs| && (forall i :: 0 <= i < |rs| - 1 ==> ls[i] == rs[i]) &&
      (EndsWith(rs[|rs| - 1], " >>>") ==> ls[|rs| - 1] + " >>>" == rs[|rs| - 1])
  {
    var l := rs[|rs| - 1];
    if EndsWith(l, " >>>") {
      assert l == l[..|l| - 4] + " >>>";
    }
  }

  /** Every rendered line of a word that does not close a branch ends in ` >>>`. */
  lemma RenderedArrow(ws: seq<string>, i: nat)
    requires i < |ws| && OneLabel(ws[i]) && !EndsWith(ws[i], ")")
    ensures EndsWith(Render(ws, 0)[i], " >>>")
  {
    RenderIndent(ws, 0, i);
    LineArrow(ws[i], Level(ws, i, 0));
  }

  lemma LineArrow(w: string, indent: int)
    requires OneLabel(w) && !EndsWith(w, ")")
    ensures EndsWith(Line(w, indent), " >>>")
  {
    var extra := if indent > 0 && StartsWith(w, "(") then BaseIndent - 1 else BaseIndent;
    ArrowLine(w, indent);
    EndsWithAppend(Spaces(indent + extra) + FilterUtils.StripPrefix(Some(w), '~').value, " >>>");
  }

  lemma EndsWithAppend(a: string, b: string)
    ensures EndsWith(a + b, b)
  {
    assert (a + b)[|a + b| - |b|..] == b;
  }

  /** No word, no lines: pipeline_for_print fails on a blank route. */
  lemma PrintBlank(route: string)
    ensures PrintLines(route).Err? <==> SplitWs(route) == []
  {
  }
}
