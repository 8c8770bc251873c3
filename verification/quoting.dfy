/**
 * Single-quoted SQL string literals: the quote doubling used to embed a
 * file path (or any text) in a statement, and the lexer rule by which the
 * engine reads such a literal back.
 */
module Quoting {
  import opened Outcomes
  import opened Sequences

  /** Number of single quotes in `s`. */
  function CountQuotes(s: string): nat
  {
    if s == [] then 0 else (if s[0] == '\'' then 1 else 0) + CountQuotes(s[1..])
  }

  /**
   * `s.replace("'", "''")`: every single quote doubled, everything else kept.
   * The result grows by one character per quote, and quote-free text is
   * returned as it is.
   */
  function DoubleQuotes(s: string): (r: string)
    ensures |r| == |s| + CountQuotes(s)
    ensures CountQuotes(s) == 0 ==> r == s
  {
    if s == [] then [] else (if s[0] == '\'' then "''" else [s[0]]) + DoubleQuotes(s[1..])
  }

  /** A string holds no quote exactly when it counts none. */
  lemma {:induction false} NoQuoteCountsZero(s: string)
    ensures CountQuotes(s) == 0 <==> '\'' !in s
  {
    if s != [] {
      NoQuoteCountsZero(s[1..]);
      assert s == [s[0]] + s[1..];
    }
  }

  /**
   * Reads the body of a single-quoted literal whose opening quote has just
   * been consumed: `''` stands for one quote and a lone `'` ends the literal.
   * Gives the denoted text and what follows the closing quote, or None when
   * the literal is never closed.
   */
  function ReadLiteral(s: string): Option<(string, string)>
    decreases |s|
  {
    if s == [] then None
    else if s[0] == '\'' then
      if |s| >= 2 && s[1] == '\'' then
        match ReadLiteral(s[2..])
        case None => None
        case Some(p) => Some(("'" + p.0, p.1))
      else Some(("", s[1..]))
    else
      match ReadLiteral(s[1..])
      case None => None
      case Some(p) => Some(([s[0]] + p.0, p.1))
  }

  /**
   * Collapsing the doubled quotes back recovers the original text: a literal
   * written as `'` + DoubleQuotes(p) + `'` denotes exactly `p`, whatever
   * follows it, as long as that does not begin with another quote.
   */
  lemma {:induction false} ReadDoubled(p: string, rest: string)
    requires rest == [] || rest[0] != '\''
    ensures ReadLiteral(DoubleQuotes(p) + "'" + rest) == Some((p, rest))
  {
    if p == [] {
      assert DoubleQuotes(p) + "'" + rest == "'" + rest;
    } else {
      ReadDoubled(p[1..], rest);
      var head := if p[0] == '\'' then "''" else [p[0]];
      var d := DoubleQuotes(p[1..]);
      var tail := d + "'" + rest;
      assert DoubleQuotes(p) == head + d;
      AppendAssoc(head, d, "'");
      AppendAssoc(head, d + "'", rest);
      assert DoubleQuotes(p) + "'" + rest == head + tail;
      assert (head + tail)[|head|..] == tail;
      assert [p[0]] + p[1..] == p;
    }
  }

  /** `sep.join(xs)`. */
  function Join(sep: string, xs: seq<string>): (r: string)
    ensures xs == [] ==> r == ""
    ensures |xs| == 1 ==> r == xs[0]
  {
    if xs == [] then "" else if |xs| == 1 then xs[0] else xs[0] + sep + Join(sep, xs[1..])
  }
  // ---------------------------------------------------------------------------
  // Splitting an argument list

  /**
   * Whether a reader is inside a literal after reading `s`, having started
   * inside one when `q`: every quote flips it, so a doubled quote leaves it
   * as it was.
   */
  function InLiteralAfter(s: string, q: bool): bool
    decreases |s|
  {
    if s == [] then q else InLiteralAfter(s[1..], if s[0] == '\'' then !q else q)
  }

  /**
   * Position of the first comma of `s` that is outside a literal (starting
   * inside one when `q`), or `|s|` when there is none.
   */
  function SeparatorAt(s: string, q: bool): (r: nat)
    ensures r <= |s|
    ensures r < |s| ==> s[r] == ','
    decreases |s|
  {
    if s == [] then 0
    else if s[0] == ',' && !q then 0
    else 1 + SeparatorAt(s[1..], if s[0] == '\'' then !q else q)
  }

  /** One entry of an argument list: no comma outside its literals, and every literal closed. */
  predicate IsEntry(s: string)
  {
    SeparatorAt(s, false) == |s| && !InLiteralAfter(s, false)
  }

  /**
   * How the engine splits an argument list into its entries: at each comma
   * outside a literal, which must be followed by a space. None when a comma
   * is not.
   */
  function SplitArgs(s: string): Option<seq<string>>
    decreases |s|
  {
    var i := SeparatorAt(s, false);
    if i == |s| then Some([s])
    else if i + 1 < |s| && s[i + 1] == ' ' then
      match SplitArgs(s[i + 2..])
      case None => None
      case Some(rest) => Some([s[..i]] + rest)
    else None
  }

  /** Scanning `a + b` is scanning `a`, then `b` in the state `a` left. */
  lemma {:induction false} ScanConcat(a: string, b: string, q: bool)
    ensures InLiteralAfter(a + b, q) == InLiteralAfter(b, InLiteralAfter(a, q))
    ensures SeparatorAt(a + b, q) ==
      if SeparatorAt(a, q) < |a| then SeparatorAt(a, q) else |a| + SeparatorAt(b, InLiteralAfter(a, q))
    decreases |a|
  {
    if a != [] {
      ScanConcat(a[1..], b, if a[0] == '\'' then !q else q);
      assert (a + b)[1..] == a[1..] + b;
    } else {
      assert a + b == b;
    }
  }

  /** Two entries written one after the other form one entry. */
  lemma EntryConcat(a: string, b: string)
    requires IsEntry(a) && IsEntry(b)
    ensures IsEntry(a + b)
  {
    ScanConcat(a, b, false);
  }

  /** Text without commas or quotes is scanned through without a change of state. */
  lemma {:induction false} PlainScan(s: string, q: bool)
    requires ',' !in s && '\'' !in s
    ensures SeparatorAt(s, q) == |s| && InLiteralAfter(s, q) == q
    decreases |s|
  {
    if s != [] {
      assert s[0] in s;
      assert forall c :: c in s[1..] ==> c in s;
      PlainScan(s[1..], q);
    }
  }

  /** Text without commas or quotes is an entry. */
  lemma PlainEntry(s: string)
    requires ',' !in s && '\'' !in s
    ensures IsEntry(s)
  {
    PlainScan(s, false);
  }

  /** Inside a literal, quote-doubled text ends inside it and hides its commas. */
  lemma {:induction false} DoubledStaysInside(s: string)
    ensures SeparatorAt(DoubleQuotes(s), true) == |DoubleQuotes(s)| && InLiteralAfter(DoubleQuotes(s), true)
    decreases |s|
  {
    if s != [] {
      DoubledStaysInside(s[1..]);
      var head := if s[0] == '\'' then "''" else [s[0]];
      assert DoubleQuotes(s) == head + DoubleQuotes(s[1..]);
      ScanConcat(head, DoubleQuotes(s[1..]), true);
      if s[0] == '\'' {
        assert head[1..] == "'";
        assert SeparatorAt(head, true) == 2 && InLiteralAfter(head, true);
      } else {
        assert SeparatorAt(head, true) == 1 && InLiteralAfter(head, true);
      }
    }
  }

  /** A quoted literal, `'` + DoubleQuotes(s) + `'`, is an entry whatever `s` holds. */
  lemma QuotedEntry(s: string)
    ensures IsEntry("'" + DoubleQuotes(s) + "'")
  {
    var d := DoubleQuotes(s);
    DoubledStaysInside(s);
    assert SeparatorAt("'", false) == 1 && InLiteralAfter("'", false);
    assert SeparatorAt("'", true) == 1 && !InLiteralAfter("'", true);
    ScanConcat("'", d, false);
    ScanConcat("'" + d, "'", false);
  }

  /** Entries joined by `, ` split back into the same entries. */
  lemma {:induction false} SplitJoin(es: seq<string>)
    requires es != [] && forall i :: 0 <= i < |es| ==> IsEntry(es[i])
    ensures SplitArgs(Join(", ", es)) == Some(es)
    decreases |es|
  {
    if |es| > 1 {
      var e := es[0];
      var rest := Join(", ", es[1..]);
      SplitJoin(es[1..]);
      var t := ", " + rest;
      var s := e + t;
      AppendAssoc(e, ", ", rest);
      assert Join(", ", es) == s;
      ScanConcat(e, t, false);
      assert SeparatorAt(t, false) == 0;
      assert SeparatorAt(s, false) == |e|;
      assert s[|e| + 1] == ' ';
      assert s[|e| + 2..] == rest;
      assert s[..|e|] == e;
      assert SplitArgs(s) == Some([e] + es[1..]);
      assert es == [e] + es[1..];
    } else {
      assert IsEntry(es[0]);
      assert es == [es[0]];
    }
  }
}
