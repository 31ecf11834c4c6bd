/**
 * The text side of the explanation service: clean-up of the language
 * model's Markdown answer into plain text, the risk label put into the
 * prompt and the fallback, the numbered list of the five largest funds, and
 * the choice between the model's answer and the fallback explanation.
 *
 * Each regular-expression substitution is modelled as a left-to-right scan
 * that does what Python's `re.sub` does for that pattern: at each position
 * try a match, replace it and continue after it, otherwise keep one
 * character and move on. `\s` is `PyText.IsSpace` and `.` is any character
 * but a newline.
 */
module QwenService {
  import opened Wrappers
  import opened PyText

  // ---------------------------------------------------------------------
  // Runs of characters
  // ---------------------------------------------------------------------

  /** Length of the longest whitespace prefix (what a greedy `\s*` takes). */
  function WsRun(s: string): (n: nat)
    ensures n <= |s|
    ensures forall i :: 0 <= i < n ==> IsSpace(s[i])
    ensures n < |s| ==> !IsSpace(s[n])
  {
    if s == [] || !IsSpace(s[0]) then 0 else 1 + WsRun(s[1..])
  }

  /** Length of the longest prefix of `#` characters (what a greedy `#*` takes). */
  function HashRun(s: string): (n: nat)
    ensures n <= |s|
    ensures forall i :: 0 <= i < n ==> s[i] == '#'
    ensures n < |s| ==> s[n] != '#'
  {
    if s == [] || s[0] != '#' then 0 else 1 + HashRun(s[1..])
  }

  // ---------------------------------------------------------------------
  // Pass 1: `^\s*#+\s*` with MULTILINE, replaced by nothing
  // ---------------------------------------------------------------------

  /** `^\s*#+\s*` matches here: the whitespace run is followed by a `#`. */
  predicate HeadingAt(s: string)
  {
    WsRun(s) < |s| && s[WsRun(s)] == '#'
  }

  /** End of the heading match: whitespace, the `#` run, whitespace (newlines included). */
  function HeadingEnd(s: string): (e: nat)
    requires HeadingAt(s)
    ensures WsRun(s) < e <= |s|
    ensures s[e - 1] == '#' || IsSpace(s[e - 1])
  {
    var w := WsRun(s);
    var h := HashRun(s[w..]);
    w + h + WsRun(s[w + h..])
  }

  /**
   * The heading pass over `s`; `lineStart` says whether `^` holds at the
   * first character, i.e. it is the start of the text or follows a newline
   * of the original text.
   */
  function StripHeadings(s: string, lineStart: bool): (r: string)
    ensures |r| <= |s|
    decreases |s|
  {
    if s == [] then []
    else if lineStart && HeadingAt(s) then
      var e := HeadingEnd(s);
      StripHeadings(s[e..], s[e - 1] == '\n')
    else [s[0]] + StripHeadings(s[1..], s[0] == '\n')
  }

  /** A text without `#` passes the heading pass unchanged. */
  lemma {:induction false} StripHeadingsNoHash(s: string, lineStart: bool)
    requires '#' !in s
    ensures StripHeadings(s, lineStart) == s
    decreases |s|
  {
    if s != [] {
      assert !HeadingAt(s) by {
        if WsRun(s) < |s| {
          assert s[WsRun(s)] in s;
        }
      }
      assert '#' !in s[1..] by {
        assert forall c :: c in s[1..] ==> c in s;
      }
      StripHeadingsNoHash(s[1..], s[0] == '\n');
      assert [s[0]] + s[1..] == s;
    }
  }

  /**
   * A line opening with whitespace (up to `x`), one or more `#` (up to `y`)
   * and whitespace (up to `e`, newlines included) loses all three; the scan
   * goes on after them, at a line start exactly when the removed text ended
   * with a newline. The character at `e` is what stops the greedy runs: not
   * whitespace, and not a `#` when no whitespace followed the `#` run.
   */
  lemma HeadingRemoved(s: string, x: nat, y: nat, e: nat)
    requires x < y <= e <= |s|
    requires forall i :: 0 <= i < x ==> IsSpace(s[i])
    requires forall i :: x <= i < y ==> s[i] == '#'
    requires forall i :: y <= i < e ==> IsSpace(s[i])
    requires e < |s| ==> !IsSpace(s[e]) && (y == e ==> s[e] != '#')
    ensures StripHeadings(s, true) == StripHeadings(s[e..], y < e && s[e - 1] == '\n')
  {
    HeadingMatch(s, x, y, e);
    var r := StripHeadings(s[e..], s[e - 1] == '\n');
    assert StripHeadings(s, true) == r;
  }

  lemma HeadingMatch(s: string, x: nat, y: nat, e: nat)
    requires x < y <= e <= |s|
    requires forall i :: 0 <= i < x ==> IsSpace(s[i])
    requires forall i :: x <= i < y ==> s[i] == '#'
    requires forall i :: y <= i < e ==> IsSpace(s[i])
    requires e < |s| ==> !IsSpace(s[e]) && (y == e ==> s[e] != '#')
    ensures HeadingAt(s) && HeadingEnd(s) == e
  {
    assert WsRun(s) == x by {
      WsRunIs(s, x);
    }
    assert HashRun(s[x..]) == y - x by {
      HashRunIs(s[x..], y - x);
    }
    assert WsRun(s[y..]) == e - y by {
      WsRunIs(s[y..], e - y);
    }
    RunsMakeHeading(s, x, y, e);
  }

  lemma RunsMakeHeading(s: string, x: nat, y: nat, e: nat)
    requires x < y <= e <= |s|
    requires WsRun(s) == x && HashRun(s[x..]) == y - x && WsRun(s[y..]) == e - y
    ensures HeadingAt(s) && HeadingEnd(s) == e
  {
    assert s[x..][0] == s[x];
  }

  /** `WsRun` is the length of the maximal whitespace prefix. */
  lemma {:induction false} WsRunIs(s: string, n: nat)
    requires n <= |s|
    requires forall i :: 0 <= i < n ==> IsSpace(s[i])
    requires n < |s| ==> !IsSpace(s[n])
    ensures WsRun(s) == n
    decreases n
  {
    if n > 0 {
      WsRunIs(s[1..], n - 1);
    }
  }

  /** `HashRun` is the length of the maximal `#` prefix. */
  lemma {:induction false} HashRunIs(s: string, n: nat)
    requires n <= |s|
    requires forall i :: 0 <= i < n ==> s[i] == '#'
    requires n < |s| ==> s[n] != '#'
    ensures HashRun(s) == n
    decreases n
  {
    if n > 0 {
      HashRunIs(s[1..], n - 1);
    }
  }

  // ---------------------------------------------------------------------
  // Passes 2-5: `D(.*?)D` replaced by the group, for D in **, __, *, `
  // ---------------------------------------------------------------------

  /** `d` occurs at the start of `t`. */
  predicate StartsWith(t: string, d: string)
  {
    |d| <= |t| && t[..|d|] == d
  }

  /**
   * Where the non-greedy `(.*?)` followed by `d` stops in `t`: the first
   * offset at which `d` occurs, provided no newline comes before it.
   */
  function FindClose(t: string, d: string): (k: Option<nat>)
    ensures k.Some? ==> k.value + |d| <= |t| && t[k.value..k.value + |d|] == d
    ensures k.Some? ==> '\n' !in t[..k.value]
    ensures k.Some? ==> forall j :: 0 <= j < k.value ==> !StartsWith(t[j..], d)
    decreases |t|
  {
    if StartsWith(t, d) then Some(0)
    else if t == [] || t[0] == '\n' then None
    else
      match FindClose(t[1..], d)
      case None => None
      case Some(k) =>
        assert forall j :: 1 <= j < k + 1 ==> t[j..] == t[1..][j - 1..];
        Some(k + 1)
  }

  /** One delimiter pass: every `d…d` on one line becomes its inside. */
  function StripDelimited(s: string, d: string): (r: string)
    requires |d| > 0
    ensures |r| <= |s|
    decreases |s|
  {
    if s == [] then []
    else if StartsWith(s, d) && FindClose(s[|d|..], d).Some? then
      var t := s[|d|..];
      var k := FindClose(t, d).value;
      t[..k] + StripDelimited(t[k + |d|..], d)
    else [s[0]] + StripDelimited(s[1..], d)
  }

  /** A text without the delimiter's first character is left alone. */
  lemma {:induction false} StripDelimitedNoOpen(s: string, d: string)
    requires |d| > 0 && d[0] !in s
    ensures StripDelimited(s, d) == s
    decreases |s|
  {
    if s != [] {
      assert s[0] in s;
      assert forall c :: c in s[1..] ==> c in s;
      StripDelimitedNoOpen(s[1..], d);
      assert [s[0]] + s[1..] == s;
    }
  }

  /**
   * The converse of FindClose's contract: an occurrence of `d` with no newline
   * before it is found, at that offset or an earlier one.
   */
  lemma {:induction false} FindCloseComplete(t: string, d: string, j: nat)
    requires j <= |t| && StartsWith(t[j..], d)
    requires '\n' !in t[..j]
    ensures FindClose(t, d).Some? && FindClose(t, d).value <= j
    decreases j
  {
    if !StartsWith(t, d) {
      assert j != 0;
      assert t[0] in t[..j];
      assert t[1..][j - 1..] == t[j..];
      assert forall c :: c in t[1..][..j - 1] ==> c in t[..j];
      FindCloseComplete(t[1..], d, j - 1);
    }
  }

  /**
   * Round trip: one-line text wrapped in the delimiter, and holding none of
   * its characters, comes back unwrapped, and the pass carries on after it.
   */
  lemma StripDelimitedUnwraps(x: string, d: string, rest: string)
    requires |d| > 0
    requires '\n' !in x
    requires forall c :: c in d ==> c !in x
    ensures StripDelimited(d + x + d + rest, d) == x + StripDelimited(rest, d)
  {
    var s := d + x + d + rest;
    var t := x + d + rest;
    assert s[|d|..] == t;
    assert StartsWith(s, d) by { assert s[..|d|] == d; }
    FindCloseAfter(x, d, rest);
    assert t[..|x|] == x;
    assert t[|x| + |d|..] == rest;
  }

  /** The first close after delimiter-free one-line text is the one right after it. */
  lemma {:induction false} FindCloseAfter(x: string, d: string, rest: string)
    requires |d| > 0
    requires '\n' !in x
    requires forall c :: c in d ==> c !in x
    ensures FindClose(x + d + rest, d) == Some(|x|)
    decreases |x|
  {
    if x == [] {
      assert (x + d + rest)[..|d|] == d;
    } else {
      assert x[0] in x;
      assert d[0] in d;
      assert (x + d + rest)[..|d|][0] == x[0];
      assert !StartsWith(x + d + rest, d);
      assert (x + d + rest)[1..] == x[1..] + d + rest;
      assert forall c :: c in x[1..] ==> c in x;
      FindCloseAfter(x[1..], d, rest);
    }
  }

  /** The four emphasis passes in the order the service applies them. */
  function StripEmphasis(s: string): (r: string)
    ensures |r| <= |s|
  {
    StripDelimited(StripDelimited(StripDelimited(StripDelimited(s, "**"), "__"), "*"), "`")
  }

  // ---------------------------------------------------------------------
  // Pass 6: `\n\s*\n\s*\n` replaced by two newlines
  // ---------------------------------------------------------------------

  /** Number of newlines in the leading whitespace run. */
  function NewlinesInRun(s: string): (n: nat)
    ensures n <= WsRun(s)
  {
    if s == [] || !IsSpace(s[0]) then 0
    else (if s[0] == '\n' then 1 else 0) + NewlinesInRun(s[1..])
  }

  /** Offset just past the last newline of the leading whitespace run (0 if none). */
  function PastLastNewline(s: string): (e: nat)
    ensures e <= WsRun(s)
    ensures NewlinesInRun(s) > 0 ==> e > 0
    ensures e > 0 ==> s[e - 1] == '\n'
  {
    if s == [] || !IsSpace(s[0]) then 0
    else
      var e := PastLastNewline(s[1..]);
      if e > 0 then e + 1 else if s[0] == '\n' then 1 else 0
  }

  /** What follows the last newline of the run has no newline left in its run. */
  lemma {:induction false} PastLastNewlineClears(s: string)
    ensures NewlinesInRun(s[PastLastNewline(s)..]) == 0
    decreases |s|
  {
    if s != [] && IsSpace(s[0]) {
      PastLastNewlineClears(s[1..]);
      var e := PastLastNewline(s[1..]);
      if e > 0 {
        assert s[e + 1..] == s[1..][e..];
      } else {
        if s[0] == '\n' {
          assert s[1..] == s[1..][0..];
        } else {
          assert s[0..] == s;
          assert NewlinesInRun(s) == NewlinesInRun(s[1..]);
        }
      }
    }
  }

  /** The blank-line pass: a whitespace run with three or more newlines, from its first to its last newline, becomes "\n\n". */
  function CollapseBlankLines(s: string): (r: string)
    decreases |s|
  {
    if s == [] then []
    else if s[0] == '\n' && NewlinesInRun(s) >= 3 then
      "\n\n" + CollapseBlankLines(s[PastLastNewline(s)..])
    else [s[0]] + CollapseBlankLines(s[1..])
  }

  /** No newline starts a whitespace run holding three newlines. */
  predicate NoTripleBreak(s: string)
    decreases |s|
  {
    s == [] || ((s[0] != '\n' || NewlinesInRun(s) < 3) && NoTripleBreak(s[1..]))
  }

  /** A run with fewer than three newlines passes through with the same count. */
  lemma {:induction false} CollapseKeepsShortRun(s: string)
    requires NewlinesInRun(s) < 3
    ensures NewlinesInRun(CollapseBlankLines(s)) == NewlinesInRun(s)
    decreases |s|
  {
    if s != [] {
      var r := CollapseBlankLines(s);
      assert r == [s[0]] + CollapseBlankLines(s[1..]);
      assert r[1..] == CollapseBlankLines(s[1..]);
      if IsSpace(s[0]) {
        CollapseKeepsShortRun(s[1..]);
      }
    }
  }

  /** After the blank-line pass no whitespace run holds three newlines. */
  lemma {:induction false} CollapseLeavesNoTriple(s: string)
    ensures NoTripleBreak(CollapseBlankLines(s))
    decreases |s|
  {
    if s != [] {
      if s[0] == '\n' && NewlinesInRun(s) >= 3 {
        var rest := s[PastLastNewline(s)..];
        var tail := CollapseBlankLines(rest);
        CollapseLeavesNoTriple(rest);
        PastLastNewlineClears(s);
        CollapseKeepsShortRun(rest);
        var r := "\n\n" + tail;
        assert r[1..] == "\n" + tail;
        assert r[1..][1..] == tail;
        assert NewlinesInRun(r[1..]) == 1;
        assert NewlinesInRun(r) == 2;
      } else {
        CollapseLeavesNoTriple(s[1..]);
        var r := [s[0]] + CollapseBlankLines(s[1..]);
        assert r[1..] == CollapseBlankLines(s[1..]);
        if s[0] == '\n' {
          CollapseKeepsShortRun(s[1..]);
        }
      }
    }
  }

  /** A text already free of such runs is left alone, so the pass is idempotent. */
  lemma {:induction false} CollapseFixesNoTriple(s: string)
    requires NoTripleBreak(s)
    ensures CollapseBlankLines(s) == s
    decreases |s|
  {
    if s != [] {
      CollapseFixesNoTriple(s[1..]);
      assert [s[0]] + s[1..] == s;
    }
  }

  lemma CollapseIdempotent(s: string)
    ensures CollapseBlankLines(CollapseBlankLines(s)) == CollapseBlankLines(s)
  {
    CollapseLeavesNoTriple(s);
    CollapseFixesNoTriple(CollapseBlankLines(s));
  }

  /** Text appended after a run never takes newlines away from it. */
  lemma {:induction false} NewlinesInRunAppend(a: string, b: string)
    ensures NewlinesInRun(a) <= NewlinesInRun(a + b)
    decreases |a|
  {
    if a != [] {
      assert (a + b)[0] == a[0];
      assert (a + b)[1..] == a[1..] + b;
      NewlinesInRunAppend(a[1..], b);
    }
  }

  /** Any slice of a text free of blank-line runs is free of them too. */
  lemma {:induction false} NoTripleBreakSlice(s: string, i: nat, j: nat)
    requires NoTripleBreak(s)
    requires i <= j <= |s|
    ensures NoTripleBreak(s[i..j])
    decreases j
  {
    if i < j {
      if i > 0 {
        assert s[i..j] == s[1..][i - 1..j - 1];
      } else {
        var t := s[..j];
        assert t[0] == s[0];
        assert t + s[j..] == s;
        NewlinesInRunAppend(t, s[j..]);
        assert t[1..] == s[1..][0..j - 1];
      }
      NoTripleBreakSlice(s[1..], if i > 0 then i - 1 else 0, j - 1);
    }
  }

  // ---------------------------------------------------------------------
  // `str.strip()`
  // ---------------------------------------------------------------------

  /** Length of the longest whitespace suffix. */
  function TrailingWs(s: string): (n: nat)
    ensures n <= |s|
    ensures forall i :: |s| - n <= i < |s| ==> IsSpace(s[i])
    ensures n < |s| ==> !IsSpace(s[|s| - 1 - n])
    decreases |s|
  {
    if s == [] || !IsSpace(s[|s| - 1]) then 0 else 1 + TrailingWs(s[..|s| - 1])
  }

  /**
   * `strip()`: the result is a slice of the input, everything cut off on
   * either side is whitespace, and the result neither starts nor ends with
   * whitespace.
   */
  function Strip(s: string): (r: string)
    ensures exists i, j ::
              && 0 <= i <= j <= |s| && r == s[i..j]
              && (forall k :: 0 <= k < i ==> IsSpace(s[k]))
              && (forall k :: j <= k < |s| ==> IsSpace(s[k]))
    ensures r != [] ==> !IsSpace(r[0]) && !IsSpace(r[|r| - 1])
  {
    var i := WsRun(s);
    var t := s[i..];
    var n := TrailingWs(t);
    assert t[..|t| - n] == s[i..|s| - n];
    t[..|t| - n]
  }

  /** A text that is all whitespace strips to nothing. */
  lemma StripAllSpace(s: string)
    requires forall k :: 0 <= k < |s| ==> IsSpace(s[k])
    ensures Strip(s) == []
  {
  }

  // ---------------------------------------------------------------------
  // `clean_qwen_output`
  // ---------------------------------------------------------------------

  /** The six substitutions and the strip, on a non-empty text. */
  function CleanPasses(s: string): string
  {
    Strip(CollapseBlankLines(StripEmphasis(StripHeadings(s, true))))
  }

  /** A missing or empty text is returned as it is; anything else goes through the passes. */
  function CleanQwenOutput(text: Option<string>): (r: Option<string>)
    ensures text.None? ==> r.None?
    ensures text == Some("") ==> r == Some("")
    ensures text.Some? && text.value != "" ==> r.Some?
  {
    if text.None? || text.value == "" then text
    else Some(CleanPasses(text.value))
  }

  /**
   * The cleaned text never starts or ends with whitespace, holds no blank-line
   * run, and it is the blank-line pass's output with only whitespace cut from
   * its ends.
   */
  lemma CleanQwenOutputSpec(text: string)
    requires text != ""
    ensures CleanQwenOutput(Some(text)).Some?
    ensures var r := CleanQwenOutput(Some(text)).value;
      r != [] ==> !IsSpace(r[0]) && !IsSpace(r[|r| - 1])
    ensures var c := CollapseBlankLines(StripEmphasis(StripHeadings(text, true)));
      CleanQwenOutput(Some(text)).value == Strip(c) && NoTripleBreak(c)
    ensures NoTripleBreak(CleanQwenOutput(Some(text)).value)
  {
    var c := CollapseBlankLines(StripEmphasis(StripHeadings(text, true)));
    CollapseLeavesNoTriple(StripEmphasis(StripHeadings(text, true)));
    var i, j :| 0 <= i <= j <= |c| && Strip(c) == c[i..j];
    NoTripleBreakSlice(c, i, j);
  }

  /** Plain text, with no Markdown characters and no blank-line runs, only loses its surrounding whitespace. */
  lemma CleanPlainText(text: string)
    requires text != ""
    requires '#' !in text && '*' !in text && '_' !in text && '`' !in text
    requires NoTripleBreak(text)
    ensures CleanQwenOutput(Some(text)) == Some(Strip(text))
  {
    StripHeadingsNoHash(text, true);
    StripDelimitedNoOpen(text, "**");
    StripDelimitedNoOpen(text, "__");
    StripDelimitedNoOpen(text, "*");
    StripDelimitedNoOpen(text, "`");
    CollapseFixesNoTriple(text);
  }

  // ---------------------------------------------------------------------
  // `generate_explanation`
  // ---------------------------------------------------------------------

  const Conservative: string := "保守型"
  const Steady: string := "稳健型"
  const Aggressive: string := "积极型"

  /** Label of a risk score, as used in the prompt and in the fallback text. */
  function RiskLabel(score: real): (level: string)
    ensures level == Conservative <==> score <= 3.0
    ensures level == Steady <==> 3.0 < score <= 7.0
    ensures level == Aggressive <==> score > 7.0
  {
    if score <= 3.0 then Conservative else if score <= 7.0 then Steady else Aggressive
  }

  /** Position of a label on the scale from cautious to aggressive. */
  function LabelRank(level: string): nat
  {
    if level == Conservative then 0 else if level == Steady then 1 else 2
  }

  /** A higher score never gets a more cautious label. */
  lemma RiskLabelMonotone(a: real, b: real)
    requires a <= b
    ensures LabelRank(RiskLabel(a)) <= LabelRank(RiskLabel(b))
  {
  }

  /** One fund of the plan, with the fields the description reads. */
  datatype Fund = Fund(fundName: string, weightPercentage: real, investmentAmount: real)

  /** How many funds the description lists. */
  const TopFunds: nat := 5

  /**
   * The line of fund number `i`; `details` stands for the formatted weight
   * and amount, whose float and currency formatting is not modelled.
   */
  function FundLine(i: nat, f: Fund, details: Fund -> string): string
  {
    NatToString(i) + ". " + f.fundName + "：" + details(f) + "\n"
  }

  /** The lines of `funds`, numbered from `first`. */
  function FundLines(funds: seq<Fund>, first: nat, details: Fund -> string): string
    decreases |funds|
  {
    if funds == [] then ""
    else
      FundLines(funds[..|funds| - 1], first, details)
      + FundLine(first + |funds| - 1, funds[|funds| - 1], details)
  }

  /** Lines numbered from 1 for the first five funds of the plan (all of them if fewer). */
  method DescribeTopFunds(plan: seq<Fund>, details: Fund -> string) returns (desc: string)
    ensures desc == FundLines(plan[..if |plan| < TopFunds then |plan| else TopFunds], 1, details)
  {
    var top := plan[..if |plan| < TopFunds then |plan| else TopFunds];
    desc := "";
    var i := 0;
    while i < |top|
      invariant 0 <= i <= |top|
      invariant desc == FundLines(top[..i], 1, details)
    {
      assert top[..i + 1][..i] == top[..i];
      desc := desc + FundLine(i + 1, top[i], details);
      i := i + 1;
    }
    assert top[..|top|] == top;
  }

  /** With one-line names and details, the description has one line per listed fund. */
  lemma {:induction false} FundLinesCount(funds: seq<Fund>, first: nat, details: Fund -> string)
    requires forall f :: f in funds ==> '\n' !in f.fundName && '\n' !in details(f)
    ensures Count(FundLines(funds, first, details), '\n') == |funds|
    decreases |funds|
  {
    if funds != [] {
      var init := funds[..|funds| - 1];
      var f := funds[|funds| - 1];
      assert f in funds;
      assert forall g :: g in init ==> g in funds;
      FundLinesCount(init, first, details);
      var num := NatToString(first + |funds| - 1);
      assert '\n' !in num by {
        assert forall k :: 0 <= k < |num| ==> num[k] != '\n';
      }
      assert '\n' !in ". ";
      assert '\n' !in "：";
      CountAbsent(num, '\n');
      CountAbsent(". ", '\n');
      CountAbsent(f.fundName, '\n');
      CountAbsent("：", '\n');
      CountAbsent(details(f), '\n');
      CountConcat(num, ". ", '\n');
      CountConcat(num + ". ", f.fundName, '\n');
      CountConcat(num + ". " + f.fundName, "：", '\n');
      CountConcat(num + ". " + f.fundName + "：", details(f), '\n');
      CountConcat(num + ". " + f.fundName + "：" + details(f), "\n", '\n');
      CountConcat(FundLines(init, first, details), FundLine(first + |funds| - 1, f, details), '\n');
    }
  }

  /**
   * The explanation returned: the cleaned model answer when the request
   * produced a non-empty one, the fallback template otherwise.
   */
  function ChooseExplanation(answer: Option<string>, fallback: string): (r: string)
    ensures answer.None? || answer == Some("") ==> r == fallback
    ensures answer.Some? && answer.value != "" ==> Some(r) == CleanQwenOutput(answer)
  {
    match answer
    case None => fallback
    case Some(a) => if a == "" then fallback else CleanPasses(a)
  }
}
