/** What splitting and stripping texts come to: nothing but breaks and blanks is lost. */
module TextShapes {
  import opened Basics
  import opened Lines
  import opened Deterministic

  predicate AllSpace(s: string) {
    forall i | 0 <= i < |s| :: IsSpace(s[i])
  }

  lemma {:induction false} TrimLeftExactly(s: string) returns (blank: string)
    ensures AllSpace(blank) && s == blank + TrimLeft(s) && (TrimLeft(s) != "" ==> !IsSpace(TrimLeft(s)[0]))
  {
    if s != "" && IsSpace(s[0]) {
      var rest := TrimLeftExactly(s[1..]);
      blank := [s[0]] + rest;
      assert s == [s[0]] + s[1..];
    } else {
      blank := "";
    }
  }

  lemma {:induction false} TrimRightExactly(s: string) returns (blank: string)
    ensures AllSpace(blank) && s == TrimRight(s) + blank && (TrimRight(s) != "" ==> !IsSpace(Last(TrimRight(s))))
  {
    if s != "" && IsSpace(Last(s)) {
      var rest := TrimRightExactly(Front(s));
      blank := rest + [Last(s)];
      assert s == Front(s) + [Last(s)];
    } else {
      blank := "";
    }
  }

  /** Stripping takes exactly the blanks at both ends. */
  lemma StripExactly(s: string) returns (before: string, after: string)
    ensures AllSpace(before) && AllSpace(after) && s == before + Strip(s) + after
    ensures Strip(s) != "" ==> !IsSpace(Strip(s)[0]) && !IsSpace(Last(Strip(s)))
  {
    before := TrimLeftExactly(s);
    after := TrimRightExactly(TrimLeft(s));
    assert before + (Strip(s) + after) == before + Strip(s) + after;
    if Strip(s) != "" {
      assert Strip(s)[0] == TrimLeft(s)[0];
    }
  }

  /** A break: one character, or a carriage return and the line feed behind it. */
  predicate Breaks(b: string) {
    (|b| == 1 && IsBreak(b[0])) || b == "\r\n"
  }

  predicate Unbroken(line: string) {
    forall k | 0 <= k < |line| :: !IsBreak(line[k])
  }

  function Rebuilt(lines: seq<string>, breaks: seq<string>): string
    requires |breaks| <= |lines|
    decreases |lines|
  {
    if lines == [] then ""
    else lines[0] + (if breaks == [] then "" else breaks[0]) + Rebuilt(lines[1..], if breaks == [] then [] else breaks[1..])
  }

  /** Lines without breaks that with breaks between them are the text. */
  ghost predicate Splits(s: string, lines: seq<string>, breaks: seq<string>) {
    && |breaks| <= |lines| <= |breaks| + 1 && (forall i | 0 <= i < |breaks| :: Breaks(breaks[i]))
    && (forall i | 0 <= i < |lines| :: Unbroken(lines[i])) && Rebuilt(lines, breaks) == s
  }

  lemma SplitsOnce(line: string, b: string, rest: string, lines: seq<string>, breaks: seq<string>)
    requires Unbroken(line) && Breaks(b) && Splits(rest, lines, breaks)
    ensures Splits(line + b + rest, [line] + lines, [b] + breaks)
  {
    RebuiltFrom(line, b, lines, breaks);
  }

  lemma FirstLineSplit(s: string, n: nat) returns (b: string, rest: string)
    requires n == LineLength(s) < |s|
    ensures Unbroken(s[..n]) && Breaks(b) && s == s[..n] + b + rest && |rest| < |s| && SplitLines(s) == [s[..n]] + SplitLines(rest)
  {
    var m := BreakLength(s[n..]);
    b, rest := s[n..][..m], s[n..][m..];
    BreakIs(s[n..]);
    assert s[n..] == b + rest;
  }

  /** The lines of a text hold no break, and with breaks between them they are the text again. */
  lemma {:induction false} SplitExactly(s: string) returns (breaks: seq<string>)
    ensures Splits(s, SplitLines(s), breaks)
    decreases |s|
  {
    var n := LineLength(s);
    breaks := [];
    if n < |s| {
      var b, rest := FirstLineSplit(s, n);
      var more := SplitExactly(rest);
      breaks := [b] + more;
      SplitsOnce(s[..n], b, rest, SplitLines(rest), more);
    } else if s != "" {
      assert Rebuilt([s][1..], []) == "";
    }
  }

  lemma BreakIs(tail: string)
    requires tail != "" && IsBreak(tail[0])
    ensures Breaks(tail[..BreakLength(tail)])
  {
    if BreakLength(tail) == 2 {
      assert tail[..2] == "\r\n";
    }
  }

  lemma RebuiltFrom(line: string, b: string, lines: seq<string>, breaks: seq<string>)
    requires |breaks| <= |lines|
    ensures Rebuilt([line] + lines, [b] + breaks) == line + b + Rebuilt(lines, breaks)
  {
    assert ([line] + lines)[1..] == lines && ([b] + breaks)[1..] == breaks;
  }

  /** The commands of a text are its lines, stripped, but for the blank ones, in order. */
  lemma {:induction false} NonBlankExactly(lines: seq<string>, i: nat)
    requires i < |lines|
    ensures Strip(lines[i]) != "" ==>
              |NonBlank(lines[..i])| < |NonBlank(lines)| && NonBlank(lines)[|NonBlank(lines[..i])|] == Strip(lines[i])
    decreases |lines|
  {
    if i > 0 {
      NonBlankExactly(lines[1..], i - 1);
      assert lines[..i][1..] == lines[1..][..i - 1];
    } else {
      assert lines[..0] == [];
    }
  }

  lemma {:induction false} NonBlankAre(lines: seq<string>, k: nat) returns (i: nat)
    requires k < |NonBlank(lines)|
    ensures i < |lines| && NonBlank(lines)[k] == Strip(lines[i]) && Strip(lines[i]) != ""
    decreases |lines|
  {
    if Strip(lines[0]) != "" && k == 0 {
      i := 0;
    } else {
      i := NonBlankAre(lines[1..], if Strip(lines[0]) != "" then k - 1 else k);
      i := i + 1;
    }
  }

  /** Every command is one line without blanks around it. */
  lemma CommandsAreLines(prompt: string, k: nat) returns (i: nat)
    requires k < |Commands(prompt)|
    ensures i < |SplitLines(prompt)| && Commands(prompt)[k] == Strip(SplitLines(prompt)[i])
    ensures var c := Commands(prompt)[k]; c != "" && !IsSpace(c[0]) && !IsSpace(Last(c))
  {
    i := NonBlankAre(SplitLines(prompt), k);
    var before, after := StripExactly(SplitLines(prompt)[i]);
  }
}
