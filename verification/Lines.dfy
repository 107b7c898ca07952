/** Lines and blanks of a text, as Python's `str.splitlines` and `str.strip` see them. */
module Lines {
  import opened Basics

  /** What `str.splitlines` breaks at. */
  predicate IsBreak(c: char) {
    c as int in {0x0A, 0x0B, 0x0C, 0x0D, 0x1C, 0x1D, 0x1E, 0x85, 0x2028, 0x2029}
  }

  /** What `str.strip` removes. */
  predicate IsSpace(c: char) {
    || IsBreak(c)
    || c as int in {0x09, 0x1F, 0x20, 0xA0, 0x1680, 0x202F, 0x205F, 0x3000}
    || 0x2000 <= c as int <= 0x200A
  }

  /** The number of characters before the first break. */
  function LineLength(s: string): (n: nat)
    ensures n <= |s|
    ensures forall i | 0 <= i < n :: !IsBreak(s[i])
    ensures n < |s| ==> IsBreak(s[n])
  {
    if s == "" || IsBreak(s[0]) then 0 else 1 + LineLength(s[1..])
  }

  /** A carriage return and the line feed behind it are one break. */
  function BreakLength(s: string): (n: nat)
    requires s != ""
    ensures 1 <= n <= |s|
  {
    if |s| > 1 && s[0] == '\r' && s[1] == '\n' then 2 else 1
  }

  function SplitLines(s: string): seq<string>
    decreases |s|
  {
    var n := LineLength(s);
    if s == "" then []
    else if n == |s| then [s]
    else [s[..n]] + SplitLines(s[n..][BreakLength(s[n..])..])
  }

  function TrimLeft(s: string): string {
    if s != "" && IsSpace(s[0]) then TrimLeft(s[1..]) else s
  }

  function TrimRight(s: string): string {
    if s != "" && IsSpace(Last(s)) then TrimRight(Front(s)) else s
  }

  function Strip(s: string): string {
    TrimRight(TrimLeft(s))
  }

  /** The stripped lines, without the blank ones. */
  function NonBlank(lines: seq<string>): seq<string> {
    if lines == [] then []
    else (if Strip(lines[0]) != "" then [Strip(lines[0])] else []) + NonBlank(lines[1..])
  }
}
