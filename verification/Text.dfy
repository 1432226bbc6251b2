/** Byte-string helpers. Strings are ASCII. */
module Text {
  predicate HasPrefix(s: string, p: string) {
    p <= s
  }

  function TrimPrefix(s: string, p: string): string {
    if p <= s then s[|p|..] else s
  }

  function TrimLeft(s: string): (r: string)
    ensures |r| <= |s| && (r != [] ==> r[0] != '-')
    ensures forall i :: 0 <= i < |r| ==> r[i] in s
    ensures s != [] && s[0] != '-' ==> r == s
  {
    if s != [] && s[0] == '-' then TrimLeft(s[1..]) else s
  }

  function TrimRight(s: string): (r: string)
    ensures r <= s && (r != [] ==> r[|r| - 1] != '-')
    ensures s != [] && s[|s| - 1] != '-' ==> r == s
  {
    if s != [] && s[|s| - 1] == '-' then TrimRight(s[..|s| - 1]) else s
  }

  /** strings.Trim(s, "-"). */
  function Trim(s: string): (r: string)
    ensures |r| <= |s|
    ensures forall i :: 0 <= i < |r| ==> r[i] in s
    ensures s != [] && s[0] != '-' && s[|s| - 1] != '-' ==> r == s
  {
    TrimRight(TrimLeft(s))
  }

  function LowerChar(c: char): char {
    if 'A' <= c <= 'Z' then ((c as int) + 32) as char else c
  }

  function Lower(s: string): (r: string)
    ensures |r| == |s|
    ensures forall i :: 0 <= i < |s| ==> r[i] == LowerChar(s[i])
  {
    if s == [] then [] else [LowerChar(s[0])] + Lower(s[1..])
  }
}
