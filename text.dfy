/** The JavaScript string operations the routes and the client rely on:
    `startsWith`, `includes`, `toLowerCase`, `join` and `padStart`. */
module Text {

  /** `s.startsWith(prefix)`. */
  predicate StartsWith(s: string, prefix: string)
  {
    |prefix| <= |s| && s[..|prefix|] == prefix
  }

  /** `s.includes(part)`: `part` occurs at some position of `s`. */
  predicate Contains(s: string, part: string)
    decreases |s|
  {
    StartsWith(s, part) || (|s| > 0 && Contains(s[1..], part))
  }

  /** `part` occurs in `s` exactly when it starts some suffix of `s`. */
  lemma {:induction false} ContainsAt(s: string, part: string)
    ensures Contains(s, part) <==> exists i :: 0 <= i <= |s| && StartsWith(s[i..], part)
    decreases |s|
  {
    assert s[0..] == s;
    if |s| > 0 {
      ContainsAt(s[1..], part);
      if Contains(s[1..], part) {
        var i :| 0 <= i <= |s[1..]| && StartsWith(s[1..][i..], part);
        assert s[1..][i..] == s[i + 1..];
      }
      forall i | 0 < i <= |s| && StartsWith(s[i..], part)
        ensures Contains(s[1..], part)
      {
        assert s[1..][i - 1..] == s[i..];
      }
    }
  }

  /** `c.toLowerCase()` for one character; only the ASCII letters are folded. */
  function LowerChar(c: char): char
  {
    if 'A' <= c <= 'Z' then (c as int + 32) as char else c
  }

  /** `s.toLowerCase()`, folding the ASCII letters one by one. */
  function ToLower(s: string): (r: string)
    ensures |r| == |s|
    ensures forall i :: 0 <= i < |s| ==> r[i] == LowerChar(s[i])
  {
    seq(|s|, i requires 0 <= i < |s| => LowerChar(s[i]))
  }

  /** Lower-casing twice is lower-casing once. */
  lemma ToLowerIdempotent(s: string)
    ensures ToLower(ToLower(s)) == ToLower(s)
  {
    var once := ToLower(s);
    assert forall i :: 0 <= i < |s| ==> LowerChar(once[i]) == once[i];
  }

  /** `parts.join(sep)`. */
  function Join(parts: seq<string>, sep: string): string
  {
    if parts == [] then ""
    else if |parts| == 1 then parts[0]
    else parts[0] + sep + Join(parts[1..], sep)
  }

  /** `n` copies of `c`. */
  function Repeat(c: char, n: nat): (r: string)
    ensures |r| == n
    ensures forall i :: 0 <= i < n ==> r[i] == c
  {
    if n == 0 then "" else [c] + Repeat(c, n - 1)
  }

  /** `s.padStart(width, [fill])`: fill on the left up to `width`; never truncates. */
  function PadStart(s: string, width: nat, fill: char): (r: string)
    ensures |r| == if |s| < width then width else |s|
    ensures r == Repeat(fill, |r| - |s|) + s
  {
    if |s| < width then Repeat(fill, width - |s|) + s else s
  }
}
