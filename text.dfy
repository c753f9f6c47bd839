/** The few Python string operations the invoice code relies on, on `seq<char>`. */
module Text {

  /** str.isspace() for one character: the characters Python counts as whitespace. */
  predicate IsSpace(c: char)
  {
    var n := c as int;
    n == 0x20 || 0x09 <= n <= 0x0D || 0x1C <= n <= 0x1F || n == 0x85 || n == 0xA0 || n == 0x1680 ||
    0x2000 <= n <= 0x200A || n == 0x2028 || n == 0x2029 || n == 0x202F || n == 0x205F || n == 0x3000
  }

  /** s.lstrip(): drop leading whitespace. */
  function StripLeft(s: string): (r: string)
    ensures |r| <= |s| && r == s[|s| - |r|..]
    ensures r == [] || !IsSpace(r[0])
    ensures forall i :: 0 <= i < |s| - |r| ==> IsSpace(s[i])
  {
    if s != [] && IsSpace(s[0]) then StripLeft(s[1..]) else s
  }

  /** s.rstrip(): drop trailing whitespace. */
  function StripRight(s: string): (r: string)
    ensures |r| <= |s| && r == s[..|r|]
    ensures r == [] || !IsSpace(r[|r| - 1])
    ensures forall i :: |r| <= i < |s| ==> IsSpace(s[i])
  {
    if s != [] && IsSpace(s[|s| - 1]) then StripRight(s[..|s| - 1]) else s
  }

  /** s.strip(). */
  function Strip(s: string): string
  {
    StripRight(StripLeft(s))
  }

  /** A string whose strip() is empty consists of whitespace only, and conversely. */
  lemma StripEmpty(s: string)
    ensures Strip(s) == [] <==> forall i :: 0 <= i < |s| ==> IsSpace(s[i])
  {
    var l := StripLeft(s);
    if Strip(s) == [] {
      assert l == [];
    }
  }

  /** s.replace(a, b) for a single character a and a replacement text b. */
  function ReplaceChar(s: string, a: char, b: string): (r: string)
    ensures b == [a] ==> r == s
    ensures (forall i :: 0 <= i < |s| ==> s[i] != a) ==> r == s
  {
    if s == [] then []
    else (if s[0] == a then b else [s[0]]) + ReplaceChar(s[1..], a, b)
  }

  /** Every occurrence of a is replaced by a character c, and nothing else changes. */
  lemma ReplaceCharByChar(s: string, a: char, c: char)
    ensures |ReplaceChar(s, a, [c])| == |s|
    ensures forall i :: 0 <= i < |s| ==> ReplaceChar(s, a, [c])[i] == (if s[i] == a then c else s[i])
  {
  }

  /** The text `sep`.join(parts). */
  function Join(sep: string, parts: seq<string>): string
  {
    if parts == [] then []
    else if |parts| == 1 then parts[0]
    else Join(sep, parts[..|parts| - 1]) + sep + parts[|parts| - 1]
  }

  predicate StartsWith(s: string, prefix: string)
  {
    |prefix| <= |s| && s[..|prefix|] == prefix
  }

  /** s[:n]: at most the first n characters. */
  function Take(s: string, n: nat): (r: string)
    ensures |r| == if |s| < n then |s| else n
    ensures r == s[..|r|]
  {
    if |s| <= n then s else s[..n]
  }

  /** str.upper() on the characters a hex digest is made of. */
  function UpperHex(s: string): (r: string)
    ensures |r| == |s|
    ensures forall i :: 0 <= i < |s| ==> r[i] == (if 'a' <= s[i] <= 'f' then (s[i] as int - 32) as char else s[i])
  {
    if s == [] then [] else [if 'a' <= s[0] <= 'f' then (s[0] as int - 32) as char else s[0]] + UpperHex(s[1..])
  }
}
