/**
 * The string operations the converter relies on: ASCII lower-casing, Python's
 * substring test `a in s`, splitting on a separator, path stems and
 * extensions, character stripping and decimal rendering.
 */
module Text {
  import opened Wrappers

  /** Lower-cases one ASCII letter; every other character is kept. */
  function LowerChar(c: char): (r: char)
    ensures 'A' <= c <= 'Z' ==> 'a' <= r <= 'z' && r as int == c as int + 32
    ensures !('A' <= c <= 'Z') ==> r == c
  {
    if 'A' <= c <= 'Z' then (c as int + 32) as char else c
  }

  /** `s.lower()` on ASCII text. */
  function Lower(s: string): (r: string)
    ensures |r| == |s|
    ensures forall i :: 0 <= i < |s| ==> r[i] == LowerChar(s[i])
  {
    seq(|s|, i requires 0 <= i < |s| => LowerChar(s[i]))
  }

  /** Python's `a in s` for strings: `a` occurs somewhere in `s`. */
  predicate IsInfix(a: string, s: string)
  {
    a <= s || (s != [] && IsInfix(a, s[1..]))
  }

  /** `any(p in s for p in pats)`. */
  predicate ContainsAny(s: string, pats: seq<string>)
  {
    exists i :: 0 <= i < |pats| && IsInfix(pats[i], s)
  }

  /** `s.endswith(suffix)`. */
  predicate EndsWith(s: string, suffix: string)
  {
    suffix == [] || (s != [] && s[|s| - 1] == suffix[|suffix| - 1] && EndsWith(s[..|s| - 1], suffix[..|suffix| - 1]))
  }

  /** Index of the last occurrence of a character satisfying `isSep`, if any. */
  function LastIndexWhere(s: string, isSep: char -> bool): (r: Option<nat>)
    ensures r.None? ==> forall i :: 0 <= i < |s| ==> !isSep(s[i])
    ensures r.Some? ==> r.value < |s| && isSep(s[r.value])
    ensures r.Some? ==> forall i :: r.value < i < |s| ==> !isSep(s[i])
  {
    if s == [] then None
    else if isSep(s[|s| - 1]) then Some(|s| - 1)
    else LastIndexWhere(s[..|s| - 1], isSep)
  }

  /** `s.split(sep)[-1]`: what follows the last `sep`, or all of `s`. */
  function LastSegment(s: string, sep: char): (r: string)
    ensures sep !in r
    ensures sep !in s ==> r == s
  {
    match LastIndexWhere(s, c => c == sep)
    case None => s
    case Some(i) => s[i + 1..]
  }

  /** Directory separators of the Windows path flavour the converter is deployed with. */
  predicate IsPathSeparator(c: char)
  {
    c == '/' || c == '\\'
  }

  /** `os.path.basename(p)`: the part after the last directory separator. */
  function Basename(p: string): (r: string)
    ensures forall i :: 0 <= i < |r| ==> !IsPathSeparator(r[i])
  {
    match LastIndexWhere(p, IsPathSeparator)
    case None => p
    case Some(i) => p[i + 1..]
  }

  /**
   * `os.path.splitext(b)[0]` for a name without separators: the text before
   * the last dot, unless every character before that dot is itself a dot.
   */
  function SplitExtRoot(b: string): (r: string)
    ensures r <= b
    ensures r != b ==> '.' in b[|r|..] && b[|r|] == '.'
  {
    match LastIndexWhere(b, c => c == '.')
    case None => b
    case Some(i) =>
      if exists j :: 0 <= j < i && b[j] != '.' then b[..i] else b
  }

  /** `pathlib.PurePath(name).stem` for a bare file name. */
  function Stem(name: string): (r: string)
    ensures r <= name
    ensures r != name ==> name[|r|] == '.' && '.' !in name[|r| + 1..] && 0 < |r| && |r| < |name| - 1
  {
    match LastIndexWhere(name, c => c == '.')
    case None => name
    case Some(i) => if 0 < i < |name| - 1 then name[..i] else name
  }

  /** `s.strip(chars)`: drops leading and trailing characters that are in `chars`. */
  function Strip(s: string, chars: set<char>): (r: string)
    ensures r != [] ==> r[0] !in chars && r[|r| - 1] !in chars
    ensures var k := |s| - |StripLeft(s, chars)|;
      && k + |r| <= |s| && r == s[k..k + |r|]
      && (forall i :: 0 <= i < k ==> s[i] in chars)
      && (forall i :: k + |r| <= i < |s| ==> s[i] in chars)
  {
    StripRight(StripLeft(s, chars), chars)
  }

  function StripLeft(s: string, chars: set<char>): (r: string)
    ensures |r| <= |s| && r == s[|s| - |r|..]
    ensures r != [] ==> r[0] !in chars
    ensures forall i :: 0 <= i < |s| - |r| ==> s[i] in chars
  {
    if s != [] && s[0] in chars then StripLeft(s[1..], chars) else s
  }

  function StripRight(s: string, chars: set<char>): (r: string)
    ensures |r| <= |s| && r == s[..|r|]
    ensures r != [] ==> r[|r| - 1] !in chars
    ensures forall i :: |r| <= i < |s| ==> s[i] in chars
  {
    if s != [] && s[|s| - 1] in chars then StripRight(s[..|s| - 1], chars) else s
  }

  predicate IsAsciiAlnum(c: char)
  {
    'a' <= c <= 'z' || 'A' <= c <= 'Z' || '0' <= c <= '9'
  }

  /** `re.sub(r'[^a-zA-Z0-9]', '', s)`: keeps ASCII letters and digits, in order. */
  function KeepAlnum(s: string): (r: string)
    ensures |r| <= |s|
    ensures forall i :: 0 <= i < |r| ==> IsAsciiAlnum(r[i])
    ensures (forall i :: 0 <= i < |s| ==> IsAsciiAlnum(s[i])) ==> r == s
  {
    if s == [] then []
    else if IsAsciiAlnum(s[0]) then [s[0]] + KeepAlnum(s[1..])
    else KeepAlnum(s[1..])
  }

  /** `s.replace(a, b)` for single characters. */
  function ReplaceChar(s: string, a: char, b: char): (r: string)
    ensures |r| == |s|
    ensures forall i :: 0 <= i < |s| ==> r[i] == (if s[i] == a then b else s[i])
  {
    seq(|s|, i requires 0 <= i < |s| => if s[i] == a then b else s[i])
  }

  /** `s[:n]`. */
  function Take(s: string, n: nat): (r: string)
    ensures r <= s && |r| == if |s| < n then |s| else n
  {
    if |s| <= n then s else s[..n]
  }

  function DigitChar(d: nat): char
    requires d < 10
  {
    ['0', '1', '2', '3', '4', '5', '6', '7', '8', '9'][d]
  }

  /** `str(n)` for a natural number. */
  function NatToString(n: nat): (r: string)
    ensures r != []
    ensures forall i :: 0 <= i < |r| ==> '0' <= r[i] <= '9'
  {
    if n < 10 then [DigitChar(n)] else NatToString(n / 10) + [DigitChar(n % 10)]
  }
}
