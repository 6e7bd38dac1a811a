/** String helpers with the semantics of the JavaScript built-ins the source uses. */
module Text {
  import opened Wrappers

  /** JavaScript's WhiteSpace and LineTerminator characters: what `trim()` strips and `\s` matches. */
  predicate IsSpace(c: char) {
    || c == ' ' || c == '\t' || c == '\n' || c == '\r' || c == '\U{000B}' || c == '\U{000C}'
    || c == '\U{00A0}' || c == '\U{1680}' || ('\U{2000}' <= c <= '\U{200A}')
    || c == '\U{2028}' || c == '\U{2029}' || c == '\U{202F}' || c == '\U{205F}'
    || c == '\U{3000}' || c == '\U{FEFF}'
  }

  predicate IsDigit(c: char) {
    '0' <= c <= '9'
  }

  predicate IsAsciiLetter(c: char) {
    ('a' <= c <= 'z') || ('A' <= c <= 'Z')
  }

  predicate StartsWith(s: string, prefix: string) {
    |prefix| <= |s| && s[..|prefix|] == prefix
  }

  predicate EndsWith(s: string, suffix: string) {
    |suffix| <= |s| && s[|s| - |suffix|..] == suffix
  }

  /** `s.trimStart()`: drops the longest all-space prefix. */
  function TrimStart(s: string): (r: string)
    ensures |r| <= |s| && r == s[|s| - |r|..]
    ensures r == [] || !IsSpace(r[0])
    ensures forall i :: 0 <= i < |s| - |r| ==> IsSpace(s[i])
  {
    if s != [] && IsSpace(s[0]) then TrimStart(s[1..]) else s
  }

  /** The number of spaces `s` starts with. */
  function LeadingSpaces(s: string): (n: nat)
    ensures n <= |s| && (n < |s| ==> !IsSpace(s[n]))
    ensures forall k :: 0 <= k < n ==> IsSpace(s[k])
  {
    if s != [] && IsSpace(s[0]) then 1 + LeadingSpaces(s[1..]) else 0
  }

  /** The number of spaces `s` ends with. */
  function TrailingSpaces(s: string): (n: nat)
    ensures n <= |s| && (n < |s| ==> !IsSpace(s[|s| - 1 - n]))
    ensures forall k :: |s| - n <= k < |s| ==> IsSpace(s[k])
  {
    if s != [] && IsSpace(s[|s| - 1]) then 1 + TrailingSpaces(s[..|s| - 1]) else 0
  }

  /** `s.trim()`: the result is a slice of `s` with no space at either end, and only spaces were cut. */
  function Trim(s: string): (r: string)
    ensures var i := LeadingSpaces(s);
      && i + |r| <= |s| && r == s[i..i + |r|]
      && (forall k :: i + |r| <= k < |s| ==> IsSpace(s[k]))
    ensures r == [] || (!IsSpace(r[0]) && !IsSpace(r[|r| - 1]))
  {
    var i := LeadingSpaces(s);
    if i == |s| then []
    else
      var j := |s| - TrailingSpaces(s);
      s[i..j]
  }

  /** `String.prototype.toLowerCase` on one character, for the characters whose lower case is
      ASCII: the letters A to Z and U+212A KELVIN SIGN, which lowers to "k". Every other character
      is kept; JavaScript maps some of those to other non-ASCII text, which is left out. */
  function LowerChar(c: char): char {
    if 'A' <= c <= 'Z' then (c as int + 32) as char
    else if c == KelvinSign then 'k'
    else c
  }

  const KelvinSign: char := '\U{212A}'
  const DotlessI: char := '\U{0131}'
  const LongS: char := '\U{017F}'
  const SharpS: char := '\U{00DF}'

  /** `String.prototype.toUpperCase` on one character, for the characters whose upper case is
      ASCII: a to z, dotless i, long s, sharp s ("SS") and the Latin ligatures U+FB00 to U+FB06.
      Every other character is kept. */
  function UpperChar(c: char): (r: string)
    ensures 1 <= |r| <= 3
  {
    if 'a' <= c <= 'z' then [(c as int - 32) as char]
    else if c == DotlessI then "I"
    else if c == LongS then "S"
    else if c == SharpS then "SS"
    else if c == '\U{FB00}' then "FF"
    else if c == '\U{FB01}' then "FI"
    else if c == '\U{FB02}' then "FL"
    else if c == '\U{FB03}' then "FFI"
    else if c == '\U{FB04}' then "FFL"
    else if c == '\U{FB05}' || c == '\U{FB06}' then "ST"
    else [c]
  }

  predicate IsAscii(c: char) {
    c as int < 128
  }

  function Lower(s: string): (r: string)
    ensures |r| == |s| && forall i :: 0 <= i < |s| ==> r[i] == LowerChar(s[i])
  {
    if s == [] then [] else [LowerChar(s[0])] + Lower(s[1..])
  }

  /** The characters' upper cases, concatenated. */
  function Upper(s: string): (r: string)
    ensures |s| <= |r| <= 3 * |s|
    decreases |s|
  {
    if s == [] then [] else UpperChar(s[0]) + Upper(s[1..])
  }

  /** On ASCII text `Upper` maps character by character, changing only a to z. */
  lemma {:induction false} UpperAscii(s: string)
    requires forall i :: 0 <= i < |s| ==> IsAscii(s[i])
    ensures |Upper(s)| == |s|
    ensures forall i :: 0 <= i < |s| ==> Upper(s)[i] == (if 'a' <= s[i] <= 'z' then (s[i] as int - 32) as char else s[i])
    decreases |s|
  {
    if s != [] {
      UpperAscii(s[1..]);
      assert Upper(s) == UpperChar(s[0]) + Upper(s[1..]);
    }
  }

  /** Upper-casing a character followed by more text. */
  lemma UpperCons(c: char, s: string)
    ensures Upper([c] + s) == UpperChar(c) + Upper(s)
  {
    assert ([c] + s)[1..] == s;
  }

  /** The Kelvin sign lowers to an ASCII "k", as in JavaScript. */
  lemma KelvinLowers()
    ensures Lower("tas\U{212A}s") == "tasks"
  {
  }

  /** Dotless i upper-cases to "I", as in JavaScript. */
  lemma DotlessIUppers()
    ensures Upper("pend\U{0131}ng") == "PENDING"
  {
    UpperCons('g', ""); UpperCons('n', "g"); UpperCons(DotlessI, "ng");
    UpperCons('d', "\U{0131}ng"); UpperCons('n', "d\U{0131}ng"); UpperCons('e', "nd\U{0131}ng");
    UpperCons('p', "end\U{0131}ng");
  }

  /** Sharp s upper-cases to two characters, as in JavaScript. */
  lemma SharpSUppers()
    ensures Upper("\U{00DF}") == "SS"
  {
    UpperCons(SharpS, "");
  }

  /** `s.length`: the number of UTF-16 code units, two for a character beyond U+FFFF. */
  function Utf16Length(s: string): (n: nat)
    ensures |s| <= n <= 2 * |s|
    ensures (forall i :: 0 <= i < |s| ==> s[i] as int <= 0xFFFF) ==> n == |s|
    decreases |s|
  {
    if s == [] then 0 else (if s[0] as int > 0xFFFF then 2 else 1) + Utf16Length(s[1..])
  }

  /** An emoji is one character and two code units. */
  lemma EmojiLength()
    ensures |"\U{1F600}"| == 1 && Utf16Length("\U{1F600}") == 2
  {
    assert Utf16Length("\U{1F600}") == 2 + Utf16Length("");
  }

  /** `parts.join(sep)`. */
  function Join(parts: seq<string>, sep: string): (r: string)
    ensures parts == [] ==> r == ""
    ensures |parts| == 1 ==> r == parts[0]
  {
    if |parts| == 0 then ""
    else if |parts| == 1 then parts[0]
    else parts[0] + sep + Join(parts[1..], sep)
  }

  /** The index of the first `c` in `s`, or `|s|` when there is none. */
  function IndexOf(s: string, c: char): (i: nat)
    ensures i <= |s| && (i < |s| ==> s[i] == c)
    ensures forall k :: 0 <= k < i ==> s[k] != c
  {
    if s == [] || s[0] == c then 0 else 1 + IndexOf(s[1..], c)
  }

  /** `s.split(c)` for a one-character separator. */
  function SplitOn(s: string, c: char): (parts: seq<string>)
    ensures |parts| >= 1
    ensures parts[0] == s[..IndexOf(s, c)]
    decreases |s|
  {
    var i := IndexOf(s, c);
    if i == |s| then [s] else [s[..i]] + SplitOn(s[i + 1..], c)
  }

  /** Splitting on `c` and joining the pieces with `c` gives back the string. */
  lemma {:induction false} JoinSplitOn(s: string, c: char)
    ensures Join(SplitOn(s, c), [c]) == s
    decreases |s|
  {
    var i := IndexOf(s, c);
    if i < |s| {
      var tail := s[i + 1..];
      JoinSplitOn(tail, c);
      assert SplitOn(s, c) == [s[..i]] + SplitOn(tail, c);
      assert s == s[..i] + [c] + tail;
    }
  }

  /** What follows the first `c`, rejoined with `c`, is everything after the first `c`. */
  lemma RestAfterFirst(s: string, c: char)
    requires c in s
    ensures IndexOf(s, c) < |s|
    ensures Join(SplitOn(s, c)[1..], [c]) == s[IndexOf(s, c) + 1..]
  {
    var i := IndexOf(s, c);
    assert SplitOn(s, c)[1..] == SplitOn(s[i + 1..], c);
    JoinSplitOn(s[i + 1..], c);
  }

  /** The index of the first space in `s`, or `|s|`. */
  function SpaceIndex(s: string): (i: nat)
    ensures i <= |s| && (i < |s| ==> IsSpace(s[i]))
    ensures forall k :: 0 <= k < i ==> !IsSpace(s[k])
  {
    if s == [] || IsSpace(s[0]) then 0 else 1 + SpaceIndex(s[1..])
  }

  /** `s.split(/\s+/)`: split at every maximal run of spaces. */
  function SplitSpaces(s: string): (parts: seq<string>)
    ensures |parts| >= 1
    ensures parts[0] == s[..SpaceIndex(s)]
    decreases |s|
  {
    var i := SpaceIndex(s);
    if i == |s| then [s]
    else
      var rest := TrimStart(s[i..]);
      [s[..i]] + SplitSpaces(rest)
  }

  /** Decimal rendering of a natural number, as template literals print it. */
  function NatToString(n: nat): (r: string)
    ensures |r| >= 1 && forall i :: 0 <= i < |r| ==> IsDigit(r[i])
  {
    var d := ['0' + (n % 10) as char];
    if n < 10 then d else NatToString(n / 10) + d
  }

  /** Distinct numbers print differently. */
  lemma {:induction false} NatToStringInjective(m: nat, n: nat)
    requires NatToString(m) == NatToString(n)
    ensures m == n
  {
    var a, b := NatToString(m), NatToString(n);
    assert a[|a| - 1] == ('0' + (m % 10) as char);
    assert b[|b| - 1] == ('0' + (n % 10) as char);
    assert m % 10 == n % 10;
    if m >= 10 && n >= 10 {
      assert NatToString(m / 10) == a[..|a| - 1];
      assert NatToString(n / 10) == b[..|b| - 1];
      NatToStringInjective(m / 10, n / 10);
    }
  }
}
