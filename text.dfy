/** The string functions of PHP and JavaScript that the chat code relies on,
    restricted to what the model needs: ASCII case mapping (`mb_strtolower`,
    `ucwords`), trimming over a fixed whitespace set (`trim`, `String.trim`),
    substring search (`str_contains`), character replacement (`str_replace`)
    and the decimal rendering of a whole number (template literals). */
module Text {

  predicate IsUpper(c: char) { 'A' <= c <= 'Z' }
  predicate IsLower(c: char) { 'a' <= c <= 'z' }
  predicate IsDigit(c: char) { '0' <= c <= '9' }

  function LowerChar(c: char): (r: char)
    ensures IsUpper(c) ==> IsLower(r)
    ensures !IsUpper(c) ==> r == c
  {
    if IsUpper(c) then (c as int + 32) as char else c
  }

  function UpperChar(c: char): (r: char)
    ensures IsLower(c) ==> IsUpper(r)
    ensures !IsLower(c) ==> r == c
  {
    if IsLower(c) then (c as int - 32) as char else c
  }

  /** `mb_strtolower`, for the ASCII letters. */
  function Lower(s: string): (r: string)
    ensures |r| == |s|
    ensures forall i :: 0 <= i < |s| ==> r[i] == LowerChar(s[i])
  {
    seq(|s|, i requires 0 <= i < |s| => LowerChar(s[i]))
  }

  predicate IsLowerCase(s: string) {
    forall i :: 0 <= i < |s| ==> !IsUpper(s[i])
  }

  lemma LowerOfLowerCase(s: string)
    requires IsLowerCase(s)
    ensures Lower(s) == s
  {
  }

  lemma LowerIsLowerCase(s: string)
    ensures IsLowerCase(Lower(s))
    ensures Lower(Lower(s)) == Lower(s)
  {
  }

  /** The characters PHP's `trim` removes by default. */
  const PhpWhitespace: set<char> := {' ', '\t', '\n', '\r', '\0', '\U{000B}'}

  /** The characters JavaScript's `String.prototype.trim` removes: the
      white space and line terminators of ECMAScript, that is tab, the
      vertical tab, form feed, space, no-break space, the byte-order mark,
      the other space separators of Unicode 15, and line feed, carriage
      return and the line and paragraph separators. */
  const JsWhitespace: set<char> := {
    '\t', '\U{000B}', '\U{000C}', ' ', '\U{00A0}', '\U{FEFF}',
    '\U{1680}', '\U{2000}', '\U{2001}', '\U{2002}', '\U{2003}', '\U{2004}', '\U{2005}',
    '\U{2006}', '\U{2007}', '\U{2008}', '\U{2009}', '\U{200A}', '\U{202F}', '\U{205F}',
    '\U{3000}', '\n', '\r', '\U{2028}', '\U{2029}'}

  /** A whitespace set that case mapping cannot enter or leave. */
  predicate LetterFree(ws: set<char>) {
    forall c :: c in ws ==> !IsUpper(c) && !IsLower(c)
  }

  function TrimLeft(s: string, ws: set<char>): (r: string)
    ensures r == [] || r[0] !in ws
    ensures |r| <= |s| && r == s[|s| - |r|..]
    ensures forall k :: 0 <= k < |s| - |r| ==> s[k] in ws
  {
    if |s| > 0 && s[0] in ws then TrimLeft(s[1..], ws) else s
  }

  function TrimRight(s: string, ws: set<char>): (r: string)
    ensures r == [] || r[|r| - 1] !in ws
    ensures |r| <= |s| && r == s[..|r|]
    ensures forall k :: |r| <= k < |s| ==> s[k] in ws
  {
    if |s| > 0 && s[|s| - 1] in ws then TrimRight(s[..|s| - 1], ws) else s
  }

  /** `trim`: whitespace removed from both ends. */
  function Trim(s: string, ws: set<char>): string {
    TrimRight(TrimLeft(s, ws), ws)
  }

  /** A trimmed string has no whitespace at either end, and it is what is
      left of `s` once a run of whitespace is cut from each end. */
  lemma TrimShape(s: string, ws: set<char>)
    ensures var r := Trim(s, ws);
      (r == [] || (r[0] !in ws && r[|r| - 1] !in ws))
      && exists a, b :: 0 <= a <= b <= |s| && r == s[a..b]
  {
    var l := TrimLeft(s, ws);
    var r := TrimRight(l, ws);
    assert r == [] || r[0] == l[0];
    var a := |s| - |l|;
    assert r == s[a..a + |r|];
  }

  lemma {:induction false} TrimLeftNoop(s: string, ws: set<char>)
    requires s == [] || s[0] !in ws
    ensures TrimLeft(s, ws) == s
  {
  }

  lemma {:induction false} TrimRightNoop(s: string, ws: set<char>)
    requires s == [] || s[|s| - 1] !in ws
    ensures TrimRight(s, ws) == s
  {
  }

  /** Trimming twice is trimming once. */
  lemma {:induction false} TrimIdempotent(s: string, ws: set<char>)
    ensures Trim(Trim(s, ws), ws) == Trim(s, ws)
  {
    var r := Trim(s, ws);
    TrimShape(s, ws);
    TrimLeftNoop(r, ws);
    TrimRightNoop(r, ws);
  }

  lemma {:induction false} TrimLeftLower(s: string, ws: set<char>)
    requires LetterFree(ws)
    ensures TrimLeft(Lower(s), ws) == Lower(TrimLeft(s, ws))
    decreases |s|
  {
    if |s| > 0 {
      assert Lower(s)[0] in ws <==> s[0] in ws;
      assert Lower(s)[1..] == Lower(s[1..]);
      TrimLeftLower(s[1..], ws);
    }
  }

  lemma {:induction false} TrimRightLower(s: string, ws: set<char>)
    requires LetterFree(ws)
    ensures TrimRight(Lower(s), ws) == Lower(TrimRight(s, ws))
    decreases |s|
  {
    if |s| > 0 {
      var t := s[..|s| - 1];
      var l := Lower(s);
      assert l[..|s| - 1] == Lower(t);
      assert l[|s| - 1] in ws <==> s[|s| - 1] in ws;
      if s[|s| - 1] in ws {
        TrimRightLower(t, ws);
      }
    }
  }

  /** Trimming and lower-casing commute when no whitespace is a letter. */
  lemma TrimLowerCommute(s: string, ws: set<char>)
    requires LetterFree(ws)
    ensures Trim(Lower(s), ws) == Lower(Trim(s, ws))
  {
    TrimLeftLower(s, ws);
    TrimRightLower(TrimLeft(s, ws), ws);
  }

  lemma PhpWhitespaceLetterFree()
    ensures LetterFree(PhpWhitespace)
  {
  }

  predicate OccursAt(hay: string, needle: string, i: int) {
    0 <= i && i + |needle| <= |hay| && hay[i..i + |needle|] == needle
  }

  /** PHP 8 `str_contains`: `needle` is a contiguous part of `hay`. The
      empty needle is contained in every string. */
  predicate Contains(hay: string, needle: string) {
    exists i | 0 <= i <= |hay| - |needle| :: OccursAt(hay, needle, i)
  }

  /** A needle whose first character does not occur in `hay` is not
      contained in it. */
  lemma FirstCharAbsent(hay: string, needle: string)
    requires needle != [] && needle[0] !in hay
    ensures !Contains(hay, needle)
  {
    forall i | 0 <= i <= |hay| - |needle|
      ensures !OccursAt(hay, needle, i)
    {
      assert hay[i..i + |needle|][0] == hay[i] && hay[i] in hay;
    }
  }

  /** A string occurs in any string that surrounds it. */
  lemma ContainsInContext(pre: string, needle: string, post: string)
    ensures Contains(pre + needle + post, needle)
  {
    var hay := pre + needle + post;
    assert hay[|pre|..|pre| + |needle|] == needle;
    assert OccursAt(hay, needle, |pre|);
  }

  /** `str_replace(from, to, s)` for one character. */
  function ReplaceChar(s: string, from: char, to: char): (r: string)
    ensures |r| == |s|
    ensures forall i :: 0 <= i < |s| ==> r[i] == (if s[i] == from then to else s[i])
  {
    seq(|s|, i requires 0 <= i < |s| => if s[i] == from then to else s[i])
  }

  /** The default word delimiters of PHP's `ucwords`. */
  const WordDelimiters: set<char> := {' ', '\t', '\r', '\n', '\U{000C}', '\U{000B}'}

  /** `ucwords`: the first character and every character that follows a
      delimiter are upper-cased; nothing else changes. */
  function UcWords(s: string): (r: string)
    ensures |r| == |s|
  {
    seq(|s|, i requires 0 <= i < |s| =>
      if i == 0 || s[i - 1] in WordDelimiters then UpperChar(s[i]) else s[i])
  }

  /** `ucwords` changes case only: lower-casing its result gives the
      lower-casing of its input. */
  lemma UcWordsOnlyChangesCase(s: string)
    ensures Lower(UcWords(s)) == Lower(s)
  {
    forall i | 0 <= i < |s| ensures Lower(UcWords(s))[i] == Lower(s)[i] {
      var c := s[i];
      assert LowerChar(UpperChar(c)) == LowerChar(c);
    }
  }

  /** `str_replace` of one character works piecewise. */
  lemma ReplaceCharAppend(a: string, b: string, from: char, to: char)
    ensures ReplaceChar(a + [from] + b, from, to) == ReplaceChar(a, from, to) + [to] + ReplaceChar(b, from, to)
  {
  }

  /** `ucwords` works word by word: a space starts a new word. */
  lemma UcWordsSpace(a: string, b: string)
    requires a != []
    ensures UcWords(a + " " + b) == UcWords(a) + " " + UcWords(b)
  {
    var s := a + " " + b;
    var r := UcWords(a) + " " + UcWords(b);
    forall i | 0 <= i < |s| ensures UcWords(s)[i] == r[i] {
      if i < |a| {
        assert s[i] == a[i] && (i > 0 ==> s[i - 1] == a[i - 1]);
      } else if i == |a| {
        assert s[i] == ' ';
      } else {
        var j := i - |a| - 1;
        assert s[i] == b[j] && r[i] == UcWords(b)[j];
        if j > 0 {
          assert s[i - 1] == b[j - 1];
        } else {
          assert s[i - 1] == ' ';
        }
      }
    }
  }

  function DigitChar(d: nat): (c: char)
    requires d < 10
    ensures IsDigit(c)
  {
    ('0' as int + d) as char
  }

  function DigitValue(c: char): nat
    requires IsDigit(c)
  {
    c as int - '0' as int
  }

  /** The decimal text of a whole number, as a template literal renders it:
      no sign, no leading zeros. */
  function NatToString(n: nat): (r: string)
    ensures |r| > 0 && forall i :: 0 <= i < |r| ==> IsDigit(r[i])
    ensures |r| > 1 ==> r[0] != '0'
  {
    if n < 10 then [DigitChar(n)] else NatToString(n / 10) + [DigitChar(n % 10)]
  }

  predicate AllDigits(s: string) {
    forall i :: 0 <= i < |s| ==> IsDigit(s[i])
  }

  function ParseNat(s: string): nat
    requires AllDigits(s)
  {
    if s == [] then 0 else ParseNat(s[..|s| - 1]) * 10 + DigitValue(s[|s| - 1])
  }

  /** Reading the decimal text back gives the number. */
  lemma {:induction false} NatToStringRoundTrip(n: nat)
    ensures ParseNat(NatToString(n)) == n
  {
    var s := NatToString(n);
    if n >= 10 {
      NatToStringRoundTrip(n / 10);
      assert s[..|s| - 1] == NatToString(n / 10);
    }
  }

  /** Distinct numbers have distinct decimal texts. */
  lemma NatToStringInjective(m: nat, n: nat)
    requires NatToString(m) == NatToString(n)
    ensures m == n
  {
    NatToStringRoundTrip(m);
    NatToStringRoundTrip(n);
  }
}
