/**
  * String primitives of the PHP runtime that the plugin relies on, on
  * `seq<char>`: ASCII case mapping (strtolower, strtoupper, ucwords),
  * substring search (strpos), single-character str_replace, implode and
  * the decimal rendering of a non-negative integer (sprintf "%d").
  *
  * Case mapping is ASCII only, as in PHP 8: characters outside 'A'..'Z'
  * and 'a'..'z' are left as they are.
  */
module Strings {

  datatype Option<T> = None | Some(value: T)

  predicate IsUpper(c: char) { 'A' <= c <= 'Z' }

  predicate IsLower(c: char) { 'a' <= c <= 'z' }

  function LowerChar(c: char): (r: char)
    ensures !IsUpper(r)
    ensures IsUpper(c) ==> r as int == c as int + 32
    ensures !IsUpper(c) ==> r == c
  {
    if IsUpper(c) then (c as int + 32) as char else c
  }

  function UpperChar(c: char): (r: char)
    ensures !IsLower(r)
    ensures IsLower(c) ==> r as int == c as int - 32
    ensures !IsLower(c) ==> r == c
  {
    if IsLower(c) then (c as int - 32) as char else c
  }

  /**
    * strtolower: maps every character independently. The result has no
    * upper-case letter, and only upper-case letters change.
    */
  function Lower(s: string): (r: string)
    ensures |r| == |s|
    ensures forall i :: 0 <= i < |s| ==> r[i] == LowerChar(s[i])
    ensures forall i :: 0 <= i < |r| ==> !IsUpper(r[i])
    ensures forall i :: 0 <= i < |s| && !IsUpper(s[i]) ==> r[i] == s[i]
  {
    seq(|s|, i requires 0 <= i < |s| => LowerChar(s[i]))
  }

  /** Lower-casing twice is lower-casing once. */
  lemma LowerIdempotent(s: string)
    ensures Lower(Lower(s)) == Lower(s)
  {
  }

  /** The word separators of ucwords' default delimiter list " \t\r\n\f\v". */
  predicate IsWordDelimiter(c: char) {
    c == ' ' || c == '\t' || c == '\r' || c == '\n' || c == '\U{C}' || c == '\U{B}'
  }

  /**
    * ucwords: the first character, and every character that follows a
    * delimiter, is upper-cased; all other characters are kept.
    */
  function UcWords(s: string): (r: string)
    ensures |r| == |s|
    ensures forall i :: 0 <= i < |s| ==> r[i] == UcWordsAt(s, i)
  {
    seq(|s|, i requires 0 <= i < |s| => UcWordsAt(s, i))
  }

  /** The character ucwords leaves at index `i`. */
  function UcWordsAt(s: string, i: nat): char
    requires i < |s|
  {
    if i == 0 || IsWordDelimiter(s[i - 1]) then UpperChar(s[i]) else s[i]
  }

  /**
    * str_replace with a one-character search string and replacement:
    * afterwards the searched character is gone (unless it is the
    * replacement), and every other character is where it was.
    */
  function ReplaceChar(s: string, from: char, to: char): (r: string)
    ensures |r| == |s|
    ensures forall i :: 0 <= i < |s| ==> r[i] == (if s[i] == from then to else s[i])
    ensures from != to ==> from !in r
    ensures forall c :: c != from && c != to ==> (c in r <==> c in s)
  {
    seq(|s|, i requires 0 <= i < |s| => if s[i] == from then to else s[i])
  }

  /** `t` occurs in `s` starting at index `i`. */
  predicate MatchAt(s: string, t: string, i: int) {
    0 <= i <= |s| - |t| && s[i..i + |t|] == t
  }

  /** strpos(s, t) !== false. */
  predicate Contains(s: string, t: string) {
    exists i | 0 <= i <= |s| - |t| :: MatchAt(s, t, i)
  }

  /** A needle one of whose characters does not occur in `s` is not contained in `s`. */
  lemma AbsentChar(s: string, t: string, k: nat)
    requires k < |t| && t[k] !in s
    ensures !Contains(s, t)
  {
    forall i | 0 <= i <= |s| - |t| ensures !MatchAt(s, t, i) {
      assert s[i..i + |t|][k] == s[i + k];
    }
  }

  /** A needle two adjacent characters of which never occur side by side in `s` is not contained in `s`. */
  lemma AbsentPair(s: string, t: string, k: nat)
    requires k + 1 < |t|
    requires forall j :: 0 <= j < |s| - 1 ==> !(s[j] == t[k] && s[j + 1] == t[k + 1])
    ensures !Contains(s, t)
  {
    forall i | 0 <= i <= |s| - |t| ensures !MatchAt(s, t, i) {
      assert s[i..i + |t|][k] == s[i + k];
      assert s[i..i + |t|][k + 1] == s[i + k + 1];
    }
  }

  /** A needle found at a known position is contained. */
  lemma FoundAt(s: string, t: string, i: int)
    requires MatchAt(s, t, i)
    ensures Contains(s, t)
  {
  }

  /** A match inside a prefix of `s` is a match in `s`. */
  lemma ContainsInPrefix(s: string, p: string, t: string)
    requires p <= s && Contains(p, t)
    ensures Contains(s, t)
  {
    var i :| 0 <= i <= |p| - |t| && MatchAt(p, t, i);
    assert s[i..i + |t|] == p[i..i + |t|];
    FoundAt(s, t, i);
  }

  /** implode(sep, parts). */
  function Implode(sep: string, parts: seq<string>): (r: string)
    ensures parts == [] ==> r == ""
    ensures |parts| == 1 ==> r == parts[0]
  {
    if parts == [] then ""
    else if |parts| == 1 then parts[0]
    else parts[0] + sep + Implode(sep, parts[1..])
  }

  function DigitChar(d: nat): (c: char)
    requires d < 10
    ensures '0' <= c <= '9'
  {
    ('0' as int + d) as char
  }

  /** sprintf("%d", n) for a non-negative n: its decimal digits, most significant first. */
  function Decimal(n: nat): (r: string)
    ensures |r| >= 1
    ensures forall i :: 0 <= i < |r| ==> '0' <= r[i] <= '9'
  {
    if n < 10 then [DigitChar(n)] else Decimal(n / 10) + [DigitChar(n % 10)]
  }

  /** absint(): the magnitude of an integer. */
  function AbsInt(x: int): (r: nat)
    ensures r == x || r == -x
  {
    if x < 0 then -x else x
  }
}
