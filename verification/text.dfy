/** String helpers shared by the server (PHP) and the client (TypeScript) models. */
module Text {

  /** The characters PHP's `trim` strips by default. */
  predicate IsPhpSpace(c: char)
  {
    c == ' ' || c == '\t' || c == '\n' || c == '\r' || c == '\0' || c == '\U{B}'
  }

  /** The characters JavaScript's `String.prototype.trim` strips: white space
    * and line terminators. */
  predicate IsJsSpace(c: char)
  {
    c == ' ' || c == '\t' || c == '\n' || c == '\U{B}' || c == '\U{C}' || c == '\r'
    || c == '\U{A0}' || c == '\U{1680}' || ('\U{2000}' <= c <= '\U{200A}')
    || c == '\U{2028}' || c == '\U{2029}' || c == '\U{202F}' || c == '\U{205F}'
    || c == '\U{3000}' || c == '\U{FEFF}'
  }

  function TrimStart(s: string, isSpace: char -> bool): (r: string)
    ensures |r| <= |s|
    ensures r == s[|s| - |r|..]
    ensures forall k :: 0 <= k < |s| - |r| ==> isSpace(s[k])
    ensures r != [] ==> !isSpace(r[0])
  {
    if s != [] && isSpace(s[0]) then
      assert forall k :: 1 <= k < |s| ==> s[k] == s[1..][k - 1];
      TrimStart(s[1..], isSpace)
    else s
  }

  function TrimEnd(s: string, isSpace: char -> bool): (r: string)
    ensures |r| <= |s|
    ensures r == s[..|r|]
    ensures forall k :: |r| <= k < |s| ==> isSpace(s[k])
    ensures r != [] ==> !isSpace(r[|r| - 1])
  {
    if s != [] && isSpace(s[|s| - 1]) then
      assert forall k :: 0 <= k < |s| - 1 ==> s[k] == s[..|s| - 1][k];
      TrimEnd(s[..|s| - 1], isSpace)
    else s
  }

  /** `r` is the slice `s[i..j]`, and every character cut off before `i` or
    * from `j` on satisfies `isSpace`. */
  predicate BlankFramed(s: string, isSpace: char -> bool, i: int, j: int, r: string)
  {
    0 <= i <= j <= |s| && r == s[i..j] &&
    (forall k :: 0 <= k < i ==> isSpace(s[k])) &&
    (forall k :: j <= k < |s| ==> isSpace(s[k]))
  }

  /** Strips leading and trailing characters satisfying `isSpace`: the
    * result is a slice of `s` with only such characters around it. */
  function Trim(s: string, isSpace: char -> bool): (r: string)
    ensures |r| <= |s|
    ensures r != [] ==> !isSpace(r[0]) && !isSpace(r[|r| - 1])
    ensures exists i, j :: BlankFramed(s, isSpace, i, j, r)
  {
    var a := TrimStart(s, isSpace);
    var t := TrimEnd(a, isSpace);
    assert t != [] ==> t[0] == a[0];
    FramedWithin(s, a, t, isSpace, |s| - |a|, |t|);
    t
  }

  /** Trimming the tail of a slice that has only blanks before it leaves a
    * slice with only blanks around it. */
  lemma FramedWithin(s: string, a: string, t: string, isSpace: char -> bool, i: int, n: int)
    requires BlankFramed(s, isSpace, i, |s|, a)
    requires BlankFramed(a, isSpace, 0, n, t)
    ensures BlankFramed(s, isSpace, i, i + n, t)
  {
    forall k | i + n <= k < |s| ensures isSpace(s[k]) {
      assert s[k] == a[k - i];
    }
  }

  /** A string trims to the empty string exactly when it consists of spaces. */
  lemma {:induction false} TrimStartEmpty(s: string, isSpace: char -> bool)
    ensures TrimStart(s, isSpace) == [] <==> forall i :: 0 <= i < |s| ==> isSpace(s[i])
  {
    if s != [] && isSpace(s[0]) {
      TrimStartEmpty(s[1..], isSpace);
      assert forall i :: 1 <= i < |s| ==> s[i] == s[1..][i - 1];
    }
  }

  lemma {:induction false} TrimEndKeepsNonEmpty(s: string, isSpace: char -> bool)
    requires s != [] && !isSpace(s[0])
    ensures TrimEnd(s, isSpace) != []
  {
    if isSpace(s[|s| - 1]) {
      TrimEndKeepsNonEmpty(s[..|s| - 1], isSpace);
    }
  }

  lemma TrimEmpty(s: string, isSpace: char -> bool)
    ensures Trim(s, isSpace) == [] <==> forall i :: 0 <= i < |s| ==> isSpace(s[i])
  {
    TrimStartEmpty(s, isSpace);
    var u := TrimStart(s, isSpace);
    if u != [] {
      TrimEndKeepsNonEmpty(u, isSpace);
    }
  }

  function PhpTrim(s: string): string
  {
    Trim(s, IsPhpSpace)
  }

  function JsTrim(s: string): string
  {
    Trim(s, IsJsSpace)
  }

  predicate IsUpper(c: char)
  {
    'A' <= c <= 'Z'
  }

  /** Lower-casing of the ASCII letters; every other character is kept. */
  function LowerChar(c: char): (d: char)
    ensures !IsUpper(d)
    ensures !IsUpper(c) ==> d == c
  {
    if IsUpper(c) then (c as int + 32) as char else c
  }

  function Lower(s: string): (r: string)
    ensures |r| == |s|
    ensures forall i :: 0 <= i < |s| ==> r[i] == LowerChar(s[i])
  {
    if s == [] then [] else [LowerChar(s[0])] + Lower(s[1..])
  }

  /** Text without upper-case letters (for instance Arabic text) is its own
    * lower-case form. */
  lemma LowerFixes(s: string)
    requires forall i :: 0 <= i < |s| ==> !IsUpper(s[i])
    ensures Lower(s) == s
  {
  }

  lemma LowerIdempotent(s: string)
    ensures Lower(Lower(s)) == Lower(s)
  {
    LowerFixes(Lower(s));
  }

  /** `t` occurs in `s` starting at index `i`. */
  predicate OccursAt(s: string, t: string, i: int)
  {
    0 <= i <= |s| - |t| && s[i..i + |t|] == t
  }

  /** `s` contains `t` as a contiguous substring (SQL `LIKE '%t%'`,
    * JavaScript `includes`). */
  predicate Contains(s: string, t: string)
  {
    exists i :: 0 <= i <= |s| && OccursAt(s, t, i)
  }

  lemma ContainsEmpty(s: string)
    ensures Contains(s, "")
  {
    assert OccursAt(s, "", 0);
  }

  lemma ContainsSelf(s: string)
    ensures Contains(s, s)
  {
    assert OccursAt(s, s, 0);
  }

  /** Decimal digits of a natural number, most significant first. */
  function NatToString(n: nat): (r: string)
    ensures r != []
    ensures forall i :: 0 <= i < |r| ==> '0' <= r[i] <= '9'
  {
    var d := ['0' + (n % 10) as char];
    if n < 10 then d else NatToString(n / 10) + d
  }

  function IntToString(i: int): (r: string)
    ensures r != []
  {
    if i < 0 then "-" + NatToString(-i) else NatToString(i)
  }
}
