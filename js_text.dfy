/**
 * The few ECMAScript string primitives the page and the relay rely on:
 * `String.prototype.trim`, the regular-expression notion of a line
 * terminator (what `.` refuses to match) and `String.prototype.length`,
 * which counts UTF-16 code units rather than characters.
 */
module JsText {

  /** ECMAScript LineTerminator: LF, CR, LINE SEPARATOR, PARAGRAPH SEPARATOR. */
  predicate IsLineTerminator(c: char) {
    c == '\n' || c == '\r' || c == '\U{2028}' || c == '\U{2029}'
  }

  /** ECMAScript WhiteSpace (TAB, VT, FF, ZWNBSP and the Zs category) or LineTerminator: what `trim` strips. */
  predicate IsTrimmable(c: char) {
    IsLineTerminator(c)
    || c == '\t' || c == '\U{000B}' || c == '\U{000C}' || c == ' '
    || c == '\U{00A0}' || c == '\U{1680}' || ('\U{2000}' <= c <= '\U{200A}')
    || c == '\U{202F}' || c == '\U{205F}' || c == '\U{3000}' || c == '\U{FEFF}'
  }

  predicate NoLineTerminator(s: string) {
    forall i :: 0 <= i < |s| ==> !IsLineTerminator(s[i])
  }

  /** The first index at or after `i` that `trim` keeps, or `|s|`. */
  function SkipBlanks(s: string, i: nat): (j: nat)
    requires i <= |s|
    ensures i <= j <= |s|
    ensures forall k :: i <= k < j ==> IsTrimmable(s[k])
    ensures j < |s| ==> !IsTrimmable(s[j])
    decreases |s| - i
  {
    if i == |s| || !IsTrimmable(s[i]) then i else SkipBlanks(s, i + 1)
  }

  /** Scanning back from `j`, not below `lo`: the end of the last character `trim` keeps. */
  function BackBlanks(s: string, lo: nat, j: nat): (k: nat)
    requires lo <= j <= |s|
    ensures lo <= k <= j
    ensures forall m :: k <= m < j ==> IsTrimmable(s[m])
    ensures k > lo ==> !IsTrimmable(s[k - 1])
    decreases j - lo
  {
    if j == lo || !IsTrimmable(s[j - 1]) then j else BackBlanks(s, lo, j - 1)
  }

  /** `s.trim()`: strips whitespace and line terminators from both ends. */
  function Trim(s: string): (r: string)
    ensures |r| <= |s|
    ensures r == [] || (!IsTrimmable(r[0]) && !IsTrimmable(r[|r| - 1]))
  {
    var a := SkipBlanks(s, 0);
    var b := BackBlanks(s, a, |s|);
    s[a..b]
  }

  /**
   * `trim` is characterised without reference to how it scans: if `s[a..b]`
   * has only blanks before and after it, and is either empty or starts and
   * ends with a kept character, then it is `Trim(s)`.
   */
  lemma TrimUnique(s: string, a: nat, b: nat)
    requires a <= b <= |s|
    requires forall i :: 0 <= i < a ==> IsTrimmable(s[i])
    requires forall i :: b <= i < |s| ==> IsTrimmable(s[i])
    requires a < b ==> !IsTrimmable(s[a]) && !IsTrimmable(s[b - 1])
    ensures Trim(s) == s[a..b]
  {
  }

  /** Trimming yields the empty string exactly when every character is trimmable. */
  lemma TrimEmptyIff(s: string)
    ensures Trim(s) == [] <==> forall i :: 0 <= i < |s| ==> IsTrimmable(s[i])
  {
    var a := SkipBlanks(s, 0);
    var b := BackBlanks(s, a, |s|);
    if a < |s| {
      assert b > a;
      assert !IsTrimmable(s[a]);
    }
  }

  /** Trimming twice is trimming once. */
  lemma TrimIdempotent(s: string)
    ensures Trim(Trim(s)) == Trim(s)
  {
    var r := Trim(s);
    TrimUnique(r, 0, |r|);
    assert r[0..|r|] == r;
  }

  /** Number of UTF-16 code units of `c`: two for a character outside the Basic Multilingual Plane. */
  function CodeUnits(c: char): nat {
    if c as int >= 0x1_0000 then 2 else 1
  }

  /** `s.length` in JavaScript: the UTF-16 code-unit count. */
  function Utf16Length(s: string): (n: nat)
    ensures |s| <= n <= 2 * |s|
  {
    if s == [] then 0 else Utf16Length(s[..|s| - 1]) + CodeUnits(s[|s| - 1])
  }

  /** Without astral characters the JavaScript length is the character count. */
  lemma {:induction false} Utf16LengthBmp(s: string)
    requires forall i :: 0 <= i < |s| ==> s[i] as int < 0x1_0000
    ensures Utf16Length(s) == |s|
  {
    if s != [] {
      Utf16LengthBmp(s[..|s| - 1]);
    }
  }
}
