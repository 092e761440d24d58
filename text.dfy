/** The JavaScript string operations the components use: `toLowerCase` (restricted to ASCII),
    `includes`, `slice` and `trim`, and the UTF-16 code units that JavaScript lengths and
    slices count. */
module Text {

  /** One UTF-16 code unit. */
  type CodeUnit = x: int | 0 <= x < 0x1_0000

  /** A character as UTF-16: one code unit inside the Basic Multilingual Plane, a surrogate pair
      (high, then low) above it. */
  function CharUnits(c: char): (r: seq<CodeUnit>)
    ensures |r| == if c as int < 0x1_0000 then 1 else 2
    ensures |r| == 2 ==> 0xD800 <= r[0] < 0xDC00 && 0xDC00 <= r[1] < 0xE000
  {
    if c as int < 0x1_0000 then [c as int]
    else
      var v := c as int - 0x1_0000;
      [0xD800 + v / 0x400, 0xDC00 + v % 0x400]
  }

  /** The string as JavaScript holds it, as UTF-16 code units: a character above the Basic
      Multilingual Plane counts twice in its length. */
  function Utf16(s: string): (r: seq<CodeUnit>)
    ensures |s| <= |r| <= 2 * |s|
    ensures (forall i :: 0 <= i < |s| ==> s[i] as int < 0x1_0000) ==> |r| == |s|
    ensures (forall i :: 0 <= i < |s| ==> s[i] as int >= 0x1_0000) ==> |r| == 2 * |s|
  {
    if s == [] then []
    else
      assert forall i :: 0 <= i < |s[1..]| ==> s[1..][i] == s[i + 1];
      CharUnits(s[0]) + Utf16(s[1..])
  }

  /** Encoding is compositional: the units of a concatenation are the units of its parts. */
  lemma {:induction false} Utf16Append(a: string, b: string)
    ensures Utf16(a + b) == Utf16(a) + Utf16(b)
  {
    if a == [] {
      assert a + b == b;
    } else {
      assert (a + b)[0] == a[0] && (a + b)[1..] == a[1..] + b;
      Utf16Append(a[1..], b);
      assert Utf16(a + b) == CharUnits(a[0]) + (Utf16(a[1..]) + Utf16(b));
    }
  }

  /** ASCII lower-casing of one character; every other character is left as it is. */
  function LowerChar(c: char): char {
    if 'A' <= c <= 'Z' then (c as int + 32) as char else c
  }

  /** `s.toLowerCase()` for ASCII letters. */
  function ToLower(s: string): (r: string)
    ensures |r| == |s|
    ensures forall i :: 0 <= i < |s| ==> r[i] == LowerChar(s[i])
  {
    if s == [] then [] else [LowerChar(s[0])] + ToLower(s[1..])
  }

  /** Lower-casing twice is lower-casing once. */
  lemma ToLowerIdempotent(s: string)
    ensures ToLower(ToLower(s)) == ToLower(s)
  {
    assert forall i :: 0 <= i < |s| ==> LowerChar(LowerChar(s[i])) == LowerChar(s[i]);
  }

  predicate StartsWith(s: string, q: string) {
    |q| <= |s| && s[..|q|] == q
  }

  /** `s.includes(q)`: `q` starts at some position of `s`, tried from the left. */
  predicate Includes(s: string, q: string)
    decreases |s|
  {
    StartsWith(s, q) || (s != [] && Includes(s[1..], q))
  }

  /** `q` occurs in `s` starting at position `i`. */
  predicate OccursAt(s: string, q: string, i: int) {
    0 <= i && i + |q| <= |s| && s[i..i + |q|] == q
  }

  /** `Includes` holds exactly when `q` occurs as a contiguous slice of `s`. */
  lemma {:induction false} IncludesIffOccurs(s: string, q: string)
    ensures Includes(s, q) <==> exists i :: OccursAt(s, q, i)
  {
    if StartsWith(s, q) {
      assert OccursAt(s, q, 0);
    } else if s == [] {
      assert forall i :: !OccursAt(s, q, i);
    } else {
      IncludesIffOccurs(s[1..], q);
      if Includes(s[1..], q) {
        var i :| OccursAt(s[1..], q, i);
        assert s[i + 1..i + 1 + |q|] == s[1..][i..i + |q|];
        assert OccursAt(s, q, i + 1);
      } else {
        forall i | OccursAt(s, q, i) ensures false {
          if i > 0 {
            var j := i - 1;
            assert s[1..][j..j + |q|] == s[j + 1..j + 1 + |q|];
            assert OccursAt(s[1..], q, j);
          }
        }
      }
    }
  }

  /** A string includes every string it contains: what `s` includes, `a + s + b` includes too. */
  lemma IncludesWithin(a: string, s: string, b: string, q: string)
    requires Includes(s, q)
    ensures Includes(a + s + b, q)
  {
    IncludesIffOccurs(s, q);
    var i :| OccursAt(s, q, i);
    var t := a + s + b;
    assert t[|a| + i..|a| + i + |q|] == s[i..i + |q|];
    assert OccursAt(t, q, |a| + i);
    IncludesIffOccurs(t, q);
  }

  /** Every string includes itself. */
  lemma IncludesSelf(s: string)
    ensures Includes(s, s)
  {
    assert StartsWith(s, s);
  }

  /** ECMAScript's WhiteSpace and LineTerminator code points (section 12.2 and 12.3 of
      ECMA-262), the characters `trim` removes: TAB, LF, VT, FF, CR, SPACE, NBSP, the other
      Unicode "Zs" space separators, LINE SEPARATOR, PARAGRAPH SEPARATOR and ZWNBSP. */
  predicate IsWhitespace(c: char) {
    var n := c as int;
    (0x09 <= n <= 0x0D) || n == 0x20 || n == 0xA0 || n == 0x1680 ||
    (0x2000 <= n <= 0x200A) || n == 0x2028 || n == 0x2029 || n == 0x202F ||
    n == 0x205F || n == 0x3000 || n == 0xFEFF
  }

  /** `s` with its leading whitespace removed: a suffix of `s`, all of whose dropped
      characters are whitespace, that does not itself start with whitespace. */
  function TrimStart(s: string): (r: string)
    ensures |r| <= |s| && r == s[|s| - |r|..]
    ensures forall i :: 0 <= i < |s| - |r| ==> IsWhitespace(s[i])
    ensures r != [] ==> !IsWhitespace(r[0])
  {
    if s != [] && IsWhitespace(s[0]) then TrimStart(s[1..]) else s
  }

  /** `s` with its trailing whitespace removed: a prefix of `s`, all of whose dropped
      characters are whitespace, that does not itself end with whitespace. */
  function TrimEnd(s: string): (r: string)
    ensures |r| <= |s| && r == s[..|r|]
    ensures forall i :: |r| <= i < |s| ==> IsWhitespace(s[i])
    ensures r != [] ==> !IsWhitespace(r[|r| - 1])
  {
    if s != [] && IsWhitespace(s[|s| - 1]) then TrimEnd(s[..|s| - 1]) else s
  }

  /** `s.trim()`. */
  function Trim(s: string): string {
    TrimEnd(TrimStart(s))
  }

  /** `s.trim()` is empty exactly when every character of `s` is whitespace. */
  lemma TrimEmptyIffBlank(s: string)
    ensures Trim(s) == "" <==> forall i :: 0 <= i < |s| ==> IsWhitespace(s[i])
  {
    var t := TrimStart(s);
    if t != [] {
      assert t[0] == s[|s| - |t|];
    }
  }
}
