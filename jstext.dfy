/**
  JavaScript strings as the browser sees them: sequences of UTF-16 code units.
  The components compare ids with `Array.prototype.sort` (code-unit order), cut text with
  `substring`/`length` (code-unit counts) and test input with `trim()`; all three are
  defined here on code units so that the model agrees with the runtime on every input.
*/
module JsText {

  newtype CodeUnit = x: int | 0 <= x < 0x1_0000

  type JsString = seq<CodeUnit>

  /** `_`, the separator of room ids. */
  const Underscore: CodeUnit := 0x5F

  /** `...`, the suffix of a truncated quote. */
  const Ellipsis: JsString := [0x2E, 0x2E, 0x2E]

  /**
    A string literal of the source as code units. Every literal the model quotes lies in the
    Basic Multilingual Plane, where one character is one code unit; anything outside it would
    need a surrogate pair and is mapped to U+FFFD instead.
  */
  function Literal(s: string): (r: JsString)
    ensures |r| == |s|
  {
    seq(|s|, i requires 0 <= i < |s| => if s[i] as int < 0x1_0000 then s[i] as int as CodeUnit else 0xFFFD)
  }

  /** ECMAScript WhiteSpace and LineTerminator code points: what `trim()` removes. */
  predicate IsWhitespace(u: CodeUnit)
  {
    || u == 0x09 || u == 0x0A || u == 0x0B || u == 0x0C || u == 0x0D || u == 0x20
    || u == 0xA0 || u == 0x1680 || (0x2000 <= u <= 0x200A) || u == 0x2028 || u == 0x2029
    || u == 0x202F || u == 0x205F || u == 0x3000 || u == 0xFEFF
  }

  /** Every code unit is white space; `s.trim()` is then the falsy empty string. */
  predicate IsBlank(s: JsString)
  {
    forall i :: 0 <= i < |s| ==> IsWhitespace(s[i])
  }

  function TrimStart(s: JsString): (r: JsString)
    ensures |r| <= |s| && r == s[|s| - |r|..]
    ensures r != [] ==> !IsWhitespace(r[0])
    ensures IsBlank(s[..|s| - |r|])
  {
    if s != [] && IsWhitespace(s[0]) then TrimStart(s[1..]) else s
  }

  function TrimEnd(s: JsString): (r: JsString)
    ensures |r| <= |s| && r == s[..|r|]
    ensures r != [] ==> !IsWhitespace(r[|r| - 1])
    ensures IsBlank(s[|r|..])
  {
    if s != [] && IsWhitespace(s[|s| - 1]) then TrimEnd(s[..|s| - 1]) else s
  }

  /** `String.prototype.trim`. */
  function Trim(s: JsString): JsString
  {
    TrimEnd(TrimStart(s))
  }

  lemma TrimStartEmptyIffBlank(s: JsString)
    ensures TrimStart(s) == [] <==> IsBlank(s)
  {
    var r := TrimStart(s);
    if r == [] {
      assert s[..|s| - |r|] == s;
    } else {
      assert r[0] == s[|s| - |r|];
    }
  }

  lemma TrimEndEmptyOnlyIfBlank(s: JsString)
    ensures TrimEnd(s) == [] ==> IsBlank(s)
  {
  }

  /** `!s.trim()` holds exactly when `s` consists of white space only (the empty string included). */
  lemma TrimEmptyIffBlank(s: JsString)
    ensures Trim(s) == [] <==> IsBlank(s)
  {
    TrimStartEmptyIffBlank(s);
    var t := TrimStart(s);
    if Trim(s) == [] {
      TrimEndEmptyOnlyIfBlank(t);
    }
  }

  /**
    The relational comparison `a < b` on strings, which is also the order the default
    `Array.prototype.sort` uses: code unit by code unit, a proper prefix first.
  */
  predicate Below(a: JsString, b: JsString)
  {
    if a == [] then b != []
    else if b == [] then false
    else if a[0] != b[0] then a[0] < b[0]
    else Below(a[1..], b[1..])
  }

  lemma {:induction false} BelowIrreflexive(a: JsString)
    ensures !Below(a, a)
  {
    if a != [] { BelowIrreflexive(a[1..]); }
  }

  lemma {:induction false} BelowAsymmetric(a: JsString, b: JsString)
    ensures !(Below(a, b) && Below(b, a))
  {
    if a != [] && b != [] && a[0] == b[0] { BelowAsymmetric(a[1..], b[1..]); }
  }

  /** Two different strings are always ordered one way or the other. */
  lemma {:induction false} BelowTotal(a: JsString, b: JsString)
    ensures a == b || Below(a, b) || Below(b, a)
  {
    if a != [] && b != [] && a[0] == b[0] {
      BelowTotal(a[1..], b[1..]);
      if a[1..] == b[1..] {
        assert a == [a[0]] + a[1..] && b == [b[0]] + b[1..];
      }
    }
  }

  /** `s.includes(sub)`. */
  predicate Includes(s: JsString, sub: JsString)
    decreases |s|
  {
    if |s| < |sub| then false
    else s[..|sub|] == sub || (s != [] && Includes(s[1..], sub))
  }

  /** `sub` occurs in `s` starting at code unit `i`. */
  predicate OccursAt(s: JsString, sub: JsString, i: int)
  {
    0 <= i <= |s| - |sub| && s[i..i + |sub|] == sub
  }

  /** `includes` finds `sub` exactly when it occurs at some position of `s`. */
  lemma {:induction false} IncludesIffOccurs(s: JsString, sub: JsString)
    ensures Includes(s, sub) <==> exists i :: OccursAt(s, sub, i)
    decreases |s|
  {
    if |s| >= |sub| {
      if s != [] {
        IncludesIffOccurs(s[1..], sub);
        if s[..|sub|] == sub {
          assert s[0..0 + |sub|] == s[..|sub|];
          assert OccursAt(s, sub, 0);
        }
        if Includes(s[1..], sub) {
          var j :| OccursAt(s[1..], sub, j);
          assert s[j + 1..j + 1 + |sub|] == s[1..][j..j + |sub|];
          assert OccursAt(s, sub, j + 1);
        }
        if exists i :: OccursAt(s, sub, i) {
          var i :| OccursAt(s, sub, i);
          if i > 0 {
            assert s[1..][i - 1..i - 1 + |sub|] == s[i..i + |sub|];
            assert OccursAt(s[1..], sub, i - 1);
            assert Includes(s[1..], sub);
          } else {
            assert s[..|sub|] == sub;
          }
          assert Includes(s, sub);
        }
      } else {
        if Includes(s, sub) {
          assert OccursAt(s, sub, 0);
        }
      }
    }
  }

  const Zero: CodeUnit := 0x30

  /** The decimal digits of a non-negative integer, as a template literal renders it. */
  function Decimal(n: nat): (r: JsString)
    ensures r != [] && forall i :: 0 <= i < |r| ==> Zero <= r[i] <= Zero + 9
    ensures |r| > 1 ==> r[0] != Zero
    decreases n
  {
    if n < 10 then [Zero + n as CodeUnit] else Decimal(n / 10) + [Zero + (n % 10) as CodeUnit]
  }

  /** The number a string of decimal digits denotes. */
  function DigitsValue(s: JsString): nat
    requires forall i :: 0 <= i < |s| ==> Zero <= s[i] <= Zero + 9
  {
    if s == [] then 0 else DigitsValue(s[..|s| - 1]) * 10 + (s[|s| - 1] - Zero) as int
  }

  /** Reading back the digits gives the number. */
  lemma {:induction false} DecimalRoundTrip(n: nat)
    ensures DigitsValue(Decimal(n)) == n
    decreases n
  {
    if n >= 10 {
      DecimalRoundTrip(n / 10);
      var r := Decimal(n);
      assert r[..|r| - 1] == Decimal(n / 10);
    }
  }
}
