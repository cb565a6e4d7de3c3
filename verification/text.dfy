/** The JavaScript string operations that the pages rely on: `trim`, `toLowerCase`
    (restricted to ASCII), `includes`, `startsWith` and `parseInt(value, 10)`.
    A string is a `seq<char>`, a sequence of Unicode scalar values; JavaScript's `length`
    counts UTF-16 code units instead, which `Utf16Length` gives. */
module JsText {
  import opened Wrappers

  /** The characters ECMAScript calls WhiteSpace or LineTerminator; `trim` and
      `parseInt` skip exactly these. */
  predicate IsWhiteSpace(c: char) {
    var n := c as int;
    n == 0x09 || n == 0x0B || n == 0x0C || n == 0x20 || n == 0xA0 || n == 0xFEFF
    || n == 0x1680 || (0x2000 <= n <= 0x200A) || n == 0x202F || n == 0x205F || n == 0x3000
    || n == 0x0A || n == 0x0D || n == 0x2028 || n == 0x2029
  }

  ghost predicate AllWhiteSpace(s: string) {
    forall i | 0 <= i < |s| :: IsWhiteSpace(s[i])
  }

  /** JavaScript's `s.length`: the number of UTF-16 code units, two for a character
      outside the Basic Multilingual Plane (written as a surrogate pair), one otherwise. */
  function Utf16Length(s: string): (n: nat)
    ensures |s| <= n <= 2 * |s|
    ensures (forall i | 0 <= i < |s| :: s[i] as int < 0x10000) ==> n == |s|
  {
    if s == [] then 0
    else
      var rest := Utf16Length(s[1..]);
      assert (forall i | 0 <= i < |s| :: s[i] as int < 0x10000) ==>
             (forall i | 0 <= i < |s[1..]| :: s[1..][i] as int < 0x10000) by {
        forall i | 0 <= i < |s[1..]| ensures s[1..][i] == s[i + 1] { }
      }
      (if s[0] as int < 0x10000 then 1 else 2) + rest
  }

  /** One emoji is two code units long: `"\u{1F600}".length == 2`. */
  lemma AstralCharacterLength()
    ensures Utf16Length("\U{1F600}") == 2
  {
    assert "\U{1F600}"[1..] == [];
  }

  /** A concatenation is blank exactly when both parts are. */
  lemma {:induction false} AllWhiteSpaceConcat(a: string, b: string)
    ensures AllWhiteSpace(a + b) <==> AllWhiteSpace(a) && AllWhiteSpace(b)
  {
    var ab := a + b;
    if AllWhiteSpace(a) && AllWhiteSpace(b) {
      forall i | 0 <= i < |ab| ensures IsWhiteSpace(ab[i]) {
        if i >= |a| { assert ab[i] == b[i - |a|]; }
      }
    }
    if AllWhiteSpace(ab) {
      forall i | 0 <= i < |a| ensures IsWhiteSpace(a[i]) {
        assert a[i] == ab[i];
      }
      forall i | 0 <= i < |b| ensures IsWhiteSpace(b[i]) {
        assert b[i] == ab[i + |a|];
      }
    }
  }

  /** `s` with its leading white space removed. */
  function TrimStart(s: string): (r: string)
    ensures |r| <= |s| && r == s[|s| - |r|..]
    ensures r != [] ==> !IsWhiteSpace(r[0])
    ensures r == [] <==> AllWhiteSpace(s)
  {
    if s != [] && IsWhiteSpace(s[0]) then
      var r := TrimStart(s[1..]);
      assert AllWhiteSpace(s[1..]) ==> AllWhiteSpace(s) by {
        if AllWhiteSpace(s[1..]) {
          forall i | 0 <= i < |s| ensures IsWhiteSpace(s[i]) {
            if i > 0 { assert s[i] == s[1..][i - 1]; }
          }
        }
      }
      r
    else
      s
  }

  /** `s` with its trailing white space removed. */
  function TrimEnd(s: string): (r: string)
    ensures |r| <= |s| && r == s[..|r|]
    ensures r != [] ==> !IsWhiteSpace(r[|r| - 1])
    ensures r == [] <==> AllWhiteSpace(s)
  {
    if s != [] && IsWhiteSpace(s[|s| - 1]) then
      var r := TrimEnd(s[..|s| - 1]);
      assert AllWhiteSpace(s[..|s| - 1]) <==> AllWhiteSpace(s) by {
        if AllWhiteSpace(s[..|s| - 1]) {
          forall i | 0 <= i < |s| ensures IsWhiteSpace(s[i]) {
            if i < |s| - 1 { assert s[i] == s[..|s| - 1][i]; }
          }
        }
      }
      assert s[..|s| - 1][..|r|] == s[..|r|];
      r
    else
      s
  }

  /** What `TrimStart` removes is white space. */
  lemma {:induction false} TrimStartRemovesWhiteSpace(s: string)
    ensures AllWhiteSpace(s[..|s| - |TrimStart(s)|])
  {
    if s != [] && IsWhiteSpace(s[0]) {
      var r := TrimStart(s);
      TrimStartRemovesWhiteSpace(s[1..]);
      assert s[..|s| - |r|] == [s[0]] + s[1..][..|s| - 1 - |r|];
      AllWhiteSpaceConcat([s[0]], s[1..][..|s| - 1 - |r|]);
    } else {
      assert s[..0] == [];
    }
  }

  /** What `TrimEnd` removes is white space. */
  lemma {:induction false} TrimEndRemovesWhiteSpace(s: string)
    ensures AllWhiteSpace(s[|TrimEnd(s)|..])
  {
    if s != [] && IsWhiteSpace(s[|s| - 1]) {
      var init := s[..|s| - 1];
      var r := TrimEnd(s);
      TrimEndRemovesWhiteSpace(init);
      assert s[|r|..] == init[|r|..] + [s[|s| - 1]];
      AllWhiteSpaceConcat(init[|r|..], [s[|s| - 1]]);
    } else {
      assert s[|s|..] == [];
    }
  }

  /** JavaScript's `s.trim()`: empty exactly when `s` is blank, and otherwise starting
      and ending with a character that is not white space. */
  function Trim(s: string): (r: string)
    ensures r == [] <==> AllWhiteSpace(s)
    ensures r != [] ==> !IsWhiteSpace(r[0]) && !IsWhiteSpace(r[|r| - 1])
  {
    var t := TrimStart(s);
    var r := TrimEnd(t);
    assert r != [] ==> r[0] == t[0];
    r
  }

  /** `r` is a slice of `s` with only white space before and after it. */
  ghost predicate BlankAround(s: string, r: string) {
    |r| <= |s| &&
    exists i | 0 <= i <= |s| - |r| :: r == s[i..i + |r|] && AllWhiteSpace(s[..i]) && AllWhiteSpace(s[i + |r|..])
  }

  /** `trim` returns a slice of `s` with only white space outside it. */
  lemma {:induction false} TrimIsSlice(s: string)
    ensures BlankAround(s, Trim(s))
  {
    var t := TrimStart(s);
    var r := TrimEnd(t);
    TrimStartRemovesWhiteSpace(s);
    TrimEndRemovesWhiteSpace(t);
    SliceBetweenBlanks(s, t, r);
    assert Trim(s) == r;
  }

  lemma {:induction false} SliceBetweenBlanks(s: string, t: string, r: string)
    requires |t| <= |s| && t == s[|s| - |t|..] && |r| <= |t| && r == t[..|r|]
    requires AllWhiteSpace(s[..|s| - |t|]) && AllWhiteSpace(t[|r|..])
    ensures BlankAround(s, r)
  {
    var i := |s| - |t|;
    assert r == s[i..i + |r|];
    assert t[|r|..] == s[i + |r|..];
  }

  /** ASCII case folding: `toLowerCase` on the letters A to Z. */
  function ToLowerChar(c: char): (d: char) {
    if 'A' <= c <= 'Z' then (c as int + 32) as char else c
  }

  function ToLower(s: string): (r: string)
    ensures |r| == |s|
    ensures forall i | 0 <= i < |s| :: r[i] == ToLowerChar(s[i])
  {
    seq(|s|, i requires 0 <= i < |s| => ToLowerChar(s[i]))
  }

  /** A string that may be `null` is truthy when it is present and not empty. */
  predicate Truthy(s: Option<string>) {
    s.Some? && s.value != ""
  }

  /** JavaScript's `s.startsWith(p)`. */
  predicate StartsWith(s: string, p: string) {
    |p| <= |s| && s[..|p|] == p
  }

  /** JavaScript's `hay.includes(needle)`: `needle` occurs at some position of `hay`. */
  predicate Includes(hay: string, needle: string)
    decreases |hay|
  {
    StartsWith(hay, needle) || (hay != [] && Includes(hay[1..], needle))
  }

  /** `needle` occurs in `hay` starting at position `i`. */
  ghost predicate OccursAt(hay: string, needle: string, i: int) {
    0 <= i && i + |needle| <= |hay| && hay[i..i + |needle|] == needle
  }

  /** `Includes` agrees with the definition "some slice of `hay` equals `needle`". */
  lemma {:induction false} IncludesAt(hay: string, needle: string)
    ensures Includes(hay, needle) <==> exists i :: OccursAt(hay, needle, i)
    decreases |hay|
  {
    if StartsWith(hay, needle) {
      assert OccursAt(hay, needle, 0);
    }
    if hay != [] {
      IncludesAt(hay[1..], needle);
      if Includes(hay[1..], needle) {
        var i :| OccursAt(hay[1..], needle, i);
        assert hay[1..][i..i + |needle|] == hay[i + 1..i + 1 + |needle|];
        assert OccursAt(hay, needle, i + 1);
      }
      if exists i :: OccursAt(hay, needle, i) {
        var i :| OccursAt(hay, needle, i);
        if i > 0 {
          assert hay[1..][i - 1..i - 1 + |needle|] == hay[i..i + |needle|];
          assert OccursAt(hay[1..], needle, i - 1);
        }
      }
    } else {
      if exists i :: OccursAt(hay, needle, i) {
        var i :| OccursAt(hay, needle, i);
        assert needle == [];
      }
    }
  }

  /** The empty string occurs in every string. */
  lemma {:induction false} IncludesEmpty(hay: string)
    ensures Includes(hay, "")
  {
    assert StartsWith(hay, "");
  }

  // ----- parseInt(value, 10) -----

  predicate IsDigit(c: char) {
    '0' <= c <= '9'
  }

  /** The longest prefix of `s` made only of decimal digits. */
  function LeadingDigits(s: string): (r: string)
    ensures |r| <= |s| && r == s[..|r|]
    ensures forall i | 0 <= i < |r| :: IsDigit(r[i])
    ensures |r| < |s| ==> !IsDigit(s[|r|])
  {
    if s != [] && IsDigit(s[0]) then [s[0]] + LeadingDigits(s[1..]) else []
  }

  /** The value of a string of decimal digits, most significant first. */
  function DigitsValue(ds: string): (v: nat)
    requires forall i | 0 <= i < |ds| :: IsDigit(ds[i])
  {
    if ds == [] then 0
    else
      var d := ds[|ds| - 1];
      assert IsDigit(d);
      DigitsValue(ds[..|ds| - 1]) * 10 + (d as int - '0' as int)
  }

  /** JavaScript's `parseInt(s, 10)`: leading white space is skipped, then an optional
      sign, then the longest run of decimal digits; `None` stands for `NaN`, which is
      what `parseInt` gives when that run is empty. */
  function ParseInt(s: string): (n: Option<int>) {
    var t := TrimStart(s);
    var negative := t != [] && t[0] == '-';
    var body := if t != [] && (t[0] == '-' || t[0] == '+') then t[1..] else t;
    var ds := LeadingDigits(body);
    if ds == [] then None
    else
      var v: int := DigitsValue(ds);
      if negative then Some(-v) else Some(v)
  }

  /** The decimal numeral of `n`, as `String(n)` writes it. */
  function Decimal(n: nat): (r: string)
    ensures r != [] && forall i | 0 <= i < |r| :: IsDigit(r[i])
  {
    var d := ['0' + (n % 10) as char];
    if n < 10 then d else Decimal(n / 10) + d
  }

  /** `parseInt` reads back every decimal numeral: `parseInt(String(n), 10) == n`. */
  lemma {:induction false} ParseIntDecimal(n: nat)
    ensures ParseInt(Decimal(n)) == Some(n)
    ensures ParseInt("-" + Decimal(n)) == Some(-(n as int))
  {
    var r := Decimal(n);
    DecimalValue(n);
    ParseIntUnsigned(r);
    ParseIntNegative(r);
  }

  /** A run of digits parses to its value. */
  lemma {:induction false} ParseIntUnsigned(ds: string)
    requires ds != [] && forall i | 0 <= i < |ds| :: IsDigit(ds[i])
    ensures ParseInt(ds) == Some(DigitsValue(ds))
  {
    assert IsDigit(ds[0]) && !IsWhiteSpace(ds[0]);
    assert TrimStart(ds) == ds;
    assert !(ds[0] == '-' || ds[0] == '+');
    LeadingDigitsAll(ds);
  }

  /** A run of digits behind a minus sign parses to the negated value. */
  lemma {:induction false} ParseIntNegative(ds: string)
    requires ds != [] && forall i | 0 <= i < |ds| :: IsDigit(ds[i])
    ensures ParseInt("-" + ds) == Some(-(DigitsValue(ds) as int))
  {
    var m := "-" + ds;
    assert m[0] == '-';
    assert TrimStart(m) == m;
    assert m[1..] == ds;
    LeadingDigitsAll(ds);
  }

  lemma {:induction false} LeadingDigitsAll(s: string)
    requires forall i | 0 <= i < |s| :: IsDigit(s[i])
    ensures LeadingDigits(s) == s
  {
  }

  lemma {:induction false} DecimalValue(n: nat)
    ensures DigitsValue(Decimal(n)) == n
    decreases n
  {
    var r := Decimal(n);
    if n >= 10 {
      assert r[..|r| - 1] == Decimal(n / 10);
      DecimalValue(n / 10);
    }
  }

  /** A string with no digit in it never parses: `parseInt` gives `NaN`. */
  lemma {:induction false} ParseIntNoDigits(s: string)
    requires forall i | 0 <= i < |s| :: !IsDigit(s[i])
    ensures ParseInt(s) == None
  {
    var t := TrimStart(s);
    var body := if t != [] && (t[0] == '-' || t[0] == '+') then t[1..] else t;
    if body != [] {
      assert body[0] in s;
    }
  }
}
