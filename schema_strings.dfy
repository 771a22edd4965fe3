/**
 * The string rules of the user schema: the `lowercase` setter applied to
 * `username` and `email`, the `""` defaults of `bio`, `image` and
 * `refresh_token`, and the `match` validator of `email`, the JavaScript
 * regular expression /\S+@\S+.\S+/ (unanchored, no flags).
 *
 * Without the `u` flag a JavaScript regular expression reads a string as
 * UTF-16 code units, not as code points, so the pattern is stated over
 * `Units` and a stored string is handed to it through `Utf16`.
 */
module SchemaStrings {
  import opened Wrappers

  /** Mongoose applies a schema default only when the field is not given at all. */
  function OrDefault(given: Option<string>, default: string): (r: string)
    ensures given.Some? ==> r == given.value
    ensures given.None? ==> r == default
  {
    given.GetOr(default)
  }

  // ---------------------------------------------------------------------
  // The `lowercase: true` setter
  // ---------------------------------------------------------------------

  predicate IsUpper(c: char) { 'A' <= c <= 'Z' }

  function LowerChar(c: char): char {
    if IsUpper(c) then (c as int + 32) as char else c
  }

  /** `String.prototype.toLowerCase`, restricted to ASCII letters. */
  function Lowercase(s: string): (r: string)
    ensures |r| == |s|
    ensures forall i :: 0 <= i < |s| ==> r[i] == LowerChar(s[i])
    ensures forall i :: 0 <= i < |r| ==> !IsUpper(r[i])
  {
    seq(|s|, i requires 0 <= i < |s| => LowerChar(s[i]))
  }

  /** Setting a stored value a second time does not change it further. */
  lemma LowercaseIdempotent(s: string)
    ensures Lowercase(Lowercase(s)) == Lowercase(s)
  {
  }

  // ---------------------------------------------------------------------
  // JavaScript strings as UTF-16 code units
  // ---------------------------------------------------------------------

  type CodeUnit = x: int | 0 <= x < 0x1_0000

  /** A JavaScript string value: a sequence of UTF-16 code units. */
  type Units = seq<CodeUnit>

  /** The UTF-16 encoding of one code point: one unit, or a surrogate pair above U+FFFF. */
  function UnitsOf(c: char): (u: Units)
    ensures 1 <= |u| <= 2
    ensures c as int < 0x1_0000 <==> u == [c as int]
    ensures |u| == 2 ==> 0xD800 <= u[0] < 0xDC00 && 0xDC00 <= u[1] < 0xE000
  {
    var n := c as int;
    if n < 0x1_0000 then [n]
    else
      var m := n - 0x1_0000;
      [0xD800 + m / 0x400, 0xDC00 + m % 0x400]
  }

  /** The code units JavaScript sees for a string. */
  function Utf16(s: string): Units {
    if s == [] then [] else UnitsOf(s[0]) + Utf16(s[1..])
  }

  /** ASCII lowercasing, read on code units (no surrogate is an ASCII letter). */
  function LowerUnit(u: CodeUnit): CodeUnit {
    if 0x41 <= u <= 0x5A then u + 32 else u
  }

  function LowerUnits(s: Units): (r: Units)
    ensures |r| == |s|
    ensures forall i :: 0 <= i < |s| ==> r[i] == LowerUnit(s[i])
  {
    seq(|s|, i requires 0 <= i < |s| => LowerUnit(s[i]))
  }

  /** Lowercasing a string and then encoding it equals lowercasing its code units. */
  lemma {:induction false} Utf16Lowercase(s: string)
    ensures Utf16(Lowercase(s)) == LowerUnits(Utf16(s))
  {
    if s != [] {
      var l := Lowercase(s);
      assert l[1..] == Lowercase(s[1..]);
      Utf16Lowercase(s[1..]);
      assert UnitsOf(LowerChar(s[0])) == LowerUnits(UnitsOf(s[0]));
      var a, b := UnitsOf(s[0]), Utf16(s[1..]);
      assert LowerUnits(a + b) == LowerUnits(a) + LowerUnits(b);
    }
  }

  // ---------------------------------------------------------------------
  // Character classes of JavaScript regular expressions
  // ---------------------------------------------------------------------

  /** The code units `\s` matches (WhiteSpace and LineTerminator of ECMAScript). */
  predicate IsSpace(c: CodeUnit) {
    (0x09 <= c <= 0x0D) || c == 0x20 || c == 0xA0 || c == 0x1680 || (0x2000 <= c <= 0x200A)
    || c == 0x2028 || c == 0x2029 || c == 0x202F || c == 0x205F || c == 0x3000 || c == 0xFEFF
  }

  /** The code units `.` does NOT match without the `s` flag. */
  predicate IsLineTerminator(c: CodeUnit) {
    c == 0x0A || c == 0x0D || c == 0x2028 || c == 0x2029
  }

  /** `@` */
  const AtSign: CodeUnit := 0x40

  // ---------------------------------------------------------------------
  // The pattern /\S+@\S+.\S+/, read literally
  // ---------------------------------------------------------------------

  /** s[i..j] is a non-empty run of code units matched by `\S`. */
  ghost predicate NonSpaceRun(s: Units, i: int, j: int) {
    0 <= i < j <= |s| && forall k :: i <= k < j ==> !IsSpace(s[k])
  }

  /** `@\S+.\S+` matches s[p..b], with the `.` at position q. */
  ghost predicate TailAt(s: Units, p: int, q: int, b: int) {
    0 <= p < |s| && s[p] == AtSign && NonSpaceRun(s, p + 1, q)
    && q < |s| && !IsLineTerminator(s[q]) && NonSpaceRun(s, q + 1, b)
  }

  /** The whole pattern matches s[a..b]: `\S+` is s[a..p], `@` is s[p], the `.` is s[q]. */
  ghost predicate MatchAt(s: Units, a: int, p: int, q: int, b: int) {
    NonSpaceRun(s, a, p) && TailAt(s, p, q, b)
  }

  /** `RegExp.prototype.test`: the unanchored pattern matches somewhere in s. */
  ghost predicate RegexMatches(s: Units) {
    exists a, p, q, b :: MatchAt(s, a, p, q, b)
  }

  // ---------------------------------------------------------------------
  // A linear decision procedure for the pattern
  // ---------------------------------------------------------------------

  lemma LineTerminatorIsSpace(c: CodeUnit)
    ensures IsLineTerminator(c) ==> IsSpace(c)
  {
  }

  /** The end of the longest run of non-space characters starting at k. */
  function RunEnd(s: Units, k: nat): (e: nat)
    requires k <= |s|
    ensures k <= e <= |s|
    ensures forall i :: k <= i < e ==> !IsSpace(s[i])
    ensures e < |s| ==> IsSpace(s[e])
    decreases |s| - k
  {
    if k == |s| || IsSpace(s[k]) then k else RunEnd(s, k + 1)
  }

  /**
   * Whether `\S+.\S+` can match from position k on.  Inside the run of
   * non-space characters that starts at k, the `.` can take any position
   * that leaves a character of the run on each side; or it can take the
   * space that ends the run, if that space is not a line terminator and a
   * non-space character follows it.
   */
  predicate TailMatches(s: Units, k: nat)
    requires k <= |s|
  {
    var e := RunEnd(s, k);
    e >= k + 3 || (e >= k + 1 && e + 1 < |s| && !IsLineTerminator(s[e]) && !IsSpace(s[e + 1]))
  }

  /** Whether the pattern matches with its `@` at some position p' >= p. */
  predicate MatchesFrom(s: Units, p: nat)
    requires p <= |s|
    decreases |s| - p
  {
    p < |s| &&
    ((1 <= p && s[p] == AtSign && !IsSpace(s[p - 1]) && TailMatches(s, p + 1)) || MatchesFrom(s, p + 1))
  }

  lemma TailMatchesCorrect(s: Units, p: nat)
    requires p < |s| && s[p] == AtSign
    ensures TailMatches(s, p + 1) <==> exists q, b :: TailAt(s, p, q, b)
  {
    var k := p + 1;
    var e := RunEnd(s, k);
    if TailMatches(s, k) {
      if e >= k + 3 {
        LineTerminatorIsSpace(s[k + 1]);
        assert TailAt(s, p, k + 1, k + 3);
      } else {
        assert TailAt(s, p, e, e + 2);
      }
    }
    if exists q, b :: TailAt(s, p, q, b) {
      var q, b :| TailAt(s, p, q, b);
      if e < q {
        assert !IsSpace(s[e]);
      }
      if q < e {
        if q + 1 == e {
          assert !IsSpace(s[q + 1]);
        }
        assert e >= k + 3;
      }
    }
  }

  lemma {:induction false} MatchesFromCorrect(s: Units, p: nat)
    requires p <= |s|
    ensures MatchesFrom(s, p) <==> exists a, p', q, b :: p <= p' && MatchAt(s, a, p', q, b)
    decreases |s| - p
  {
    if p < |s| {
      MatchesFromCorrect(s, p + 1);
      var here := 1 <= p && s[p] == AtSign && !IsSpace(s[p - 1]) && TailMatches(s, p + 1);
      if here {
        TailMatchesCorrect(s, p);
        var q, b :| TailAt(s, p, q, b);
        assert MatchAt(s, p - 1, p, q, b);
      }
      if exists a, q, b :: MatchAt(s, a, p, q, b) {
        var a, q, b :| MatchAt(s, a, p, q, b);
        assert !IsSpace(s[p - 1]);
        TailMatchesCorrect(s, p);
        assert here;
      }
      if exists a, p', q, b :: p <= p' && MatchAt(s, a, p', q, b) {
        var a, p', q, b :| p <= p' && MatchAt(s, a, p', q, b);
        if p' > p {
          assert MatchesFrom(s, p + 1);
        } else {
          assert here;
        }
      }
    }
  }

  /** The email validator: true exactly when the pattern matches somewhere in s. */
  function IsValidEmail(s: Units): (ok: bool)
    ensures ok <==> RegexMatches(s)
  {
    MatchesFromCorrect(s, 0);
    MatchesFrom(s, 0)
  }

  /** A match needs an `@` with at least one character before it and three after it. */
  lemma {:induction false} AcceptedHasAt(s: Units)
    requires IsValidEmail(s)
    ensures exists p :: 1 <= p && p + 3 < |s| && s[p] == AtSign
  {
    var a, p, q, b :| MatchAt(s, a, p, q, b);
    assert 1 <= p && p + 3 < |s| && s[p] == AtSign;
  }

  /** The `.` is not an escaped dot: no '.' is required, and it even matches a space. */
  lemma DotMatchesAnyCharacter()
    ensures IsValidEmail(Utf16("a@bcd"))
    ensures IsValidEmail(Utf16("a@b c"))
  {
    assert Utf16("a@bcd") == [0x61, 0x40, 0x62, 0x63, 0x64];
    assert MatchAt([0x61, 0x40, 0x62, 0x63, 0x64], 0, 1, 3, 5);
    assert Utf16("a@b c") == [0x61, 0x40, 0x62, 0x20, 0x63];
    assert MatchAt([0x61, 0x40, 0x62, 0x20, 0x63], 0, 1, 3, 5);
  }

  /**
   * The pattern reads code units, so the `.` and the last `\S+` can be the two
   * halves of one character outside the Basic Multilingual Plane.
   */
  lemma DotMatchesHalfACharacter()
    ensures Utf16("a@b\U{1F600}") == [0x61, 0x40, 0x62, 0xD83D, 0xDE00]
    ensures IsValidEmail(Utf16("a@b\U{1F600}"))
  {
    assert MatchAt([0x61, 0x40, 0x62, 0xD83D, 0xDE00], 0, 1, 3, 5);
  }

  /** Too short after the `@`, a line break where the `.` would go, or no `@`: rejected. */
  lemma RejectedExamples()
    ensures !IsValidEmail(Utf16("a@bc"))
    ensures !IsValidEmail(Utf16("a@b\nc"))
    ensures !IsValidEmail(Utf16("ab.cd"))
  {
    assert Utf16("a@bc") == [0x61, 0x40, 0x62, 0x63];
    assert Utf16("a@b\nc") == [0x61, 0x40, 0x62, 0x0A, 0x63];
    assert Utf16("ab.cd") == [0x61, 0x62, 0x2E, 0x63, 0x64];
  }

  /** ASCII lowercasing of code units never changes the verdict. */
  lemma LowerUnitsKeepEmailVerdict(s: Units)
    ensures IsValidEmail(LowerUnits(s)) == IsValidEmail(s)
  {
    var l := LowerUnits(s);
    if RegexMatches(s) {
      var a, p, q, b :| MatchAt(s, a, p, q, b);
      assert MatchAt(l, a, p, q, b);
    }
    if RegexMatches(l) {
      var a, p, q, b :| MatchAt(l, a, p, q, b);
      assert MatchAt(s, a, p, q, b);
    }
  }

  /** The ASCII lowercase setter runs before validation and never changes the verdict. */
  lemma LowercaseKeepsEmailVerdict(s: string)
    ensures IsValidEmail(Utf16(Lowercase(s))) == IsValidEmail(Utf16(s))
  {
    Utf16Lowercase(s);
    LowerUnitsKeepEmailVerdict(Utf16(s));
  }
}
