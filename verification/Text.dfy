/** Characters, trimming and decimal numerals, shared by the goal, import and prompt modules. Blanks are those
    of the Unicode White_Space property; trimming cuts blank ends and nothing else; a numeral denotes the
    number it renders. */
module Text {

  /** The Unicode White_Space property, the class `str::trim` strips. */
  predicate IsWhitespace(c: char) {
    || '\U{0009}' <= c <= '\U{000D}'
    || c == '\U{0020}' || c == '\U{0085}' || c == '\U{00A0}' || c == '\U{1680}'
    || '\U{2000}' <= c <= '\U{200A}'
    || c == '\U{2028}' || c == '\U{2029}' || c == '\U{202F}' || c == '\U{205F}' || c == '\U{3000}'
  }

  /** Among the ASCII characters, the space and the five controls from tab to carriage return. */
  lemma AsciiBlanks(c: char)
    requires c as int < 128
    ensures IsWhitespace(c) <==> c in {' ', '\t', '\n', '\U{000B}', '\U{000C}', '\r'}
  {
  }

  function TrimStart(s: string): string {
    if s != [] && IsWhitespace(s[0]) then TrimStart(s[1..]) else s
  }

  function TrimEnd(s: string): string {
    if s != [] && IsWhitespace(s[|s| - 1]) then TrimEnd(s[..|s| - 1]) else s
  }

  function Trim(s: string): string {
    TrimEnd(TrimStart(s))
  }

  /** Only a blank text trims to nothing. */
  lemma {:induction false} TrimNonBlank(s: string, k: nat)
    requires k < |s| && !IsWhitespace(s[k])
    ensures Trim(s) != []
    decreases |s|
  {
    if IsWhitespace(s[0]) {
      assert s[1..][k - 1] == s[k];
      TrimNonBlank(s[1..], k - 1);
    } else {
      TrimEndNonBlank(s);
    }
  }

  lemma {:induction false} TrimEndNonBlank(s: string)
    requires s != [] && !IsWhitespace(s[0])
    ensures TrimEnd(s) != []
    decreases |s|
  {
    if IsWhitespace(s[|s| - 1]) { TrimEndNonBlank(s[..|s| - 1]); }
  }

  predicate AllWhitespace(s: string) {
    forall i :: 0 <= i < |s| ==> IsWhitespace(s[i])
  }

  lemma {:induction false} TrimStartAt(s: string) returns (i: nat)
    ensures i <= |s| && TrimStart(s) == s[i..] && AllWhitespace(s[..i]) && (i < |s| ==> !IsWhitespace(s[i]))
  {
    if s == [] || !IsWhitespace(s[0]) {
      i := 0;
    } else {
      var k := TrimStartAt(s[1..]);
      i := k + 1;
      assert s[1..][k..] == s[i..] && s[..i] == [s[0]] + s[1..][..k];
    }
  }

  lemma {:induction false} TrimEndAt(s: string) returns (j: nat)
    ensures j <= |s| && TrimEnd(s) == s[..j] && AllWhitespace(s[j..]) && (j > 0 ==> !IsWhitespace(s[j - 1]))
  {
    if s == [] || !IsWhitespace(s[|s| - 1]) {
      j := |s|;
    } else {
      j := TrimEndAt(s[..|s| - 1]);
      assert s[..|s| - 1][..j] == s[..j] && s[j..] == s[..|s| - 1][j..] + [s[|s| - 1]];
    }
  }

  /** Trimming cuts a blank prefix and a blank suffix, and what is left has no blank at either end. */
  lemma TrimAt(s: string) returns (i: nat, j: nat)
    ensures i <= j <= |s| && Trim(s) == s[i..j] && AllWhitespace(s[..i]) && AllWhitespace(s[j..])
    ensures i < j ==> !IsWhitespace(s[i]) && !IsWhitespace(s[j - 1])
  {
    i := TrimStartAt(s);
    var k := TrimEndAt(s[i..]);
    j := i + k;
    assert s[i..][..k] == s[i..j] && s[i..][k..] == s[j..];
  }

  /** The number a string of digits denotes. */
  function Numeral(s: string): int {
    if s == [] then 0 else Numeral(s[..|s| - 1]) * 10 + (s[|s| - 1] as int - '0' as int)
  }

  /** The rendering denotes its number and consists of digits, without a leading zero but for zero itself. */
  lemma {:induction false} DecimalDenotes(n: nat)
    ensures Numeral(Decimal(n)) == n && |Decimal(n)| > 0
    ensures forall i :: 0 <= i < |Decimal(n)| ==> '0' <= Decimal(n)[i] <= '9'
    ensures n > 0 ==> Decimal(n)[0] != '0'
  {
    var digits := "0123456789";
    assert digits[n % 10] as int - '0' as int == n % 10;
    if n < 10 {
      assert Decimal(n) == [digits[n]] && [digits[n]][..0] == [];
    } else {
      DecimalDenotes(n / 10);
      var d := Decimal(n);
      assert d[..|d| - 1] == Decimal(n / 10);
    }
  }

  /** Decimal rendering, as `u64::to_string`. */
  function Decimal(n: nat): string {
    if n < 10 then ["0123456789"[n]] else Decimal(n / 10) + ["0123456789"[n % 10]]
  }
}
