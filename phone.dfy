/**
 * The phone-number pattern shared by the student, teacher and school forms:
 *
 *     ^(\+?\d{2,3})?0?\d{9}$
 *
 * `PhonePattern` is the language of the regular expression, stated as the
 * existence of a split of the input into its three parts; `IsPhone` decides
 * it by counting digits, and `IsPhoneCorrect` proves the two agree.
 * Without the `u` flag `\d` is exactly the ASCII digits 0-9.
 */
module Phone {
  import opened Js

  /** `\+?\d{2,3}`: an optional plus sign followed by two or three digits. */
  predicate CountryCode(g: string) {
    || ((|g| == 2 || |g| == 3) && AllDigits(g))
    || ((|g| == 3 || |g| == 4) && g[0] == '+' && AllDigits(g[1..]))
  }

  /** `(\+?\d{2,3})?` */
  predicate OptCountryCode(g: string) { g == "" || CountryCode(g) }

  /** `0?` */
  predicate OptZero(z: string) { z == "" || z == "0" }

  /** `\d{9}` */
  predicate Subscriber(d: string) { |d| == 9 && AllDigits(d) }

  /** The input is the concatenation of the three parts at cut points i <= j. */
  predicate SplitAt(s: string, i: int, j: int)
    requires 0 <= i <= j <= |s|
  {
    OptCountryCode(s[..i]) && OptZero(s[i..j]) && Subscriber(s[j..])
  }

  /** The language of `^(\+?\d{2,3})?0?\d{9}$`. */
  ghost predicate PhonePattern(s: string) {
    exists i, j :: 0 <= i <= j <= |s| && SplitAt(s, i, j)
  }

  /**
   * Decides the pattern by counting digits: after an optional leading `+`
   * everything is a digit, and the count is 9 or 10 (only without `+`;
   * 10 needs a leading zero), 11, 12, or 13 (the fourth digit a zero).
   */
  function IsPhone(s: string): bool {
    if |s| > 0 && s[0] == '+' then
      var d := s[1..];
      AllDigits(d) && (|d| == 11 || |d| == 12 || (|d| == 13 && d[3] == '0'))
    else
      AllDigits(s) &&
      (|s| == 9 || (|s| == 10 && s[0] == '0') || |s| == 11 || |s| == 12 || (|s| == 13 && s[3] == '0'))
  }

  lemma AllDigitsSlice(s: string, a: int, b: int)
    requires AllDigits(s) && 0 <= a <= b <= |s|
    ensures AllDigits(s[a..b])
  {
  }

  lemma AllDigitsJoin(s: string, i: int, j: int)
    requires 0 <= i <= j <= |s|
    requires AllDigits(s[..i]) && AllDigits(s[i..j]) && AllDigits(s[j..])
    ensures AllDigits(s)
  {
    forall k | 0 <= k < |s| ensures IsDigit(s[k]) {
      if k < i { assert s[k] == s[..i][k]; }
      else if k < j { assert s[k] == s[i..j][k - i]; }
      else { assert s[k] == s[j..][k - j]; }
    }
  }

  /** Every split the pattern admits is one that `IsPhone` accepts. */
  lemma PatternImpliesIsPhone(s: string, i: int, j: int)
    requires 0 <= i <= j <= |s| && SplitAt(s, i, j)
    ensures IsPhone(s)
  {
    var g, z, d := s[..i], s[i..j], s[j..];
    assert |s| == |g| + |z| + 9;
    assert AllDigits(z) by { assert z == "" || z[0] == '0'; }
    if g != "" && g[0] == '+' {
      var t := s[1..];
      assert AllDigits(g[1..]);
      assert t[..i - 1] == g[1..];
      assert t[i - 1..j - 1] == z;
      assert t[j - 1..] == d;
      AllDigitsJoin(t, i - 1, j - 1);
      if |t| == 13 {
        assert |g| == 4 && z == "0";
        assert t[3] == z[0];
      }
    } else {
      assert AllDigits(g);
      AllDigitsJoin(s, i, j);
      if |s| == 10 {
        assert g == "" && z == "0";
        assert s[0] == z[0];
      }
      if |s| == 13 {
        assert |g| == 3 && z == "0";
        assert s[3] == z[0];
      }
    }
  }

  /** Every input `IsPhone` accepts has a split the pattern admits. */
  lemma IsPhoneImpliesPattern(s: string) returns (i: int, j: int)
    requires IsPhone(s)
    ensures 0 <= i <= j <= |s| && SplitAt(s, i, j)
  {
    if |s| > 0 && s[0] == '+' {
      var t := s[1..];
      assert forall k :: 1 <= k <= |s| ==> s[1..k] == t[..k - 1];
      if |t| == 11 {
        i, j := 3, 3;
      } else if |t| == 12 {
        i, j := 4, 4;
      } else {
        i, j := 4, 5;
      }
      AllDigitsSlice(t, 0, i - 1);
      assert s[..i][1..] == t[..i - 1];
      AllDigitsSlice(t, j - 1, |t|);
      assert s[j..] == t[j - 1..];
      assert i < j ==> s[i..j] == [t[3]];
    } else {
      if |s| == 9 {
        i, j := 0, 0;
      } else if |s| == 10 {
        i, j := 0, 1;
      } else if |s| == 11 {
        i, j := 2, 2;
      } else if |s| == 12 {
        i, j := 3, 3;
      } else {
        i, j := 3, 4;
      }
      AllDigitsSlice(s, 0, i);
      AllDigitsSlice(s, j, |s|);
      assert i < j ==> s[i..j] == [s[i]];
    }
  }

  /** `IsPhone` decides exactly the language of the regular expression. */
  lemma IsPhoneCorrect(s: string)
    ensures IsPhone(s) <==> PhonePattern(s)
  {
    if IsPhone(s) {
      var i, j := IsPhoneImpliesPattern(s);
    }
    if PhonePattern(s) {
      var i, j :| 0 <= i <= j <= |s| && SplitAt(s, i, j);
      PatternImpliesIsPhone(s, i, j);
    }
  }

  /** The placeholder the student form shows, "0700000000", is accepted. */
  lemma PlaceholderIsPhone()
    ensures PhonePattern("0700000000")
  {
    assert SplitAt("0700000000", 0, 1);
  }

  /** An international number with a three-digit code and the trunk zero. */
  lemma InternationalWithTrunkZero()
    ensures PhonePattern("+2540712345678")
    ensures !PhonePattern("+2541712345678")
  {
    assert SplitAt("+2540712345678", 4, 5);
    IsPhoneCorrect("+2541712345678");
  }
}
