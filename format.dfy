/**
 * `format_number` of handlers/group_commands.py: an integer in decimal with
 * its thousands separated by single spaces.
 */
module NumberFormat {
  import opened Text

  /** Groups a digit string in threes from the right, separated by single spaces. */
  function Group(s: string): string
    decreases |s|
  {
    if |s| <= 3 then s else Group(s[..|s| - 3]) + " " + s[|s| - 3..]
  }

  /** `f"{n:,}".replace(",", " ")`: decimal with thousands separated by spaces. */
  function FormatNumber(n: int): string
  {
    if n < 0 then "-" + Group(Digits(-n)) else Group(Digits(n))
  }

  /** One step of `Group`: the leading groups, a space, and the last three digits. */
  lemma GroupUnfold(s: string)
    requires |s| > 3
    ensures Group(s) == Group(s[..|s| - 3]) + (" " + s[|s| - 3..])
  {
  }

  lemma RemoveSpaceThenDigits(g: string, t: string)
    requires ' ' !in t
    ensures Remove(g + (" " + t), ' ') == Remove(g, ' ') + t
  {
    RemoveAbsent(t, ' ');
    RemoveAppend(" ", t, ' ');
    RemoveAppend(g, " " + t, ' ');
  }

  /** Dropping the spaces of a grouped string gives back the digits. */
  lemma {:induction false} GroupRemove(s: string)
    requires ' ' !in s
    ensures Remove(Group(s), ' ') == s
    decreases |s|
  {
    if |s| <= 3 {
      RemoveAbsent(s, ' ');
    } else {
      var p, t := s[..|s| - 3], s[|s| - 3..];
      assert ' ' !in p && ' ' !in t by {
        assert s == p + t;
      }
      GroupRemove(p);
      GroupUnfold(s);
      RemoveSpaceThenDigits(Group(p), t);
      assert p + t == s;
    }
  }

  /** Every character is a space exactly when it stands a multiple of four places from the end. */
  predicate SpacedFromEnd(r: string)
  {
    forall i :: 0 <= i < |r| ==> (r[i] == ' ' <==> (|r| - i) % 4 == 0)
  }

  /** Appending a space and three non-space characters keeps the spacing. */
  lemma SpacedAppend(g: string, t: string)
    requires SpacedFromEnd(g) && |t| == 3 && ' ' !in t
    ensures SpacedFromEnd(g + " " + t)
  {
    var r := g + " " + t;
    forall i | 0 <= i < |r|
      ensures r[i] == ' ' <==> (|r| - i) % 4 == 0
    {
      if i < |g| {
        assert r[i] == g[i];
        assert |r| - i == (|g| - i) + 4;
      } else if i > |g| {
        assert r[i] == t[i - |g| - 1];
        assert 1 <= |r| - i <= 3;
      }
    }
  }

  /**
   * The spacing of a grouped string: a character is a space exactly when it
   * stands a multiple of four places from the end, so every group after the
   * first has three digits, and the first group has one to three.
   */
  lemma {:induction false} GroupSpaces(s: string)
    requires |s| >= 1 && ' ' !in s
    ensures |Group(s)| % 4 != 0
    ensures SpacedFromEnd(Group(s))
    decreases |s|
  {
    if |s| > 3 {
      var p, t := s[..|s| - 3], s[|s| - 3..];
      assert ' ' !in p && ' ' !in t by {
        assert s == p + t;
      }
      GroupSpaces(p);
      GroupUnfold(s);
      assert Group(s) == Group(p) + " " + t;
      SpacedAppend(Group(p), t);
    } else {
      assert forall i :: 0 <= i < |s| ==> s[i] != ' ';
    }
  }

  /** The decimal form of `n` has at most three digits exactly when `n < 1000`. */
  lemma DigitsShort(n: nat)
    ensures |Digits(n)| <= 3 <==> n < 1000
  {
    if n >= 10 {
      assert |Digits(n)| == |Digits(n / 10)| + 1;
      if n / 10 >= 10 {
        assert |Digits(n / 10)| == |Digits(n / 10 / 10)| + 1;
        if n / 10 / 10 >= 10 {
          assert |Digits(n / 10 / 10)| == |Digits(n / 10 / 10 / 10)| + 1;
        }
      }
    }
  }

  /** The digit string of a natural number has no space. */
  lemma DigitsNoSpace(n: nat)
    ensures ' ' !in Digits(n) && |Digits(n)| >= 1
  {
    DigitsDecimal(n);
    IntToStringChars(n, ' ');
  }

  /**
   * `format_number(n)` for `n >= 0`: without its spaces it is the plain
   * decimal form of `n`, and it is grouped in threes from the right with a
   * first group of one to three digits.
   */
  lemma FormatNumberShape(n: nat)
    ensures Remove(FormatNumber(n), ' ') == Digits(n)
    ensures |FormatNumber(n)| % 4 != 0
    ensures SpacedFromEnd(FormatNumber(n))
  {
    var d := Digits(n);
    DigitsNoSpace(n);
    assert FormatNumber(n) == Group(d);
    GroupRemove(d);
    GroupSpaces(d);
  }

  /** `format_number(n)` for `n >= 0` has a space exactly when `n >= 1000`. */
  lemma FormatNumberShort(n: nat)
    ensures ' ' in FormatNumber(n) <==> n >= 1000
    ensures n < 1000 ==> FormatNumber(n) == Digits(n)
  {
    DigitsNoSpace(n);
    DigitsShort(n);
    var d := Digits(n);
    if n >= 1000 {
      GroupUnfold(d);
      assert Group(d)[|Group(d[..|d| - 3])|] == ' ';
    }
  }

  /** For any integer, dropping the spaces of `format_number(n)` gives `str(n)`. */
  lemma FormatNumberDigits(n: int)
    ensures Remove(FormatNumber(n), ' ') == IntToString(n)
  {
    var m := if n < 0 then -n else n;
    IntToStringChars(m, ' ');
    GroupRemove(Digits(m));
    if n < 0 {
      RemoveAppend("-", Group(Digits(m)), ' ');
      assert Remove("-", ' ') == "-";
    }
  }

}
