/** Thousands separators (internal/digest/service.go): 1234567 as "1,234,567". */
module Money {

  const MIN_INT64: int := -0x8000_0000_0000_0000

  type int64 = v: int | MIN_INT64 <= v < 0x8000_0000_0000_0000

  /** Negation in 64 bits: the least value is its own. */
  function Negate(v: int64): int64
  {
    if v == MIN_INT64 then v else -v
  }

  // ---------------------------------------------------------------- decimal numerals

  predicate IsDigit(c: char) { '0' <= c <= '9' }

  function DigitOf(n: nat): (c: char)
    requires n < 10
    ensures IsDigit(c) && ValueOf(c) == n
  {
    '0' + n as char
  }

  function ValueOf(c: char): int
  {
    c as int - '0' as int
  }

  function Digits(n: nat): (s: string)
    ensures |s| > 0 && forall c <- s :: IsDigit(c)
  {
    if n < 10 then [DigitOf(n)] else Digits(n / 10) + [DigitOf(n % 10)]
  }

  /** What the `%d` verb prints. */
  function Decimal(v: int): (s: string)
    ensures |s| > 0 && ',' !in s
  {
    if v < 0 then "-" + Digits(-v) else Digits(v)
  }

  function Value(s: string): int
  {
    if s == "" then 0 else 10 * Value(s[..|s| - 1]) + ValueOf(s[|s| - 1])
  }

  function Parse(s: string): int
  {
    if s != "" && s[0] == '-' then -Value(s[1..]) else Value(s)
  }

  lemma {:induction false} ValueOfDigits(n: nat)
    ensures Value(Digits(n)) == n
  {
    if n < 10 {
      assert Digits(n)[..0] == "";
    } else {
      ValueOfDigits(n / 10);
      assert Digits(n)[..|Digits(n)| - 1] == Digits(n / 10);
    }
  }

  lemma ParseOfDecimal(v: int)
    ensures Parse(Decimal(v)) == v
  {
    if v < 0 {
      ValueOfDigits(-v);
      assert Decimal(v)[1..] == Digits(-v);
    } else {
      ValueOfDigits(v);
      assert Digits(v)[0] in Digits(v);
    }
  }

  lemma {:induction false} LeadingDigit(n: nat)
    ensures Digits(n)[0] == '0' <==> n == 0
  {
    if n >= 10 {
      LeadingDigit(n / 10);
    }
  }

  /** A sign for exactly the negative numbers, and no leading zeros. */
  lemma DecimalIsCanonical(v: int)
    ensures Decimal(v)[0] == '-' <==> v < 0
    ensures v == 0 ==> Decimal(v) == "0"
    ensures v > 0 ==> Decimal(v)[0] != '0'
    ensures v < 0 ==> |Decimal(v)| > 1 && Decimal(v)[1] != '0'
  {
    if v < 0 {
      LeadingDigit(-v);
    } else {
      LeadingDigit(v);
      assert Digits(v)[0] in Digits(v);
    }
  }

  // ---------------------------------------------------------------- the separators

  /** A comma after every character that has a positive multiple of three behind it. */
  function WithCommas(s: string): string
  {
    if s == "" then ""
    else
      var behind := |s| - 1;
      [s[0]] + (if behind > 0 && behind % 3 == 0 then "," else "") + WithCommas(s[1..])
  }

  function Separator(length: nat, i: nat): string
  {
    if 0 < i < length && (length - i) % 3 == 0 then "," else ""
  }

  function Money(v: int64): string
  {
    if v < 0 then "-" + WithCommas(Decimal(Negate(v))) else WithCommas(Decimal(v))
  }

  lemma Reassociate(out: string, sep: string, c: char, rest: string)
    ensures out + sep + ([c] + rest) == out + sep + [c] + rest
  {
  }

  lemma OneMore(digits: string, i: nat, out: string)
    requires i < |digits|
    ensures out + Separator(|digits|, i) + WithCommas(digits[i..])
            == (out + Separator(|digits|, i) + [digits[i]]) + Separator(|digits|, i + 1) + WithCommas(digits[i + 1..])
  {
    var s := digits[i..];
    assert s[0] == digits[i] && s[1..] == digits[i + 1..] && |s| - 1 == |digits| - (i + 1);
    var next, rest := Separator(|digits|, i + 1), WithCommas(digits[i + 1..]);
    assert WithCommas(s) == [digits[i]] + next + rest;
    assert [digits[i]] + next + rest == [digits[i]] + (next + rest);
    Reassociate(out, Separator(|digits|, i), digits[i], next + rest);
    var front := out + Separator(|digits|, i) + [digits[i]];
    assert front + (next + rest) == front + next + rest;
  }

  method Format(v: int64) returns (text: string)
    ensures text == Money(v)
  {
    var neg := v < 0;
    var magnitude: int64 := v;
    if neg {
      magnitude := Negate(v);
    }
    var digits := Decimal(magnitude);
    var out := "";
    assert digits[0..] == digits;
    for i := 0 to |digits|
      invariant out + Separator(|digits|, i) + WithCommas(digits[i..]) == WithCommas(digits)
    {
      OneMore(digits, i, out);
      if i > 0 && (|digits| - i) % 3 == 0 {
        assert Separator(|digits|, i) == ",";
        out := out + ",";
      } else {
        assert Separator(|digits|, i) == "";
        assert out + "" == out;
      }
      out := out + [digits[i]];
    }
    assert out + "" + "" == out;
    if neg {
      return "-" + out;
    }
    return out;
  }

  // ---------------------------------------------------------------- deleting the commas

  function Strip(s: string): string
  {
    if s == "" then "" else (if s[0] == ',' then "" else [s[0]]) + Strip(s[1..])
  }

  lemma StripOfCons(c: char, s: string)
    ensures Strip([c] + s) == if c == ',' then Strip(s) else [c] + Strip(s)
  {
    assert ([c] + s)[1..] == s;
    assert "" + Strip(s) == Strip(s);
  }

  lemma StripOfHead(s: string)
    requires s != "" && s[0] != ','
    ensures Strip(WithCommas(s)) == [s[0]] + Strip(WithCommas(s[1..]))
  {
    var rest := WithCommas(s[1..]);
    if |s| - 1 > 0 && (|s| - 1) % 3 == 0 {
      StripOfCons(',', rest);
      StripOfCons(s[0], "," + rest);
      assert WithCommas(s) == [s[0]] + ("," + rest);
    } else {
      StripOfCons(s[0], rest);
      assert WithCommas(s) == [s[0]] + rest;
    }
  }

  lemma {:induction false} StripOfWithCommas(s: string)
    requires ',' !in s
    ensures Strip(WithCommas(s)) == s
  {
    if s != "" {
      assert s[0] in s && forall c | c in s[1..] :: c in s;
      StripOfWithCommas(s[1..]);
      StripOfHead(s);
      assert s == [s[0]] + s[1..];
    }
  }

  /** Without its commas the text is the decimal form of the number, and so parses back to it, for
      every number but the least, whose sign is printed twice. */
  lemma CommasAsideIff(v: int64)
    ensures Strip(Money(v)) == Decimal(v) <==> v != MIN_INT64
    ensures v != MIN_INT64 ==> Parse(Strip(Money(v))) == v
  {
    StripOfWithCommas(Decimal(if v < 0 then Negate(v) else v));
    ParseOfDecimal(v);
    if v < 0 {
      var t := WithCommas(Decimal(Negate(v)));
      assert Money(v)[1..] == t && Strip(Money(v)) == "-" + Strip(t);
      if v == MIN_INT64 {
        assert Strip(Money(v)) == "-" + Decimal(v);
        assert |Strip(Money(v))| == |Decimal(v)| + 1;
      }
    }
  }

  /** So two amounts never look alike. */
  lemma MoneyIsInjective(v: int64, w: int64)
    requires Money(v) == Money(w) && v != MIN_INT64 && w != MIN_INT64
    ensures v == w
  {
    CommasAsideIff(v);
    CommasAsideIff(w);
  }

  // ---------------------------------------------------------------- the groups

  /** The stretches between commas. */
  function Groups(s: string): (g: seq<string>)
    ensures |g| > 0
  {
    if s == "" then [""]
    else
      var g := Groups(s[1..]);
      if s[0] == ',' then [""] + g else [[s[0]] + g[0]] + g[1..]
  }

  ghost predicate Grouped(g: seq<string>, first: nat)
  {
    |g| > 0 && |g[0]| == first && forall k :: 0 < k < |g| ==> |g[k]| == 3
  }

  lemma GroupsOfCons(c: char, s: string)
    ensures Groups([c] + s) == if c == ',' then [""] + Groups(s) else [[c] + Groups(s)[0]] + Groups(s)[1..]
  {
    assert ([c] + s)[1..] == s;
  }

  lemma LongerGroup(c: char, s: string, first: nat)
    requires c != ',' && Grouped(Groups(s), first)
    ensures Grouped(Groups([c] + s), first + 1)
  {
    GroupsOfCons(c, s);
  }

  lemma NewGroup(c: char, s: string)
    requires c != ',' && Grouped(Groups(s), 3)
    ensures Grouped(Groups([c] + ("," + s)), 1)
  {
    GroupsOfCons(',', s);
    GroupsOfCons(c, "," + s);
  }

  lemma GroupsWithBreak(s: string)
    requires |s| > 1 && s[0] != ',' && (|s| - 1) % 3 == 0 && Grouped(Groups(WithCommas(s[1..])), 3)
    ensures Grouped(Groups(WithCommas(s)), 1)
  {
    var rest := WithCommas(s[1..]);
    NewGroup(s[0], rest);
    assert WithCommas(s) == [s[0]] + ("," + rest);
  }

  lemma GroupsWithoutBreak(s: string, first: nat)
    requires |s| > 1 && s[0] != ',' && (|s| - 1) % 3 != 0 && Grouped(Groups(WithCommas(s[1..])), first)
    ensures Grouped(Groups(WithCommas(s)), first + 1)
  {
    var rest := WithCommas(s[1..]);
    LongerGroup(s[0], rest, first);
    assert WithCommas(s) == [s[0]] + rest;
  }

  /** What is left over for the first group. */
  function Lead(n: nat): (r: nat)
    requires n > 0
    ensures 1 <= r <= 3
  {
    if n <= 3 then n else Lead(n - 3)
  }

  lemma {:induction false} LeadOfOneMore(n: nat)
    requires n > 0
    ensures n % 3 == 0 <==> Lead(n) == 3
    ensures Lead(n + 1) == if Lead(n) == 3 then 1 else Lead(n) + 1
  {
    if n > 3 {
      LeadOfOneMore(n - 3);
    }
  }

  lemma {:induction false} GroupsOfWithCommas(s: string)
    requires s != "" && ',' !in s
    ensures Grouped(Groups(WithCommas(s)), Lead(|s|))
  {
    assert s[0] in s && forall x | x in s[1..] :: x in s;
    if |s| == 1 {
      assert WithCommas(s) == [s[0]] + "";
      GroupsOfCons(s[0], "");
    } else {
      GroupsOfWithCommas(s[1..]);
      LeadOfOneMore(|s| - 1);
      if Lead(|s| - 1) == 3 {
        GroupsWithBreak(s);
      } else {
        GroupsWithoutBreak(s, Lead(|s| - 1));
      }
    }
  }

  /** The sign aside, the first group has the one to three digits that threes leave over, and every
      later group exactly three. */
  lemma GroupsOfThree(v: int64)
    requires v != MIN_INT64
    ensures var magnitude := if v < 0 then Money(v)[1..] else Money(v);
            Grouped(Groups(magnitude), Lead(|Decimal(if v < 0 then -v else v)|))
  {
    var d := Decimal(if v < 0 then -v else v);
    GroupsOfWithCommas(d);
    if v < 0 {
      assert Money(v)[1..] == WithCommas(d);
    }
  }
}
