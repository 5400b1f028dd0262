/**
 * The input formatters of the card forms, used identically by the Billing
 * page's "add payment method" dialog and by the Payment page:
 * `formatCardNumber`, `formatExpiryDate` and the security-code sanitizer.
 */
module CardFormat {
  import opened Seqs
  import opened Text

  function Min(a: int, b: int): int {
    if a <= b then a else b
  }

  /** Consecutive groups of four characters, the last one possibly shorter. */
  function Groups(m: string): (gs: seq<string>)
    decreases |m|
  {
    if m == [] then []
    else if |m| <= 4 then [m]
    else [m[..4]] + Groups(m[4..])
  }

  /** `parts.join(' ')`. */
  function JoinSpaces(parts: seq<string>): string
    decreases |parts|
  {
    if parts == [] then ""
    else if |parts| == 1 then parts[0]
    else parts[0] + " " + JoinSpaces(parts[1..])
  }

  predicate DigitOrSpace(c: char) {
    IsDigit(c) || c == ' '
  }

  /**
   * The value `formatCardNumber` returns: with at least four digits, the
   * first sixteen digits (the first run the pattern `\d{4,16}` finds) grouped by four;
   * with fewer, the bare digits.
   */
  function CardNumberText(value: string): (r: string)
    ensures |Digits(value)| < 4 ==> r == Digits(value)
    ensures |Digits(value)| >= 4 ==> |r| > 0
  {
    var v := Digits(value);
    var matched := if |v| >= 4 then Take(v, 16) else "";
    var parts := Groups(matched);
    if |parts| > 0 then JoinSpaces(parts) else v
  }

  /** `formatCardNumber`, with the loop that cuts the matched digits into parts of four. */
  method FormatCardNumber(value: string) returns (r: string)
    ensures r == CardNumberText(value)
    ensures forall k :: 0 <= k < |r| ==> DigitOrSpace(r[k])
    ensures RemoveWhitespace(r) == Take(Digits(value), 16)
  {
    var v := Digits(value);
    var matched := if |v| >= 4 then Take(v, 16) else "";
    var parts: seq<string> := [];
    var i, len := 0, |matched|;
    while i < len
      invariant 0 <= i < len + 4 && i % 4 == 0
      invariant |parts| == i / 4
      invariant forall k :: 0 <= k < |parts| ==> parts[k] == matched[4 * k..Min(4 * k + 4, len)]
    {
      parts := parts + [matched[i..Min(i + 4, len)]];
      i := i + 4;
    }
    GroupsAt(matched);
    assert parts == Groups(matched);
    if |parts| > 0 {
      r := JoinSpaces(parts);
    } else {
      r := v;
    }
    CardNumberShape(value);
  }

  /** The `k`-th group is `m.substring(4 * k, 4 * k + 4)`. */
  lemma {:induction false} GroupsAt(m: string)
    ensures |Groups(m)| == (|m| + 3) / 4
    ensures forall k :: 0 <= k < |Groups(m)| ==> Groups(m)[k] == m[4 * k..Min(4 * k + 4, |m|)]
    decreases |m|
  {
    if |m| > 4 {
      GroupsAt(m[4..]);
      var gs := Groups(m);
      assert gs == [m[..4]] + Groups(m[4..]);
      forall k | 0 <= k < |gs| ensures gs[k] == m[4 * k..Min(4 * k + 4, |m|)] {
        if k > 0 {
          assert gs[k] == Groups(m[4..])[k - 1];
          assert m[4..][4 * (k - 1)..Min(4 * (k - 1) + 4, |m| - 4)] == m[4 * k..Min(4 * k + 4, |m|)];
        }
      }
    } else if m != [] {
      assert m[0..Min(4, |m|)] == m;
    }
  }

  lemma JoinGroupsStep(m: string)
    requires |m| > 4
    ensures JoinSpaces(Groups(m)) == m[..4] + " " + JoinSpaces(Groups(m[4..]))
  {
    var gs := Groups(m);
    assert gs == [m[..4]] + Groups(m[4..]);
    assert Groups(m[4..]) != [];
    assert gs[1..] == Groups(m[4..]);
  }

  /** Joining the groups of a digit string puts a space at every fifth position and nowhere else. */
  lemma {:induction false} JoinGroupsLayout(m: string)
    requires m != [] && AllDigits(m)
    ensures var r := JoinSpaces(Groups(m));
      && |r| == |m| + (|m| - 1) / 4
      && (forall k :: 0 <= k < |r| ==> DigitOrSpace(r[k]))
      && (forall k :: 0 <= k < |r| ==> (r[k] == ' ' <==> k % 5 == 4))
    decreases |m|
  {
    if |m| > 4 {
      var r := JoinSpaces(Groups(m));
      var tail := m[4..];
      JoinGroupsStep(m);
      JoinGroupsLayout(tail);
      var r' := JoinSpaces(Groups(tail));
      forall k | 0 <= k < |r| ensures DigitOrSpace(r[k]) && (r[k] == ' ' <==> k % 5 == 4) {
        if k < 4 {
          assert r[k] == m[k];
        } else if k > 4 {
          assert r[k] == r'[k - 5];
        }
      }
    }
  }

  lemma StripGroupOfFourAndSpace(head: string)
    requires AllDigits(head)
    ensures Filter(head + " ", NotSpace) == head
  {
    FilterConcat(head, " ", NotSpace);
    FilterAll(head, NotSpace);
    assert Filter(" ", NotSpace) == [];
  }

  lemma StripStep(m: string)
    requires |m| > 4
    ensures Filter(JoinSpaces(Groups(m)), NotSpace)
         == Filter(m[..4] + " ", NotSpace) + Filter(JoinSpaces(Groups(m[4..])), NotSpace)
  {
    JoinGroupsStep(m);
    FilterConcat(m[..4] + " ", JoinSpaces(Groups(m[4..])), NotSpace);
  }

  /** Taking the spaces back out of the joined groups gives the digit string. */
  lemma {:induction false} JoinGroupsStrip(m: string)
    requires m != [] && AllDigits(m)
    ensures Filter(JoinSpaces(Groups(m)), NotSpace) == m
    decreases |m|
  {
    if |m| <= 4 {
      FilterAll(m, NotSpace);
    } else {
      var head, tail := m[..4], m[4..];
      AllDigitsSlice(m, 0, 4);
      AllDigitsSlice(m, 4, |m|);
      assert head == m[0..4] && tail == m[4..|m|];
      StripStep(m);
      JoinGroupsStrip(tail);
      StripGroupOfFourAndSpace(head);
      assert head + tail == m;
    }
  }

  lemma LengthNotMultipleOfFive(n: int)
    requires n >= 1
    ensures (n + (n - 1) / 4) % 5 != 0
  {
    var q, t := (n - 1) / 4, (n - 1) % 4;
    assert n + q == 5 * q + t + 1;
  }

  /**
   * What `formatCardNumber` promises: only digits and spaces; with the spaces
   * removed, the first sixteen digits of the input; with four digits or more,
   * groups of four separated by single spaces (at most 19 characters), the
   * last group holding one to four digits; with fewer, the bare digits.
   */
  lemma CardNumberShape(value: string)
    ensures var r := CardNumberText(value);
      && (forall k :: 0 <= k < |r| ==> DigitOrSpace(r[k]))
      && RemoveWhitespace(r) == Take(Digits(value), 16)
      && (|Digits(value)| < 4 ==> r == Digits(value))
      && (|Digits(value)| >= 4 ==>
           && |r| <= 19
           && |r| % 5 != 0
           && forall k :: 0 <= k < |r| ==> (r[k] == ' ' <==> k % 5 == 4))
  {
    var v := Digits(value);
    if |v| >= 4 {
      var m := Take(v, 16);
      AllDigitsSlice(v, 0, |m|);
      assert m == v[0..|m|];
      JoinGroupsLayout(m);
      JoinGroupsStrip(m);
      LengthNotMultipleOfFive(|m|);
    } else {
      FilterAll(v, NotSpace);
    }
  }

  /** Formatting an already formatted card number changes nothing. */
  lemma CardNumberIdempotent(value: string)
    ensures CardNumberText(CardNumberText(value)) == CardNumberText(value)
  {
    var r := CardNumberText(value);
    var v := Digits(value);
    CardNumberShape(value);
    FilterExt(r, IsDigit, NotSpace);
    assert Digits(r) == Take(v, 16);
    if |v| >= 4 {
      assert Take(Take(v, 16), 16) == Take(v, 16);
    }
  }

  /**
   * The value `formatExpiryDate` returns: with two digits or more, the first
   * two, a slash, and up to two more; with fewer, the digits themselves.
   */
  function ExpiryDateText(value: string): (r: string)
    ensures |r| <= 5
    ensures |Digits(value)| < 2 ==> r == Digits(value)
    ensures |Digits(value)| >= 2 ==>
      && |r| == 3 + Min(4, |Digits(value)|) - 2
      && r[..2] == Digits(value)[..2]
      && r[2] == '/'
      && r[3..] == Digits(value)[2..Min(4, |Digits(value)|)]
  {
    var v := Digits(value);
    if |v| >= 2 then v[..2] + "/" + v[2..Min(4, |v|)] else v
  }

  /** The digits of a formatted expiry date are the first four digits of the input. */
  lemma ExpiryDateDigits(value: string)
    ensures Digits(ExpiryDateText(value)) == Take(Digits(value), 4)
  {
    var v := Digits(value);
    if |v| >= 2 {
      var a, b := v[..2], v[2..Min(4, |v|)];
      AllDigitsSlice(v, 0, 2);
      AllDigitsSlice(v, 2, Min(4, |v|));
      assert ExpiryDateText(value) == (a + "/") + b;
      assert Digits(a + "/") == a by {
        DigitsConcat(a, "/");
        assert Digits("/") == [];
      }
      DigitsConcat(a + "/", b);
      assert a + b == Take(v, 4);
    }
  }

  /** Formatting an already formatted expiry date changes nothing. */
  lemma ExpiryDateIdempotent(value: string)
    ensures ExpiryDateText(ExpiryDateText(value)) == ExpiryDateText(value)
  {
    var v := Digits(value);
    ExpiryDateDigits(value);
    var w := Take(v, 4);
    if |v| >= 2 {
      assert w[..2] == v[..2] && w[2..Min(4, |w|)] == v[2..Min(4, |v|)];
    }
  }

  /** The security-code sanitizer: the digits of the input, at most four of them. */
  function SecurityCodeText(value: string): (r: string)
    ensures AllDigits(r) && |r| <= 4
    ensures r <= Digits(value)
    ensures |r| == Min(4, |Digits(value)|)
  {
    Take(Digits(value), 4)
  }

  lemma SecurityCodeIdempotent(value: string)
    ensures SecurityCodeText(SecurityCodeText(value)) == SecurityCodeText(value)
  {
    AllDigitsSlice(Digits(value), 0, |SecurityCodeText(value)|);
  }
}
