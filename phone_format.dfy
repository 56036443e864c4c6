/** `formatPhone`: the display mask applied to the WhatsApp field on every
    keystroke. It keeps the digits of the input (at most eleven of them) and
    lays them out as a Brazilian mobile number, `(DD) DDDDD-DDDD`. */
module PhoneFormat {
  import opened Strings

  /** The number of digits the mask can hold: two for the area code and nine
      for the subscriber number. */
  const MaxDigits: nat := 11

  function Min(a: int, b: int): int {
    if a <= b then a else b
  }

  /** `formatPhone(value)`. The two last branches of the source are the same
      expression; in the first of them `slice(7, 11)` ends at the last digit. */
  function FormatPhone(value: string): (r: string)
    ensures value == [] ==> r == []
    ensures value != [] ==> r != [] && r[0] == '('
  {
    if value == [] then value
    else
      var p := Digits(value);
      var n := |p|;
      if n <= 2 then "(" + p
      else if n <= 7 then "(" + p[..2] + ") " + p[2..]
      else if n <= 11 then "(" + p[..2] + ") " + p[2..7] + "-" + p[7..]
      else "(" + p[..2] + ") " + p[2..7] + "-" + p[7..11]
  }

  /** The digits of a punctuated number are the digits of its groups. */
  lemma MaskDigits(a: string, b: string, c: string)
    requires AllDigits(a) && AllDigits(b) && AllDigits(c)
    ensures Digits("(" + a) == a
    ensures Digits("(" + a + ") " + b) == a + b
    ensures Digits("(" + a + ") " + b + "-" + c) == a + b + c
  {
    DigitsOfDigits(a);
    DigitsOfDigits(b);
    DigitsOfDigits(c);
    assert Digits("(") == [] && Digits(") ") == [] && Digits("-") == [];
    var x := "(" + a;
    DigitsAppend("(", a);
    var y := x + ") ";
    DigitsAppend(x, ") ");
    assert Digits(y) == a;
    var z := y + b;
    DigitsAppend(y, b);
    var w := z + "-";
    DigitsAppend(z, "-");
    assert Digits(w) == a + b;
    DigitsAppend(w, c);
  }

  /** The digits of the formatted number, in order, are the first
      min(n, 11) digits of the input, where n is its digit count. */
  lemma FormatPhoneDigits(s: string)
    ensures Digits(FormatPhone(s)) == Digits(s)[..Min(|Digits(s)|, MaxDigits)]
  {
    var p := Digits(s);
    var n := |p|;
    if s == [] {
    } else if n <= 2 {
      MaskDigits(p, "", "");
    } else if n <= 7 {
      MaskDigits(p[..2], p[2..], "");
      assert p[..2] + p[2..] == p;
    } else if n <= 11 {
      FullMaskDigits(p, n);
      assert p[7..n] == p[7..] && p[..n] == p;
    } else {
      FullMaskDigits(p, 11);
    }
  }

  /** The digits of a full mask over the first k digits of p. */
  lemma FullMaskDigits(p: string, k: nat)
    requires AllDigits(p) && 7 < k <= |p|
    ensures Digits("(" + p[..2] + ") " + p[2..7] + "-" + p[7..k]) == p[..k]
  {
    MaskDigits(p[..2], p[2..7], p[7..k]);
    assert p[..2] + p[2..7] + p[7..k] == p[..k];
  }

  /** The length of the formatted number is fixed by the digit count n of a
      non-empty input: n + 1 up to two digits, n + 3 up to seven, and
      min(n, 11) + 4 beyond. */
  lemma FormatPhoneLength(s: string)
    requires s != []
    ensures var n := |Digits(s)|;
      |FormatPhone(s)| == if n <= 2 then n + 1 else if n <= 7 then n + 3 else Min(n, MaxDigits) + 4
  {
  }

  /** Digits beyond the eleventh are ignored: the input formats like its
      first eleven digits alone. */
  lemma FormatPhoneTruncates(s: string)
    requires |Digits(s)| > MaxDigits
    ensures FormatPhone(s) == FormatPhone(Digits(s)[..MaxDigits])
  {
    var p := Digits(s);
    DigitsOfDigits(p[..MaxDigits]);
  }

  /** Re-applying the mask to its own output changes nothing, so the field
      keeps a formatted number however often it is edited. */
  lemma FormatPhoneIdempotent(s: string)
    ensures FormatPhone(FormatPhone(s)) == FormatPhone(s)
  {
    var r := FormatPhone(s);
    if s != [] {
      var p := Digits(s);
      FormatPhoneDigits(s);
      var q := Digits(r);
      assert q == p[..Min(|p|, MaxDigits)];
      if |p| > MaxDigits {
        assert q[..2] == p[..2] && q[2..7] == p[2..7] && q[7..] == p[7..11];
      } else {
        assert q == p;
      }
    }
  }

  /** What the step-one check sees: the stored (formatted) number has at
      least ten digits exactly when the typed input had. */
  lemma FormattedDigitCount(s: string)
    ensures |Digits(FormatPhone(s))| >= 10 <==> |Digits(s)| >= 10
  {
    FormatPhoneDigits(s);
  }

  /** Eleven digits typed without punctuation fill the whole mask. */
  lemma FormatElevenDigits(p: string)
    requires AllDigits(p) && |p| == 11
    ensures FormatPhone(p) == "(" + p[..2] + ") " + p[2..7] + "-" + p[7..]
  {
    DigitsOfDigits(p);
  }

  /** Area code, first group and last group typed as eleven bare digits
      come back punctuated. */
  lemma FormatGroups(a: string, b: string, c: string)
    requires AllDigits(a) && AllDigits(b) && AllDigits(c)
    requires |a| == 2 && |b| == 5 && |c| == 4
    ensures FormatPhone(a + b + c) == "(" + a + ") " + b + "-" + c
  {
    var p := a + b + c;
    assert AllDigits(p);
    FormatElevenDigits(p);
    assert p[..2] == a && p[2..7] == b && p[7..] == c;
  }

  lemma ExampleDigits()
    ensures "22" + "98765" + "4321" == "22987654321"
  {
  }

  lemma ExampleMask()
    ensures "(" + "22" + ") " + "98765" + "-" + "4321" == "(22) 98765-4321"
  {
  }

  /** An eleven-digit mobile number typed without punctuation. */
  lemma FormatPhoneExample()
    ensures FormatPhone("22987654321") == "(22) 98765-4321"
  {
    FormatGroups("22", "98765", "4321");
    ExampleDigits();
    ExampleMask();
  }
}
