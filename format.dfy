/** CPF (the 11-digit Brazilian taxpayer id) and currency-string helpers.
    Every one of them starts from the same normalisation: delete each
    character that is not an ASCII digit, keeping the rest in order. */
module Format {
  import Seqs

  predicate IsDigit(c: char)
  {
    '0' <= c <= '9'
  }

  predicate AllDigits(s: string)
  {
    forall i :: 0 <= i < |s| ==> IsDigit(s[i])
  }

  /** The digits of `s`, in order: what a global `\D` replace by "" leaves. */
  function StripNonDigits(s: string): (r: string)
    ensures |r| <= |s|
    ensures AllDigits(r)
  {
    Seqs.Filter(s, IsDigit)
  }

  /** Stripping keeps every occurrence of every digit. */
  lemma StripKeepsDigits(s: string)
    ensures forall c :: IsDigit(c) ==> multiset(StripNonDigits(s))[c] == multiset(s)[c]
  {
    forall c | IsDigit(c)
      ensures multiset(StripNonDigits(s))[c] == multiset(s)[c]
    {
      Seqs.FilterCount(s, IsDigit, c);
    }
  }

  /** A string of digits only is its own stripped form. */
  lemma StripAllDigits(s: string)
    requires AllDigits(s)
    ensures StripNonDigits(s) == s
  {
    Seqs.FilterAllPass(s, IsDigit);
  }

  lemma StripIdempotent(s: string)
    ensures StripNonDigits(StripNonDigits(s)) == StripNonDigits(s)
  {
    Seqs.FilterIdempotent(s, IsDigit);
  }

  lemma StripAppend(a: string, b: string)
    ensures StripNonDigits(a + b) == StripNonDigits(a) + StripNonDigits(b)
  {
    Seqs.FilterAppend(a, b, IsDigit);
  }

  // ---------------------------------------------------------------------
  // CPF

  /** `unformatCPF`: the digits of the input, every one of them, nothing else. */
  function UnformatCpf(s: string): (r: string)
    ensures AllDigits(r)
    ensures forall c :: IsDigit(c) ==> multiset(r)[c] == multiset(s)[c]
  {
    StripKeepsDigits(s);
    StripNonDigits(s)
  }

  /** The digits come out in the order they stand in the input. */
  lemma UnformatCpfKeepsOrder(s: string)
    ensures Seqs.IsSubsequence(UnformatCpf(s), s)
  {
    Seqs.FilterIsSubsequence(s, IsDigit);
  }

  /** Unformatting is idempotent and leaves a digit string unchanged. */
  lemma UnformatCpfIdempotent(s: string)
    ensures UnformatCpf(UnformatCpf(s)) == UnformatCpf(s)
    ensures AllDigits(s) ==> UnformatCpf(s) == s
  {
    StripIdempotent(s);
    if AllDigits(s) { StripAllDigits(s); }
  }

  /** The display layout `ddd.ddd.ddd-dd`. */
  predicate IsCpfLayout(r: string)
  {
    |r| == 14 &&
    forall i :: 0 <= i < 14 ==>
      if i == 3 || i == 7 then r[i] == '.'
      else if i == 11 then r[i] == '-'
      else IsDigit(r[i])
  }

  /** The four digit groups of a string in display layout. */
  function LayoutDigits(r: string): string
    requires |r| == 14
  {
    r[0..3] + r[4..7] + r[8..11] + r[12..14]
  }

  /** Inserts the separators into an 11-character id. */
  function Punctuate(d: string): string
    requires |d| == 11
  {
    d[0..3] + "." + d[3..6] + "." + d[6..9] + "-" + d[9..11]
  }

  /** The digits of a string in display layout are its four groups. */
  lemma StripLayout(r: string)
    requires IsCpfLayout(r)
    ensures StripNonDigits(r) == LayoutDigits(r)
    ensures |StripNonDigits(r)| == 11
  {
    assert r == r[0..3] + r[3..4] + r[4..7] + r[7..8] + r[8..11] + r[11..12] + r[12..14];
    StripAppend(r[0..3] + r[3..4] + r[4..7] + r[7..8] + r[8..11] + r[11..12], r[12..14]);
    StripAppend(r[0..3] + r[3..4] + r[4..7] + r[7..8] + r[8..11], r[11..12]);
    StripAppend(r[0..3] + r[3..4] + r[4..7] + r[7..8], r[8..11]);
    StripAppend(r[0..3] + r[3..4] + r[4..7], r[7..8]);
    StripAppend(r[0..3] + r[3..4], r[4..7]);
    StripAppend(r[0..3], r[3..4]);
    StripAllDigits(r[0..3]);
    StripAllDigits(r[4..7]);
    StripAllDigits(r[8..11]);
    StripAllDigits(r[12..14]);
    assert StripNonDigits(r[3..4]) == [] && StripNonDigits(r[7..8]) == [];
    assert StripNonDigits(r[11..12]) == [];
  }

  /** Punctuating 11 digits gives the display layout, whose groups are
      those digits again. */
  lemma PunctuateLayout(d: string)
    requires |d| == 11 && AllDigits(d)
    ensures IsCpfLayout(Punctuate(d))
    ensures LayoutDigits(Punctuate(d)) == d
  {
    var r := Punctuate(d);
    assert r[0..3] == d[0..3] && r[4..7] == d[3..6] && r[8..11] == d[6..9] && r[12..14] == d[9..11];
    assert d == d[0..3] + d[3..6] + d[6..9] + d[9..11];
  }

  /** `formatCPF`: with exactly 11 digits, those digits in display layout;
      otherwise the input, untouched. */
  function FormatCpf(s: string): (r: string)
    ensures |StripNonDigits(s)| != 11 ==> r == s
    ensures |StripNonDigits(s)| == 11 ==> IsCpfLayout(r) && StripNonDigits(r) == StripNonDigits(s)
  {
    var cleaned := StripNonDigits(s);
    if |cleaned| != 11 then s
    else
      PunctuateLayout(cleaned);
      StripLayout(Punctuate(cleaned));
      Punctuate(cleaned)
  }

  /** Formatting never changes which digits a string holds. */
  lemma UnformatFormatCpf(s: string)
    ensures UnformatCpf(FormatCpf(s)) == UnformatCpf(s)
  {
  }

  /** An 11-digit id survives formatting and unformatting. */
  lemma UnformatFormatCpfRoundTrip(s: string)
    requires |s| == 11 && AllDigits(s)
    ensures UnformatCpf(FormatCpf(s)) == s
  {
    StripAllDigits(s);
  }

  /** Formatting an already formatted id changes nothing. */
  lemma FormatCpfIdempotent(s: string)
    ensures FormatCpf(FormatCpf(s)) == FormatCpf(s)
  {
    var d := StripNonDigits(s);
    if |d| == 11 {
      var r := FormatCpf(s);
      StripLayout(r);
      PunctuateLayout(d);
      assert LayoutDigits(r) == d;
      LayoutUnique(r, Punctuate(d));
    }
  }

  /** Two strings in display layout with the same digit groups are equal. */
  lemma LayoutUnique(r: string, t: string)
    requires IsCpfLayout(r) && IsCpfLayout(t)
    requires LayoutDigits(r) == LayoutDigits(t)
    ensures r == t
  {
    forall i | 0 <= i < 14 ensures r[i] == t[i] {
      var lr, lt := LayoutDigits(r), LayoutDigits(t);
      if i < 3 { assert r[i] == lr[i] && t[i] == lt[i]; }
      else if 3 < i < 7 { assert r[i] == lr[i - 1] && t[i] == lt[i - 1]; }
      else if 7 < i < 11 { assert r[i] == lr[i - 2] && t[i] == lt[i - 2]; }
      else if 11 < i { assert r[i] == lr[i - 3] && t[i] == lt[i - 3]; }
    }
  }

  lemma ExampleIsLayout()
    ensures IsCpfLayout("123.456.789-01")
  {
  }

  lemma ExampleLayoutDigits()
    ensures LayoutDigits("123.456.789-01") == "12345678901"
  {
  }

  lemma UnformatCpfExample()
    ensures UnformatCpf("123.456.789-01") == "12345678901"
  {
    ExampleIsLayout();
    ExampleLayoutDigits();
    StripLayout("123.456.789-01");
  }

  lemma ExamplePunctuate()
    ensures AllDigits("12345678901")
    ensures Punctuate("12345678901") == "123.456.789-01"
  {
    var r, d := "123.456.789-01", "12345678901";
    ExampleIsLayout();
    ExampleLayoutDigits();
    StripLayout(r);
    PunctuateLayout(d);
    LayoutUnique(Punctuate(d), r);
  }

  lemma FormatCpfExample()
    ensures FormatCpf("12345678901") == "123.456.789-01"
  {
    ExamplePunctuate();
    StripAllDigits("12345678901");
  }

  /** A string already in display layout is left as it is. */
  lemma FormatCpfOfLayout(r: string)
    requires IsCpfLayout(r)
    ensures FormatCpf(r) == r
  {
    StripLayout(r);
    StripLayout(FormatCpf(r));
    LayoutUnique(FormatCpf(r), r);
  }

  lemma FormatCpfFormattedExample()
    ensures FormatCpf("123.456.789-01") == "123.456.789-01"
  {
    ExampleIsLayout();
    FormatCpfOfLayout("123.456.789-01");
  }

  lemma FormatCpfShortExample()
    ensures FormatCpf("123456789") == "123456789"
  {
    assert AllDigits("123456789");
    StripAllDigits("123456789");
  }

  /** `validateCPF`: only the number of digits is checked, no check digits. */
  function ValidateCpf(s: string): (b: bool)
    ensures b ==> |s| >= 11
  {
    |UnformatCpf(s)| == 11
  }

  /** A CPF is valid exactly when formatting puts it in display layout. */
  lemma ValidateCpfIffFormats(s: string)
    ensures ValidateCpf(s) <==> IsCpfLayout(FormatCpf(s))
  {
    if IsCpfLayout(FormatCpf(s)) && |StripNonDigits(s)| != 11 {
      StripLayout(s);
    }
  }

  /** Punctuation has no bearing on validity. */
  lemma ValidateCpfIgnoresPunctuation(s: string)
    ensures ValidateCpf(FormatCpf(s)) == ValidateCpf(s)
    ensures ValidateCpf(UnformatCpf(s)) == ValidateCpf(s)
  {
    StripIdempotent(s);
  }

  // ---------------------------------------------------------------------
  // Currency strings

  /** `unformatCurrency`: the digits of the input, in input order; applying it
      again changes nothing. */
  function UnformatCurrency(s: string): (r: string)
    ensures AllDigits(r)
    ensures forall c :: IsDigit(c) ==> multiset(r)[c] == multiset(s)[c]
    ensures Seqs.IsSubsequence(r, s)
    ensures StripNonDigits(r) == r
  {
    StripKeepsDigits(s);
    Seqs.FilterIsSubsequence(s, IsDigit);
    StripIdempotent(s);
    StripNonDigits(s)
  }

  function DigitValue(c: char): nat
    requires IsDigit(c)
  {
    c as int - '0' as int
  }

  /** The number a string of decimal digits denotes (leading zeros allowed). */
  function DigitsValue(d: string): nat
    requires AllDigits(d)
  {
    if d == [] then 0
    else DigitsValue(d[..|d| - 1]) * 10 + DigitValue(d[|d| - 1])
  }

  predicate HasNonZeroDigit(s: string)
  {
    exists c :: c in s && '1' <= c <= '9'
  }

  /** A digit string denotes a positive number exactly when some digit is not 0. */
  lemma {:induction false} DigitsValuePositive(d: string)
    requires AllDigits(d)
    ensures DigitsValue(d) > 0 <==> HasNonZeroDigit(d)
  {
    if d != [] {
      var init, last := d[..|d| - 1], d[|d| - 1];
      assert d == init + [last];
      DigitsValuePositive(init);
      if DigitsValue(init) > 0 {
        var c :| c in init && '1' <= c <= '9';
        assert c in d;
      }
      if DigitValue(last) > 0 {
        assert last in d;
      }
      if HasNonZeroDigit(d) {
        var c :| c in d && '1' <= c <= '9';
        if c != last { assert c in init; }
      }
    }
  }

  /** `parseCurrency`: the digits read as a number of cents; no digits read as 0.
      The result is never negative and is always a whole number of cents. */
  function ParseCurrency(s: string): (r: real)
    ensures r >= 0.0
    ensures StripNonDigits(s) == [] ==> r == 0.0
    ensures (r * 100.0).Floor as real == r * 100.0
  {
    var cleaned := UnformatCurrency(s);
    if cleaned == [] then 0.0
    else DigitsValue(cleaned) as real / 100.0
  }

  /** Only the digits of the input matter to the parse. */
  lemma ParseCurrencyIgnoresNonDigits(s: string)
    ensures ParseCurrency(s) == ParseCurrency(UnformatCurrency(s))
  {
  }

  /** The parse is positive exactly when the input holds a digit other than 0. */
  lemma ParseCurrencyPositive(s: string)
    ensures ParseCurrency(s) > 0.0 <==> HasNonZeroDigit(s)
  {
    var d := StripNonDigits(s);
    DigitsValuePositive(d);
    forall c | '1' <= c <= '9' ensures c in d <==> c in s {
      Seqs.FilterMembership(s, IsDigit, c);
    }
    if HasNonZeroDigit(s) {
      var c :| c in s && '1' <= c <= '9';
      assert c in d;
    }
    if HasNonZeroDigit(d) {
      var c :| c in d && '1' <= c <= '9';
      assert c in s;
    }
  }

  function DigitChar(k: nat): (c: char)
    requires k < 10
    ensures IsDigit(c) && DigitValue(c) == k
  {
    ('0' as int + k) as char
  }

  /** The decimal numeral of `n`, without leading zeros. */
  function Numeral(n: nat): (r: string)
    ensures |r| > 0 && AllDigits(r)
  {
    if n < 10 then [DigitChar(n)] else Numeral(n / 10) + [DigitChar(n % 10)]
  }

  lemma {:induction false} NumeralValue(n: nat)
    ensures DigitsValue(Numeral(n)) == n
  {
    var r := Numeral(n);
    if n >= 10 {
      NumeralValue(n / 10);
      assert r[..|r| - 1] == Numeral(n / 10);
    } else {
      assert r[..|r| - 1] == [];
    }
  }

  /** A count of cents written out in digits parses back to that many cents. */
  lemma ParseCurrencyOfCents(n: nat)
    ensures ParseCurrency(Numeral(n)) == n as real / 100.0
  {
    NumeralValue(n);
    StripAllDigits(Numeral(n));
  }

  predicate NoDigits(s: string)
  {
    forall i :: 0 <= i < |s| ==> !IsDigit(s[i])
  }

  /** Stripping text that alternates non-digits and digits joins the digit runs. */
  lemma StripAlternating(a: string, b: string, c: string, d: string, e: string, f: string)
    requires NoDigits(a) && NoDigits(c) && NoDigits(e)
    requires AllDigits(b) && AllDigits(d) && AllDigits(f)
    ensures StripNonDigits(a + b + c + d + e + f) == b + d + f
  {
    Seqs.FilterNonePass(a, IsDigit);
    Seqs.FilterNonePass(c, IsDigit);
    Seqs.FilterNonePass(e, IsDigit);
    StripAppend(a, b);
    StripAppend(a + b, c);
    StripAppend(a + b + c, d);
    StripAppend(a + b + c + d, e);
    StripAppend(a + b + c + d + e, f);
    StripAllDigits(b);
    StripAllDigits(d);
    StripAllDigits(f);
  }

  lemma EmptyCurrencyExample()
    ensures ParseCurrency("") == 0.0
  {
  }

  lemma StripCurrencyExample()
    ensures StripNonDigits("R$ 1.000,00") == "100000"
  {
    var a, b, c, d, e, f := "R$ ", "1", ".", "000", ",", "00";
    StripAlternating(a, b, c, d, e, f);
    assert "R$ 1.000,00" == a + b + c + d + e + f;
    assert "100000" == b + d + f;
  }

  /** The digits of "1234" read from the left: 1, 12, 123, 1234. */
  lemma DigitsValueExample()
    ensures AllDigits("1234") && DigitsValue("1234") == 1234
  {
    assert "1234"[..3] == "123" && "123"[..2] == "12" && "12"[..1] == "1" && "1"[..0] == "";
    assert DigitsValue("1") == 1;
    assert DigitsValue("12") == 12;
    assert DigitsValue("123") == 123;
  }

  lemma ParseCurrencyExample()
    ensures ParseCurrency("1234") == 12.34
  {
    DigitsValueExample();
    StripAllDigits("1234");
  }
}
