/** Tender fee, earnest money deposit and the thousands-separator currency
    format of the RFP form (components/rfp-form.tsx). Amounts are unbounded
    integers: the JavaScript `number` is idealised as an exact integer. */
module Currency {
  import opened Strings

  predicate IsDigit(c: char) {
    '0' <= c <= '9'
  }

  predicate AllDigits(s: string) {
    forall k :: 0 <= k < |s| ==> IsDigit(s[k])
  }

  function DigitChar(d: nat): (c: char)
    requires d < 10
    ensures IsDigit(c)
  {
    ('0' as int + d) as char
  }

  function DigitValue(c: char): (d: nat)
    requires IsDigit(c)
    ensures d < 10 && DigitChar(d) == c
  {
    c as int - '0' as int
  }

  /** `n.toString()` for a non-negative integer: its decimal digits, most
      significant first, with no leading zero. */
  function Digits(n: nat): (s: string)
    ensures |s| >= 1 && AllDigits(s)
    ensures s[0] == '0' ==> n == 0
    ensures n < 10 <==> |s| == 1
  {
    if n < 10 then [DigitChar(n)] else Digits(n / 10) + [DigitChar(n % 10)]
  }

  /** An amount has at most three digits exactly when it is below 1000. */
  lemma DigitsShort(n: nat)
    ensures n < 1000 <==> |Digits(n)| <= 3
  {
    if n >= 10 {
      assert |Digits(n)| == |Digits(n / 10)| + 1;
      if n / 10 >= 10 {
        assert |Digits(n / 10)| == |Digits(n / 100)| + 1;
      }
    }
  }

  /** The number a string of decimal digits denotes (leading zeros allowed). */
  function Value(s: string): nat
    requires AllDigits(s)
  {
    if s == [] then 0 else Value(s[..|s| - 1]) * 10 + DigitValue(s[|s| - 1])
  }

  /** Reading the decimal digits of `n` gives back `n`. */
  lemma {:induction false} ValueOfDigits(n: nat)
    ensures Value(Digits(n)) == n
  {
    if n >= 10 {
      var s := Digits(n);
      assert s[..|s| - 1] == Digits(n / 10);
      ValueOfDigits(n / 10);
    }
  }

  /** `toString` of any integer, with a minus sign for a negative one. */
  function IntToString(i: int): string {
    if i < 0 then "-" + Digits(-i) else Digits(i)
  }

  // ---------------------------------------------------------------------------
  // Tender fee and EMD (components/rfp-form.tsx:28-48)

  /** `calculateDefaultTenderFee`: the four-band fee table. */
  function TenderFee(estimatedAmount: int): (fee: int)
    ensures fee in {1500, 2500, 5000, 15000}
  {
    if estimatedAmount <= 2500000 then 1500
    else if estimatedAmount <= 5000000 then 2500
    else if estimatedAmount <= 10000000 then 5000
    else 15000
  }

  /** A larger estimate never lowers the fee. */
  lemma TenderFeeMonotone(a: int, b: int)
    requires a <= b
    ensures TenderFee(a) <= TenderFee(b)
  {
  }

  /** The band boundaries: each upper bound still belongs to its band and the
      next amount is already in the next one. */
  lemma TenderFeeBoundaries()
    ensures TenderFee(2500000) == 1500 && TenderFee(2500001) == 2500
    ensures TenderFee(5000000) == 2500 && TenderFee(5000001) == 5000
    ensures TenderFee(10000000) == 5000 && TenderFee(10000001) == 15000
  {
  }

  /** `calculateDefaultEMD`: `Math.round(amount * 0.03)` computed exactly, that
      is 3% of the amount rounded to the nearest integer, halves upwards. */
  function Emd(estimatedAmount: int): (emd: int)
    ensures 3 * estimatedAmount - 50 < 100 * emd <= 3 * estimatedAmount + 50
    ensures estimatedAmount >= 0 ==> emd >= 0
  {
    (3 * estimatedAmount + 50) / 100
  }

  lemma EmdExample()
    ensures Emd(5000000) == 150000
  {
  }

  // ---------------------------------------------------------------------------
  // Currency format and parse (components/rfp-form.tsx:51-58)

  /** Inserts a comma before every position that is followed by a positive
      multiple of three digits, except at the very start: the effect of
      `replace(/\B(?=(\d{3})+(?!\d))/g, ",")` on a string of digits. */
  function GroupThousands(s: string): string {
    if |s| <= 3 then s else GroupThousands(s[..|s| - 3]) + "," + s[|s| - 3..]
  }

  /** `formatCurrency` on a non-negative amount. */
  function FormatCurrency(amount: nat): string {
    GroupThousands(Digits(amount))
  }

  /** `value.replace(/,/g, "")`. */
  function RemoveCommas(s: string): (r: string)
    ensures ',' !in r
    ensures |r| <= |s|
  {
    if s == [] then []
    else (if s[0] == ',' then [] else [s[0]]) + RemoveCommas(s[1..])
  }

  lemma {:induction false} RemoveCommasConcat(a: string, b: string)
    ensures RemoveCommas(a + b) == RemoveCommas(a) + RemoveCommas(b)
  {
    if a != [] {
      assert (a + b)[0] == a[0];
      assert (a + b)[1..] == a[1..] + b;
      RemoveCommasConcat(a[1..], b);
    } else {
      assert a + b == b;
    }
  }

  lemma {:induction false} RemoveCommasWithout(s: string)
    requires ',' !in s
    ensures RemoveCommas(s) == s
  {
    if s != [] {
      assert ',' !in s[1..];
      RemoveCommasWithout(s[1..]);
    }
  }

  /** The leading run of decimal digits of `s`. */
  function LeadingDigits(s: string): (r: string)
    ensures |r| <= |s| && AllDigits(r) && r == s[..|r|]
    ensures |r| < |s| ==> !IsDigit(s[|r|])
  {
    if s != [] && IsDigit(s[0]) then [s[0]] + LeadingDigits(s[1..]) else []
  }

  /** `Number.parseInt(s, 10)`: skips leading white space, reads an optional
      sign and then the longest run of digits; `None` stands for `NaN`, the
      result when no digit follows. */
  function ParseInt(s: string): Option<int> {
    var t := TrimStart(s);
    var negative := |t| > 0 && t[0] == '-';
    var body := if |t| > 0 && (t[0] == '-' || t[0] == '+') then t[1..] else t;
    var ds := LeadingDigits(body);
    if ds == [] then None
    else if negative then Some(-(Value(ds) as int))
    else Some(Value(ds))
  }

  /** A string of digits and commas only. */
  predicate DigitsAndCommas(s: string) {
    forall k :: 0 <= k < |s| ==> IsDigit(s[k]) || s[k] == ','
  }

  /** `parseCurrency`: `parseInt` after removing every comma, with `NaN` (and
      zero) replaced by 0. */
  function ParseCurrency(value: string): int {
    match ParseInt(RemoveCommas(value))
    case None => 0
    case Some(v) => v
  }

  /** On a string of digits and commas `parseCurrency` is the value of its
      digits, so an empty or comma-only string gives 0. */
  lemma ParseCurrencyOfDigits(value: string)
    requires DigitsAndCommas(value)
    ensures AllDigits(RemoveCommas(value)) && ParseCurrency(value) == Value(RemoveCommas(value))
  {
    DigitsAndCommasParse(value);
  }

  lemma {:induction false} RemoveCommasKeepsDigits(s: string)
    requires DigitsAndCommas(s)
    ensures AllDigits(RemoveCommas(s))
  {
    if s != [] {
      assert DigitsAndCommas(s[1..]);
      RemoveCommasKeepsDigits(s[1..]);
    }
  }

  lemma {:induction false} LeadingDigitsOfDigits(s: string)
    requires AllDigits(s)
    ensures LeadingDigits(s) == s
  {
    if s != [] {
      assert AllDigits(s[1..]);
      LeadingDigitsOfDigits(s[1..]);
    }
  }

  lemma DigitsAndCommasParse(value: string)
    requires DigitsAndCommas(value)
    ensures AllDigits(RemoveCommas(value))
    ensures ParseInt(RemoveCommas(value)) ==
              if RemoveCommas(value) == [] then None else Some(Value(RemoveCommas(value)))
  {
    RemoveCommasKeepsDigits(value);
    var t := RemoveCommas(value);
    assert t == [] || !IsWhitespace(t[0]);
    assert TrimStart(t) == t;
    LeadingDigitsOfDigits(t);
  }

  /** A comma followed by a comma-free group contributes just that group. */
  lemma RemoveCommasJoinGroup(g: string, tail: string)
    requires ',' !in tail
    ensures RemoveCommas(g + "," + tail) == RemoveCommas(g) + tail
  {
    var c := RemoveCommas(g);
    RemoveCommasConcat(g + ",", tail);
    RemoveCommasConcat(g, ",");
    assert ","[1..] == [];
    assert RemoveCommas(",") == [];
    RemoveCommasWithout(tail);
    assert RemoveCommas(g + ",") == c;
  }

  /** Removing the commas from a grouped digit string gives back the digits. */
  lemma {:induction false} RemoveCommasGroup(s: string)
    requires ',' !in s
    ensures RemoveCommas(GroupThousands(s)) == s
  {
    if |s| > 3 {
      var head, tail := s[..|s| - 3], s[|s| - 3..];
      assert ',' !in head && ',' !in tail;
      RemoveCommasGroup(head);
      RemoveCommasJoinGroup(GroupThousands(head), tail);
      assert head + tail == s;
    } else {
      RemoveCommasWithout(s);
    }
  }

  /** `formatCurrency(n)` with its commas removed is `n.toString()`. */
  lemma FormatDigits(n: nat)
    ensures RemoveCommas(FormatCurrency(n)) == Digits(n)
  {
    assert forall k :: 0 <= k < |Digits(n)| ==> Digits(n)[k] != ',';
    RemoveCommasGroup(Digits(n));
  }

  /** Grouping a non-empty run of `|s|` digits: the comma-separated pieces are a
      leading group of one to three characters followed by groups of exactly
      three, and `GroupThousands(s)` has a comma exactly when `|s| > 3`. */
  lemma {:induction false} GroupShape(s: string)
    requires |s| >= 1 && ',' !in s
    ensures var parts := Split(GroupThousands(s), ',');
            1 <= |parts[0]| <= 3 && forall k :: 1 <= k < |parts| ==> |parts[k]| == 3
    ensures ',' in GroupThousands(s) <==> |s| > 3
  {
    if |s| <= 3 {
      SplitWithoutSeparator(s, ',');
    } else {
      var head, tail := s[..|s| - 3], s[|s| - 3..];
      assert ',' !in head && ',' !in tail;
      GroupShape(head);
      SplitAround(GroupThousands(head), tail, ',');
      SplitWithoutSeparator(tail, ',');
      assert GroupThousands(s) == GroupThousands(head) + [','] + tail;
    }
  }

  /** The separator layout of `formatCurrency(n)`: groups of exactly three
      digits from the right after a leading group of one to three, and a comma
      only from 1000 on. */
  lemma FormatGroups(n: nat)
    ensures var parts := Split(FormatCurrency(n), ',');
            1 <= |parts[0]| <= 3 && forall k :: 1 <= k < |parts| ==> |parts[k]| == 3
    ensures ',' in FormatCurrency(n) <==> n >= 1000
  {
    assert forall k :: 0 <= k < |Digits(n)| ==> Digits(n)[k] != ',';
    GroupShape(Digits(n));
  }

  /** Round trip: parsing a formatted amount gives the amount back. */
  lemma ParseFormat(n: nat)
    ensures ParseCurrency(FormatCurrency(n)) == n
  {
    FormatDigits(n);
    FormatIsDigitsAndCommas(n);
    ParseCurrencyOfDigits(FormatCurrency(n));
    ValueOfDigits(n);
  }

  lemma {:induction false} GroupKeepsDigitsAndCommas(s: string)
    requires DigitsAndCommas(s)
    ensures DigitsAndCommas(GroupThousands(s))
  {
    if |s| > 3 {
      assert DigitsAndCommas(s[..|s| - 3]);
      GroupKeepsDigitsAndCommas(s[..|s| - 3]);
    }
  }

  lemma {:induction false} GroupNonEmpty(s: string)
    requires s != []
    ensures GroupThousands(s) != []
  {
  }

  lemma FormatIsDigitsAndCommas(n: nat)
    ensures DigitsAndCommas(FormatCurrency(n)) && FormatCurrency(n) != []
  {
    GroupKeepsDigitsAndCommas(Digits(n));
    GroupNonEmpty(Digits(n));
  }

  lemma ParseCurrencyEmpty()
    ensures ParseCurrency("") == 0
  {
  }

  /** A string of commas alone parses as 0. */
  lemma ParseCurrencyCommasOnly(s: string)
    requires forall k :: 0 <= k < |s| ==> s[k] == ','
    ensures ParseCurrency(s) == 0
  {
    assert DigitsAndCommas(s);
    CommasOnlyRemoved(s);
    ParseCurrencyOfDigits(s);
  }

  lemma {:induction false} CommasOnlyRemoved(s: string)
    requires forall k :: 0 <= k < |s| ==> s[k] == ','
    ensures RemoveCommas(s) == []
  {
    if s != [] { CommasOnlyRemoved(s[1..]); }
  }

  // ---------------------------------------------------------------------------
  // Currency input normalisation (components/rfp-form.tsx:168-176)

  /** `value.replace(/[^\d,]/g, "")`: keeps the digits and commas, in order. */
  function KeepDigitsAndCommas(s: string): (r: string)
    ensures DigitsAndCommas(r)
    ensures r == [] <==> forall k :: 0 <= k < |s| ==> !IsDigit(s[k]) && s[k] != ','
  {
    if s == [] then []
    else
      var rest := KeepDigitsAndCommas(s[1..]);
      assert forall k :: 1 <= k < |s| ==> s[k] == s[1..][k - 1];
      (if IsDigit(s[0]) || s[0] == ',' then [s[0]] else []) + rest
  }

  /** A string of digits and commas passes the filter unchanged. */
  lemma {:induction false} KeepDigitsAndCommasIdentity(s: string)
    requires DigitsAndCommas(s)
    ensures KeepDigitsAndCommas(s) == s
  {
    if s != [] {
      assert DigitsAndCommas(s[1..]);
      KeepDigitsAndCommasIdentity(s[1..]);
    }
  }

  /** The value `handleCurrencyChange` stores for a typed value: the digits and
      commas of the input, re-formatted, or "" when none are left. */
  function CurrencyInput(value: string): string {
    var numeric := KeepDigitsAndCommas(value);
    if numeric == "" then ""
    else
      ParseCurrencyOfDigits(numeric);
      FormatCurrency(ParseCurrency(numeric))
  }

  /** The normalised value is empty exactly when the input has no digit and
      no comma; a lone comma normalises to "0". */
  lemma CurrencyInputEmpty(value: string)
    ensures CurrencyInput(value) == "" <==> forall k :: 0 <= k < |value| ==> !IsDigit(value[k]) && value[k] != ','
    ensures CurrencyInput(",") == "0"
  {
    var numeric := KeepDigitsAndCommas(value);
    if numeric != "" {
      ParseCurrencyOfDigits(numeric);
      FormatIsDigitsAndCommas(ParseCurrency(numeric));
    }
  }

  /** A non-empty normalised value is the canonical format of the value of the
      input's digits. */
  lemma CurrencyInputValue(value: string)
    requires CurrencyInput(value) != ""
    ensures DigitsAndCommas(KeepDigitsAndCommas(value)) && AllDigits(RemoveCommas(KeepDigitsAndCommas(value)))
    ensures CurrencyInput(value) == FormatCurrency(Value(RemoveCommas(KeepDigitsAndCommas(value))))
  {
    ParseCurrencyOfDigits(KeepDigitsAndCommas(value));
  }

  /** Normalising twice is the same as normalising once. */
  lemma CurrencyInputIdempotent(value: string)
    ensures CurrencyInput(CurrencyInput(value)) == CurrencyInput(value)
  {
    var numeric := KeepDigitsAndCommas(value);
    if numeric != "" {
      ParseCurrencyOfDigits(numeric);
      var n := ParseCurrency(numeric);
      FormatIsDigitsAndCommas(n);
      KeepDigitsAndCommasIdentity(FormatCurrency(n));
      ParseFormat(n);
    }
  }
}
