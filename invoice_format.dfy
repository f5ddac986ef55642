/**
 * The pure string work of invoice numbering: `formatDateToDDMMYYYY`,
 * `getWarrantySuffix` and the assembly
 * `${companyName}/${today}/${paddedCounter}/${warrantySuffix}`, together
 * with a parser that inverts the assembly and so shows that a number
 * determines the company, date, counter and suffix it was built from.
 */
module InvoiceFormat {
  import opened Wrappers
  import opened JsStrings

  /**
   * `formatDateToDDMMYYYY`: the day of the month and the month number
   * (`getMonth() + 1`, so `monthIndex` is zero-based) each padded to two
   * digits, then the full year unpadded.
   */
  function FormatDateToDDMMYYYY(day: nat, monthIndex: nat, year: int): (date: string)
    ensures '/' !in date
  {
    var d := PadStart(NatToString(day), 2, '0');
    var m := PadStart(NatToString(monthIndex + 1), 2, '0');
    var y := IntToString(year);
    PaddedNumeralValue(day, 2);
    PaddedNumeralValue(monthIndex + 1, 2);
    NumeralsHaveNoSlash(d, m, y);
    d + m + y
  }

  lemma NumeralsHaveNoSlash(d: string, m: string, y: string)
    requires AllDigits(d) && AllDigits(m)
    requires forall k :: 0 <= k < |y| ==> IsDigit(y[k]) || y[k] == '-'
    ensures '/' !in d + m + y
  {
    var s := d + m + y;
    assert forall k :: 0 <= k < |s| ==> s[k] != '/' by {
      forall k | 0 <= k < |s| ensures s[k] != '/' {
        if k < |d| { assert s[k] == d[k]; }
        else if k < |d| + |m| { assert s[k] == m[k - |d|]; }
        else { assert s[k] == y[k - |d| - |m|]; }
      }
    }
  }

  /**
   * For a calendar date with a four-digit year the result is eight digits:
   * two for the day, two for the month number, four for the year.
   */
  lemma DateLayout(day: nat, monthIndex: nat, year: int)
    requires 1 <= day <= 31 && monthIndex <= 11 && 1000 <= year <= 9999
    ensures var s := FormatDateToDDMMYYYY(day, monthIndex, year);
      |s| == 8 && AllDigits(s)
      && DigitsValue(s[..2]) == day
      && DigitsValue(s[2..4]) == monthIndex + 1
      && DigitsValue(s[4..]) == year
  {
    var d := PadStart(NatToString(day), 2, '0');
    var m := PadStart(NatToString(monthIndex + 1), 2, '0');
    var y := NatToString(year);
    assert |d| == 2 && AllDigits(d) && DigitsValue(d) == day by { TwoDigitField(day); }
    assert |m| == 2 && AllDigits(m) && DigitsValue(m) == monthIndex + 1 by { TwoDigitField(monthIndex + 1); }
    assert |y| == 4 && AllDigits(y) && DigitsValue(y) == year by { FourDigitYear(year); }
    assert FormatDateToDDMMYYYY(day, monthIndex, year) == d + m + y;
    FieldLayout(d, m, y);
  }

  lemma FieldLayout(d: string, m: string, y: string)
    requires |d| == 2 && |m| == 2 && |y| == 4
    requires AllDigits(d) && AllDigits(m) && AllDigits(y)
    ensures var s := d + m + y;
      |s| == 8 && AllDigits(s) && s[..2] == d && s[2..4] == m && s[4..] == y
  {
    var s := d + m + y;
    assert AllDigits(s) by {
      AllDigitsConcat(d, m);
      AllDigitsConcat(d + m, y);
    }
    assert s[..2] == d && s[2..4] == m && s[4..] == y;
  }

  lemma TwoDigitField(n: nat)
    requires n < 100
    ensures var f := PadStart(NatToString(n), 2, '0');
      |f| == 2 && AllDigits(f) && DigitsValue(f) == n
  {
    assert Pow10(2) == 100;
    PaddedNumeralValue(n, 2);
  }

  lemma FourDigitYear(year: nat)
    requires 1000 <= year <= 9999
    ensures |NatToString(year)| == 4 && DigitsValue(NatToString(year)) == year
  {
    assert Pow10(3) == 1000 && Pow10(4) == 10000;
    NatToStringValue(year);
    NatToStringLength(year, 4);
    NatToStringLength(year, 3);
  }

  lemma AllDigitsConcat(a: string, b: string)
    requires AllDigits(a) && AllDigits(b)
    ensures AllDigits(a + b)
  {
    forall k | 0 <= k < |a + b| ensures IsDigit((a + b)[k]) {
      if k < |a| { assert (a + b)[k] == a[k]; } else { assert (a + b)[k] == b[k - |a|]; }
    }
  }

  /** `getWarrantySuffix`: "bw" for exactly the status "Before", "aw" for every other string. */
  function WarrantySuffix(warrantyStatus: string): (suffix: string)
    ensures suffix == "bw" <==> warrantyStatus == "Before"
    ensures suffix == "aw" <==> warrantyStatus != "Before"
  {
    if warrantyStatus == "Before" then "bw" else "aw"
  }

  /** The values of the invoice schema's warrantyStatus enum. */
  predicate IsWarrantyStatus(s: string)
  {
    s == "Before" || s == "After"
  }

  /**
   * `counter.toString().padStart(3, '0')`: at least three digits, longer
   * counters kept whole, and the digits still denote the counter.
   */
  function PadCounter(counter: nat): (r: string)
    ensures |r| == if counter < 1000 then 3 else |NatToString(counter)|
    ensures 1 <= |r| && AllDigits(r) && DigitsValue(r) == counter
  {
    PaddedCounterLength(counter);
    PaddedNumeralValue(counter, 3);
    PadStart(NatToString(counter), 3, '0')
  }

  lemma PaddedCounterLength(counter: nat)
    ensures |PadStart(NatToString(counter), 3, '0')| == if counter < 1000 then 3 else |NatToString(counter)|
  {
    assert Pow10(3) == 1000;
    NatToStringLength(counter, 3);
  }

  /** The invoice number `${companyName}/${today}/${paddedCounter}/${warrantySuffix}`. */
  function InvoiceNumber(companyName: string, date: string, counter: nat, warrantyStatus: string): string
  {
    companyName + "/" + date + "/" + PadCounter(counter) + "/" + WarrantySuffix(warrantyStatus)
  }

  /** What an invoice number is read back as. */
  datatype NumberParts = NumberParts(companyName: string, date: string, counter: nat, suffix: string)

  /** Splits `s` at its last '/' into what comes before and what comes after. */
  function SplitAtLastSlash(s: string): (r: Option<(string, string)>)
    ensures r.Some? ==> r.value.0 + "/" + r.value.1 == s && '/' !in r.value.1
    ensures r.None? ==> '/' !in s
    decreases |s|
  {
    if s == [] then None
    else if s[|s| - 1] == '/' then Some((s[..|s| - 1], ""))
    else
      match SplitAtLastSlash(s[..|s| - 1])
      case None =>
        assert s == s[..|s| - 1] + [s[|s| - 1]];
        None
      case Some(parts) =>
        assert s == s[..|s| - 1] + [s[|s| - 1]];
        Some((parts.0, parts.1 + [s[|s| - 1]]))
  }

  lemma {:induction false} SplitAtLastSlashOf(a: string, b: string)
    requires '/' !in b
    ensures SplitAtLastSlash(a + "/" + b) == Some((a, b))
    decreases |b|
  {
    var s := a + "/" + b;
    if b != [] {
      assert s[..|s| - 1] == a + "/" + b[..|b| - 1];
      SplitAtLastSlashOf(a, b[..|b| - 1]);
      assert b[..|b| - 1] + [b[|b| - 1]] == b;
    } else {
      assert s[..|s| - 1] == a;
    }
  }

  /**
   * Reads an invoice number from the right: suffix after the last '/',
   * counter digits before it, date before those; the company is the rest,
   * so it may itself contain '/'.
   */
  function ParseInvoiceNumber(s: string): Option<NumberParts>
  {
    match SplitAtLastSlash(s)
    case None => None
    case Some(p1) =>
      match SplitAtLastSlash(p1.0)
      case None => None
      case Some(p2) =>
        match SplitAtLastSlash(p2.0)
        case None => None
        case Some(p3) =>
          if p2.1 != [] && AllDigits(p2.1)
          then Some(NumberParts(p3.0, p3.1, DigitsValue(p2.1), p1.1))
          else None
  }

  /** Parsing inverts the assembly of an invoice number whenever the date has no '/'. */
  lemma InvoiceNumberRoundTrip(companyName: string, date: string, counter: nat, warrantyStatus: string)
    requires '/' !in date
    ensures ParseInvoiceNumber(InvoiceNumber(companyName, date, counter, warrantyStatus))
         == Some(NumberParts(companyName, date, counter, WarrantySuffix(warrantyStatus)))
  {
    NumberFieldsHaveNoSlash(counter, warrantyStatus);
    ParseAssembled(companyName, date, PadCounter(counter), WarrantySuffix(warrantyStatus));
  }

  lemma NumberFieldsHaveNoSlash(counter: nat, warrantyStatus: string)
    ensures '/' !in PadCounter(counter) && '/' !in WarrantySuffix(warrantyStatus)
  {
    PaddedCounterHasNoSlash(counter);
    SuffixHasNoSlash(warrantyStatus);
  }

  lemma PaddedCounterHasNoSlash(counter: nat)
    ensures '/' !in PadCounter(counter)
  {
    var padded := PadCounter(counter);
    assert forall i :: 0 <= i < |padded| ==> IsDigit(padded[i]);
  }

  lemma SuffixHasNoSlash(warrantyStatus: string)
    ensures '/' !in WarrantySuffix(warrantyStatus)
  {
    assert WarrantySuffix(warrantyStatus) == "bw" || WarrantySuffix(warrantyStatus) == "aw";
  }

  /** The parser reads back the four fields of `company/date/digits/suffix`. */
  lemma ParseAssembled(companyName: string, date: string, digits: string, suffix: string)
    requires '/' !in date && '/' !in digits && '/' !in suffix
    requires digits != [] && AllDigits(digits)
    ensures ParseInvoiceNumber(companyName + "/" + date + "/" + digits + "/" + suffix)
         == Some(NumberParts(companyName, date, DigitsValue(digits), suffix))
  {
    var head := companyName + "/" + date;
    var body := head + "/" + digits;
    assert SplitAtLastSlash(body + "/" + suffix) == Some((body, suffix)) by {
      SplitAtLastSlashOf(body, suffix);
    }
    assert SplitAtLastSlash(body) == Some((head, digits)) by {
      SplitAtLastSlashOf(head, digits);
    }
    assert SplitAtLastSlash(head) == Some((companyName, date)) by {
      SplitAtLastSlashOf(companyName, date);
    }
  }

  /**
   * Two invoice numbers built from slash-free dates are equal only if they
   * agree on company, date, counter and suffix.
   */
  lemma InvoiceNumberInjective(c1: string, d1: string, n1: nat, s1: string,
                               c2: string, d2: string, n2: nat, s2: string)
    requires '/' !in d1 && '/' !in d2
    requires InvoiceNumber(c1, d1, n1, s1) == InvoiceNumber(c2, d2, n2, s2)
    ensures c1 == c2 && d1 == d2 && n1 == n2 && WarrantySuffix(s1) == WarrantySuffix(s2)
  {
    InvoiceNumberRoundTrip(c1, d1, n1, s1);
    InvoiceNumberRoundTrip(c2, d2, n2, s2);
  }

  lemma NumeralExamples()
    ensures NatToString(1) == "1" && NatToString(2) == "2" && NatToString(5) == "5"
    ensures NatToString(2024) == "2024" && NatToString(1000) == "1000"
  {
    assert NatToString(20) == "20";
    assert NatToString(202) == "202";
    assert NatToString(10) == "10";
    assert NatToString(100) == "100";
  }

  /** 1st May 2024 is written "01052024". */
  lemma DateExample()
    ensures FormatDateToDDMMYYYY(1, 4, 2024) == "01052024"
  {
    NumeralExamples();
    assert PadStart("1", 2, '0') == "01" by { assert Repeat('0', 1) == "0"; }
    assert PadStart("5", 2, '0') == "05" by { assert Repeat('0', 1) == "0"; }
  }

  /** Counters below 1000 get leading zeros; longer counters are kept whole. */
  lemma PadCounterExamples()
    ensures PadCounter(1) == "001" && PadCounter(2) == "002" && PadCounter(1000) == "1000"
  {
    NumeralExamples();
    assert Repeat('0', 2) == "00";
    assert PadCounter(1) == "001" by { assert PadStart("1", 3, '0') == "001"; }
    assert PadCounter(2) == "002" by { assert PadStart("2", 3, '0') == "002"; }
  }

  /** The first "Before" number of 1st May 2024. */
  lemma FirstBeforeNumberExample()
    ensures InvoiceNumber("Acme", "01052024", 1, "Before") == "Acme/01052024/001/bw"
  {
    PadCounterExamples();
  }

  /** The second "Before" number of the same day. */
  lemma SecondBeforeNumberExample()
    ensures InvoiceNumber("Acme", "01052024", 2, "Before") == "Acme/01052024/002/bw"
  {
    PadCounterExamples();
  }

  /** The first "After" number of the same day. */
  lemma FirstAfterNumberExample()
    ensures InvoiceNumber("Acme", "01052024", 1, "After") == "Acme/01052024/001/aw"
  {
    PadCounterExamples();
  }
}
