/** The pay filter and the printed salaries in numbers: what "180k" and "180000" say, and how an amount is written. */
module SalaryLaws {
  import opened Options
  import opened Text
  import opened Salary

  // ---- What the filter reads ----

  /** A text of one word passes when it names no salary or a sufficient one. */
  lemma {:induction false} OneWordPasses(word: string, minBase: int)
    requires word != "" && forall i :: 0 <= i < |word| ==> IsWordChar(word[i])
    ensures PayAccepts(word, minBase) <==>
      minBase <= 0 || SalaryOf(word).None? || SalaryOf(word).value >= minBase
  {
    NoCommasToRemove(word);
    OneWord(word);
    assert Words(word)[0] == word;
  }

  lemma {:induction false} Digits(n: nat)
    ensures |Itoa(n)| == if n < 10 then 1 else 1 + |Itoa(n / 10)|
  {
  }

  lemma {:induction false} DigitCount(n: nat)
    ensures |Itoa(n)| <= 1 <==> n < 10
    ensures |Itoa(n)| <= 3 <==> n < 1000
    ensures |Itoa(n)| <= 4 <==> n < 10000
    ensures |Itoa(n)| <= 6 <==> n < 1000000
  {
    Digits(n);
    Digits(n / 10);
    Digits(n / 10 / 10);
    Digits(n / 10 / 10 / 10);
    Digits(n / 10 / 10 / 10 / 10);
    Digits(n / 10 / 10 / 10 / 10 / 10);
    assert n / 10 / 10 / 10 / 10 / 10 < 10 <==> n < 1000000;
  }

  /** A plain number is a salary exactly with five or six digits, and then passes when it reaches the minimum. */
  lemma {:induction false} PlainNumberPasses(n: nat, minBase: int)
    requires n > 0
    ensures PayAccepts(Itoa(n), minBase) <==> minBase <= 0 || n < 10000 || n >= 1000000 || n >= minBase
  {
    DigitCount(n);
    ItoaShape(n);
    AtoiItoa(n);
    OneWordPasses(Itoa(n), minBase);
    assert IsDigit(Itoa(n)[|Itoa(n)| - 1]);
  }

  lemma KWordShape(digits: string, k: char, word: string)
    requires digits != "" && digits[0] != '0' && (forall i :: 0 <= i < |digits| ==> IsDigit(digits[i]))
    requires (k == 'k' || k == 'K') && word == digits + [k]
    ensures word[..|word| - 1] == digits && !IsFullNumber(word) && (IsKNumber(word) <==> 2 <= |digits| <= 3)
    ensures forall i :: 0 <= i < |word| ==> IsWordChar(word[i])
  {
    assert word[|word| - 1] == k && !IsDigit(k);
    assert forall i :: 0 <= i < |digits| ==> word[i] == digits[i];
  }

  lemma KWord(digits: string, k: char, word: string)
    requires digits != "" && digits[0] != '0' && (forall i :: 0 <= i < |digits| ==> IsDigit(digits[i]))
    requires (k == 'k' || k == 'K') && word == digits + [k]
    ensures SalaryOf(word) == if 2 <= |digits| <= 3 then Some(Atoi(digits) * 1000) else None
    ensures forall i :: 0 <= i < |word| ==> IsWordChar(word[i])
  {
    KWordShape(digits, k, word);
  }

  /** A number of two or three digits followed by `k`, in either case, stands for as many thousands. */
  lemma {:induction false} ThousandsPass(n: nat, k: char, minBase: int)
    requires n > 0 && (k == 'k' || k == 'K')
    ensures PayAccepts(Itoa(n) + [k], minBase) <==> minBase <= 0 || n < 10 || n >= 1000 || n * 1000 >= minBase
  {
    DigitCount(n);
    ItoaShape(n);
    AtoiItoa(n);
    KWord(Itoa(n), k, Itoa(n) + [k]);
    OneWordPasses(Itoa(n) + [k], minBase);
  }

  /** Words that state no number leave the job in. */
  lemma {:induction false} NoNumberPasses(text: string, minBase: int)
    requires forall i :: 0 <= i < |text| ==> !IsDigit(text[i])
    ensures PayAccepts(text, minBase)
  {
    NoCommaDigits(text);
    forall i | 0 <= i < |Words(RemoveCommas(text))| ensures SalaryOf(Words(RemoveCommas(text))[i]).None? {
      WordsArePart(RemoveCommas(text), i);
    }
  }

  lemma {:induction false} NoCommaDigits(text: string)
    requires forall i :: 0 <= i < |text| ==> !IsDigit(text[i])
    ensures forall i :: 0 <= i < |RemoveCommas(text)| ==> !IsDigit(RemoveCommas(text)[i])
  {
    if text != "" {
      NoCommaDigits(text[1..]);
    }
  }

  lemma {:induction false} WordsArePart(s: string, i: nat)
    requires i < |Words(s)| && forall j :: 0 <= j < |s| ==> !IsDigit(s[j])
    ensures Words(s)[i] != "" && forall j :: 0 <= j < |Words(s)[i]| ==> !IsDigit(Words(s)[i][j])
    decreases |s|
  {
    if !IsWordChar(s[0]) {
      WordsArePart(s[1..], i);
    } else if i > 0 {
      WordsArePart(s[WordLength(s)..], i - 1);
    }
  }

  // ---- How an amount is written ----

  lemma RoundIsNearest(amount: real)
    ensures amount - 0.5 < Round(amount) as real <= amount + 0.5
  {
  }

  lemma FoldedUpper(a: string, b: string)
    requires EqualFold(a, b)
    ensures Upper(a) == Upper(b)
  {
    assert |Lower(a)| == |Lower(b)|;
    forall i | 0 <= i < |a| ensures UpperChar(a[i]) == UpperChar(b[i]) {
      assert Lower(a)[i] == Lower(b)[i];
    }
  }

  /** A unit named year, yearly, annual or annually prints as `/year`, hour and hourly as `/hour`, others not at all. */
  lemma {:induction false} UnitNames(unitText: string)
    ensures var unit := Trim(unitText);
      SalaryUnit(unitText) ==
        if EqualFold(unit, "year") || EqualFold(unit, "yearly") then "/year"
        else if EqualFold(unit, "annual") || EqualFold(unit, "annually") then "/year"
        else if EqualFold(unit, "hour") || EqualFold(unit, "hourly") then "/hour"
        else ""
  {
    YearNames(Trim(unitText));
    HourNames(Trim(unitText));
  }

  lemma YearNames(unit: string)
    ensures Upper(unit) in {"YEAR", "YEARLY", "ANNUAL", "ANNUALLY"} <==>
      EqualFold(unit, "year") || EqualFold(unit, "yearly") || EqualFold(unit, "annual") || EqualFold(unit, "annually")
  {
    NamesInUpper(unit, "year", "YEAR");
    NamesInUpper(unit, "yearly", "YEARLY");
    NamesInUpper(unit, "annual", "ANNUAL");
    NamesInUpper(unit, "annually", "ANNUALLY");
  }

  lemma HourNames(unit: string)
    ensures Upper(unit) in {"HOUR", "HOURLY"} <==> EqualFold(unit, "hour") || EqualFold(unit, "hourly")
  {
    NamesInUpper(unit, "hour", "HOUR");
    NamesInUpper(unit, "hourly", "HOURLY");
  }

  lemma NamesInUpper(unit: string, name: string, upper: string)
    requires Upper(name) == upper && Lower(upper) == name && Lower(name) == name
    ensures EqualFold(unit, name) <==> Upper(unit) == upper
  {
    if EqualFold(unit, name) {
      FoldedUpper(unit, name);
    }
    if Upper(unit) == upper {
      assert |Upper(unit)| == |upper|;
      forall i | 0 <= i < |unit| ensures Lower(unit)[i] == Lower(upper)[i] {
        assert Upper(unit)[i] == upper[i];
      }
      assert Lower(unit) == Lower(upper);
    }
  }

  lemma {:induction false} AmountWords(n: nat, unit: string)
    requires unit in {"", "/year", "/hour"}
    ensures Words(RemoveCommas(Printed(n) + (" " + Trail(unit)))) == [Itoa(n)] + Words(Trail(unit))
  {
    PrintedWithoutCommas(n);
    RemoveCommasConcat(Printed(n), " " + Trail(unit));
    NoCommasToRemove(" " + Trail(unit));
    assert Dollars(n) + (" " + Trail(unit)) == Dollars(n) + [' '] + Trail(unit);
    WordsSplit(Dollars(n), ' ', Trail(unit));
    DollarsIsAWord(n);
  }

  lemma {:induction false} OneSalaryDecides(words: seq<string>, first: string, rest: seq<string>, minBase: int)
    requires words == [first] + rest && SalaryOf(first).Some?
    requires forall i :: 0 <= i < |rest| ==> SalaryOf(rest[i]).None?
    ensures (exists i :: 0 <= i < |words| && SalaryOf(words[i]).Some?)
    ensures (exists i :: 0 <= i < |words| && SalaryOf(words[i]).Some? && SalaryOf(words[i]).value >= minBase)
            <==> SalaryOf(first).value >= minBase
  {
    assert words[0] == first;
    forall i | 1 <= i < |words| ensures SalaryOf(words[i]).None? {
      assert words[i] == rest[i - 1];
    }
  }

  lemma {:induction false} AmountPasses(n: nat, unit: string, minBase: int)
    requires 10000 <= n <= 999999 && unit in {"", "/year", "/hour"}
    ensures PayAccepts(Printed(n) + (" " + Trail(unit)), minBase) <==> minBase <= 0 || n >= minBase
  {
    AmountWords(n, unit);
    SalaryOfPrinted(n);
    TrailWords(unit);
    OneSalaryDecides([Itoa(n)] + Words(Trail(unit)), Itoa(n), Words(Trail(unit)), minBase);
  }

  /** An exact amount in dollars, of five or six digits, passes exactly when it reaches the minimum. */
  lemma {:induction false} ExactAmountPassesIff(currencyText: string, exact: real, unitText: string, minBase: int)
    requires exact > 0.0 && 10000 <= Round(exact) <= 999999 && Upper(Trim(currencyText)) in {"", "USD"}
    ensures PayAccepts(Compensation(currencyText, None, None, Some(exact), unitText), minBase)
            <==> minBase <= 0 || Round(exact) >= minBase
  {
    var n, unit := Round(exact), SalaryUnit(unitText);
    assert FormatAmount(exact, "USD") == Printed(n);
    ExactText(n, unit);
    AmountPasses(n, unit, minBase);
  }

  lemma ExactText(n: nat, unit: string)
    ensures Printed(n) + " " + "USD" + unit == Printed(n) + (" " + Trail(unit))
  {
  }

  /** A range needs two positive bounds; else a positive exact amount is printed, and else nothing. */
  lemma {:induction false} WhatIsPrinted(currencyText: string, low: Option<real>, high: Option<real>,
      exact: Option<real>, unitText: string)
    requires low.None? || high.None? || low.value <= 0.0 || high.value <= 0.0
    ensures Compensation(currencyText, low, high, exact, unitText)
         == Compensation(currencyText, None, None, exact, unitText)
    ensures exact.None? || exact.value <= 0.0 ==> Compensation(currencyText, low, high, exact, unitText) == ""
  {
  }

  /** A range in another currency names it, in upper case, without a sign. */
  lemma {:induction false} OtherCurrency(currencyText: string, low: real, high: real, exact: Option<real>,
      unitText: string)
    requires low > 0.0 && high > 0.0 && Upper(Trim(currencyText)) !in {"", "USD"}
    ensures var a, b := Grouped(Itoa(Round(low))), Grouped(Itoa(Round(high)));
      Compensation(currencyText, Some(low), Some(high), exact, unitText)
        == a + " - " + b + " " + Upper(Trim(currencyText)) + SalaryUnit(unitText)
  {
    NoSign(low, Upper(Trim(currencyText)));
    NoSign(high, Upper(Trim(currencyText)));
  }

  lemma NoSign(amount: real, currency: string)
    requires amount >= 0.0 && currency != "USD"
    ensures FormatAmount(amount, currency) == Grouped(Itoa(Round(amount)))
  {
  }

  /** Commas stand before every third digit from the right, and nowhere else. */
  lemma {:induction false} CommasEveryThird(value: string, p: nat)
    requires value != "" && (forall i :: 0 <= i < |value| ==> IsDigit(value[i])) && p < |Grouped(value)|
    ensures Grouped(value)[|Grouped(value)| - 1 - p] == ',' <==> p % 4 == 3
  {
    var head := (|value| - 1) % 3 + 1;
    TailCommas(value, head, p);
    TailLength(value, head);
    FromTheEnd(value[..head], CommaTail(value, head), p);
  }

  lemma FromTheEnd(a: string, b: string, p: nat)
    requires p < |a + b|
    ensures (a + b)[|a + b| - 1 - p] == if p < |b| then b[|b| - 1 - p] else a[|a| - 1 - (p - |b|)]
  {
  }

  lemma {:induction false} TailLength(value: string, j: nat)
    requires j <= |value| && (|value| - j) % 3 == 0
    ensures |CommaTail(value, j)| % 4 == 0
    decreases |value| - j
  {
    if j < |value| {
      TailLength(value, j + 3);
    }
  }

  lemma {:induction false} TailCommas(value: string, j: nat, p: nat)
    requires j <= |value| && (|value| - j) % 3 == 0 && forall i :: 0 <= i < |value| ==> IsDigit(value[i])
    ensures p < |CommaTail(value, j)| ==> (CommaTail(value, j)[|CommaTail(value, j)| - 1 - p] == ',' <==> p % 4 == 3)
    decreases |value| - j
  {
    if j < |value| {
      TailCommas(value, j + 3, p);
      TailLength(value, j + 3);
    }
  }
}
