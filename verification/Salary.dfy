/** Printing structured salaries with grouped thousands, and reading them back in the pay filter. */
module Salary {
  import opened Options
  import opened Seqs
  import opened Text

  // ---- Decimal numbers ----

  predicate IsDigit(c: char) {
    '0' <= c <= '9'
  }

  /** `strconv.Itoa` of a natural number. */
  function Itoa(n: nat): (s: string)
    ensures |s| > 0 && forall i :: 0 <= i < |s| ==> IsDigit(s[i])
  {
    if n < 10 then [('0' as int + n) as char] else Itoa(n / 10) + [('0' as int + n % 10) as char]
  }

  /** `Sscanf("%d")` of a run of digits. */
  function Atoi(s: string): nat
    requires forall i :: 0 <= i < |s| ==> IsDigit(s[i])
  {
    if s == "" then 0
    else
      assert IsDigit(s[|s| - 1]);
      Atoi(s[..|s| - 1]) * 10 + (s[|s| - 1] as int - '0' as int)
  }

  lemma {:induction false} AtoiItoa(n: nat)
    ensures Atoi(Itoa(n)) == n
  {
    if n >= 10 {
      AtoiItoa(n / 10);
      assert Itoa(n)[..|Itoa(n)| - 1] == Itoa(n / 10);
    } else {
      assert Itoa(n)[..0] == "";
    }
  }

  lemma {:induction false} ItoaShape(n: nat)
    requires n > 0
    ensures Itoa(n)[0] != '0'
  {
    if n >= 10 {
      ItoaShape(n / 10);
    }
  }

  lemma FiveOrSixDigits(n: nat)
    requires 10000 <= n <= 999999
    ensures 5 <= |Itoa(n)| <= 6
  {
    assert |Itoa(n / 10000)| == if n / 10000 < 10 then 1 else 2;
    assert Itoa(n / 1000) == Itoa(n / 1000 / 10) + [('0' as int + n / 1000 % 10) as char];
    assert Itoa(n / 100) == Itoa(n / 100 / 10) + [('0' as int + n / 100 % 10) as char];
    assert Itoa(n / 10) == Itoa(n / 10 / 10) + [('0' as int + n / 10 % 10) as char];
    assert n / 10 / 10 == n / 100 && n / 100 / 10 == n / 1000 && n / 1000 / 10 == n / 10000;
  }

  // ---- Grouping ----

  function RemoveCommas(s: string): string {
    if s == "" then ""
    else if s[0] == ',' then RemoveCommas(s[1..])
    else [s[0]] + RemoveCommas(s[1..])
  }

  /** The groups of three from position `j` on, each after a comma. */
  function CommaTail(value: string, j: nat): string
    decreases |value| - j
  {
    if j >= |value| then ""
    else "," + value[j..if j + 3 <= |value| then j + 3 else |value|] + CommaTail(value, j + 3)
  }

  /** Digits grouped by threes from the right. */
  function Grouped(value: string): string
    requires value != ""
  {
    var head := (|value| - 1) % 3 + 1;
    value[..head] + CommaTail(value, head)
  }

  lemma {:induction false} RemoveCommasConcat(a: string, b: string)
    ensures RemoveCommas(a + b) == RemoveCommas(a) + RemoveCommas(b)
  {
    if a == "" {
      assert a + b == b;
    } else {
      RemoveCommasConcat(a[1..], b);
      assert (a + b)[0] == a[0] && (a + b)[1..] == a[1..] + b;
      if a[0] != ',' {
        Associative([a[0]], RemoveCommas(a[1..]), RemoveCommas(b));
      }
    }
  }

  lemma {:induction false} NoCommasToRemove(s: string)
    requires forall i :: 0 <= i < |s| ==> s[i] != ','
    ensures RemoveCommas(s) == s
  {
    if s != "" {
      NoCommasToRemove(s[1..]);
    }
  }

  lemma {:induction false} TailKeepsDigits(value: string, j: nat)
    requires j <= |value| && (|value| - j) % 3 == 0
    requires forall i :: 0 <= i < |value| ==> IsDigit(value[i])
    ensures RemoveCommas(CommaTail(value, j)) == value[j..]
    decreases |value| - j
  {
    if j < |value| {
      TailKeepsDigits(value, j + 3);
      NoCommasToRemove(value[j..j + 3]);
      RemoveCommasConcat(",", value[j..j + 3]);
      RemoveCommasConcat("," + value[j..j + 3], CommaTail(value, j + 3));
      assert value[j..] == value[j..j + 3] + value[j + 3..];
      assert ","[1..] == "";
    }
  }

  /** Deleting the commas of a formatted amount gives back its decimal digits. */
  lemma GroupingRoundTrip(value: string)
    requires value != "" && forall i :: 0 <= i < |value| ==> IsDigit(value[i])
    ensures RemoveCommas(Grouped(value)) == value
  {
    var head := (|value| - 1) % 3 + 1;
    TailKeepsDigits(value, head);
    NoCommasToRemove(value[..head]);
    RemoveCommasConcat(value[..head], CommaTail(value, head));
    assert value == value[..head] + value[head..];
  }

  /** The loop of formatSalaryAmount: commas go in from the right, at every third position. */
  method GroupThousands(digits: string) returns (value: string)
    requires digits != ""
    ensures value == Grouped(digits)
  {
    value := digits;
    var i := |digits| - 3;
    while i > 0
      invariant -3 < i <= |digits| - 3 && (|digits| - 3 - i) % 3 == 0
      invariant value == digits[..i + 3] + CommaTail(digits, i + 3)
      decreases i
    {
      ghost var rest := CommaTail(digits, i + 3);
      assert digits[..i + 3] == digits[..i] + digits[i..i + 3];
      assert value == digits[..i] + (digits[i..i + 3] + rest);
      value := value[..i] + "," + value[i..];
      assert value == digits[..i] + ("," + digits[i..i + 3] + rest);
      i := i - 3;
    }
    assert i + 3 == (|digits| - 1) % 3 + 1;
  }

  /** `math.Round` of a non-negative amount. */
  function Round(amount: real): int {
    (amount + 0.5).Floor
  }

  function FormatAmount(amount: real, currency: string): string
    requires amount >= 0.0
  {
    (if currency == "USD" then "$" else "") + Grouped(Itoa(Round(amount)))
  }

  function SalaryUnit(unitText: string): string {
    var unit := Upper(Trim(unitText));
    if unit in {"YEAR", "YEARLY", "ANNUAL", "ANNUALLY"} then "/year"
    else if unit in {"HOUR", "HOURLY"} then "/hour"
    else ""
  }

  /** `structuredJobPostingCompensation`, from the fields it has read; an absent number is None. */
  function Compensation(currencyText: string, low: Option<real>, high: Option<real>, exact: Option<real>,
      unitText: string): string {
    var named := Upper(Trim(currencyText));
    var currency := if named == "" then "USD" else named;
    if low.Some? && high.Some? && low.value > 0.0 && high.value > 0.0 then
      FormatAmount(low.value, currency) + " - " + FormatAmount(high.value, currency) + " " + currency
        + SalaryUnit(unitText)
    else if exact.Some? && exact.value > 0.0 then
      FormatAmount(exact.value, currency) + " " + currency + SalaryUnit(unitText)
    else ""
  }

  // ---- The pay filter ----

  /** The characters of the regular expressions' `\w`. */
  predicate IsWordChar(c: char) {
    IsDigit(c) || 'a' <= c <= 'z' || 'A' <= c <= 'Z' || c == '_'
  }

  function WordLength(s: string): (n: nat)
    ensures n <= |s| && forall i :: 0 <= i < n ==> IsWordChar(s[i])
    ensures n < |s| ==> !IsWordChar(s[n])
  {
    if s == "" || !IsWordChar(s[0]) then 0 else 1 + WordLength(s[1..])
  }

  /** The maximal words. A pattern of word characters between two `\b` matches exactly whole words. */
  function Words(s: string): seq<string>
    decreases |s|
  {
    if s == "" then []
    else if !IsWordChar(s[0]) then Words(s[1..])
    else [s[..WordLength(s)]] + Words(s[WordLength(s)..])
  }

  /** `\b[1-9]\d{4,5}\b` on a whole word. */
  predicate IsFullNumber(word: string) {
    5 <= |word| <= 6 && word[0] != '0' && forall i :: 0 <= i < |word| ==> IsDigit(word[i])
  }

  /** `\b([1-9]\d{1,2})[kK]\b` on a whole word. */
  predicate IsKNumber(word: string) {
    && 3 <= |word| <= 4 && word[0] != '0'
    && (word[|word| - 1] == 'k' || word[|word| - 1] == 'K')
    && forall i :: 0 <= i < |word| - 1 ==> IsDigit(word[i])
  }

  /** The salary a word stands for, if any. */
  function SalaryOf(word: string): Option<nat> {
    if IsFullNumber(word) then Some(Atoi(word))
    else if IsKNumber(word) then Some(Atoi(word[..|word| - 1]) * 1000)
    else None
  }

  /** What the filter is for: keep a job unless its text names salaries and all are below the minimum. */
  ghost predicate PayAccepts(text: string, minBase: int) {
    var words := Words(RemoveCommas(text));
    || minBase <= 0
    || (exists i :: 0 <= i < |words| && SalaryOf(words[i]).Some? && SalaryOf(words[i]).value >= minBase)
    || (forall i :: 0 <= i < |words| ==> SalaryOf(words[i]).None?)
  }

  /** One of the two scans: whether a pattern matches some word, and whether some match reaches the minimum. */
  method ScanFullNumbers(words: seq<string>, minBase: int) returns (found: bool, reached: bool)
    ensures found <==> exists i :: 0 <= i < |words| && IsFullNumber(words[i])
    ensures reached <==> exists i :: 0 <= i < |words| && IsFullNumber(words[i]) && Atoi(words[i]) >= minBase
  {
    found, reached := false, false;
    for i := 0 to |words|
      invariant found <==> exists j :: 0 <= j < i && IsFullNumber(words[j])
      invariant !reached && forall j :: 0 <= j < i && IsFullNumber(words[j]) ==> Atoi(words[j]) < minBase
    {
      if IsFullNumber(words[i]) {
        found := true;
        if Atoi(words[i]) >= minBase {
          return true, true;
        }
      }
    }
  }

  method ScanKNumbers(words: seq<string>, minBase: int) returns (found: bool, reached: bool)
    ensures found <==> exists i :: 0 <= i < |words| && IsKNumber(words[i])
    ensures reached <==>
          exists i :: 0 <= i < |words| && IsKNumber(words[i]) && Atoi(words[i][..|words[i]| - 1]) * 1000 >= minBase
  {
    found, reached := false, false;
    for i := 0 to |words|
      invariant found <==> exists j :: 0 <= j < i && IsKNumber(words[j])
      invariant !reached
      invariant forall j :: 0 <= j < i && IsKNumber(words[j]) ==> Atoi(words[j][..|words[j]| - 1]) * 1000 < minBase
    {
      if IsKNumber(words[i]) {
        found := true;
        if Atoi(words[i][..|words[i]| - 1]) * 1000 >= minBase {
          return true, true;
        }
      }
    }
  }

  lemma SalaryOfScanned(words: seq<string>, i: nat)
    requires i < |words|
    ensures IsFullNumber(words[i]) ==> SalaryOf(words[i]) == Some(Atoi(words[i]))
    ensures IsKNumber(words[i]) ==> SalaryOf(words[i]) == Some(Atoi(words[i][..|words[i]| - 1]) * 1000)
    ensures SalaryOf(words[i]).Some? <==> IsFullNumber(words[i]) || IsKNumber(words[i])
  {
    if IsKNumber(words[i]) {
      KIsNotFull(words[i]);
    }
  }

  method ExtractAndCheckSalary(text: string, minBase: int) returns (ok: bool)
    ensures ok <==> PayAccepts(text, minBase)
  {
    if minBase <= 0 {
      return true;
    }
    var words := Words(RemoveCommas(text));
    forall i | 0 <= i < |words|
      ensures IsFullNumber(words[i]) ==> SalaryOf(words[i]) == Some(Atoi(words[i]))
      ensures IsKNumber(words[i]) ==> SalaryOf(words[i]) == Some(Atoi(words[i][..|words[i]| - 1]) * 1000)
      ensures SalaryOf(words[i]).Some? <==> IsFullNumber(words[i]) || IsKNumber(words[i])
    {
      SalaryOfScanned(words, i);
    }
    var foundFull, reached := ScanFullNumbers(words, minBase);
    if reached {
      return true;
    }
    var foundK, reachedK := ScanKNumbers(words, minBase);
    return reachedK || (!foundFull && !foundK);
  }

  lemma KIsNotFull(word: string)
    requires IsKNumber(word)
    ensures !IsFullNumber(word)
  {
  }

  // ---- Reading back what was printed ----

  lemma {:induction false} WordsSplit(a: string, c: char, b: string)
    requires !IsWordChar(c)
    ensures Words(a + [c] + b) == Words(a) + Words(b)
    decreases |a|
  {
    var s := a + [c] + b;
    if a == "" {
      assert s[1..] == b;
    } else if !IsWordChar(a[0]) {
      WordsSplit(a[1..], c, b);
      assert s[1..] == a[1..] + [c] + b;
    } else {
      var n := WordLength(a);
      WordLengthOfPrefix(a, [c] + b);
      assert s == a + ([c] + b);
      WordsSplit(a[n..], c, b);
      assert s[n..] == a[n..] + [c] + b && s[..n] == a[..n];
    }
  }

  lemma {:induction false} WordLengthOfPrefix(a: string, rest: string)
    requires rest != "" && !IsWordChar(rest[0])
    ensures WordLength(a + rest) == WordLength(a)
  {
    if a != "" && IsWordChar(a[0]) {
      WordLengthOfPrefix(a[1..], rest);
      assert (a + rest)[1..] == a[1..] + rest;
    } else if a == "" {
      assert a + rest == rest;
    }
  }

  lemma {:induction false} OneWord(w: string)
    requires w != "" && forall i :: 0 <= i < |w| ==> IsWordChar(w[i])
    ensures Words(w) == [w]
  {
    assert WordLength(w) == |w|;
    assert w[..|w|] == w && w[|w|..] == "";
  }

  /** An amount as `FormatAmount` prints it in dollars, and the same without its commas. */
  function Printed(n: nat): string {
    "$" + Grouped(Itoa(n))
  }

  function Dollars(n: nat): string {
    "$" + Itoa(n)
  }

  lemma DollarsIsAWord(n: nat)
    ensures Words(Dollars(n)) == [Itoa(n)]
  {
    assert Dollars(n)[1..] == Itoa(n);
    OneWord(Itoa(n));
  }

  lemma PrintedWithoutCommas(n: nat)
    ensures RemoveCommas(Printed(n)) == Dollars(n)
  {
    RemoveCommasConcat("$", Grouped(Itoa(n)));
    GroupingRoundTrip(Itoa(n));
    NoCommasToRemove("$");
  }

  function Trail(unit: string): string {
    "USD" + unit
  }

  lemma TrailWords(unit: string)
    requires unit in {"", "/year", "/hour"}
    ensures forall i :: 0 <= i < |Words(Trail(unit))| ==> SalaryOf(Words(Trail(unit))[i]).None?
  {
    if unit == "" {
      assert Trail(unit) == "USD";
      OneWord("USD");
    } else {
      assert unit == ['/'] + unit[1..];
      TwoPlainWords("USD", unit[1..]);
      assert Trail(unit) == "USD" + ['/'] + unit[1..];
    }
  }

  /** A word that starts with a letter is no salary. */
  lemma {:induction false} TwoPlainWords(a: string, b: string)
    requires a != "" && b != "" && !IsDigit(a[0]) && !IsDigit(b[0])
    requires (forall i :: 0 <= i < |a| ==> IsWordChar(a[i])) && (forall i :: 0 <= i < |b| ==> IsWordChar(b[i]))
    ensures Words(a + ['/'] + b) == [a, b] && SalaryOf(a).None? && SalaryOf(b).None?
  {
    WordsSplit(a, '/', b);
    OneWord(a);
    OneWord(b);
  }

  lemma SalaryOfPrinted(n: nat)
    requires 10000 <= n <= 999999
    ensures SalaryOf(Itoa(n)) == Some(n)
  {
    FiveOrSixDigits(n);
    ItoaShape(n);
    AtoiItoa(n);
  }

  /** Two strings with " - " between them and a space and a third after them. */
  function RangeText(a: string, b: string, trail: string): string {
    a + (" - " + (b + (" " + trail)))
  }

  lemma RangeWithoutCommas(a: string, b: string, trail: string)
    requires forall i :: 0 <= i < |trail| ==> trail[i] != ','
    ensures RemoveCommas(RangeText(a, b, trail)) == RangeText(RemoveCommas(a), RemoveCommas(b), trail)
  {
    RemoveCommasConcat(a, " - " + (b + (" " + trail)));
    RemoveCommasConcat(" - ", b + (" " + trail));
    RemoveCommasConcat(b, " " + trail);
    NoCommasToRemove(" - ");
    NoCommasToRemove(" " + trail);
  }

  lemma LeadingBreak(c: char, s: string)
    requires !IsWordChar(c)
    ensures Words([c] + s) == Words(s)
  {
    assert ([c] + s)[1..] == s;
  }

  lemma RangeWords(a: string, b: string, trail: string)
    ensures Words(RangeText(a, b, trail)) == Words(a) + (Words(b) + Words(trail))
  {
    var second := b + [' '] + trail;
    WordsSplit(b, ' ', trail);
    LeadingBreak(' ', second);
    LeadingBreak('-', [' '] + second);
    WordsSplit(a, ' ', ['-'] + ([' '] + second));
    RangeShape(a, b, trail);
  }

  lemma RangeShape(a: string, b: string, trail: string)
    ensures RangeText(a, b, trail) == a + [' '] + (['-'] + ([' '] + (b + [' '] + trail)))
  {
  }

  lemma CompensationText(currencyText: string, low: real, high: real, exact: Option<real>, unitText: string)
    requires low > 0.0 && high > 0.0
    requires Upper(Trim(currencyText)) in {"", "USD"}
    ensures Compensation(currencyText, Some(low), Some(high), exact, unitText)
         == RangeText(Printed(Round(low)), Printed(Round(high)), Trail(SalaryUnit(unitText)))
  {
    var unit, a, b := SalaryUnit(unitText), Printed(Round(low)), Printed(Round(high));
    assert FormatAmount(low, "USD") == a && FormatAmount(high, "USD") == b;
    assert a + " - " + b + " " + "USD" + unit == RangeText(a, b, Trail(unit));
  }

  /**
    For a USD posting whose rounded bounds have 5 or 6 digits, the pay filter accepts the printed range
    exactly when no minimum is set or the larger bound reaches it.
  */
  lemma PrintedRangePassesIff(currencyText: string, low: real, high: real, exact: Option<real>, unitText: string,
      minBase: int)
    requires low > 0.0 && high > 0.0
    requires 10000 <= Round(low) <= 999999 && 10000 <= Round(high) <= 999999
    requires Upper(Trim(currencyText)) in {"", "USD"}
    ensures PayAccepts(Compensation(currencyText, Some(low), Some(high), exact, unitText), minBase)
            <==> minBase <= 0 || Round(low) >= minBase || Round(high) >= minBase
  {
    CompensationText(currencyText, low, high, exact, unitText);
    RangePasses(Round(low), Round(high), SalaryUnit(unitText), minBase);
  }

  lemma RangePasses(low: nat, high: nat, unit: string, minBase: int)
    requires 10000 <= low <= 999999 && 10000 <= high <= 999999
    requires unit in {"", "/year", "/hour"}
    ensures PayAccepts(RangeText(Printed(low), Printed(high), Trail(unit)), minBase)
            <==> minBase <= 0 || low >= minBase || high >= minBase
  {
    RangeWithoutCommas(Printed(low), Printed(high), Trail(unit));
    PrintedWithoutCommas(low);
    PrintedWithoutCommas(high);
    RangeWords(Dollars(low), Dollars(high), Trail(unit));
    DollarsIsAWord(low);
    DollarsIsAWord(high);
    SalaryOfPrinted(low);
    SalaryOfPrinted(high);
    TrailWords(unit);
    TwoSalariesDecide(Words(RemoveCommas(RangeText(Printed(low), Printed(high), Trail(unit)))), Itoa(low), Itoa(high),
        Words(Trail(unit)), minBase);
  }

  lemma TwoSalariesDecide(words: seq<string>, a: string, b: string, rest: seq<string>, minBase: int)
    requires words == [a] + ([b] + rest)
    requires SalaryOf(a).Some? && SalaryOf(b).Some?
    requires forall i :: 0 <= i < |rest| ==> SalaryOf(rest[i]).None?
    ensures (exists i :: 0 <= i < |words| && SalaryOf(words[i]).Some?)
    ensures (exists i :: 0 <= i < |words| && SalaryOf(words[i]).Some? && SalaryOf(words[i]).value >= minBase)
            <==> SalaryOf(a).value >= minBase || SalaryOf(b).value >= minBase
  {
    assert words[0] == a && words[1] == b;
    forall i | 2 <= i < |words| ensures SalaryOf(words[i]).None? {
      assert words[i] == rest[i - 2];
    }
  }
}
