/** `parse_due_date_str`: the due-date specifier grammar `<min>[-<max>][!]`
    (the anchored pattern `^\d+(-\d+)?!?$`), the numbers' `u32` range and
    the normalisation that puts the smaller number first. */
module DueDate {
  import opened Wrappers
  import opened Errors
  import opened Decimal
  import opened IntWidths

  /** A parsed specifier: reschedule between `min` and `max` days from today,
      resetting the interval when `forceReset` is set. */
  datatype DueDateSpecifier = DueDateSpecifier(min: nat, max: nat, forceReset: bool)

  /** The three capture groups of the pattern: `min`, the optional `max` and
      whether the trailing `!` (`bang`) was present. */
  datatype Captures = Captures(min: string, max: Option<string>, bang: bool)

  /** Each number group is a non-empty run of digits. */
  predicate WellFormed(c: Captures) {
    && |c.min| > 0 && IsDigits(c.min)
    && (c.max.Some? ==> |c.max.value| > 0 && IsDigits(c.max.value))
  }

  /** The text that a set of captures spells out. */
  function Spelling(c: Captures): string {
    c.min
    + (match c.max case Some(m) => "-" + m case None => "")
    + (if c.bang then "!" else "")
  }

  /** Position of the first `-` in `s`, or `|s|` when there is none. */
  function HyphenAt(s: string): (k: nat)
    ensures k <= |s|
    ensures forall i | 0 <= i < k :: s[i] != '-'
    ensures k < |s| ==> s[k] == '-'
  {
    if s == [] then 0 else if s[0] == '-' then 0 else 1 + HyphenAt(s[1..])
  }

  /** The text before the optional `!`, and whether the `!` was there. */
  function StripBang(s: string): (r: (string, bool))
    ensures s == r.0 + (if r.1 then "!" else "")
  {
    if |s| > 0 && s[|s| - 1] == '!' then (s[..|s| - 1], true) else (s, false)
  }

  /** The number groups of the text before the `!`: one run of digits, or
      two separated by a `-`. */
  function SplitNumbers(body: string): (r: Option<(string, Option<string>)>)
    ensures r.Some? ==> WellFormed(Captures(r.value.0, r.value.1, false))
    ensures r.Some? ==> Spelling(Captures(r.value.0, r.value.1, false)) == body
  {
    var k := HyphenAt(body);
    if k == |body| then
      if |body| > 0 && IsDigits(body) then Some((body, None)) else None
    else
      var first, second := body[..k], body[k + 1..];
      if |first| > 0 && IsDigits(first) && |second| > 0 && IsDigits(second)
      then
        assert body == first + "-" + second;
        Some((first, Some(second)))
      else None
  }

  /** Matching the anchored pattern against `s`. */
  function Capture(s: string): (r: Option<Captures>)
    ensures r.Some? ==> WellFormed(r.value) && Spelling(r.value) == s
  {
    var (body, bang) := StripBang(s);
    match SplitNumbers(body)
    case None => None
    case Some((min, max)) => Some(Captures(min, max, bang))
  }

  /** The pattern matches every spelling of well-formed captures, and gives
      back exactly those captures. */
  lemma CaptureComplete(c: Captures)
    requires WellFormed(c)
    ensures Capture(Spelling(c)) == Some(c)
  {
    var body := Spelling(c.(bang := false));
    StripBangComplete(body, c.bang);
    assert Spelling(c) == body + (if c.bang then "!" else "");
    SplitNumbersComplete(c.min, c.max);
  }

  /** Text ending in a digit keeps its optional `!` apart. */
  lemma StripBangComplete(body: string, bang: bool)
    requires |body| > 0 && IsDigit(body[|body| - 1])
    ensures StripBang(body + (if bang then "!" else "")) == (body, bang)
  {
    if bang {
      assert (body + "!")[..|body|] == body;
    } else {
      assert body + "" == body;
    }
  }

  /** The number groups are read back from their spelling, which ends in a digit. */
  lemma SplitNumbersComplete(min: string, max: Option<string>)
    requires WellFormed(Captures(min, max, false))
    ensures var body := Spelling(Captures(min, max, false));
      |body| > 0 && IsDigit(body[|body| - 1]) && SplitNumbers(body) == Some((min, max))
  {
    var rest := match max case Some(m) => "-" + m case None => "";
    var body := min + rest;
    assert Spelling(Captures(min, max, false)) == body;
    HyphenAfterDigits(min, rest);
    match max
    case None =>
      assert body == min;
    case Some(m) =>
      assert body[..|min|] == min;
      assert body[|min| + 1..] == m;
      assert body[|body| - 1] == m[|m| - 1];
  }

  /** The first `-` of a run of digits followed by `rest` is the one that starts `rest`. */
  lemma HyphenAfterDigits(digits: string, rest: string)
    requires IsDigits(digits)
    requires rest == [] || rest[0] == '-'
    ensures HyphenAt(digits + rest) == |digits|
  {
    if digits != [] {
      assert (digits + rest)[1..] == digits[1..] + rest;
      HyphenAfterDigits(digits[1..], rest);
    }
  }

  /** `str::parse::<u32>` of a digit run: its value, or a number-parse
      error when it does not fit. */
  function ParseU32(digits: string): (r: Result<nat, AnkiError>)
    requires IsDigits(digits)
    ensures r.Success? ==> r.value <= U32_MAX && r.value == Value(digits)
    ensures r.Failure? <==> Value(digits) > U32_MAX
  {
    if Value(digits) <= U32_MAX then Success(Value(digits)) else Failure(ParseNumError)
  }

  function ParseDueDateStr(s: string): (r: Result<DueDateSpecifier, AnkiError>)
    ensures r.Success? ==> r.value.min <= r.value.max <= U32_MAX
    ensures r.Success? ==> (r.value.forceReset <==> |s| > 0 && s[|s| - 1] == '!')
    ensures Capture(s).None? ==> r == Failure(InvalidInput(InvalidInputError(s, None, None)))
  {
    match Capture(s)
    case None => Failure(InvalidInput(InvalidInputError(s, None, None)))
    case Some(caps) =>
      var min :- ParseU32(caps.min);
      var max :- if caps.max.Some? then ParseU32(caps.max.value) else Success(min);
      Success(DueDateSpecifier(
        if min <= max then min else max,
        if max >= min then max else min,
        caps.bang))
  }

  /** The value of a number group, and of the optional second one defaulting to the first. */
  function MinValue(c: Captures): nat
    requires WellFormed(c)
  {
    Value(c.min)
  }

  function MaxValue(c: Captures): nat
    requires WellFormed(c)
  {
    if c.max.Some? then Value(c.max.value) else Value(c.min)
  }

  /** Every well-formed specifier whose numbers fit parses, to the pairwise
      minimum and maximum of its numbers and the presence of the `!`. */
  lemma ParseSpelling(c: Captures)
    requires WellFormed(c)
    requires MinValue(c) <= U32_MAX && MaxValue(c) <= U32_MAX
    ensures ParseDueDateStr(Spelling(c)) == Success(DueDateSpecifier(
      if MinValue(c) <= MaxValue(c) then MinValue(c) else MaxValue(c),
      if MinValue(c) <= MaxValue(c) then MaxValue(c) else MinValue(c),
      c.bang))
  {
    CaptureComplete(c);
  }

  /** A well-formed specifier with a number beyond `u32` fails to parse the number. */
  lemma ParseOverflow(c: Captures)
    requires WellFormed(c)
    requires MinValue(c) > U32_MAX || MaxValue(c) > U32_MAX
    ensures ParseDueDateStr(Spelling(c)) == Failure(ParseNumError)
  {
    CaptureComplete(c);
  }

  /** Parsing fails with invalid input, naming the text, exactly when the
      text is not the spelling of any well-formed specifier. */
  lemma ParseRejectsExactlyNonMatching(s: string)
    ensures (ParseDueDateStr(s) == Failure(InvalidInput(InvalidInputError(s, None, None))))
        <==> (forall c: Captures :: WellFormed(c) ==> Spelling(c) != s)
  {
    if Capture(s).Some? {
      var c := Capture(s).value;
      assert WellFormed(c) && Spelling(c) == s;
    } else {
      forall c: Captures | WellFormed(c) ensures Spelling(c) != s {
        CaptureComplete(c);
      }
    }
  }

  /** Printing two numbers as `a-b` (optionally followed by `!`) and parsing
      the text back gives them in ascending order. */
  lemma ParseShownRange(a: nat, b: nat, bang: bool)
    requires a <= U32_MAX && b <= U32_MAX
    ensures ParseDueDateStr(Spelling(Captures(Show(a), Some(Show(b)), bang)))
         == Success(DueDateSpecifier(if a <= b then a else b, if a <= b then b else a, bang))
  {
    var c := Captures(Show(a), Some(Show(b)), bang);
    ValueOfShow(a);
    ValueOfShow(b);
    assert MinValue(c) == a && MaxValue(c) == b;
    ParseSpelling(c);
  }

  /** A single printed number parses to the one-day range `[n, n]`. */
  lemma ParseShownDay(n: nat, bang: bool)
    requires n <= U32_MAX
    ensures ParseDueDateStr(Spelling(Captures(Show(n), None, bang))) == Success(DueDateSpecifier(n, n, bang))
  {
    var c := Captures(Show(n), None, bang);
    ValueOfShow(n);
    assert MinValue(c) == n && MaxValue(c) == n;
    ParseSpelling(c);
  }

  /** The inputs the parser's unit test rejects. */
  lemma ParseRejectsExamples()
    ensures ParseDueDateStr("") == Failure(InvalidInput(InvalidInputError("", None, None)))
    ensures ParseDueDateStr("x") == Failure(InvalidInput(InvalidInputError("x", None, None)))
    ensures ParseDueDateStr("-5") == Failure(InvalidInput(InvalidInputError("-5", None, None)))
  {
    assert StripBang("x") == ("x", false);
    assert !IsDigit('x');
    assert StripBang("-5") == ("-5", false);
    assert HyphenAt("-5") == 0;
  }

  /** The inputs the parser's unit test accepts, with the specifiers it expects:
      a single day, with and without `!`, and a range in either order. */
  lemma ParseAcceptsSingleDay()
    ensures ParseDueDateStr("5") == Success(DueDateSpecifier(5, 5, false))
    ensures ParseDueDateStr("5!") == Success(DueDateSpecifier(5, 5, true))
  {
    assert Value("5") == 5;
    var c := Captures("5", None, false);
    assert Spelling(c) == "5";
    ParseSpelling(c);
    assert Spelling(c.(bang := true)) == "5!";
    ParseSpelling(c.(bang := true));
  }

  lemma ParseAcceptsRange()
    ensures ParseDueDateStr("50-70") == Success(DueDateSpecifier(50, 70, false))
  {
    assert Value("5") == 5 && Value("7") == 7;
    assert Value("50") == 50 && Value("70") == 70;
    var c := Captures("50", Some("70"), false);
    assert Spelling(c) == "50-70";
    ParseSpelling(c);
  }

  lemma ParseAcceptsReversedRange()
    ensures ParseDueDateStr("70-50!") == Success(DueDateSpecifier(50, 70, true))
  {
    assert Value("5") == 5 && Value("7") == 7;
    assert Value("50") == 50 && Value("70") == 70;
    var c := Captures("70", Some("50"), true);
    assert Spelling(c) == "70-50!";
    ParseSpelling(c);
  }
}
