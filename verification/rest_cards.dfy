/** The REST route `PUT /cards/{card_id}/schedule`: the requested due text,
    with the `+<days>d` shorthand reduced to the day specifier, handed to the
    collection's due-date rescheduling for that one card. */
module RestCards {
  import opened Wrappers
  import opened Errors
  import opened Decimal
  import opened HttpErrors
  import opened DueDate
  import opened CardReschedule
  import opened Reviews

  /** The request body: the due text. */
  datatype UpdateScheduleRequest = UpdateScheduleRequest(due: string)

  /** The response body on success. */
  datatype SuccessResponse = SuccessResponse(success: bool)

  /** Whether `due` is written `+<text>d`. */
  predicate IsShorthand(due: string) {
    |due| >= 2 && due[0] == '+' && due[|due| - 1] == 'd'
  }

  /** The due text with a leading `+` and a trailing `d` removed when it has
      both; any other text is kept as it is. */
  function NormalizeDue(due: string): (r: string)
    ensures IsShorthand(due) ==> "+" + r + "d" == due
    ensures !IsShorthand(due) ==> r == due
    ensures |r| <= |due|
  {
    if IsShorthand(due) then due[1..|due| - 1] else due
  }

  /** A specifier written as the shorthand `+<spec>d` is read as `<spec>`. */
  lemma ShorthandIsStripped(c: Captures)
    ensures NormalizeDue("+" + Spelling(c) + "d") == Spelling(c)
  {
    var due := "+" + Spelling(c) + "d";
    assert IsShorthand(due);
    assert due[1..|due| - 1] == Spelling(c);
  }

  /** Every spelling of a well-formed specifier starts with a digit. */
  lemma SpellingStartsWithDigit(c: Captures)
    requires WellFormed(c)
    ensures |Spelling(c)| > 0 && IsDigit(Spelling(c)[0])
  {
    assert Spelling(c)[0] == c.min[0];
  }

  /** A plain specifier is passed on unchanged. */
  lemma PlainSpecifierUnchanged(c: Captures)
    requires WellFormed(c)
    ensures NormalizeDue(Spelling(c)) == Spelling(c)
  {
    SpellingStartsWithDigit(c);
  }

  /** Text that starts with `+` but does not end in `d` reaches the parser
      with its `+` and is refused as invalid input naming that text. */
  lemma PlusWithoutSuffixRejected(due: string)
    requires |due| > 0 && due[0] == '+' && due[|due| - 1] != 'd'
    ensures ParseDueDateStr(NormalizeDue(due)) == Failure(InvalidInput(InvalidInputError(due, None, None)))
  {
    forall c: Captures | WellFormed(c)
      ensures Spelling(c) != due
    {
      SpellingStartsWithDigit(c);
    }
    ParseRejectsExactlyNonMatching(due);
  }

  /** The shorthand for a well-formed specifier parses exactly as the
      specifier itself. */
  lemma ShorthandParsesAsSpecifier(c: Captures)
    ensures ParseDueDateStr(NormalizeDue("+" + Spelling(c) + "d")) == ParseDueDateStr(Spelling(c))
  {
    ShorthandIsStripped(c);
  }

  /** The shorthand `+5!d` asks for day 5 with the interval reset; `+5`
      without the `d` is refused. */
  lemma ShorthandExamples()
    ensures ParseDueDateStr(NormalizeDue("+5!d")) == Success(DueDateSpecifier(5, 5, true))
    ensures ParseDueDateStr(NormalizeDue("+5")) == Failure(InvalidInput(InvalidInputError("+5", None, None)))
  {
    var c := Captures("5", None, true);
    assert Spelling(c) == "5!";
    assert "+" + Spelling(c) + "d" == "+5!d";
    ShorthandIsStripped(c);
    ParseAcceptsSingleDay();
    PlusWithoutSuffixRejected("+5");
  }

  /** `update_schedule`: reject a body that is not valid JSON, open the
      collection (`colOpen` is the outcome of opening it), then reschedule
      card `cardId` by the normalised due text without remembering it in
      the configuration. The collection's own result is returned in
      `inner`; its errors become engine errors of the API. */
  method UpdateSchedule(col: Collection, cardId: CardId, payload: Result<UpdateScheduleRequest, JsonRejection>,
                        colOpen: Result<(), HttpError>, h: Helpers)
    returns (r: Result<SuccessResponse, ApiError>, ghost inner: Result<OpOutput, AnkiError>, ghost offsets: seq<nat>)
    requires col.Valid()
    requires payload.Success? && ParseDueDateStr(NormalizeDue(payload.value.due)).Success? ==>
      DaysFit(col.cards, [cardId], col.today, col.nextDayAt, ParseDueDateStr(NormalizeDue(payload.value.due)).value, h)
    modifies col
    ensures col.Valid()
    ensures payload.Failure? ==> r == Failure(Json(payload.error)) && unchanged(col)
    ensures payload.Success? && colOpen.Failure? ==> r == Failure(Http(colOpen.error)) && unchanged(col)
    ensures payload.Success? && colOpen.Success? ==>
      && r == (if inner.Success? then Success(SuccessResponse(true)) else Failure(Anki(inner.error)))
      && match ParseDueDateStr(NormalizeDue(payload.value.due))
         case Failure(e) => inner == Failure(e) && unchanged(col)
         case Success(spec) =>
           Transacted(Plan(col.deckStore, spec, col.today, col.nextDayAt, col.usn, h), [cardId],
                      NormalizeDue(payload.value.due), None,
                      old(Snapshot(col.cards, col.revlog)), Snapshot(col.cards, col.revlog),
                      old(col.config), col.config, offsets, inner)
  {
    inner, offsets := Success(OpOutput(None)), [];
    if payload.Failure? {
      return Failure(Json(payload.error)), inner, offsets;
    }
    if colOpen.Failure? {
      return Failure(Http(colOpen.error)), inner, offsets;
    }
    var dueText := NormalizeDue(payload.value.due);
    var result;
    result, offsets := col.SetDueDate([cardId], dueText, None, h);
    inner := result;
    if result.Failure? {
      return Failure(Anki(result.error)), inner, offsets;
    }
    return Success(SuccessResponse(true)), inner, offsets;
  }
}
