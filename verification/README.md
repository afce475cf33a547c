# Anki due-date rescheduling, modelled in Dafny

This project models the part of Anki's Rust engine (`rslib`) that moves
cards to a chosen due date. It covers five pieces:

- **The due-date specifier.** `parse_due_date_str` reads the text
  `<min>[-<max>][!]`. The result is a day range, with the smaller number
  first, plus a flag that forces the interval to be reset.
- **Rescheduling one card.** `Card::set_due_date` and
  `Card::schedule_as_review` turn a card into a review card due a number of
  days from today. The new interval is computed under one of two models:
  - the memory-state (FSRS) model, anchored either on the last review or on
    how far the due day moved;
  - the legacy model, which keeps the interval of a review card unless
    asked to reset it.

  A card in a filtered deck goes back to its home deck. An unset ease
  factor gets the home deck's initial ease.
- **The collection operations.** `Collection::set_due_date` reschedules a
  batch of cards in one all-or-nothing transaction and writes a review-log
  row for each card. `Collection::grade_now` answers a batch of cards with a
  fixed rating.
- **The error taxonomy.** `AnkiError` has its machine-readable codes, its
  context, backtrace and help-page accessors, and its conversions from
  library errors.
- **The HTTP layer.** It covers the sync server's `ApiError` and `RestError`
  responses and the REST route `PUT /cards/{card_id}/schedule`. That route
  also accepts the shorthand `+<days>d`.

Files:

| file | module | what it holds |
|---|---|---|
| `wrappers.dfy` | `Wrappers` | `Option` and `Result` |
| `decimal.dfy` | `Decimal` | decimal digit strings: value, printing, round trip |
| `errors.dfy` | `Errors` | `AnkiError`, its codes, context, backtrace, help page, `From` conversions |
| `http_errors.dfy` | `HttpErrors` | `ApiError` and its HTTP response |
| `rest.dfy` | `Rest` | `RestError` and its HTTP response |
| `due_date.dfy` | `DueDate` | the specifier grammar and `parse_due_date_str` |
| `card_reschedule.dfy` | `CardReschedule` | the card fields, the class `Card` with its in-place updates, the unit test scenario |
| `reviews.dfy` | `Reviews` | the class `Collection` with `set_due_date` and `grade_now` |
| `rest_cards.dfy` | `RestCards` | the `update_schedule` route |

Each in-place operation is written in two forms:

- a method on a class (`Card`, `Collection`) that updates fields in place;
- a function on values (`Rescheduled`, `Transacted`, `GradeFrom`) that
  states the resulting state.

Lemmas prove properties of those functions, so they hold of every state
the methods reach. Ease factors are written in thousandths, as the card
stores them.

## Model

| member | source | states |
|---|---|---|
| `Errors.InvalidInputFrom` | rslib/src/error/mod.rs:39-41 | an invalid-input error carries the given message, has code `invalid_input` and has no context |
| `Errors.CodeDecodes` | rslib/src/error/mod.rs:130-171 | the code table `Code`: every error kind's code string identifies that kind, so decoding the code gives back the kind |
| `Errors.CodesDistinct` | rslib/src/error/mod.rs:130-171 | two different error kinds never share a code |
| `Errors.HelpPageOf` | rslib/src/error/mod.rs:238-251 | there is a help page exactly for card-template errors |
| `Errors.HelpPagesByKind` | rslib/src/error/mod.rs:238-251 | the page of each kind of card-template problem: template and missing-field problems go to the template-error page; duplicates, a missing front field and a missing cloze each have their own |
| `Errors.HelpPageSharedExactly` | rslib/src/error/mod.rs:238-251 | two card-template problems share a page if and only if they are of the same kind or both are template or missing-field problems; notetype, ordinal, field and index never matter |
| `Errors.Context` | rslib/src/error/mod.rs:253-259 | only invalid-input and not-found errors carry context, which is their own context text; every other error gives an empty string |
| `Errors.Backtrace` | rslib/src/error/mod.rs:261-276 | a non-empty backtrace is one that an invalid-input or not-found error captured; a captured one is always returned |
| `Errors.FromJsonError` | rslib/src/error/mod.rs:294-300 | a JSON library error becomes a `json_error` keeping its text, with no context and no help page |
| `Errors.FromProtoEncodeError` | rslib/src/error/mod.rs:302-308 | a protobuf encode error becomes a `proto_error` keeping its text |
| `Errors.FromProtoDecodeError` | rslib/src/error/mod.rs:310-316 | a protobuf decode error becomes the same kind of error as an encode error with the same text |
| `Errors.FromRegexError` | rslib/src/error/mod.rs:330-336 | a regex library error becomes an `invalid_regex` keeping its text |
| `HttpErrors.AnkiStatus` | rslib/src/sync/http_server/error.rs:30-35 | not found answers 404, invalid input 400, already existing 409, and every other engine error 500 |
| `HttpErrors.IntoResponse` | rslib/src/sync/http_server/error.rs:26-47 | the body's code always equals the status; engine errors carry their classified status and message; a JSON rejection answers 400 with its body text; an `HttpError` keeps its own status and context |
| `HttpErrors.AnkiClientErrors` | rslib/src/sync/http_server/error.rs:30-35 | an engine error answers 4xx if and only if it is not found, invalid input or already existing |
| `Rest.IntoResponse` | rslib/src/sync/http_server/rest.rs:59-69 | the same 404/400/409 classification; client errors carry the localised message; server errors answer 500 with the error's display text |
| `Rest.FromError` | rslib/src/sync/http_server/rest.rs:71-78 | any error convertible to an engine error is wrapped unchanged |
| `Rest.FromHttpError` | rslib/src/sync/http_server/rest.rs:80-84 | a sync `HttpError` becomes invalid input carrying its display text, so it always answers 400 |
| `Rest.RestAgreesWithApi` | rslib/src/sync/http_server/rest.rs:59-69 | both HTTP layers give every engine error the same status |
| `Rest.HttpErrorStatusDiffers` | rslib/src/sync/http_server/rest.rs:80-84 | an `HttpError` whose own status is not 400 gets a different status through `RestError` than through `ApiError` |
| `DueDate.Capture` | rslib/src/scheduler/reviews.rs:87-104 | a match of the anchored pattern gives well-formed digit groups that spell out the whole input |
| `DueDate.CaptureComplete` | rslib/src/scheduler/reviews.rs:87-104 | the pattern matches every spelling of well-formed groups and gives back exactly those groups |
| `DueDate.ParseU32` | rslib/src/scheduler/reviews.rs:106-110 | parsing a digit run as `u32` succeeds with its value exactly when the value is at most `u32::MAX`, and otherwise fails |
| `DueDate.ParseDueDateStr` | rslib/src/scheduler/reviews.rs:86-117 | on success, min <= max <= `u32::MAX`, and the reset flag is set iff the text ends in `!`; text the pattern does not match fails as invalid input naming the text |
| `DueDate.ParseSpelling` | rslib/src/scheduler/reviews.rs:105-116 | every well-formed specifier whose numbers fit parses to (smaller, larger, bang) |
| `DueDate.ParseOverflow` | rslib/src/scheduler/reviews.rs:106-110 | a well-formed specifier with a number above `u32::MAX` fails with a number-parse error |
| `DueDate.ParseRejectsExactlyNonMatching` | rslib/src/scheduler/reviews.rs:104 | parsing fails as invalid input if and only if the text spells no well-formed specifier |
| `DueDate.ParseShownRange` | rslib/src/scheduler/reviews.rs:111-116 | printing two numbers as `a-b` and parsing them gives them back in ascending order |
| `DueDate.ParseShownDay` | rslib/src/scheduler/reviews.rs:108-116 | a single printed number parses to the one-day range `[n, n]` |
| `DueDate.ParseRejectsExamples` | rslib/src/scheduler/reviews.rs:228-232 | the empty text, `x` and `-5` are refused |
| `DueDate.ParseAcceptsSingleDay` | rslib/src/scheduler/reviews.rs:233-246 | `5` and `5!` parse to the day 5, with and without reset |
| `DueDate.ParseAcceptsRange` | rslib/src/scheduler/reviews.rs:247-253 | `50-70` parses to the range 50..70 |
| `DueDate.ParseAcceptsReversedRange` | rslib/src/scheduler/reviews.rs:254-261 | `70-50!` parses to 50..70 with reset |
| `IntWidths.TruncDiv` | rslib/src/scheduler/reviews.rs:46 | `i64` division rounds toward zero, for negative numerators too |
| `IntWidths.AsI32` | rslib/src/scheduler/reviews.rs:36-47 | the `as i32` cast gives an `i32` congruent to its input modulo 2^32, and is the identity on values that fit |
| `IntWidths.AsI32OfLargeU32` | rslib/src/scheduler/reviews.rs:36 | a `u32` above `i32::MAX` cast to `i32` is negative, smaller by exactly 2^32 |
| `IntWidths.SaturatingAddSigned` | rslib/src/scheduler/reviews.rs:52 | the sum clamped to `[0, u32::MAX]`: exact when it fits, 0 below, `u32::MAX` above |
| `CardReschedule.NewCard` | rslib/src/scheduler/reviews.rs:270 | the card the unit test starts from is a valid new card in the new queue, with no ease, no interval and no original deck |
| `CardReschedule.DueDiff` | rslib/src/scheduler/reviews.rs:44-51 | for a day-number due, the shift added to the old due day gives exactly the new due day |
| `CardReschedule.DueDiffOfTimestamp` | rslib/src/scheduler/reviews.rs:45-48 | a legacy timestamp due `k` whole days after the next day starts counts as day `today + k`, and the shift is measured from that day, for `k` of either sign |
| `CardReschedule.NewInterval` | rslib/src/scheduler/reviews.rs:38-58 | the interval always fits `u32` |
| `CardReschedule.RemovedFromFilteredDeck` | rslib/src/scheduler/reviews.rs:66 | a filtered card returns to its original deck, forgets that deck and the saved due; any other card is left as it is; no other field ever changes |
| `CardReschedule.ScheduledAsReview` | rslib/src/scheduler/reviews.rs:64-76 | the card becomes a review card in the review queue with the given interval and due day, back in its home deck, its original position taken from its last position; the ease is written only if unset; id, note, memory state and last review are kept |
| `CardReschedule.Rescheduled` | rslib/src/scheduler/reviews.rs:29-76 | the rescheduled card is a valid review card due `(today + days) as i32` (exactly `today + days` when that fits `i32`) in its home deck; its ease is written only if unset; id, note, memory state and last review are kept; it follows both the legacy and the FSRS interval rules |
| `CardReschedule.ElapsedAnchorsInterval` | rslib/src/scheduler/reviews.rs:39-43 | with FSRS and a recorded review, `due - interval` is the day of the last review |
| `CardReschedule.DueWrapsBeyondI32` | rslib/src/scheduler/reviews.rs:36 | a due day beyond `i32::MAX` is not refused: it wraps to a negative due day 2^32 days early |
| `CardReschedule.ShiftKeepsImpliedReviewDay` | rslib/src/scheduler/reviews.rs:44-52 | with FSRS and no recorded review, the interval moves with the due day, so the implied last-review day is unchanged (unless saturated) |
| `CardReschedule.Series` | rslib/src/scheduler/reviews.rs:29-76 | any series of reschedules that does not overflow leaves a valid card |
| `CardReschedule.EaseSetOnce` | rslib/src/scheduler/reviews.rs:72-76 | over any series of reschedules, the ease is the first non-zero one: the card's own, or else the first default supplied |
| `CardReschedule.SeriesEndsAsLastStepSays` | rslib/src/scheduler/reviews.rs:36-76 | after a series, the card is a review card out of any filtered deck, due when the last step said |
| `CardReschedule.LegacySeriesKeepsInterval` | rslib/src/scheduler/reviews.rs:54-58 | without FSRS or forced resets, a review card with a positive interval keeps that interval through any series |
| `CardReschedule.Card.SetDueDate` | rslib/src/scheduler/reviews.rs:29-62 | the in-place update leaves the card exactly in the state `Rescheduled` describes |
| `CardReschedule.Card.ScheduleAsReview` | rslib/src/scheduler/reviews.rs:64-76 | the in-place update leaves the card as `ScheduledAsReview` describes |
| `CardReschedule.Card.RemoveFromFilteredDeckBeforeReschedule` | rslib/src/scheduler/reviews.rs:66 | the in-place update leaves the card as `RemovedFromFilteredDeck` describes |
| `CardReschedule.DueDateScenario` | rslib/src/scheduler/reviews.rs:268-293 | a new card rescheduled four times ends a valid card due on day 9, interval 3, ease 1800, with each intermediate state as the unit test expects |
| `CardReschedule.DueDateScenarioFiltered` | rslib/src/scheduler/reviews.rs:295-320 | a filtered card comes back to its deck due on day 7; a relearning card then ends due on day 16, interval 2, ease 2200 |
| `CardReschedule.DueDateTest` | rslib/src/scheduler/reviews.rs:268-320 | the whole unit test on one card ends with a review card out of any filtered deck, due on day 16, interval 2, ease 2200 |
| `Reviews.DeckStore.InitialEase` | rslib/src/scheduler/reviews.rs:161-171 | a missing deck is a not-found error; a filtered home deck is invalid input; success iff the deck exists with an options group, and then the ease is that group's, or the default group's when the group is gone; it fits `u16` |
| `Reviews.FirstMissing` | rslib/src/scheduler/reviews.rs:143-146 | finds nothing iff every requested id exists; otherwise it returns the first requested id that is missing |
| `Reviews.DeckError` | rslib/src/scheduler/reviews.rs:157-172 | a reported deck error is the error some requested card's home-deck lookup gives |
| `Reviews.DeckErrorIsFirst` | rslib/src/scheduler/reviews.rs:157-167 | the deck error reported is that of the first card, in request order, whose deck fails |
| `Reviews.DeckErrorNone` | rslib/src/scheduler/reviews.rs:157-167 | there is no deck error iff every requested card's home deck yields an ease |
| `Reviews.RescheduledCardsValid` | rslib/src/scheduler/reviews.rs:174-185 | rescheduling keeps the card storage well formed: each card fits its field widths under its own id |
| `Reviews.RescheduledWithinRange` | rslib/src/scheduler/reviews.rs:174-182 | when `today+max` fits `i32`, every rescheduled card is a review card due within `[today+min, today+max]`, back in its home deck |
| `Reviews.ReschedulingStep` | rslib/src/scheduler/reviews.rs:174-185 | rescheduling one more card extends the outcome by that card's update and its log row |
| `Reviews.CachedInitialEase` | rslib/src/scheduler/reviews.rs:159-172 | the per-deck cache returns exactly what a fresh lookup would, it only remembers successful lookups, and the deck's options are fetched exactly when the deck is not cached |
| `Reviews.LookupStep` | rslib/src/scheduler/reviews.rs:159-172 | the cache holds exactly the home decks seen so far, and the number of fetches equals the number of cached decks |
| `Reviews.RescheduleNext` | rslib/src/scheduler/reviews.rs:157-185 | one loop turn looks up the card's home-deck ease; on success the card is rescheduled and logged, keeping every loop invariant; on failure the fetches made stay within the number of distinct home decks |
| `Reviews.RescheduleWithin` | rslib/src/scheduler/reviews.rs:174-182 | the sampled day count lies in the specifier's range, and the card is rescheduled by it |
| `Reviews.Collection.RescheduleAll` | rslib/src/scheduler/reviews.rs:157-185 | fails iff some home deck fails, with the first such error; otherwise every requested card is rescheduled, others are untouched, one log row per card is appended in order, and storage stays valid; each distinct home deck's options are fetched at most once |
| `Reviews.Collection.SetDueDate` | rslib/src/scheduler/reviews.rs:119-191 | a bad specifier fails and changes nothing; no cards succeeds without a change; a missing card fails naming the first missing id; a deck error fails; otherwise every card is rescheduled and logged, and `days` is stored under `context` |
| `Reviews.Transacted` | rslib/src/scheduler/reviews.rs:141-190 | a failed transaction leaves cards, log and configuration as they were; it succeeds exactly when every card exists and every home deck yields an ease |
| `Reviews.Collection.Transact` | rslib/src/scheduler/reviews.rs:141-190 | the transaction commits all of the cards or none of them, as `Transacted` describes |
| `Reviews.SelectState` | rslib/src/scheduler/reviews.rs:197-203 | rating 0 selects again, 1 hard, 2 good, 3 easy; any other rating, and only such a rating, is the invalid input `invalid rating` |
| `Reviews.BuildAnswer` | rslib/src/scheduler/reviews.rs:205-215 | the answer goes from the current state to the selected state, with zero time taken and outside the queue |
| `Reviews.GradeFrom` | rslib/src/scheduler/reviews.rs:195-218 | an empty batch succeeds unchanged; with cards, a bad rating fails, and a card whose states cannot be read fails with that error |
| `Reviews.GradeFromAppend` | rslib/src/scheduler/reviews.rs:195-218 | grading `xs + ys` is grading `xs` and then `ys` from where it left off, each card with its own clock reading, and it stops at the first error |
| `Reviews.GradeInvalidRating` | rslib/src/scheduler/reviews.rs:198-204 | a bad rating fails the first card once its states are read; an empty batch succeeds whatever the rating |
| `Reviews.Collection.GradeNow` | rslib/src/scheduler/reviews.rs:193-219 | commits exactly the state that answering all cards in order produces, each answer stamped with the clock reading taken for that card, or on the first error fails and changes nothing; storage stays valid when the answering step keeps card widths |
| `Reviews.GradeFromKeepsValid` | rslib/src/scheduler/reviews.rs:195-218 | grading a batch from valid card storage ends with valid storage whenever each answer keeps the card fields within their widths |
| `RestCards.NormalizeDue` | rslib/src/sync/http_server/rest_routes/cards.rs:216-224 | `+<x>d` becomes `x`; any other text passes unchanged |
| `RestCards.ShorthandIsStripped` | rslib/src/sync/http_server/rest_routes/cards.rs:216-224 | the shorthand of a specifier reduces to the specifier |
| `RestCards.PlainSpecifierUnchanged` | rslib/src/sync/http_server/rest_routes/cards.rs:216-224 | a plain specifier is not altered |
| `RestCards.ShorthandParsesAsSpecifier` | rslib/src/sync/http_server/rest_routes/cards.rs:216-225 | `+<spec>d` schedules exactly as `<spec>` does |
| `RestCards.PlusWithoutSuffixRejected` | rslib/src/sync/http_server/rest_routes/cards.rs:216-225 | text starting with `+` but not ending in `d` is refused as invalid input naming that text |
| `RestCards.ShorthandExamples` | rslib/src/sync/http_server/rest_routes/cards.rs:216-225 | `+5!d` is day 5 with reset; `+5` is refused |
| `RestCards.UpdateSchedule` | rslib/src/sync/http_server/rest_routes/cards.rs:207-228 | a bad JSON body answers a JSON error, and a collection that cannot open answers its HTTP error, both with nothing changed; otherwise the one card is rescheduled by the normalised text, without a config key, and engine errors become API errors |

## Left out

- Ease factors are `f32` in the source and rounded to thousandths (`(ease * 1000).round() as u16`). The model takes the initial ease in thousandths directly; floating point is not modelled.
- The random day drawn from `Uniform::new_inclusive(min, max)` is a nondeterministic choice within the range. Its distribution is not modelled.
- The pattern's `\d` is modelled as the ASCII digits only. Unicode decimal digits, which the regex crate also accepts, are not modelled.
- `all_cards_for_ids` returns cards in storage order. The model walks them in request order, which also decides which deck error is reported first.
- The undo and transaction machinery, the card modification time and the update-sequence stamping done by `transact` and `update_card_inner` are not modelled. The model reduces them to all-or-nothing commitment.
- The review-log entry keeps only card, interval, previous interval and usn. Its ease, kind and time fields are left out.
- `AnkiError::message` and its localisation are passed in as a function. The `Display` text is passed in as a function too.
- The Windows-only error variant and the conversions from `io`, `tempfile` and other library errors are not modelled. Neither are the wrapped error structs' internals (database, network, sync, filtered deck, search, import), which carry only their text.
- `InvalidInputError`, `NotFoundError` and their `context()` and backtrace accessors live in files that are not part of this model. They are modelled from how this code builds and reads them: the context is a text the error carries, and the not-found text (`No such …: '…'`) and the type name `deck` used by `or_not_found` are assumed.
- `Card::is_filtered`, `Card::original_or_current_due` and `Card::remove_from_filtered_deck_before_reschedule` are not part of this model. Their definitions are assumed: a card is filtered when its original deck id is non-zero; the saved original due counts in place of the due for a filtered card; removal restores the home deck and clears the original deck and due.
- `ParseNumError` is assumed to be what the `?` on a `u32` parse error converts into.
- Backtrace capture is not modelled. A backtrace is an optional text given with the error.
- These helpers are parameters whose definitions are not part of this model: `elapsed_days_since`, `is_unix_epoch_timestamp`, `last_position`, `get_scheduling_states`, `answer_card_inner` and the clock (`TimestampMillis::now`).
- `get_deck_config(id, true)` falls back to the default options group. The model stores that group's ease as `defaultInitialEase`.
- CardReschedule.Card.SetDueDate: requires the `u32` sum `today + days`, the elapsed-days interval and the `i32` due shift to fit (`CanReschedule`). The source would panic on those overflows in a debug build and wrap in release, and neither outcome is modelled. The `as i32` cast of the due day is not an overflow and is modelled: it wraps (`DueWrapsBeyondI32`).
- Reviews.RescheduledWithinRange: covers only runs where `today + max` fits `i32`; beyond that the due days wrap as `DueWrapsBeyondI32` states.
- Reviews.Collection.GradeNow: the clock is read once per card; `nows` holds those readings, and `|nows| == |cids|` is only its shape. `KeepsCardsValid(answerCard)` requires the answering step, whose code is not part of this model, to keep the card fields within their Rust widths.
- Reviews.Collection.SetDueDate: requires the card ids to be distinct and every drawn day to fit (`DaysFit`). With a repeated id and no missing id the source finds fewer cards than ids, and its search for the missing one finds none and unwraps `None`.
- The `i64` arithmetic on timestamps (`due - next_day_start`) is unbounded in the model.
- `with_col` takes the server lock and selects the first user. Both are left out, and opening the collection is an input to `UpdateSchedule`.
- The other REST handlers in the route file are not part of this model.
