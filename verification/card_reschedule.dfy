/** `Card::set_due_date` and `Card::schedule_as_review`: making one card a
    review card due a given number of days from today, recomputing its
    interval under either the memory-state (FSRS) model or the legacy
    ease-factor model. */
module CardReschedule {
  import opened Wrappers
  import opened IntWidths

  const SECONDS_PER_DAY: nat := 86_400

  type CardId = int
  /** Deck ids; 0 stands for "no deck", as in an unset original deck. */
  type DeckId = int

  datatype CardType = New | Learn | Review | Relearn

  datatype CardQueue = New | Learn | Review | DayLearn | PreviewRepeat | Suspended | SchedBuried | UserBuried

  /** A fitted memory state; its numbers play no part in rescheduling, only its presence. */
  datatype MemoryState = MemoryState(stability: real, difficulty: real)

  /** The scheduling-relevant fields of a card, as a value. */
  datatype CardValue = CardValue(
    id: CardId,
    noteId: int,
    deckId: DeckId,
    originalDeckId: DeckId,
    ctype: CardType,
    queue: CardQueue,
    due: int,
    interval: nat,
    easeFactor: nat,
    originalDue: int,
    originalPosition: Option<nat>,
    memoryState: Option<MemoryState>,
    lastReviewTime: Option<int>)

  /** The integer fields fit their storage types (`i32` due dates, `u32`
      interval, `u16` ease factor in thousandths). */
  predicate ValidCard(c: CardValue) {
    IsI32(c.due) && IsI32(c.originalDue) && c.interval <= U32_MAX && c.easeFactor <= U16_MAX
  }

  /** `Card::new`: a new card in the new queue with nothing scheduled yet. */
  function NewCard(noteId: int, deckId: DeckId, due: int): (c: CardValue)
    requires IsI32(due)
    ensures ValidCard(c) && c.ctype == CardType.New && c.queue == CardQueue.New
    ensures c.easeFactor == 0 && c.interval == 0 && c.originalDeckId == 0
  {
    CardValue(0, noteId, deckId, 0, CardType.New, CardQueue.New, due, 0, 0, 0, None, None, None)
  }

  /** Functions the rescheduling code calls whose definitions are not part
      of this model:
      - `elapsedDaysSince(a, b)`: whole days from timestamp `b` to timestamp `a`
        (`TimestampSecs::elapsed_days_since`);
      - `isUnixEpochTimestamp(due)`: whether a due value is a legacy
        timestamp rather than a day number (`timing::is_unix_epoch_timestamp`);
      - `lastPosition(card)`: the card's last queue position (`Card::last_position`). */
  datatype Helpers = Helpers(
    elapsedDaysSince: (int, int) -> nat,
    isUnixEpochTimestamp: int -> bool,
    lastPosition: CardValue -> Option<nat>)

  function Max(a: int, b: int): int {
    if a >= b then a else b
  }

  /** A card is parked in a filtered deck when it remembers an original deck. */
  predicate IsFiltered(c: CardValue) {
    c.originalDeckId != 0
  }

  /** The due value that counts for the card: the one saved before it
      entered a filtered deck, if it is in one. */
  function OriginalOrCurrentDue(c: CardValue): int {
    if IsFiltered(c) then c.originalDue else c.due
  }

  /** The deck whose options apply to the card: its home deck. */
  function HomeDeck(c: CardValue): DeckId {
    if IsFiltered(c) then c.originalDeckId else c.deckId
  }

  /** The due day `set_due_date` gives the card: `(today + days) as i32`. */
  function NewDue(today: nat, days: nat): int {
    AsI32(today + days)
  }

  /** How far the due day moves, for a card with a memory state but no
      recorded review: the new due day minus the card's current due day,
      after turning a legacy timestamp due into a day number. */
  function DueDiff(c: CardValue, today: nat, nextDayStart: int, days: nat, h: Helpers): (r: int)
    ensures !h.isUnixEpochTimestamp(OriginalOrCurrentDue(c)) ==> OriginalOrCurrentDue(c) + r == NewDue(today, days)
  {
    var due := OriginalOrCurrentDue(c);
    if h.isUnixEpochTimestamp(due) then
      var offset := TruncDiv(due - nextDayStart, SECONDS_PER_DAY);
      NewDue(today, days) - AsI32(today + offset)
    else
      NewDue(today, days) - due
  }

  /** A legacy timestamp due `k` whole days after the start of the next day
      counts as day `today + k`: the shift is measured from that day. */
  lemma DueDiffOfTimestamp(c: CardValue, today: nat, nextDayStart: int, days: nat, h: Helpers, k: int)
    requires h.isUnixEpochTimestamp(OriginalOrCurrentDue(c))
    requires OriginalOrCurrentDue(c) == nextDayStart + k * SECONDS_PER_DAY
    requires IsI32(today + k)
    ensures DueDiff(c, today, nextDayStart, days, h) == NewDue(today, days) - (today + k)
  {
    if k >= 0 {
      assert (k * SECONDS_PER_DAY) / SECONDS_PER_DAY == k;
    } else {
      assert ((-k) * SECONDS_PER_DAY) / SECONDS_PER_DAY == -k;
      assert -(k * SECONDS_PER_DAY) == (-k) * SECONDS_PER_DAY;
    }
  }

  /** What the fixed-width arithmetic of `set_due_date` needs in order not to
      overflow (which panics in a debug build and wraps in a release build):
      the `u32` sum `today + days`, the elapsed-days interval in `u32`, and
      the `i32` due shift. The cast of the sum to `i32` is not an overflow:
      it wraps (`NewDue`). */
  predicate CanReschedule(c: CardValue, today: nat, nextDayStart: int, days: nat, h: Helpers) {
    && today + days <= U32_MAX
    && (c.memoryState.Some? && c.lastReviewTime.Some? ==>
          h.elapsedDaysSince(nextDayStart, c.lastReviewTime.value) % 0x1_0000_0000 + days <= U32_MAX)
    && (c.memoryState.Some? && c.lastReviewTime.None? ==> IsI32(DueDiff(c, today, nextDayStart, days, h)))
  }

  predicate IsReviewOrRelearn(c: CardValue) {
    c.ctype == CardType.Review || c.ctype == CardType.Relearn
  }

  /** The interval `set_due_date` gives the card. */
  function NewInterval(c: CardValue, today: nat, nextDayStart: int, days: nat, forceReset: bool, h: Helpers): (r: nat)
    requires ValidCard(c) && CanReschedule(c, today, nextDayStart, days, h)
    ensures r <= U32_MAX
  {
    if c.memoryState.Some? then
      if c.lastReviewTime.Some? then
        h.elapsedDaysSince(nextDayStart, c.lastReviewTime.value) % 0x1_0000_0000 + days
      else
        SaturatingAddSigned(c.interval, DueDiff(c, today, nextDayStart, days, h))
    else if forceReset || !IsReviewOrRelearn(c) then
      Max(days, 1)
    else
      Max(c.interval, 1)
  }

  /** `remove_from_filtered_deck_before_reschedule`: a card parked in a
      filtered deck goes back to its home deck and forgets the saved due. */
  function RemovedFromFilteredDeck(c: CardValue): (r: CardValue)
    ensures r.originalDeckId == 0
    ensures r.deckId == HomeDeck(c)
    ensures r.originalDue == if IsFiltered(c) then 0 else c.originalDue
    ensures IsFiltered(c) || r == c
    // nothing else about the card changes
    ensures r.(deckId := c.deckId, originalDeckId := c.originalDeckId, originalDue := c.originalDue) == c
  {
    if IsFiltered(c) then c.(deckId := c.originalDeckId, originalDeckId := 0, originalDue := 0) else c
  }

  /** `schedule_as_review`: the state after making the card a review card
      with the given interval and due day. */
  function ScheduledAsReview(c: CardValue, interval: nat, due: int, easeFactor: nat, h: Helpers): (r: CardValue)
    ensures r.ctype == CardType.Review && r.queue == CardQueue.Review
    ensures r.interval == interval && r.due == due
    ensures r.easeFactor == if c.easeFactor == 0 then easeFactor else c.easeFactor
    ensures r.originalPosition == h.lastPosition(c)
    ensures r.originalDeckId == 0 && r.deckId == HomeDeck(c)
    ensures r.originalDue == if IsFiltered(c) then 0 else c.originalDue
    // identity, memory state and review history are kept
    ensures r.id == c.id && r.noteId == c.noteId
    ensures r.memoryState == c.memoryState && r.lastReviewTime == c.lastReviewTime
  {
    RemovedFromFilteredDeck(c.(originalPosition := h.lastPosition(c)))
      .(interval := interval, due := due, ctype := CardType.Review, queue := CardQueue.Review,
        easeFactor := if c.easeFactor == 0 then easeFactor else c.easeFactor)
  }

  /** The state `set_due_date` leaves the card in, and what it means. */
  function Rescheduled(c: CardValue, today: nat, nextDayStart: int, days: nat, easeFactor: nat,
                       forceReset: bool, h: Helpers): (r: CardValue)
    requires ValidCard(c) && easeFactor <= U16_MAX && CanReschedule(c, today, nextDayStart, days, h)
    ensures ValidCard(r)
    // always a review card, due `days` after today (the day number cast to `i32`)
    ensures r.due == NewDue(today, days)
    ensures today + days <= I32_MAX ==> r.due == today + days
    ensures r.ctype == CardType.Review && r.queue == CardQueue.Review
    // out of any filtered deck, back in its home deck
    ensures r.originalDeckId == 0 && r.deckId == HomeDeck(c)
    ensures r.originalDue == if IsFiltered(c) then 0 else c.originalDue
    // the ease factor is only written while it is still unset
    ensures c.easeFactor != 0 ==> r.easeFactor == c.easeFactor
    ensures c.easeFactor == 0 ==> r.easeFactor == easeFactor
    ensures r.originalPosition == h.lastPosition(c)
    ensures r.id == c.id && r.noteId == c.noteId
    ensures r.memoryState == c.memoryState && r.lastReviewTime == c.lastReviewTime
    // legacy model: keep a review card's interval, unless asked to reset it
    ensures c.memoryState.None? ==> r.interval >= 1
    ensures c.memoryState.None? && !forceReset && IsReviewOrRelearn(c) ==> r.interval == Max(c.interval, 1)
    ensures c.memoryState.None? && (forceReset || !IsReviewOrRelearn(c)) ==> r.interval == Max(days, 1)
    // memory-state model: interval re-anchored on the last review
    ensures c.memoryState.Some? && c.lastReviewTime.Some? ==>
      r.interval == h.elapsedDaysSince(nextDayStart, c.lastReviewTime.value) % 0x1_0000_0000 + days
    ensures c.memoryState.Some? && c.lastReviewTime.None? ==>
      r.interval == SaturatingAddSigned(c.interval, DueDiff(c, today, nextDayStart, days, h))
  {
    ScheduledAsReview(c, NewInterval(c, today, nextDayStart, days, forceReset, h), NewDue(today, days), easeFactor, h)
  }

  /** With a memory state and a recorded review, the new interval spans from
      the last review to the new due day: `due - interval` is the day of the
      last review (for elapsed spans that fit `u32`). */
  lemma ElapsedAnchorsInterval(c: CardValue, today: nat, nextDayStart: int, days: nat, easeFactor: nat,
                               forceReset: bool, h: Helpers)
    requires ValidCard(c) && easeFactor <= U16_MAX && CanReschedule(c, today, nextDayStart, days, h)
    requires c.memoryState.Some? && c.lastReviewTime.Some?
    requires h.elapsedDaysSince(nextDayStart, c.lastReviewTime.value) <= U32_MAX
    requires today + days <= I32_MAX
    ensures var r := Rescheduled(c, today, nextDayStart, days, easeFactor, forceReset, h);
      r.due - r.interval == today - h.elapsedDaysSince(nextDayStart, c.lastReviewTime.value)
  {
  }

  /** With a memory state but no recorded review, the interval moves by as
      many days as the due day does, so the implied day of the last review
      (`due - interval`) stays where it was, unless the interval saturates. */
  lemma ShiftKeepsImpliedReviewDay(c: CardValue, today: nat, nextDayStart: int, days: nat, easeFactor: nat,
                                   forceReset: bool, h: Helpers)
    requires ValidCard(c) && easeFactor <= U16_MAX && CanReschedule(c, today, nextDayStart, days, h)
    requires c.memoryState.Some? && c.lastReviewTime.None?
    requires !h.isUnixEpochTimestamp(OriginalOrCurrentDue(c))
    requires 0 <= c.interval + DueDiff(c, today, nextDayStart, days, h) <= U32_MAX
    ensures var r := Rescheduled(c, today, nextDayStart, days, easeFactor, forceReset, h);
      r.due - r.interval == OriginalOrCurrentDue(c) - c.interval
  {
  }

  /** A due day beyond `i32::MAX` days is not refused: the cast wraps it
      to a negative due day, 2^32 days early. */
  lemma DueWrapsBeyondI32(c: CardValue, today: nat, nextDayStart: int, days: nat, easeFactor: nat,
                          forceReset: bool, h: Helpers)
    requires ValidCard(c) && easeFactor <= U16_MAX && CanReschedule(c, today, nextDayStart, days, h)
    requires today + days > I32_MAX
    ensures var r := Rescheduled(c, today, nextDayStart, days, easeFactor, forceReset, h);
      r.due < 0 && r.due == today + days - 0x1_0000_0000
  {
    AsI32OfLargeU32(today + days);
  }

  /** One step of a series of manual reschedules. */
  datatype Reschedule = Reschedule(today: nat, nextDayStart: int, days: nat, easeFactor: nat, forceReset: bool)

  /** The card after a series of reschedules, or `None` if a step would overflow. */
  function Series(c: CardValue, steps: seq<Reschedule>, h: Helpers): (r: Option<CardValue>)
    requires ValidCard(c)
    requires forall i | 0 <= i < |steps| :: steps[i].easeFactor <= U16_MAX
    ensures r.Some? ==> ValidCard(r.value)
    decreases |steps|
  {
    if steps == [] then Some(c)
    else
      var s := steps[0];
      if CanReschedule(c, s.today, s.nextDayStart, s.days, h) then
        Series(Rescheduled(c, s.today, s.nextDayStart, s.days, s.easeFactor, s.forceReset, h), steps[1..], h)
      else None
  }

  /** The first non-zero ease among the card's own and the steps' defaults. */
  function FirstSetEase(ease: nat, steps: seq<Reschedule>): nat
    decreases |steps|
  {
    if ease != 0 || steps == [] then ease else FirstSetEase(steps[0].easeFactor, steps[1..])
  }

  /** However many times a card is rescheduled, its ease factor is the first
      non-zero one it was given: the card's own, or else the first non-zero
      default a reschedule supplied. */
  lemma {:induction false} EaseSetOnce(c: CardValue, steps: seq<Reschedule>, h: Helpers)
    requires ValidCard(c)
    requires forall i | 0 <= i < |steps| :: steps[i].easeFactor <= U16_MAX
    requires Series(c, steps, h).Some?
    ensures Series(c, steps, h).value.easeFactor == FirstSetEase(c.easeFactor, steps)
    decreases |steps|
  {
    if steps != [] {
      var s := steps[0];
      var next := Rescheduled(c, s.today, s.nextDayStart, s.days, s.easeFactor, s.forceReset, h);
      EaseSetOnce(next, steps[1..], h);
    }
  }

  /** After a non-empty series of reschedules, the card is a review card due
      when the last step said, out of any filtered deck. */
  lemma {:induction false} SeriesEndsAsLastStepSays(c: CardValue, steps: seq<Reschedule>, h: Helpers)
    requires ValidCard(c)
    requires forall i | 0 <= i < |steps| :: steps[i].easeFactor <= U16_MAX
    requires steps != [] && Series(c, steps, h).Some?
    ensures var r := Series(c, steps, h).value;
      && r.due == NewDue(steps[|steps| - 1].today, steps[|steps| - 1].days)
      && r.ctype == CardType.Review && r.queue == CardQueue.Review
      && r.originalDeckId == 0
    decreases |steps|
  {
    var s := steps[0];
    var next := Rescheduled(c, s.today, s.nextDayStart, s.days, s.easeFactor, s.forceReset, h);
    if |steps| > 1 {
      SeriesEndsAsLastStepSays(next, steps[1..], h);
    }
  }

  /** Without a memory state and without forced resets, a review card keeps
      its interval through any series of reschedules. */
  lemma {:induction false} LegacySeriesKeepsInterval(c: CardValue, steps: seq<Reschedule>, h: Helpers)
    requires ValidCard(c) && c.memoryState.None? && IsReviewOrRelearn(c) && c.interval >= 1
    requires forall i | 0 <= i < |steps| :: steps[i].easeFactor <= U16_MAX && !steps[i].forceReset
    requires Series(c, steps, h).Some?
    ensures Series(c, steps, h).value.interval == c.interval
    decreases |steps|
  {
    if steps != [] {
      var s := steps[0];
      var next := Rescheduled(c, s.today, s.nextDayStart, s.days, s.easeFactor, s.forceReset, h);
      LegacySeriesKeepsInterval(next, steps[1..], h);
    }
  }

  /** A card, with the fields it updates in place. */
  class Card {
    var id: CardId
    var noteId: int
    var deckId: DeckId
    var originalDeckId: DeckId
    var ctype: CardType
    var queue: CardQueue
    var due: int
    var interval: nat
    var easeFactor: nat
    var originalDue: int
    var originalPosition: Option<nat>
    var memoryState: Option<MemoryState>
    var lastReviewTime: Option<int>

    /** The card's current fields as a value. */
    function Value(): CardValue
      reads this
    {
      CardValue(id, noteId, deckId, originalDeckId, ctype, queue, due, interval, easeFactor,
                originalDue, originalPosition, memoryState, lastReviewTime)
    }

    /** A working copy of a stored card (`Card::clone`). */
    constructor (v: CardValue)
      ensures Value() == v
    {
      id, noteId, deckId, originalDeckId := v.id, v.noteId, v.deckId, v.originalDeckId;
      ctype, queue, due, interval, easeFactor := v.ctype, v.queue, v.due, v.interval, v.easeFactor;
      originalDue, originalPosition := v.originalDue, v.originalPosition;
      memoryState, lastReviewTime := v.memoryState, v.lastReviewTime;
    }

    /** Make the card due in `daysFromToday` days, converting it to a review
      card; `easeFactor` (thousandths) is used only if the card has none yet. */
    method SetDueDate(today: nat, nextDayStart: int, daysFromToday: nat, easeFactor: nat, forceReset: bool, h: Helpers)
      requires ValidCard(Value()) && easeFactor <= U16_MAX
      requires CanReschedule(Value(), today, nextDayStart, daysFromToday, h)
      modifies this
      ensures Value() == Rescheduled(old(Value()), today, nextDayStart, daysFromToday, easeFactor, forceReset, h)
    {
      var newDue := AsI32(today + daysFromToday);
      var newInterval: nat;
      if memoryState.Some? {
        if lastReviewTime.Some? {
          var elapsedDays := h.elapsedDaysSince(nextDayStart, lastReviewTime.value);
          newInterval := elapsedDays % 0x1_0000_0000 + daysFromToday;
        } else {
          var due := OriginalOrCurrentDue(Value());
          var dueDiff: int;
          if h.isUnixEpochTimestamp(due) {
            var offset := TruncDiv(due - nextDayStart, SECONDS_PER_DAY);
            var dueDay := AsI32(today + offset);
            dueDiff := newDue - dueDay;
          } else {
            dueDiff := newDue - due;
          }
          newInterval := SaturatingAddSigned(interval, dueDiff);
        }
      } else if forceReset || !(ctype == CardType.Review || ctype == CardType.Relearn) {
        newInterval := Max(daysFromToday, 1);
      } else {
        newInterval := Max(interval, 1);
      }
      ScheduleAsReview(newInterval, newDue, easeFactor, h);
    }

    method ScheduleAsReview(newInterval: nat, newDue: int, newEaseFactor: nat, h: Helpers)
      modifies this
      ensures Value() == ScheduledAsReview(old(Value()), newInterval, newDue, newEaseFactor, h)
    {
      originalPosition := h.lastPosition(Value());
      RemoveFromFilteredDeckBeforeReschedule();
      interval := newInterval;
      due := newDue;
      ctype := CardType.Review;
      queue := CardQueue.Review;
      if easeFactor == 0 {
        // an ease factor that is already set is left alone
        easeFactor := newEaseFactor;
      }
    }

    method RemoveFromFilteredDeckBeforeReschedule()
      modifies this
      ensures Value() == RemovedFromFilteredDeck(old(Value()))
    {
      if originalDeckId != 0 {
        deckId := originalDeckId;
        originalDeckId := 0;
        originalDue := 0;
      }
    }
  }

  /** The rescheduling unit test, first part: a new card becomes a review
      card; later reschedules move its due day and keep its interval unless
      reset. Ease factors are given in thousandths. */
  method DueDateScenario(h: Helpers) returns (c: Card)
    ensures c.ctype == CardType.Review && c.memoryState.None?
    ensures c.due == 9 && c.interval == 3 && c.easeFactor == 1800
    ensures ValidCard(c.Value()) && fresh(c)
  {
    c := new Card(NewCard(0, 0, 0));

    // setting the due date of a new card converts it
    c.SetDueDate(5, 0, 2, 1800, false, h);
    assert c.ctype == CardType.Review && c.due == 7 && c.interval == 2 && c.easeFactor == 1800;

    // rescheduled the next day, from day 7 to day 9: the interval stays
    c.SetDueDate(6, 0, 3, 2500, false, h);
    assert c.due == 9 && c.interval == 2 && c.easeFactor == 1800;

    // brought forward again to day 7
    c.SetDueDate(6, 0, 1, 2400, false, h);
    assert c.due == 7 && c.interval == 2 && c.easeFactor == 1800;

    // a forced reset replaces the interval
    c.SetDueDate(6, 0, 3, 2300, true, h);
  }

  /** The rescheduling unit test, continued on the card the first part left:
      a card parked in a filtered deck comes out of it, and a relearning card
      is treated like a review card. */
  method DueDateScenarioFiltered(c: Card, h: Helpers)
    requires c.ctype == CardType.Review && c.memoryState.None? && ValidCard(c.Value())
    modifies c
    ensures c.due == 16 && c.interval == 2 && c.easeFactor == 2200
    ensures c.ctype == CardType.Review && c.queue == CardQueue.Review
    ensures c.originalDeckId == 0
  {
    c.interval := 2;
    c.easeFactor := 0;
    c.originalDue := 7;
    c.originalDeckId := 1;
    c.due := -10000;
    c.queue := CardQueue.New;
    c.SetDueDate(6, 0, 1, 2200, false, h);
    assert c.due == 7 && c.interval == 2 && c.easeFactor == 2200;
    assert c.queue == CardQueue.Review && c.originalDue == 0 && c.originalDeckId == 0;

    // a relearning card is treated like a review card
    c.ctype := CardType.Relearn;
    c.originalDue := c.due;
    c.due := 12345678;
    c.SetDueDate(6, 0, 10, 2100, false, h);
  }

  /** The whole rescheduling unit test, both parts on one card. */
  method DueDateTest(h: Helpers) returns (c: Card)
    ensures c.due == 16 && c.interval == 2 && c.easeFactor == 2200
    ensures c.ctype == CardType.Review && c.queue == CardQueue.Review
    ensures c.originalDeckId == 0
  {
    c := DueDateScenario(h);
    DueDateScenarioFiltered(c, h);
  }
}
