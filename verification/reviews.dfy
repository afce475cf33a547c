/** `Collection::set_due_date` and `Collection::grade_now`: rescheduling a
    batch of cards as one all-or-nothing operation, and answering a batch of
    cards with a fixed rating. */
module Reviews {
  import opened Wrappers
  import opened Errors
  import opened Decimal
  import opened DueDate
  import opened IntWidths
  import opened CardReschedule

  /** A deck, as far as rescheduling needs it: a normal deck names its
      options group, a filtered deck has none. */
  datatype Deck = Deck(configId: Option<int>)

  /** Decks and the initial ease (in thousandths) of each options group.
      Looking up a missing options group falls back to the default group,
      whose ease is `defaultInitialEase`. */
  datatype DeckStore = DeckStore(decks: map<DeckId, Deck>, configEases: map<int, nat>, defaultInitialEase: nat) {
    predicate Valid() {
      && defaultInitialEase <= U16_MAX
      && forall g | g in configEases :: configEases[g] <= U16_MAX
    }

    /** The initial ease that applies to cards whose home deck is `did`. */
    function InitialEase(did: DeckId): (r: Result<nat, AnkiError>)
      ensures did !in decks ==> r == Failure(NotFound(NotFoundError("deck", ShowInt(did), None)))
      ensures did in decks && decks[did].configId.None? ==> r == Failure(InvalidInputFrom("home deck is filtered"))
      ensures r.Success? <==> did in decks && decks[did].configId.Some?
      ensures Valid() && r.Success? ==> r.value <= U16_MAX
      // the deck's own options group, or the default one when the group is gone
      ensures r.Success? ==> var g := decks[did].configId.value;
        r.value == if g in configEases then configEases[g] else defaultInitialEase
    {
      if did !in decks then Failure(NotFound(NotFoundError("deck", ShowInt(did), None)))
      else match decks[did].configId
        case None => Failure(InvalidInputFrom("home deck is filtered"))
        case Some(g) => Success(if g in configEases then configEases[g] else defaultInitialEase)
    }
  }

  /** The kind of undoable operation a change was made under. */
  datatype Op = SetDueDate | GradeNow

  /** What an operation reports: the operation it ran under, or `None` when
      it changed nothing. */
  datatype OpOutput = OpOutput(op: Option<Op>)

  /** A review-log row written for a manual reschedule: the card, its new
      and previous interval, and the update sequence number. */
  datatype RevlogEntry = RevlogEntry(cardId: CardId, interval: nat, lastInterval: nat, usn: int)

  function ManualEntry(card: CardValue, lastInterval: nat, usn: int): RevlogEntry {
    RevlogEntry(card.id, card.interval, lastInterval, usn)
  }

  /** Card storage: every card is stored under its own id and fits its field widths. */
  predicate ValidCards(cards: map<CardId, CardValue>) {
    forall id | id in cards :: ValidCard(cards[id]) && cards[id].id == id
  }

  /** The first requested id that names no card. */
  function FirstMissing(cids: seq<CardId>, cards: map<CardId, CardValue>): (r: Option<CardId>)
    ensures r.None? <==> forall i | 0 <= i < |cids| :: cids[i] in cards
    ensures r.Some? ==> exists k | 0 <= k < |cids| :: cids[k] == r.value && cids[k] !in cards
                          && forall j | 0 <= j < k :: cids[j] in cards
    decreases |cids|
  {
    if cids == [] then None
    else if cids[0] !in cards then Some(cids[0])
    else
      var r := FirstMissing(cids[1..], cards);
      assert r.Some? ==> exists k | 0 <= k < |cids[1..]| :: cids[1..][k] == r.value && cids[1..][k] !in cards
                           && forall j | 0 <= j < k :: cids[1..][j] in cards;
      if r.Some? then
        var k :| 0 <= k < |cids[1..]| && cids[1..][k] == r.value && cids[1..][k] !in cards
                 && forall j | 0 <= j < k :: cids[1..][j] in cards;
        assert cids[k + 1] == r.value && cids[k + 1] !in cards;
        assert forall j | 0 <= j < k + 1 :: cids[j] in cards by {
          forall j | 0 <= j < k + 1 ensures cids[j] in cards {
            if j > 0 { assert cids[j] == cids[1..][j - 1]; }
          }
        }
        r
      else
        assert forall i | 0 <= i < |cids| :: cids[i] in cards by {
          forall i | 0 <= i < |cids| ensures cids[i] in cards {
            if i > 0 { assert cids[i] == cids[1..][i - 1]; }
          }
        }
        r
  }

  /** The error of the first requested card whose home deck yields no
      initial ease (missing, or filtered). */
  function DeckError(store: DeckStore, cards: map<CardId, CardValue>, cids: seq<CardId>): (r: Option<AnkiError>)
    requires forall i | 0 <= i < |cids| :: cids[i] in cards
    ensures r.Some? ==> exists i | 0 <= i < |cids| :: store.InitialEase(HomeDeck(cards[cids[i]])) == Failure(r.value)
    decreases |cids|
  {
    if cids == [] then None
    else
      var looked := store.InitialEase(HomeDeck(cards[cids[0]]));
      if looked.Failure? then Some(looked.error)
      else
        var r := DeckError(store, cards, cids[1..]);
        if r.Some? then
          var i :| 0 <= i < |cids[1..]| && store.InitialEase(HomeDeck(cards[cids[1..][i]])) == Failure(r.value);
          assert cids[1..][i] == cids[i + 1];
          r
        else r
  }

  /** The deck error reported is that of the first card whose deck fails. */
  lemma {:induction false} DeckErrorIsFirst(store: DeckStore, cards: map<CardId, CardValue>, cids: seq<CardId>, k: nat)
    requires forall i | 0 <= i < |cids| :: cids[i] in cards
    requires k < |cids| && store.InitialEase(HomeDeck(cards[cids[k]])).Failure?
    requires forall j | 0 <= j < k :: store.InitialEase(HomeDeck(cards[cids[j]])).Success?
    ensures DeckError(store, cards, cids) == Some(store.InitialEase(HomeDeck(cards[cids[k]])).error)
    decreases k
  {
    if k > 0 {
      DeckErrorIsFirst(store, cards, cids[1..], k - 1);
    }
  }

  /** No deck error is reported exactly when every card's deck yields an ease. */
  lemma {:induction false} DeckErrorNone(store: DeckStore, cards: map<CardId, CardValue>, cids: seq<CardId>)
    requires forall i | 0 <= i < |cids| :: cids[i] in cards
    ensures DeckError(store, cards, cids).None?
        <==> forall j | 0 <= j < |cids| :: store.InitialEase(HomeDeck(cards[cids[j]])).Success?
    decreases |cids|
  {
    if cids != [] {
      DeckErrorNone(store, cards, cids[1..]);
      if store.InitialEase(HomeDeck(cards[cids[0]])).Success? {
        assert forall j | 0 <= j < |cids| :: (j == 0 || cids[j] == cids[1..][j - 1]);
      }
    }
  }

  /** Every day count in `[min, max]` can be applied to every requested card
      without overflowing the card's fixed-width arithmetic. */
  predicate DaysFit(cards: map<CardId, CardValue>, cids: seq<CardId>, today: nat, nextDayAt: int,
                    spec: DueDateSpecifier, h: Helpers) {
    forall i, d | 0 <= i < |cids| && cids[i] in cards && spec.min <= d <= spec.max ::
      CanReschedule(cards[cids[i]], today, nextDayAt, d, h)
  }

  predicate Distinct(cids: seq<CardId>) {
    forall i, j | 0 <= i < j < |cids| :: cids[i] != cids[j]
  }

  /** The scheduling states offered for a card: its current state and the
      state each of the four answer buttons would lead to. */
  datatype SchedulingStates<S> = SchedulingStates(current: S, again: S, hard: S, good: S, easy: S)

  /** An answer to a card, as handed to the answering code. */
  datatype CardAnswer<S> = CardAnswer(
    cardId: CardId,
    currentState: S,
    newState: S,
    rating: int,
    millisecondsTaken: nat,
    answeredAtMillis: int,
    fromQueue: bool)

  /** The state a rating selects: 0 again, 1 hard, 2 good, 3 easy; any other
      rating is invalid input. */
  function SelectState<S>(states: SchedulingStates<S>, rating: int): (r: Result<S, AnkiError>)
    ensures r.Failure? <==> !(0 <= rating <= 3)
    ensures r.Failure? ==> r.error == InvalidInputFrom("invalid rating")
    ensures rating == 0 ==> r == Success(states.again)
    ensures rating == 1 ==> r == Success(states.hard)
    ensures rating == 2 ==> r == Success(states.good)
    ensures rating == 3 ==> r == Success(states.easy)
  {
    if rating == 0 then Success(states.again)
    else if rating == 1 then Success(states.hard)
    else if rating == 2 then Success(states.good)
    else if rating == 3 then Success(states.easy)
    else Failure(InvalidInputFrom("invalid rating"))
  }

  /** The answer `grade_now` builds: immediate (no time taken), outside the
      study queue, from the card's current state to the selected one. */
  function BuildAnswer<S>(cid: CardId, states: SchedulingStates<S>, newState: S, rating: int, now: int): (a: CardAnswer<S>)
    ensures a.cardId == cid && a.currentState == states.current && a.newState == newState
    ensures a.rating == rating && a.answeredAtMillis == now
    ensures a.millisecondsTaken == 0 && !a.fromQueue
  {
    CardAnswer(cid, states.current, newState, rating, 0, now, false)
  }

  /** The part of the collection that answering cards reads and writes. */
  datatype Snapshot = Snapshot(cards: map<CardId, CardValue>, revlog: seq<RevlogEntry>)

  /** The answering step keeps card storage well formed: the card fields
      keep their widths, as their Rust types guarantee. */
  ghost predicate KeepsCardsValid<S(!new)>(answerCard: (Snapshot, CardAnswer<S>) -> Result<Snapshot, AnkiError>) {
    forall s: Snapshot, a: CardAnswer<S> | ValidCards(s.cards) && answerCard(s, a).Success? :: ValidCards(answerCard(s, a).value.cards)
  }

  /** Answering the cards in `cids` one after another, stopping at the
      first error; `nows[i]` is the clock reading taken when card `i` is
      answered. */
  function GradeFrom<S>(snap: Snapshot, cids: seq<CardId>, rating: int, nows: seq<int>,
                        getStates: (Snapshot, CardId) -> Result<SchedulingStates<S>, AnkiError>,
                        answerCard: (Snapshot, CardAnswer<S>) -> Result<Snapshot, AnkiError>): (r: Result<Snapshot, AnkiError>)
    requires |nows| == |cids|
    ensures cids == [] ==> r == Success(snap)
    ensures cids != [] && !(0 <= rating <= 3) ==> r.Failure?
    ensures cids != [] && getStates(snap, cids[0]).Failure? ==> r == Failure(getStates(snap, cids[0]).error)
    decreases |cids|
  {
    if cids == [] then Success(snap)
    else
      var states :- getStates(snap, cids[0]);
      var newState :- SelectState(states, rating);
      var next :- answerCard(snap, BuildAnswer(cids[0], states, newState, rating, nows[0]));
      GradeFrom(next, cids[1..], rating, nows[1..], getStates, answerCard)
  }

  /** Grading a batch in two parts is grading the first part and then the
      second, from where the first left off. */
  lemma {:induction false} GradeFromAppend<S>(snap: Snapshot, xs: seq<CardId>, ys: seq<CardId>, rating: int,
                                               nowsX: seq<int>, nowsY: seq<int>,
                                               getStates: (Snapshot, CardId) -> Result<SchedulingStates<S>, AnkiError>,
                                               answerCard: (Snapshot, CardAnswer<S>) -> Result<Snapshot, AnkiError>)
    requires |nowsX| == |xs| && |nowsY| == |ys|
    ensures GradeFrom(snap, xs + ys, rating, nowsX + nowsY, getStates, answerCard)
         == match GradeFrom(snap, xs, rating, nowsX, getStates, answerCard)
            case Failure(e) => Failure(e)
            case Success(mid) => GradeFrom(mid, ys, rating, nowsY, getStates, answerCard)
    decreases |xs|
  {
    if xs == [] {
      assert xs + ys == ys && nowsX + nowsY == nowsY;
    } else {
      assert (xs + ys)[0] == xs[0] && (xs + ys)[1..] == xs[1..] + ys;
      assert (nowsX + nowsY)[0] == nowsX[0] && (nowsX + nowsY)[1..] == nowsX[1..] + nowsY;
      var states := getStates(snap, xs[0]);
      if states.Success? {
        var newState := SelectState(states.value, rating);
        if newState.Success? {
          var next := answerCard(snap, BuildAnswer(xs[0], states.value, newState.value, rating, nowsX[0]));
          if next.Success? {
            GradeFromAppend(next.value, xs[1..], ys, rating, nowsX[1..], nowsY, getStates, answerCard);
          }
        }
      }
    }
  }

  /** An out-of-range rating fails the first card of a non-empty batch,
      after its scheduling states were read; an empty batch succeeds
      whatever the rating. */
  lemma GradeInvalidRating<S>(snap: Snapshot, cids: seq<CardId>, rating: int, nows: seq<int>,
                              getStates: (Snapshot, CardId) -> Result<SchedulingStates<S>, AnkiError>,
                              answerCard: (Snapshot, CardAnswer<S>) -> Result<Snapshot, AnkiError>)
    requires !(0 <= rating <= 3) && |nows| == |cids|
    ensures cids == [] ==> GradeFrom(snap, cids, rating, nows, getStates, answerCard) == Success(snap)
    ensures cids != [] ==>
      GradeFrom(snap, cids, rating, nows, getStates, answerCard)
        == if getStates(snap, cids[0]).Failure? then Failure(getStates(snap, cids[0]).error)
           else Failure(InvalidInputFrom("invalid rating"))
  {
  }

  /** Grading keeps card storage well formed when each answer does. */
  lemma {:induction false} GradeFromKeepsValid<S(!new)>(snap: Snapshot, cids: seq<CardId>, rating: int, nows: seq<int>,
                                                       getStates: (Snapshot, CardId) -> Result<SchedulingStates<S>, AnkiError>,
                                                       answerCard: (Snapshot, CardAnswer<S>) -> Result<Snapshot, AnkiError>)
    requires |nows| == |cids| && ValidCards(snap.cards) && KeepsCardsValid(answerCard)
    ensures var g := GradeFrom(snap, cids, rating, nows, getStates, answerCard);
      g.Success? ==> ValidCards(g.value.cards)
    decreases |cids|
  {
    if cids != [] {
      var states := getStates(snap, cids[0]);
      if states.Success? {
        var newState := SelectState(states.value, rating);
        if newState.Success? {
          var next := answerCard(snap, BuildAnswer(cids[0], states.value, newState.value, rating, nows[0]));
          if next.Success? {
            GradeFromKeepsValid(next.value, cids[1..], rating, nows[1..], getStates, answerCard);
          }
        }
      }
    }
  }

  /** What a rescheduling run reads besides the cards: the decks, the parsed
      specifier, the scheduler day, the update sequence number and the
      scheduling helpers. */
  datatype Plan = Plan(store: DeckStore, spec: DueDateSpecifier, today: nat, nextDayAt: int, usn: int, h: Helpers)

  /** The initial ease for a card: that of its home deck. */
  function EaseFor(p: Plan, card: CardValue): Result<nat, AnkiError> {
    p.store.InitialEase(HomeDeck(card))
  }

  /** Card `cid` exists, its home deck yields an ease, and it can be set due
      in `days` days, a count within the specifier's range. */
  predicate CanApply(p: Plan, before: map<CardId, CardValue>, cid: CardId, days: nat) {
    && cid in before && ValidCard(before[cid])
    && p.spec.min <= days <= p.spec.max
    && EaseFor(p, before[cid]).Success? && EaseFor(p, before[cid]).value <= U16_MAX
    && CanReschedule(before[cid], p.today, p.nextDayAt, days, p.h)
  }

  /** Card `cid` set due in `days` days with its home deck's initial ease. */
  function Apply(p: Plan, before: map<CardId, CardValue>, cid: CardId, days: nat): CardValue
    requires CanApply(p, before, cid, days)
  {
    Rescheduled(before[cid], p.today, p.nextDayAt, days, EaseFor(p, before[cid]).value, p.spec.forceReset, p.h)
  }

  predicate AllApplicable(p: Plan, before: map<CardId, CardValue>, cids: seq<CardId>, offsets: seq<nat>) {
    |offsets| == |cids| && forall i | 0 <= i < |cids| :: CanApply(p, before, cids[i], offsets[i])
  }

  /** Each requested card set due by its day count, every other card untouched. */
  predicate CardsRescheduled(p: Plan, before: map<CardId, CardValue>, after: map<CardId, CardValue>,
                             cids: seq<CardId>, offsets: seq<nat>)
    requires AllApplicable(p, before, cids, offsets)
  {
    && after.Keys == before.Keys
    && (forall i | 0 <= i < |cids| :: after[cids[i]] == Apply(p, before, cids[i], offsets[i]))
    && (forall id | id in before && id !in cids :: after[id] == before[id])
  }

  /** One review-log row per requested card appended, in request order. */
  predicate LogAppended(p: Plan, before: map<CardId, CardValue>, after: map<CardId, CardValue>,
                        logBefore: seq<RevlogEntry>, logAfter: seq<RevlogEntry>, cids: seq<CardId>)
    requires forall i | 0 <= i < |cids| :: cids[i] in before && cids[i] in after
  {
    && |logAfter| == |logBefore| + |cids|
    && logAfter[..|logBefore|] == logBefore
    && forall i | 0 <= i < |cids| ::
         logAfter[|logBefore| + i] == ManualEntry(after[cids[i]], before[cids[i]].interval, p.usn)
  }

  /** The outcome of rescheduling `cids` from `before` to `after` with the
      day counts `offsets`. */
  predicate Rescheduling(p: Plan, before: map<CardId, CardValue>, after: map<CardId, CardValue>,
                         logBefore: seq<RevlogEntry>, logAfter: seq<RevlogEntry>, cids: seq<CardId>,
                         offsets: seq<nat>)
  {
    && AllApplicable(p, before, cids, offsets)
    && CardsRescheduled(p, before, after, cids, offsets)
    && LogAppended(p, before, after, logBefore, logAfter, cids)
  }

  lemma ApplicableExtend(p: Plan, before: map<CardId, CardValue>, cids: seq<CardId>, offsets: seq<nat>, k: nat, d: nat)
    requires k < |cids| && AllApplicable(p, before, cids[..k], offsets) && CanApply(p, before, cids[k], d)
    ensures AllApplicable(p, before, cids[..k + 1], offsets + [d])
  {
    assert forall i | 0 <= i < k :: cids[..k + 1][i] == cids[..k][i];
  }

  lemma CardsExtend(p: Plan, before: map<CardId, CardValue>, after: map<CardId, CardValue>,
                    cids: seq<CardId>, offsets: seq<nat>, k: nat, d: nat)
    requires k < |cids| && Distinct(cids)
    requires AllApplicable(p, before, cids[..k], offsets) && AllApplicable(p, before, cids[..k + 1], offsets + [d])
    requires CardsRescheduled(p, before, after, cids[..k], offsets)
    ensures CardsRescheduled(p, before, after[cids[k] := Apply(p, before, cids[k], d)], cids[..k + 1], offsets + [d])
  {
    var ids := cids[..k + 1];
    assert forall i | 0 <= i < k :: ids[i] == cids[..k][i] && ids[i] != cids[k];
  }

  lemma LogExtend(p: Plan, before: map<CardId, CardValue>, after: map<CardId, CardValue>,
                  logBefore: seq<RevlogEntry>, logAfter: seq<RevlogEntry>, cids: seq<CardId>, k: nat, updated: CardValue)
    requires k < |cids| && Distinct(cids)
    requires forall i | 0 <= i <= k :: cids[i] in before && cids[i] in after
    requires LogAppended(p, before, after, logBefore, logAfter, cids[..k])
    ensures LogAppended(p, before, after[cids[k] := updated], logBefore,
                        logAfter + [ManualEntry(updated, before[cids[k]].interval, p.usn)], cids[..k + 1])
  {
    var ids := cids[..k + 1];
    assert forall i | 0 <= i < k :: ids[i] == cids[..k][i] && ids[i] != cids[k];
    var logAfter' := logAfter + [ManualEntry(updated, before[cids[k]].interval, p.usn)];
    assert logAfter'[..|logBefore|] == logBefore;
  }

  /** Rescheduling keeps the card storage well formed. */
  lemma RescheduledCardsValid(p: Plan, before: map<CardId, CardValue>, after: map<CardId, CardValue>,
                              cids: seq<CardId>, offsets: seq<nat>)
    requires ValidCards(before) && AllApplicable(p, before, cids, offsets)
    requires CardsRescheduled(p, before, after, cids, offsets)
    ensures ValidCards(after)
  {
    forall id | id in after
      ensures ValidCard(after[id]) && after[id].id == id
    {
      if id in cids {
        var i :| 0 <= i < |cids| && cids[i] == id;
        assert after[id] == Apply(p, before, cids[i], offsets[i]);
      }
    }
  }

  /** Every rescheduled card is a review card due within the requested range
      of days from today, back in its home deck (for day numbers that fit
      `i32`; beyond that the due day wraps, see `DueWrapsBeyondI32`). */
  lemma RescheduledWithinRange(p: Plan, before: map<CardId, CardValue>, after: map<CardId, CardValue>,
                               cids: seq<CardId>, offsets: seq<nat>)
    requires AllApplicable(p, before, cids, offsets)
    requires CardsRescheduled(p, before, after, cids, offsets)
    requires p.today + p.spec.max <= I32_MAX
    ensures forall i | 0 <= i < |cids| ::
      && p.today + p.spec.min <= after[cids[i]].due <= p.today + p.spec.max
      && after[cids[i]].ctype == CardType.Review && after[cids[i]].queue == CardQueue.Review
      && after[cids[i]].deckId == HomeDeck(before[cids[i]]) && after[cids[i]].originalDeckId == 0
  {
  }

  /** The rescheduling transaction, from `before` to `after`: it fails
      naming the first requested card that does not exist, or else with the
      first deck error, changing nothing; otherwise every requested card is
      rescheduled, logged, and `days` is stored under the `context` key. */
  predicate Transacted(p: Plan, cids: seq<CardId>, days: string, context: Option<string>,
                       before: Snapshot, after: Snapshot, configBefore: map<string, string>,
                       configAfter: map<string, string>, offsets: seq<nat>, r: Result<OpOutput, AnkiError>)
    // all or nothing: a failed transaction leaves cards, log and configuration as they were
    ensures Transacted(p, cids, days, context, before, after, configBefore, configAfter, offsets, r) && r.Failure? ==>
      after == before && configAfter == configBefore
    // it succeeds exactly when every card exists and every home deck yields an ease
    ensures Transacted(p, cids, days, context, before, after, configBefore, configAfter, offsets, r) ==>
      (r.Success? <==> FirstMissing(cids, before.cards).None? && DeckError(p.store, before.cards, cids).None?)
  {
    match FirstMissing(cids, before.cards)
    case Some(id) =>
      r == Failure(NotFound(NotFoundError("card", ShowInt(id), None))) && after == before && configAfter == configBefore
    case None =>
      match DeckError(p.store, before.cards, cids)
      case Some(e) => r == Failure(e) && after == before && configAfter == configBefore
      case None =>
        && r == Success(OpOutput(Some(Op.SetDueDate)))
        && Rescheduling(p, before.cards, after.cards, before.revlog, after.revlog, cids, offsets)
        && configAfter == if context.Some? then configBefore[context.value := days] else configBefore
  }

  /** Rescheduling one more card extends the outcome by that card. */
  lemma ReschedulingStep(p: Plan, before: map<CardId, CardValue>, after: map<CardId, CardValue>,
                         logBefore: seq<RevlogEntry>, logAfter: seq<RevlogEntry>, cids: seq<CardId>, k: nat,
                         offsets: seq<nat>, d: nat, updated: CardValue)
    requires k < |cids| && Distinct(cids)
    requires Rescheduling(p, before, after, logBefore, logAfter, cids[..k], offsets)
    requires CanApply(p, before, cids[k], d) && updated == Apply(p, before, cids[k], d)
    ensures Rescheduling(p, before, after[cids[k] := updated], logBefore,
                         logAfter + [ManualEntry(updated, before[cids[k]].interval, p.usn)], cids[..k + 1], offsets + [d])
  {
    ApplicableExtend(p, before, cids, offsets, k, d);
    CardsExtend(p, before, after, cids, offsets, k, d);
    LogExtend(p, before, after, logBefore, logAfter, cids, k, updated);
  }

  /** The initial ease of deck `did`, looked up once per deck: `cache`
      holds the eases of the decks already seen, and the deck's options are
      fetched (`fetched`) only when it is not among them. */
  method CachedInitialEase(store: DeckStore, cache: map<DeckId, nat>, did: DeckId)
    returns (r: Result<nat, AnkiError>, cache': map<DeckId, nat>, ghost fetched: bool)
    requires forall d | d in cache :: store.InitialEase(d) == Success(cache[d])
    ensures r == store.InitialEase(did)
    ensures forall d | d in cache' :: store.InitialEase(d) == Success(cache'[d])
    ensures cache' == if r.Success? then cache[did := r.value] else cache
    ensures fetched <==> did !in cache
  {
    if did in cache {
      return Success(cache[did]), cache, false;
    }
    r := store.InitialEase(did);
    cache' := if r.Success? then cache[did := r.value] else cache;
    fetched := true;
  }

  /** The home decks of the first `k` requested cards. */
  function HomeDecks(cards: map<CardId, CardValue>, cids: seq<CardId>, k: nat): set<DeckId>
    requires k <= |cids| && forall i | 0 <= i < |cids| :: cids[i] in cards
  {
    set j | 0 <= j < k :: HomeDeck(cards[cids[j]])
  }

  lemma {:induction false} SubsetCardinality<T>(a: set<T>, b: set<T>)
    requires a <= b
    ensures |a| <= |b|
    decreases a
  {
    if a != {} {
      var x :| x in a;
      SubsetCardinality(a - {x}, b - {x});
    }
  }

  /** After the first `k` cards, the cache holds exactly their home decks,
      each fetched once. */
  predicate LookupsCounted(cards: map<CardId, CardValue>, cids: seq<CardId>, k: nat,
                           cache: map<DeckId, nat>, lookups: nat)
    requires k <= |cids| && forall i | 0 <= i < |cids| :: cids[i] in cards
  {
    cache.Keys == HomeDecks(cards, cids, k) && lookups == |cache|
  }

  /** One more card adds its home deck to the decks seen. */
  lemma HomeDecksStep(cards: map<CardId, CardValue>, cids: seq<CardId>, k: nat)
    requires k < |cids| && forall i | 0 <= i < |cids| :: cids[i] in cards
    ensures HomeDecks(cards, cids, k + 1) == HomeDecks(cards, cids, k) + {HomeDeck(cards[cids[k]])}
  {
    var did := HomeDeck(cards[cids[k]]);
    var seen, seen' := HomeDecks(cards, cids, k), HomeDecks(cards, cids, k + 1);
    forall x | x in seen' ensures x in seen + {did} {
      var j :| 0 <= j < k + 1 && x == HomeDeck(cards[cids[j]]);
      if j < k { assert x in seen; }
    }
    forall x | x in seen ensures x in seen' {
      var j :| 0 <= j < k && x == HomeDeck(cards[cids[j]]);
      assert 0 <= j < k + 1;
    }
  }

  /** A prefix of the request has no more home decks than the whole request. */
  lemma HomeDecksBound(cards: map<CardId, CardValue>, cids: seq<CardId>, k: nat)
    requires k <= |cids| && forall i | 0 <= i < |cids| :: cids[i] in cards
    ensures |HomeDecks(cards, cids, k)| <= |HomeDecks(cards, cids, |cids|)|
  {
    SubsetCardinality(HomeDecks(cards, cids, k), HomeDecks(cards, cids, |cids|));
  }

  /** Looking up the home deck of card `k` through the cache keeps the count:
      on success the cache holds the home decks of one more card, and in any
      case no more fetches were made than the request has home decks. */
  lemma LookupStep(cards: map<CardId, CardValue>, cids: seq<CardId>, k: nat,
                   cache: map<DeckId, nat>, cache': map<DeckId, nat>, looked: Result<nat, AnkiError>,
                   fetched: bool, lookups: nat)
    requires k < |cids| && forall i | 0 <= i < |cids| :: cids[i] in cards
    requires LookupsCounted(cards, cids, k, cache, lookups)
    requires cache' == if looked.Success? then cache[HomeDeck(cards[cids[k]]) := looked.value] else cache
    requires fetched <==> HomeDeck(cards[cids[k]]) !in cache
    ensures looked.Success? ==> LookupsCounted(cards, cids, k + 1, cache', lookups + if fetched then 1 else 0)
    ensures lookups + (if fetched then 1 else 0) <= |HomeDecks(cards, cids, |cids|)|
  {
    HomeDecksStep(cards, cids, k);
    HomeDecksBound(cards, cids, k + 1);
    var seen, seen' := HomeDecks(cards, cids, k), HomeDecks(cards, cids, k + 1);
    assert |cache.Keys| == |cache|;
    if looked.Success? {
      assert cache'.Keys == seen';
      assert |cache'.Keys| == |cache'|;
    }
    if !fetched {
      assert seen' == seen;
    }
  }

  /** One step of the rescheduling loop: a working copy of `card` set due a
      day count drawn from the specifier's range (returned in `days`). */
  method RescheduleWithin(card: CardValue, spec: DueDateSpecifier, today: nat, nextDayAt: int, ease: nat, h: Helpers)
    returns (updated: CardValue, days: nat)
    requires ValidCard(card) && ease <= U16_MAX
    requires forall d | spec.min <= d <= spec.max :: CanReschedule(card, today, nextDayAt, d, h)
    requires spec.min <= spec.max
    ensures spec.min <= days <= spec.max
    ensures updated == Rescheduled(card, today, nextDayAt, days, ease, spec.forceReset, h)
  {
    var d: nat :| spec.min <= d <= spec.max;
    var working := new Card(card);
    working.SetDueDate(today, nextDayAt, d, ease, spec.forceReset, h);
    updated, days := working.Value(), d;
  }

  /** The state of the rescheduling loop after the first `k` requested
      cards: all of them rescheduled and logged, their home decks' eases
      cached, each fetched once. */
  predicate Progress(p: Plan, cards: map<CardId, CardValue>, revlog: seq<RevlogEntry>, cids: seq<CardId>, k: nat,
                     newCards: map<CardId, CardValue>, newLog: seq<RevlogEntry>, offsets: seq<nat>,
                     eases: map<DeckId, nat>, lookups: nat)
  {
    && k <= |cids| && (forall i | 0 <= i < |cids| :: cids[i] in cards)
    && (forall d | d in eases :: p.store.InitialEase(d) == Success(eases[d]))
    && (forall j | 0 <= j < k :: p.store.InitialEase(HomeDeck(cards[cids[j]])).Success?)
    && Rescheduling(p, cards, newCards, revlog, newLog, cids[..k], offsets)
    && LookupsCounted(cards, cids, k, eases, lookups)
  }

  /** One turn of the rescheduling loop: look up the home deck's ease of
      card `k` (through the cache) and, when there is one, reschedule the
      card and log it. */
  method RescheduleNext(p: Plan, cards: map<CardId, CardValue>, revlog: seq<RevlogEntry>, cids: seq<CardId>, k: nat,
                        newCards: map<CardId, CardValue>, newLog: seq<RevlogEntry>, ghost offsets: seq<nat>,
                        eases: map<DeckId, nat>, ghost lookups: nat)
    returns (looked: Result<nat, AnkiError>, newCards': map<CardId, CardValue>, newLog': seq<RevlogEntry>,
             ghost offsets': seq<nat>, eases': map<DeckId, nat>, ghost lookups': nat)
    requires Progress(p, cards, revlog, cids, k, newCards, newLog, offsets, eases, lookups) && k < |cids|
    requires Distinct(cids) && ValidCards(cards) && p.store.Valid() && p.spec.min <= p.spec.max
    requires DaysFit(cards, cids, p.today, p.nextDayAt, p.spec, p.h)
    ensures looked == p.store.InitialEase(HomeDeck(cards[cids[k]]))
    ensures looked.Failure? ==> lookups' <= |HomeDecks(cards, cids, |cids|)|
    ensures looked.Success? ==> Progress(p, cards, revlog, cids, k + 1, newCards', newLog', offsets', eases', lookups')
  {
    var card := cards[cids[k]];
    ghost var fetched;
    looked, eases', fetched := CachedInitialEase(p.store, eases, HomeDeck(card));
    LookupStep(cards, cids, k, eases, eases', looked, fetched, lookups);
    lookups' := lookups + if fetched then 1 else 0;
    newCards', newLog', offsets' := newCards, newLog, offsets;
    if looked.Failure? {
      return;
    }
    assert ValidCard(card);
    assert forall d | p.spec.min <= d <= p.spec.max :: CanReschedule(card, p.today, p.nextDayAt, d, p.h);
    var updated, d := RescheduleWithin(card, p.spec, p.today, p.nextDayAt, looked.value, p.h);
    ReschedulingStep(p, cards, newCards, revlog, newLog, cids, k, offsets, d, updated);
    newLog' := newLog + [ManualEntry(updated, card.interval, p.usn)];
    newCards' := newCards[cids[k] := updated];
    offsets' := offsets + [d];
  }

  /** A collection: its cards, decks and review log, the configuration
      strings, and the day the scheduler is on. */
  class Collection {
    var cards: map<CardId, CardValue>
    var deckStore: DeckStore
    var revlog: seq<RevlogEntry>
    var config: map<string, string>
    var usn: int
    /** Days elapsed since the collection was created. */
    var today: nat
    /** When the next scheduler day starts, in seconds since the epoch. */
    var nextDayAt: int

    predicate Valid()
      reads this
    {
      ValidCards(cards) && deckStore.Valid()
    }

    /** The body of the rescheduling transaction: every requested card
        rescheduled with its home deck's initial ease, and a review-log row
        written for each, computed without committing anything. Fails with
        the first card whose home deck has no options. Each home deck's
        options are fetched at most once (`lookups` counts the fetches). */
    method RescheduleAll(cids: seq<CardId>, spec: DueDateSpecifier, h: Helpers)
      returns (r: Result<(map<CardId, CardValue>, seq<RevlogEntry>), AnkiError>, ghost offsets: seq<nat>,
               ghost lookups: nat)
      requires Valid() && Distinct(cids) && spec.min <= spec.max
      requires forall i | 0 <= i < |cids| :: cids[i] in cards
      requires DaysFit(cards, cids, today, nextDayAt, spec, h)
      ensures r.Failure? <==> DeckError(deckStore, cards, cids).Some?
      ensures r.Failure? ==> r.error == DeckError(deckStore, cards, cids).value
      ensures r.Success? ==>
        && Rescheduling(Plan(deckStore, spec, today, nextDayAt, usn, h), cards, r.value.0, revlog, r.value.1, cids, offsets)
        && ValidCards(r.value.0)
      ensures lookups <= |HomeDecks(cards, cids, |cids|)|
    {
      var p := Plan(deckStore, spec, today, nextDayAt, usn, h);
      offsets, lookups := [], 0;
      // the initial ease of each home deck seen so far
      var eases: map<DeckId, nat> := map[];
      var newCards := cards;
      var newLog := revlog;
      var i := 0;
      while i < |cids|
        invariant Progress(p, cards, revlog, cids, i, newCards, newLog, offsets, eases, lookups)
      {
        var looked;
        looked, newCards, newLog, offsets, eases, lookups :=
          RescheduleNext(p, cards, revlog, cids, i, newCards, newLog, offsets, eases, lookups);
        if looked.Failure? {
          DeckErrorIsFirst(deckStore, cards, cids, i);
          return Failure(looked.error), offsets, lookups;
        }
        i := i + 1;
      }
      assert cids[..i] == cids;
      DeckErrorNone(deckStore, cards, cids);
      RescheduledCardsValid(p, cards, newCards, cids, offsets);
      return Success((newCards, newLog)), offsets, lookups;
    }

    /** Reschedule the cards `cids` to a day chosen at random within the
        range `days` specifies, as one transaction. The chosen day counts
        are returned in `offsets`. When `context` names a configuration
        key, `days` is remembered under it. */
    method SetDueDate(cids: seq<CardId>, days: string, context: Option<string>, h: Helpers)
      returns (r: Result<OpOutput, AnkiError>, ghost offsets: seq<nat>)
      requires Valid() && Distinct(cids)
      requires ParseDueDateStr(days).Success? ==> DaysFit(cards, cids, today, nextDayAt, ParseDueDateStr(days).value, h)
      modifies this
      ensures Valid()
      ensures deckStore == old(deckStore) && usn == old(usn) && today == old(today) && nextDayAt == old(nextDayAt)
      ensures match ParseDueDateStr(days)
        case Failure(e) => r == Failure(e) && unchanged(this)
        case Success(spec) =>
          if cids == [] then r == Success(OpOutput(None)) && unchanged(this)
          else Transacted(Plan(deckStore, spec, today, nextDayAt, usn, h), cids, days, context,
                          old(Snapshot(cards, revlog)), Snapshot(cards, revlog), old(config), config, offsets, r)
    {
      offsets := [];
      var parsed := ParseDueDateStr(days);
      if parsed.Failure? {
        return Failure(parsed.error), offsets;
      }
      var spec := parsed.value;
      if cids == [] {
        return Success(OpOutput(None)), offsets;
      }
      r, offsets := Transact(cids, spec, days, context, h);
    }

    /** The transaction of `SetDueDate`, for a parsed specifier. */
    method Transact(cids: seq<CardId>, spec: DueDateSpecifier, days: string, context: Option<string>, h: Helpers)
      returns (r: Result<OpOutput, AnkiError>, ghost offsets: seq<nat>)
      requires Valid() && Distinct(cids) && spec.min <= spec.max
      requires DaysFit(cards, cids, today, nextDayAt, spec, h)
      modifies this
      ensures Valid()
      ensures deckStore == old(deckStore) && usn == old(usn) && today == old(today) && nextDayAt == old(nextDayAt)
      ensures Transacted(Plan(deckStore, spec, today, nextDayAt, usn, h), cids, days, context,
                         old(Snapshot(cards, revlog)), Snapshot(cards, revlog), old(config), config, offsets, r)
    {
      offsets := [];
      var missing := FirstMissing(cids, cards);
      if missing.Some? {
        return Failure(NotFound(NotFoundError("card", ShowInt(missing.value), None))), offsets;
      }
      var result;
      ghost var lookups;
      result, offsets, lookups := RescheduleAll(cids, spec, h);
      if result.Failure? {
        return Failure(result.error), offsets;
      }
      cards, revlog := result.value.0, result.value.1;
      if context.Some? {
        config := config[context.value := days];
      }
      return Success(OpOutput(Some(Op.SetDueDate))), offsets;
    }

    /** Answer each of the cards `cids` with `rating`, as one transaction.
        Reading a card's scheduling states and answering it are done by
        `getStates` and `answerCard`; the clock is read once per card, and
        `nows[i]` is its reading, in milliseconds, for card `i`. */
    method GradeNow<S(!new)>(cids: seq<CardId>, rating: int, nows: seq<int>,
                       getStates: (Snapshot, CardId) -> Result<SchedulingStates<S>, AnkiError>,
                       answerCard: (Snapshot, CardAnswer<S>) -> Result<Snapshot, AnkiError>)
      returns (r: Result<OpOutput, AnkiError>)
      requires Valid() && |nows| == |cids|
      requires KeepsCardsValid(answerCard)
      modifies this
      ensures Valid()
      ensures deckStore == old(deckStore) && config == old(config) && usn == old(usn)
      ensures today == old(today) && nextDayAt == old(nextDayAt)
      ensures var g := GradeFrom(old(Snapshot(cards, revlog)), cids, rating, nows, getStates, answerCard);
        match g
        case Success(after) => r == Success(OpOutput(Some(Op.GradeNow))) && Snapshot(cards, revlog) == after
        case Failure(e) => r == Failure(e) && cards == old(cards) && revlog == old(revlog)
    {
      var snap := Snapshot(cards, revlog);
      var i := 0;
      while i < |cids|
        invariant 0 <= i <= |cids|
        invariant GradeFrom(old(Snapshot(cards, revlog)), cids, rating, nows, getStates, answerCard)
               == GradeFrom(snap, cids[i..], rating, nows[i..], getStates, answerCard)
        invariant cards == old(cards) && revlog == old(revlog)
        invariant ValidCards(snap.cards)
      {
        var cid := cids[i];
        var states := getStates(snap, cid);
        if states.Failure? {
          return Failure(states.error);
        }
        var newState := SelectState(states.value, rating);
        if newState.Failure? {
          return Failure(newState.error);
        }
        var answer := BuildAnswer(cid, states.value, newState.value, rating, nows[i]);
        var next := answerCard(snap, answer);
        if next.Failure? {
          return Failure(next.error);
        }
        assert cids[i..][1..] == cids[i + 1..] && nows[i..][1..] == nows[i + 1..];
        snap := next.value;
        i := i + 1;
      }
      cards, revlog := snap.cards, snap.revlog;
      return Success(OpOutput(Some(Op.GradeNow)));
    }
  }
}
