/** The engine's error taxonomy (`AnkiError`) with its machine-readable
    codes, the context and backtrace accessors, the help-page lookup and the
    conversions from library errors. Wrapped library errors whose structure
    the model does not look into (file I/O, database, network, sync, filtered
    deck, search, custom study, import) carry their display text only. */
module Errors {
  import opened Wrappers

  /** `InvalidInputError`: a message, the display text of an optional
      wrapped cause, and an optional captured backtrace. */
  datatype InvalidInputError = InvalidInputError(message: string, source: Option<string>, backtrace: Option<string>)
  {
    /** The wrapped cause's text, or nothing when there is none. */
    function Context(): string {
      match source
      case Some(text) => text
      case None => ""
    }
  }

  /** `NotFoundError`: which kind of entity was missing and its identifier. */
  datatype NotFoundError = NotFoundError(typeName: string, identifier: string, backtrace: Option<string>)
  {
    function Context(): string {
      "No such " + typeName + ": '" + identifier + "'"
    }
  }

  datatype CardTypeErrorDetails =
    | TemplateParseError
    | Duplicate(index: nat)
    | NoFrontField
    | NoSuchField(field: string)
    | MissingCloze

  /** The `CardTypeError` struct: which template of which notetype is broken, and how. */
  datatype CardTypeProblem = CardTypeProblem(notetype: string, ordinal: nat, details: CardTypeErrorDetails)

  /** The manual pages an error can point to (only the ones `help_page` uses). */
  datatype HelpPage =
    | CardTypeTemplateError
    | CardTypeDuplicate
    | CardTypeNoFrontField
    | CardTypeMissingCloze

  datatype AnkiError =
    | InvalidInput(invalidInput: InvalidInputError)
    | TemplateError(info: string)
    | CardTypeError(cardType: CardTypeProblem)
    | FileIoError(detail: string)
    | DbError(detail: string)
    | NetworkError(detail: string)
    | SyncError(detail: string)
    | JsonError(info: string)
    | ProtoError(info: string)
    | ParseNumError
    | Interrupted
    | CollectionNotOpen
    | CollectionAlreadyOpen
    | NotFound(notFound: NotFoundError)
    | Deleted
    | Existing
    | FilteredDeckError(detail: string)
    | SearchError(detail: string)
    | InvalidRegex(info: string)
    | UndoEmpty
    | MultipleNotetypesSelected
    | DatabaseCheckRequired
    | MediaCheckRequired
    | CustomStudyError(detail: string)
    | ImportError(detail: string)
    | InvalidId
    | InvalidMethodIndex
    | InvalidServiceIndex
    | FsrsParamsInvalid
    | FsrsInsufficientData
    | FsrsInsufficientReviews(count: nat)
    | FsrsUnableToDetermineDesiredRetention
    | SchedulerUpgradeRequired
    | InvalidCertificateFormat

  /** `AnkiError::invalid_input(message)`: an invalid-input error with no cause. */
  function InvalidInputFrom(message: string): (e: AnkiError)
    ensures e.InvalidInput? && e.invalidInput.message == message
    ensures Code(e) == "invalid_input" && Context(e) == ""
  {
    InvalidInput(InvalidInputError(message, None, None))
  }

  /** The stable machine-readable code of each kind of error. */
  function Code(e: AnkiError): string {
    match e
    case InvalidInput(_) => "invalid_input"
    case TemplateError(_) => "template_error"
    case CardTypeError(_) => "card_type_error"
    case FileIoError(_) => "file_io_error"
    case DbError(_) => "db_error"
    case NetworkError(_) => "network_error"
    case SyncError(_) => "sync_error"
    case JsonError(_) => "json_error"
    case ProtoError(_) => "proto_error"
    case ParseNumError => "parse_num_error"
    case Interrupted => "interrupted"
    case CollectionNotOpen => "collection_not_open"
    case CollectionAlreadyOpen => "collection_already_open"
    case NotFound(_) => "not_found"
    case Deleted => "deleted"
    case Existing => "existing"
    case FilteredDeckError(_) => "filtered_deck_error"
    case SearchError(_) => "search_error"
    case InvalidRegex(_) => "invalid_regex"
    case UndoEmpty => "undo_empty"
    case MultipleNotetypesSelected => "multiple_notetypes_selected"
    case DatabaseCheckRequired => "database_check_required"
    case MediaCheckRequired => "media_check_required"
    case CustomStudyError(_) => "custom_study_error"
    case ImportError(_) => "import_error"
    case InvalidId => "invalid_id"
    case InvalidMethodIndex => "invalid_method_index"
    case InvalidServiceIndex => "invalid_service_index"
    case FsrsParamsInvalid => "fsrs_params_invalid"
    case FsrsInsufficientData => "fsrs_insufficient_data"
    case FsrsInsufficientReviews(_) => "fsrs_insufficient_reviews"
    case FsrsUnableToDetermineDesiredRetention => "fsrs_unable_to_determine_desired_retention"
    case SchedulerUpgradeRequired => "scheduler_upgrade_required"
    case InvalidCertificateFormat => "invalid_certificate_format"
  }

  /** The position of a variant in the declaration of `AnkiError`:
      two errors have the same ordinal exactly when they are the same kind. */
  function Ordinal(e: AnkiError): nat {
    match e
    case InvalidInput(_) => 0
    case TemplateError(_) => 1
    case CardTypeError(_) => 2
    case FileIoError(_) => 3
    case DbError(_) => 4
    case NetworkError(_) => 5
    case SyncError(_) => 6
    case JsonError(_) => 7
    case ProtoError(_) => 8
    case ParseNumError => 9
    case Interrupted => 10
    case CollectionNotOpen => 11
    case CollectionAlreadyOpen => 12
    case NotFound(_) => 13
    case Deleted => 14
    case Existing => 15
    case FilteredDeckError(_) => 16
    case SearchError(_) => 17
    case InvalidRegex(_) => 18
    case UndoEmpty => 19
    case MultipleNotetypesSelected => 20
    case DatabaseCheckRequired => 21
    case MediaCheckRequired => 22
    case CustomStudyError(_) => 23
    case ImportError(_) => 24
    case InvalidId => 25
    case InvalidMethodIndex => 26
    case InvalidServiceIndex => 27
    case FsrsParamsInvalid => 28
    case FsrsInsufficientData => 29
    case FsrsInsufficientReviews(_) => 30
    case FsrsUnableToDetermineDesiredRetention => 31
    case SchedulerUpgradeRequired => 32
    case InvalidCertificateFormat => 33
  }

  /** Reads a code back to the ordinal of the kind that produces it
      (dispatching on the first letter first keeps the comparisons few). */
  function OrdinalOfCode(code: string): Option<nat> {
    if code == [] then None
    else match code[0]
    case 'i' =>
      if code == "invalid_input" then Some(0)
      else if code == "interrupted" then Some(10)
      else if code == "invalid_regex" then Some(18)
      else if code == "import_error" then Some(24)
      else if code == "invalid_id" then Some(25)
      else if code == "invalid_method_index" then Some(26)
      else if code == "invalid_service_index" then Some(27)
      else if code == "invalid_certificate_format" then Some(33)
      else None
    case 't' =>
      if code == "template_error" then Some(1)
      else None
    case 'c' =>
      if code == "card_type_error" then Some(2)
      else if code == "collection_not_open" then Some(11)
      else if code == "collection_already_open" then Some(12)
      else if code == "custom_study_error" then Some(23)
      else None
    case 'f' =>
      if code == "file_io_error" then Some(3)
      else if code == "filtered_deck_error" then Some(16)
      else if code == "fsrs_params_invalid" then Some(28)
      else if code == "fsrs_insufficient_data" then Some(29)
      else if code == "fsrs_insufficient_reviews" then Some(30)
      else if code == "fsrs_unable_to_determine_desired_retention" then Some(31)
      else None
    case 'd' =>
      if code == "db_error" then Some(4)
      else if code == "deleted" then Some(14)
      else if code == "database_check_required" then Some(21)
      else None
    case 'n' =>
      if code == "network_error" then Some(5)
      else if code == "not_found" then Some(13)
      else None
    case 's' =>
      if code == "sync_error" then Some(6)
      else if code == "search_error" then Some(17)
      else if code == "scheduler_upgrade_required" then Some(32)
      else None
    case 'j' =>
      if code == "json_error" then Some(7)
      else None
    case 'p' =>
      if code == "proto_error" then Some(8)
      else if code == "parse_num_error" then Some(9)
      else None
    case 'e' =>
      if code == "existing" then Some(15)
      else None
    case 'u' =>
      if code == "undo_empty" then Some(19)
      else None
    case 'm' =>
      if code == "multiple_notetypes_selected" then Some(20)
      else if code == "media_check_required" then Some(22)
      else None
    case _ => None
  }

  /** Every code reads back to the kind that produced it. */
  lemma CodeDecodes(e: AnkiError)
    ensures OrdinalOfCode(Code(e)) == Some(Ordinal(e))
  {
    // split by ordinal so that each proof covers a few kinds only
    if Ordinal(e) < 9 {
      CodeDecodesA(e);
    } else if Ordinal(e) < 18 {
      CodeDecodesB(e);
    } else if Ordinal(e) < 26 {
      CodeDecodesC(e);
    } else if Ordinal(e) < 30 {
      CodeDecodesD(e);
    } else {
      CodeDecodesE(e);
    }
  }

  lemma CodeDecodesA(e: AnkiError)
    requires Ordinal(e) < 9
    ensures OrdinalOfCode(Code(e)) == Some(Ordinal(e))
  {
  }

  lemma CodeDecodesB(e: AnkiError)
    requires 9 <= Ordinal(e) < 18
    ensures OrdinalOfCode(Code(e)) == Some(Ordinal(e))
  {
  }

  lemma CodeDecodesC(e: AnkiError)
    requires 18 <= Ordinal(e) < 26
    ensures OrdinalOfCode(Code(e)) == Some(Ordinal(e))
  {
  }

  lemma CodeDecodesD(e: AnkiError)
    requires 26 <= Ordinal(e) < 30
    ensures OrdinalOfCode(Code(e)) == Some(Ordinal(e))
  {
  }

  lemma CodeDecodesE(e: AnkiError)
    requires 30 <= Ordinal(e)
    ensures OrdinalOfCode(Code(e)) == Some(Ordinal(e))
  {
  }

  /** Codes are distinct: errors of different kinds never share a code. */
  lemma CodesDistinct(a: AnkiError, b: AnkiError)
    ensures Ordinal(a) != Ordinal(b) ==> Code(a) != Code(b)
  {
    CodeDecodes(a);
    CodeDecodes(b);
  }

  /** The help page shown for an error: only card-template errors have one. */
  function HelpPageOf(e: AnkiError): (r: Option<HelpPage>)
    ensures r.Some? <==> e.CardTypeError?
  {
    match e
    case CardTypeError(problem) =>
      Some(match problem.details
        case TemplateParseError => CardTypeTemplateError
        case NoSuchField(_) => CardTypeTemplateError
        case Duplicate(_) => CardTypeDuplicate
        case NoFrontField => CardTypeNoFrontField
        case MissingCloze => CardTypeMissingCloze)
    case _ => None
  }

  /** Whether two card-template problems are of the same kind, whatever
      their field names or indices. */
  predicate SameKind(a: CardTypeErrorDetails, b: CardTypeErrorDetails) {
    || (a.TemplateParseError? && b.TemplateParseError?)
    || (a.Duplicate? && b.Duplicate?)
    || (a.NoFrontField? && b.NoFrontField?)
    || (a.NoSuchField? && b.NoSuchField?)
    || (a.MissingCloze? && b.MissingCloze?)
  }

  /** The page each kind of card-template problem points to: a missing
      field is reported on the template-error page, like a template that
      does not parse. */
  lemma HelpPagesByKind(notetype: string, ordinal: nat, field: string, index: nat)
    ensures HelpPageOf(CardTypeError(CardTypeProblem(notetype, ordinal, TemplateParseError))) == Some(CardTypeTemplateError)
    ensures HelpPageOf(CardTypeError(CardTypeProblem(notetype, ordinal, NoSuchField(field)))) == Some(CardTypeTemplateError)
    ensures HelpPageOf(CardTypeError(CardTypeProblem(notetype, ordinal, Duplicate(index)))) == Some(CardTypeDuplicate)
    ensures HelpPageOf(CardTypeError(CardTypeProblem(notetype, ordinal, NoFrontField))) == Some(CardTypeNoFrontField)
    ensures HelpPageOf(CardTypeError(CardTypeProblem(notetype, ordinal, MissingCloze))) == Some(CardTypeMissingCloze)
  {
  }

  /** Two card-template problems share a help page exactly when they are of
      the same kind or both are template or missing-field problems; the
      notetype, template ordinal, field name and index never matter. */
  lemma HelpPageSharedExactly(p: CardTypeProblem, q: CardTypeProblem)
    ensures HelpPageOf(CardTypeError(p)) == HelpPageOf(CardTypeError(q)) <==>
      || SameKind(p.details, q.details)
      || ((p.details.TemplateParseError? || p.details.NoSuchField?)
          && (q.details.TemplateParseError? || q.details.NoSuchField?))
  {
  }

  /** Extra context text: only invalid-input and not-found errors carry any. */
  function Context(e: AnkiError): (r: string)
    ensures !(e.InvalidInput? || e.NotFound?) ==> r == ""
    ensures e.InvalidInput? ==> r == e.invalidInput.Context()
    ensures e.NotFound? ==> r == e.notFound.Context()
  {
    match e
    case InvalidInput(source) => source.Context()
    case NotFound(source) => source.Context()
    case _ => ""
  }

  /** The captured backtrace's text, or empty when none was captured. */
  function Backtrace(e: AnkiError): (r: string)
    ensures r != "" ==>
              || (e.InvalidInput? && e.invalidInput.backtrace == Some(r))
              || (e.NotFound? && e.notFound.backtrace == Some(r))
    ensures e.InvalidInput? && e.invalidInput.backtrace.Some? ==> r == e.invalidInput.backtrace.value
    ensures e.NotFound? && e.notFound.backtrace.Some? ==> r == e.notFound.backtrace.value
  {
    match e
    case InvalidInput(source) => if source.backtrace.Some? then source.backtrace.value else ""
    case NotFound(source) => if source.backtrace.Some? then source.backtrace.value else ""
    case _ => ""
  }

  // Conversions from library errors; each library error is given by its display text.

  /** `From<serde_json::Error>`. */
  function FromJsonError(text: string): (e: AnkiError)
    ensures e.JsonError? && e.info == text
    ensures Code(e) == "json_error" && Context(e) == "" && HelpPageOf(e) == None
  {
    JsonError(text)
  }

  /** `From<prost::EncodeError>`. */
  function FromProtoEncodeError(text: string): (e: AnkiError)
    ensures e.ProtoError? && e.info == text
    ensures Code(e) == "proto_error" && Context(e) == "" && HelpPageOf(e) == None
  {
    ProtoError(text)
  }

  /** `From<prost::DecodeError>`: decode and encode failures are one kind. */
  function FromProtoDecodeError(text: string): (e: AnkiError)
    ensures e.ProtoError? && e.info == text
    ensures e == FromProtoEncodeError(text)
  {
    ProtoError(text)
  }

  /** `From<regex::Error>`. */
  function FromRegexError(text: string): (e: AnkiError)
    ensures e.InvalidRegex? && e.info == text
    ensures Code(e) == "invalid_regex" && Context(e) == "" && HelpPageOf(e) == None
  {
    InvalidRegex(text)
  }
}
