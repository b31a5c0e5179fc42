/** The request and response models of the chat and search API
    (backend/danswer/server/query_and_chat/models.py).

    Pydantic hands each `@root_validator` the field bag `values` (a dict from
    field name to field value); a validator either returns that bag or raises
    `ValueError`. Here a bag is a `map<string, Value>`, a raise is `Failure`,
    and every `X | None` field of a typed request is an `Option<X>`. */
module QueryAndChatModels {
  import opened Wrappers

  // ---------------------------------------------------------------------------
  // Foreign types. Their internals belong to other modules of the system; only
  // their identity matters here.
  // ---------------------------------------------------------------------------

  /** Retrieval options: filters, limits and recency weighting for a search. */
  type RetrievalDetails
  /** The bundle of documents retrieved for a chat message. */
  type RetrievalDocs
  /** The role of a chat turn (user, assistant, system). */
  type MessageType
  /** A structured reason given with search feedback. */
  type SearchFeedbackType
  /** A `datetime` instant. */
  type DateTime

  // ---------------------------------------------------------------------------
  // Field bags
  // ---------------------------------------------------------------------------

  /** A field value as it sits in a field bag or in a serialised record. */
  datatype Value =
    | Null
    | Bool(b: bool)
    | Int(i: int)
    | Str(s: string)
    | IntList(ints: seq<int>)
    | IntMap(entries: map<int, int>)
    | Retrieval(details: RetrievalDetails)
    | FeedbackType(feedbackType: SearchFeedbackType)
    | Docs(docs: RetrievalDocs)
    | Role(messageType: MessageType)
    | Time(instant: DateTime)

  /** A dict from field name to value. */
  type FieldBag = map<string, Value>

  /** `values.get(key)`: the value under `key`, or `None` when the key is absent
      (pydantic leaves out of the bag a field whose own validation failed). */
  function Get(values: FieldBag, key: string): Value {
    if key in values then values[key] else Null
  }

  /** The field value of an optional field. */
  function Lift<T>(o: Option<T>, wrap: T -> Value): Value {
    match o
    case Some(x) => wrap(x)
    case None => Null
  }

  /** Some field among `keys` holds a value other than `None`. */
  ghost predicate AtLeastOneProvided(values: FieldBag, keys: set<string>) {
    exists k :: k in keys && !Get(values, k).Null?
  }

  /** The `ValueError` a validator raises. */
  datatype ValueError = ValueError(message: string)

  const EMPTY_FEEDBACK_MESSAGE := "Empty feedback received."
  const MISSING_RETRIEVAL_MESSAGE :=
    "Either search_doc_ids or retrieval_options must be provided, but not both None."

  // Field names, as the field bags and serialised records spell them.
  const CHAT_MESSAGE_ID := "chat_message_id"
  const IS_POSITIVE := "is_positive"
  const FEEDBACK_TEXT := "feedback_text"
  const CHAT_SESSION_ID := "chat_session_id"
  const PARENT_MESSAGE_ID := "parent_message_id"
  const MESSAGE := "message"
  const PROMPT_ID := "prompt_id"
  const SEARCH_DOC_IDS := "search_doc_ids"
  const RETRIEVAL_OPTIONS := "retrieval_options"
  const QUERY_OVERRIDE := "query_override"
  const MESSAGE_ID := "message_id"
  const DOCUMENT_ID := "document_id"
  const DOCUMENT_RANK := "document_rank"
  const CLICK := "click"
  const SEARCH_FEEDBACK := "search_feedback"
  const PARENT_MESSAGE := "parent_message"
  const LATEST_CHILD_MESSAGE := "latest_child_message"
  const REPHRASED_QUERY := "rephrased_query"
  const CONTEXT_DOCS := "context_docs"
  const MESSAGE_TYPE := "message_type"
  const TIME_SENT := "time_sent"
  const CITATIONS := "citations"

  // ---------------------------------------------------------------------------
  // ChatSessionCreationRequest
  // ---------------------------------------------------------------------------

  /** The persona used when a new chat session names none. */
  const DEFAULT_PERSONA_ID := 0

  datatype ChatSessionCreationRequest = ChatSessionCreationRequest(personaId: int)

  /** Builds the request from the persona id the caller supplied; `None` means
      the field was omitted. */
  function NewChatSessionCreationRequest(suppliedPersonaId: Option<int>): (r: ChatSessionCreationRequest)
    ensures suppliedPersonaId.None? ==> r.personaId == DEFAULT_PERSONA_ID
    ensures suppliedPersonaId.Some? ==> r.personaId == suppliedPersonaId.value
  {
    ChatSessionCreationRequest(suppliedPersonaId.GetOr(DEFAULT_PERSONA_ID))
  }

  /** Omitting the persona id is the same as asking for persona 0. */
  lemma OmittedPersonaIsDefault()
    ensures NewChatSessionCreationRequest(None) == NewChatSessionCreationRequest(Some(0))
    ensures NewChatSessionCreationRequest(None).personaId == 0
  {
  }

  // ---------------------------------------------------------------------------
  // ChatFeedbackRequest
  // ---------------------------------------------------------------------------

  datatype ChatFeedbackRequest = ChatFeedbackRequest(
    chatMessageId: int,
    isPositive: Option<bool>,
    feedbackText: Option<string>)

  /** The field bag the root validator sees for `req`. */
  function ChatFeedbackValues(req: ChatFeedbackRequest): FieldBag {
    map[
      CHAT_MESSAGE_ID := Int(req.chatMessageId),
      IS_POSITIVE := Lift(req.isPositive, b => Bool(b)),
      FEEDBACK_TEXT := Lift(req.feedbackText, s => Str(s))
    ]
  }

  /** The root validator `check_is_positive_or_feedback_text`: it only ever
      returns the bag it was given, and its only error is the empty-feedback
      one. */
  function CheckIsPositiveOrFeedbackText(values: FieldBag): (r: Result<FieldBag, ValueError>)
    ensures r.Success? ==> r.value == values
    ensures r.Failure? ==> r.error == ValueError(EMPTY_FEEDBACK_MESSAGE)
  {
    if Get(values, IS_POSITIVE).Null? && Get(values, FEEDBACK_TEXT).Null? then
      Failure(ValueError(EMPTY_FEEDBACK_MESSAGE))
    else
      Success(values)
  }

  /** The chat feedback validator accepts exactly the bags in which the flag
      or the text is provided. */
  lemma ChatFeedbackAcceptedIffOneProvided(values: FieldBag)
    ensures CheckIsPositiveOrFeedbackText(values).Success?
        <==> AtLeastOneProvided(values, {IS_POSITIVE, FEEDBACK_TEXT})
  {
  }

  /** Constructing a `ChatFeedbackRequest`: it is valid exactly when the flag
      or the text is given, and then it holds the given fields. */
  function NewChatFeedbackRequest(chatMessageId: int, isPositive: Option<bool>, feedbackText: Option<string>)
    : (r: Result<ChatFeedbackRequest, ValueError>)
    ensures r.Success? <==> isPositive.Some? || feedbackText.Some?
    ensures r.Success? ==> r.value == ChatFeedbackRequest(chatMessageId, isPositive, feedbackText)
    ensures r.Failure? ==> r.error.message == EMPTY_FEEDBACK_MESSAGE
  {
    var req := ChatFeedbackRequest(chatMessageId, isPositive, feedbackText);
    match CheckIsPositiveOrFeedbackText(ChatFeedbackValues(req))
    case Success(_) => Success(req)
    case Failure(e) => Failure(e)
  }

  /** Presence, not truthiness, is checked: a negative flag alone, or an empty
      text alone, is feedback. */
  lemma ChatFeedbackChecksPresenceNotTruthiness(chatMessageId: int)
    ensures NewChatFeedbackRequest(chatMessageId, Some(false), None).Success?
    ensures NewChatFeedbackRequest(chatMessageId, None, Some("")).Success?
    ensures NewChatFeedbackRequest(chatMessageId, None, None).Failure?
  {
  }

  // ---------------------------------------------------------------------------
  // CreateChatMessageRequest
  // ---------------------------------------------------------------------------

  /** A new chat message. Without a prompt id the answer is retrieval only; a
      query override disables query rewording. */
  datatype CreateChatMessageRequest = CreateChatMessageRequest(
    chatSessionId: int,
    parentMessageId: Option<int>,
    message: string,
    promptId: Option<int>,
    searchDocIds: Option<seq<int>>,
    retrievalOptions: Option<RetrievalDetails>,
    queryOverride: Option<string>)

  /** The field bag the root validator sees for `req`. */
  function CreateChatMessageValues(req: CreateChatMessageRequest): FieldBag {
    map[
      CHAT_SESSION_ID := Int(req.chatSessionId),
      PARENT_MESSAGE_ID := Lift(req.parentMessageId, i => Int(i)),
      MESSAGE := Str(req.message),
      PROMPT_ID := Lift(req.promptId, i => Int(i)),
      SEARCH_DOC_IDS := Lift(req.searchDocIds, ids => IntList(ids)),
      RETRIEVAL_OPTIONS := Lift(req.retrievalOptions, o => Retrieval(o)),
      QUERY_OVERRIDE := Lift(req.queryOverride, s => Str(s))
    ]
  }

  /** The root validator `check_search_doc_ids_or_retrieval_options`: it only
      ever returns the bag it was given, and its only error is the
      missing-retrieval one. */
  function CheckSearchDocIdsOrRetrievalOptions(values: FieldBag): (r: Result<FieldBag, ValueError>)
    ensures r.Success? ==> r.value == values
    ensures r.Failure? ==> r.error == ValueError(MISSING_RETRIEVAL_MESSAGE)
  {
    if Get(values, SEARCH_DOC_IDS).Null? && Get(values, RETRIEVAL_OPTIONS).Null? then
      Failure(ValueError(MISSING_RETRIEVAL_MESSAGE))
    else
      Success(values)
  }

  /** The chat message validator accepts exactly the bags in which the
      document ids or the retrieval options are provided; nothing requires
      that only one of them is. */
  lemma ChatMessageAcceptedIffOneProvided(values: FieldBag)
    ensures CheckSearchDocIdsOrRetrievalOptions(values).Success?
        <==> AtLeastOneProvided(values, {SEARCH_DOC_IDS, RETRIEVAL_OPTIONS})
  {
  }

  /** Constructing a `CreateChatMessageRequest`: it is valid exactly when the
      document ids or the retrieval options are given, and then it holds the
      given fields. An omitted optional field, `query_override` among them,
      is `None`. */
  function NewCreateChatMessageRequest(
    chatSessionId: int,
    parentMessageId: Option<int>,
    message: string,
    promptId: Option<int>,
    searchDocIds: Option<seq<int>>,
    retrievalOptions: Option<RetrievalDetails>,
    queryOverride: Option<string>)
    : (r: Result<CreateChatMessageRequest, ValueError>)
    ensures r.Success? <==> searchDocIds.Some? || retrievalOptions.Some?
    ensures r.Success? ==> r.value == CreateChatMessageRequest(
      chatSessionId, parentMessageId, message, promptId, searchDocIds, retrievalOptions, queryOverride)
    ensures r.Failure? ==> r.error.message == MISSING_RETRIEVAL_MESSAGE
  {
    var req := CreateChatMessageRequest(
      chatSessionId, parentMessageId, message, promptId, searchDocIds, retrievalOptions, queryOverride);
    match CheckSearchDocIdsOrRetrievalOptions(CreateChatMessageValues(req))
    case Success(_) => Success(req)
    case Failure(e) => Failure(e)
  }

  /** Giving both the document ids and the retrieval options is accepted, and
      an empty list of document ids counts as given. */
  lemma ChatMessageNotExclusive(
    chatSessionId: int, parentMessageId: Option<int>, message: string, promptId: Option<int>,
    ids: seq<int>, options: RetrievalDetails, queryOverride: Option<string>)
    ensures NewCreateChatMessageRequest(
      chatSessionId, parentMessageId, message, promptId, Some(ids), Some(options), queryOverride).Success?
    ensures NewCreateChatMessageRequest(
      chatSessionId, parentMessageId, message, promptId, Some([]), None, queryOverride).Success?
    ensures NewCreateChatMessageRequest(
      chatSessionId, parentMessageId, message, promptId, None, None, queryOverride).Failure?
  {
  }

  // ---------------------------------------------------------------------------
  // SearchFeedbackRequest
  // ---------------------------------------------------------------------------

  datatype SearchFeedbackRequest = SearchFeedbackRequest(
    messageId: int,
    documentId: string,
    documentRank: int,
    click: bool,
    searchFeedback: Option<SearchFeedbackType>)

  /** The field bag the root validator sees for `req`. */
  function SearchFeedbackValues(req: SearchFeedbackRequest): FieldBag {
    map[
      MESSAGE_ID := Int(req.messageId),
      DOCUMENT_ID := Str(req.documentId),
      DOCUMENT_RANK := Int(req.documentRank),
      CLICK := Bool(req.click),
      SEARCH_FEEDBACK := Lift(req.searchFeedback, f => FeedbackType(f))
    ]
  }

  /** `click is False`: the identity test, true only of the value `False`
      itself, not of a missing `click`. */
  predicate IsFalse(v: Value) {
    v.Bool? && !v.b
  }

  /** The root validator `check_click_or_search_feedback`: it only ever
      returns the bag it was given, and its only error is the empty-feedback
      one. */
  function CheckClickOrSearchFeedback(values: FieldBag): (r: Result<FieldBag, ValueError>)
    ensures r.Success? ==> r.value == values
    ensures r.Failure? ==> r.error == ValueError(EMPTY_FEEDBACK_MESSAGE)
  {
    if IsFalse(Get(values, CLICK)) && Get(values, SEARCH_FEEDBACK).Null? then
      Failure(ValueError(EMPTY_FEEDBACK_MESSAGE))
    else
      Success(values)
  }

  /** A bag without `click` (its own validation failed) or with a `None`
      there is not rejected by this validator, whatever the feedback. */
  lemma SearchFeedbackMissingClickPasses(values: FieldBag)
    requires Get(values, CLICK).Null?
    ensures CheckClickOrSearchFeedback(values) == Success(values)
  {
  }

  /** Constructing a `SearchFeedbackRequest`: it is valid exactly when the
      document was clicked or a feedback category is given; a click needs no
      category. */
  function NewSearchFeedbackRequest(
    messageId: int, documentId: string, documentRank: int, click: bool,
    searchFeedback: Option<SearchFeedbackType>)
    : (r: Result<SearchFeedbackRequest, ValueError>)
    ensures r.Success? <==> click || searchFeedback.Some?
    ensures r.Success? ==> r.value == SearchFeedbackRequest(messageId, documentId, documentRank, click, searchFeedback)
    ensures r.Failure? ==> r.error.message == EMPTY_FEEDBACK_MESSAGE
  {
    var req := SearchFeedbackRequest(messageId, documentId, documentRank, click, searchFeedback);
    match CheckClickOrSearchFeedback(SearchFeedbackValues(req))
    case Success(_) => Success(req)
    case Failure(e) => Failure(e)
  }

  /** Every validator leaves an accepted bag as it is, so validating its output
      again gives the same result. */
  lemma ValidatorsIdempotent(values: FieldBag)
    ensures CheckIsPositiveOrFeedbackText(values).Success? ==>
      CheckIsPositiveOrFeedbackText(CheckIsPositiveOrFeedbackText(values).value)
        == CheckIsPositiveOrFeedbackText(values)
    ensures CheckSearchDocIdsOrRetrievalOptions(values).Success? ==>
      CheckSearchDocIdsOrRetrievalOptions(CheckSearchDocIdsOrRetrievalOptions(values).value)
        == CheckSearchDocIdsOrRetrievalOptions(values)
    ensures CheckClickOrSearchFeedback(values).Success? ==>
      CheckClickOrSearchFeedback(CheckClickOrSearchFeedback(values).value)
        == CheckClickOrSearchFeedback(values)
  {
  }

  // ---------------------------------------------------------------------------
  // ChatMessageDetail and its serialisation
  // ---------------------------------------------------------------------------

  /** A chat message as returned to the client. `citations` maps a citation
      number in the text to the database id of the cited document. */
  datatype ChatMessageDetail = ChatMessageDetail(
    messageId: int,
    parentMessage: Option<int>,
    latestChildMessage: Option<int>,
    message: string,
    rephrasedQuery: Option<string>,
    contextDocs: Option<RetrievalDocs>,
    messageType: MessageType,
    timeSent: DateTime,
    citations: Option<map<int, int>>)

  const DETAIL_FIELD_NAMES: set<string> := {
    MESSAGE_ID, PARENT_MESSAGE, LATEST_CHILD_MESSAGE, MESSAGE, REPHRASED_QUERY,
    CONTEXT_DOCS, MESSAGE_TYPE, TIME_SENT, CITATIONS
  }

  /** Every field of `d` under its name, values as they are: the record the
      generic serialisation starts from. */
  function DetailFields(d: ChatMessageDetail): (fields: FieldBag)
    ensures fields.Keys == DETAIL_FIELD_NAMES
    ensures fields[MESSAGE_ID] == Int(d.messageId)
    ensures fields[PARENT_MESSAGE] == Lift(d.parentMessage, i => Int(i))
    ensures fields[LATEST_CHILD_MESSAGE] == Lift(d.latestChildMessage, i => Int(i))
    ensures fields[MESSAGE] == Str(d.message)
    ensures fields[REPHRASED_QUERY] == Lift(d.rephrasedQuery, s => Str(s))
    ensures fields[CONTEXT_DOCS] == Lift(d.contextDocs, docs => Docs(docs))
    ensures fields[MESSAGE_TYPE] == Role(d.messageType)
    ensures fields[TIME_SENT] == Time(d.timeSent)
    ensures fields[CITATIONS] == Lift(d.citations, c => IntMap(c))
  {
    map[
      MESSAGE_ID := Int(d.messageId),
      PARENT_MESSAGE := Lift(d.parentMessage, i => Int(i)),
      LATEST_CHILD_MESSAGE := Lift(d.latestChildMessage, i => Int(i)),
      MESSAGE := Str(d.message),
      REPHRASED_QUERY := Lift(d.rephrasedQuery, s => Str(s)),
      CONTEXT_DOCS := Lift(d.contextDocs, docs => Docs(docs)),
      MESSAGE_TYPE := Role(d.messageType),
      TIME_SENT := Time(d.timeSent),
      CITATIONS := Lift(d.citations, c => IntMap(c))
    ]
  }

  /** The keyword arguments of `dict()` that choose the keys: `include`
      (`None` keeps every field), `exclude`, and `exclude_none`. */
  datatype DictOptions = DictOptions(includeKeys: Option<set<string>>, excludeKeys: set<string>, excludeNone: bool)

  const DEFAULT_DICT_OPTIONS := DictOptions(None, {}, false)

  /** The options keep the field `k` holding `v`. */
  predicate KeyKept(opts: DictOptions, k: string, v: Value) {
    && (opts.includeKeys.None? || k in opts.includeKeys.value)
    && k !in opts.excludeKeys
    && !(opts.excludeNone && v.Null?)
  }

  /** The generic serialisation `super().dict(...)`: the fields the options
      keep, each with its own value. */
  function BaseDict(d: ChatMessageDetail, opts: DictOptions): (r: FieldBag)
    ensures r.Keys <= DETAIL_FIELD_NAMES
    ensures forall k :: k in r ==> r[k] == DetailFields(d)[k]
  {
    var fields := DetailFields(d);
    map k | k in fields && KeyKept(opts, k, fields[k]) :: fields[k]
  }

  /** `ChatMessageDetail.dict`: the generic serialisation with `time_sent`
      rendered by `isoformat`. That key is always present, even where the
      options dropped it; every other key and value is the generic one. */
  function Dict(d: ChatMessageDetail, opts: DictOptions, isoformat: DateTime -> string): (r: FieldBag)
    ensures r.Keys == BaseDict(d, opts).Keys + {TIME_SENT}
    ensures r[TIME_SENT] == Str(isoformat(d.timeSent))
    ensures forall k :: k in BaseDict(d, opts) && k != TIME_SENT ==> r[k] == BaseDict(d, opts)[k]
  {
    BaseDict(d, opts)[TIME_SENT := Str(isoformat(d.timeSent))]
  }

  /** With the default options the record has exactly the nine field names,
      and every field except `time_sent` is serialised as it is. The last
      clause only spells out that case for the citation map. */
  lemma DictDefaultKeepsEveryField(d: ChatMessageDetail, isoformat: DateTime -> string)
    ensures Dict(d, DEFAULT_DICT_OPTIONS, isoformat).Keys == DETAIL_FIELD_NAMES
    ensures forall k :: k in DETAIL_FIELD_NAMES && k != TIME_SENT ==>
      Dict(d, DEFAULT_DICT_OPTIONS, isoformat)[k] == DetailFields(d)[k]
    ensures Dict(d, DEFAULT_DICT_OPTIONS, isoformat)[CITATIONS]
      == (if d.citations.Some? then IntMap(d.citations.value) else Null)
  {
    var fields := DetailFields(d);
    forall k | k in DETAIL_FIELD_NAMES
      ensures k in BaseDict(d, DEFAULT_DICT_OPTIONS)
    {
      assert KeyKept(DEFAULT_DICT_OPTIONS, k, fields[k]);
    }
  }

  // Readers of a serialised record: each gives the field's value, or None
  // when the record holds something of another shape.

  function AsInt(v: Value): Option<int> {
    if v.Int? then Some(v.i) else None
  }

  function AsString(v: Value): Option<string> {
    if v.Str? then Some(v.s) else None
  }

  function AsRole(v: Value): Option<MessageType> {
    if v.Role? then Some(v.messageType) else None
  }

  function AsOptInt(v: Value): Option<Option<int>> {
    match v
    case Null => Some(None)
    case Int(i) => Some(Some(i))
    case _ => None
  }

  function AsOptString(v: Value): Option<Option<string>> {
    match v
    case Null => Some(None)
    case Str(s) => Some(Some(s))
    case _ => None
  }

  function AsOptDocs(v: Value): Option<Option<RetrievalDocs>> {
    match v
    case Null => Some(None)
    case Docs(docs) => Some(Some(docs))
    case _ => None
  }

  function AsOptCitations(v: Value): Option<Option<map<int, int>>> {
    match v
    case Null => Some(None)
    case IntMap(c) => Some(Some(c))
    case _ => None
  }

  /** Reads a serialised chat message back, with `parse` reading the
      timestamp text; a missing optional field reads as `None`. */
  function FromWire(m: FieldBag, parse: string -> DateTime): Option<ChatMessageDetail> {
    var messageId := AsInt(Get(m, MESSAGE_ID));
    var parentMessage := AsOptInt(Get(m, PARENT_MESSAGE));
    var latestChild := AsOptInt(Get(m, LATEST_CHILD_MESSAGE));
    var message := AsString(Get(m, MESSAGE));
    var rephrased := AsOptString(Get(m, REPHRASED_QUERY));
    var docs := AsOptDocs(Get(m, CONTEXT_DOCS));
    var messageType := AsRole(Get(m, MESSAGE_TYPE));
    var timeSent := AsString(Get(m, TIME_SENT));
    var citations := AsOptCitations(Get(m, CITATIONS));
    if && messageId.Some? && parentMessage.Some? && latestChild.Some? && message.Some?
       && rephrased.Some? && docs.Some? && messageType.Some? && timeSent.Some? && citations.Some?
    then
      Some(ChatMessageDetail(
        messageId.value, parentMessage.value, latestChild.value, message.value, rephrased.value,
        docs.value, messageType.value, parse(timeSent.value), citations.value))
    else
      None
  }

  /** The options keep every field other than `time_sent` whenever its value
      is not `None`. */
  ghost predicate KeepsEveryProvidedField(opts: DictOptions) {
    && (opts.includeKeys.None? || DETAIL_FIELD_NAMES - {TIME_SENT} <= opts.includeKeys.value)
    && opts.excludeKeys * DETAIL_FIELD_NAMES <= {TIME_SENT}
  }

  /** Serialising a chat message and reading it back gives the same message,
      citation map included, whenever `parse` reads back what `isoformat`
      wrote for its timestamp. This holds with `exclude_none`, and with
      `time_sent` excluded, since the record still carries the timestamp. */
  lemma DictRoundTrip(
    d: ChatMessageDetail, opts: DictOptions,
    isoformat: DateTime -> string, parse: string -> DateTime)
    requires KeepsEveryProvidedField(opts)
    requires parse(isoformat(d.timeSent)) == d.timeSent
    ensures FromWire(Dict(d, opts, isoformat), parse) == Some(d)
  {
    DictReadsBack(d, opts, isoformat, MESSAGE_ID);
    DictReadsBack(d, opts, isoformat, PARENT_MESSAGE);
    DictReadsBack(d, opts, isoformat, LATEST_CHILD_MESSAGE);
    DictReadsBack(d, opts, isoformat, MESSAGE);
    DictReadsBack(d, opts, isoformat, REPHRASED_QUERY);
    DictReadsBack(d, opts, isoformat, CONTEXT_DOCS);
    DictReadsBack(d, opts, isoformat, MESSAGE_TYPE);
    DictReadsBack(d, opts, isoformat, CITATIONS);
    var m := Dict(d, opts, isoformat);
    assert AsInt(Get(m, MESSAGE_ID)) == Some(d.messageId);
    assert AsOptInt(Get(m, PARENT_MESSAGE)) == Some(d.parentMessage);
    assert AsOptInt(Get(m, LATEST_CHILD_MESSAGE)) == Some(d.latestChildMessage);
    assert AsString(Get(m, MESSAGE)) == Some(d.message);
    assert AsOptString(Get(m, REPHRASED_QUERY)) == Some(d.rephrasedQuery);
    assert AsOptDocs(Get(m, CONTEXT_DOCS)) == Some(d.contextDocs);
    assert AsRole(Get(m, MESSAGE_TYPE)) == Some(d.messageType);
    assert AsString(Get(m, TIME_SENT)) == Some(isoformat(d.timeSent));
    assert AsOptCitations(Get(m, CITATIONS)) == Some(d.citations);
  }

  /** Under such options, reading a field other than `time_sent` from the
      record gives the field's own value, also where `exclude_none` dropped
      a `None`. */
  lemma DictReadsBack(d: ChatMessageDetail, opts: DictOptions, isoformat: DateTime -> string, k: string)
    requires KeepsEveryProvidedField(opts)
    requires k in DETAIL_FIELD_NAMES && k != TIME_SENT
    ensures Get(Dict(d, opts, isoformat), k) == DetailFields(d)[k]
  {
    var fields := DetailFields(d);
    assert k !in opts.excludeKeys * DETAIL_FIELD_NAMES;
    if !(opts.excludeNone && fields[k].Null?) {
      assert KeyKept(opts, k, fields[k]);
    }
  }

  /** Under such options the override loses nothing: when `isoformat` tells
      instants apart, two messages with the same record are the same message. */
  lemma DictInjective(
    d1: ChatMessageDetail, d2: ChatMessageDetail, opts: DictOptions, isoformat: DateTime -> string)
    requires KeepsEveryProvidedField(opts)
    requires forall t1, t2 :: isoformat(t1) == isoformat(t2) ==> t1 == t2
    requires Dict(d1, opts, isoformat) == Dict(d2, opts, isoformat)
    ensures d1 == d2
  {
    var fields1, fields2 := DetailFields(d1), DetailFields(d2);
    forall k | k in DETAIL_FIELD_NAMES
      ensures fields1[k] == fields2[k]
    {
      if k != TIME_SENT {
        DictReadsBack(d1, opts, isoformat, k);
        DictReadsBack(d2, opts, isoformat, k);
      }
    }
    assert fields1 == fields2;
    DetailFieldsInjective(d1, d2);
  }

  /** The generic record tells chat messages apart: two messages with the
      same record are the same message. */
  lemma DetailFieldsInjective(d1: ChatMessageDetail, d2: ChatMessageDetail)
    requires DetailFields(d1) == DetailFields(d2)
    ensures d1 == d2
  {
    var fields1, fields2 := DetailFields(d1), DetailFields(d2);
    assert fields1[MESSAGE_ID] == fields2[MESSAGE_ID];
    assert fields1[PARENT_MESSAGE] == fields2[PARENT_MESSAGE];
    assert fields1[LATEST_CHILD_MESSAGE] == fields2[LATEST_CHILD_MESSAGE];
    assert fields1[MESSAGE] == fields2[MESSAGE];
    assert fields1[REPHRASED_QUERY] == fields2[REPHRASED_QUERY];
    assert fields1[CONTEXT_DOCS] == fields2[CONTEXT_DOCS];
    assert fields1[MESSAGE_TYPE] == fields2[MESSAGE_TYPE];
    assert fields1[TIME_SENT] == fields2[TIME_SENT];
    assert fields1[CITATIONS] == fields2[CITATIONS];
  }

  /** The citation map survives serialisation exactly: sparse citation numbers
      stay the keys of a map, they do not become positions in a list. */
  lemma CitationsRoundTrip(
    d: ChatMessageDetail, isoformat: DateTime -> string, parse: string -> DateTime)
    requires d.citations == Some(map[3 := 101, 7 := 205])
    requires parse(isoformat(d.timeSent)) == d.timeSent
    ensures FromWire(Dict(d, DEFAULT_DICT_OPTIONS, isoformat), parse).Some?
    ensures FromWire(Dict(d, DEFAULT_DICT_OPTIONS, isoformat), parse).value.citations
      == Some(map[3 := 101, 7 := 205])
  {
    DictRoundTrip(d, DEFAULT_DICT_OPTIONS, isoformat, parse);
  }
}
