# Chat and search request models, in Dafny

This project models the request and response models of Danswer's chat and
search API (`backend/danswer/server/query_and_chat/models.py`): the three
pydantic root validators that guard chat feedback, new chat messages and
search feedback, the defaults of the session and message requests, and the
`ChatMessageDetail.dict` override that renders `time_sent` as text.

Everything lives in module `QueryAndChatModels` (`query_and_chat_models.dfy`),
with `Option` and `Result` in module `Wrappers` (`wrappers.dfy`).

- A pydantic field bag (`values: dict`) is a `FieldBag = map<string, Value>`;
  `values.get(key)` is `Get`, which reads an absent key as `None`.
- Each root validator is a function from a bag to
  `Result<FieldBag, ValueError>`. `Failure` carries the exact message the
  source raises.
- Each validated request is also a datatype with an `Option` for every
  `X | None` field. A smart constructor (`NewChatFeedbackRequest`, ...) builds
  the bag pydantic would hand the validator, runs the validator on it and
  returns the request or the error.
- The foreign types are abstract types: `RetrievalDetails`, `RetrievalDocs`,
  `MessageType`, `SearchFeedbackType` and `DateTime`.
- `datetime.isoformat` is a function parameter `isoformat: DateTime -> string`.
  Nothing is assumed about the text it produces.
- `ChatMessageDetail.dict(*args, **kwargs)` forwards its arguments to the
  generic serialisation. The keyword arguments that choose keys (`include`,
  `exclude`, `exclude_none`) are modelled as `DictOptions`.
- The round trip of the serialised record is stated against `FromWire`, a
  reader of that record. `FromWire` takes the timestamp parser as a
  parameter. The round trip holds for any parser that reads back what
  `isoformat` wrote for that instant, as long as the `dict()` arguments keep
  every field other than `time_sent` that is not `None`.

Every check is on `None`-ness. An empty `search_doc_ids` list, an empty
`feedback_text` and `is_positive = False` all count as provided.

The chat message validator's error message reads "Either search_doc_ids or
retrieval_options must be provided, but not both None." The code
(models.py:78) rejects only the case where both are `None`. Giving both is
accepted, and an empty id list counts as given; `ChatMessageNotExclusive`
proves both.

Two details of the source that the model keeps:

- The search feedback validator tests `click is False`. A bag in which `click`
  is missing (its own field validation failed) or `None` passes this
  validator.
- `dict` sets `time_sent` after the generic serialisation. The key is
  therefore present even when the caller excluded it.

## Model

| member | source | states |
|---|---|---|
| `QueryAndChatModels.NewChatSessionCreationRequest` | backend/danswer/server/query_and_chat/models.py:20-22 | An omitted persona id becomes the default persona 0; a supplied one is kept. |
| `QueryAndChatModels.OmittedPersonaIsDefault` | backend/danswer/server/query_and_chat/models.py:22 | Omitting `persona_id` gives the same request as sending 0. |
| `QueryAndChatModels.CheckIsPositiveOrFeedbackText` | backend/danswer/server/query_and_chat/models.py:39-48 | The chat feedback validator never changes the bag: on success it returns its input. Its only error is "Empty feedback received.". |
| `QueryAndChatModels.ChatFeedbackAcceptedIffOneProvided` | backend/danswer/server/query_and_chat/models.py:41-46 | The validator accepts a bag if and only if at least one of `is_positive` and `feedback_text` is not `None`. |
| `QueryAndChatModels.NewChatFeedbackRequest` | backend/danswer/server/query_and_chat/models.py:34-48 | A chat feedback request is valid if and only if the flag or the text is given. A valid request holds exactly the given fields; otherwise the error is the empty-feedback one. |
| `QueryAndChatModels.ChatFeedbackChecksPresenceNotTruthiness` | backend/danswer/server/query_and_chat/models.py:45 | `is_positive = False` alone, or `feedback_text = ""` alone, is accepted; both absent is rejected. |
| `QueryAndChatModels.CheckSearchDocIdsOrRetrievalOptions` | backend/danswer/server/query_and_chat/models.py:72-83 | The chat message validator never changes the bag: on success it returns its input. Its only error is the missing-retrieval message. |
| `QueryAndChatModels.ChatMessageAcceptedIffOneProvided` | backend/danswer/server/query_and_chat/models.py:74-81 | The validator accepts a bag if and only if at least one of `search_doc_ids` and `retrieval_options` is not `None`. |
| `QueryAndChatModels.NewCreateChatMessageRequest` | backend/danswer/server/query_and_chat/models.py:59-83 | A new chat message is valid if and only if document ids or retrieval options are given. A valid request holds exactly the given fields; an omitted optional field, `query_override` among them, is passed as `None`. |
| `QueryAndChatModels.ChatMessageNotExclusive` | backend/danswer/server/query_and_chat/models.py:78-81 | Both ids and options together are accepted; an empty id list with no options is accepted; neither is rejected. |
| `QueryAndChatModels.CheckClickOrSearchFeedback` | backend/danswer/server/query_and_chat/models.py:117-124 | The search feedback validator never changes the bag: on success it returns its input. Its only error is "Empty feedback received.". |
| `QueryAndChatModels.SearchFeedbackMissingClickPasses` | backend/danswer/server/query_and_chat/models.py:119-121 | Because the test is `click is False`, a bag whose `click` is missing or `None` passes the validator unchanged. |
| `QueryAndChatModels.NewSearchFeedbackRequest` | backend/danswer/server/query_and_chat/models.py:110-124 | A search feedback request is valid if and only if the document was clicked or a feedback category is given. A click with no category is accepted. |
| `QueryAndChatModels.ValidatorsIdempotent` | backend/danswer/server/query_and_chat/models.py:39-124 | Validating the output of any of the three validators again gives the same result. |
| `QueryAndChatModels.BaseDict` | backend/danswer/server/query_and_chat/models.py:140 | The generic serialisation keeps a subset of the nine fields, each with its own value. |
| `QueryAndChatModels.Dict` | backend/danswer/server/query_and_chat/models.py:139-142 | The override's keys are the generic keys plus `time_sent`. `time_sent` holds `isoformat(time_sent)`. Every other key keeps its generic value. |
| `QueryAndChatModels.DictDefaultKeepsEveryField` | backend/danswer/server/query_and_chat/models.py:136-142 | With default arguments, the record has exactly the nine field names. Every field but `time_sent` is copied verbatim, including `citations` as a map and `None` values. |
| `QueryAndChatModels.DictReadsBack` | backend/danswer/server/query_and_chat/models.py:139-142 | When the arguments drop no field but `time_sent` (`exclude_none` allowed), each other field reads back from the record as its own value. |
| `QueryAndChatModels.DetailFieldsInjective` | backend/danswer/server/query_and_chat/models.py:127-137 | The generic record of a chat message, its nine fields under their own names, tells messages apart: equal records mean equal messages. |
| `QueryAndChatModels.DictInjective` | backend/danswer/server/query_and_chat/models.py:139-142 | When the arguments drop no field but `time_sent` and `isoformat` tells instants apart, two messages with the same serialised record are equal: the override loses no information. |
| `QueryAndChatModels.DictRoundTrip` | backend/danswer/server/query_and_chat/models.py:127-142 | When the `dict()` arguments keep every field other than `time_sent` that is not `None`, reading the serialised record back gives the original message whenever the parser inverts `isoformat` at `time_sent`. |
| `QueryAndChatModels.CitationsRoundTrip` | backend/danswer/server/query_and_chat/models.py:136-137 | A sparse citation map `{3: 101, 7: 205}` survives serialisation and reading back as the same map. |

## Left out

- Pydantic's field parsing and coercion are not modelled: type errors, enum membership errors, string-to-int conversion. Inputs are already typed.
- The internals of `RetrievalDetails`, `RetrievalDocs`, `BaseFilters`, `SearchDoc`, `SearchType`, `MessageType` and `SearchFeedbackType` are not modelled. They are defined in other modules and stay abstract.
- The text produced by `datetime.isoformat()` is not modelled. It is a library call, so it is a parameter, and no claim is made that it can be parsed back.
- `FromWire` does not model pydantic's parsing. It reads only the shapes that `dict` writes.
- `recency_bias_multiplier` (a float) is not modelled. `DocumentSearchRequest` and the other classes without behaviour are not modelled either, because they only hold data: `SimpleQueryRequest`, `HelperResponse`, `CreateChatSessionID`, `ChatMessageIdentifier`, `ChatRenameRequest`, `RenameChatSessionResponse`, `ChatSessionDetails`, `ChatSessionsResponse`, `ChatSessionDetailResponse`, `QueryValidationResponse`, `AdminSearchRequest`, `AdminSearchResponse` and `DanswerAnswer`.
- Some `dict()` keyword arguments are not modelled: `by_alias`, `exclude_unset`, `exclude_defaults`, and nested `include`/`exclude` specifications. The generic serialisation also turns the nested `RetrievalDocs` model into a dict; here that value stays one opaque value.
- The model does not tell an omitted optional field from an explicit `None`. Both are `Option.None`, because pydantic gives every `X | None` field without a default the default `None`.
