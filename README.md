# FAQ-augmentation middleware and `trySafe`, modelled in Dafny

This project models the two helpers that hold the logic of a small question-answering
service. The service forwards a user's prompt to a text-generation model.

- `faqMiddleware.transformParams` runs before each generation call. It parses a FAQ
  list from the request metadata and pops the prompt's last message. When that
  message is a user message with non-blank text that a classifier calls a
  `question`, it embeds the text. It then takes the FAQ embeddings from a
  single-slot cache, or re-embeds every FAQ question on a miss. It ranks the FAQs
  by cosine similarity. When the best similarity is strictly above 0.7, it pushes
  the message back with a synthesised "Q: … A: …" text part in front. On every
  other path it pushes the original message back.
- `trySafe` runs a callback and maps what it did to an `[error, data]` pair:
  returning a value, returning `null`/`undefined`, throwing, or returning a promise
  that fulfils or rejects.

Files:

- `wrappers.dfy`: `Option`, `Error` and `Result`, shared by both helpers.
- `try_safe.dfy`: module `TrySafe`. A pure case split over an `Invocation`, which
  says whether `fn()` finished directly or through a promise, and how it completed.
- `faq_text.dfy`: module `FaqText`. The text extraction (filter / map / join with
  `'\n'`) and JavaScript's `String.prototype.trim`.
- `faq_ranking.dfy`: module `FaqRanking`. The FAQ records, the score map, and the
  in-place stable sort by decreasing similarity. The sort is an insertion sort on an
  `array`, proved against `FirstBest`, the reference definition of the entry it
  puts first.
- `faq_middleware.dfy`: module `FaqMiddleware`. `Augment` is the whole middleware
  as a function. `Prompt` is the caller's message array, changed in place by
  `Pop`/`Push`. `Middleware` holds the module-level cache slot
  `cachedFaqEmbeddings`, and its method `TransformParams` is proved to leave the
  prompt, the slot, the provider calls and the thrown error exactly as `Augment`
  says.
- `faq_middleware_properties.dfy`: lemmas about `Augment`. They cover every guard,
  the cache hit and miss, the error path, the threshold decision, the shape of the
  returned prompt and a warm-cache repeat.

Providers are parameters:

- the classifier: `string -> Result<Label>`
- the embedder: `string -> Result<Vector>`
- cosine similarity: `(Vector, Vector) -> real`

Each provider call is recorded in a returned trace of `ProviderCall`s. The trace
is how "no provider is called" and "one embedding per FAQ" are stated.

## Model

| member | source | states |
|---|---|---|
| `TrySafe.HandleError` | src/helpers/try-safe.ts:29-32 | a thrown `Error` instance is returned as-is in the error slot; any other thrown value becomes an `Error` whose message is `"Unexpected error: "` followed by its `String` rendering; `data` is null |
| `TrySafe.HandleSuccess` | src/helpers/try-safe.ts:34-39 | a defined value gives `[null, value]`; `null` and `undefined` give the error "Operation returned null or undefined"; exactly one slot is non-null |
| `TrySafe.Settle` | src/helpers/try-safe.ts:41-50 | whatever the callback did, the pair has exactly one non-null slot, and `data` is non-null exactly when the callback produced a defined value |
| `TrySafe.TrySafe` | src/helpers/try-safe.ts:26-52 | a synchronous outcome is answered directly and a promise with a promise; both carry the pair their completion settles to, with exactly one slot non-null (thrown values whose `String` rendering throws are not modelled) |
| `TrySafe.SuccessIffDefined` | src/helpers/try-safe.ts:34-39 | the error slot is null exactly when the callback yielded a defined value, and then `data` is that value |
| `TrySafe.NullIsNeverSuccess` | src/helpers/try-safe.ts:35-37 | a null or undefined result is always the "Operation returned null or undefined" error, never a success |
| `TrySafe.RejectionMatchesThrow` | src/helpers/try-safe.ts:44-50 | a rejected promise yields the same pair as a synchronous throw of the same value |
| `FaqText.TextsOfAppend` | src/helpers/middleware.ts:48-50 | the text filter keeps part order: the texts of a concatenation are the two halves' texts concatenated |
| `FaqText.SingleTexts` | src/helpers/middleware.ts:49-50 | a text part contributes exactly its text; any other part contributes nothing |
| `FaqText.TextsOf` | src/helpers/middleware.ts:48-50 | a string is among the message's texts exactly when the message has a text part carrying it |
| `FaqText.JoinEnds` | src/helpers/middleware.ts:51 | a non-empty join starts with the first text, followed by the separator when there is a second text, and ends with the last text |
| `FaqText.Trim` | src/helpers/middleware.ts:53 | `trim()` yields the empty string exactly when every character is JavaScript whitespace (WhiteSpace or LineTerminator); otherwise the result starts and ends with a character that is not whitespace |
| `FaqText.ExtractText` | src/helpers/middleware.ts:48-53 | the extracted text is empty when the message has no text part, and it trims to the empty string exactly when every text part is blank, so the empty-text guard fires exactly then |
| `FaqText.JoinAllSpace` | src/helpers/middleware.ts:51 | the newline-joined text is all whitespace exactly when every joined text is |
| `FaqRanking.Score` | src/helpers/middleware.ts:98-101 | one scored entry per FAQ, in order, keeping question, answer and embedding, with similarity = oracle(query embedding, FAQ embedding) |
| `FaqRanking.FirstBest` | src/helpers/middleware.ts:103-106 | reference definition of the best entry: its similarity is maximal, and every earlier entry's is strictly smaller |
| `FaqRanking.SortBySimilarity` | src/helpers/middleware.ts:103 | the array ends as a permutation of its old contents in non-increasing similarity; entries of equal similarity keep their original order |
| `FaqRanking.InsertLast` | src/helpers/middleware.ts:103 | one insertion step: the entry moves left only past strictly less similar entries, extending the stably sorted prefix by one |
| `FaqRanking.SortedHeadIsFirstBest` | src/helpers/middleware.ts:103-106 | after the stable sort, `faqsWithSimilarity[0]` is the first entry of maximal similarity in the unsorted list |
| `FaqMiddleware.Preamble` | src/helpers/middleware.ts:117 | the injected text is the fixed introduction, then the question, then `"\nA: "`, then the answer, then the fixed closing marker, at those offsets; it is never blank |
| `FaqMiddleware.AugmentedMessage` | src/helpers/middleware.ts:112-121 | the pushed message has the user role, one more part than the original, the preamble as its first part and every original part after it in order |
| `FaqMiddleware.QuestionCalls` | src/helpers/middleware.ts:86-94 | a refresh makes one embedding call per FAQ, on that FAQ's question, in list order |
| `FaqMiddleware.EmbedAll` | src/helpers/middleware.ts:86-94 | succeeds exactly when every question embeds; the result lines up 1:1 with the FAQs, keeping each question and answer and carrying its embedding; a failure carries the error of a failing question |
| `FaqMiddleware.Resolve` | src/helpers/middleware.ts:80-96 | a hit returns the cached list with no call and no write; a miss embeds every question; on success the slot is replaced wholesale by the new list under this FAQ list; a failed refresh leaves the slot as it was |
| `FaqMiddleware.Best` | src/helpers/middleware.ts:106 | a best entry exists exactly when the list is non-empty; it is in the list and no entry has higher similarity |
| `FaqMiddleware.Rewrite` | src/helpers/middleware.ts:108-127 | above the 0.7 threshold (strictly), the pushed message is the user message with the FAQ text part before all original parts; otherwise it is the original message |
| `FaqMiddleware.Augment` | src/helpers/middleware.ts:24-131 | on return, the prompt has its original length and unchanged earlier messages; on a provider failure it has lost its last message; a valid slot stays valid |
| `FaqMiddleware.AugmentUserMessage` | src/helpers/middleware.ts:48-129 | after the pop of a user message, the prompt on return is the rest plus one message; on failure it is the rest; a valid slot stays valid |
| `FaqMiddleware.AugmentQuestion` | src/helpers/middleware.ts:75-129 | the same, for the steps after classification |
| `FaqMiddleware.Prompt.Pop` | src/helpers/middleware.ts:38 | removes and returns the last message, or returns nothing on an empty prompt |
| `FaqMiddleware.Prompt.Push` | src/helpers/middleware.ts:42 | appends one message |
| `FaqMiddleware.Middleware.constructor` | src/helpers/middleware.ts:22 | the cache slot starts empty |
| `FaqMiddleware.Middleware.TransformParams` | src/helpers/middleware.ts:24-131 | the prompt, the cache slot, the provider calls and the thrown error are exactly those of `Augment`; the slot invariant (key = FAQ list, non-empty, entries aligned 1:1) is kept |
| `FaqMiddleware.Middleware.TransformUserMessage` | src/helpers/middleware.ts:48-71 | the text guard and classification steps, matching `AugmentUserMessage` |
| `FaqMiddleware.Middleware.TransformQuestion` | src/helpers/middleware.ts:75-129 | query embedding, cache, ranking and push, matching `AugmentQuestion` |
| `FaqMiddleware.Middleware.ResolveEmbeddings` | src/helpers/middleware.ts:80-96 | reads or refills the slot exactly as `Resolve` says, keeping the slot invariant |
| `FaqMiddleware.PushBestMatch` | src/helpers/middleware.ts:98-127 | scoring, the in-place sort and the threshold test push exactly `Rewrite` of the first best-scoring FAQ |
| `FaqMiddlewareProperties.NoFaqsLeavesPrompt` | src/helpers/middleware.ts:28-33 | no parsed FAQs, or an empty list: prompt and slot unchanged, no provider call |
| `FaqMiddlewareProperties.NoUserMessageLeavesPrompt` | src/helpers/middleware.ts:38-46 | an empty prompt, or a last message not from the user: the popped message is pushed back, the prompt equals the original, no provider call |
| `FaqMiddlewareProperties.BlankMessageLeavesPrompt` | src/helpers/middleware.ts:48-57 | a user message whose text parts are all blank is put back; the prompt equals the original, no provider call |
| `FaqMiddlewareProperties.NonQuestionLeavesPrompt` | src/helpers/middleware.ts:59-71 | classified `other`: the prompt equals the original; the only call is the classification; no embedding is made |
| `FaqMiddlewareProperties.FailureLeavesSlotAndDropsMessage` | src/helpers/middleware.ts:38-96 | a provider failure only happens after a user message was popped; it propagates with that message still removed and the slot unwritten |
| `FaqMiddlewareProperties.CacheHitReusesSlot` | src/helpers/middleware.ts:81-83 | on a hit, the cached list is ranked, the only embedding is the query's, and the slot is not written |
| `FaqMiddlewareProperties.QuestionCacheMiss` | src/helpers/middleware.ts:75-96 | the question step on a miss: the query embedding, then one embedding per FAQ question in order; the refresh ends as `RefreshOutcome` says (success exactly when every question embeds; success leaves a slot keyed by this FAQ list and aligned with it; failure leaves the slot and the popped prompt) |
| `FaqMiddlewareProperties.CacheMissRefreshesSlot` | src/helpers/middleware.ts:84-96 | on a miss there are exactly `2 + \|faqs\|` calls: the classification, the query embedding, then one per question in order; success exactly when every question embeds, and then the slot is replaced by an aligned list keyed by this FAQ list; a failed refresh leaves the slot and propagates with the last message popped |
| `FaqMiddlewareProperties.QuestionPromptShape` | src/helpers/middleware.ts:105-127 | after ranking, the pushed message is the original or the original prefixed with one of the supplied FAQs |
| `FaqMiddlewareProperties.AugmentedMessageText` | src/helpers/middleware.ts:112-121 | the augmented message's texts are the preamble followed by the original texts, its extracted text starts with the preamble, and it is never blank |
| `FaqMiddlewareProperties.UserMessagePromptShape` | src/helpers/middleware.ts:48-129 | the same shape for the steps after the pop: the popped message comes back as it was or prefixed with one of the supplied FAQs |
| `FaqMiddlewareProperties.ReturnedPromptShape` | src/helpers/middleware.ts:105-129 | on any non-failing path with a user last message, the prompt equals the original, or equals the earlier messages plus that message prefixed with one of the supplied FAQs |
| `FaqMiddlewareProperties.ThresholdDecides` | src/helpers/middleware.ts:103-127 | once ranked, the message is augmented with the first maximal-similarity FAQ exactly when its similarity is strictly above 0.7; otherwise the prompt equals the original |
| `FaqMiddlewareProperties.QuestionWarmRepeat` | src/helpers/middleware.ts:80-96 | repeating the question steps after a success hits the cache: same prompt, same slot, only the query embedding |
| `FaqMiddlewareProperties.UserMessageWarmRepeat` | src/helpers/middleware.ts:48-129 | the same repeat property for the steps after the pop |
| `FaqMiddlewareProperties.WarmCacheRepeat` | src/helpers/middleware.ts:80-129 | a second call with the same prompt and FAQs after a successful one gives the same prompt and slot; its calls are a prefix of the first's, at most the classification and the query embedding |

## Left out

- Logging: every `console.log` call.
- Schema parsing: the zod parse of the provider metadata (middleware.ts:5-14, 28) is
  an input of type `Option<seq<Faq>>`. `None` means the metadata did not parse.
- Cache key: `JSON.stringify(providedFaqs)` is represented by the FAQ list itself.
  For lists of `{question, answer}` string records, two lists serialise equally
  exactly when they are equal.
- Providers: the Google classifier, the embedder and the `ai` library's
  `cosineSimilarity` are oracle parameters. The instruction strings and model names
  are not modelled. Similarity is a `real`, so floating point is not modelled. This
  covers NaN scores in the sort comparator and `cosineSimilarity` throwing on
  vectors of different lengths.
- Provider determinism: providers are functions of their input, so a repeated call
  with the same text returns the same result. `WarmCacheRepeat` depends on this.
- EmbedAll: does not model the concurrency of `Promise.all`. It reports the error
  of the first failing question in list order. `Promise.all` reports the first
  rejection in time. All questions' embedding calls are issued either way.
- Concurrency between requests: the model runs one request at a time. Two requests
  interleaving at their `await` points (a stale read of the slot, last writer wins)
  are not modelled.
- Provider failures: the code does not catch them. The model follows the code:
  such a failure propagates, the popped message is not restored and the slot is
  not written.
- Request fields: the params object is reduced to its prompt and its parsed FAQ
  list. The other fields are passed through untouched and are not modelled.
  Returning `params` and returning `{ ...params, prompt: messages }` both hand back
  the same mutated prompt.
- Message shapes: every message's content is modelled as a sequence of parts,
  although a system message's content is a plain string. The role check comes
  before any content is read, so this makes no difference. Message fields other
  than `role` and `content` (per-message provider metadata, for one) are not
  modelled. The augmented message is a fresh `{ role: 'user', content }` object,
  so it does not keep such fields of the popped message; the model cannot show
  that drop.
- `trySafe` (type): the generic error type `E` is not modelled; errors are
  `Error`s.
- `trySafe` (promises): a promise is recognised by `instanceof Promise`, so a
  non-Promise thenable would be treated as a plain value. That case is not
  modelled.
- `trySafe` (thrown values): a thrown non-`Error` value is represented by its
  `String(value)` rendering, given as input.
- TrySafe.HandleError: does not model a thrown value whose `String` conversion
  itself throws (`Object.create(null)`, or an object whose `toString` throws).
  For such a value `trySafe` throws out of its `catch` block, or its promise
  rejects. `TrySafe.TrySafe`'s "exactly one slot non-null" holds only for
  thrown values that can be rendered.
- `src/server.ts`: the HTTP routing, body checks and status codes are not part of
  this model.
