# Care cost estimator: a Dafny model of its estimation core

The service answers `POST /estimate` with the estimated cost of a medical
procedure in a ZIP code. It validates the request body. It then calls a
function memoised with `lru_cache(maxsize=100)`. That function builds a prompt
(the procedure, the ZIP code, an optional procedure code, a paragraph picked
for the procedure, and the JSON schema the answer must follow), sends it to a
language model, and decodes the answer as JSON. The answer goes through a
normalizer that reshapes it into an estimate with ten fixed keys. Each failure
becomes one of four fixed error messages.

The model is split into modules that follow that structure:

- `PyValue` (`pyvalue.dfy`): decoded JSON values and the Python behaviour the
  code relies on for them. That is truthiness, `dict.get`, `float()`, `str()`,
  `len()`, indexing, and what a `for` loop over such a value visits or raises.
  Exceptions are a `Result`.
- `Schema` (`schema.dfy`): the key names of the estimate and of its nested objects.
- `Normalizer` (`normalizer.dfy`): `sanitize_cost` and
  `sanitize_estimate_data`.
  - The specification function is `Sanitize`. The imperative
    `SanitizeEstimateData` runs the two loops as `while` loops over the
    elements and is proved equal to it.
  - The lemmas cover:
    - the output invariant (costs null or non-negative, ranges of two slots);
    - how each field follows the input;
    - exactly which inputs make the code raise;
    - idempotence: sanitizing the dict of a sanitized estimate gives it back.
- `PromptBuilder` (`prompt.dfy`): `get_procedure_specific_prompt` (the
  19-entry table and its fallback) and the prompt f-string. The lemmas cover:
  - the code sentence appears exactly when the code is truthy;
  - the request and the elaboration are embedded;
  - every key the normalizer reads is asked for by name;
  - the lookup is case-sensitive, and the fallback differs from every entry.
- `Pipeline` (`pipeline.dfy`): the body of `get_gpt_estimate`.
  - The language model is a parameter `llm: string -> Completion`.
  - Every outcome of the call (decoded JSON, undecodable text, rate limit,
    API error, empty content, other exception) is mapped to the reply.
- `Memo` (`memo.dfy`): the `lru_cache` as a class `EstimateCache` whose
  fields are the stored replies and the recency list. Its `Call` method is
  proved against the function `Memoised`. The lemmas prove four things:
  - the cache invariant holds;
  - hits never consult the model;
  - error replies are cached as well;
  - the list always holds the 100 most recently called distinct keys, in
    order of their last call (least recently used eviction).
- `Route` (`route.dfy`): the `/estimate` handler. It covers the 400, 500 and
  200 answers and when each is given. The imperative `Estimate` method uses
  the cache object.

Two behaviours of the code are worth stating up front:

- The cache evicts the least recently *used* key, not the oldest inserted
  one (`Memo.HitRefreshesKey`, `Memo.CacheHoldsMostRecent`).
- The normalizer is not total. It raises on:
  - a non-dict answer;
  - a `recovery_info` that is present but not a dict (`null` included);
  - a list field that is `null`, a boolean or a number (`TypeError`);
  - a list field that is a non-empty string or a non-empty dict
    (`AttributeError` at the first `.get`, on a character or a key);
  - a list element that is not a dict (`AttributeError`);
  - a cost range that is `null`, a boolean or a number (`TypeError`);
  - a cost range that is a non-empty dict (`KeyError` on `[0]`).

  `Normalizer.SanitizeOkIff` characterises the inputs it accepts. The
  exception then surfaces as the "unexpected error" reply.
- Text fields keep whatever JSON value the answer held. A present `null`
  stays `null`; "N/A" is used only when the key is absent.
- A cost range is read with `len` and indexing. A string range therefore
  yields its characters, passed through `float()`.

## Model

| member | source | states |
|---|---|---|
| PyValue.Truthy | app.py:23-44 | Python truthiness: `None`, `False`, zero and empty strings, lists and dicts are falsy; what it decides is stated by Route.StatusClassification and PromptBuilder.CodeSentenceIff |
| PyValue.Get | app.py:26-28 | `dict.get(key, default)`, here and in the normalizer: the stored value when the key is present, even `null`, and the default only when it is absent; stated by Normalizer.TopLevelFields, Normalizer.RecoveryDefaults and Route.StatusClassification |
| PyValue.Str | app.py:43-44 | `str()` as an f-string embeds a value; stated by PromptBuilder.PromptEmbedsRequest and PromptBuilder.CodeSentenceIff |
| PyValue.Hashable | app.py:39 | the values `lru_cache` can hash, everything but lists and dicts; the precondition of Memo.SameKeyIff and of the prompt lemmas |
| PyValue.FloatOf | app.py:86 | `float()` of a number is that number; of `None`, a list or a dict it fails |
| PyValue.Len | app.py:116-117 | `len()` is defined exactly on strings, lists and dicts |
| PyValue.Index | app.py:116-117 | indexing a list gives the element, a string gives the one-character string, a JSON dict raises `KeyError` |
| PyValue.Iterate | app.py:106-112 | a loop over a list visits its elements, over a string its characters; over `None`, a boolean or a number it raises `TypeError`; over a non-empty dict it reports the `AttributeError` of the first `.get` on a key (Normalizer.DictKeysRaise) |
| PyValue.PyEq | app.py:39 | Python's `==` on hashable values, case by case (`True == 1`); related to the cache key by Memo.CanonicalIff |
| Normalizer.Max0 | app.py:86 | `max(0, x)` is at least 0 and at least `x`, and is one of them |
| Normalizer.SanitizeCost | app.py:84-88 | the result is null or non-negative; it is null exactly when `float()` rejects the value; otherwise it is the value clamped at 0 |
| Normalizer.SanitizeCostOfNumber | app.py:86 | negative numbers become 0, non-negative ones are kept (-5 gives 0, 42.5 gives 42.5), and a string `float()` rejects gives null |
| Normalizer.ComplicationOf | app.py:107-110 | an entry succeeds exactly when it is a dict (otherwise `AttributeError`), and its cost is null or non-negative |
| Normalizer.RangeSlot | app.py:116-117 | slot `i` raises exactly for an unsized range or a dict with more than `i` keys; it is null when the range is too short, and never negative |
| Normalizer.AlternativeOf | app.py:113-118 | an alternative succeeds exactly when it is a dict whose range is a string, a list or an empty dict; its range always has two well-formed slots |
| Normalizer.AlternativeShape | app.py:113-118 | the name is copied; a missing range gives `[null, null]`; slot `j` is the guarded sanitized element `j` |
| Normalizer.ListRangeSlot | app.py:116-117 | for a list range, slot `j` is null past the end and otherwise the sanitized element `j` |
| Normalizer.StringRangeSlot | app.py:116-117 | for a string range, slot `j` is null past the end and otherwise `float()` of character `j`, clamped |
| Normalizer.MapResult | app.py:106-118 | an append loop succeeds exactly when every element succeeds, then gives one result per element in order; otherwise it raises the first failing element's exception |
| Normalizer.MapResultFailsAt | app.py:106-118 | when the elements before `i` succeed and element `i` raises, the loop raises that exception |
| Normalizer.MapResultAllOk | app.py:106-118 | when every element succeeds with a known result, the loop returns exactly those results in order |
| Normalizer.RecoveryOf | app.py:99-102 | the nested recovery dict; stated by Normalizer.RecoveryDefaults and Normalizer.RecoveryRoundTrip |
| Normalizer.Skeleton | app.py:90-104 | the dict literal before the loops; its fields are stated by Normalizer.TopLevelFields and Normalizer.RecoveryDefaults |
| Normalizer.WithComplications | app.py:106-110 | the complications loop; stated by Normalizer.ComplicationsFollowSource, Normalizer.ComplicationsLoopOk and Normalizer.SanitizeRaisesOnElement |
| Normalizer.WithAlternatives | app.py:112-118 | the alternatives loop; stated by Normalizer.AlternativesFollowSource, Normalizer.AlternativesLoopOk and Normalizer.SanitizeRaisesOnElement |
| Normalizer.Sanitize | app.py:83-120 | every estimate the normalizer returns is well-formed (costs null or non-negative, two-slot ranges) |
| Normalizer.CollectComplications | app.py:106-110 | the imperative complications loop returns what the append-loop specification gives, stopping at the first failure |
| Normalizer.CollectAlternatives | app.py:112-118 | the imperative alternatives loop returns what the append-loop specification gives, stopping at the first failure |
| Normalizer.SanitizeEstimateData | app.py:83-120 | the imperative `sanitize_estimate_data` returns what `Sanitize` specifies, exceptions included |
| Normalizer.EstimateJson | app.py:90-104 | the returned dict has exactly the ten estimate keys |
| Normalizer.SanitizeCostFixesClean | app.py:86 | sanitizing a cost that is already null or non-negative gives it back |
| Normalizer.ComplicationRoundTrip | app.py:107-110 | the dict of a well-formed complication sanitizes back to it |
| Normalizer.AlternativeRoundTrip | app.py:113-118 | the dict of a well-formed alternative sanitizes back to it |
| Normalizer.RecoveryRoundTrip | app.py:99-102 | the dict of a well-formed recovery entry sanitizes back to it |
| Normalizer.EstimateJsonScalars | app.py:91-93 | the returned dict holds the name, code, ZIP code and additional info of the estimate |
| Normalizer.EstimateJsonCosts | app.py:94-96 | the returned dict holds the three top-level costs of the estimate |
| Normalizer.EstimateJsonNested | app.py:97-102 | the returned dict holds the complication list, the alternative list and the recovery dict of the estimate |
| Normalizer.SanitizeFixesItsOutput | app.py:83-120 | idempotence: sanitizing the dict of any well-formed estimate returns that estimate |
| Normalizer.SanitizeOfEntries | app.py:83-120 | any dict with the entries of a well-formed estimate sanitizes to that estimate |
| Normalizer.SanitizeOfLists | app.py:106-120 | when both loops run over lists without raising, the result is the initial dict with the two lists filled in |
| Normalizer.ComplicationsLoopOk | app.py:106-110 | the complications loop does not raise exactly on lists of dicts, the empty string and the empty dict |
| Normalizer.AlternativesLoopOk | app.py:112-118 | the alternatives loop does not raise exactly on lists of dicts whose ranges `RangeOk` accepts, the empty string and the empty dict |
| Normalizer.SanitizeOkIff | app.py:83-120 | the normalizer returns an estimate exactly on the accepted inputs and raises on all others (it is not total) |
| Normalizer.SanitizeRaises | app.py:90-112 | a non-dict answer or a non-dict `recovery_info` raises `AttributeError`; a `null` or numeric list field raises `TypeError` |
| Normalizer.SanitizeRaisesOnElement | app.py:106-118 | the first non-dict complication or alternative raises `AttributeError`; the first alternative with an unsized range raises `TypeError` |
| Normalizer.DictKeysRaise | app.py:106-118 | a loop over the string keys of a non-empty dict raises `AttributeError` at the first `.get`, whatever the key order |
| Normalizer.TopLevelFields | app.py:91-96 | present text fields are copied unchanged and absent ones become "N/A"; the three costs are the sanitized source values |
| Normalizer.RecoveryDefaults | app.py:99-102 | an absent `recovery_info` gives "N/A" and null; a present one is a dict whose two entries are carried over |
| Normalizer.ComplicationsFollowSource | app.py:106-110 | the complications keep the source list's length and order, entry `i` being the sanitized source entry `i`; they are empty when the key is absent or not a list |
| Normalizer.AlternativesFollowSource | app.py:112-118 | the alternatives keep the source list's length and order; they are empty when the key is absent or not a list |
| Normalizer.ComplicationWithoutCost | app.py:107-110 | a complication with a name and no cost gets that name and a null cost |
| Normalizer.SanitizeEmptyObject | app.py:90-104 | `{}` is accepted and gives the all-default estimate |
| PromptBuilder.Elaboration | app.py:122-144 | a listed name (exact string match) gets its own paragraph; every other value gets the fallback |
| PromptBuilder.HipDiffersFromFallback | app.py:126-144 | the hip replacement paragraph is not the fallback |
| PromptBuilder.FallbackIsNoEntry | app.py:122-144 | the fallback is not the paragraph of any listed procedure |
| PromptBuilder.FallbackIff | app.py:144 | the fallback is given exactly to values outside the table |
| PromptBuilder.NamesAreCapitalised | app.py:123-143 | every listed name is non-empty and starts with a capital letter |
| PromptBuilder.SmallInitialFallsBack | app.py:144 | a name starting with a small letter is not listed and gets the fallback |
| PromptBuilder.CaseVariantFallsBack | app.py:144 | the lookup is case-sensitive: the lower-cased form of a capitalised name gets the fallback |
| PromptBuilder.UnlistedFallsBack | app.py:144 | an unlisted value, a non-string included, gets the fallback and never another entry's paragraph |
| PromptBuilder.Opening | app.py:43 | the first line; stated by PromptBuilder.PromptEmbedsRequest |
| PromptBuilder.CodeSentence | app.py:44 | the code sentence; stated by PromptBuilder.CodeSentenceIff and PromptBuilder.CodeMentionedWhenTruthy |
| PromptBuilder.CodeClause | app.py:44 | the conditional second line; stated by PromptBuilder.CodeSentenceIff |
| PromptBuilder.Layout | app.py:43-53 | the f-string's four parts joined by indented line breaks; what the text contains is stated by PromptBuilder.LayoutParts and PromptBuilder.LayoutClauseLine |
| PromptBuilder.Prompt | app.py:43-53 | the prompt built around a looked-up paragraph; its content is stated by PromptBuilder.CodeSentenceIff, PromptBuilder.PromptEmbedsRequest and PromptBuilder.PromptRequestsEveryKey |
| PromptBuilder.LayoutParts | app.py:43-53 | the prompt starts with the opening and contains the elaboration and the schema |
| PromptBuilder.LayoutClauseLine | app.py:43-45 | the second line starts with the sentence exactly when the clause is that sentence; an empty clause leaves an empty line |
| PromptBuilder.CodeSentenceIff | app.py:44 | the second line starts with "The procedure code is X." exactly when the code is truthy; otherwise the line is empty |
| PromptBuilder.CodeMentionedWhenTruthy | app.py:44 | a truthy code is named in the prompt; all falsy codes give the same prompt |
| PromptBuilder.PromptEmbedsRequest | app.py:43-53 | the prompt starts with "Estimate the cost of P in ZIP code Z." and contains the elaboration and the schema instructions |
| PromptBuilder.RequestPromptGuidance | app.py:42-45 | a request's prompt carries its procedure's own paragraph when the name is listed, and the fallback otherwise |
| PromptBuilder.RequestPrompt | app.py:42-53 | the lookup followed by the f-string; stated by PromptBuilder.RequestPromptGuidance |
| PromptBuilder.SchemaQuotesTopLevelKey | app.py:46-48 | the schema text quotes each of the ten top-level keys |
| PromptBuilder.SchemaQuotesNestedKey | app.py:49-51 | the schema text quotes each of the five nested keys |
| PromptBuilder.PromptRequestsEveryKey | app.py:46-51 | the prompt asks, by quoted name, for every key the normalizer reads |
| Pipeline.Message | app.py:72-81 | the four fixed messages; stated by Pipeline.MessagesDistinct and Pipeline.ReplyJson |
| Pipeline.MessagesDistinct | app.py:70-81 | distinct failure kinds give distinct messages |
| Pipeline.CompletionFailure | app.py:61-81 | exactly the outcomes other than a decoded answer are failures |
| Pipeline.GetGptEstimate | app.py:40-81 | every estimate it returns is well-formed |
| Pipeline.RunPipeline | app.py:40-69 | the imperative body returns what `GetGptEstimate` specifies |
| Pipeline.ReplyClassification | app.py:61-81 | an estimate comes back exactly for a decoded answer the normalizer accepts; a rejected answer, empty content or another exception give the unexpected-error reply; undecodable text, a rate limit and an API error give their own messages |
| Pipeline.ReplyJson | app.py:69-81 | an error reply is the one-key dict `{"error": message}`; an estimate has exactly the ten estimate keys |
| Pipeline.ErrorKeyMarksFailure | app.py:69-81 | a reply has an "error" key exactly when it is an error reply |
| Pipeline.GetGptEstimateAsWritten | app.py:70-81 | when the handlers' class lookups fail, any reply that does come back is the intended one |
| Pipeline.RateLimitEscapesAsWritten | app.py:73-75 | with those lookups failing, a rate-limited call raises `AttributeError` instead of returning the rate-limit message |
| Pipeline.AsWrittenAgreesIff | app.py:70-81 | with those lookups failing, a reply comes back exactly for undecodable text and for accepted answers |
| Memo.Canonical | app.py:39 | booleans become the number they equal under `==`; every other value is kept |
| Memo.CanonicalIff | app.py:39 | two hashable values have the same canonical form exactly when Python's `==` holds between them |
| Memo.KeyOf | app.py:39 | the cache slot of a call's arguments; stated by Memo.SameKeyIff |
| Memo.SameKeyIff | app.py:39 | two calls share a cache slot exactly when their arguments are pairwise equal under Python's `==`; `True` and `1` share one |
| Memo.Without | app.py:39 | unlinking a key removes exactly that key and keeps the list duplicate-free |
| Memo.Touch | app.py:39 | touching a key makes it the most recent and keeps every other key once |
| Memo.Lookup | app.py:39 | one call of the wrapper; stated by Memo.LookupKeepsValid, Memo.LookupKeepsOthers, Memo.LookupFollowsStep and Memo.HitRefreshesKey |
| Memo.Memoised | app.py:39-40 | the wrapper applied to `get_gpt_estimate`; stated by Memo.HitIgnoresModel and Memo.MissConsultsModel |
| Memo.LookupKeepsValid | app.py:39 | every call keeps the invariant (at most 100 keys, each stored key listed once), stores the returned reply and makes its key the most recent |
| Memo.LookupKeepsOthers | app.py:39 | a call leaves every other stored reply as it was; every other stored key stays, except the oldest one when a miss finds the cache full |
| Memo.HitIgnoresModel | app.py:39-40 | a hit returns the stored reply and the same new state whatever the model would answer |
| Memo.MissConsultsModel | app.py:39-40 | a miss returns what the wrapped function returns |
| Memo.RepeatReturnsSame | app.py:39 | a second call with equal arguments returns the first call's reply, error replies included |
| Memo.Run | app.py:39 | a sequence of calls; stated by Memo.RunKeepsValid and Memo.StoredReplyPersists |
| Memo.RunKeepsValid | app.py:39 | any sequence of calls keeps the cache invariant |
| Memo.StoredReplyPersists | app.py:39 | a stored reply is unchanged after any calls that never evict its key |
| Memo.RepeatAfterCallsReturnsSame | app.py:39 | a repeated call after any other calls that left its key cached returns the first reply, error replies included |
| Memo.LookupFollowsStep | app.py:39 | the recency list after a call is the step function of the list before it |
| Memo.HitRefreshesKey | app.py:39 | least recently used, not insertion order: in a full cache, a hit saves the oldest key from the next eviction, and the key after it goes instead |
| Memo.Recent | app.py:39 | the recency list of a call history is duplicate-free and holds exactly the called keys |
| Memo.StepKeepsLast | app.py:39 | one call keeps the cached list equal to the most recent 100 distinct keys |
| Memo.ReplayKeepsMostRecent | app.py:39 | the step function replayed from empty gives the last 100 keys of the recency list |
| Memo.LastPos | app.py:39 | the position of a key's last call: it holds the key and no later call does |
| Memo.WithoutSorted | app.py:39 | unlinking a key keeps the remaining keys in their order |
| Memo.RecentOrdered | app.py:39 | the recency list is ordered by last call: an earlier entry was last called before a later one |
| Memo.KeysOf | app.py:39 | the keys of a call sequence, one per call in order |
| Memo.RunFollowsReplay | app.py:39 | after any calls from an empty cache, the cache is valid and its recency list is the step function replayed over the called keys |
| Memo.CacheHoldsMostRecent | app.py:39 | starting empty, the cache's recency list is the last 100 distinct keys ordered by last call (Memo.RecentOrdered), and it stores a reply for exactly those keys |
| Memo.EstimateCache.constructor | app.py:39 | a new cache is empty and valid |
| Memo.EstimateCache.Call | app.py:39-40 | a call of the cache object returns and stores what `Memoised` specifies, and keeps the invariant |
| Route.ErrorBody | app.py:24-37 | an error body is the one-key dict `{"error": message}` |
| Route.Validate | app.py:22-31 | the validation branches; their statuses and conditions are stated by Route.StatusClassification, Route.ArgumentsFromBody and Route.BodyExamples |
| Route.Handle | app.py:19-37 | the whole request; stated by Route.StatusClassification, Route.RefusalKeepsCache and Route.FailedEstimateAnswers200 |
| Route.ArgumentsFromBody | app.py:26-28 | the procedure and ZIP code are taken from the body; the procedure code defaults to "" |
| Route.StatusClassification | app.py:19-37 | gives each status and its condition: 400 "Invalid request data" for a falsy body; 400 for a missing procedure or ZIP code; 500 for a non-dict body or an unhashable argument; 200 exactly when the cached function is consulted |
| Route.RefusalKeepsCache | app.py:23-31 | a refused request leaves the cache unchanged and is not answered with 200 |
| Route.FailedEstimateAnswers200 | app.py:33-34 | an error reply of the estimate is still answered with 200, carrying its message |
| Route.BodyExamples | app.py:22-31 | `{}` is an invalid request; a body with only a procedure misses its ZIP code; a list body gives 500; procedure and ZIP alone consult with an empty code |
| Route.Estimate | app.py:19-37 | the imperative handler answers and updates the cache object as `Handle` specifies, and keeps the cache invariant |

## Left out

- Flask plumbing is not modelled:
  - the `/` page and template rendering;
  - `app.run`, the secret key and the environment variables;
  - the start-up check of the API key;
  - logging.
- `request.json` is taken as already decoded. A body it cannot decode (wrong
  content type, invalid JSON) makes it raise inside the `try`, so the
  handler answers 500 "An unexpected error occurred. Please try again.",
  not 400. The model has no such body; it starts from the decoded value.
- `jsonify` is modelled as the JSON value it serialises. Key order,
  whitespace and number rendering are not modelled.
- The model call is a parameter `llm` from the prompt to an outcome. The
  model name, `response_format`, and the network are not modelled. So are
  the indexing of `response.choices[0]` and the decoding done by `json.loads`.
  Their failures are the outcomes "other exception" and "undecodable text".
- `float()` on a string and `str()` on a number are the `Builtins`
  parameters `parseFloat` and `formatNumber`, since their results come from
  CPython's number parser and printer.
- Numbers are exact reals. The difference between `int` and `float` is not
  modelled: `max(0, -5.0)` is the integer `0`, which `jsonify` prints as `0`.
  Neither are NaN, infinities and float rounding. `float()` of an integer
  beyond float range raises `OverflowError`, which `sanitize_cost` does not
  catch, so such an answer ends in the unexpected-error reply; the model's
  `float()` never fails on a number.
- Exceptions are modelled by kind only (`AttributeError`, `TypeError`,
  `KeyError`). Their messages and the class hierarchy are not modelled. In
  the intended reading, every exception the normalizer raises is caught by
  the final `except Exception`.
- Pipeline.GetGptEstimate: it assumes that `OpenAI.RateLimitError` and
  `OpenAI.APIError` resolve to the library's exception classes. What happens
  when they do not is in `Pipeline.GetGptEstimateAsWritten`, under Findings.
- Concurrency is not modelled: `lru_cache`'s lock and two requests that miss
  the same key at the same time.
- Memo.Lookup: it has no contract of its own. Its properties are the `Memo`
  lemmas listed under Model.
- PromptBuilder.RequestPrompt: it has no contract of its own.
  `PromptBuilder.RequestPromptGuidance` and the prompt lemmas, which take the
  looked-up paragraph as a parameter, state its properties.
- The front-end scripts `main.js` and `script.js` are not part of this model.

## Findings

| source | as written | input that shows it | evidently intended | confidence | as-written member | corrected member |
|---|---|---|---|---|---|---|
| app.py:73-78 | the handlers name `RateLimitError` and `APIError` as attributes of the client class `OpenAI`, but the `openai` package exports them from the module. Python evaluates `except` clauses in order, so any exception other than a JSON decoding error makes the second clause raise `AttributeError`. | a rate-limited call (`llm := _ => RateLimitHit`), and likewise empty content or a rejected answer | each failure gets its own message from `get_gpt_estimate` (and that reply is cached) | medium, not executed; depends on the `openai` package, which is not part of this model | Pipeline.GetGptEstimateAsWritten, Pipeline.RateLimitEscapesAsWritten | Pipeline.GetGptEstimate, Pipeline.ReplyClassification |
