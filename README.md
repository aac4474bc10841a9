# Data-visualization assistant: verified model of its logic

The application lets a user ask an OpenAI assistant about business data. The
answer is turned into a chart, and a chart type is suggested for it. This
project models the three parts of the repository that hold logic, and proves
what they do:

- **`VisualizationService`** (`visualization.dfy`) turns an assistant reply into
  chart data. It classifies the reply as no-data or dummy, picks a chart
  category from an ordered keyword table, and extracts the decimal numbers
  left to right. It takes the title and description from the first two lines,
  and slices the number pool into a fixed structure per category. The random
  stand-in numbers are a parameter, `fallback`. Numbers are exact decimals
  (`real`).
- **`OpenAIService`** is the assistant client. It has two layers:
  - `openai_model.dfy` holds the specification functions. They cover the
    configuration checks of the constructor, the retry helper with
    exponential back-off, the error-to-message normaliser, lazy thread
    creation, the bounded polling of a run, and `sendMessage` with its
    catch-all handler.
  - `openai_service.dfy` holds the class `AssistantService`. Its field
    `thread` is set and cleared as in the source. `Retry` is recursive and
    `AwaitRun` is a `while` loop. Every method is proved to return the result,
    and leave the state, that its specification function gives.

  The SDK is a scripted remote: the n-th remote invocation of the client is
  answered by the function for that operation applied to n. Waits are kept in
  a ghost log of delays, and every invocation, with its arguments, in a ghost
  log of calls.
- **`ChartSuggestion`** (`chart_suggestion.dfy`) holds two keyword
  classifiers: the demo-data badge and the suggested chart type.

`text.dfy` models the JavaScript string primitives these parts use:

- `toLowerCase` on ASCII letters;
- `includes`;
- `trim` and `\s`, over the full set of JavaScript white-space and
  line-terminator code points;
- `split` on one character.

`wrappers.dfy` holds `Option` and `Result`.

Behaviours of the code worth noting:

- Nothing is padded. A short pool gives short series.
- `isValid` is always true. The "No trained data" error can never be thrown.
- An empty pool is replaced by random numbers without setting `isDummy`.
- `maxRetries = 3` means up to four invocations of an operation.

## Model

| member | source | states |
|---|---|---|
| Text.ToLower | src/services/visualizationService.ts:53 | `toLowerCase` keeps the length and maps every character by itself: an ASCII capital to its small letter, anything else unchanged |
| Text.Contains | src/services/visualizationService.ts:24 | the empty word is in every text, and a contained word is no longer than the text |
| Text.ContainsIff | src/services/visualizationService.ts:23-29 | the left-to-right scan used for `includes` holds exactly when the word occurs at some index |
| Text.Trim | src/services/openai.ts:95 | the trimmed text is empty exactly when every character is JavaScript white space |
| Text.Split | src/services/visualizationService.ts:70 | splitting on a character gives at least one part; no part holds the separator; a text without the separator is its own single part |
| Text.JoinSplit | src/services/visualizationService.ts:70 | round trip: joining the parts of a split with the separator gives the text back |
| VisualizationService.ValidateResponse | src/services/visualizationService.ts:12-36 | `isDummy` holds iff the lower-cased reply contains one of the seven no-data phrases or `dummy`/`sample`/`example`; `isValid` is always true |
| VisualizationService.Matches | src/services/visualizationService.ts:39 | every element of the global match of `\d+(?:\.\d+)?` is a numeral: digits, optionally a dot and more digits |
| VisualizationService.MatchLength | src/services/visualizationService.ts:39 | the match at a digit is a numeral that no following digit can extend, nor a dot and digit when it has no fraction yet |
| VisualizationService.NumeralValue | src/services/visualizationService.ts:39 | `Number` of a numeral is non-negative; an all-digit numeral is its decimal value; otherwise the digits before the dot are the whole part and the fraction is below one |
| VisualizationService.ExtractNumbers | src/services/visualizationService.ts:38-40 | one value per match, in order, each the exact value of its numeral and non-negative; empty iff the text has no ASCII digit |
| VisualizationService.MatchesEmptyIff | src/services/visualizationService.ts:39 | there is no match exactly when the text has no digit |
| VisualizationService.MatchesKeepEveryDigit | src/services/visualizationService.ts:39 | the matches together hold every digit of the text once and in order: none skipped, none overlapping |
| VisualizationService.NumeralMatchesWhole | src/services/visualizationService.ts:39 | a numeral on its own is matched whole |
| VisualizationService.DecimalStringValue | src/services/visualizationService.ts:39 | the decimal spelling of n has value n |
| VisualizationService.ExtractRendered | src/services/visualizationService.ts:38-40 | round trip: a natural number written in decimal is extracted as exactly itself |
| VisualizationService.DecimalNumeralValue | src/services/visualizationService.ts:39 | digits, a dot and digits form a numeral whose `Number` is the whole part plus the fraction digits over the matching power of ten |
| VisualizationService.ExtractRenderedDecimal | src/services/visualizationService.ts:38-40 | round trip with a fraction: `a`, a dot and the digits of `b` are extracted as exactly `a + b / 10^k`, `k` the number of digits of `b` |
| VisualizationService.FirstMatchIsFirst | src/services/visualizationService.ts:53-60 | the first-match search returns the category of the first group, in table order, with a keyword in the text, or `mixed` when no group has one |
| VisualizationService.DetectDataType | src/services/visualizationService.ts:42-61 | the category is that of the first keyword group in the order sales, comparison, trend, distribution, radar, gauge, mixed that has a keyword in the lower-cased text; `mixed` when none has |
| VisualizationService.SalesWins | src/services/visualizationService.ts:44-56 | a text containing `sales` is a sales chart whatever else it contains |
| VisualizationService.ComparisonExcludesSales | src/services/visualizationService.ts:44-56 | a comparison is chosen only when no sales keyword occurs and a comparison keyword does |
| VisualizationService.Pool | src/services/visualizationService.ts:85-89 | the pool is never empty; it is the extracted numbers, or exactly the twelve draws when there are none |
| VisualizationService.Slice | src/services/visualizationService.ts:98-104 | `slice` with clamped bounds: the exact sub-sequence when in range, the tail when the end is past it, empty when crossed or past the end; never an element from elsewhere |
| VisualizationService.ElementOr | src/services/visualizationService.ts:112 | the logical-or default of `data[i]` and `d`: the element when present and not 0, otherwise the default; the result is one of the two, and never 0 when the default is not |
| VisualizationService.CreateDataStructure | src/services/visualizationService.ts:84-212 | per category, each series is an unpadded slice of the pool. Sales/trend take the first min(n,12) with all months. Comparison halves split at floor(n/2), concatenate to the pool, and carry the first min(floor(n/2),12) months. Distribution takes the first min(n,4). Radar slices concatenate to the first min(n,12). The gauge value is pool[0], or 75 when it is 0, and the two slices sum to 100. The mixed KPIs default to 85/100/75 when an element is missing or 0 |
| VisualizationService.RadarChart | src/services/visualizationService.ts:93-109 | the current and previous periods are the first six values and the next six, together exactly the first min(n,12) |
| VisualizationService.GaugeChart | src/services/visualizationService.ts:111-124 | the gauge value is the first value, or 75 when it is 0; the two slices are the value and its complement to 100 |
| VisualizationService.MixedChart | src/services/visualizationService.ts:126-155 | KPIs are the first three values, each defaulted (85, 100, 75) when missing or 0; the trend (six month labels) and the distribution (labels A-D) together are exactly the first min(n,10) values, the trend taking min(n,6) |
| VisualizationService.LineChart | src/services/visualizationService.ts:157-169 | a prefix of the values of length min(n,12), against all twelve months |
| VisualizationService.ComparisonChart | src/services/visualizationService.ts:171-183 | the two series split the values at floor(n/2) and concatenate to all of them; the labels are the first min(floor(n/2),12) months |
| VisualizationService.DistributionChart | src/services/visualizationService.ts:185-197 | a prefix of the values of length min(n,4), against the four category labels |
| VisualizationService.SeriesValuesFromPool | src/services/visualizationService.ts:93-197 | no value is invented: every series value other than the gauge's two slices is an element of the pool |
| VisualizationService.Title | src/services/visualizationService.ts:70 | an all-`#`/white-space line gives `Data Analysis`; otherwise the title is the suffix left after the leading `#`/white-space run, and starts with neither; a line without a newline gives a title without one |
| VisualizationService.ParseOpenAIResponse | src/services/visualizationService.ts:63-82 | never fails. The title is that of the first line and the description is the second line or empty, neither holding a newline. `isDummy` is the classifier's verdict. The data is built from the detected category and the extracted numbers |
| VisualizationService.FallbackDoesNotFlagDummy | src/services/visualizationService.ts:64-89 | a reply without digits is charted from the twelve draws, yet is flagged dummy only when its wording says so |
| ChartSuggestion.IsDemoData | src/components/ChartSuggestion.tsx:30-31 | demo whenever the text lacks the case-sensitive `assistant`, and whenever its lower-cased form contains `demo` or `sample` |
| ChartSuggestion.SuggestedType | src/components/ChartSuggestion.tsx:33-51 | always one of the five offered types and never doughnut; line iff `trend`; bar iff `compar` without `trend`; pie, radar and mixed likewise down the priority chain |
| ChartSuggestion.LowerKeepsLowerWord | src/components/ChartSuggestion.tsx:48-51 | a lower-case word contained in the text is contained in its lower-cased form |
| ChartSuggestion.TrendAlwaysLine | src/components/ChartSuggestion.tsx:48 | a text containing `trend` is suggested a line chart regardless of other keywords |
| OpenAIModel.CheckConfiguration | src/services/openai.ts:11-21 | construction succeeds iff both settings are present, non-empty and free of their placeholders; the API key is checked first, each failure with its own message |
| OpenAIModel.ErrorNotice | src/services/openai.ts:75-89 | total, with one iff per message: 401 auth, 404 not found, 429 rate limit, 500 and above unavailable; a missing status or any other status gives the generic message |
| OpenAIModel.NoticeText | src/services/openai.ts:76-88 | the five texts getErrorMessage returns, one per notice; no contract of its own: which errors get which text is stated by `ErrorNotice` |
| OpenAIModel.RetrySpec | src/services/openai.ts:60-73 | at least one invocation, at most 4 from a first call; the outcome is the last invocation's answer; one delay between consecutive invocations |
| OpenAIModel.RetriedOnlyRetryable | src/services/openai.ts:63-69 | every invocation before the last failed with a status other than 401/404 |
| OpenAIModel.GivesUpOnlyWhenSpent | src/services/openai.ts:67-71 | a retryable failure is returned only once the three retries are spent |
| OpenAIModel.BackoffDoubles | src/services/openai.ts:68 | the k-th wait is 1000·2^(retryCount+k) ms |
| OpenAIModel.RetryTotalWait | src/services/openai.ts:60-73 | the waits sum to 1000·(2^last − 2^first) ms |
| OpenAIModel.RetryBounds | src/services/openai.ts:8-9 | one retried operation invokes at most four times and waits at most 7000 ms |
| OpenAIModel.SettlesOnFirstTry | src/services/openai.ts:62-66 | a success, a 401 or a 404 ends the operation after one invocation with no wait |
| OpenAIModel.SucceedsAfterFailures | src/services/openai.ts:60-73 | k ≤ 3 retryable failures then a success: the success after k+1 invocations and 1000·(2^k − 1) ms |
| OpenAIModel.RetryOutcomeStep | src/services/openai.ts:63-69 | a retryable failure with retries left is one invocation and a wait of 1000·2^retryCount ms, followed by the retry with the count raised by one |
| OpenAIModel.RetryOutcomeSettled | src/services/openai.ts:61-71 | a success, a 401 or 404, or a failure with the retries spent is settled by that one invocation, with no wait |
| OpenAIModel.GivesUpAfterFourFailures | src/services/openai.ts:67-71 | four retryable failures: the fourth is rethrown after 7000 ms |
| OpenAIModel.InitErrorMessage | src/services/openai.ts:44-53 | initThread's catch: the invalid-key text iff 401, the assistant text iff 404, the initialisation failure text for everything else |
| OpenAIModel.InitThreadSpec | src/services/openai.ts:36-54 | an existing thread is returned and nothing is invoked; otherwise exactly one unretried creation, and success iff a thread is then stored; failures carry a plain error without status; no wait |
| OpenAIModel.RunEndMessage | src/services/openai.ts:136-146 | a failed, cancelled or expired run is reported with its own text: each text iff its status |
| OpenAIModel.PollSpec | src/services/openai.ts:119-154 | between 1 and 30 status retrievals, at most four invocations each; the thread is untouched; the wait and call logs only grow |
| OpenAIModel.FirstPollDecides | src/services/openai.ts:132-146 | a final status answered at once ends polling after one invocation: success for `completed`, the status's own error otherwise |
| OpenAIModel.PollContinues | src/services/openai.ts:148-154 | a queued or in-progress run before the thirtieth wait is polled again after the one-second wait |
| OpenAIModel.PollEnds | src/services/openai.ts:132-154 | any other round is the last one, with or without the wait |
| OpenAIModel.PollTimesOut | src/services/openai.ts:148-153 | a run stuck in progress fails with the time-out error after exactly thirty retrievals and thirty one-second waits |
| OpenAIModel.UnexpectedStatusEndsPolling | src/services/openai.ts:148-154 | a status outside the final ones, queued and in_progress ends polling as a success after one wait |
| OpenAIModel.PollRoundBound | src/services/openai.ts:124-154 | a polling round waits at most 8000 ms (7000 of back-off and the 1000 pause) and either ends the polling or hands over to the next round |
| OpenAIModel.PollWaitBound | src/services/openai.ts:124-154 | polling waits at most 8000 ms per retrieval |
| OpenAIModel.FirstAssistantText | src/services/openai.ts:160-167 | a reply is the non-empty text of the first assistant message in list order; no reply when that message lacks one |
| OpenAIModel.ReplyOf | src/services/openai.ts:160-165 | the reply is the non-empty text of the first assistant message; otherwise the no-response error, and then the first assistant message, if any, has no text |
| OpenAIModel.ReadReply | src/services/openai.ts:156-167 | the retried listing keeps the thread, takes at most four invocations, only extends the logs, and a reply is non-empty |
| OpenAIModel.AwaitAndRead | src/services/openai.ts:119-167 | polling then listing keeps the thread, takes at most 124 invocations, only extends the logs, and a reply is non-empty |
| OpenAIModel.RunAndRead | src/services/openai.ts:111-167 | creating the run and awaiting it keeps the thread, takes at most 128 invocations, only extends the logs |
| OpenAIModel.Exchange | src/services/openai.ts:103-167 | adding the message onwards keeps the thread, takes at most 132 invocations, only extends the logs |
| OpenAIModel.PollCallsGrow | src/services/openai.ts:124-154 | polling makes at least one invocation |
| OpenAIModel.ReadReplyListed | src/services/openai.ts:156-167 | a reply read from the thread is the first assistant text of the listing answered by the read's last invocation, which was a listing of that thread |
| OpenAIModel.AwaitAndReadListed | src/services/openai.ts:119-167 | the same after any number of polls and retries: the reply comes from the listing answered by the last invocation |
| OpenAIModel.RunAndReadListed | src/services/openai.ts:111-167 | the same from the creation of the run |
| OpenAIModel.ExchangeListed | src/services/openai.ts:103-167 | the same from the adding of the message |
| OpenAIModel.AttemptReplyListed | src/services/openai.ts:92-167 | whatever retries and polls it took, the attempt's reply is the first assistant text of the listing of the attempt's thread answered by its last invocation |
| OpenAIModel.AttemptSpec | src/services/openai.ts:92-167 | blank input fails at once with the session unchanged; a reply is non-empty and leaves a thread; an existing thread is kept; the wait and call logs only grow |
| OpenAIModel.AttemptCallBound | src/services/openai.ts:92-167 | at most 133 invocations: one thread creation, four each for adding and running, four per each of at most 30 polls, four for listing |
| OpenAIModel.AttemptWithThread | src/services/openai.ts:99-101 | with a thread, the attempt goes straight to the exchange on it |
| OpenAIModel.AttemptOfInitFailure | src/services/openai.ts:40-53 | without a thread, a failed creation ends the attempt after one invocation with a plain error that carries no status |
| OpenAIModel.ExchangeOfRefusedAdd | src/services/openai.ts:64-65 | a 401 or 404 on adding the message fails the exchange with that error after one invocation and no wait |
| OpenAIModel.ReadReplyAtOnce | src/services/openai.ts:156-167 | listing answered at once gives the first assistant text or the no-response error, after one invocation |
| OpenAIModel.AwaitOfCompletedRun | src/services/openai.ts:132-134 | a run found completed by the first retrieval goes on to list the messages |
| OpenAIModel.AwaitOfEndedRun | src/services/openai.ts:136-146 | a run found failed, cancelled or expired by the first retrieval fails with its own message and lists nothing |
| OpenAIModel.AwaitTimesOut | src/services/openai.ts:148-153 | a run that stays in progress times out after exactly 30 invocations and 30 waits of 1000 ms; nothing is listed |
| OpenAIModel.AttemptTimesOut | src/services/openai.ts:104-153 | the attempt on such a run times out after 32 invocations and thirty one-second waits, keeping the thread |
| OpenAIModel.AttemptReadsFirstAssistantText | src/services/openai.ts:156-167 | with every step answered at once and the run completed, the attempt's result is the first assistant text, or the no-response error, after four invocations and no wait |
| OpenAIModel.ResetsThread | src/services/openai.ts:173-174 | every error shown as the auth or not-found message drops the thread; an error that does not drop it was one the retry helper retries |
| OpenAIModel.SendReplyListed | src/services/openai.ts:156-181 | what sendMessage returns is the first assistant text of the listing of the thread's messages answered by the call's last invocation |
| OpenAIModel.SendSpec | src/services/openai.ts:91-181 | every failure is one of the five messages; blank input gives the generic one before any invocation; a reply is non-empty with a thread in place; an existing thread is kept or dropped, never replaced; at most 133 invocations |
| OpenAIModel.RunEndKeepsThread | src/services/openai.ts:136-146 | none of the three run-ending errors says `Thread not found`, so none drops the thread |
| OpenAIModel.InitFailureSurfacesGeneric | src/services/openai.ts:44-53 | a failed thread creation, even a 401 or 404, surfaces as the generic message after one invocation |
| OpenAIModel.AuthFailureOnAddDropsThread | src/services/openai.ts:104-109 | a 401 on adding the message gives the auth message after one invocation, without waiting, and drops the thread |
| OpenAIModel.CreatesThreadFirst | src/services/openai.ts:99-101 | without a thread, the first invocation of a non-blank send creates one |
| OpenAIModel.StartsRun | src/services/openai.ts:103-117 | adding the message and creating the run hand over to polling that run |
| OpenAIModel.RunFailureSurfacesGeneric | src/services/openai.ts:136-146 | a failed, cancelled or expired run gives the generic message, keeps the thread, after three invocations |
| OpenAIModel.SendReadsFirstAssistantText | src/services/openai.ts:156-167 | after completion the reply is the first assistant message's text, or the generic message; four invocations, no wait |
| OpenAIModel.ThreadDroppedIffResetting | src/services/openai.ts:172-176 | an existing thread is dropped iff the error has status 401 or 404 or says `Thread not found` |
| OpenAIModel.SendTimesOut | src/services/openai.ts:119-154 | a run stuck in progress gives the generic message after thirty polls and thirty seconds, keeping the thread |
| OpenAIService.AssistantService.constructor | src/services/openai.ts:11-28 | a configured client starts with no thread, no invocation and empty logs |
| OpenAIService.AssistantService.Create | src/services/openai.ts:11-28 | a client exists iff the configuration check passes, otherwise its error message is returned |
| OpenAIService.AssistantService.Wait | src/services/openai.ts:56-58 | the delay is appended to the wait log and nothing else changes |
| OpenAIService.AssistantService.Invoke | src/services/openai.ts:104-109 | one SDK call: the answer is the scripted one for the current invocation count, which goes up by one, and the call is logged |
| OpenAIService.AssistantService.Retry | src/services/openai.ts:60-73 | the recursive method returns the retry specification's outcome and records exactly its invocations, its back-off delays and one log entry per invocation |
| OpenAIService.AssistantService.InitThread | src/services/openai.ts:36-54 | result and new state are those of the thread-initialisation specification |
| OpenAIService.AssistantService.AwaitRun | src/services/openai.ts:119-154 | the polling loop ends with the polling specification's outcome and session |
| OpenAIService.AssistantService.Attempt | src/services/openai.ts:92-167 | result and new state are those of the attempt specification |
| OpenAIService.AssistantService.SendMessage | src/services/openai.ts:91-181 | the result is the send specification's reply or message text, and the new state (thread included) is the specification's |

## Left out

- SDK calls are a scripted remote indexed by the invocation count. The network, the SDK's own retries and the shapes of its objects are not modelled. Only a thread id, a run id, a run status and the messages' role and content parts are kept.
- Waiting (`setTimeout`) is a delay appended to a ghost log. Time does not pass.
- `console.error` logging is not modelled.
- The module-level singleton `openAIService` and the reading of the environment variables are not modelled. The two settings are parameters of `Create`.
- `validateEnvironment` is not modelled. It cannot fail after a successful constructor, which guarantees both settings.
- Concurrent `sendMessage` calls are not modelled. The methods run one at a time.
- A thrown error is `ApiError(status, message)`. A status that is not a number is treated like a missing one.
- `Math.random` is the parameter `fallback`: twelve integers below 100.
- Number values are exact decimals. Floating-point rounding of long digit strings is not modelled.
- `createDataStructure`'s colours, widths, tension, rotation and the float `value / 100` colour are not modelled. Only labels and numbers are kept.
- `toLowerCase` folds ASCII letters only. Non-ASCII case folding is not modelled.
- `ChartSuggestion.IsDemoData`: its contract states the two "whenever" directions. The if-and-only-if is its definition.
- The React components (the rest of `ChartSuggestion.tsx`, `App.tsx`, the access overlay, PDF export, the sales chart's projections, static demo data) are UI and not part of this model.
