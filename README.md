# Credit metering for a Dify chat gateway, in Dafny

This project models the billing core of a gateway that sits in front of
the Dify chat service. Users hold a prepaid balance of credits (tokens).
A chat request is estimated, refused when the balance cannot cover the
estimate, forwarded to Dify, and then charged for the tokens Dify reports,
or for the estimate when it reports none. Balances are topped up by token
packages bought through Stripe, or credited at once in the demo server.

The repository carries several variants of the same core, and each is
modelled in its own module, in the form its source takes:

- `Pricing` and `Estimation`: the rate table with its default of 0.1
  credits per token, the four credit packs, and the heuristic token
  estimator (complexity classes, response and context allowances,
  confidence levels, usage statistics).
- `Ledger`: the debit and credit every balance store performs, as pure
  transitions on a balance map and an append-only event log, with the
  lemmas (no negative balance, every debit logged, other users untouched)
  that every store inherits.
- `MockDatabase`, `MockUsageService`, `PrismaStore`, `UsageService`,
  `CreditService` and `PointsServer`: the stores themselves, as classes
  whose methods update their fields and state the new ledger they leave.
- `Settlement` (blocking and streaming chat in the compiled gateway),
  `ChatRoute`, `ChatService` and `MockChatService` (the TypeScript chat
  endpoint and its conversation stores): the settlement flows.
- `Payments` and `Paging` (payment intents, confirmation, webhooks,
  history and summary), `StripeBilling`, `MockBilling` and `Admin`: the
  payment reconciliation and the administrator's adjustments.
- `DifyStream` (the client's line buffer over a chunked response) and
  `SseClient` (the browser's event-stream reader): the event-stream framing.
- `Text`, `Numeric`, `Collections` and `Wrappers`: `parseInt`, number
  formatting, trimming and splitting, ceiling and floor, and the JavaScript
  `Map`, `find`, `filter` and `sort` the sources rely on.

Prices and rates are exact reals, and `Math.ceil`/`Math.floor` are the
integer ceiling and floor. `Date.now()`, used for ids and timestamps, is a
clock each store advances. Stripe's and the database's answers, their
faults, the upstream chat outcome and the point at which a stream breaks
or is aborted are inputs to the operations that meet them.

Some of what the code does is stated as it stands, because it is easy to
miss when reading it:

- The TypeScript webhook keeps no record of the sessions it has credited,
  so a redelivered completed-session event credits the tokens again
  (`StripeBilling.RedeliveryCreditsAgain`). The compiled billing routes
  make confirmation and the success webhook idempotent
  (`Payments.SucceedIdempotent`), but a failure event after completion
  reopens the payment, and a later success event credits it a second time
  (`Payments.FailureReopensCredit`).
- Nothing is reserved before the upstream call: the chat endpoints compare
  the balance with the estimate and debit only after the reply. A streamed
  reply whose actual cost the balance no longer covers has already been
  delivered, and it ends with an error frame and no charge
  (`Settlement.ChargeStream`).
- The points server's only check is `balance >= cost`, so a negative cost
  raises the balance (`PointsServer.NegativeCostRaises`).
- The demo checkout sells inactive packages too (`MockBilling.Checkout`).
- Lengths are JavaScript string lengths, counted in UTF-16 code units
  (`Text.Utf16Length`): a character outside the Basic Multilingual Plane
  counts twice, in the token estimates as in the short-line rule
  (`Estimation.AstralTextNotShort`).

## Model

| member | source | states |
|---|---|---|
| Pricing.RateOf | src/lib/pricing.ts:63-65 | a model's own rate unless it is missing or zero, in which case the `||` falls through to the default of 0.1; the rate is never zero |
| Pricing.TokenCost | src/lib/pricing.ts:58-61 | the cost is the least integer not below tokens times the model's rate |
| Pricing.LoadedRatesKeys | src/lib/pricing.ts:44-56 | after loading, a name has a rate exactly when it had one before or some active model carries it |
| Pricing.LoadedRatesValue | src/lib/pricing.ts:50-52 | an active model that no later active model renames is priced at its own rate (the last write wins) |
| Pricing.PricingCalculator.constructor | src/lib/pricing.ts:38-42 | the rate map starts empty |
| Pricing.PricingCalculator.LoadModelPricing | src/lib/pricing.ts:44-56 | the loop leaves the rates of the active catalogue models set in catalogue order; a failed query leaves the map as it was |
| Pricing.PricingCalculator.CalculateTokenCost | src/lib/pricing.ts:58-61 | the charge is the token cost at the service's current rates |
| Pricing.PricingCalculator.GetCostPerToken | src/lib/pricing.ts:63-65 | the rate reported is the one the charge uses |
| Pricing.PricingCalculator.UpdateModelPricing | src/lib/pricing.ts:96-108 | the model takes the new rate (the default when it is zero) and every other model keeps its rate |
| Pricing.RateAfterUpdate | src/lib/pricing.ts:96-108 | an update sets the model's rate unless it is zero, and changes no other model's rate |
| Pricing.TokenCostMonotone | src/lib/pricing.ts:58-61 | with a non-negative rate the cost is non-negative and never falls as tokens grow |
| Pricing.TiersAscending | src/lib/pricing.ts:11-35 | the four packs are in strictly ascending order of credits and of price |
| Pricing.TierPricesMatchBonus | src/lib/pricing.ts:11-35 | each pack's price is its credits at a cent apiece, less its bonus percentage |
| Pricing.GetPricingTierByCredits | src/lib/pricing.ts:67-69 | a pack is returned exactly when one has that many credits, and it is that pack |
| Pricing.CalculateCreditsForPrice | src/lib/pricing.ts:71-81 | a pack's price buys the pack's credits; any other price buys one credit per cent (in exact arithmetic) |
| Pricing.GetRecommendedTier | src/lib/pricing.ts:83-94 | the smallest pack holding at least 120% of the usage, or the largest pack when none does |
| Estimation.EstimateTokensFromText | dist/src/lib/estimation.js:8-11 | a quarter of the text's UTF-16 length rounded up, plus 50 system tokens |
| Estimation.ResponseEstimate | dist/src/lib/estimation.js:12-38 | the baseline of the complexity class, raised at most 3.9-fold by the three factors, and equal to it exactly when no factor applies |
| Estimation.DetectComplexity | dist/src/lib/estimation.js:58-77 | simple exactly when a simple pattern matches; complex exactly when none does and a complex one does; medium otherwise |
| Estimation.ShortTextIsSimple | dist/src/lib/estimation.js:65-72 | a prompt of 1 to 20 UTF-16 code units on one line is simple whatever else it matches |
| Estimation.AstralTextNotShort | dist/src/lib/estimation.js:67 | eleven or more characters outside the Basic Multilingual Plane are more than 20 UTF-16 code units, so never a short line |
| Estimation.ResponseEstimateBounds | dist/src/lib/estimation.js:12-38 | the reply estimate lies between 50 and 1170 tokens |
| Estimation.EstimateResponseTokens | dist/src/lib/estimation.js:12-38 | the step-by-step scaling equals the baseline times each applicable factor, rounded up once, and lies in 50..1170 |
| Estimation.FullContext | dist/src/lib/estimation.js:40-46 | the message length is the prompt's UTF-16 length; a missing or zero conversation length counts as 1; uploads count only when given as true; complexity and code flag come from the prompt |
| Estimation.GetConfidenceLevel | dist/src/lib/estimation.js:87-99 | high exactly for short simple prompts; low exactly for complex prompts asking for code or carrying files |
| Estimation.EstimatedTokensAtLeast120 | dist/src/lib/estimation.js:47-49 | every estimate is at least 120 tokens |
| Estimation.EstimatedTokensMonotone | dist/src/lib/estimation.js:47-49 | of two prompts classified alike, the one with more UTF-16 code units is never estimated at fewer tokens |
| Estimation.EstimatedTokens | dist/src/lib/estimation.js:47-49 | the prompt tokens and the rounded reply estimate together, plus a fifth, rounded up |
| Estimation.EstimateUsageCost | dist/src/lib/estimation.js:39-57 | the estimate carries the model, the total token estimate (at least 120), its cost at the current rates and the confidence level |
| Estimation.ModelUsageValid | dist/src/lib/estimation.js:118-122 | the per-model map the loop builds is a well-formed insertion-ordered map |
| Estimation.ModelUsageOf | dist/src/lib/estimation.js:118-122 | no more models than rows, and each model in the map named by some row |
| Estimation.ModelUsageTotals | dist/src/lib/estimation.js:118-122 | a model is in the map exactly when some row names it, and maps to the sum of its rows' tokens |
| Estimation.Entries | dist/src/lib/estimation.js:123-124 | the entries list each model once, in insertion order, with its total |
| Estimation.TopModels | dist/src/lib/estimation.js:123-126 | exactly min(5, number of models) entries drawn from the map's entries (a sub-multiset), in descending order of usage |
| Estimation.TopModelsAreTop | dist/src/lib/estimation.js:123-126 | exactly min(5, number of models) entries, each model once, in descending order of usage, each with its own total, and no model left out used more than one reported |
| Estimation.TopModelsDistinct | dist/src/lib/estimation.js:123-126 | no model is reported twice |
| Estimation.TopEntriesExact | dist/src/lib/estimation.js:123-126 | each reported model comes with its own total |
| Estimation.LeftOutUsedNoMore | dist/src/lib/estimation.js:123-126 | a model left out used no more than any reported one |
| Estimation.GetUserUsageStats | dist/src/lib/estimation.js:114-133 | the totals are the sums of the rows' tokens and costs and the top models are those of the per-model map the loop builds |
| Ledger.BalanceOf | src/services/mockUsageService.ts:108-116 | a user's balance, 0 for a user the store does not hold |
| Ledger.DebitCheck | src/services/mockUsageService.ts:23-45 | unknown user, insufficient balance (reporting it) or the balance the debit leaves, which is never negative |
| Ledger.Debit | src/services/mockUsageService.ts:44-63 | a failed check changes nothing; otherwise the balance drops by the amount and the event is appended |
| Ledger.Credit | src/services/mockUsageService.ts:77-94 | a known user's balance rises by the amount; an unknown user changes nothing; the log is untouched |
| Ledger.DebitKeepsNonNegative | src/services/mockUsageService.ts:36-45 | the balance check keeps every balance non-negative, whatever the amount |
| Ledger.CreditKeepsNonNegative | src/services/mockUsageService.ts:77-94 | crediting a non-negative amount keeps every balance non-negative |
| Ledger.DebitFrame | src/services/mockUsageService.ts:44-57 | a debit changes no other user's balance and removes no event |
| Ledger.DebitConserves | src/services/mockUsageService.ts:44-57 | balance plus logged charges is the same for every user before and after a debit |
| Ledger.CreditRaises | src/services/mockUsageService.ts:77-94 | a credit raises balance plus logged charges by the amount for the credited user only |
| Records.Failure | src/services/mockUsageService.ts:26-41 | a failed result carries the balance to show and the error, and no event |
| Records.ConversationTitle | src/services/mockDatabase.ts:135 | a missing or empty title becomes "New Conversation"; the title is never empty |
| StripeBilling.ActivePackages | src/routes/billing.ts:19-31 | exactly the active packages, each as often as in the table, in ascending order of tokens |
| StripeBilling.Checkout | src/routes/billing.ts:36-81 | a missing or empty id is refused; an id with no active package is not found; a created session's metadata names the buyer, an active package with that id and its tokens as text |
| StripeBilling.RequestedCredit | src/routes/billing.ts:104-113 | a credit is asked for exactly when the event is a completed session whose metadata holds a user and a readable token count, and it is that user and count |
| StripeBilling.WebhookEffect | src/routes/billing.ts:104-121 | the requested credit is applied to a known user when the database does not fail; otherwise nothing changes; the usage log is never touched |
| StripeBilling.HandleWebhook | src/routes/billing.ts:86-128 | no secret or a bad signature is refused with nothing changed; otherwise the event is received and its credit applied |
| StripeBilling.CheckoutThenWebhook | src/routes/billing.ts:69-73 | the completed session of a checkout asks for exactly the package's tokens for the buyer (nothing for an empty buyer id) |
| StripeBilling.RedeliveryCreditsAgain | src/routes/billing.ts:104-121 | a redelivered completed event credits the tokens a second time |
| StripeBilling.UsageLimit | src/routes/billing.ts:156 | an unreadable or zero limit is 50; any other parsed limit is kept |
| MockBilling.CreditMessage | src/routes/mockBilling.ts:51 | the confirmation text starts with "Successfully added " |
| MockBilling.Checkout | src/routes/mockBilling.ts:25-60 | a missing id, an unknown package and an unknown user are told apart; only a credited reply changes the ledger, by the package's tokens for the caller |
| Admin.AdjustmentRecord | src/routes/admin.ts:278-290 | the logged row has no tokens, the negated amount as cost, model "admin" and the reason and administrator |
| Admin.AdjustCredits | src/routes/admin.ts:263-307 | an empty reason is invalid; a deduction not covered is refused; an adjustment succeeds exactly for a known user with a covered amount, moves the balance by the amount and logs one row; every failure changes nothing |
| Admin.Upserted | src/routes/admin.ts:328-332 | the row takes every field given and keeps the stored optional fields left out |
| Admin.ModelCatalogue.constructor | src/routes/admin.ts:309-321 | the catalogue starts empty |
| Admin.ModelCatalogue.Lookup | src/routes/admin.ts:328-329 | a row is found exactly when the name is catalogued, and it is that row |
| Admin.ModelCatalogue.SaveModel | src/routes/admin.ts:324-348 | an input the schema refuses changes nothing; otherwise the row is upserted and the pricing service charges the new rate (the default for zero) for that model only |
| Admin.UpsertIdempotent | src/routes/admin.ts:328-332 | saving the same model twice leaves the row the first save left |
| Admin.StatsDays | src/routes/admin.ts:46 | 7 for an unreadable or zero count; any other parsed count, negative ones included, cut to at most 365 |
| Admin.ListingWindow | src/routes/admin.ts:69-74 | page 1 and no skip for an unreadable or zero page, otherwise the parsed page; limit 50 for an unreadable or zero one, otherwise the parsed limit cut to at most 100; the skip is the rows of the pages before |
| SseClient.NoEventLineUnknown | web/lib/sse.ts:104-112 | with no `event:` line before the data line its type is "unknown" |
| SseClient.NearestEventTypeIsNearest | web/lib/sse.ts:104-112 | otherwise its type is the name on the last `event:` line before it |
| SseClient.GetEventType | web/lib/sse.ts:104-112 | the backward scan returns the nearest event type |
| SseClient.LineEvents | web/lib/sse.ts:68-88 | a line yields at most one event |
| SseClient.ReadEvents | web/lib/sse.ts:66-89 | a read of n lines yields at most n events |
| SseClient.ReadEventsFromDataLines | web/lib/sse.ts:74-82 | every event of a read carries the parsed payload of one of its `data:` lines |
| SseClient.LineEventFromDataLine | web/lib/sse.ts:74-82 | the event of a line carries that line's parsed payload |
| SseClient.AbortController.constructor | web/lib/sse.ts:35 | a new controller is not aborted |
| SseClient.AbortController.Abort | web/lib/sse.ts:116 | the controller is aborted |
| SseClient.SseClient.constructor | web/lib/sse.ts:26-27 | a new client has no controller |
| SseClient.SseClient.StartChat | web/lib/sse.ts:29-102 | a fresh controller; a failed response or a missing body throws with its message; otherwise the events of the reads before the abort, and the chat ends aborted exactly when an abort cut the body short |
| SseClient.SseClient.Abort | web/lib/sse.ts:114-118 | the current controller, if any, is aborted |
| SseClient.StreamEventsStep | web/lib/sse.ts:60-90 | the events of one more read are appended to those before it |
| SseClient.ReadChunks | web/lib/sse.ts:60-90 | the events of the reads before the abort, and aborted exactly when the abort came before the body ended |
| SseClient.EventsOfLines | web/lib/sse.ts:66-89 | the line loop yields the events of the read |
| SseClient.EventsOfLine | web/lib/sse.ts:69-88 | the loop body yields the line's event |
| SseClient.RepeatedDataLineKeepsFirstType | web/lib/sse.ts:79 | a repeated data line yields the very event of its first occurrence |
| SseClient.NoDataLineNoEvents | web/lib/sse.ts:66-89 | a read with no `data:` line yields no event, which is how a line cut across two reads is lost |
| DifyStream.ApiError | src/lib/difyClient.ts:77-80 | the error text starts with "Dify API error: " |
| DifyStream.ScanLines | src/lib/difyClient.ts:95-111 | a run of lines yields at most one chunk per line |
| DifyStream.Step | src/lib/difyClient.ts:96-110 | one line adds at most one chunk |
| DifyStream.StepThen | src/lib/difyClient.ts:95-111 | a line in front of two runs scans as the line in front of the first run, then the second |
| DifyStream.ScanLinesAppend | src/lib/difyClient.ts:95-111 | scanning two runs of lines one after the other: the second counts only when the first did not stop |
| DifyStream.ConcatAppend | src/lib/difyClient.ts:90-91 | the buffered text of two runs of chunks is the text of each, concatenated |
| DifyStream.CompleteLinesExtend | src/lib/difyClient.ts:91-93 | the complete lines of a text come first among the complete lines of any longer text |
| DifyStream.StoppedPrefix | src/lib/difyClient.ts:98-99 | once a run of lines has stopped, nothing after it changes the scan |
| DifyStream.NothingAfterDone | src/lib/difyClient.ts:98-99 | a `[DONE]` line ends the stream with exactly the chunks of the lines before it |
| DifyStream.UnterminatedBodyYieldsNothing | src/lib/difyClient.ts:90-93 | a body with no newline yields nothing: its only line stays in the buffer |
| DifyStream.ChatCompletionStream | src/lib/difyClient.ts:65-114 | a failed response throws the API error, a missing body throws "No response body received", otherwise the stream yields the scan of the body's complete lines |
| DifyStream.ReadBody | src/lib/difyClient.ts:87-113 | the buffered loop over the chunks yields the chunks of the scan of the whole body's complete lines, however the text is cut into chunks |
| DifyStream.ScanRun | src/lib/difyClient.ts:95-111 | the loop over one batch of lines continues the scan of the lines before it |
| DifyStream.RunStops | src/lib/difyClient.ts:98-99 | a `[DONE]` line in a batch decides the scan of all the lines so far |
| DifyStream.NextLinesStep | src/lib/difyClient.ts:91-93 | the lines one chunk completes extend those completed before it, and the buffer keeps the unfinished last line |
| DifyStream.NextLines | src/lib/difyClient.ts:91-93 | the split of buffer and chunk yields the next complete lines of the body and the new buffer |
| Settlement.ChargedTokens | dist/src/routes/chat.js:69 | a reported token count wins unless it is 0, and then the estimate is charged |
| Settlement.Estimate | dist/src/routes/chat.js:26-44 | an empty query is invalid; otherwise the estimate for the query, its cost at the current rates, the caller's credits and whether they cover the cost |
| Settlement.Completion | dist/src/routes/chat.js:46-93 | an empty query is invalid; refused with both amounts exactly when the credits fall below the estimated cost; an upstream API error is reported as such; completed exactly when the query is affordable, the upstream answers and the debit of the reported tokens (or the estimate) goes through, and then exactly one usage row is debited; nothing else changes the ledger |
| Settlement.LastSet | dist/src/routes/chat.js:130-138 | the value kept is unset exactly when no chunk set it, and otherwise the one the last chunk to set it carried |
| Settlement.Forwards | dist/src/routes/chat.js:128 | every chunk is forwarded, in order |
| Settlement.Delivered | dist/src/routes/chat.js:126 | the chunks delivered are a prefix of those the upstream yields |
| Settlement.ForwardChunks | dist/src/routes/chat.js:126-139 | the loop forwards every chunk and keeps the last token count, conversation id and message id any chunk carried |
| Settlement.Stream | dist/src/routes/chat.js:95-172 | the refusals as in the blocking endpoint; otherwise the forwarded chunks, one usage or error frame, then the done marker; the usage frame exactly when the stream did not break and the debit goes through, charged once for the last reported count or the estimate; an error frame leaves the ledger as it was |
| Settlement.ChargeStream | dist/src/routes/chat.js:140-161 | the usage frame exactly when the debit goes through, with the tokens, cost and remaining credits; an error frame with nothing changed otherwise |
| Settlement.FramesShape | dist/src/routes/chat.js:126-162 | a stream's frames are the forwarded chunks, one closing frame and the done marker |
| ChatRoute.AnswerEvents | src/routes/chat.ts:89-103 | event `i` carries the first `i + 1` words joined by spaces, and only the event of the last word is finished |
| ChatRoute.StreamAnswer | src/routes/chat.ts:89-103 | the word loop yields the answer events; there is at least one, only the last is finished, and the last carries the whole reply |
| ChatRoute.TurnTokens | src/routes/chat.ts:61-69 | a turn costs the estimate of the message plus the reply's charge, a quarter of the message's UTF-16 length plus 67, rounded down |
| ChatRoute.OpenConversation | src/routes/chat.ts:40-50 | a named conversation is used as is; otherwise a new one owned by the user is created and announced by a meta event; balances, events and messages are untouched |
| ChatRoute.SettleTurn | src/routes/chat.ts:61-86 | the reply is generated and the user message stored first, as one new message with its role, text and estimate; a refused debit leaves the ledger as it was; a settled one debits the turn's tokens and appends exactly one usage event |
| ChatRoute.Respond | src/routes/chat.ts:88-116 | the answer stream, then the usage report with the turn's tokens and the balance after, then done; the assistant reply is stored as one new message with its text and charge; balances and events untouched |
| ChatRoute.Settle | src/routes/chat.ts:52-116 | a conversation the user does not own yields one error event and changes nothing; a refused debit yields one error event, changes no balance and leaves only the user message stored; otherwise the answer stream, usage and done, after one debit of the turn's tokens, with the user and assistant messages stored in that order |
| ChatRoute.Turn | src/routes/chat.ts:40-121 | a meta event comes first exactly when no conversation was named; an error ends a turn with no answers and no charge, with no message stored or only the user's; a done ends one that was charged exactly once for its tokens and stored the user and assistant messages |
| ChatRoute.Chat | src/routes/chat.ts:19-129 | a missing or empty message is a bad request that changes nothing, messages included; otherwise the events of the turn with the guarantees above |
| ChatService.ReplyTokens | src/services/chatService.ts:69 | four times the charge is at most the UTF-16 length and within four of it |
| ChatService.GenerateResponse | src/services/chatService.ts:63-72 | the reply quotes the whole message between the fixed prefix and suffix, 67 UTF-16 code units longer than it, and is charged at a quarter of its UTF-16 length, rounded down |
| ChatService.EstimateTokens | src/services/chatService.ts:78-80 | the least count whose four UTF-16 code units apiece cover the text |
| ChatService.ChargeWithinEstimate | src/services/chatService.ts:69-80 | a reply's charge and the estimate of its text differ by at most one token |
| ChatService.ChatService.constructor | src/services/chatService.ts:1-6 | the service works on the store it is given |
| ChatService.ChatService.CreateConversation | src/services/chatService.ts:7-14 | a new conversation owned by the user, titled "New Conversation" when no title is given, is appended and can then be found by its owner; the ledger and messages are untouched |
| ChatService.ChatService.AddMessage | src/services/chatService.ts:16-30 | the message with the given fields is appended, stamped with the current time; the ledger and conversations are untouched |
| ChatService.ChatService.GetConversation | src/services/chatService.ts:32-39 | found exactly when a conversation with that id belongs to the user, and then it is one |
| ChatService.ChatService.GetMessages | src/services/chatService.ts:41-50 | nothing unless the user owns the conversation; otherwise exactly its messages, oldest first |
| ChatService.ChatService.GetUserConversations | src/services/chatService.ts:52-57 | exactly the user's conversations, most recently updated first |
| MockChatService.TemplateIndex | src/services/mockChatService.ts:50 | the template drawn is the integer part of five times the draw, always one of the five |
| MockChatService.GenerateCannedResponse | src/services/mockChatService.ts:37-54 | the reply is the drawn template's opening, the whole message, then its closing, its UTF-16 length the sum of theirs, charged at a quarter of that length, rounded down |
| MockChatService.MockChatService.constructor | src/services/mockChatService.ts:3 | the service works on the store it is given |
| MockChatService.MockChatService.CreateConversation | src/services/mockChatService.ts:4-6 | a new conversation owned by the user, with the default title when none is given, is appended and found by its owner; users, messages and usage events are untouched |
| MockChatService.MockChatService.AddMessage | src/services/mockChatService.ts:8-15 | the message with the given fields is appended; users, conversations and usage events are untouched |
| MockChatService.MockChatService.GetConversation | src/services/mockChatService.ts:17-19 | found exactly when the conversation exists and the user owns it |
| MockChatService.MockChatService.GetMessages | src/services/mockChatService.ts:21-27 | nothing unless the user owns the conversation; otherwise exactly its messages, each as often as the store holds it, oldest first |
| MockChatService.MockChatService.GetUserConversations | src/services/mockChatService.ts:29-31 | exactly the user's conversations, each as often as the store holds it, most recently updated first |
| MockDatabase.InsertFresh | src/services/mockDatabase.ts:99-110 | an id made from the current clock reading is new to its Map, and setting it appends the record last |
| MockDatabase.TableLater | src/services/mockDatabase.ts:99-110 | a table stays keyed by fresh ids when the clock moves on |
| MockDatabase.BalancesOf | src/services/mockDatabase.ts:116-128 | the balances are keyed by exactly the stored users, each with its own balance |
| MockDatabase.BalancesOfSet | src/services/mockDatabase.ts:120-128 | storing a user changes only that user's balance |
| MockDatabase.InsertUser | src/services/mockDatabase.ts:99-110 | a new user goes last and the store stays valid once the clock moves on |
| MockDatabase.InsertConversation | src/services/mockDatabase.ts:131-141 | a new conversation goes last and the store stays valid |
| MockDatabase.InsertMessage | src/services/mockDatabase.ts:155-166 | a new message goes last and the store stays valid |
| MockDatabase.InsertEvent | src/services/mockDatabase.ts:175-187 | a new usage event goes last and the store stays valid |
| MockDatabase.UpdateUser | src/services/mockDatabase.ts:120-128 | rewriting a stored user keeps the store valid and the users' order |
| MockDatabase.UsageHistory | src/services/mockDatabase.ts:189-194 | only the user's events, newest first; the newest `limit` of them (all when fewer), or for a negative limit all but the oldest `-limit`; every event left out is no newer than every event kept |
| MockDatabase.HistoryFacts | src/services/mockDatabase.ts:189-194 | the sorted history holds exactly the user's events, newest first, and the cut keeps events no older than any it leaves out |
| MockDatabase.FoundByEmail | src/services/mockDatabase.ts:112-114 | a user found by email is the one stored under its id, and none is found exactly when no user has that email |
| MockDatabase.MockDatabase.Balances | src/services/mockDatabase.ts:116-118 | the balances of the stored users |
| MockDatabase.MockDatabase.LedgerView | src/services/mockDatabase.ts:175-194 | the store as a ledger: the users' balances and the usage events in creation order |
| MockDatabase.MockDatabase.constructor | src/services/mockDatabase.ts:56-96 | every table is empty except the packages, which hold the three starting packages set in turn |
| MockDatabase.MockDatabase.CreateUser | src/services/mockDatabase.ts:99-110 | a new user with a fresh id and a balance of 1000 is added last; nothing else changes but the clock |
| MockDatabase.MockDatabase.FindUserByEmail | src/services/mockDatabase.ts:112-114 | the first user in creation order with that email, or none exactly when no user has it |
| MockDatabase.MockDatabase.FindUserById | src/services/mockDatabase.ts:116-118 | found exactly when the id is stored, and it is that user |
| MockDatabase.MockDatabase.UpdateUserBalance | src/services/mockDatabase.ts:120-128 | a known user takes the balance and an update stamp and keeps its place; an unknown id changes nothing; no other balance changes |
| MockDatabase.MockDatabase.CreateConversation | src/services/mockDatabase.ts:131-141 | a new conversation with a fresh id and the default title when none is given is added last; nothing else changes but the clock |
| MockDatabase.MockDatabase.FindConversation | src/services/mockDatabase.ts:143-146 | found exactly when the conversation exists and the user owns it |
| MockDatabase.MockDatabase.GetUserConversations | src/services/mockDatabase.ts:148-152 | exactly the user's conversations, each as often as the Map holds it, most recently updated first |
| MockDatabase.MockDatabase.CreateMessage | src/services/mockDatabase.ts:155-166 | a new message with a fresh id is added last; nothing else changes but the clock |
| MockDatabase.MockDatabase.GetMessages | src/services/mockDatabase.ts:168-172 | exactly the conversation's messages, each as often as the Map holds it, oldest first |
| MockDatabase.MockDatabase.CreateUsageEvent | src/services/mockDatabase.ts:175-187 | a new event with a fresh id is appended to the events; nothing else changes but the clock |
| MockDatabase.MockDatabase.GetUserUsageHistory | src/services/mockDatabase.ts:189-194 | the user's history as UsageHistory states it: the newest `limit` events, or all but the oldest `-limit` |
| MockDatabase.MockDatabase.GetPackages | src/services/mockDatabase.ts:197-201 | exactly the active packages, each as often as the Map holds it, fewest tokens first, packages of equal size in Map order |
| Collections.SortByStable | src/services/mockDatabase.ts:197-201 | the sort is stable: the elements with any one key come out in their original order |
| MockDatabase.MockDatabase.FindPackage | src/services/mockDatabase.ts:203-205 | found exactly when the id is stored, active or not |
| MockUsageService.MockUsageService.constructor | src/services/mockUsageService.ts:1-10 | the service works on the store it is given |
| MockUsageService.MockUsageService.ConsumeTokens | src/services/mockUsageService.ts:15-72 | an unknown user fails with balance 0, a balance below the amount fails with that balance, both changing nothing; otherwise the ledger is debited, the new event is logged and returned, and the balance reported is the one stored |
| MockUsageService.MockUsageService.AddTokens | src/services/mockUsageService.ts:77-103 | an unknown user fails with balance 0 and nothing changes; a known one is credited and the new balance reported |
| MockUsageService.MockUsageService.CreditKnownUser | src/services/mockUsageService.ts:85-97 | a known user's ledger is credited and the new stored balance reported |
| MockUsageService.MockUsageService.GetUserBalance | src/services/mockUsageService.ts:108-116 | the stored balance, or 0 for an unknown user |
| MockUsageService.MockUsageService.GetUserUsageHistory | src/services/mockUsageService.ts:121-128 | the user's history as UsageHistory states it: the newest `limit` events, or all but the oldest `-limit` |
| MockUsageService.CreditedView | src/services/mockUsageService.ts:85-97 | a ledger whose one balance grew by the amount, with the events unchanged, is the credited ledger |
| UsageService.UsageService.constructor | src/services/usageService.ts:1-17 | the service works on the store it is given |
| UsageService.UsageService.ConsumeTokens | src/services/usageService.ts:18-85 | all or nothing: a database failure, an unknown user or a short balance fail with their balance and error and change nothing; otherwise the ledger is debited and the new event logged and returned |
| UsageService.UsageService.AddTokens | src/services/usageService.ts:90-114 | a database failure or an unknown user fails with nothing changed; a known user is credited and the new balance reported |
| UsageService.UsageService.GetUserBalance | src/services/usageService.ts:119-131 | the stored balance; 0 for an unknown user or a database failure |
| UsageService.UsageService.GetUserUsageHistory | src/services/usageService.ts:136-147 | only the user's events, strictly newest first; for a limit n >= 0 the newest n (all when fewer), each newer than every event left out; for a negative limit the oldest -n, each older than every event left out; nothing on a database failure |
| UsageService.TakeKeepsOrder | src/services/usageService.ts:138-142 | `take` on the newest-first rows keeps, for a non-negative limit, rows newer than every row left out, and for a negative one rows older than every row left out |
| PrismaStore.ChronicleAppend | src/services/usageService.ts:61-69 | a row stamped with the current reading extends a time-ordered table, which stays older than the advanced clock |
| PrismaStore.ChronicleLater | src/services/usageService.ts:61-69 | a time-ordered table stays older than the clock when it advances |
| PrismaStore.NewestFirstDecreasing | src/services/usageService.ts:138-142 | rows kept in insertion order come out newest first in strictly decreasing time, and exactly the rows the filter accepts |
| PrismaStore.PrismaStore.LedgerView | src/services/usageService.ts:27-69 | the store as a ledger: the balances and the usage events in insertion order |
| PrismaStore.PrismaStore.constructor | src/services/usageService.ts:4 | the store holds the given balances and no rows |
| PrismaStore.PrismaStore.SetBalance | src/services/usageService.ts:55-58 | one known user's balance is set and nothing else changes |
| PrismaStore.PrismaStore.InsertEvent | src/services/usageService.ts:61-69 | a new event stamped with the current reading is appended, and the clock advances |
| PrismaStore.PrismaStore.InsertConversation | src/services/chatService.ts:7-14 | a new conversation with an id no stored one has, stamped now, is appended |
| PrismaStore.PrismaStore.InsertMessage | src/services/chatService.ts:16-30 | a new message stamped now is appended |
| PointsServer.Charge | server/index.js:22-23 | a charge goes through exactly when the balance covers the cost, and leaves the balance less the cost, never negative |
| PointsServer.NegativeCostRaises | server/index.js:20-23 | a negative cost passes the only check and raises the balance |
| PointsServer.PointsServer.constructor | server/index.js:12 | the balance starts at 1000 |
| PointsServer.PointsServer.GetPoints | server/index.js:15-17 | the current balance, never negative |
| PointsServer.PointsServer.PostUsage | server/index.js:19-36 | the cost, 10 unless given, is charged when covered, with status 200 and a conversation id made from the time; otherwise status 400, "Insufficient balance" and the balance unchanged |
| CreditService.CreditService.constructor | dist/src/routes/chat.js:30 | the service holds the given credits and no usage rows |
| CreditService.CreditService.View | dist/src/routes/chat.js:70-73 | the credits and usage rows as a ledger |
| CreditService.CreditService.GetUserCredits | dist/src/routes/chat.js:30 | a known user's credits, 0 for an unknown one |
| CreditService.CreditService.ProcessUsage | dist/src/routes/chat.js:70-73 | the cost of the tokens at the model's rate is debited and one row logged, exactly when the user covers it; otherwise nothing changes |
| CreditService.CreditService.AddCredits | src/routes/admin.ts:268-269 | a known user is credited; an unknown one changes nothing |
| CreditService.CreditService.DeductCredits | src/routes/admin.ts:271-274 | a covered deduction lowers the balance without logging; otherwise nothing changes |
| CreditService.CreditService.LogUsage | src/routes/admin.ts:278-290 | the row is appended and no balance changes |
| Payments.CustomAmount | dist/src/routes/billing.js:44 | whole dollars: the least multiple of 100 cents at or above the credits |
| Payments.TierNamed | dist/src/routes/billing.js:35 | the tier with that name, or none exactly when no tier has it |
| Payments.QuoteFor | dist/src/routes/billing.js:34-46 | no tier (or an empty name) is quoted at the custom rate with a description naming the credits; an unknown tier gets no quote; a named tier is quoted at its price, described by its name and credits |
| Payments.RecordOf | dist/src/routes/billing.js:99-101 | the position of a row for the intent, or none exactly when no row has that intent id |
| Payments.SetStatus | dist/src/routes/billing.js:111-114 | one row takes the new status and every other row is unchanged |
| Payments.Confirm | dist/src/routes/billing.js:87-139 | the checks in order (retrieval, owner, Stripe status, row found, not yet completed); a confirmation happens exactly when all pass and the user exists, and then the row is completed and exactly its credits added; anything else changes nothing |
| Payments.Succeed | dist/src/routes/billing.js:162-191 | an absent or completed row, or an unknown owner, changes nothing; otherwise the row is completed and its owner credited with its credits |
| Payments.Fail | dist/src/routes/billing.js:192-203 | the intent's row, whatever its status, is marked failed; no balance changes; an absent row changes nothing |
| Payments.Webhook | dist/src/routes/billing.js:141-161 | a bad signature is rejected with nothing changed; otherwise received; only a success event can move credits |
| Payments.CompletedSumUpdate | dist/src/routes/billing.js:282-295 | replacing one row changes a completed total by the difference of the two rows' shares |
| Payments.SucceedKeepsUnearned | dist/src/routes/billing.js:167-185 | the success webhook credits a payment exactly when it completes it, so credits beyond completed grants never move |
| Payments.ConfirmKeepsUnearned | dist/src/routes/billing.js:105-124 | the same for a confirmation by the row's owner |
| Payments.SucceedIdempotent | dist/src/routes/billing.js:167-169 | a replayed success event credits nothing more |
| Payments.ConfirmThenWebhook | dist/src/routes/billing.js:105-124 | after a confirmation the success webhook for the intent changes nothing |
| Payments.WebhookThenConfirm | dist/src/routes/billing.js:105-107 | after the success webhook credited an intent, its confirmation is refused as already processed |
| Payments.FailureReopensCredit | dist/src/routes/billing.js:192-197 | a failure event after completion reopens the payment, and a later success event credits it a second time |
| Payments.ReverseOfOrdered | dist/src/routes/billing.js:213 | a table in creation order, reversed, holds the same rows strictly newest first |
| Payments.WindowOfNewest | dist/src/routes/billing.js:213-215 | skipping and taking rows of a newest-first list keeps them newest first and within the list |
| Payments.SliceOfNewest | dist/src/routes/billing.js:213-215 | a slice of a newest-first list is newest first and within the list |
| Payments.PageOfNewest | dist/src/routes/billing.js:207-221 | a page holds only the user's rows, strictly newest first: the rows from position `skip` of the newest-first list, at most `limit` of them, or for a negative limit at most `-limit` rows ending `skip` rows before the end; a page from 1 up is non-empty exactly when its number is within the page count |
| Payments.SkipTakeWindow | dist/src/routes/billing.js:210-215 | `skip` and `take` select consecutive rows: from `skip` on, as many as the limit allows, or for a negative limit at most `-limit` rows ending `skip` rows before the end |
| Payments.History | dist/src/routes/billing.js:205-236 | fails exactly when the skip is negative; otherwise the window of the user's newest-first rows that `skip` and `take` select (a negative take counting `skip` from the end), with the parsed page and limit (at most 50), the user's row count as total and the page count for that limit |
| Payments.Summary | dist/src/routes/billing.js:278-316 | the user's credits (0 if unknown), the cents and credits of their completed payments, and their latest completed payment, none exactly when they have no completed one |
| Payments.LatestCompleted | dist/src/routes/billing.js:296-302 | the first completed row of the user's scanning newest first is created no earlier than any other |
| Payments.NotBeforeFirstFound | dist/src/routes/billing.js:296-302 | a completed row of the user's is no later than the first one found scanning newest first |
| Payments.CalculatePrice | dist/src/routes/billing.js:258-276 | fewer than 100 credits is invalid; otherwise the price read from the credits as if they were cents and a recommended tier: the smallest covering 120% of the credits when one does, the largest when none does |
| Payments.PriceOfCreditsReadsAsCents | dist/src/routes/billing.js:261 | asking the price of 4500 credits quotes 5000, because 4500 is a pack's price in cents |
| Payments.InsertKeepsWellKept | dist/src/routes/billing.js:58-70 | inserting a row for a new intent, stamped now, keeps the table one row per intent, in creation order and older than the clock |
| Payments.BillingRoutes.Snapshot | dist/src/routes/billing.js:109-124 | the credits and the payment table |
| Payments.BillingRoutes.constructor | dist/src/routes/billing.js:9 | an empty, well-kept payment table |
| Payments.BillingRoutes.CreatePaymentIntent | dist/src/routes/billing.js:29-85 | under 100 credits is invalid, an unknown tier is refused; an intent is created exactly when Stripe gave an id no row has, and then one pending row with the quote and the requested credits is appended; otherwise nothing changes |
| Payments.BillingRoutes.ConfirmPayment | dist/src/routes/billing.js:87-139 | the reply and the new credits and table are those of Confirm |
| Payments.BillingRoutes.HandlePaymentSucceeded | dist/src/routes/billing.js:162-191 | the new credits and table are those of Succeed |
| Payments.BillingRoutes.HandlePaymentFailed | dist/src/routes/billing.js:192-203 | the new table is that of Fail |
| Payments.BillingRoutes.HandleWebhook | dist/src/routes/billing.js:141-161 | the reply and the new state are those of Webhook |
| Payments.BillingRoutes.GetPayments | dist/src/routes/billing.js:205-236 | the page History gives for the current table: the window of the caller's newest-first rows, page, limit, total and page count |
| Payments.BillingRoutes.GetPayment | dist/src/routes/billing.js:238-256 | a payment with that id belonging to the caller, none exactly when there is no such row |
| Payments.BillingRoutes.GetSummary | dist/src/routes/billing.js:277-316 | the summary Summary gives |
| Paging.ParsedOr | dist/src/routes/billing.js:207 | a parsed non-zero value is kept; an unreadable or zero one gives way to the default |
| Paging.Capped | dist/src/routes/billing.js:208 | at most the cap; the default for an unreadable or zero value; otherwise the value, cut to the cap |
| Paging.WindowOf | dist/src/routes/billing.js:207-209 | the parsed page, or 1 when unreadable or zero; the parsed limit cut to the cap, negative ones included, or the default when unreadable or zero; the skip the rows of the pages before |
| Paging.TotalPages | dist/src/routes/billing.js:221 | with a positive limit, the fewest pages that hold the rows; with a negative one, the ceiling of the negative quotient, zero or below |
| Paging.PageStartsInsideRows | dist/src/routes/billing.js:207-221 | a page from 1 up starts inside the rows exactly when its number is at most the page count |

## Left out

- `CreditService`: the compiled usage service behind `processUsage`, `addCredits`, `deductCredits` and `getUserCredits` is not part of this model. Its operations carry the contracts their callers in `dist/src/routes/chat.js` and `src/routes/admin.ts` rely on, written as the ledger's debit and credit.
- Floating point: rates, multipliers and prices are exact reals, so rounding error in `tokens * costPerToken` before `Math.ceil` is not modelled.
- Pricing.CalculateCreditsForPrice: computes `Math.floor((price / 100) * 100)` in exact arithmetic, so a non-pack price always buys exactly its cents in credits. In double precision `(p / 100) * 100` falls just below `p` for some prices (29, 57, 58, 113, 114 and about 1100 of the prices up to 20000), and the source then grants one credit less; that rounding is not modelled.
- Payments.CalculatePrice: its `price` is `Pricing.CalculateCreditsForPrice` of the credits and inherits the same exact-arithmetic reading.
- Concurrency: each database call and each `$transaction` is atomic, and a database fault is an input that leaves the store as it was. Interleaved requests, which in the source can check a balance and debit it between another request's check and debit, are not modelled.
- Time: `Date.now()` is a clock each store advances by one per id, so ids are prefix plus clock and timestamps are clock values. Wall-clock time is not modelled, and neither are two records created within one millisecond: in the mock database they share an id, and the second `Map.set` overwrites the first.
- The `getUserUsageStats` date-window query and its `averageDaily` figure: the rows inside the window are an input, and the division by the number of days is not modelled.
- The dollar figures `priceUsd` and `totalSpentUsd` (a division of cents by 100) are not modelled; the cent amounts are.
- Estimation's regular expressions other than the short-line rule `/^.{1,20}$/` (question, code, list and technical-term detectors) are boolean inputs, computed by the caller.
- JSON: `JSON.parse` is the `parse` parameter, `None` standing for a throw. `JSON.stringify` of event frames is modelled as the frame values themselves.
- Stream decoding: chunks are strings. `TextDecoder` and a multi-byte character cut across two reads are not modelled.
- Stripe: the client, its checkout-session URL, the payment-intent id it assigns and its signature verification are inputs (`stripeFails`, `signatureValid`, `intent`, `stripeIntentId`).
- Prisma: a negative `skip` is refused, which the model reports as a failed page. A negative `take` reads the ordered result from its end: with `skip` the last `skip` rows are left out first (`Payments.SkipTake`), and the usage history, which has no `skip`, keeps the last `-take` rows (`Collections.Take`). Prisma's validation messages are not modelled.
- `parseInt` returning `NaN` is modelled as no number (`ParseInt` gives `None`), and every `parseInt(x) || d` falls back to `d` for it.
- Text.ParseInt: reads decimal digits only. `parseInt` with no radix reads a `0x` or `0X` prefix as hexadecimal, so `"0x2"` gives 2 in the source and 0 in the model; hexadecimal input is not modelled.
- PointsServer.PointsServer.PostUsage: the cost is an optional integer. A fractional cost, a `null` cost (which the source charges as 0 after `balance >= null`) and a numeric string are not modelled.
- Request validation: the `typeof message` check and the details of zod error messages are not modelled; an invalid input is one reply value.
- Catch-all `500` paths whose failure cannot arise in the model (no fault input reaches them) are not modelled.
- Authentication: the JWT middleware, the `401` paths and password handling are outside this model; every route takes the authenticated user id.
- Admin routes other than credit adjustment, model saving, the statistics window and the listing windows (user and key CRUD, `getSystemUsageStats` behind `/stats`) are not modelled.
- The Dify client's other calls (conversation listing, deletion, feedback) are not modelled; a blocking `chatCompletion` is an input outcome.
- The `/pricing` route only returns the tier table `Pricing.PricingTiers` and two constants; it has no member of its own.
- `dist/src/routes/user.js` (profile, credit, usage and API-key reads) and the other authentication code are outside this model.
- `dist/src/lib/pricing.js` and `dist/src/lib/difyClient.js` compute what `src/lib/pricing.ts` and `src/lib/difyClient.ts` compute; one model covers each pair.
- The model catalogue's `updateModelPricing` upsert with provider `unknown` is covered by `Admin.ModelCatalogue.SaveModel`, which upserts by name; the provider default is not modelled separately.
- `MockChatService.EstimateTokens` is not a separate definition: the demo estimator in `src/services/mockChatService.ts` computes what `ChatService.EstimateTokens` computes, and the model uses that one.
- Logging (`console.log`, `console.error`) is not modelled.
