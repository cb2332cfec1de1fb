# ai-news in Dafny

This project models, in Dafny, the logic of the ai-news system: an AI-news agent (RSS collection, LLM article processing, daily reports, a Flask status API), a Django back end (news, fetch history, chat with configurable AI providers, accounts) and a React front end (dashboard, chat, analytics, settings, authentication). Each core source file becomes one Dafny module, in one `.dfy` file named after it:

| source | module |
|---|---|
| `ai-news-agent/ai_processor.py` | `AiProcessor` |
| `ai-news-agent/api_server.py` | `ApiServer` |
| `ai-news-agent/config.py` | `AgentConfig` |
| `ai-news-agent/model_manager.py` | `ModelManager` |
| `ai-news-agent/news_agent.py` | `NewsAgent` |
| `ai-news-agent/rss_fetcher.py` | `RssFetcher` |
| `backend/accounts/serializers.py` | `AccountsSerializers` |
| `backend/accounts/views.py` | `AccountsViews` |
| `backend/chat/models.py` | `ChatModels` |
| `backend/chat/serializers.py` | `ChatSerializers` |
| `backend/chat/services.py` | `ChatServices` |
| `backend/chat/views.py` | `ChatViews` |
| `backend/chat/management/commands/init_ai_config.py` | `InitAiConfig` |
| `backend/chat/migrations/0003_create_default_ai_config.py` | `Migration0003` |
| `backend/news/services.py` | `NewsServices` |
| `backend/news/views.py` | `NewsViews` |
| `frontend/src/services/api.ts` | `ApiClient` |
| `frontend/src/services/authService.ts` | `AuthService` |
| `frontend/src/services/agentService.ts` | `AgentService` |
| `frontend/src/services/newsService.ts` | `NewsCache` |
| `frontend/src/contexts/AuthContext.tsx` | `AuthContext` |
| `frontend/src/components/AIConfig.tsx` | `AiConfigPage` |
| `frontend/src/components/Chat.tsx` | `ChatView` |
| `frontend/src/components/Dashboard.tsx` | `Dashboard` |
| `frontend/src/components/FetchHistory.tsx` | `FetchHistory` |
| `frontend/src/components/NewsAnalytics.tsx` | `NewsAnalytics` |
| `frontend/src/components/NewsRecommendations.tsx` | `NewsRecommendations` |
| `frontend/src/components/StreamingMessage.tsx` | `StreamingMessage` |
| `frontend/src/components/SystemSettings.tsx` | `SystemSettings` |
| `frontend/src/components/UserProfile.tsx` | `UserProfile` |

Shared modules hold what several files use:
- `Wrappers`: `Option`, `Result`, `Filter`, `Take`.
- `Text`: the Python and JavaScript string operations, namely `strip`/`trim`, `split`, `join`, `replace`, `in`, `count`, `lower` and whitespace collapsing.
- `Dates`: `date.toordinal`, `isoformat`, `strftime('%Y%m%d')` and CPython's `strptime` for the two formats the code uses.
- `Sorting`: `sorted(..., key=..., reverse=...)` and descending order by a key.
- `Counting`: Python dictionary counters and JavaScript count objects.

How the code is represented:
- Code that changes state step by step is modelled as classes with `modifies` clauses. Examples are the agent's `fetch_status` record, the back end's tables (`ChatDb`, `NewsDb`, `Accounts`), the browser's storage, the news cache, the model manager's caches and each React page's state hooks.
- Loops are `while` loops with invariants. Each method is proved against a specification function.
- Pure code is modelled as functions with lemmas.
- The world outside the code is passed in as parameters:
  - the clock (`now`, a day number or a millisecond count);
  - LLM replies;
  - HTTP and database outcomes;
  - RSS feeds;
  - files (a map from names to documents);
  - environment variables.
- A poll loop or timer is modelled as a finite stream of its ticks' answers.
- Dates are `Dates.Date` values or day numbers. Times of day are not modelled.

The model follows the code on these points, where a reader might expect otherwise:
- Neither poller has a tick limit or a timeout, so the model has no such limit either. The dashboard's `setInterval` polls until a status stops fetching (`Dashboard.NoTickLimit`). The same holds for `pollFetchStatus`.
- Neither poller guards against out-of-order replies. Each tick's answer is applied in turn.
- A failed chat send drops the last message. It does not remove the message by identity.
- A failed login shows a message chosen in a fixed order: the first field error the handler checks, then the reply's `message`, then a default. This is `AuthContext.FirstMessagePriority`.
- Only `deleteNews` and `fetchNews` clear the client cache. `saveSystemConfig` leaves it as it is.

## Model

| member | source | states |
|---|---|---|
| ChatServices.ExtractThinkingSpan | backend/chat/services.py:515-521 | a reply holding one thinking block yields that block's body, stripped |
| ChatServices.ExtractThinking | backend/chat/services.py:515-521 | a reply without an opening or without a closing tag yields no thinking text |
| ChatServices.RemoveThinking | backend/chat/services.py:503 | removing the thinking blocks never lengthens the text |
| ChatServices.CollapseBlankLinesKeepsVisible | backend/chat/services.py:505 | collapsing runs of blank lines deletes white space only: the visible characters stay, in order |
| ChatServices.CollapseBlankLinesFew | backend/chat/services.py:505 | text with fewer than three newlines is left unchanged |
| ChatServices.CleanThinking | backend/chat/services.py:499-506 | cleaning a reply deletes the thinking blocks and otherwise only white space |
| ChatServices.CleanThinkingSpan | backend/chat/services.py:499-506 | a reply with one thinking block is cleaned to the text around it, blank lines collapsed, stripped |
| ChatServices.CleanThinkingPlain | backend/chat/services.py:499-506 | a reply without thinking block or blank-line run is only stripped |
| ChatServices.AutoTitle | backend/chat/services.py:357 | a message of at most 20 characters is the title; a longer one gives its first 20 characters and "..." |
| ChatServices.MessagesOf | backend/chat/services.py:103 | exactly the messages of the conversation, in table order |
| ChatServices.HistoryAsWritten | backend/chat/services.py:101-110 | as written: at most 50 turns, the oldest ones |
| ChatServices.History | backend/chat/services.py:101-110 | corrected: at most 50 turns, the most recent ones, oldest first |
| ChatServices.HistoryAsWrittenOmitsNewest | backend/chat/services.py:103 | with 51 messages in a conversation, the history as written leaves out the newest one |
| ChatServices.HistoryEndsWithNewest | backend/chat/services.py:101-110 | the corrected history ends with the conversation's newest message |
| ChatServices.ChosenProvider | backend/chat/services.py:201-209 | the settings' default provider when set, else an active provider of the user |
| ChatServices.ChosenModel | backend/chat/services.py:202-215 | the settings' default model when set; none when there is neither default nor provider |
| ChatServices.ChosenProviderIsFirstActive | backend/chat/services.py:205-209 | without a default, none exactly when the user has no active provider; otherwise no active provider comes before the chosen one |
| ChatServices.ChosenModelIsFirstActive | backend/chat/services.py:211-215 | without a default, none exactly when the provider has no active model; otherwise the chosen one is active, of that provider, and first by name |
| ChatServices.GetAiConfig | backend/chat/services.py:191-245 | each of the three errors exactly under its condition (no provider or model; blank address; blank key for a non-local address); on success the address, the key (a dummy for a local service), the model and min of the token limits |
| ChatServices.CallAiApi | backend/chat/services.py:290-342 | corrected order of the except arms: an error exactly for connection, timeout, authentication and rate-limit failures; a completed reply is never empty |
| ChatServices.CallAiApiAsWritten | backend/chat/services.py:324-329 | as written: the corrected outcome for everything but a timeout, which gets the connection failure's outcome |
| ChatServices.TimeoutReportedAsConnection | backend/chat/services.py:324-329 | as written, a timeout is reported as a connection failure and the timeout message is never produced |
| ChatServices.CallAiApiMessages | backend/chat/services.py:308-335 | a timeout has its own message; a non-empty reply is returned with its token count (0 when absent); an empty one becomes the apology |
| ChatServices.FallbackResponse | backend/chat/services.py:247-288 | an error naming no known cause is quoted, up to its first 100 characters, in the reply |
| ChatServices.Quoted | backend/chat/services.py:288 | the generic advice contains the error text it quotes |
| ChatServices.KeyAdviceRule | backend/chat/services.py:249-259 | an error naming the key or the credentials gets the key advice |
| ChatServices.ConfigAdviceRule | backend/chat/services.py:261-269 | an error naming the settings but not the key gets the settings advice |
| ChatServices.NetworkAdviceRule | backend/chat/services.py:271-280 | an error naming the network, a connection, a timeout or the response time, and neither key nor settings, gets the network advice |
| ChatServices.NoKeyErrorAdvice | backend/chat/services.py:234-235 | the missing-key error leads to the key advice |
| ChatServices.AuthErrorAdvice | backend/chat/services.py:330-332 | refused credentials lead to the key advice |
| ChatServices.NoConfigErrorAdvice | backend/chat/services.py:218-219 | a missing provider or model leads to the settings advice |
| ChatServices.NoUrlErrorAdvice | backend/chat/services.py:222-223 | a missing address leads to the settings advice |
| ChatServices.ConnectErrorAdvice | backend/chat/services.py:324-326 | a failed connection leads to the network advice |
| ChatServices.TimeoutErrorAdvice | backend/chat/services.py:327-329 | a slow reply leads to the network advice |
| ChatServices.GenericAdviceQuotes | backend/chat/services.py:282-288 | an error of at most 100 characters naming no known cause is quoted whole |
| ChatServices.UnpackErrorAdvice | backend/chat/services.py:149 | the unpacking error names no known cause, so the generic advice quotes it whole |
| ChatServices.NewService | backend/chat/services.py:16-22 | construction succeeds exactly when a SiliconFlow key is configured, and keeps the key, address and model name |
| ChatServices.CreateDefaultProvider | backend/chat/services.py:43-82 | with a usable key and a user without providers, a default provider and a 4096-token model are added and set as the settings' defaults; otherwise nothing changes |
| ChatServices.GetOrCreateChatSettings | backend/chat/services.py:24-41 | an existing row is returned unchanged; a new row has 2048 tokens and the default prompt, and defaults exactly when a default provider could be created |
| ChatServices.FindConversation | backend/chat/services.py:352 | the row found has the id and the user; none means no row has both |
| ChatServices.CreateConversation | backend/chat/services.py:84-99 | appends the conversation, and a user message only when a non-empty first message is given; nothing else changes |
| ChatServices.DeleteConversation | backend/chat/services.py:480-487 | true exactly when the user's conversation exists; it and its messages are deleted; false changes nothing |
| ChatServices.UpdateConversationTitle | backend/chat/services.py:489-497 | true exactly when the user's conversation exists; its title and time are replaced; false changes nothing |
| ChatServices.OpenTurn | backend/chat/services.py:348-368 | a missing conversation changes nothing; id 0 opens a conversation titled from the message; the user message is saved and the settings got or created |
| ChatServices.ThinkingPrompt | backend/chat/services.py:374-393 | the system prompt extended with both thinking tags |
| ChatServices.SimpleReply | backend/chat/services.py:429-451 | the assistant row holds the cleaned reply, the thinking text or none when empty, the model and provider names and the token count |
| ChatServices.SimpleOutcome | backend/chat/services.py:396-472 | a configuration error rejects, a failed call fails, otherwise the cleaned reply is sent |
| ChatServices.SimpleRequest | backend/chat/services.py:370-393 | the thinking prompt first, then at most 50 turns of history |
| ChatServices.SimpleRequestEndsWithQuestion | backend/chat/services.py:360-393 | the request ends with the question just saved |
| ChatServices.SendMessageSimple | backend/chat/services.py:346-476 | a missing conversation is rejected with no change; otherwise the outcome follows the configuration and the call, a sent reply is the newest row, and the request ends with the question |
| ChatServices.SimpleTurn | backend/chat/services.py:346-476 | the outcome and the request of a turn in terms of the configuration, the call and the conversation's messages |
| ChatServices.PlainRequest | backend/chat/services.py:139-146 | the plain system prompt leads the history only when the history is one message |
| ChatServices.PlainReplyAsWrittenNeverAnswers | backend/chat/services.py:149-180 | as written, a complete configuration yields the generic advice quoting the unpacking error, and a configuration error its advice: the model's reply is never stored |
| ChatServices.PlainReplyAnswers | backend/chat/services.py:137-180 | corrected, a complete configuration and a successful call store the model's reply; errors store their advice |
| ChatServices.SendMessageAsWritten | backend/chat/services.py:112-189 | as written: only a missing conversation is an error; every other request saves the fallback reply |
| ChatServices.SendMessage | backend/chat/services.py:112-189 | corrected: the newest row is the model's reply or the advice for the error |
| ChatServices.TouchConversation | backend/chat/services.py:182-183 | the conversation is saved again with the current time as its modification time; no other table changes (also backend/chat/services.py:457-458) |
| ChatServices.AnswerSimple | backend/chat/services.py:370-472 | the request is the simple request and the outcome the simple outcome of the configuration and the call; a sent reply is appended and touches the conversation; an error changes nothing |
| ChatServices.AnswerPlainAsWritten | backend/chat/services.py:137-189 | as written: the request uses the oldest-first history, and the fallback reply is always appended and the conversation touched |
| ChatServices.AnswerPlain | backend/chat/services.py:137-189 | corrected: the request uses the recent history, and the reply built from the configuration and the call is appended and the conversation touched |
| ApiServer.Apply | ai-news-agent/api_server.py:50-57 | an update sets progress, message and `last_error` (None when no error is passed) and keeps `is_fetching`, `start_time` and `estimated_completion` |
| ApiServer.ApplyOverwrites | ai-news-agent/api_server.py:50-57 | two updates in a row leave only the second one's trace |
| ApiServer.JobTraceFacts | ai-news-agent/api_server.py:127-171 | a job's records: it starts fetching with progress 0 and no error; every record until the last is fetching with the job's start time; the last is not fetching and keeps the last update's progress, message and error |
| ApiServer.JobOutcome | ai-news-agent/api_server.py:127-171 | a job ends not fetching; `last_error` is set, with progress 0 and the failure message, exactly when the collection raised; otherwise progress is 100 |
| ApiServer.UpdateModelAborts | ai-news-agent/api_server.py:140-147 | as written, a found model makes the job stop after "选择AI模型" with progress 0 and the `AttributeError` text; as meant, it announces the model at 10 and goes on to 15 |
| ApiServer.TargetDate | ai-news-agent/api_server.py:106-114 | no date gives today; a given date is `strptime(s, '%Y-%m-%d')` and none when it is not a date |
| ApiServer.TargetDateIso | ai-news-agent/api_server.py:106-114 | a date the client writes as YYYY-MM-DD is the day the route works on |
| ApiServer.InfosInclude | ai-news-agent/api_server.py:197-209 | a listed date that parses and whose report can be read has its entry |
| ApiServer.InfosFromFiles | ai-news-agent/api_server.py:197-209 | every entry is that of a readable report of a valid day |
| ApiServer.ReportsNewestFirst | ai-news-agent/api_server.py:211-212 | of two entries, the earlier in the list is never of an earlier day |
| ApiServer.ReportsListed | ai-news-agent/api_server.py:190-217 | a readable report of a day with a four-digit year is listed |
| ApiServer.MapCategory | ai-news-agent/api_server.py:303-321 | the result is a backend category; backend categories map to themselves, `funding_acquisition` to `industry_news`, unknown ones to `other` |
| ApiServer.MapCategoryIdempotent | ai-news-agent/api_server.py:303-321 | mapping twice maps once |
| ApiServer.NewsData | ai-news-agent/api_server.py:300 | `all_news`, or `top_stories` when `all_news` is empty |
| ApiServer.StructuredNewsFacts | ai-news-agent/api_server.py:272-341 | 400 exactly for a date that is not YYYY-MM-DD; 404 exactly when the day has no readable report; otherwise one item per news with the mapped category and `total_count` the number of items |
| ApiServer.Server.UpdateFetchStatus | ai-news-agent/api_server.py:50-57 | the record becomes the update applied to it, and is recorded |
| ApiServer.Server.FetchNewsReply | ai-news-agent/api_server.py:99-124 | 409 exactly while fetching, checked before the date; 400 exactly for a bad date; the existing report exactly when not forced and one exists; otherwise started with the date in ISO form |
| ApiServer.Server.StartJob | ai-news-agent/api_server.py:128-136 | the record is the job's start record: fetching, progress 0, no error |
| ApiServer.Server.ChooseModel | ai-news-agent/api_server.py:139-149 | with a model id the manager selects it; the records are the model step's updates with the model announced |
| ApiServer.Server.ChooseModelAsWritten | ai-news-agent/api_server.py:139-149 | as written: once a model is found, only "选择AI模型" is recorded and `update_model` raises |
| ApiServer.Server.ReportProgress | ai-news-agent/api_server.py:152-164 | every callback step becomes an update, then the `except` arm's update when the collection raised |
| ApiServer.Server.Collect | ai-news-agent/api_server.py:151-164 | the records of the collection's updates; the agent saves the full and the simplified report exactly when the collection reaches the save |
| ApiServer.Server.EndJob | ai-news-agent/api_server.py:167-171 | the record stops fetching and keeps everything else |
| ApiServer.Server.FetchTask | ai-news-agent/api_server.py:127-171 | the records are the job trace of its updates, with the model announced; the last record is the status |
| ApiServer.Server.FetchTaskAsWritten | ai-news-agent/api_server.py:127-171 | as written: a found model ends the job before any report is written |
| ApiServer.Server.FetchNews | ai-news-agent/api_server.py:89-181 | the reply is decided before any job; only a started reply runs the job, whose records follow |
| ApiServer.Server.GetReports | ai-news-agent/api_server.py:190-217 | the listing is the readable reports, newest first |
| ApiServer.Server.GetStructuredNews | ai-news-agent/api_server.py:272-341 | the reply built item by item is the structured reply of the report |
| ApiServer.Begun | ai-news-agent/api_server.py:128-136 | the start record is fetching, at progress 0, with no error and the current time as its start |
| ApiServer.FailureUpdate | ai-news-agent/api_server.py:162-164 | the `except` arm's update: progress 0, the error as `last_error` and, after the failure prefix, as the message |
| ApiServer.ItemOf | ai-news-agent/api_server.py:314-327 | an item's `url` and `original_link` are both the article's link, and its category is the mapped one |
| ApiServer.Server.constructor | ai-news-agent/api_server.py:36-46 | the server starts idle with no records, over the given agent and model manager |
| ApiServer.Server.RunCollection | ai-news-agent/api_server.py:155-158 | the collection reports its steps and fails exactly when saving fails; a saved run writes the full and the simplified report of the day and nothing else, and an unsaved one changes no file (also ai-news-agent/news_agent.py:52-101) |
| ModelManager.Authenticate | ai-news-agent/model_manager.py:41-81 | only the token fields change; success exactly when the stored token is reusable or a 200 reply carries an access token; a reusable token or a failed request leaves everything as it was |
| ModelManager.TokenWindow | ai-news-agent/model_manager.py:47-70 | a fresh login at `now` is reused exactly until 3000 seconds later: the 3300-second expiry less the 300-second margin |
| ModelManager.MissingAccessDropsToken | ai-news-agent/model_manager.py:64-73 | a 200 login without `access` replaces the stored token, so a stale one is not reused |
| ModelManager.ProviderMapDomain | ai-news-agent/model_manager.py:140 | the provider map's ids are exactly the listed ids |
| ModelManager.ProviderMapLast | ai-news-agent/model_manager.py:140 | a provider listed twice is mapped to its last listing |
| ModelManager.Accepted | ai-news-agent/model_manager.py:142-170 | never more models than rows |
| ModelManager.AcceptedMembers | ai-news-agent/model_manager.py:142-170 | a fetch keeps a model exactly when it is active and its provider id is listed |
| ModelManager.InsertKeysMembers | ai-news-agent/model_manager.py:167 | the cache's key order holds the old keys and the stored ids, and no other |
| ModelManager.InsertKeysDistinct | ai-news-agent/model_manager.py:167 | the key order stays free of repeats |
| ModelManager.InsertEntriesMembers | ai-news-agent/model_manager.py:167 | the cache's ids are the old ones plus the stored ids |
| ModelManager.InsertEntriesKeeps | ai-news-agent/model_manager.py:167 | an id stored nowhere keeps its entry, and entries stay keyed by their model id |
| ModelManager.ValuesAt | ai-news-agent/model_manager.py:102 | the i-th cached value is the entry of the i-th key |
| ModelManager.RefreshFromCache | ai-news-agent/model_manager.py:98-102 | an unforced call with a set, unexpired cache serves it in insertion order and changes nothing |
| ModelManager.RefreshUnreached | ai-news-agent/model_manager.py:106-123 | a refresh that cannot reach the backend returns the default model; only the login fields may change (also ai-news-agent/model_manager.py:185-203) |
| ModelManager.RefreshReached | ai-news-agent/model_manager.py:125-183 | a refresh that reaches the backend returns exactly the usable models, caches each by id, records every provider and restarts the day-long expiry |
| ModelManager.InsertWellFormed | ai-news-agent/model_manager.py:167 | storing models keeps the cache well formed |
| ModelManager.RefreshWellFormed | ai-news-agent/model_manager.py:94-187 | a refresh keeps the cache well formed |
| ModelManager.CacheOnlyGrows | ai-news-agent/model_manager.py:167 | `models_cache` only grows: every key keeps its place, and an entry changes only when a returned model has its id |
| ModelManager.ExpiryWindow | ai-news-agent/model_manager.py:98-102 | after a refresh that reached the backend, the cache is served exactly until 86400 seconds later (also ai-news-agent/model_manager.py:179-180) |
| ModelManager.RefreshKeepsCurrent | ai-news-agent/model_manager.py:94-187 | no refresh changes the current model |
| ModelManager.SelectFacts | ai-news-agent/model_manager.py:205-221 | a selected model has the id and becomes current; a cached id is selected without a request; an id found nowhere leaves the current model as it was |
| ModelManager.PreferredFacts | ai-news-agent/model_manager.py:228-241 | the pick is the first model whose id or name contains `Qwen3-8B`, or the first model |
| ModelManager.CurrentFacts | ai-news-agent/model_manager.py:223-244 | a set current model is returned unchanged with no request; an unset one is picked, is None only when no model is available, and is kept from then on |
| ModelManager.ByNameFacts | ai-news-agent/model_manager.py:246-252 | a model found is an available one whose name or id is the one asked; none only when no model has it |
| ModelManager.SummarizeFacts | ai-news-agent/model_manager.py:254-269 | the summary keeps every field but the key and the address; `is_current` exactly for a model equal to the current one |
| ModelManager.NoCurrentNoneMarked | ai-news-agent/model_manager.py:267 | with no current model no entry is current |
| ModelManager.Manager.AuthenticateJwt | ai-news-agent/model_manager.py:41-81 | the verdict and the new fields are those of `Authenticate` |
| ModelManager.Manager.AuthHeaders | ai-news-agent/model_manager.py:83-93 | Content-Type always; `Bearer <jwt>` when a token is stored, else `Token <api token>` when one is configured, else no Authorization |
| ModelManager.Manager.CachedModels | ai-news-agent/model_manager.py:102 | the cached entries in key order |
| ModelManager.Manager.AddModels | ai-news-agent/model_manager.py:142-170 | the loop returns the accepted models and stores each in the cache in order |
| ModelManager.Manager.CacheProviders | ai-news-agent/model_manager.py:175-176 | the provider cache is extended by the listed providers, the last listing winning |
| ModelManager.Manager.GetAvailableModels | ai-news-agent/model_manager.py:94-187 | the models and the new state are those of the refresh specification |
| ModelManager.Manager.SelectModel | ai-news-agent/model_manager.py:205-221 | the result and the new state are those of the selection specification |
| ModelManager.Manager.GetCurrentModel | ai-news-agent/model_manager.py:223-244 | the result and the new state are those of the current-model specification |
| ModelManager.Manager.GetModelByName | ai-news-agent/model_manager.py:246-252 | the result and the new state are those of the by-name specification |
| ModelManager.Manager.ListModelsSummary | ai-news-agent/model_manager.py:254-269 | one summary entry per available model, in order, marked current exactly when equal to the current model |
| ModelManager.Manager.constructor | ai-news-agent/model_manager.py:32-39 | empty caches, no current model, no token, both expiries 0 |
| ModelManager.FirstMatch | ai-news-agent/model_manager.py:214-251 | the first model matching the criterion, every earlier one failing it; none when no model matches |
| AiProcessor.RemoveComments | ai-news-agent/ai_processor.py:825 | removing comments never lengthens the text |
| AiProcessor.RemoveTagsChars | ai-news-agent/ai_processor.py:828 | removing tags only deletes characters |
| AiProcessor.RemoveTagsLeavesNoTag | ai-news-agent/ai_processor.py:828 | no `<...>` tag is left after tags are removed |
| AiProcessor.NoMarkupUnchanged | ai-news-agent/ai_processor.py:825-828 | text without '<' has no comment or tag to remove |
| AiProcessor.DecodeTwice | ai-news-agent/ai_processor.py:831-842 | entities are decoded in table order, so `&amp;lt;` becomes `<` |
| AiProcessor.EscapedTagSurvives | ai-news-agent/ai_processor.py:824-842 | tags are removed before entities are decoded, so `&lt;b&gt;` survives as `<b>` |
| AiProcessor.NormalizeEnds | ai-news-agent/ai_processor.py:845-846 | no white space is left at either end |
| AiProcessor.NormalizeSingleSpaces | ai-news-agent/ai_processor.py:845-846 | every white-space character left is one space, never two in a row |
| AiProcessor.NormalizeKeepsVisible | ai-news-agent/ai_processor.py:845-846 | normalizing keeps every other character, in order |
| AiProcessor.FirstMeaningful | ai-news-agent/ai_processor.py:851-857 | the loop keeps the first three stripped sentences longer than 20 characters without "http" |
| AiProcessor.CleanContentSpec | ai-news-agent/ai_processor.py:811-864 | empty input gives ""; the result has at most 1000 characters |
| AiProcessor.CleanContent | ai-news-agent/ai_processor.py:811-864 | the step-by-step cleaning equals its specification |
| AiProcessor.Classify | ai-news-agent/ai_processor.py:543-568 | the category and importance are always known values |
| AiProcessor.ClassifyFirstMatch | ai-news-agent/ai_processor.py:543-568 | the first keyword group mentioned decides, in the order breakthrough, release, research, policy; ("other", "medium") when none is |
| AiProcessor.FallbackTags | ai-news-agent/ai_processor.py:569-575 | at most three tags |
| AiProcessor.FallbackTagsMembership | ai-news-agent/ai_processor.py:569-575 | each tag is present exactly when its keyword condition holds, except that a fourth is dropped |
| AiProcessor.FallbackAnalyze | ai-news-agent/ai_processor.py:535-575 | keeps the title; a known category and importance; at most three tags |
| AiProcessor.LongSentences | ai-news-agent/ai_processor.py:664-667 | only sentences longer than 10 characters, never more than given |
| AiProcessor.FallbackSummary | ai-news-agent/ai_processor.py:655-673 | a summary over 20 characters gives its first 200; otherwise at most 200 characters from the content, or the title template when the cleaned content is empty |
| AiProcessor.FallbackSummaryFromContent | ai-news-agent/ai_processor.py:662-670 | with a short summary: the only long sentence, or the first two joined by '。', closed by '。' and cut to 200 characters; the title template when no sentence of the cleaned content is longer than 10 characters |
| AiProcessor.FallbackKeyPoints | ai-news-agent/ai_processor.py:761-809 | always exactly three points; the generic three when no keyword matches |
| AiProcessor.ExtractKeyPoints | ai-news-agent/ai_processor.py:745-759 | a parsed list gives its first five entries, or all of them when it has fewer; anything else the fallback points |
| AiProcessor.ProcessSingleArticle | ai-news-agent/ai_processor.py:297-343 | missing analysis fields default to the title, "other" and "medium"; tags extend the article's; content is cleaned |
| AiProcessor.FallbackProcessKnownCategory | ai-news-agent/ai_processor.py:297-343 | a fallback-only analysis keeps the title, gives a known category and importance, three key points and at most three extra tags (also ai-news-agent/ai_processor.py:535-575) |
| AiProcessor.ArticleProgress | ai-news-agent/ai_processor.py:282-284 | `50 + int(25 * (i + 1) / n)` lies in [50, 75] |
| AiProcessor.ArticleProgressMonotone | ai-news-agent/ai_processor.py:282-284 | the progress does not decrease with i |
| AiProcessor.ArticleProgressLast | ai-news-agent/ai_processor.py:282-284 | the last article reports 75 |
| AiProcessor.Succeeded | ai-news-agent/ai_processor.py:286-292 | exactly the records produced, in order |
| AiProcessor.ProcessArticles | ai-news-agent/ai_processor.py:261-295 | the loop keeps the produced records; with a callback it reports the progress of each article in turn |
| AiProcessor.ProcessArticlesProgressSorted | ai-news-agent/ai_processor.py:282-284 | the reported values lie in [50, 75], never go down, and end at 75 |
| AiProcessor.WithImportance | ai-news-agent/ai_processor.py:933-934 | exactly the items of that importance, in order |
| AiProcessor.TopStories | ai-news-agent/ai_processor.py:933-937 | at most five stories, each high or medium and from the input |
| AiProcessor.TopStoriesFacts | ai-news-agent/ai_processor.py:933-937 | the first high items (up to 3) then the first medium items (up to 2), in input order; all of them when there are no more |
| AiProcessor.CountStats | ai-news-agent/ai_processor.py:925-930 | the counting loop fills both tables with the counts of each category and importance |
| AiProcessor.GenerateDailyReport | ai-news-agent/ai_processor.py:904-950 | empty input gives the empty report; otherwise the count, both tables, the top stories, all news and the model's stripped summary or the fallback summary |
| AiProcessor.DailyReportTotals | ai-news-agent/ai_processor.py:928-937 | each table sums to the number of items, and the cap of five never cuts |
| ChatView.Reloaded | frontend/src/components/Chat.tsx:92-103 | a failed load keeps the list, a reply without `results` empties it, otherwise the reply's list replaces it |
| ChatView.Removed | frontend/src/components/Chat.tsx:222 | exactly the conversations with another id stay; the list shrinks iff the id was present |
| ChatView.Renamed | frontend/src/components/Chat.tsx:246-248 | same length; entries with the edited id become the updated conversation, every other stays in place |
| ChatView.SendErrorText | frontend/src/components/Chat.tsx:177 | the message starts with the failure prefix and explains with the backend `error`, else the exception message, else the unknown-error text |
| ChatView.AfterSend | frontend/src/components/Chat.tsx:156-163 | the open conversation is refetched only when none was open or its id differs from the reply's, and kept when the refetch fails |
| ChatView.ProviderModels | frontend/src/components/Chat.tsx:823 | exactly the models of the chosen provider |
| ChatView.CascadeModel | frontend/src/components/Chat.tsx:822-827 | a provider without models leaves the model field; otherwise the field takes a model of that provider |
| ChatView.CascadePicksFirst | frontend/src/components/Chat.tsx:823-825 | the model chosen is the first of that provider in list order |
| ChatView.ModelOptions | frontend/src/components/Chat.tsx:865-869 | no provider selected offers every model; otherwise exactly that provider's models |
| ChatView.CascadeIsOffered | frontend/src/components/Chat.tsx:822-869 | after a provider with models is chosen, the model field holds one of the options then offered |
| ChatView.FindModel | frontend/src/components/Chat.tsx:854 | a found model is in the list with the id; none found means no model has it |
| ChatView.EmptySearchKeepsKnown | frontend/src/components/Chat.tsx:852-862 | the empty search keeps an option iff its value is set and names a known model |
| ChatView.ReloadTimes | frontend/src/components/Chat.tsx:283-290 | the intended refresh never reloads more often than there are checks |
| ChatView.ReloadsSpaced | frontend/src/components/Chat.tsx:283-290 | with the latest reload as reference, every reload is more than 10 s after the previous one |
| ChatView.ReloadTimesAsWritten | frontend/src/components/Chat.tsx:283-290 | as written, a check reloads iff more than 10 s passed since the time captured at mount (also frontend/src/components/Chat.tsx:62) |
| ChatView.AsWrittenReloadsEveryCheck | frontend/src/components/Chat.tsx:283-290 | after 10 s the as-written interval reloads at every 2 s check, where the intended one reloads once |
| ChatView.ChatPage.constructor | frontend/src/components/Chat.tsx:48-62 | every state hook at its initial value, the refresh time the clock |
| ChatView.ChatPage.LoadConversations | frontend/src/components/Chat.tsx:92-103 | the list becomes `Reloaded` of the reply; the spinner ends off |
| ChatView.ChatPage.LoadMessages | frontend/src/components/Chat.tsx:106-115 | a reply replaces the messages, a failure keeps them |
| ChatView.ChatPage.LoadAiConfig | frontend/src/components/Chat.tsx:76-89 | a list that is not an array becomes empty; any failure empties both lists |
| ChatView.ChatPage.LoadChatSettings | frontend/src/components/Chat.tsx:118-127 | the settings and the form take the reply; a failure changes nothing |
| ChatView.ChatPage.SendMessage | frontend/src/components/Chat.tsx:130-184 | blank input changes nothing; otherwise input cleared, and on success user and reply messages appended with the conversation refetched and the list reloaded; on failure the user message is rolled back and the error text returned |
| ChatView.ChatPage.DropLast | frontend/src/components/Chat.tsx:180 | the messages lose their last element |
| ChatView.ChatPage.Received | frontend/src/components/Chat.tsx:156-172 | the reply is appended, the open conversation follows `AfterSend`, the list reloads and the refresh time is stamped |
| ChatView.ChatPage.CreateNewConversation | frontend/src/components/Chat.tsx:187-210 | on success the conversation is prepended and opened and the messages loaded or emptied; on failure nothing changes |
| ChatView.ChatPage.SelectConversation | frontend/src/components/Chat.tsx:213-216 | the conversation opens and its messages load |
| ChatView.ChatPage.DeleteConversation | frontend/src/components/Chat.tsx:219-234 | after a backend success the entries with the id go, and the open conversation and messages clear exactly when it had that id |
| ChatView.ChatPage.StartEditing | frontend/src/components/Chat.tsx:331-335 | the conversation is remembered and the title dialog opens |
| ChatView.ChatPage.UpdateConversationTitle | frontend/src/components/Chat.tsx:237-262 | nothing without an edited conversation; on success the entries and open conversation with its id become the update and the dialog closes |
| ChatView.ChatPage.UpdateChatSettings | frontend/src/components/Chat.tsx:265-275 | on success the settings take the reply and the drawer closes; on failure nothing changes |
| ChatView.ChatPage.ChangeProvider | frontend/src/components/Chat.tsx:822-827 | the provider field takes the choice and the model field follows `CascadeModel` |
| ChatView.ChatPage.ModelChoices | frontend/src/components/Chat.tsx:865-869 | only known models are offered, and every model of the selected provider (all with none selected) is |
| ChatView.ChatPage.CurrentChanged | frontend/src/components/Chat.tsx:312-319 | the refresh time is stamped and the open conversation's messages reload |
| ChatView.ChatPage.MessagesChanged | frontend/src/components/Chat.tsx:322-324 | only the refresh time changes |
| ChatView.ChatPage.StartAutoRefresh | frontend/src/components/Chat.tsx:278-291 | the interval captures the current refresh time |
| ChatView.ChatPage.RefreshCheckAsWritten | frontend/src/components/Chat.tsx:283-290 | reloads iff more than 10 s passed since the captured time, whatever was stamped since |
| ChatView.ChatPage.RefreshCheck | frontend/src/components/Chat.tsx:283-290 | reloads iff more than 10 s passed since the latest stamp, which then moves to now |
| NewsAnalytics.HourOf | frontend/src/components/NewsAnalytics.tsx:95 | the hour of a timestamp is below 24 |
| NewsAnalytics.Field | frontend/src/components/NewsAnalytics.tsx:80-97 | one field value per item |
| NewsAnalytics.FieldAt | frontend/src/components/NewsAnalytics.tsx:80-97 | the `i`th value is the field of the `i`th item |
| NewsAnalytics.TallySnoc | frontend/src/components/NewsAnalytics.tsx:80-97 | one more item adds it to each table and leaves the tables so far |
| NewsAnalytics.TallyNews | frontend/src/components/NewsAnalytics.tsx:80-97 | the `forEach` builds exactly the tables of `Tally` |
| NewsAnalytics.TablesSumToTotal | frontend/src/components/NewsAnalytics.tsx:80-122 | each table's counts add up to `total_news`, and a category's count is the number of items in it |
| NewsAnalytics.Trend | frontend/src/components/NewsAnalytics.tsx:100-108 | the trend has one entry per day of the loop |
| NewsAnalytics.DailyTrend | frontend/src/components/NewsAnalytics.tsx:100-108 | the `while` over the days builds exactly `Trend` |
| NewsAnalytics.TrendSpan | frontend/src/components/NewsAnalytics.tsx:66-108 | the trend has as many days as the request asks for, starts on the start day, and ends on the end day, or the day before when the start's time of day is later |
| NewsAnalytics.Top | frontend/src/components/NewsAnalytics.tsx:113-114 | keeps `min(n, entries)` entries |
| NewsAnalytics.TopFacts | frontend/src/components/NewsAnalytics.tsx:113-114 | the kept entries are sorted by count, come from the entries, and none left out has a larger count than one kept |
| NewsAnalytics.HourBarsFacts | frontend/src/components/NewsAnalytics.tsx:111-112 | one entry per hour that occurs, with its count, by ascending hour |
| NewsAnalytics.PeakHours | frontend/src/components/NewsAnalytics.tsx:111-114 | at most six hours |
| NewsAnalytics.PeakHoursFacts | frontend/src/components/NewsAnalytics.tsx:111-114 | at most six hours, sorted by count, each with its true count; an hour left out has no more items than any listed |
| NewsAnalytics.Distinct | frontend/src/components/NewsAnalytics.tsx:164 | the keys of a table: every value once, nothing else |
| NewsAnalytics.Bars | frontend/src/components/NewsAnalytics.tsx:164 | the entries of the keys, each with its count |
| NewsAnalytics.Chart | frontend/src/components/NewsAnalytics.tsx:163-166 | at most ten entries |
| NewsAnalytics.NoDuplicatesCount | frontend/src/components/NewsAnalytics.tsx:164 | no duplicates iff every value occurs at most once |
| NewsAnalytics.ChartFacts | frontend/src/components/NewsAnalytics.tsx:139-166 | at most ten values, sorted by count, each with its true count, none twice; a value left out has no more items than any shown |
| NewsAnalytics.ChartCounts | frontend/src/components/NewsAnalytics.tsx:163-166 | each value shown occurs, with the number of its occurrences |
| NewsAnalytics.ChartLeftOut | frontend/src/components/NewsAnalytics.tsx:163-166 | a value left out has no more occurrences than any value shown |
| NewsAnalytics.ChartKeysDistinct | frontend/src/components/NewsAnalytics.tsx:164-166 | no value is shown twice |
| NewsAnalytics.FromEnd | frontend/src/components/NewsAnalytics.tsx:117-118 | the start of `slice(-k)` is within the trend |
| NewsAnalytics.Indicator | frontend/src/components/NewsAnalytics.tsx:117-119 | no items in the earlier window gives a growth rate of 0, which is steady (also frontend/src/components/NewsAnalytics.tsx:206-224) |
| NewsAnalytics.IndicatorFacts | frontend/src/components/NewsAnalytics.tsx:212-224 | rising means more items in the last three days than in the three before, falling fewer, equal windows steady (also frontend/src/components/NewsAnalytics.tsx:119) |
| NewsAnalytics.ShortRangeSteady | frontend/src/components/NewsAnalytics.tsx:117-119 | a trend of at most three days is always steady (also frontend/src/components/NewsAnalytics.tsx:220-224) |
| NewsAnalytics.ComputeAnalytics | frontend/src/components/NewsAnalytics.tsx:71-129 | the page data is exactly `Analyze` of the items and the range |
| NewsAnalytics.AnalyticsPage.constructor | frontend/src/components/NewsAnalytics.tsx:49-54 | the range is the last seven days up to now, loading, no data |
| NewsAnalytics.AnalyticsPage.LoadAnalytics | frontend/src/components/NewsAnalytics.tsx:61-137 | one request of 100 items over the range's days; a failure keeps the data and counts an error; a reply sets `Analyze` of its results (`[]` without); the spinner ends off |
| ChatModels.FirstProvider | backend/chat/models.py:73-76 | none only for an empty query; otherwise a provider of the query that no other precedes in the default-first, newest-first ordering |
| ChatModels.FirstModel | backend/chat/models.py:103-106 | none only for no models; otherwise a model whose display name no other sorts before |
| ChatModels.ClearDefaults | backend/chat/models.py:84-85 | every provider of the user loses its default flag; every other row stays |
| ChatModels.Upsert | backend/chat/models.py:86 | the saved row is present, rows with another id stay, nothing else is added |
| ChatModels.Without | backend/chat/models.py:91 | exactly the providers with another id remain |
| ChatModels.ClearDefaultsNoDefault | backend/chat/models.py:84-85 | after clearing no provider of the user is the default |
| ChatModels.SaveDefaultIsOnlyDefault | backend/chat/models.py:82-86 | saving a default provider leaves it the only default of its user |
| ChatModels.SaveNonDefaultKeepsOthers | backend/chat/models.py:82-86 | saving a non-default provider leaves every other provider unchanged |
| ChatModels.NullAll | backend/chat/models.py:116-117 | each settings row has its references to the deleted provider and its models set to null |
| ChatModels.ModelsNotOf | backend/chat/models.py:91 | exactly the models of other providers remain |
| ChatModels.ChatDb.constructor | backend/chat/models.py:8-130 | an empty database |
| ChatModels.ChatDb.SettingsOf | backend/chat/models.py:115 | a found row belongs to the user; none found means the user has none |
| ChatModels.ChatDb.SaveProvider | backend/chat/models.py:77-86 | a default provider first clears the user's defaults; the write fails when the (user, name) pair is taken |
| ChatModels.ChatDb.DeleteProvider | backend/chat/models.py:91-117 | the provider and its models go and the settings referencing them are nulled |
| ChatModels.ChatDb.AddModel | backend/chat/models.py:91-107 | the model is added to an existing provider; the write fails when (provider, model id) is taken |
| ChatModels.ChatDb.PutSettings | backend/chat/models.py:115-117 | the user's settings row is replaced or created, every other user's row stays |
| ChatModels.ChatDb.AddConversation | backend/chat/models.py:8-14 | a new active conversation row with a fresh id, nothing else changes |
| ChatModels.ChatDb.AddMessage | backend/chat/models.py:25-40 | a new message row with a fresh id, nothing else changes |
| ChatModels.ChatDb.DeleteConversation | backend/chat/models.py:33 | the conversation and its messages go |
| ChatModels.ChatDb.PutConversations | backend/chat/models.py:8-14 | the conversation rows become the given ones, nothing else changes |
| ChatModels.ConversationsWithout | backend/chat/models.py:33 | exactly the conversations with another id remain |
| ChatModels.MessagesNotIn | backend/chat/models.py:33 | exactly the messages of other conversations remain |
| ChatModels.FindSettings | backend/chat/models.py:115 | a found row belongs to the user; none found means no row does |
| ChatModels.ReplaceSettings | backend/chat/models.py:115 | the new row is present and every other user's row stays |
| ChatModels.ReplaceSettingsFind | backend/chat/models.py:115 | after the write the user finds the new row and every other user the row they had |
| ChatModels.ClearDefaultsRows | backend/chat/models.py:84-85 | clearing changes no field but the default flag |
| ChatModels.ClearDefaultsUnique | backend/chat/models.py:77-85 | clearing keeps the (user, name) and id uniqueness |
| ChatModels.ClearDefaultsValid | backend/chat/models.py:84-85 | clearing keeps the table consistent with the rest of the database |
| ChatModels.UpsertValid | backend/chat/models.py:77-86 | a successful write keeps the table valid; a new row raises the id bound by one |
| ChatModels.NullAllValid | backend/chat/models.py:116-117 | after the cascade no settings row refers to a removed row |
| NewsServices.PyPrefix | backend/news/services.py:73-84 | `s[:count]` is a prefix of `s`, of length `min(count, len)` for a non-negative count |
| NewsServices.GenerateNewsTopics | backend/news/services.py:42-84 | the reply's topics or the five default topics, cut to `count` |
| NewsServices.GenerateNewsTopicsBound | backend/news/services.py:73-84 | on every path at most `count` topics come back |
| NewsServices.NewsDataForFacts | backend/news/services.py:135-145 | a topic is dropped iff its analysis is not an object; otherwise the mock content, the link numbered from 1 and each field from the analysis or its default; a failed analysis gives the fixed defaults (also backend/news/services.py:255-281) |
| NewsServices.Analyzed | backend/news/services.py:250-281 | at most one record per topic |
| NewsServices.AnalyzedAllObjects | backend/news/services.py:251-281 | when every analysis is an object, every topic gives a record |
| NewsServices.TopicProgressFacts | backend/news/services.py:252 | topic progress lies in [20, 80) and never goes down |
| NewsServices.TopicProgresses | backend/news/services.py:251-253 | one progress report per topic |
| NewsServices.ProgressRunOrdered | backend/news/services.py:213-219 | a job's progress starts at 0, never goes down, stays within [0, 100] and ends at 100 (also backend/news/services.py:245-297) |
| NewsServices.DataRow | backend/news/services.py:312-322 | a saved row holds exactly the record it was created from |
| NewsServices.DataOf | backend/news/services.py:312-322 | one record per row |
| NewsServices.Kept | backend/news/services.py:310-328 | at most the records given |
| NewsServices.Dates | backend/news/models.py:69 | one day per history row |
| NewsServices.FindRecord | backend/news/services.py:338 | a found row is the day's; none found iff no row has that day (also backend/news/models.py:83) |
| NewsServices.UpsertHistoryDates | backend/news/services.py:338-345 | an upsert adds the day only when it was not there |
| NewsServices.UpsertHistoryUnique | backend/news/services.py:338-345 | an upsert keeps one history row per day (also backend/news/models.py:83) |
| NewsServices.UpsertHistoryFind | backend/news/services.py:338-345 | the day's row takes the new count, status and message, keeps its creation time when it existed, and every other day's row stays |
| NewsServices.NewsDb.constructor | backend/news/models.py:5-87 | an empty database |
| NewsServices.NewsDb.Create | backend/news/services.py:312-322 | a row is appended with a fresh id and the current time; the history stays |
| NewsServices.NewsService.constructor | backend/news/services.py:176-182 | the initial status: not fetching, progress 0 |
| NewsServices.NewsService.UpdateStatus | backend/news/services.py:198-204 | only the progress and the message change |
| NewsServices.NewsService.StartFetchTask | backend/news/services.py:206-239 | refused exactly while a job runs, then nothing changes; otherwise the job ends with the topics saved, the history recorded and the full progress run |
| NewsServices.NewsService.FetchTask | backend/news/services.py:211-235 | marks the job started with a five-minute estimate, runs it and ends not fetching |
| NewsServices.NewsService.FetchNewsInternal | backend/news/services.py:241-304 | topics, one record per analysable topic, the save, the history row and progress 100 |
| NewsServices.NewsService.SaveAndRecord | backend/news/services.py:283-294 | the kept records are appended after the old rows, today's history row counts them, the job ends at progress 100 with the success message, and progress 85, 95 and 100 are reported in that order |
| NewsServices.NewsService.CollectTopics | backend/news/services.py:250-281 | the loop collects exactly `Analyzed` and reports one progress per topic |
| NewsServices.NewsService.SaveNewsItems | backend/news/services.py:306-330 | the count is the records whose create succeeded, and the new rows hold exactly those records, after the old rows |
| NewsServices.NewsService.RecordFetchHistory | backend/news/services.py:332-351 | the history becomes the upsert of today's row; the items stay |
| SystemSettings.DigitValue | frontend/src/components/SystemSettings.tsx:108 | a digit's value is below the radix |
| SystemSettings.LeadingDigits | frontend/src/components/SystemSettings.tsx:108 | the leading run: every character before it is a digit and the one after is not |
| SystemSettings.ParseDigits | frontend/src/components/SystemSettings.tsx:108 | no number exactly when the text does not start with a digit |
| SystemSettings.DecimalDigits | frontend/src/components/SystemSettings.tsx:108 | decimal digits are digits to `parseInt` and read as their usual value |
| SystemSettings.DigitsThenRest | frontend/src/components/SystemSettings.tsx:108 | digits followed by a non-digit read as the digits' number |
| SystemSettings.DecimalStart | frontend/src/components/SystemSettings.tsx:108 | text starting with a digit and not with `0x` is read in decimal |
| SystemSettings.ParseIntRendered | frontend/src/components/SystemSettings.tsx:108 | `parseInt` reads back a rendered count and stops at the first non-digit |
| SystemSettings.Decode | frontend/src/components/SystemSettings.tsx:105-111 | a boolean is on exactly for `true`, a number goes through `parseInt`, any other text is kept |
| SystemSettings.Values | frontend/src/components/SystemSettings.tsx:103-112 | every entry's key gets a form value |
| SystemSettings.ValuesOfDistinct | frontend/src/components/SystemSettings.tsx:103-112 | with distinct keys each key holds its entry's decoded value |
| SystemSettings.InitialValues | frontend/src/components/SystemSettings.tsx:103-112 | the `forEach` builds exactly `Values` of the entries |
| SystemSettings.FieldError | frontend/src/components/SystemSettings.tsx:155-265 | a number field passes iff it is at least 1; switches and JSON entries have no rule |
| SystemSettings.FormErrors | frontend/src/components/SystemSettings.tsx:155-265 | at most one error per entry |
| SystemSettings.FormErrorsNone | frontend/src/components/SystemSettings.tsx:155-265 | a form whose every field passes has no errors |
| SystemSettings.ReadsDecimal | frontend/src/components/SystemSettings.tsx:108 | a run of decimal digits reads as its value |
| SystemSettings.DefaultDecodesPass | frontend/src/components/SystemSettings.tsx:45-94 | each built-in entry's decoded value passes its rule (also frontend/src/components/SystemSettings.tsx:155-265) |
| SystemSettings.DefaultsPass | frontend/src/components/SystemSettings.tsx:45-94 | the built-in values pass every rule (also frontend/src/components/SystemSettings.tsx:155-265) |
| SystemSettings.DefaultsValid | frontend/src/components/SystemSettings.tsx:45-94 | the built-in values pass every rule, the numbers read as 10, 24 and 100, both switches start on and the log level is INFO (also frontend/src/components/SystemSettings.tsx:103-112) |
| SystemSettings.SettingsPage.LoadConfigs | frontend/src/components/SystemSettings.tsx:96-119 | the built-in entries are listed and the form gets their decoded values; the spinner ends off |
| SystemSettings.SettingsPage.ResetToDefault | frontend/src/components/SystemSettings.tsx:136-149 | the form gets the values loading gives, the entries stay, and one info toast is shown |
| SystemSettings.SettingsPage.constructor | frontend/src/components/SystemSettings.tsx:40-42 | no configs, an empty form, no spinner, no notices |
| NewsAgent.Stem | ai-news-agent/news_agent.py:214 | the stem is the name without its `.json` suffix |
| NewsAgent.LastSegment | ai-news-agent/news_agent.py:214 | the last segment of a split on `_` holds no `_` |
| NewsAgent.SplitLast | ai-news-agent/news_agent.py:214 | after the last `_` comes exactly the text that has none |
| NewsAgent.ReportFileNames | ai-news-agent/news_agent.py:127 | a date's report file matches the report pattern and its date part is the packed date; the simplified file does not match (also ai-news-agent/news_agent.py:151, ai-news-agent/news_agent.py:165, ai-news-agent/news_agent.py:214) |
| NewsAgent.ReportFileOrder | ai-news-agent/news_agent.py:127-171 | for four-digit years report file names sort as strings exactly in calendar order |
| NewsAgent.EmptyReport | ai-news-agent/news_agent.py:103-116 | the date, the no-news summary, zero counts and empty tables and lists |
| NewsAgent.ReportsConsistent | ai-news-agent/news_agent.py:56-82 | the empty report and the collected report are both consistent (counts agree with their lists) |
| NewsAgent.Simplify | ai-news-agent/news_agent.py:134-149 | the brief report keeps the date, summary, count, time and, per top story, title, source, summary, link and importance |
| NewsAgent.SimplifyKeepsShownFields | ai-news-agent/news_agent.py:134-149 | reports that agree on the shown fields simplify alike |
| NewsAgent.CollectionProgress | ai-news-agent/news_agent.py:47-100 | progress starts at 15, never goes down and stays in [0, 100]; a returned report ends at 100; a failed save ends at 0 right after 90 |
| NewsAgent.Outcomes | ai-news-agent/news_agent.py:64 | one outcome per article |
| NewsAgent.TargetDay | ai-news-agent/news_agent.py:39-40 | the given date, or today |
| NewsAgent.ReportDates | ai-news-agent/news_agent.py:209-215 | exactly the date parts of the report names |
| NewsAgent.LatestName | ai-news-agent/news_agent.py:165-171 | none iff no report name; otherwise a report name no other report name sorts after |
| NewsAgent.Read | ai-news-agent/news_agent.py:173-200 | a read succeeds iff the file exists and is readable, and gives its content |
| NewsAgent.NewsAgent.constructor | ai-news-agent/news_agent.py:20-26 | the output directory keeps what it holds |
| NewsAgent.NewsAgent.Write | ai-news-agent/news_agent.py:128-153 | the file takes the content; a new name is listed last, an existing one keeps its place |
| NewsAgent.NewsAgent.SaveResults | ai-news-agent/news_agent.py:118-155 | both files are written, and `get_report_by_date` then returns the full report (also ai-news-agent/news_agent.py:180-200) |
| NewsAgent.NewsAgent.LatestReport | ai-news-agent/news_agent.py:157-178 | no report name gives none; otherwise the read of the greatest report name |
| NewsAgent.NewsAgent.ListAvailableReports | ai-news-agent/news_agent.py:202-219 | the date parts of the report names, sorted |
| NewsAgent.NewsAgent.RunDailyCollection | ai-news-agent/news_agent.py:28-101 | the progress steps of the run; no articles or no processed news return the empty report and write nothing; a failed save raises after the steps; otherwise the collected report is saved and returned |
| NewsAgent.ListedDates | ai-news-agent/news_agent.py:202-219 | every report file of a date is listed as its packed date, and the listing is sorted |
| NewsAgent.LatestIsLatestDate | ai-news-agent/news_agent.py:157-171 | for four-digit years the latest report is that of the latest date |
| NewsAgent.NewsAgent.ProcessAndReport | ai-news-agent/news_agent.py:52-101 | after fetching: no articles or no processed news give the empty report; a failed save gives the error; otherwise the collected report is saved |
| NewsAgent.NewsAgent.ReportAndSave | ai-news-agent/news_agent.py:74-95 | the report steps; a failed save returns the error and writes nothing; otherwise both files of the collected report are written |
| NewsRecommendations.FirstMatching | frontend/src/components/NewsRecommendations.tsx:61-74 | at most `n` items |
| NewsRecommendations.FilterAppend | frontend/src/components/NewsRecommendations.tsx:62-73 | filtering a concatenation filters each part |
| NewsRecommendations.FilterSnoc | frontend/src/components/NewsRecommendations.tsx:62-73 | one more item is kept exactly when it matches |
| NewsRecommendations.FirstMatchingPrefix | frontend/src/components/NewsRecommendations.tsx:61-74 | the selection is the matching items of a prefix of the list, in order, and that prefix stops short of the list only once `n` were found |
| NewsRecommendations.FirstMatchingMembers | frontend/src/components/NewsRecommendations.tsx:61-74 | every item picked matches and comes from the list; a short selection holds every matching item |
| NewsRecommendations.Trending | frontend/src/components/NewsRecommendations.tsx:61-63 | at most five items |
| NewsRecommendations.ForCategory | frontend/src/components/NewsRecommendations.tsx:67-69 | at most three items |
| NewsRecommendations.Recent | frontend/src/components/NewsRecommendations.tsx:72-74 | at most six items |
| NewsRecommendations.CategoryTableFacts | frontend/src/components/NewsRecommendations.tsx:65-70 | an entry for exactly the keys given, each holding that category's first three items |
| NewsRecommendations.CategoryRecommendations | frontend/src/components/NewsRecommendations.tsx:65-70 | the `forEach` builds the table of every category key |
| NewsRecommendations.AllNews | frontend/src/components/NewsRecommendations.tsx:58 | a reply without results gives no items, otherwise its results |
| NewsRecommendations.BuildRecommendations | frontend/src/components/NewsRecommendations.tsx:58-81 | the recommendations are exactly `Recommend` of the replies |
| NewsRecommendations.RecommendFacts | frontend/src/components/NewsRecommendations.tsx:58-81 | at most five trending items, each high and from the reply, and all high ones when fewer; a list for every category key and no other, at most three of that category; at most six recent items of the last 24 hours; missing stats give an empty table |
| NewsRecommendations.StatValue | frontend/src/components/NewsRecommendations.tsx:155-171 | a missing count shows 0, a present one itself |
| NewsRecommendations.ImportanceColors | frontend/src/components/NewsRecommendations.tsx:90-97 | the three importances get different colours, and only another value is blue |
| NewsRecommendations.CategoryIcons | frontend/src/components/NewsRecommendations.tsx:99-110 | every category key has its own icon; a category outside the keys shares the `other` icon |
| NewsRecommendations.RecommendationsPage.LoadRecommendations | frontend/src/components/NewsRecommendations.tsx:48-88 | one request of 20 items over 7 days; a failure keeps the data and counts an error; replies set `Recommend` of them; the spinner ends off |
| NewsRecommendations.RecommendationsPage.SelectCategory | frontend/src/components/NewsRecommendations.tsx:255 | only the selected category changes |
| NewsRecommendations.ShownCategory | frontend/src/components/NewsRecommendations.tsx:268 | the list shown for a category key is its first three items, and nothing for a text that is no key |
| NewsRecommendations.RecommendationsPage.constructor | frontend/src/components/NewsRecommendations.tsx:40-42 | no data, loading, the first category key selected |
| AccountsViews.Login | backend/accounts/views.py:35-46 | a 200 exactly when the login serializer as written accepts, answering both tokens and the user; otherwise a 400 with its message outside any field, so an inactive user is told the credentials are wrong |
| AccountsViews.LoginAnswersTokens | backend/accounts/views.py:35-46 | a successful login answers an active user of that name whose password checks, with both tokens (also backend/accounts/serializers.py:71-85) |
| AccountsViews.RegistrationErrors | backend/accounts/views.py:57-69 | no errors exactly when the library finds none and the user name is free (also backend/accounts/serializers.py:39-51) |
| AccountsViews.Register | backend/accounts/views.py:55-69 | a valid form creates the user and its profile and answers 201 with both tokens; otherwise 400 with the errors and nothing written |
| AccountsViews.Patched | backend/accounts/views.py:92-94 | a profile update never changes the id, user name, password or avatar (also backend/accounts/serializers.py:88-93) |
| AccountsViews.UpdateProfile | backend/accounts/views.py:90-100 | an email another user has is refused under `email`, as are the library's field errors; otherwise only the given fields change (also backend/accounts/serializers.py:95-100) |
| AccountsViews.ChangePassword | backend/accounts/views.py:109-116 | on a valid form only the password changes, to the new one (also backend/accounts/serializers.py:102-123) |
| AccountsViews.ChangedPasswordChecks | backend/accounts/serializers.py:119-123 | after a change the new password checks and a different old one no longer does |
| AccountsViews.SettingsErrors | backend/accounts/views.py:149-157 | a theme or language error exactly for a value outside its choices, and no other field errs (also backend/accounts/models.py:22-35) |
| AccountsViews.ApplySettings | backend/accounts/views.py:149-151 | the profile stays its user's |
| AccountsViews.ApplyKeepsChoices | backend/accounts/views.py:149-151 | an update that passes validation keeps the choices valid (also backend/accounts/models.py:22-35) |
| AccountsViews.EnsureProfile | backend/accounts/views.py:127-147 | the stored profile, or a default one stored first when missing |
| AccountsViews.GetSettings | backend/accounts/views.py:125-133 | answers the user's settings, storing the defaults first when there were none |
| AccountsViews.UpdateSettings | backend/accounts/views.py:142-157 | the profile is created first when missing, so a refused update still stores it; an accepted one changes only the given settings |
| AccountsViews.Blacklist.Logout | backend/accounts/views.py:166-176 | a non-empty token is parsed and blacklisted; no token still succeeds; only a token that fails to parse gives the 400 |
| AccountsViews.CheckAvatar | backend/accounts/views.py:187-208 | no file, a type outside JPEG/PNG/GIF and a size over 2 MiB are refused in that order; anything else passes unchanged |
| AccountsViews.AvatarLimitInclusive | backend/accounts/views.py:204 | exactly 2 MiB passes, one byte more does not |
| AccountsViews.UploadAvatar | backend/accounts/views.py:185-223 | a file that passes is stored as the avatar and its URL answered; a failing save answers 500 with the error; a refused file changes nothing |
| AccountsViews.JoinedDaysBounds | backend/accounts/views.py:241-243 | the calendar-day count is never negative for a past join and is the elapsed whole days or one more |
| AccountsViews.Blacklist.constructor | backend/accounts/views.py:170-172 | no refresh token is blacklisted yet |
| AccountsSerializers.DefaultProfile | backend/accounts/models.py:22-34 | a new profile has the light theme, Chinese, and both notifications on (also backend/accounts/serializers.py:61) |
| AccountsSerializers.ValidateRegistration | backend/accounts/serializers.py:41-51 | valid exactly when the fields pass and the confirmation matches; a mismatch alone gives the confirmation error |
| AccountsSerializers.NewUser | backend/accounts/serializers.py:53-58 | the row has the name and email given, the password set and is active; `password_confirm` is dropped |
| AccountsSerializers.FindUser | backend/accounts/serializers.py:76 | a found index holds that user name; none found means no row has it |
| AccountsSerializers.Authenticate | backend/accounts/serializers.py:76 | Django's default backend lets in only an active user of that name whose password checks |
| AccountsSerializers.AuthenticateAny | backend/accounts/serializers.py:76 | a backend that admits inactive users still needs the name and the password to check |
| AccountsSerializers.ValidateLoginAsWritten | backend/accounts/serializers.py:71-85 | as written, over the default backend: a success is an active user of the given name whose given password checks |
| AccountsSerializers.ValidateLogin | backend/accounts/serializers.py:71-85 | corrected, over a backend that admits inactive users: a success is still an active user of the given name whose given password checks |
| AccountsSerializers.LoginRules | backend/accounts/serializers.py:71-85 | a missing field fails first, then wrong credentials, then an inactive user; only an active user with the right password logs in |
| AccountsSerializers.LoginVersionsAgreeOnSuccess | backend/accounts/serializers.py:71-85 | the as-written and the corrected login accept exactly the same users, with the same result |
| AccountsSerializers.DisabledMessageUnreachable | backend/accounts/serializers.py:76-80 | as written the disabled-account message is never given |
| AccountsSerializers.DisabledUserExample | backend/accounts/serializers.py:76-80 | one inactive user with the right password is told the password is wrong as written, and that the account is disabled as intended |
| AccountsSerializers.ValidateEmail | backend/accounts/serializers.py:95-99 | an email is refused exactly when another user has it |
| AccountsSerializers.ValidatePasswordChange | backend/accounts/serializers.py:104-117 | valid exactly when the old password checks, the new one passes and the confirmation matches; a wrong old password errs under `old_password` |
| AccountsSerializers.MismatchIsNonField | backend/accounts/serializers.py:114-117 | a mismatched confirmation is reported outside every field, and only when the fields pass |
| AccountsSerializers.Accounts.Create | backend/accounts/serializers.py:53-63 | one new user with the password set and exactly one new default profile for it |
| AccountsSerializers.Accounts.SetPassword | backend/accounts/serializers.py:119-123 | only that user's password changes |
| AccountsSerializers.Accounts.SetUser | backend/accounts/serializers.py:88-93 | only that user's row changes, keeping its id and user name |
| AccountsSerializers.Accounts.SetProfile | backend/accounts/models.py:22-24 | only that user's profile changes |
| AccountsSerializers.Accounts.constructor | backend/accounts/models.py:5-24 | no users and no profiles |
| ChatSerializers.CharField | backend/chat/serializers.py:128-149 | the field accepts exactly a non-blank value (unless blanks are allowed) whose stripped form fits the limit, and yields the stripped form |
| ChatSerializers.StripNonBlank | backend/chat/serializers.py:130-156 | a validator accepts exactly non-blank text, yields it stripped and non-empty, and otherwise gives its own error |
| ChatSerializers.ValidatedFacts | backend/chat/serializers.py:128-156 | a validated value is the stripped input, non-empty and within the limit; only the field's own errors reach the caller; validating the result again accepts it unchanged |
| ChatSerializers.ValidateMessage | backend/chat/serializers.py:128-133 | accepted exactly when not blank and at most 4000 characters once stripped; yields the stripped text |
| ChatSerializers.ValidateTitle | backend/chat/serializers.py:138-144 | accepted exactly when not blank and at most 200 characters once stripped; yields the stripped title |
| ChatSerializers.ValidateFirstMessage | backend/chat/serializers.py:139 | absent gives the empty text; otherwise accepted exactly within 4000 characters once stripped, blanks allowed |
| ChatSerializers.ValidateApiKey | backend/chat/serializers.py:149-156 | accepted exactly when not blank and at most 500 characters once stripped; yields the stripped key |
| ChatSerializers.ValidateModelProvider | backend/chat/serializers.py:97-101 | accepted exactly when the provider is the user's own |
| ChatSerializers.ValidateDefaultProvider | backend/chat/serializers.py:114-117 | none or the user's own provider is accepted, nothing else |
| ChatSerializers.ValidateDefaultModel | backend/chat/serializers.py:119-122 | none or a model of one of the user's providers is accepted, nothing else |
| ChatSerializers.ValidateProviderId | backend/chat/serializers.py:163-168 | accepted exactly when the id names one of the user's providers |
| ChatSerializers.Preview | backend/chat/serializers.py:44 | up to 100 characters unchanged; longer contents become their first 100 characters and `...` |
| ChatSerializers.GetLastMessage | backend/chat/serializers.py:40-48 | none exactly when the conversation has no messages |
| ChatSerializers.LastMessageIsNewest | backend/chat/serializers.py:40-48 | a newly appended message becomes the conversation's last message, previewed |
| ChatSerializers.ModelsCountAdd | backend/chat/serializers.py:64-83 | one more model adds one to its provider's count exactly when active, nothing to the others |
| ChatSerializers.ModelsCountNoActive | backend/chat/serializers.py:64-65 | a provider whose models are all inactive counts none |
| ChatSerializers.ProviderDataHidesKey | backend/chat/serializers.py:57-62 | the key is write-only: providers that differ only in their key read the same |
| AiConfigPage.EditForm | frontend/src/components/AIConfig.tsx:99-106 | the edit form holds the provider's values with the key blanked |
| AiConfigPage.UpdatePayload | frontend/src/components/AIConfig.tsx:124-130 | the key is sent exactly when it is non-empty, and every other value as typed |
| AiConfigPage.ProviderRequest | frontend/src/components/AIConfig.tsx:122-135 | a creation with every value when no provider is edited, otherwise an update of the edited one |
| AiConfigPage.EditKeepsKey | frontend/src/components/AIConfig.tsx:99-130 | saving an opened provider without typing a key sends no key, so the stored key stays; typing one sends it |
| AiConfigPage.NewModelForm | frontend/src/components/AIConfig.tsx:223-229 | a new model form for the provider with 4096 tokens, no functions, no vision, active |
| AiConfigPage.AutoModel | frontend/src/components/AIConfig.tsx:185-194 | a detected model is created with its id, name and description over the new-model defaults |
| AiConfigPage.Successes | frontend/src/components/AIConfig.tsx:182-195 | the success count is at most the number of attempts, all of them exactly when every one succeeded, none exactly when none did |
| AiConfigPage.AddDetected | frontend/src/components/AIConfig.tsx:181-200 | one creation request per detected model, in order, and the count of those that did not throw |
| AiConfigPage.FilteredModels | frontend/src/components/AIConfig.tsx:403-405 | every model when no provider is selected, otherwise exactly that provider's models |
| AiConfigPage.TypeLabelsDistinct | frontend/src/components/AIConfig.tsx:268-279 | known types get their own labels, no two alike; an unknown type shows as it is |
| AiConfigPage.AiConfigView.constructor | frontend/src/components/AIConfig.tsx:42-52 | nothing selected, both dialogs closed, nothing sent |
| AiConfigPage.AiConfigView.CreateProviderForm | frontend/src/components/AIConfig.tsx:88-97 | no provider edited, the form reset to active, not default and custom, the dialog open |
| AiConfigPage.AiConfigView.EditProvider | frontend/src/components/AIConfig.tsx:99-106 | the provider edited, the form its values with the key blanked, the dialog open |
| AiConfigPage.AiConfigView.SubmitProvider | frontend/src/components/AIConfig.tsx:119-143 | one request; success closes the dialog with the update or create message; failure keeps it open with the error or a default message |
| AiConfigPage.AiConfigView.CreateModelForm | frontend/src/components/AIConfig.tsx:216-231 | with no provider selected only a warning; otherwise a fresh form for that provider in an open dialog |
| AiConfigPage.AiConfigView.ConfirmDetected | frontend/src/components/AIConfig.tsx:178-203 | the creation requests are sent after the earlier ones and the success count reported |
| AuthContext.FieldMessage | frontend/src/contexts/AuthContext.tsx:62-108 | a field's message is the non-empty first entry of its error list |
| AuthContext.FirstMessagePriority | frontend/src/contexts/AuthContext.tsx:62-108 | the message shown is that of the first field in order whose first error is not empty |
| AuthContext.FirstMessageNoField | frontend/src/contexts/AuthContext.tsx:62-108 | with no field message, the error's non-empty `message`, else the fallback |
| AuthContext.RegisterPutsEmailSecond | frontend/src/contexts/AuthContext.tsx:62-78 | a username error shows first in both; without one an email error shows before the password error; login and register agree when neither has a field message |
| AuthContext.FallbackUnused | frontend/src/contexts/AuthContext.tsx:62-108 | with a non-empty `message` the fallback is never shown |
| AuthContext.LoginWithoutBody | frontend/src/contexts/AuthContext.tsx:62 | a login failing without a body shows the service's default message (also frontend/src/services/authService.ts:51) |
| AuthContext.AuthState.constructor | frontend/src/contexts/AuthContext.tsx:14-16 | no user, loading, the given storage |
| AuthContext.AuthState.IsAuthenticated | frontend/src/contexts/AuthContext.tsx:128 | authenticated exactly when a user is set and a token is stored |
| AuthContext.AuthState.InitAuth | frontend/src/contexts/AuthContext.tsx:19-52 | without a token nothing changes; a token without a readable user logs out and clears the storage; otherwise the server's user, stored as `user_info`, or the local one with the storage the failed refresh left; loading ends |
| AuthContext.AuthState.SignIn | frontend/src/contexts/AuthContext.tsx:54-84 | a reply sets the user and stores the session; a failure keeps the user, shows the chosen message and rethrows; loading ends |
| AuthContext.AuthState.Login | frontend/src/contexts/AuthContext.tsx:54-68 | a reply sets the user and stores both tokens and the user; a failure keeps the user and the storage the service left, and shows the login message order |
| AuthContext.AuthState.Register | frontend/src/contexts/AuthContext.tsx:70-84 | a reply sets the user and stores both tokens and the user; a failure keeps the user and the storage the service left, and shows the registration message order |
| AuthContext.AuthState.Logout | frontend/src/contexts/AuthContext.tsx:86-99 | the user and the storage are cleared whatever the service does, so nobody is authenticated |
| AuthContext.AuthState.UpdateProfile | frontend/src/contexts/AuthContext.tsx:101-112 | a reply sets the user and stores it as `user_info`; a failure keeps the user and the storage the service left, shows the email error or message, and rethrows |
| AuthContext.AuthState.RefreshUser | frontend/src/contexts/AuthContext.tsx:114-124 | without a token nothing happens; with one the server's user replaces the current one and is stored as `user_info`; a failure keeps the user and the storage the service left, and rethrows |
| ChatViews.ConversationList | backend/chat/views.py:35-36 | exactly the user's active conversations, each as often as stored |
| ChatViews.ConversationListOrdered | backend/chat/views.py:35-36 | the list is in `-updated_at` order (also backend/chat/models.py:19) |
| ChatViews.SoftDelete | backend/chat/views.py:99-103 | a conversation of the user is marked inactive and saved at `now`, its messages kept; no such conversation changes nothing (a 404) |
| ChatViews.SoftDeletedHiddenButRetrievable | backend/chat/views.py:35-36 | after a soft delete the conversation leaves the list but the detail view still finds it (also backend/chat/views.py:78-79, backend/chat/views.py:99-103) |
| ChatViews.ConversationPageFacts | backend/chat/views.py:189-198 | at most `limit` messages, the oldest of the conversation in order, and all of them when they fit |
| ChatViews.ModelList | backend/chat/views.py:275-282 | exactly the models of the user's providers, narrowed to one provider when `provider_id` is given |
| ChatViews.KeyStepNeverRefuses | backend/chat/views.py:478-494 | as written a blank key already makes the service local, so the remote-key refusal is never reached and every call has some key |
| ChatViews.KeyStepFixedRefusesRemoteWithoutKey | backend/chat/views.py:478-494 | corrected, a remote service without a key is refused, and one that is called uses its own non-blank key |
| ChatViews.Detected | backend/chat/views.py:515-521 | one model per listed id, whose id and name are that id |
| ChatViews.DetectModelsAsWritten | backend/chat/views.py:470-547 | as written: success exactly with status 200, no models on failure, and success only for the user's own provider with an address |
| ChatViews.DetectModels | backend/chat/views.py:470-547 | corrected: success exactly with status 200, no models on failure, and success only for the user's own provider with an address |
| ChatViews.FindProvider | backend/chat/views.py:468 | a found provider has the id and belongs to the user; none found iff no such provider |
| ChatViews.DetectListing | backend/chat/views.py:470-530 | a blank URL is refused before any call; a listing gives one model per id, with id and name that id, and succeeds |
| ChatViews.DetectRemoteWithoutKey | backend/chat/views.py:478-494 | as written an unreachable remote provider without a key succeeds with the local Llama list; corrected it is refused with the remote-key message (also backend/chat/views.py:532-552) |
| ChatViews.DetectFallbackOnlyLocal | backend/chat/views.py:532-547 | corrected, the Llama fallback list is offered only for a local URL |
| ChatViews.TestApiConnectionFacts | backend/chat/views.py:352-449 | a blank key never succeeds; a validated key makes locality depend on the URL alone; a success previews at most 50 characters; a timeout is reported like a refused connection |
| NewsViews.ByDays | backend/news/views.py:42-49 | exactly the items created within the last `days` days when `days` is an integer, all of them otherwise |
| NewsViews.ByCategory | backend/news/views.py:52-54 | exactly the items of the category, when one is given |
| NewsViews.ByImportance | backend/news/views.py:57-59 | exactly the items of the importance, when one is given |
| NewsViews.BySearch | backend/news/views.py:62-68 | exactly the items whose title, summary or content contains the search text, ignoring case |
| NewsViews.NewsQueryFacts | backend/news/views.py:38-70 | exactly the items satisfying every supplied filter, none more often than stored, by timestamp then creation time, newest first |
| NewsViews.NewsQueryIgnoresBadDays | backend/news/views.py:42-49 | a `days` that is not an integer is ignored, and without filters every item is listed |
| NewsViews.Categories | backend/news/views.py:96-100 | one category per item |
| NewsViews.Importances | backend/news/views.py:103-107 | one importance per item |
| NewsViews.StatsFacts | backend/news/views.py:78-120 | each histogram sums to the total; today's count is within the week's and the week's within the month's; the last fetch time is that of an item with the newest timestamp, and absent only without items |
| NewsViews.InHistoryWindow | backend/news/views.py:139-145 | exactly the rows inside the window |
| NewsViews.HistoryQueryFacts | backend/news/views.py:135-147 | exactly the rows inside the window, the last 30 days by default and every row for an invalid `days`, by date then creation time, newest first |
| NewsViews.MaxNewsCount | backend/news/serializers.py:68 | 5 by default; a given count is accepted exactly within [1, 20] (also backend/news/views.py:191) |
| NewsViews.FetchNews | backend/news/views.py:185-225 | an invalid count is a 400 and a running job a 409, both changing nothing; otherwise the job runs with the accepted count |
| FetchHistory.Params | frontend/src/components/FetchHistory.tsx:53-61 | the page and size always, and `start_date`/`end_date` exactly when a range is set |
| FetchHistory.ParamsReadBack | frontend/src/components/FetchHistory.tsx:58-61 | the dates sent read back, with the server's `%Y-%m-%d`, as the range picked |
| FetchHistory.CountStatus | frontend/src/components/FetchHistory.tsx:69-75 | the count of one status is at most the number of results |
| FetchHistory.CountStatusCons | frontend/src/components/FetchHistory.tsx:69-75 | counting a list is counting its first record, then the rest |
| FetchHistory.StatsPartition | frontend/src/components/FetchHistory.tsx:69-75 | the three counts never exceed the results and add up to them exactly when every status is typed (also frontend/src/types/index.ts:30) |
| FetchHistory.StatusLooks | frontend/src/components/FetchHistory.tsx:88-108 | the three typed statuses get different colours and icons; any other the default colour and no icon |
| FetchHistory.LoadHistory | frontend/src/components/FetchHistory.tsx:50-82 | every load sends the page with the current range; a reply shows its results (`[]` without), count (0 without) and the page; a failure counts an error and leaves everything else as it was |
| FetchHistory.PickRange | frontend/src/components/FetchHistory.tsx:84-86 | picking a range reloads the first page with it |
| FetchHistory.LoadedStats | frontend/src/components/FetchHistory.tsx:64-75 | after a load the status row counts exactly the records shown, not the server's `count`; the status counts stay within that total; a reply without results shows nothing and all zeros |
| FetchHistory.ServedAsWritten | frontend/src/components/FetchHistory.tsx:58-61 | as written the rows served are those of the last 30 days, whatever range was sent (also backend/news/views.py:135-147) |
| FetchHistory.ServedInRange | frontend/src/components/FetchHistory.tsx:58-61 | corrected: the rows served are always stored rows (also backend/news/views.py:135-147) |
| FetchHistory.ServedInRangeFacts | frontend/src/components/FetchHistory.tsx:58-61 | corrected, a picked range serves exactly the rows from its first to its last day, newest first; without one the 30-day default (also backend/news/views.py:135-147) |
| FetchHistory.BetweenSorted | backend/news/views.py:147 | the rows between two days, newest first |
| FetchHistory.RangeIgnored | frontend/src/components/FetchHistory.tsx:58-61 | as written a recent row after the range is still listed and an in-range row older than 30 days is not (also backend/news/views.py:135-147) |
| AuthService.Rethrown | frontend/src/services/authService.ts:51 | a failure rethrows the response's data when there is some, otherwise an error whose only field is the default message (also frontend/src/services/authService.ts:99, frontend/src/services/authService.ts:113, frontend/src/services/authService.ts:208) |
| AuthService.LocalUser | frontend/src/services/authService.ts:171-178 | a user exactly when `user_info` holds a user's JSON, and that user; missing or unreadable is null |
| AuthService.LoggedIn | frontend/src/services/authService.ts:45-66 | after storing a login reply the session is authenticated exactly when the access token is non-empty, and the refresh token and the user read back as sent |
| AuthService.AuthenticatedStricter | frontend/src/services/authService.ts:183-187 | the service's `isAuthenticated` implies a stored token; a token without a stored user is not enough; with a readable user both rules agree (also frontend/src/services/api.ts:58-60) |
| AuthService.SignIn | frontend/src/services/authService.ts:39-72 | on success the reply is returned and stored over the client's session; on failure the response data or the default is thrown and nothing more is stored |
| AuthService.Login | frontend/src/services/authService.ts:39-53 | a login is a sign-in whose default error is the login failure message |
| AuthService.Register | frontend/src/services/authService.ts:58-72 | a registration logs the user in as a login does, with its own default error |
| AuthService.Logout | frontend/src/services/authService.ts:77-88 | the server is told exactly when a refresh token is stored, and the storage ends cleared whatever it answers |
| AuthService.StoreUser | frontend/src/services/authService.ts:93-115 | on success the returned user overwrites `user_info`; on failure the storage is as the client left it and the error is rethrown |
| AuthService.GetCurrentUser | frontend/src/services/authService.ts:93-101 | the fetched profile becomes the stored user |
| AuthService.UpdateProfile | frontend/src/services/authService.ts:106-115 | the reply's user becomes the stored user |
| AuthService.RefreshToken | frontend/src/services/authService.ts:192-210 | without a refresh token the storage is cleared and the default is thrown; on success only the access token changes; any failure clears the storage |
| AuthService.SignInOutcome | frontend/src/services/authService.ts:39-72 | a successful sign-in with a non-empty token is authenticated; a failed one leaves the refresh token and the user as they were, or removed |
| InitAiConfig.CommandService | backend/chat/management/commands/init_ai_config.py:15-17 | each of the three variables, or its default (an empty key, the SiliconFlow URL, the Qwen model) when unset |
| InitAiConfig.BaseSettings | backend/chat/management/commands/init_ai_config.py:54-61 | the user's existing settings row, or a new one for the user with the defaults 2048 tokens and the Chinese system prompt |
| InitAiConfig.ProviderlessBounds | backend/chat/management/commands/init_ai_config.py:27-68 | the number of users to configure is at most the number of users, and zero exactly when every user already has a provider |
| InitAiConfig.ConfigureUser | backend/chat/management/commands/init_ai_config.py:28-68 | a user is configured exactly when they have no provider: a default provider, its model, and a settings row pointing at both; a user with providers leaves everything unchanged; conversations and messages are never touched |
| InitAiConfig.Handle | backend/chat/management/commands/init_ai_config.py:13-80 | without a key nothing changes and nothing is counted; otherwise every listed user without providers is configured, the others are left alone, and the count is the number of such users |
| InitAiConfig.HandleAll | backend/chat/management/commands/init_ai_config.py:25-68 | the loop over all users leaves the store seeded as `handle` promises |
| InitAiConfig.SeededTwice | backend/chat/management/commands/init_ai_config.py:13-80 | running the command a second time creates nothing, counts nothing and changes nothing |
| InitAiConfig.StepKeeps | backend/chat/management/commands/init_ai_config.py:28-66 | one turn gives its user a provider and leaves every other user's providers and settings as they were |
| Migration0003.Forward | backend/chat/migrations/0003_create_default_ai_config.py:8-67 | without a key nothing changes; with one the users are seeded exactly as the command seeds them, counting the users without providers |
| Migration0003.SeededIds | backend/chat/migrations/0003_create_default_ai_config.py:32-74 | exactly the ids of the providers named `默认SiliconFlow` |
| Migration0003.Reverse | backend/chat/migrations/0003_create_default_ai_config.py:70-74 | exactly the providers with the default name, of any user, are deleted, and with them exactly their models; every chat setting that named a deleted provider, or a model of one, has that field set to null; conversations and messages stay |
| Migration0003.ClearSeeded | backend/chat/models.py:116-117 | a setting keeps its provider and model unless they are among the deleted ones, which become null, and nothing else of it changes |
| AgentConfig.ParseLineCases | ai-news-agent/config.py:15-18 | a stripped line is skipped exactly when it is empty, starts with `#` or has no `=`; otherwise it splits at its first `=` into a stripped key without `=` and a stripped value that may hold more |
| AgentConfig.Reached | ai-news-agent/config.py:14-18 | the lines loaded before the first assignment the environment refuses (an empty name, or a NUL in the name or value): none before it is refused, and the one at that count is |
| AgentConfig.EmptyNameRefused | ai-news-agent/config.py:18 | a line `=1` assigns the empty name, which the environment refuses, so loading stops at it or earlier |
| AgentConfig.ReachedAt | ai-news-agent/config.py:14-18 | the lines loaded are exactly those before the first refused one |
| AgentConfig.ApplyLookup | ai-news-agent/config.py:14-18 | the last line assigning a key decides its value, over the environment; a key no line assigns keeps its environment value, and no key is removed |
| AgentConfig.Environ.constructor | ai-news-agent/config.py:9-21 | the process environment starts as given |
| AgentConfig.Environ.LoadEnv | ai-news-agent/config.py:9-18 | with a `.env` file the lines are applied in order up to the first one the environment refuses, where the `ValueError` escapes; without a file nothing changes and nothing is raised |
| AgentConfig.Environ.GetEnv | ai-news-agent/config.py:53 | a variable's value when set, the default otherwise |
| AgentConfig.SiliconflowApiKey | ai-news-agent/config.py:53 | the key is the variable's value, and empty when it is unset |
| NewsCache.LookupFacts | frontend/src/services/newsService.ts:15-25 | an absent key misses; an entry at most 30 s old is returned and kept; an older one misses and is removed; other keys are untouched |
| NewsCache.SetThenLookup | frontend/src/services/newsService.ts:15-33 | a value set at a time is returned for the next 30 s and misses after; other keys read as before |
| NewsCache.ApiCache.constructor | frontend/src/services/newsService.ts:12-40 | the cache starts empty |
| NewsCache.ApiCache.Get | frontend/src/services/newsService.ts:15-25 | the lookup's answer, with a stale entry evicted |
| NewsCache.ApiCache.Set | frontend/src/services/newsService.ts:27-33 | the key now holds the data stamped with the current time; other keys are unchanged |
| NewsCache.ApiCache.Clear | frontend/src/services/newsService.ts:35-37 | the cache is empty |
| NewsCache.ReadThrough | frontend/src/services/newsService.ts:56-101 | a request is made exactly on a miss; a hit is returned and the cache unchanged; a successful reply is cached under the key and returned; a failure leaves only the eviction |
| NewsCache.KeysDistinct | frontend/src/services/newsService.ts:53-86 | a news key starts with `news_` and never equals the stats key |
| NewsCache.GetNews | frontend/src/services/newsService.ts:44-69 | the read-through under `news_` and the parameters' JSON |
| NewsCache.GetStats | frontend/src/services/newsService.ts:85-102 | the read-through under `stats` |
| NewsCache.InvalidateAfter | frontend/src/services/newsService.ts:78-82 | a successful delete or fetch empties the cache; a failing one throws before clearing and leaves it unchanged (also frontend/src/services/newsService.ts:137-145) |
| RssFetcher.PublishedDate | ai-news-agent/rss_fetcher.py:131-146 | the date parsed from `published` when the entry has one (no date when it does not parse), otherwise from `updated`, otherwise from `published_parsed` |
| RssFetcher.Terms | ai-news-agent/rss_fetcher.py:176-178 | exactly the non-empty tag terms |
| RssFetcher.ParseEntry | ai-news-agent/rss_fetcher.py:117-195 | an entry is kept exactly when its date is unknown or at most three days from the target either way, its stripped title is non-empty and its link is non-empty; the article carries the stripped title and summary, the unstripped link, the source's name and description, the first content value or the summary, and the tag terms |
| RssFetcher.Accepted | ai-news-agent/rss_fetcher.py:102-106 | no more articles than entries |
| RssFetcher.FetchSource | ai-news-agent/rss_fetcher.py:81-115 | a feed that fails to load fails the call; otherwise the articles kept from its first ten entries, in order |
| RssFetcher.FetchSourceBound | ai-news-agent/rss_fetcher.py:102 | no feed yields more than `MAX_ARTICLES_PER_SOURCE` (10) articles (also ai-news-agent/config.py:63) |
| RssFetcher.FetchAllSources | ai-news-agent/rss_fetcher.py:47-79 | the articles of every source in order, a failing source skipped |
| RssFetcher.CollectedBound | ai-news-agent/rss_fetcher.py:64-76 | at most ten articles per configured source (also ai-news-agent/config.py:63) |
| RssFetcher.FindSource | ai-news-agent/rss_fetcher.py:210-215 | none exactly when no source has the name; otherwise the first source with it |
| RssFetcher.FetchSourceByName | ai-news-agent/rss_fetcher.py:197-220 | an unknown name is a `ValueError` with the name in its message; otherwise the first source with the name is fetched |
| Dashboard.FirstTerminal | frontend/src/components/Dashboard.tsx:44-49 | the first answered tick whose job is no longer fetching, every earlier tick unanswered or still fetching; none when there is no such tick |
| Dashboard.Latest | frontend/src/components/Dashboard.tsx:45-46 | the last answered tick's status, or the status shown before when no tick answered |
| Dashboard.Polled | frontend/src/components/Dashboard.tsx:44-55 | the interval never makes more requests than there are ticks |
| Dashboard.PolledIgnoresLater | frontend/src/components/Dashboard.tsx:48-49 | once a tick stops the interval, later ticks are never requested and change nothing |
| Dashboard.NoTickLimit | frontend/src/components/Dashboard.tsx:44-55 | the interval has no tick limit: while the job keeps fetching every tick is polled |
| Dashboard.DashboardPage.constructor | frontend/src/components/Dashboard.tsx:16-18 | no statistics, no status, no spinner |
| Dashboard.DashboardPage.LoadStats | frontend/src/components/Dashboard.tsx:20-27 | a reply replaces the statistics; a failure keeps them and shows the error message |
| Dashboard.DashboardPage.LoadFetchStatus | frontend/src/components/Dashboard.tsx:29-36 | a reply replaces the shown status; a failure changes nothing on the page |
| Dashboard.DashboardPage.Mount | frontend/src/components/Dashboard.tsx:62-70 | both loads run, the spinner ends off, and only a failed statistics load shows an error |
| Dashboard.DashboardPage.HandleFetchNews | frontend/src/components/Dashboard.tsx:38-60 | a failed start shows the backend's error or the default and polls nothing; otherwise the success notice is shown, every polled tick becomes the shown status, and the first tick that is not fetching stops the polling, reloads the statistics and, at progress 100, shows its message |
| ApiClient.Authorize | frontend/src/services/api.ts:63-71 | the stored access token, when there is a non-empty one, becomes the `Authorization: Bearer` header; nothing else about the request changes |
| ApiClient.CallAuthorizes | frontend/src/services/api.ts:63-101 | the first request carries the bearer header exactly when a token is stored, with that token; a replay is marked and carries the refreshed token |
| ApiClient.CallOn401 | frontend/src/services/api.ts:85-110 | a first 401 triggers a refresh exactly when a refresh token is stored; a successful refresh replaces only the access token and the replay's outcome is the call's; otherwise the storage is cleared, the page goes to `/login` and the 401 is rejected |
| ApiClient.CallPassesOthers | frontend/src/services/api.ts:78-113 | any other reply, or a 401 of a replay, passes through unchanged with the storage untouched and no refresh |
| ApiClient.AtMostOneRefresh | frontend/src/services/api.ts:85-86 | a call refreshes at most once and sends at most twice, and the replay's own 401 is never refreshed |
| ApiClient.Storage.constructor | frontend/src/services/api.ts:40-56 | the browser storage starts as given |
| ApiClient.Storage.SetAuthToken | frontend/src/services/api.ts:46-48 | only the access token is replaced |
| ApiClient.Storage.RemoveAuthToken | frontend/src/services/api.ts:51-55 | the three entries are removed |
| ApiClient.Storage.IsAuthenticated | frontend/src/services/api.ts:58-60 | exactly when a non-empty access token is stored |
| ApiClient.Storage.Send | frontend/src/services/api.ts:63-115 | the outcome, the requests sent, the redirect and the new storage are those the interceptors' rules give |
| AgentService.PollInterval | frontend/src/services/agentService.ts:116 | 2000 ms unless an interval is given |
| AgentService.Settle | frontend/src/services/agentService.ts:127-133 | a finished job rejects exactly when it has a non-empty `last_error`, with that message, and otherwise resolves with its status |
| AgentService.Poll | frontend/src/services/agentService.ts:118-144 | a run reports no more statuses than requests and makes no more requests than there are responses |
| AgentService.PollFacts | frontend/src/services/agentService.ts:118-144 | the statuses reported are exactly the answered requests, in order; requests stop at the first failure (rejecting with it) or at the first status no longer fetching (settling on it), with one wait of the interval between requests; a run still pending has used every response and all of them were fetching |
| AgentService.PollIgnoresLater | frontend/src/services/agentService.ts:127-134 | once the run settles, later responses are never read |
| AgentService.Continue | frontend/src/services/agentService.ts:136-137 | continuing a run keeps its outcome and adds its requests |
| AgentService.PollStep | frontend/src/services/agentService.ts:119-141 | one request rejects on failure, settles on a finished status, and otherwise reports it, waits and polls again |
| AgentService.PollFetchStatus | frontend/src/services/agentService.ts:114-145 | the timer chain written as a loop does exactly what the recursive poll does |
| UserProfile.BeforeUpload | frontend/src/components/UserProfile.tsx:158-170 | a file passes exactly when it is a JPEG or PNG under 2 MiB, unchanged; a wrong type is refused as such before its size is looked at |
| UserProfile.PageStricterThanServer | frontend/src/components/UserProfile.tsx:158-170 | whatever the page lets through the server accepts; a GIF within the limit, or a JPEG/PNG of exactly 2 MiB, passes the server and is refused by the page (also backend/accounts/views.py:196-206) |
| UserProfile.Wire | backend/accounts/views.py:109-115 | a 400 body carries the field errors, plus `non_field_errors` when the object-level check failed, and no `message` (also backend/accounts/serializers.py:114-117) |
| UserProfile.PasswordMessageAsWritten | frontend/src/components/UserProfile.tsx:112 | as written: an `old_password` error shows first; with neither password field, the reply's `message` or the generic failure, never `non_field_errors` |
| UserProfile.PasswordMessage | frontend/src/components/UserProfile.tsx:112 | corrected: an `old_password` error shows first; with neither password field, a `non_field_errors` message is shown |
| UserProfile.PasswordChains | frontend/src/components/UserProfile.tsx:112 | how both chains of fields choose their message: first the old password's error, then, with no password error, the reply's message or `non_field_errors` |
| UserProfile.MismatchHiddenAsWritten | frontend/src/components/UserProfile.tsx:112 | with the right old password and a confirmation that differs, the page as written shows the generic failure, while reading `non_field_errors` shows the server's mismatch message (also backend/accounts/serializers.py:114-117) |
| UserProfile.PasswordMessageFromServer | frontend/src/components/UserProfile.tsx:112 | with `non_field_errors` read, every refusal the server can give shows one of its own messages, a wrong old password first (also backend/accounts/serializers.py:108-117) |
| UserProfile.ProfilePage.constructor | frontend/src/components/UserProfile.tsx:42-45 | no spinner, no dialog, no notices, no statistics loaded |
| UserProfile.ProfilePage.HandleAvatarChange | frontend/src/components/UserProfile.tsx:133-155 | uploading turns the spinner on; done with a URL reloads the statistics and praises; done without one, or an error, complains; both end the spinner; any other status does nothing |
| UserProfile.ProfilePage.HandlePasswordChange | frontend/src/components/UserProfile.tsx:104-117 | success closes the dialog and praises; failure keeps it and shows the message as the page chooses it (old password, new password, the reply's `message`, the generic failure); the spinner ends either way |
| StreamingMessage.Tick | frontend/src/components/StreamingMessage.tsx:23-31 | a tick stops the interval exactly when the next index reaches the end, and then the index is the length; otherwise it advances by one, still short of the end |
| StreamingMessage.Run | frontend/src/components/StreamingMessage.tsx:22-32 | completion is reported at most once however many ticks run |
| StreamingMessage.RunReveals | frontend/src/components/StreamingMessage.tsx:22-32 | from an index short of the end, each tick reveals one more character; it takes exactly the remaining length in ticks to show everything and report completion, once, and later ticks change nothing |
| StreamingMessage.Typewriter.Cursor | frontend/src/components/StreamingMessage.tsx:49 | the cursor is drawn exactly while streaming and not all of the content is shown |
| StreamingMessage.Typewriter.constructor | frontend/src/components/StreamingMessage.tsx:16-17 | nothing shown, index 0, no interval |
| StreamingMessage.Typewriter.SetProps | frontend/src/components/StreamingMessage.tsx:19-44 | streaming a non-empty content starts the interval from the index it had; otherwise the whole content is shown at once and no interval runs |
| StreamingMessage.Typewriter.OnTick | frontend/src/components/StreamingMessage.tsx:22-44 | one tick moves the index as `Tick` says, shows the content up to it, and counts a completion exactly when it stops |
| Dates.Strptime | ai-news-agent/api_server.py:110 | every date it returns exists in the calendar; the day is checked against its month (also ai-news-agent/api_server.py:199) |
| Dates.PadOrder | ai-news-agent/news_agent.py:220 | zero-padded numbers of one width compare as strings as they do as numbers |
| Dates.IsoOrder | ai-news-agent/api_server.py:212 | ISO dates sort as strings in calendar order, and equal texts are the same date |
| Dates.PackedOrder | ai-news-agent/news_agent.py:209-220 | report dates from year 1000 on sort as `%Y%m%d` strings in calendar order |
| Dates.IsoRoundTrip | ai-news-agent/api_server.py:110 | parsing a date's ISO form with `%Y-%m-%d` gives the date back (also ai-news-agent/api_server.py:203) |
| Dates.PackedRoundTrip | ai-news-agent/news_agent.py:127 | parsing a report file's `%Y%m%d` stamp gives the date back, for years of four digits (also ai-news-agent/api_server.py:199) |
| Dates.LenientSingleDigits | ai-news-agent/api_server.py:110 | a one-digit month and day are accepted where the format shows two |
| Dates.LenientSpacedDay | ai-news-agent/api_server.py:110 | a space may stand for the leading zero of a day |
| Dates.PackedAmbiguity | ai-news-agent/api_server.py:199 | without separators the month alternatives are tried in order: `115` after the year reads as November 5 |
| Dates.RefusesFebruary30 | ai-news-agent/api_server.py:110 | a day the month does not have is refused |
| Dates.RefusesTrailingText | ai-news-agent/api_server.py:110 | text left over after the day is refused |
| Dates.RefusesMonth13 | ai-news-agent/api_server.py:199 | `1305` after the year reads as month 1, day 30, and the `5` left over is refused |

## Left out

- LLM and HTTP calls are not modelled: `client.chat.completions.create`, `client.models.list`, `requests`, `axios` and `feedparser`. Their replies are parameters of the operations that use them. The canned `MockOpenAIClient` in `ai-news-agent/ai_processor.py` is not modelled.
- JSON parsing (`json.loads`, `_parse_json_response`, `JSON.parse`) is not modelled. Its result is a parameter: an optional value, or "garbled" for `user_info`.
- Threads and `threading.Lock` are not modelled. Neither is the race between the unlocked `is_fetching` check and the job's start in `ai-news-agent/api_server.py` and `backend/news/services.py`. Each job body runs as one sequential procedure after its guard.
- Timers are not modelled as real time. `setInterval` and `setTimeout` become finite streams of ticks, and `time.sleep` is dropped. Unmounting a component, which stops its timers, is not modelled.
- File I/O is modelled as a map from file names to documents. Encodings, partial writes and the logging handlers are not modelled.
- Floating point is not modelled: `temperature`, growth-rate percentages, the analytics `growth_rate` value and progress bars. The ±5 % trend indicator is modelled exactly, by cross-multiplying integers.
- Time zones and clock times are not modelled: `get_shanghai_time`, `formatDateForShanghai`, `getCurrentShanghaiTime`, the `X-Timezone` header and Django's `timezone.now()`. Times are integers, and day boundaries are day numbers.
- Pagination is not modelled. The back end's page slicing (`backend/news/pagination.py`) is not part of this model, so the list views return the whole filtered, ordered sequence. `FetchHistory` sends the page number and size but does not slice.
- Routes of `ai-news-agent/api_server.py` that only read or forward are not modelled: `health`, `sources`, `latest`, `report_by_date`, and the model list, select and current routes.
- The `NewsAgent` members that only print or parse arguments are not modelled: `main` and the `argparse` handling.
- The `ai-news-agent/model_manager.py` code refers to config names that `ai-news-agent/config.py` does not define: `BACKEND_USERNAME`, `BACKEND_PASSWORD`, `BACKEND_API_TOKEN`, `BACKEND_BASE_URL` and `DEFAULT_MODEL_ID`. They are modelled as a settings parameter, that is, as a configuration that defines them. With the shipped `config.py` the module imports, but each use of a missing name raises `AttributeError`: the one at `ai-news-agent/model_manager.py:109` is caught and leads to the default models, whose construction at line 193 raises again, uncaught. So `get_available_models` and `select_model` fail there; this failure is not modelled.
- `ChatServices.SendMessage` models `send_message` with its unpacking corrected. The code as written always falls back; see Findings.
- These `backend/chat/views.py` views are not modelled: conversation create and update, `ChatSettingsView`, provider create, update and delete, and model create, update and delete. They are Django REST framework generic views over the serializers, and the serializers are modelled.
- These `backend/accounts/views.py` parts are not modelled: the `user_profile` GET and `UserSerializer.get_avatar`, which build absolute URLs. The avatar file's storage is not modelled either; only its validation and the stored path are.
- These `frontend/src/services/authService.ts` methods are not modelled: `changePassword`, `getUserSettings`, `updateUserSettings`, `getUserStats` and `uploadAvatar`. They only forward a request and rethrow, as `AuthService.Rethrown` describes.
- The `frontend/src/services/agentService.ts` methods other than `pollFetchStatus` are not modelled. They are single requests. `formatTime` only formats a date.
- `frontend/src/services/newsService.ts` requests that are never cached are not modelled: `getNewsDetail`, `getFetchHistory`, the system-config calls and `getFetchStatus`. `NewsCache` only models the cache's role.
- The `AIConfig.tsx` handlers that only issue a request and reload are not modelled: test connection, the delete handlers, and the edit and submit of a model, and `loadProviders`/`loadModels`. The provider form, the create-model guard, detection and the filters are modelled.
- `SystemSettings.tsx` `saveConfigs` is not modelled. It only logs the values and shows a notice.
- `Dashboard.tsx` `getImportanceColor` is not modelled. It is a display constant.
- `FetchHistory.LoadHistory`'s status cards count only the records of the current page, as the code does. The server's `count` is not split by status.
- `NewsAnalytics.Chart` orders ties of equal count by first occurrence. JavaScript objects list integer-like keys first. Category, importance and source names are never integer-like, so this only affects the day and hour tables, which are not charted.
- `RssFetcher.PublishedDate` reduces `dateutil` parsing to a parameter giving the parsed day or none. Which strings `dateutil` accepts is not modelled.
- `Dates.Strptime` only guarantees that a date it returns exists in the calendar. The lemmas beside it pin down its behaviour on the formats the code uses and on the lenient and refused inputs. Locale, `%b`/`%B` and directives other than `%Y`, `%m` and `%d` are not modelled.
- `Text.Lower` folds ASCII letters only. Python's `lower()` and JavaScript's `toLowerCase()` also fold other scripts, but every keyword the code compares is ASCII or CJK.
- String lengths count Unicode code points (Python). JavaScript's `length` and `slice` count UTF-16 units, so the two differ on characters outside the Basic Multilingual Plane in `StreamingMessage` and `ChatView`.
- Django's password hashing is modelled as a stored password and a check function. Password strength validators (`validate_password`) are a parameter of the serializers.
- The `send_message` view in `backend/chat/views.py` is not modelled as a view. It validates with `SendMessageSerializer`, modelled in `ChatSerializers`, and calls `send_message`, modelled in `ChatServices`. Its mapping of `ValueError` to status 400 and of other exceptions to status 500 is not modelled.
- ChatServices.SimpleRequest, like the rest of the `send_message_simple` model, uses the corrected newest-50 `History` (see Findings). As written the history is the oldest 50 messages, which leaves out the new question in a conversation of 50 or more messages.
- ChatServices.SimpleRequestEndsWithQuestion holds of the corrected history only; as written a conversation of 50 or more messages does not send the question.
- ChatServices.SimpleTurn states the turn with the corrected history, not with the oldest-50 history of the code as written.
- ChatServices.AnswerSimple sends the corrected history, not the oldest-50 history of the code as written.
- ChatServices.SendMessageSimple sends the corrected history, not the oldest-50 history of the code as written.
- ApiServer.Server.FetchNews runs the corrected `FetchTask`, which switches the agent to the selected model. As written the job stops at `news_agent.update_model`; `ApiServer.Server.FetchTaskAsWritten` models that and the Findings table records it.
- AccountsViews.Login does not model the field checks that Django REST framework's required `CharField`s run before `validate`: a missing or blank username or password gets field errors ("This field is required." or "This field may not be blank.") rather than the non-field `必须提供用户名和密码`, and surrounding white space is trimmed from the username first.
- NewsViews.ByDays does not model the `OverflowError` of `timedelta` or of the date subtraction for a `days` whose window starts outside Python's datetime range. Only `ValueError` is caught, so such a request ends in a 500, where the model filters with the unbounded day number.
- NewsViews.NewsQueryFacts holds only for a `days` whose window start lies inside Python's datetime range; a larger `days` makes the view fail with a 500 (see `NewsViews.ByDays`).
- NewsViews.NewsQueryIgnoresBadDays is stated for every string `Text.PyInt` refuses, which includes some that Python's `int` accepts (see `Text.PyInt`).
- NewsViews.InHistoryWindow does not model the `OverflowError` of a `days` whose window starts outside Python's date range. The history view then fails with a 500.
- NewsViews.HistoryQueryFacts holds only for a `days` whose window start lies inside Python's date range (see `NewsViews.InHistoryWindow`).
- Text.PyInt accepts ASCII digits only. Python's `int` also accepts underscores between digits ("1_0") and the decimal digits of other scripts, such as full-width digits.
- NewsCache.ReadThrough stamps a new entry with the time of the lookup. The code stamps it with `Date.now()` read after the request returns.
- ApiServer.ItemOf does not carry the item's `timestamp` field, which the route also returns.
- SystemSettings.FieldError gives a value that is not a number the `EnterNumber` message. The form library's number rule would report the minimum's message for it instead.

## Findings

| source | as written | input that shows it | evidently intended | confidence | as-written member | corrected member |
|---|---|---|---|---|---|---|
| backend/chat/services.py:149-156 | `send_message` unpacks the dictionary that `_get_ai_config` returns into two names, then reads an undefined `ai_config`, so the AI call never runs and every request saves a fallback reply | any existing conversation with a complete provider configuration | send the history to the configured model and save its answer, as `send_message_simple` does | high, not executed | ChatServices.SendMessageAsWritten, ChatServices.PlainReplyAsWrittenNeverAnswers | ChatServices.SendMessage, ChatServices.PlainReplyAnswers |
| backend/chat/services.py:101-103 | the history sent to the model is the first 50 messages in time order, so in a longer conversation the new question is not sent | a conversation with 50 earlier messages and then a new one | the newest 50 messages, ending with the question just asked | high, not executed | ChatServices.HistoryAsWritten, ChatServices.HistoryAsWrittenOmitsNewest | ChatServices.History, ChatServices.HistoryEndsWithNewest |
| backend/chat/services.py:324-329 | `APITimeoutError` is a subclass of `APIConnectionError`, and the connection handler comes first, so the timeout message can never be raised | a request that times out | a timeout is reported with its own message | high, not executed | ChatServices.CallAiApiAsWritten, ChatServices.TimeoutReportedAsConnection | ChatServices.CallAiApi, ChatServices.CallAiApiMessages |
| backend/chat/views.py:478-494 | `detect_models` counts a provider with a blank API key as local, so a remote provider with no key gets the local Llama fallback list instead of an error | provider `https://api.openai.com/v1` with an empty key | only a URL naming localhost, 127.0.0.1 or ollama is local; a remote provider without a key is refused | medium, not executed | ChatViews.DetectModelsAsWritten, ChatViews.KeyStepNeverRefuses, ChatViews.DetectRemoteWithoutKey | ChatViews.DetectModels, ChatViews.KeyStepFixedRefusesRemoteWithoutKey, ChatViews.DetectRemoteWithoutKey |
| frontend/src/components/Chat.tsx:283-290 | the interval callback captures the `lastRefreshTime` of the render that created it, so once 10 seconds have passed every 2-second check reloads the list | checks 12 and 14 seconds after the captured time | reload at most once every 10 seconds | high, not executed | ChatView.ReloadTimesAsWritten, ChatView.AsWrittenReloadsEveryCheck, ChatView.ChatPage.RefreshCheckAsWritten | ChatView.ReloadTimes, ChatView.ReloadsSpaced, ChatView.ChatPage.RefreshCheck |
| ai-news-agent/api_server.py:140-147 | the fetch job calls `news_agent.update_model`, which `NewsAgent` does not define, so a fetch that names a model ends with an error at 0 % | a fetch request with a `model_id` that `select_model` finds, under a configuration that defines the `BACKEND_*` names and `DEFAULT_MODEL_ID` | switch the agent to the selected model and go on collecting | high, not executed | ApiServer.Server.FetchTaskAsWritten, ApiServer.Server.ChooseModelAsWritten, ApiServer.UpdateModelAborts | ApiServer.Server.FetchTask, ApiServer.Server.ChooseModel |
| backend/accounts/serializers.py:76-80 | Django's default `ModelBackend` returns no user for an inactive account, so the "account disabled" branch is unreachable and a disabled user is told the password is wrong | an inactive user who gives the right password | report the disabled account | medium, not executed | AccountsSerializers.ValidateLoginAsWritten, AccountsSerializers.DisabledMessageUnreachable, AccountsSerializers.DisabledUserExample | AccountsSerializers.ValidateLogin, AccountsSerializers.LoginRules |
| frontend/src/components/UserProfile.tsx:112 | the password error message reads only `old_password`, `new_password` and `message`, so the server's `non_field_errors` mismatch message is replaced by a generic failure | a correct old password and two different new passwords | show the server's mismatch message | medium, not executed | UserProfile.PasswordMessageAsWritten, UserProfile.MismatchHiddenAsWritten | UserProfile.PasswordMessage, UserProfile.PasswordMessageFromServer |
| frontend/src/components/FetchHistory.tsx:58-61 | the page sends `start_date` and `end_date`, but the fetch-history view (backend/news/views.py:135-147) only reads `days`, so the chosen range is ignored and the last 30 days are shown | a range that ends before a record fetched in the last 30 days | the view returns only records inside the chosen range | high, not executed | FetchHistory.ServedAsWritten, FetchHistory.RangeIgnored | FetchHistory.ServedInRange, FetchHistory.ServedInRangeFacts |
