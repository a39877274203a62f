# WhatsApp FAQ bot — a verified model of its core

This project models the core of a WhatsApp customer-support bot and proves
properties of that model. The bot receives WhatsApp webhooks and classifies
each text message with a language model. It answers from a small
question/answer knowledge base (the FAQ), found by a lexical relevance
search, or with one of three fixed replies.

What the model covers:

- **Knowledge base** (`faq.dfy`, `faq_entry.dfy`, `relevance.dfy`,
  `faq_search.dfy`). `Faq.FaqManager` is a class over the ordered entry
  list, with add, update, delete, look-up by id, statistics and search.
  - The relevance score is counted in half-points as a `nat`. A keyword
    found in the query is worth 6. A query token longer than two characters
    is worth 4 when it occurs in the question, 2 when it occurs only in a
    question word, and 1 more when it occurs in the answer.
  - The search keeps the positively scored entries, sorts them by
    descending score with a stable sort, and keeps a prefix of at most
    `max_results` of them.
  - `faq_fixture.dfy` holds the two-entry collection of the test suite and
    what searching it returns.
- **Conversation router** (`bot.dfy`, `bot_replies.dfy`).
  `Bot.WhatsAppBot` is a class holding the session store, a map from phone
  number to session. Each session is created on first contact.
  - A message takes one of three paths: the first greeting, the question
    family (question, support, order, complaint), or anything else.
  - Each path gives a generated answer or one of the fixed replies, and
    may update the session.
  - The pure function `Bot.Respond` (reply `ReplyTo`, new session
    `SessionAfter`) is the specification of the message router:
    `ProcessUserMessage` and `HandleMessage` are proved against it. The
    helper methods are proved against the smaller functions it is built
    from: `GetUserSession` against `SessionOf`, `UpdateUserStats` against
    `Counted`, `AnswerQuestion` and `AnswerOther` against `FaqAnswer`, and
    `GetBotStats` against `TotalMessages`.
  - The three fixed replies travel as one `BotReplies.Replies` value: the
    bot holds `BotReplies.Fixed`, and the specification functions take the
    replies as a parameter, so their statements hold for any reply texts.
- **Language-model client** (`openai_client.dfy`). Covers the prompt and
  context builders, the greeting fallback and the intent normalisation. The
  model itself is an `Assistant` value: three functions from request text to
  an optional reply, where `None` stands for a failed call.
- **Webhook extraction** (`whatsapp_client.dfy`). Reads the first message
  of the first change of the first entry from JSON-like data, and returns
  `None` on any structural mismatch.
- **Utilities** (`utils.dfy`, `stop_words.dfy`). Covers phone-number
  sanitising and validation, keyword extraction with its Russian stop list,
  log truncation, and the per-user sliding-window rate limiter
  (`Utils.RateLimiter`).
- **Settings** (`config.py`, modelled in `config.dfy`). Covers the
  required-credential check, the `FLASK_DEBUG` parse and the
  credential-free settings view.

Shared modules: `wrappers.dfy` (`Option`, `Result`) and `text.dfy`.
`text.dfy` models Python's `lower`, `strip`, `split`, `str.join`, substring
containment and slicing with a possibly negative bound.

## Model

| member | source | states |
|---|---|---|
| FaqSearch.Search | app/faq_manager.py:97-125 | an empty query or an empty collection gives no results, for any maximum; otherwise the results are a prefix of the ranked entries, as many as `min(max_results, number of positively scored entries)` for a non-negative maximum |
| Faq.FaqManager.SearchFaq | app/faq_manager.py:108-122 | the scoring loop, sort and slice compute exactly `Search` of the collection |
| FaqSearch.SearchSound | app/faq_manager.py:114-122 | every result is an entry of the collection with a positive score for the lower-cased query |
| FaqSearch.SearchOrdered | app/faq_manager.py:120-122 | results come in non-increasing score order |
| FaqSearch.SearchStable | app/faq_manager.py:120-122 | for each score, the results with that score are a prefix of the collection's entries with that score, in collection order (the sort is stable under `reverse=True`) |
| FaqSearch.SearchKeepsHighest | app/faq_manager.py:120-122 | a positively scored entry left out by truncation scores no higher than every kept result |
| FaqSearch.SearchComplete | app/faq_manager.py:114-122 | when the positive entries fit within `max_results`, the results are exactly they, as a multiset |
| FaqSearch.RankedFacts | app/faq_manager.py:114-120 | the scored list after sorting is non-increasing, carries each entry's own score, and is a permutation of the positive entries |
| FaqSearch.RankedSound | app/faq_manager.py:114-117 | every ranked entry is in the collection and has a positive score |
| FaqSearch.RankedLength | app/faq_manager.py:114-120 | the ranking holds as many entries as score positively |
| FaqSearch.Items | app/faq_manager.py:122 | the projection `item[1]` keeps length and takes each pair's entry |
| FaqSearch.SortByScoreDescSorted | app/faq_manager.py:120 | the sort yields non-increasing scores |
| FaqSearch.SortByScoreDescPermutes | app/faq_manager.py:120 | the sort is a permutation of its input |
| FaqSearch.SortByScoreDescPermutesItems | app/faq_manager.py:120 | the sort permutes the entries themselves |
| FaqSearch.SortByScoreDescStable | app/faq_manager.py:120 | for each score, the subsequence with that score is unchanged by the sort |
| FaqSearch.InsertByScorePermutes | app/faq_manager.py:120 | inserting one scored entry adds exactly that element |
| FaqSearch.InsertByScorePermutesItems | app/faq_manager.py:120 | inserting adds exactly that entry to the entries |
| FaqSearch.InsertByScoreAtMost | app/faq_manager.py:120 | insertion keeps an upper bound on scores |
| FaqSearch.InsertByScoreSorted | app/faq_manager.py:120 | insertion into a non-increasing list keeps it non-increasing |
| FaqSearch.InsertByScoreWithScore | app/faq_manager.py:120 | insertion puts the new element first among equal scores of the remaining list |
| FaqSearch.ScoreAllFacts | app/faq_manager.py:114-117 | the scoring loop's list carries each entry's own positive score, and its entries are the positive ones in collection order |
| FaqSearch.ScoreAllAppend | app/faq_manager.py:114-117 | one more entry adds its scored pair exactly when its score is positive |
| FaqSearch.PositivesSound | app/faq_manager.py:116 | kept entries come from the collection and have positive scores |
| FaqSearch.PositivesWithScore | app/faq_manager.py:116 | for a positive score, filtering positives first does not change the entries with that score |
| FaqSearch.ItemsOfWithScore | app/faq_manager.py:122 | the entries of the pairs with a given score are the entries with that score |
| FaqSearch.ItemsAppend | app/faq_manager.py:122 | the projection distributes over concatenation |
| FaqSearch.WithScoreAppend | app/faq_manager.py:120 | filtering by score distributes over concatenation |
| FaqSearch.ItemsWithScoreAppend | app/faq_manager.py:120 | filtering entries by score distributes over concatenation |
| FaqSearch.CutDropsLowest | app/faq_manager.py:122 | an entry cut off by the slice sits at a later position whose score is at most every kept score |
| FaqSearch.CutKeepsHighest | app/faq_manager.py:120-122 | cutting a sorted, consistently scored list drops no entry that outscores a kept one |
| FaqFixture.SearchTestFaqOrdering | tests/test_bot.py:66-70 | on the two-entry test collection, "заказ" finds exactly the ordering entry |
| FaqFixture.SearchTestFaqNoMatch | tests/test_bot.py:72-75 | on the two-entry test collection, "несуществующий запрос" finds nothing |
| FaqFixture.SearchOnlyFirst | app/faq_manager.py:114-122 | of two entries where only the first scores, the search returns just the first |
| FaqFixture.SearchNoneScores | app/faq_manager.py:114-122 | when no entry scores, the search returns nothing |
| FaqFixture.NoMatchScoresZero | tests/test_bot.py:72-75 | neither test entry scores for the lower-cased query "несуществующий запрос" |
| FaqFixture.SearchPairNone | app/faq_manager.py:114-122 | of two entries that both score zero, the search returns nothing |
| Relevance.CalculateRelevanceScore | app/faq_manager.py:127-164 | the three accumulation loops compute the relevance score |
| Relevance.AccumulateKeywords | app/faq_manager.py:141-144 | the keyword loop adds 6 half-points per keyword contained in the query |
| Relevance.AccumulateQuestion | app/faq_manager.py:147-156 | the question loop, with both the full and the partial branch, computes the question points |
| Relevance.AccumulateAnswer | app/faq_manager.py:159-162 | the answer loop adds 1 half-point per long token contained in the answer |
| Relevance.PartialMatchImpliesFullMatch | app/faq_manager.py:152-156 | a token contained in some question word is contained in the question, so the +1 branch never fires |
| Relevance.TokenQuestionPointsClosedForm | app/faq_manager.py:150-156 | a token scores 4 when it is long and in the question, and 0 otherwise |
| Relevance.QuestionPointsClosedForm | app/faq_manager.py:150-156 | question points are 4 times the number of long tokens found in the question |
| Relevance.KeywordPointsClosedForm | app/faq_manager.py:141-144 | keyword points are 6 times the number of keywords found in the query |
| Relevance.AnswerPointsClosedForm | app/faq_manager.py:159-162 | answer points are 1 times the number of long tokens found in the answer |
| Relevance.ScoreClosedForm | app/faq_manager.py:138-164 | the score is 6·(keyword hits) + 4·(question hits) + 1·(answer hits) |
| Relevance.KeywordHitsBound | app/faq_manager.py:141-144 | keyword hits never exceed the number of keywords |
| Relevance.TokenHitsBound | app/faq_manager.py:150-162 | token hits never exceed the number of tokens |
| Relevance.ScoreBound | app/faq_manager.py:138-164 | the score is at most 6 per keyword plus 5 per query token |
| Relevance.KeywordHitsPositive | app/faq_manager.py:141-144 | some keyword hits exactly when some keyword occurs in the query |
| Relevance.TokenHitsPositive | app/faq_manager.py:150-162 | some token hits exactly when some long token occurs in the text |
| Relevance.ScorePositiveIff | app/faq_manager.py:138-164 | the score is positive exactly when a keyword, a long token in the question, or a long token in the answer matches |
| Faq.IndexOfId | app/faq_manager.py:185-188 | finds the first entry with the id, and is `None` exactly when no entry has it |
| Faq.IndexOfFirstId | app/faq_manager.py:185-188 | when position `n` is the first to carry the id, the look-up finds `n` |
| Faq.MaxId | app/faq_manager.py:223 | the largest id, or 0 for an empty collection, and it is attained |
| Faq.NextIdFresh | app/faq_manager.py:223-224 | `max + 1` is larger than every id, so it is carried by no entry |
| Faq.CleanKeywords | app/faq_manager.py:220 | keyword cleaning never lengthens the list |
| Faq.CleanKeywordsAppend | app/faq_manager.py:220 | cleaning distributes over concatenation, so kept keywords keep their order and repeats |
| Faq.CleanKeywordsSingle | app/faq_manager.py:220 | one keyword is kept, stripped, exactly when it is not blank |
| Faq.CleanKeywordsStripped | app/faq_manager.py:220 | every kept keyword is non-empty and already stripped |
| Faq.CleanKeywordsSound | app/faq_manager.py:220 | every kept keyword is the stripped form of a given one |
| Faq.CleanKeywordsKeeps | app/faq_manager.py:220 | every given keyword that is not blank is kept, stripped |
| Faq.WithoutId | app/faq_manager.py:286 | removes exactly the entries carrying the id; it is shorter exactly when some entry had the id |
| Faq.WithoutIdAppend | app/faq_manager.py:286 | removal distributes over concatenation, so the kept entries keep their order and repeats |
| Faq.WithoutIdSingle | app/faq_manager.py:286 | one entry is kept exactly when its id differs |
| Faq.WithoutAbsentId | app/faq_manager.py:285-292 | deleting an absent id leaves the list unchanged |
| Faq.TotalKeywordsAppend | app/faq_manager.py:337 | the keyword total grows by the new entry's keyword count |
| Faq.PatchKeepsIndex | app/faq_manager.py:256-263 | after patching, the first entry with the id is at the same place and keeps the id |
| Faq.AddedIsFound | app/faq_manager.py:223-233 | an entry appended with the next id is found by id at the end |
| Faq.FaqManager.constructor | app/faq_manager.py:16-45 | the list is the document's list, the default entries when none existed and writing them worked, else empty |
| Faq.FaqManager.GetAllFaq | app/faq_manager.py:166-173 | returns the whole list in order |
| Faq.FaqManager.GetFaqById | app/faq_manager.py:175-188 | returns the first entry with the id, and nothing exactly when no entry has it |
| Faq.FaqManager.AddFaqItem | app/faq_manager.py:190-240 | a blank question or answer is refused with nothing changed; otherwise exactly one entry is appended with the next id, stripped texts and cleaned keywords, and the result is the save outcome |
| Faq.FaqManager.UpdateFaqItem | app/faq_manager.py:242-272 | an unknown id fails with nothing changed; otherwise only the supplied fields of the first entry with the id change, and the result is the save outcome |
| Faq.FaqManager.DeleteFaqItem | app/faq_manager.py:274-296 | the list loses exactly the entries with the id, the rest in order; success needs a removal and a successful save |
| Faq.FaqManager.GetFaqStats | app/faq_manager.py:328-337 | the number of entries and the sum of keyword-list lengths |
| Bot.FaqAnswer | app/bot.py:116-125 | no answer when the search finds nothing; when it finds entries, the answer is the generated response from them if that is present and non-empty, and nothing otherwise |
| Bot.Counted | app/bot.py:175-177 | the counted session has one more message and keeps its greeting flag and topics |
| Bot.Respond | app/bot.py:87-143 | the answered phone gains a session; every other user's session is untouched |
| Bot.GreetingPath | app/bot.py:108-112 | a first greeting yields the generated greeting and sets `greeted` |
| Bot.QuestionPath | app/bot.py:114-128 | a question-family message yields the generated answer and a counted session, or the fallback reply and an unchanged session |
| Bot.OtherPath | app/bot.py:130-139 | any other message yields the generated answer or the general help, and the session is unchanged |
| Bot.Restore | app/bot.py:155-163 | re-storing the session just looked up leaves the store as it was |
| Bot.RespondGreetsFirst | app/bot.py:108-112 | on a first greeting the reply is the greeting and the user is marked greeted |
| Bot.RespondGreetedFlag | app/bot.py:108-112 | a user is greeted afterwards exactly when they were before or the message was a greeting; nothing resets the flag |
| Bot.RespondQuestionFamily | app/bot.py:114-128 | question, support, order and complaint get the generated answer from at most three entries, or the fallback reply, never the general help |
| Bot.RespondOther | app/bot.py:130-139 | every other label, unknown ones included, gets the generated answer from at most two entries, or the general help, and no session change |
| Bot.RespondMessageCount | app/bot.py:118-125 | the message counter moves by exactly one on the answered question path and not otherwise |
| Bot.TotalMessagesRemove | app/bot.py:225 | the message total splits into one user's count plus the rest |
| Bot.TotalMessagesUpdate | app/bot.py:225 | replacing one session changes the total by the difference of its counts |
| Bot.RespondTotalMessages | app/bot.py:225 | answering a message raises the total by one exactly on the counted path |
| Bot.TotalMessagesTwoUsers | tests/test_bot.py:242-256 | two users with 5 and 3 messages give two users and 8 messages |
| Bot.ReadIncoming | app/bot.py:45-59 | a message is read only from extracted data of type text with non-empty text, and its text is stripped |
| Bot.WhatsAppBot.constructor | app/bot.py:17-31 | the bot starts with no sessions and with the three fixed replies |
| Bot.WhatsAppBot.GetUserSession | app/bot.py:145-163 | returns the stored session or a fresh one, stores it, and touches no other user |
| Bot.WhatsAppBot.UpdateUserStats | app/bot.py:165-185 | the user's session is the counted one; nothing else changes |
| Bot.WhatsAppBot.ProcessUserMessage | app/bot.py:87-143 | the reply and the new store are those of `Respond` |
| Bot.WhatsAppBot.AnswerQuestion | app/bot.py:114-128 | at least one match exactly when a generated answer exists; the reply is that answer or the fallback |
| Bot.WhatsAppBot.AnswerOther | app/bot.py:130-139 | the reply is the generated answer from at most two entries, or the general help |
| Bot.WhatsAppBot.HandleMessage | app/bot.py:33-85 | without a readable text message, nothing changes and the result is false; otherwise the store is that of `Respond`; a non-empty reply goes to the sender's phone number; the result is true exactly when the reply is non-empty and sending succeeded |
| Bot.WhatsAppBot.GetBotStats | app/bot.py:216-233 | the number of sessions, the sum of their message counts and the number of entries |
| BotReplies.RepliesDistinct | app/bot.py:187-214 | the fallback, general-help and error replies are three different texts |
| OpenAiClient.FaqContext | app/openai_client.py:86-95 | no entries give the fixed sentence; one entry gives its block; every entry's block occurs in the context |
| OpenAiClient.FaqContextAppend | app/openai_client.py:91-95 | blocks come in entry order, separated by a blank line |
| OpenAiClient.FormatFaqContext | app/openai_client.py:86-95 | the loop that fills and joins the block list computes the context |
| OpenAiClient.Blocks | app/openai_client.py:92-93 | one `Q:`/`A:` block per entry, in order |
| OpenAiClient.UserPrompt | app/openai_client.py:77-84 | the prompt is the fixed head, then the context, then the quoted question, then the fixed tail, each at its place |
| OpenAiClient.UserPromptDeterminesQuestion | app/openai_client.py:79-84 | for a fixed context, the prompt determines the question |
| OpenAiClient.GenerateFaqResponse | app/openai_client.py:23-60 | the model's reply to the prompt built from the question and the entries' context, stripped; absent exactly when the call fails |
| OpenAiClient.GreetingFallback | app/openai_client.py:148-177 | "Привет", then " " and the name when one is given, then "! 👋 Как могу помочь?" |
| OpenAiClient.GenerateGreeting | app/openai_client.py:138-177 | the stripped model greeting, or the fallback when the call fails |
| OpenAiClient.NormalizeIntent | app/openai_client.py:129-136 | "other" on failure; otherwise a label with no upper-case letter and no surrounding white space |
| OpenAiClient.NormalizeIntentIdempotent | app/openai_client.py:129 | normalising a normalised label changes nothing |
| OpenAiClient.NormalizeIntentKeepsLabel | app/openai_client.py:129 | a lower-case word without white space is returned as it is |
| OpenAiClient.NormalizeIntentIgnoresCase | app/openai_client.py:129-136 | a reply and its lower-case form give the same label |
| OpenAiClient.NormalizeIntentIgnoresSurroundingSpace | app/openai_client.py:129-136 | a reply and its stripped form give the same label |
| WhatsAppClient.FirstObject | app/whatsapp_client.py:161-174 | a first element is taken only from a non-empty list whose first element is an object |
| WhatsAppClient.ExtractMessageData | app/whatsapp_client.py:147-200 | no data without a non-empty `entry`; otherwise the data come from the first entry |
| WhatsAppClient.ExtractFromEntry | app/whatsapp_client.py:161-168 | no data without a non-empty `changes` |
| WhatsAppClient.ExtractFromValue | app/whatsapp_client.py:169-196 | no data without a non-empty `messages`; text only for type "text"; a contact name exactly when `contacts` is non-empty |
| WhatsAppClient.ExtractReadsFirstMessage | app/whatsapp_client.py:174-187 | id, sender, time stamp, type and text are all read from the first message |
| WhatsAppClient.ExtractReadsFirstContact | app/whatsapp_client.py:190-193 | the contact name is the `profile.name` of the first contact, or null when that contact has no profile |
| WhatsAppClient.OnlyFirstEntry | app/whatsapp_client.py:161 | entries after the first are ignored |
| WhatsAppClient.OnlyFirstChange | app/whatsapp_client.py:167 | changes after the first are ignored |
| WhatsAppClient.OnlyFirstMessageAndContact | app/whatsapp_client.py:172-192 | messages and contacts after the first are ignored |
| WhatsAppClient.ExtractTextMessageWithContact | tests/test_bot.py:137-164 | the test webhook yields its sender, text and contact name |
| WhatsAppClient.ExtractTestValue | tests/test_bot.py:137-164 | the `value` object of the test webhook yields its sender, text and contact name |
| WhatsAppClient.ExtractSingleValue | app/whatsapp_client.py:158-168 | a payload with one entry holding one change reads that change's `value` |
| WhatsAppClient.ExtractWithoutEntry | tests/test_bot.py:166-170 | a webhook without `entry` yields nothing |
| Utils.DigitsOf | app/utils.py:28 | removing non-digits leaves only digits and never lengthens |
| Utils.DigitsOfDigits | app/utils.py:28 | a digit string is left as it is |
| Utils.DigitsOfAppend | app/utils.py:28 | digit removal distributes over concatenation |
| Utils.SanitizePhoneNumber | app/utils.py:14-38 | empty gives empty; only digits; 11 digits starting 7 or 8 get a leading 7; 10 digits starting 9 get "7" prepended; other digit strings are returned as they are |
| Utils.SanitizeIdempotent | app/utils.py:24-38 | sanitising twice is sanitising once |
| Utils.SanitizeIgnoresSeparator | app/utils.py:28 | inserting a non-digit anywhere does not change the result |
| Utils.SanitizeByDigits | app/utils.py:28-38 | numbers with the same digits sanitise alike |
| Utils.SanitizeTrunkPrefix | app/utils.py:31-32 | an 8 followed by ten digits becomes 7 followed by them |
| Utils.SanitizeTenDigits | app/utils.py:35-36 | a 9 followed by nine digits gets "7" prepended |
| Utils.ValidatePhoneNumber | app/utils.py:41-60 | a valid number sanitises to eleven digits |
| Utils.ValidPhoneDigits | app/utils.py:51-60 | valid exactly when the digits are eleven starting 7 or 8, or ten starting 9 |
| Utils.ValidPhoneIsSanitized | app/utils.py:51-60 | a valid number's sanitised form starts with 7, is its own sanitised form, and is valid |
| Utils.Depunctuate | app/utils.py:78 | same length; every character is a word character or white space |
| Utils.Keywords | app/utils.py:104-110 | kept words are keywords of the input, without duplicates |
| Utils.KeywordsStep | app/utils.py:105-110 | one more word is appended exactly when it is a keyword not yet kept |
| Utils.KeywordsComplete | app/utils.py:104-110 | every keyword of the input is kept |
| Utils.KeywordsInFirstOccurrenceOrder | app/utils.py:104-110 | kept words are in the order of their first occurrence |
| Utils.FirstIndex | app/utils.py:109 | the first position of a word |
| Utils.FirstIndexPrefix | app/utils.py:109 | a word's first position is the same in any prefix holding it |
| Utils.ExtractKeywords | app/utils.py:63-113 | empty text gives none; each is a keyword word of the cleaned text; no duplicates; otherwise a prefix of the text's keyword list, as long as `min(max_keywords, number of keywords)` for a non-negative maximum |
| Utils.ExtractKeywordsOrdered | app/utils.py:104-113 | the extracted keywords come in the order of their first occurrence in the cleaned text |
| Utils.ExtractKeywordsComplete | app/utils.py:104-113 | when the cap does not cut, every keyword of the cleaned text is extracted |
| Utils.ExtractKeywordsFromText | app/utils.py:63-113 | the filtering loop computes `ExtractKeywords` |
| Utils.FormatMessageForLogging | app/utils.py:116-133 | empty gives empty; a short message is unchanged; a long one is its first `max_length` characters plus "..." |
| Utils.LoggedLength | app/utils.py:127-133 | a logged message is at most `max_length` + 3 long, and no longer than the message unless cut |
| Utils.Recent | app/utils.py:198-202 | keeps exactly the time stamps of the last hour, in order |
| Utils.RecentIdempotent | app/utils.py:198-202 | pruning twice is pruning once |
| Utils.RecentAppend | app/utils.py:198-202 | pruning distributes over concatenation, so kept time stamps keep their order and repeats |
| Utils.RecentSingle | app/utils.py:198-202 | one time stamp is kept exactly when it lies within the last hour |
| Utils.RateLimiter.constructor | app/utils.py:175 | the limiter starts from the given histories |
| Utils.RateLimiter.RateLimitCheck | app/utils.py:175-210 | an unknown user is allowed with nothing changed; a known user's history is pruned; at or over the limit the answer is no, otherwise `now` is appended once |
| Utils.RateLimitWindow | app/utils.py:198-210 | after an allowed message the history holds at most the limit, all within the last hour |
| Utils.RateLimitExample | app/utils.py:198-206 | of 6000, 7000, 8000 at 10000 only 7000 and 8000 remain |
| Config.FlaskDebug | config.py:21 | off when unset; on only for a set value of at most four characters |
| Config.FlaskDebugIgnoresCase | config.py:21 | a value and its lower-case form give the same switch |
| Config.FlaskDebugExamples | config.py:21 | "True", "YES" and "On" switch it on; "False" and "0" do not |
| Config.Missing | config.py:50-53 | a name is reported exactly when it is among the given names and its credential is unset or empty |
| Config.MissingInOrder | config.py:50-53 | reported names keep the order of the required list |
| Config.MissingNamed | config.py:55-56 | every missing credential is named in the error message |
| Config.MissingTokenNamed | tests/test_bot.py:262-267 | without the WhatsApp token the error message names it |
| Config.NoneMissingIffAllSet | config.py:50-55 | nothing is missing exactly when all four credentials are set and non-empty |
| Config.ValidateConfig | config.py:41-58 | succeeds exactly when all four credentials are set and non-empty; otherwise the error lists the missing names in the fixed order |
| Config.GetConfigDict | config.py:61-73 | exactly the nine setting keys, with the debug switch and port as loaded |
| Config.ConfigDictHidesCredentials | config.py:61-73 | the view does not depend on any credential and has no token or API-key entry |

## Left out

- JSON persistence: the document is read into `Faq.Stored` (document, missing, unreadable), and every save is a `saved` flag the caller supplies. File paths, directory creation, encoding and `reload_faq` are not modelled.
- The float statistics `average_keywords_per_item` and `average_messages_per_user` (float division and `round`), and the `file_path` and `status` fields of the statistics.
- Network calls: sending text and template messages, marking messages read, and the chat-completion requests. The language model is the `Assistant` value; the sender's result is the `sent` flag of `Bot.WhatsAppBot.HandleMessage`.
- The system prompts and the model parameters (model name, token limits, temperature), which only reach the network call.
- Exceptions: the model has no exception path, so the error reply of `app/bot.py:141-143` is defined (`BotReplies.ErrorReply`) but no operation returns it. The `except` branches of the knowledge-base operations and of extraction are unreachable in the model.
- Bot.NameOf: a contact name that is a JSON value other than a string (a number, say) is treated as no name, where Python would put its text form into the greeting.
- Aliasing: `get_all_faq` returns a shallow copy whose entry dictionaries are shared with the manager (app/faq_manager.py:173), and `search_faq` returns the stored dictionaries themselves (app/faq_manager.py:122). Entries are values in the model, so a caller mutating a returned entry and thereby changing the stored one is not captured.
- Bot.WhatsAppBot.HandleMessage: a sender or text that is not a JSON string makes the model return false, where Python would call `strip` or pass the value on.
- Bot.WhatsAppBot.ProcessUserMessage: the generated answer of the question branch is counted by calling `UpdateUserStats` after `AnswerQuestion` returns. The effect and the order match the source, where the call sits inside the branch.
- Unicode semantics: lower-casing covers the ASCII capitals and the Cyrillic capitals U+0400–U+042F (А–Я and Ѐ–Џ) only; other Cyrillic capitals such as Ґ (U+0490) or Ө (U+04E8) are left as they are, where `str.lower` lowers them, so keywords and search tokens containing them keep their capitals. White space is the ASCII white space of `str.split`/`strip`. `\w` is ASCII letters, digits, `_` and Cyrillic. `\d` and `isdigit` mean ASCII digits.
- Faq.FaqManager.AddFaqItem: the "keywords is not a list" error and the filtering of non-string keywords cannot arise, because keywords are typed `Option<seq<string>>`.
- OpenAiClient.FaqContext: entries always carry a question and an answer, so the `''` default for missing fields does not arise.
- Ids and JSON numbers are integers; `item.get('id', 0)` on entries without an id does not arise.
- Clock helpers: `calculate_response_time`, `is_message_too_old` and the time stamp of `create_error_response`. `rate_limit_check` takes `now` as an integer number of seconds.
- `validate_webhook_signature` (HMAC-SHA256) and `get_system_info` (platform queries).
- Settings: only `FLASK_DEBUG` is parsed from the environment. The other settings, including the integer ones, are the fields of `Config.Settings`. `SESSION_TIMEOUT` is carried but, as in the source, nothing uses it.
- The Flask routes, error handlers and logging, `main.py` and `examples/api_examples.py`.
- Concurrency: the model is single-threaded, as the source assumes.
