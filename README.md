# Sexter bot core: reply selection and the message-count funnel

This project models the decision logic of a flirting chat bot.
The bot has two front ends over one reply engine.

- **The reply engine** (`backend/advanced_ai.py`) does the following:
  - cleans the user's text;
  - labels it with one of six emotions by keyword;
  - reads the user's last five logged exchanges to find the conversation stage;
  - takes a list of similar stored phrases from a vector index;
  - picks a reply through a four-step cascade:
    1. a near-identical stored phrase;
    2. a generator for the emotion;
    3. the best stored phrase;
    4. a stage-dependent generator.
  - keeps a ten-entry per-user cache;
  - can append learned or hand-entered phrases to its knowledge store.
- **The template server** (`backend/server.py`) does the following:
  - splits `id|text` messages;
  - counts each user's messages;
  - answers from keyword templates until the count passes the configured threshold;
  - after that sends the "semi" redirect text once and then the "last" text for ever.
- **The ZennoPoster API** (`zennoposter_api.py`) runs the same kind of funnel over its own session records:
  - it is normal below `max_messages`;
  - it sends the semi text when the count equals `max_messages`;
  - it sends the last text after that;
  - it answers normal turns with the reply engine, or with a keyword fallback when no engine is loaded.

## Layout

| file | contents |
|---|---|
| `Common.dfy` | `Option`, `Result`, the dictionary lookup `Get`, `Choose`, which stands in for a random choice, and `Step`, the three kinds of funnel turn both front ends share |
| `Text.dfy` | The Python string operations the bot uses, and their properties. These are `lower`, `strip`, the `\s+` and `[^\w\s?!.,-]` rewrites, the substring test `in`, and `split("|", 1)`. |
| `AdvancedAi.dfy` | The reply engine. It has pure functions for the emotion table, cleaning, the cascade, the generators and the cache. The class `AdvancedBot` holds the conversation log, the per-user caches, the knowledge store and the learned-phrase backup. |
| `Server.dfy` | The template server. It has pure template selection and funnel functions. The class `ChatServer` holds the session counts, the conversation log and the learned pairs. |
| `Zenno.dfy` | The ZennoPoster API. It has pure session, redirect and fallback functions. The class `ZennoApi` holds the session store and the conversation log, and optionally a reply engine. |

Randomness, the clock, stores and foreign libraries become parameters:

- **Random choices.** `random.choice(xs)` is `Choose(xs, pick)`, which is element `pick` modulo `|xs|` of `xs`.
- **The 30% wink draw.** `random.random() < 0.3` is a `coin` boolean.
- **Time-based ids.** Ids built from the clock take a `stamp` string.
- **The vector index.** A query result is a `Result<QueryResult>`: either the ranked candidates with their distances, or a failure.
- **Stores and embeddings.** Their failures are fault flags.
- **The engine's own exception.** This fault is `engineFault`.
- **The learned-answer lookup.** The MongoDB regex lookup of `get_learned_response` is an `Option<string>` the caller supplies.

All these choices are collected in `AdvancedAi.TurnOracle`.

### Behaviour of the source worth knowing

- **Learning is never invoked.**
  - The template server's `chat` has only `pass` where learning would go (backend/server.py:268-271).
  - `process_message` never calls `learn_from_conversation`.
  - So a turn never changes the knowledge store. `GetSmartResponse` and `ProcessMessage` state this.
- **The ZennoPoster counter stops at `max_messages + 1`.** Only normal and semi turns increment it; a last turn leaves it unchanged. The template server's counter does grow on every turn.
- **The two front ends log to different places.**
  - ZennoPoster logs to its own conversation collection.
  - The engine reads context from the server's `conversations` collection.
  - So for a user seen only through ZennoPoster, the engine's context stays at the beginning stage, and the emotion backfill finds nothing. The model keeps the two logs separate.
- **The emotion history is newest first**, because the records are fetched newest first.
- **The backfill in `_update_context` is not limited to the preceding unset record.** It updates the first logged record of the user whose text equals the raw message.
- **Configuring a session before the user's first message breaks that user's turns.**
  - The configured record has no `message_count`.
  - Every later turn of that user fails on the missing key and gets the generic error reply.
  - `Zenno.ConfiguredBeforeFirstTurn` and `Zenno.ErrorTurnKeepsRecord` state this.
- **A normal ZennoPoster turn overwrites `last_message` with the user's text.** The redirect that follows the semi redirect therefore repeats the user's own earlier words (`Zenno.LastRedirectRepeatsUserText`).

## Model

| member | source | states |
|---|---|---|
| Common.Get | backend/advanced_ai.py:403-404 | A lookup with a default returns the stored value for a present key and the default for an absent one |
| Common.Choose | backend/advanced_ai.py:266 | The random choice returns an element of the list |
| Common.ChooseReaches | backend/advanced_ai.py:266 | Every element of the list can be drawn |
| Text.LowerChar | backend/advanced_ai.py:131 | Lower-casing a character keeps whether it is whitespace |
| Text.LowerCharIsLower | backend/advanced_ai.py:131 | Lower-casing is idempotent on each character |
| Text.Lower | backend/server.py:147 | `str.lower` maps each character, keeping the length |
| Text.LowerShape | backend/advanced_ai.py:131 | Lower-cased text is lower-case and keeps whether each end is whitespace |
| Text.TrimStart | backend/advanced_ai.py:131 | `lstrip` returns a suffix of the input that does not start with whitespace |
| Text.TrimStartDropsSpace | backend/advanced_ai.py:131 | Everything `lstrip` drops is whitespace |
| Text.TrimEnd | backend/advanced_ai.py:131 | `rstrip` returns a prefix of the input that does not end with whitespace |
| Text.TrimEndDropsSpace | backend/advanced_ai.py:131 | Everything `rstrip` drops is whitespace |
| Text.Strip | backend/advanced_ai.py:131 | The input is whitespace, then the result, then whitespace, and the result has whitespace at neither end, so it is the input without its leading and trailing whitespace |
| Text.StripPieces | backend/advanced_ai.py:131 | Cutting leading whitespace and then trailing whitespace leaves the input as whitespace, the result, whitespace |
| Text.StripKeepsStripped | backend/advanced_ai.py:131 | Text with no whitespace at either end is its own strip |
| Text.LowerKeepsLower | backend/advanced_ai.py:131 | Lower-case text is its own lower-case form |
| Text.CollapseSpacesShape | backend/advanced_ai.py:131 | The `\s+` to single-space rewrite leaves no two whitespace characters side by side and no whitespace but the blank; it is empty exactly for empty input; it starts with whitespace exactly when the input does; it ends with the input's last character when that is not whitespace |
| Text.CollapseSpaces | backend/advanced_ai.py:131 | Every maximal whitespace run becomes one blank; `CollapseSpacesShape`, `CollapseSpacesKeepsText` and `CollapseSpacesKeepsSingleSpaced` state its properties |
| Text.NonSpaceOfTrimStart | backend/advanced_ai.py:131 | Dropping leading whitespace keeps the non-space characters, in order |
| Text.CollapseSpacesKeepsText | backend/advanced_ai.py:131 | The rewrite keeps every non-space character of the input, in order, and adds none |
| Text.CollapseSpacesKeepsLower | backend/advanced_ai.py:131 | The rewrite keeps lower-case text lower-case |
| Text.CollapseSpacesKeepsSingleSpaced | backend/advanced_ai.py:131 | Text that is already single-spaced is unchanged by the rewrite |
| Text.KeepEssentialCons | backend/advanced_ai.py:133 | The filter decides each character on its own |
| Text.KeepEssentialSpec | backend/advanced_ai.py:133 | The filter keeps only word characters, whitespace and `?!.,-`; it keeps every such character and invents none; it is the identity on text made only of them |
| Text.KeepEssential | backend/advanced_ai.py:133 | The `[^\w\s?!.,-]` removal; `KeepEssentialCons` and `KeepEssentialSpec` state what it keeps |
| Text.ContainsIffOccurs | backend/advanced_ai.py:139 | `needle in text` holds exactly when the needle occurs at some position |
| Text.ContainsUsesTextChars | backend/advanced_ai.py:139 | A contained needle uses only characters of the text |
| Text.ContainsNeedsFirstChar | backend/advanced_ai.py:139 | A needle whose first character is absent from the text is not contained |
| Text.ContainsPrefix | backend/advanced_ai.py:139 | A prefix is contained |
| Text.Contains | backend/advanced_ai.py:139 | Python's substring `in`; `ContainsIffOccurs` states it as an occurrence at some position |
| Text.AnyIn | backend/advanced_ai.py:139 | `any(word in m for word in words)` holds exactly when some word of the list is contained in the text |
| Text.IndexOf | backend/server.py:229 | The position found holds the separator, and no earlier position does |
| Text.SplitFirst | backend/server.py:229 | `split(sep, 1)` gives a head without the separator that, rejoined with the tail, restores the input |
| Text.SplitFirstUnique | backend/server.py:229 | That split is the only one with a separator-free head |
| AdvancedAi.EmotionNameIsLabel | backend/advanced_ai.py:26-32 | Every emotion is reported under one of the six label names, and no two emotions share a name |
| AdvancedAi.FirstMatchingIsFirstRow | backend/advanced_ai.py:136-141 | The scan returns the label of the first row that has a keyword in the message |
| AdvancedAi.FirstMatchingNoRow | backend/advanced_ai.py:136-141 | With no matching row the label is neutral |
| AdvancedAi.DetectEmotion | backend/advanced_ai.py:136-141 | `_detect_emotion` scans the keyword table in order; `DetectEmotionSpec` states which label it returns |
| AdvancedAi.DetectEmotionSpec | backend/advanced_ai.py:26-32 | Each of the six labels is returned exactly when its row is the first one, in the order flirty, romantic, playful, seductive, intimate, that matches; neutral exactly when none does |
| AdvancedAi.NormalizeSpacing | backend/advanced_ai.py:131 | After strip, lower and the whitespace rewrite, the text is lower-case, single-spaced and has no whitespace at either end |
| AdvancedAi.CleanMessage | backend/advanced_ai.py:128-134 | Every character of the cleaned message is essential and lower-case |
| AdvancedAi.CleanMessageIsFilter | backend/advanced_ai.py:131-133 | Cleaning is the character filter applied after the whitespace step |
| AdvancedAi.CleanMessageKeepsEssential | backend/advanced_ai.py:133 | Every essential character of the normalised text survives the second step |
| AdvancedAi.NormalizeSpacingOfTidy | backend/advanced_ai.py:131 | Normalising text that is already stripped and single-spaced only lower-cases it |
| AdvancedAi.CleanMessageOfTidy | backend/advanced_ai.py:128-134 | Cleaning tidy text made only of essential characters only lower-cases it |
| AdvancedAi.DropsWinkBetweenBlanks | backend/advanced_ai.py:133 | Removing an emoji that sits between two blanks leaves a double blank |
| AdvancedAi.CleanMessageCanLeaveDoubleBlank | backend/advanced_ai.py:131-133 | Single spacing holds after the first step but not after the second |
| AdvancedAi.WantYouLowered | backend/advanced_ai.py:131 | The lower-case form of "Хочу тебя" |
| AdvancedAi.WantYouTidy | backend/advanced_ai.py:131-133 | "хочу тебя" is single-spaced and made of essential characters |
| AdvancedAi.WantYouCleaned | backend/advanced_ai.py:128-134 | Cleaning "Хочу тебя" gives "хочу тебя" |
| AdvancedAi.WantYouHasNoEarlierKeyword | backend/advanced_ai.py:26-29 | "хочу тебя" has no flirty, romantic or playful keyword |
| AdvancedAi.WantYouDetected | backend/advanced_ai.py:136-141 | "хочу тебя" is labelled seductive: it has the first seductive keyword and no earlier one |
| AdvancedAi.WantYouIsSeductive | backend/advanced_ai.py:136-141 | "Хочу тебя" is labelled seductive |
| AdvancedAi.InLanguage | backend/advanced_ai.py:153 | The `where lang` filter returns only candidates of that language and no more than it was given |
| AdvancedAi.InLanguageMembers | backend/advanced_ai.py:153 | A candidate is kept exactly when it was ranked and has the language |
| AdvancedAi.InLanguageKeepsOrder | backend/advanced_ai.py:153 | The filter works segment by segment, so it keeps the index's order |
| AdvancedAi.InLanguageOfOneLanguage | backend/advanced_ai.py:153 | A ranking of only that language's candidates passes unchanged |
| AdvancedAi.SearchSimilar | backend/advanced_ai.py:143-173 | At most five hits, the first five of the language in index order, each with similarity 1 − distance (1 when no distances are reported); no hits when the query fails |
| AdvancedAi.NewestFirst | backend/advanced_ai.py:179-181 | The user's records sorted newest first: only the user's records, no more than the log holds |
| AdvancedAi.NewestFirstMembers | backend/advanced_ai.py:179-180 | A record is returned exactly when it is one of the user's logged records |
| AdvancedAi.NewestFirstSnoc | backend/advanced_ai.py:179-181 | A newly logged record of the user comes first; another user's record changes nothing |
| AdvancedAi.NewestFirstReverses | backend/advanced_ai.py:179-181 | For a log in two parts, the later part's records come first, each part newest first, so the order is reversed arrival order |
| AdvancedAi.RecentRecords | backend/advanced_ai.py:179-181 | `limit(5)`: the first five of the user's records newest first, or all of them when there are fewer |
| AdvancedAi.RecentRecordsAfterAppend | backend/advanced_ai.py:179-181 | Logging a record of the user puts it first among the five and pushes the oldest out; a record of another user changes nothing |
| AdvancedAi.TopicOf | backend/advanced_ai.py:196-203 | The topic one record contributes: meeting before photos before video, or none |
| AdvancedAi.TopicsOf | backend/advanced_ai.py:191-203 | The topics of the fetched records in fetch order; `AtMostOnePerRecord` and `TopicsComeFromRecords` state its properties |
| AdvancedAi.EmotionsOf | backend/advanced_ai.py:191-194 | The stored emotions of the fetched records in fetch order, skipping records without one |
| AdvancedAi.StageOf | backend/advanced_ai.py:205-209 | Advanced for more than three records, developing for two or three, beginning otherwise |
| AdvancedAi.ContextOf | backend/advanced_ai.py:183-211 | The context of the fetched records: their topics, emotions and stage |
| AdvancedAi.AtMostOnePerRecord | backend/advanced_ai.py:192-203 | Each record contributes at most one topic and at most one emotion |
| AdvancedAi.TopicsComeFromRecords | backend/advanced_ai.py:196-203 | Every topic found comes from some fetched record's text |
| AdvancedAi.AdvancedBot.constructor | backend/advanced_ai.py:20-57 | A new engine has empty caches; the knowledge store is the existing collection, or the seed corpus when the collection had to be created |
| AdvancedAi.AdvancedBot.GetConversationContext | backend/advanced_ai.py:175-215 | The context of the fetched records: the stage is advanced iff more than three are fetched, developing iff two or three, beginning otherwise; a store failure gives the beginning context with empty lists |
| AdvancedAi.SeductiveReplies | backend/advanced_ai.py:244-266 | The seductive list has five replies |
| AdvancedAi.RomanticReplies | backend/advanced_ai.py:268-289 | The romantic list has five replies |
| AdvancedAi.FlirtyReplies | backend/advanced_ai.py:291-312 | The flirty list has five replies |
| AdvancedAi.AdvancedStageReplies | backend/advanced_ai.py:320-334 | The advanced-stage list has four replies |
| AdvancedAi.EarlyStageReplies | backend/advanced_ai.py:335-349 | The list for the other stages has four replies |
| AdvancedAi.FallbackReplies | backend/advanced_ai.py:369-390 | The fallback list has five replies |
| AdvancedAi.DynamicReplies | backend/advanced_ai.py:314-351 | The dynamic generator's list has four replies |
| AdvancedAi.GenerateSeductive | backend/advanced_ai.py:244-266 | The reply is a member of the seductive list of the configured language and name |
| AdvancedAi.GenerateRomantic | backend/advanced_ai.py:268-289 | The reply is a member of the romantic list of the language |
| AdvancedAi.GenerateFlirty | backend/advanced_ai.py:291-312 | The reply is a member of the flirty list of the language |
| AdvancedAi.GenerateDynamic | backend/advanced_ai.py:314-351 | The reply is a member of the stage's list of the language |
| AdvancedAi.GetFallbackResponse | backend/advanced_ai.py:369-390 | The reply is a member of the fallback list of the language |
| AdvancedAi.NonRussianUsesEnglish | backend/advanced_ai.py:249-264 | Every language other than "ru" gets the English lists |
| AdvancedAi.StageListsDisjoint | backend/advanced_ai.py:320-349 | No reply is in both stage lists, so the advanced list is used only at the advanced stage |
| AdvancedAi.PersonalizeShape | backend/advanced_ai.py:353-367 | Personalising returns the input or the input plus " 😉", and it adds the wink exactly when the mood contains "игривое" or "playful" and the draw is under 0.3 |
| AdvancedAi.Personalize | backend/advanced_ai.py:353-367 | `_personalize_response`; `PersonalizeShape` states exactly when it adds the wink |
| AdvancedAi.FirstHigh | backend/advanced_ai.py:224-226 | The first hit with similarity over 0.8, or none when no hit has it |
| AdvancedAi.BestHit | backend/advanced_ai.py:238 | `max` by similarity: a hit no other exceeds, the first of equals |
| AdvancedAi.ContextualResponse | backend/advanced_ai.py:217-242 | `_generate_contextual_response`'s four-step cascade; `CascadeHighSimilarity` and `CascadeWithoutHighHit` state each step |
| AdvancedAi.CascadeHighSimilarity | backend/advanced_ai.py:223-226 | When a hit has similarity over 0.8, the first such hit supplies the reply, possibly with the wink |
| AdvancedAi.CascadeWithoutHighHit | backend/advanced_ai.py:228-242 | Otherwise the reply comes from the seductive list (a seductive message at the advanced stage), the romantic list, the flirty list, the best hit, or the dynamic list, in that order |
| AdvancedAi.SeductiveAtBeginning | backend/advanced_ai.py:229-242 | A seductive message at the beginning stage with no hits gets an early-stage dynamic reply |
| AdvancedAi.WantYouAtBeginning | backend/advanced_ai.py:98-117 | "Хочу тебя" from a new user, with no hits, gets an early-stage reply and never an advanced one |
| AdvancedAi.Newest | backend/advanced_ai.py:413-415 | Keeping the newest entries keeps at most the bound |
| AdvancedAi.Windowed | backend/advanced_ai.py:406-415 | The append and `pop(0)` of one cache update; `WindowedKeepsNewest` states its effect |
| AdvancedAi.WindowedKeepsNewest | backend/advanced_ai.py:406-415 | One append to a cache of at most ten keeps the newest ten: the new entry is last, and on overflow only the oldest entry is dropped |
| AdvancedAi.CacheAfter | backend/advanced_ai.py:403-415 | A user's cache after a run of turns, from an empty cache; `CacheHoldsNewestTen` states what it holds |
| AdvancedAi.CacheHoldsNewestTen | backend/advanced_ai.py:403-415 | After any sequence of appends the cache holds exactly the newest ten entries |
| AdvancedAi.Backfill | backend/advanced_ai.py:396-400 | The update keeps the log's length |
| AdvancedAi.NoMatchBeforeShift | backend/advanced_ai.py:396-400 | Dropping a non-matching head moves the no-earlier-match condition one position down |
| AdvancedAi.BackfillTouchesFirstMatch | backend/advanced_ai.py:396-400 | Only the first record with the user's id and text gets the emotion and confidence 0.8; every other record is unchanged |
| AdvancedAi.AdvancedBot.UpdateContext | backend/advanced_ai.py:392-418 | The log is backfilled and one entry is added to this user's cache window; other users' caches are unchanged; a store failure changes nothing |
| AdvancedAi.SeedKnowledgeShape | backend/advanced_ai.py:58-96 | The seed corpus has twenty entries, ten Russian then ten English, all tagged as initial |
| AdvancedAi.AdvancedBot.LearnFromConversation | backend/advanced_ai.py:420-451 | The cleaned message is added to the index as auto-learned and to the backup; an embedding failure adds nothing; a backup failure keeps the index entry |
| AdvancedAi.AdvancedBot.AddManualTraining | backend/advanced_ai.py:453-474 | The cleaned question is added as a manual entry with emotion neutral, unless the embedding fails; the backup is untouched |
| AdvancedAi.SmartReplyLabel | backend/advanced_ai.py:98-126 | A turn always reports one of the six labels, and on failure the fallback reply with "neutral" |
| AdvancedAi.SmartReplyContextFault | backend/advanced_ai.py:213-215 | When the context cannot be read, the turn behaves as for a user with no history |
| AdvancedAi.SmartReply | backend/advanced_ai.py:98-126 | One turn's reply and label: the fallback and "neutral" on failure, otherwise the cascade on the cleaned message, its detected emotion and the user's context; `SmartReplyLabel` and `SmartReplyContextFault` state its properties |
| AdvancedAi.TurnMemory | backend/advanced_ai.py:120-126 | What one turn leaves in the engine: nothing after a failure, otherwise the backfilled log and this user's cache with the turn added |
| AdvancedAi.AdvancedBot.GetSmartResponse | backend/advanced_ai.py:98-126 | The reply and label are those of the pipeline on the log before the turn; the log and cache are updated unless the engine or the update failed; the knowledge store is untouched |
| Server.ParseId | backend/server.py:228-232 | With "\|", the id has no "\|" and id + "\|" + text restores the message; without it the request's id and the whole message |
| Server.ParseIdRoundTrip | backend/server.py:228-229 | Joining an id without "\|" to any text and parsing gives both back |
| Server.TemplateListsNonEmpty | backend/server.py:68-139 | Every category list has five entries and each country table three |
| Server.TemplatesFor | backend/server.py:172 | `RESPONSE_TEMPLATES.get(lang, RESPONSE_TEMPLATES["ru"])`: only "en" has a table of its own |
| Server.CategoryList | backend/server.py:173 | `templates.get(category, templates["flirt"])` for the list-valued categories |
| Server.GetTemplateResponse | backend/server.py:171-173 | A member of the category's list, the flirt list for an unknown category; the dictionary-valued country category cannot be drawn from and is the error case |
| Server.TemplateFallbacks | backend/server.py:172-173 | A language other than "en" uses the Russian table; an unknown category uses flirt |
| Server.Values | backend/server.py:178 | `list(d.values())` keeps the order and the values |
| Server.GetCountryResponse | backend/server.py:175-178 | The reply is one of the language's country answers |
| Server.GetResponseOrder | backend/server.py:146-169 | A non-empty learned answer wins when learning is on; otherwise the first matching keyword group of greeting, country, questions, flirt and seductive picks the list, and flirt is the default |
| Server.GetResponseIgnoresLookupWhenOff | backend/server.py:151-154 | With learning off, the learned lookup has no effect |
| Server.GetResponse | backend/server.py:146-169 | `get_response`; `GetResponseOrder` and `GetResponseIgnoresLookupWhenOff` state its order of checks |
| Server.Funnel | backend/server.py:241-256 | A count over threshold + 1 is last, equal to threshold + 1 is semi, otherwise normal |
| Server.Steps | backend/server.py:238-256 | One step per turn |
| Server.StepsAt | backend/server.py:238-256 | The k-th of a run of turns is judged at count + k + 1, because every turn increments |
| Server.FreshUserFunnel | backend/server.py:238-256 | For a fresh user, turns 1..T are normal, turn T+1 is semi and every later turn is last; exactly one semi once more than T turns are taken |
| Server.SemiCount | backend/server.py:241-256 | A normal-then-semi-then-last run holds one semi exactly when it is longer than T |
| Server.TurnReply | backend/server.py:241-281 | The reply carries the turn's count; semi and last are exclusive and set exactly by the threshold; each step's text is the configured one or the template reply |
| Server.ChatServer.constructor | backend/server.py:142-144 | A new server has no sessions, log or learned pairs |
| Server.ChatServer.GetMessageCount | backend/server.py:202-211 | Returns the stored count, or 0 for a new user, whose record is then created with 0 |
| Server.ChatServer.IncrementMessageCount | backend/server.py:213-220 | Returns and stores the previous count + 1, an absent record counting as 0 |
| Server.ChatServer.Chat | backend/server.py:224-281 | Parses, increments, answers by the funnel and logs the turn with the same count and flags |
| Server.ChatServer.AddTrainingPair | backend/server.py:190-196 | The question is stored lower-cased |
| Server.ChatServer.ResetDatabase | backend/server.py:316-322 | Conversations, sessions and learned pairs are all emptied |
| Zenno.ZParse | zennoposter_api.py:57-63 | With "\|", the id has no "\|" and id + "\|" + text restores the message; otherwise a "zenno_" id and the whole message |
| Zenno.ZParseRoundTrip | zennoposter_api.py:58-59 | Joining an id without "\|" to any text and parsing gives both back |
| Zenno.NewSession | zennoposter_api.py:117-140 | A new session starts at count 0 with maximum 3 at the beginning stage, with semi and last texts chosen by language == "ru" |
| Zenno.BuildCharacterConfig | zennoposter_api.py:172-185 | `_build_character_config`: the request's name and language, the fixed age, interests and playful mood, and the session's texts |
| Zenno.EngineView | zennoposter_api.py:172-185 | The keys of that configuration the engine reads |
| Zenno.EngineViewOfBuiltConfig | zennoposter_api.py:172-185 | The engine sees the request's name and language and the playful mood |
| Zenno.FirstRow | zennoposter_api.py:192-223 | The first keyword row that matches, and no earlier one |
| Zenno.FallbackResponse | zennoposter_api.py:187-225 | Confidence 0.5 and an emotion among flirty, romantic, seductive and neutral |
| Zenno.FallbackResponseSpec | zennoposter_api.py:187-225 | The first matching keyword row picks the reply; with no matching row the reply is the language's "tell me more" text with "neutral" and 0.5; any language other than "ru" gets the English table |
| Zenno.FallbackGreetingFirst | zennoposter_api.py:193-198 | A greeting that also asks "как дела" gets the greeting reply |
| Zenno.Redirect | zennoposter_api.py:142-170 | At the maximum, the semi text and the count raised by one; past it, the last text with the count unchanged; message number old count + 1, emotion "redirect", confidence 1.0 |
| Zenno.NormalUpdate | zennoposter_api.py:85-89 | A normal turn's session update: one more message and the turn's text, reply and emotion stored |
| Zenno.ErrorReply | zennoposter_api.py:106-115 | The generic error reply: message number 1, "neutral", no redirect, confidence 0.1 |
| Zenno.CountAfterBound | zennoposter_api.py:69-92 | From at most max + 1, the count grows by one per turn and stops at max + 1 |
| Zenno.FreshSessionFunnel | zennoposter_api.py:69-165 | A new session's turns are normal up to the maximum, then one semi, then last for ever, and the count never passes max + 1 |
| Zenno.LastRedirectRepeatsUserText | zennoposter_api.py:86-87 | After the last normal turn and the semi redirect, the last redirect sends the user's own earlier text |
| Zenno.Configure | zennoposter_api.py:298-310 | The configured fields take the given values or their defaults; an existing record keeps its count; a new record has none |
| Zenno.ResetUser | zennoposter_api.py:312-314 | The user's record is gone and every other user's record is unchanged |
| Zenno.ResetStartsOver | zennoposter_api.py:312-314 | After a reset the next turn starts a new session at count 0; a second reset, or one for an absent user, changes nothing |
| Zenno.DropUser | zennoposter_api.py:315 | `delete_many` on the user's id: no entry of the user is left |
| Zenno.DropUserMembers | zennoposter_api.py:315 | An entry stays exactly when it was logged and belongs to another user |
| Zenno.DropUserKeepsOrder | zennoposter_api.py:315 | The deletion works segment by segment, so the other entries keep their order |
| Zenno.DropUserOthersOnly | zennoposter_api.py:315 | A log with no entry of the user is left as it is |
| Zenno.TurnEffect | zennoposter_api.py:54-115 | One turn from the old to the new sessions and log: the error reply for a record without a count, the `_handle_redirect` step at or past the maximum, and a normal turn below it, with its reply source |
| Zenno.TurnFollowsFunnel | zennoposter_api.py:69-104 | A turn on a counted session is the funnel step of its count: the new count is `StepCount`, the turn redirects exactly when `StepKind` is not normal, sends the semi text exactly on the semi step and the last text exactly on the last step, and is numbered one past the old count |
| Zenno.RedirectFollowsFunnel | zennoposter_api.py:142-170 | A redirect turn is the semi or the last step, with the matching count |
| Zenno.NormalFollowsFunnel | zennoposter_api.py:85-104 | A normal turn is the normal step and adds one to the count |
| Zenno.ConfiguredBeforeFirstTurn | zennoposter_api.py:298-310 | Configuring before the first message leaves a record without a count |
| Zenno.ErrorTurnKeepsRecord | zennoposter_api.py:106-115 | A turn on such a record is the error reply and leaves the record, so every later turn fails the same way |
| Zenno.ZennoApi.constructor | zennoposter_api.py:49-52 | An API starts with no sessions and no log, with or without an engine |
| Zenno.ZennoApi.GetOrCreateSession | zennoposter_api.py:117-140 | Returns the stored session, or stores and returns a new one |
| Zenno.ZennoApi.UpdateSession | zennoposter_api.py:227-232 | Replaces an existing record; no record is created |
| Zenno.ZennoApi.LogConversation | zennoposter_api.py:234-245 | Appends one log entry with the session's count, stage and language |
| Zenno.ZennoApi.HandleRedirect | zennoposter_api.py:142-170 | Replies and stores as `Redirect` says, and logs the redirect |
| Zenno.ZennoApi.AnswerTurn | zennoposter_api.py:72-104 | A normal turn: the count rises by one, the message number is the new count, the user's text becomes `last_message`; the reply comes from the engine with confidence 0.8, and the engine's log and cache change as its turn says, or from the fallback |
| Zenno.ZennoApi.Dispatch | zennoposter_api.py:69-115 | Error reply for a record without a count, redirect at or past the maximum, normal turn below it; the engine's log and cache change only on a normal turn |
| Zenno.ZennoApi.ProcessMessage | zennoposter_api.py:54-115 | Parses, finds or creates the session, and carries out the turn; the engine's log and cache change only on a normal turn, and its knowledge store never |
| Zenno.ZennoApi.ConfigureSession | zennoposter_api.py:298-310 | Upserts the configured record |
| Zenno.ZennoApi.ResetSession | zennoposter_api.py:312-315 | Deletes the user's session and all of the user's conversation entries; everything else is kept |

## Left out

- Embeddings and the vector index.
  - SentenceTransformer embeddings, ChromaDB `add` and `query`, and the distance computation are not modelled. They are a foreign library and floating-point work.
  - A query arrives as ranked candidates with distances, or as a failure. The model applies the language filter and the limit of five itself.
- The MongoDB regex match of `get_learned_response` (backend/server.py:180-188) is a foreign query language. Its answer is an `Option<string>` parameter.
- Statistics are not modelled: `get_stats`, `get_statistics`, `get_learning_stats` and the bad-response routes. These are aggregation pipelines and float averages.
- HTTP routes, middleware and the server lifespan are not modelled, and neither is `backend/zenno_server.py`.
  - As a consequence, the HTTP 500 path of `chat` is absent.
  - `chat`'s `TestRequest` variant is absent too.
- Timestamps, `created_at` and `updated_at` fields, and clock-based ids are not modelled. Ids take a `stamp` parameter.
- Concurrency is not modelled, including the non-atomic increment-then-read of `increment_message_count`. The model runs one call at a time.
- Logging is not modelled.
- The frontend is not part of this model.
- Context fields that are never read are not modelled: `user_preferences`, the session's `country`, `emotions_history` and `active_sessions`.
- Text.Lower, Text.IsWordChar: Python's Unicode `lower` and `\w` are approximated.
  - Case mapping covers ASCII, Latin-1 and the basic Cyrillic capitals U+0400–U+042F; other Cyrillic capitals, such as U+0462 and U+0490, are left as they are. Word characters cover ASCII, Latin-1 letters and digits, and Cyrillic U+0400–U+052F.
  - `\s` is Python's exact whitespace set.
- Requests that set `character_name`, `language` or `country` to an explicit null are not modelled. ZennoMessage fields are plain strings that carry the default.
- Store failures inside the ZennoPoster calls are not modelled, apart from those modelled as faults. A missing `message_count` is modelled, and so are the engine's own failures (`engineFault`, `contextFault`, `updateFault`).
- AdvancedAi.AdvancedBot.GetSmartResponse: an exception escaping the pipeline is an oracle flag (`engineFault`). The flag gives the fallback reply with "neutral" and leaves the log and cache as they were; which step raised is not modelled.
- AdvancedAi.SearchSimilar: the `emotion` argument of `_search_similar` is unused by the source and so is absent.
- AdvancedAi.Backfill: the record the update touches is the first one in log order. The insertion order stands in for MongoDB's natural order.
- Zenno.ZennoApi.ProcessMessage: other exceptions inside the turn are not modelled, for example a failing store write. Only the missing-count KeyError yields the error reply.
