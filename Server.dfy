/**
 * The main chat API (`backend/server.py`): the `id|message` convention, the
 * per-user message counter, the three-way funnel (normal replies, then one
 * "semi" teaser, then the "last" redirect), and the template bot `AISexter`
 * that picks a normal reply by keyword.
 *
 * The learned-answer lookup is a MongoDB regular-expression query; it arrives
 * as its answer (`Option<string>`). Random choices arrive as `pick`.
 */
module Server {
  import opened Common
  import opened Text

  // ---------------------------------------------------------------------------
  // Character configuration
  // ---------------------------------------------------------------------------

  datatype CharacterConfig = CharacterConfig(
    name: string,
    age: string,
    country: string,
    interests: string,
    mood: string,
    messageCount: int,
    semiMessage: string,
    lastMessage: string,
    learningEnabled: bool,
    language: string)

  /** The configuration used when a request carries none. */
  const DefaultConfig: CharacterConfig := CharacterConfig(
    "Анна", "23", "Россия", "спорт, кино, музыка", "игривое", 3,
    "Хочешь увидеть больше? Переходи по ссылке...",
    "Встретимся в приватном чате, дорогой",
    true, "ru")

  // ---------------------------------------------------------------------------
  // The `id|message` convention
  // ---------------------------------------------------------------------------

  /**
   * The user and the text of a request: with a "|" in the message, the part before the
   * first "|" is the user and the rest the text (so joining them with "|" gives the message
   * back); otherwise the request's own user id and the whole message.
   */
  function ParseId(message: string, requestUserId: string): (r: (string, string))
    ensures '|' in message ==> r.0 + "|" + r.1 == message && '|' !in r.0
    ensures '|' !in message ==> r == (requestUserId, message)
  {
    if '|' in message then SplitFirst(message, '|') else (requestUserId, message)
  }

  /** Prefixing a "|"-free user id recovers exactly that id and text, whatever the text holds. */
  lemma ParseIdRoundTrip(userId: string, text: string, requestUserId: string)
    requires '|' !in userId
    ensures ParseId(userId + "|" + text, requestUserId) == (userId, text)
  {
    SplitFirstUnique(userId + "|" + text, '|', userId, text);
  }

  // ---------------------------------------------------------------------------
  // Response templates
  // ---------------------------------------------------------------------------

  /** The templates of one language; `countrySpecific` keeps the dictionary's key order. */
  datatype Templates = Templates(
    greeting: seq<string>,
    flirt: seq<string>,
    seductive: seq<string>,
    questions: seq<string>,
    countrySpecific: seq<(string, string)>)

  const RuTemplates: Templates := Templates(
    [ "Привет, красавчик! Как дела?",
      "Приветик! Что делаешь?",
      "Привет, солнышко! Как настроение?",
      "Хай, дорогой! Скучал по мне?",
      "Привет! Рада тебя видеть"],
    [ "Ты такой интересный... Расскажи о себе больше",
      "Мне нравится с тобой болтать, ты особенный",
      "У тебя такой приятный голос... хотя мы переписываемся",
      "Ты заставляешь меня краснеть",
      "Мне становится жарко от наших разговоров"],
    [ "Знаешь, я сейчас в одном халатике...",
      "Мне так хочется почувствовать твои объятия",
      "Ты бы хотел увидеть, что на мне надето?",
      "Думаю о тебе перед сном...",
      "Мне нужна твоя близость"],
    [ "А что ты делаешь сейчас?",
      "Расскажи, какие у тебя планы на вечер?",
      "Что тебе нравится в девушках?",
      "Где бы ты хотел со мной встретиться?",
      "О чем думаешь?"],
    [ ("россия", "Я из Москвы, самый красивый город!"),
      ("москва", "Да, я москвичка! Обожаю свой город"),
      ("где", "Я из России, а точнее из Москвы")])

  const EnTemplates: Templates := Templates(
    [ "Hey handsome! How are you?",
      "Hi baby! What are you doing?",
      "Hello gorgeous! How's your mood?",
      "Hey darling! Did you miss me?",
      "Hi! So glad to see you"],
    [ "You're so interesting... Tell me more about yourself",
      "I love chatting with you, you're special",
      "You have such a nice voice... even though we're texting",
      "You make me blush",
      "I'm getting hot from our conversations"],
    [ "You know, I'm just in a silk robe right now...",
      "I want to feel your embrace so much",
      "Would you like to see what I'm wearing?",
      "I think about you before bed...",
      "I need your closeness"],
    [ "What are you doing right now?",
      "Tell me, what are your plans for tonight?",
      "What do you like in girls?",
      "Where would you like to meet me?",
      "What are you thinking about?"],
    [ ("america", "I'm from New York, the most beautiful city!"),
      ("usa", "Yes, I'm American! Love my country"),
      ("where", "I'm from USA, New York specifically")])

  /** `RESPONSE_TEMPLATES.get(lang, RESPONSE_TEMPLATES["ru"])`: only "en" has its own table. */
  function TemplatesFor(lang: string): Templates {
    if lang == "en" then EnTemplates else RuTemplates
  }

  /** `templates.get(category, templates["flirt"])` for the list-valued categories. */
  function CategoryList(t: Templates, category: string): seq<string> {
    if category == "greeting" then t.greeting
    else if category == "seductive" then t.seductive
    else if category == "questions" then t.questions
    else t.flirt
  }

  /** Every list of both tables has five entries. */
  lemma TemplateListsNonEmpty(lang: string, category: string)
    ensures |CategoryList(TemplatesFor(lang), category)| == 5
    ensures |TemplatesFor(lang).countrySpecific| == 3
  {
  }

  /**
   * `get_template_response`: a member of the category's list in the language's table.
   * The one key whose value is not a list, "country_specific", makes `random.choice`
   * index a dictionary by position, which fails.
   */
  function GetTemplateResponse(category: string, lang: string, pick: nat): (r: Result<string>)
    ensures r.Failure? <==> category == "country_specific"
    ensures r.Success? ==> r.value in CategoryList(TemplatesFor(lang), category)
  {
    if category == "country_specific" then Failure
    else
      TemplateListsNonEmpty(lang, category);
      Success(Choose(CategoryList(TemplatesFor(lang), category), pick))
  }

  /** The language and category fallbacks: an unknown language is served the Russian table,
      and an unknown category the flirt list. */
  lemma TemplateFallbacks(category: string, lang: string, pick: nat)
    ensures lang != "en" ==> GetTemplateResponse(category, lang, pick) == GetTemplateResponse(category, "ru", pick)
    ensures category !in {"greeting", "seductive", "questions", "country_specific"} ==>
      GetTemplateResponse(category, lang, pick) == GetTemplateResponse("flirt", lang, pick)
  {
  }

  function Values(kv: seq<(string, string)>): (vs: seq<string>)
    ensures |vs| == |kv|
    ensures forall i :: 0 <= i < |kv| ==> vs[i] == kv[i].1
  {
    seq(|kv|, i requires 0 <= i < |kv| => kv[i].1)
  }

  /** `get_country_response`: one of the country answers of the language's table. */
  function GetCountryResponse(lang: string, pick: nat): (r: string)
    ensures exists i :: 0 <= i < |TemplatesFor(lang).countrySpecific| && r == TemplatesFor(lang).countrySpecific[i].1
  {
    var vs := Values(TemplatesFor(lang).countrySpecific);
    TemplateListsNonEmpty(lang, "");
    var k := Wrap(pick, |vs|);
    assert Choose(vs, pick) == vs[k];
    Choose(vs, pick)
  }

  // ---------------------------------------------------------------------------
  // The template bot (`AISexter.get_response`)
  // ---------------------------------------------------------------------------

  const GreetingWords: seq<string> := ["привет", "hi", "hello", "хай", "здравствуй"]
  const CountryWords: seq<string> := ["откуда", "where", "город", "страна"]
  const QuestionWords: seq<string> := ["как дела", "how are you", "что делаешь"]
  const FlirtWords: seq<string> := ["красив", "beautiful", "сексуальн", "sexy"]
  const SeductiveWords: seq<string> := ["хочу", "want", "желаю", "desire"]

  /** The learned answer is used when learning is on and the lookup found a non-empty one. */
  predicate UsesLearned(config: CharacterConfig, learned: Option<string>) {
    config.learningEnabled && learned.Some? && learned.value != ""
  }

  /** `get_response`: a learned answer, else the first keyword category that matches the
      lower-cased message, else flirt. */
  function GetResponse(message: string, config: CharacterConfig, learned: Option<string>, pick: nat): string {
    var m := Lower(message);
    var lang := config.language;
    if UsesLearned(config, learned) then learned.value
    else if AnyIn(GreetingWords, m) then GetTemplateResponse("greeting", lang, pick).value
    else if AnyIn(CountryWords, m) then GetCountryResponse(lang, pick)
    else if AnyIn(QuestionWords, m) then GetTemplateResponse("questions", lang, pick).value
    else if AnyIn(FlirtWords, m) then GetTemplateResponse("flirt", lang, pick).value
    else if AnyIn(SeductiveWords, m) then GetTemplateResponse("seductive", lang, pick).value
    else GetTemplateResponse("flirt", lang, pick).value
  }

  /** The keyword checks in their order: which list the reply is drawn from. */
  lemma GetResponseOrder(message: string, config: CharacterConfig, learned: Option<string>, pick: nat)
    ensures var r := GetResponse(message, config, learned, pick);
      var m := Lower(message);
      var t := TemplatesFor(config.language);
      && (UsesLearned(config, learned) ==> r == learned.value)
      && (!UsesLearned(config, learned) ==>
           && (AnyIn(GreetingWords, m) ==> r in t.greeting)
           && (!AnyIn(GreetingWords, m) && AnyIn(CountryWords, m) ==>
                exists i :: 0 <= i < |t.countrySpecific| && r == t.countrySpecific[i].1)
           && (!AnyIn(GreetingWords, m) && !AnyIn(CountryWords, m) && AnyIn(QuestionWords, m) ==>
                r in t.questions)
           && ((!AnyIn(GreetingWords, m) && !AnyIn(CountryWords, m) && !AnyIn(QuestionWords, m)
                && AnyIn(FlirtWords, m)) ==> r in t.flirt)
           && ((!AnyIn(GreetingWords, m) && !AnyIn(CountryWords, m) && !AnyIn(QuestionWords, m)
                && !AnyIn(FlirtWords, m) && AnyIn(SeductiveWords, m)) ==> r in t.seductive)
           && ((!AnyIn(GreetingWords, m) && !AnyIn(CountryWords, m) && !AnyIn(QuestionWords, m)
                && !AnyIn(FlirtWords, m) && !AnyIn(SeductiveWords, m)) ==> r in t.flirt))
  {
    var m := Lower(message);
    if !UsesLearned(config, learned) && !AnyIn(GreetingWords, m) && AnyIn(CountryWords, m) {
      assert GetResponse(message, config, learned, pick) == GetCountryResponse(config.language, pick);
    }
  }

  /** With the learned lookup off or empty, the reply never depends on it. */
  lemma GetResponseIgnoresLookupWhenOff(message: string, config: CharacterConfig, l1: Option<string>, l2: Option<string>, pick: nat)
    requires !config.learningEnabled
    ensures GetResponse(message, config, l1, pick) == GetResponse(message, config, l2, pick)
  {
  }

  // ---------------------------------------------------------------------------
  // The funnel
  // ---------------------------------------------------------------------------

  /** Which reply the turn with counter value `count` gets, for threshold `threshold`. */
  function Funnel(count: int, threshold: int): (s: Step)
    ensures s == Last <==> count > threshold + 1
    ensures s == Semi <==> count == threshold + 1
    ensures s == Normal <==> count <= threshold
  {
    if count > threshold + 1 then Last
    else if count == threshold + 1 then Semi
    else Normal
  }

  /** The steps of `n` further turns of a user whose counter stands at `count`: every turn,
      whatever its step, increments the counter first. */
  function Steps(count: int, threshold: int, n: nat): (ss: seq<Step>)
    ensures |ss| == n
    decreases n
  {
    if n == 0 then [] else [Funnel(count + 1, threshold)] + Steps(count + 1, threshold, n - 1)
  }

  lemma {:induction false} StepsAt(count: int, threshold: int, n: nat, k: nat)
    requires k < n
    ensures Steps(count, threshold, n)[k] == Funnel(count + k + 1, threshold)
    decreases n
  {
    if k > 0 {
      StepsAt(count + 1, threshold, n - 1, k - 1);
    }
  }

  /**
   * A fresh user: turns 1 to T are normal, turn T + 1 is the semi teaser and every later turn
   * is the last redirect; so the teaser is sent once, and only once the user has had T + 1 turns.
   */
  lemma FreshUserFunnel(threshold: nat, n: nat)
    ensures var ss := Steps(0, threshold, n);
      && (forall k :: 0 <= k < n ==>
            ss[k] == (if k < threshold then Normal else if k == threshold then Semi else Last))
      && multiset(ss)[Semi] == (if n > threshold then 1 else 0)
  {
    var ss := Steps(0, threshold, n);
    forall k | 0 <= k < n
      ensures ss[k] == (if k < threshold then Normal else if k == threshold then Semi else Last)
    {
      StepsAt(0, threshold, n, k);
    }
    SemiCount(ss, threshold);
  }

  /** A sequence of steps following the fresh-user pattern carries one semi step at most. */
  lemma {:induction false} SemiCount(ss: seq<Step>, threshold: nat)
    requires forall k :: 0 <= k < |ss| ==>
      ss[k] == (if k < threshold then Normal else if k == threshold then Semi else Last)
    ensures multiset(ss)[Semi] == (if |ss| > threshold then 1 else 0)
    decreases |ss|
  {
    if ss != [] {
      var front := ss[..|ss| - 1];
      SemiCount(front, threshold);
      assert ss == front + [ss[|ss| - 1]];
    }
  }

  // ---------------------------------------------------------------------------
  // Records and the server object
  // ---------------------------------------------------------------------------

  datatype ChatResponse = ChatResponse(response: string, messageNumber: int, isSemi: bool, isLast: bool)

  /** A document of the `conversations` collection. */
  datatype ConversationRecord = ConversationRecord(
    userId: string, userMessage: string, botResponse: string,
    messageNumber: int, isSemi: bool, isLast: bool)

  /** A document of the `learned_responses` collection. */
  datatype TrainingRecord = TrainingRecord(question: string, answer: string, language: string)

  /** The reply of a turn whose incremented counter is `count`. */
  function TurnReply(count: int, text: string, config: CharacterConfig, learned: Option<string>, pick: nat): (r: ChatResponse)
    ensures r.messageNumber == count
    ensures !(r.isSemi && r.isLast)
    ensures r.isLast <==> count > config.messageCount + 1
    ensures r.isSemi <==> count == config.messageCount + 1
    ensures r.isLast ==> r.response == config.lastMessage
    ensures r.isSemi ==> r.response == config.semiMessage
    ensures !r.isSemi && !r.isLast ==> r.response == GetResponse(text, config, learned, pick)
  {
    match Funnel(count, config.messageCount)
    case Last => ChatResponse(config.lastMessage, count, false, true)
    case Semi => ChatResponse(config.semiMessage, count, true, false)
    case Normal => ChatResponse(GetResponse(text, config, learned, pick), count, false, false)
  }

  class ChatServer {
    /** `user_sessions`: each user's message counter. */
    var sessions: map<string, int>
    /** The `conversations` log, in insertion order. */
    var conversations: seq<ConversationRecord>
    /** `learned_responses`. */
    var learned: seq<TrainingRecord>

    constructor ()
      ensures sessions == map[] && conversations == [] && learned == []
    {
      sessions := map[];
      conversations := [];
      learned := [];
    }

    /** `get_message_count`: the stored counter, or 0 after creating the session. */
    method GetMessageCount(userId: string) returns (c: int)
      modifies this
      ensures c == Get(old(sessions), userId, 0)
      ensures sessions == old(sessions)[userId := c]
      ensures conversations == old(conversations) && learned == old(learned)
    {
      if userId !in sessions {
        sessions := sessions[userId := 0];
        return 0;
      }
      c := sessions[userId];
    }

    /** `increment_message_count`: the upsert-increment, returning the new value. */
    method IncrementMessageCount(userId: string) returns (c: int)
      modifies this
      ensures c == Get(old(sessions), userId, 0) + 1
      ensures sessions == old(sessions)[userId := c]
      ensures conversations == old(conversations) && learned == old(learned)
    {
      var previous := if userId in sessions then sessions[userId] else 0;
      sessions := sessions[userId := previous + 1];
      c := sessions[userId];
    }

    /** `chat`: parse, count, run the funnel, log the turn. */
    method Chat(requestUserId: string, message: string, config: Option<CharacterConfig>,
                learnedLookup: Option<string>, pick: nat) returns (resp: ChatResponse)
      modifies this
      ensures var (userId, text) := ParseId(message, requestUserId);
        var cfg := config.GetOr(DefaultConfig);
        var count := Get(old(sessions), userId, 0) + 1;
        && resp == TurnReply(count, text, cfg, learnedLookup, pick)
        && sessions == old(sessions)[userId := count]
        && conversations == old(conversations) + [ConversationRecord(userId, text, resp.response, count, resp.isSemi, resp.isLast)]
        && learned == old(learned)
    {
      var (userId, text) := ParseId(message, requestUserId);
      var cfg := if config.Some? then config.value else DefaultConfig;
      var count := IncrementMessageCount(userId);
      var response: string;
      var isSemi := false;
      var isLast := false;
      if count > cfg.messageCount + 1 {
        response := cfg.lastMessage;
        isLast := true;
      } else if count == cfg.messageCount + 1 {
        response := cfg.semiMessage;
        isSemi := true;
      } else {
        response := GetResponse(text, cfg, learnedLookup, pick);
      }
      conversations := conversations + [ConversationRecord(userId, text, response, count, isSemi, isLast)];
      resp := ChatResponse(response, count, isSemi, isLast);
    }

    /** `add_training_pair`: the question is stored lower-cased. */
    method AddTrainingPair(question: string, answer: string, lang: string)
      modifies this
      ensures learned == old(learned) + [TrainingRecord(Lower(question), answer, lang)]
      ensures sessions == old(sessions) && conversations == old(conversations)
    {
      learned := learned + [TrainingRecord(Lower(question), answer, lang)];
    }

    /** `reset_database`: every collection emptied. */
    method ResetDatabase()
      modifies this
      ensures sessions == map[] && conversations == [] && learned == []
    {
      sessions := map[];
      conversations := [];
      learned := [];
    }
  }
}
