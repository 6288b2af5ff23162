/**
 * The ZennoPoster integration (`ZennoPosterAPI`): a session record per user,
 * a funnel of normal replies, one "semi" redirect and then the "last" redirect,
 * answered either by the reply engine or, when no engine is loaded, by a small
 * keyword fallback; plus session configuration and reset.
 *
 * The clock-based user id and the engine's draws arrive as parameters
 * (`stamp`, the engine's `TurnOracle`).
 */
module Zenno {
  import opened Common
  import opened Text
  import opened AdvancedAi

  // ---------------------------------------------------------------------------
  // Requests, sessions, replies
  // ---------------------------------------------------------------------------

  /** A request, with the defaults of the unset fields already filled in. */
  datatype ZennoMessage = ZennoMessage(message: string, characterName: string, language: string, country: string)

  /**
   * A `zenno_sessions` document. Fields that only some writers set are optional:
   * configuring a user who has no session yet creates a record without a count, a
   * country, a stage, or a last reply.
   */
  datatype ZSession = ZSession(
    userId: string,
    messageCount: Option<int>,
    maxMessages: int,
    characterName: string,
    language: string,
    country: Option<string>,
    stage: Option<string>,
    semiMessage: string,
    lastMessage: string,
    lastResponse: Option<string>,
    lastEmotion: Option<string>)

  datatype RedirectType = SemiRedirect | LastRedirect

  datatype ZennoResponse = ZennoResponse(
    response: string,
    userId: string,
    messageNumber: int,
    emotion: string,
    isRedirect: bool,
    redirectType: Option<RedirectType>,
    aiConfidence: real)

  /** A `zenno_conversations` document. */
  datatype ZLog = ZLog(
    userId: string, userMessage: string, botResponse: string, emotion: string,
    messageNumber: int, sessionStage: string, language: string)

  /** The keys `configure_session` reads; each may be absent. */
  datatype SessionConfig = SessionConfig(
    maxMessages: Option<int>, semiMessage: Option<string>, lastMessage: Option<string>,
    characterName: Option<string>, language: Option<string>)

  /** The character configuration handed to the reply engine. */
  datatype ZCharacterConfig = ZCharacterConfig(
    name: string, age: string, country: string, interests: string, mood: string,
    messageCount: int, semiMessage: string, lastMessage: string, learningEnabled: bool, language: string)

  // ---------------------------------------------------------------------------
  // Pure parts
  // ---------------------------------------------------------------------------

  /** The user and text of a request: split at the first "|", or a clock-derived id. */
  function ZParse(message: string, stamp: string): (r: (string, string))
    ensures '|' in message ==> r.0 + "|" + r.1 == message && '|' !in r.0
    ensures '|' !in message ==> r == ("zenno_" + stamp, message)
  {
    if '|' in message then SplitFirst(message, '|') else ("zenno_" + stamp, message)
  }

  /** Joining a "|"-free id and any text with "|" parses back into the same two parts. */
  lemma ZParseRoundTrip(userId: string, text: string, stamp: string)
    requires '|' !in userId
    ensures ZParse(userId + "|" + text, stamp) == (userId, text)
  {
    SplitFirstUnique(userId + "|" + text, '|', userId, text);
  }

  const RuSemi: string := "Хочешь увидеть больше? Переходи по ссылке: https://example.com/more"
  const EnSemi: string := "Want to see more? Follow the link: https://example.com/more"
  const RuLast: string := "Встретимся в приватном чате, жду тебя: https://example.com/private"
  const EnLast: string := "Meet me in private chat, waiting for you: https://example.com/private"

  /** The session `_get_or_create_session` creates. */
  function NewSession(userId: string, m: ZennoMessage): (s: ZSession)
    ensures s.messageCount == Some(0) && s.maxMessages == 3 && s.stage == Some("beginning")
    ensures s.semiMessage == (if m.language == "ru" then RuSemi else EnSemi)
    ensures s.lastMessage == (if m.language == "ru" then RuLast else EnLast)
    ensures s.userId == userId && s.language == m.language && s.characterName == m.characterName
  {
    var ru := m.language == "ru";
    ZSession(userId, Some(0), 3, m.characterName, m.language, Some(m.country), Some("beginning"),
             if ru then RuSemi else EnSemi, if ru then RuLast else EnLast, None, None)
  }

  /** The session a request works on: the stored one, or a new one. */
  function SessionFor(sessions: map<string, ZSession>, userId: string, m: ZennoMessage): ZSession {
    if userId in sessions then sessions[userId] else NewSession(userId, m)
  }

  /** `_build_character_config`. */
  function BuildCharacterConfig(m: ZennoMessage, s: ZSession): ZCharacterConfig {
    ZCharacterConfig(
      m.characterName, "23", if m.language == "ru" then "Россия" else "США",
      "флирт, общение, романтика", "игривое", s.maxMessages, s.semiMessage, s.lastMessage,
      true, m.language)
  }

  /** The keys of a character configuration the reply engine reads; all of them are set. */
  function EngineView(c: ZCharacterConfig): AiConfig {
    AiConfig(Some(c.name), Some(c.mood), Some(c.language))
  }

  /** The engine sees the request's name and language and a playful mood, so its replies
      may always carry the wink. */
  lemma EngineViewOfBuiltConfig(m: ZennoMessage, s: ZSession)
    ensures var a := EngineView(BuildCharacterConfig(m, s));
      && Lang(a) == m.language && NameFor(a) == m.characterName
      && Contains(Mood(a), "игривое")
  {
    ContainsPrefix("игривое", "игривое");
  }

  const RuGreetingWords: seq<string> := ["привет", "здравствуй", "хай"]
  const RuQuestionWords: seq<string> := ["как дела", "что делаешь"]
  const RuComplimentWords: seq<string> := ["красив", "сексуальн"]
  const RuDesireWords: seq<string> := ["хочу", "желаю"]
  const EnGreetingWords: seq<string> := ["hello", "hi", "hey"]
  const EnQuestionWords: seq<string> := ["how are you", "what are you doing"]
  const EnComplimentWords: seq<string> := ["beautiful", "sexy"]
  const EnDesireWords: seq<string> := ["want", "desire"]

  /** The four keyword rows of one language and the five replies with their labels. */
  function FallbackTable(lang: string): (seq<seq<string>>, seq<(string, string)>) {
    if lang == "ru" then
      ([RuGreetingWords, RuQuestionWords, RuComplimentWords, RuDesireWords],
       [("Привет дорогой! Как дела?", "flirty"),
        ("Думаю о тебе, красавчик", "romantic"),
        ("Ты заставляешь меня краснеть", "flirty"),
        ("Мм, мне тоже хочется близости", "seductive"),
        ("Ты такой интересный, расскажи мне больше", "neutral")])
    else
      ([EnGreetingWords, EnQuestionWords, EnComplimentWords, EnDesireWords],
       [("Hi handsome! How are you?", "flirty"),
        ("Thinking about you, gorgeous", "romantic"),
        ("You make me blush", "flirty"),
        ("Mmm, I want closeness too", "seductive"),
        ("You're so interesting, tell me more", "neutral")])
  }

  /** The index of the first row with a keyword in `m`, or the number of rows. */
  function FirstRow(rows: seq<seq<string>>, m: string): (k: nat)
    ensures k <= |rows|
    ensures k < |rows| ==> AnyIn(rows[k], m)
    ensures forall j :: 0 <= j < k ==> !AnyIn(rows[j], m)
    decreases |rows|
  {
    if rows == [] then 0
    else if AnyIn(rows[0], m) then 0
    else 1 + FirstRow(rows[1..], m)
  }

  /** `_fallback_response`: the reply of the first keyword row that matches the lower-cased
      message, else the neutral reply; confidence 0.5. */
  function FallbackResponse(message: string, lang: string): (r: (string, string, real))
    ensures r.2 == 0.5
    ensures r.1 in {"flirty", "romantic", "seductive", "neutral"}
  {
    var (rows, replies) := FallbackTable(lang);
    var k := FirstRow(rows, Lower(message));
    (replies[k].0, replies[k].1, 0.5)
  }

  /** Which reply the fallback gives: the one of the first matching row, the neutral one when
      no row matches (`k == 4`); every language but "ru" gets the English table. */
  lemma FallbackResponseSpec(message: string, lang: string, k: nat)
    requires k <= 4
    requires k < 4 ==> AnyIn(FallbackTable(lang).0[k], Lower(message))
    requires forall j :: 0 <= j < k ==> !AnyIn(FallbackTable(lang).0[j], Lower(message))
    ensures var r := FallbackResponse(message, lang);
      (r.0, r.1) == FallbackTable(lang).1[k]
    ensures k == 4 ==>
      FallbackResponse(message, lang) ==
        (if lang == "ru" then "Ты такой интересный, расскажи мне больше" else "You're so interesting, tell me more",
         "neutral", 0.5)
    ensures lang != "ru" ==> FallbackResponse(message, lang) == FallbackResponse(message, "en")
  {
  }

  /** Greeting comes before the "how are you" row: a greeting that also asks gets the greeting reply. */
  lemma FallbackGreetingFirst()
    ensures FallbackResponse("привет, как дела", "ru") == ("Привет дорогой! Как дела?", "flirty", 0.5)
  {
    var m := "привет, как дела";
    assert Lower(m) == m;
    ContainsPrefix(m, RuGreetingWords[0]);
    assert AnyIn(RuGreetingWords, m);
  }

  /** The kind of a turn whose session count is `count`. */
  function StepKind(count: int, max: int): Step {
    if count >= max then (if count == max then Semi else Last) else Normal
  }

  /** The session count after a turn whose count was `count`. */
  function StepCount(count: int, max: int): int {
    if count >= max && count != max then count else count + 1
  }

  /** `_handle_redirect` on a session whose count has reached its maximum. */
  function Redirect(userId: string, s: ZSession): (out: (ZSession, ZennoResponse))
    requires s.messageCount.Some? && s.messageCount.value >= s.maxMessages
    ensures var (s2, r) := out;
      var count := s.messageCount.value;
      && r.emotion == "redirect" && r.aiConfidence == 1.0 && r.isRedirect && r.userId == userId
      && r.messageNumber == count + 1
      && (count == s.maxMessages ==>
            r.response == s.semiMessage && r.redirectType == Some(SemiRedirect)
            && s2 == s.(messageCount := Some(count + 1)))
      && (count != s.maxMessages ==>
            r.response == s.lastMessage && r.redirectType == Some(LastRedirect) && s2 == s)
  {
    var count := s.messageCount.value;
    if count == s.maxMessages then
      (s.(messageCount := Some(count + 1)),
       ZennoResponse(s.semiMessage, userId, count + 1, "redirect", true, Some(SemiRedirect), 1.0))
    else
      (s, ZennoResponse(s.lastMessage, userId, count + 1, "redirect", true, Some(LastRedirect), 1.0))
  }

  /** The session after a normal turn: one more message, and the turn's text, reply and label
      remembered (the text in the field the last redirect reads). */
  function NormalUpdate(s: ZSession, text: string, response: string, emotion: string): ZSession
    requires s.messageCount.Some?
  {
    s.(messageCount := Some(s.messageCount.value + 1), lastMessage := text,
       lastResponse := Some(response), lastEmotion := Some(emotion))
  }

  /** The reply when processing fails. */
  function ErrorReply(userId: string): ZennoResponse {
    ZennoResponse("Извини, произошла ошибка. Попробуй еще раз.", userId, 1, "neutral", false, None, 0.1)
  }

  /** The count of a session after `n` more turns. */
  function CountAfter(count: int, max: int, n: nat): int
    decreases n
  {
    if n == 0 then count else CountAfter(StepCount(count, max), max, n - 1)
  }

  /** From a count no higher than max + 1, the count climbs by one a turn and stops at max + 1. */
  lemma {:induction false} CountAfterBound(count: int, max: int, n: nat)
    requires count <= max + 1
    ensures CountAfter(count, max, n) == if count + n <= max + 1 then count + n else max + 1
    decreases n
  {
    if n > 0 {
      CountAfterBound(StepCount(count, max), max, n - 1);
    }
  }

  /**
   * A new session with maximum `max`: turns 1 to max are normal, turn max + 1 is the semi
   * redirect, every later turn is the last redirect; the count never passes max + 1, and the
   * turn's message number is its position up to max + 1 and max + 2 from then on.
   */
  lemma FreshSessionFunnel(max: nat, k: nat)
    ensures var count := CountAfter(0, max, k);
      && count == (if k <= max + 1 then k else max + 1)
      && StepKind(count, max) == (if k < max then Normal else if k == max then Semi else Last)
      && count + 1 == (if k <= max then k + 1 else max + 2)
  {
    CountAfterBound(0, max, k);
  }

  /**
   * The configured last text is only ever sent if no normal turn came first: a normal turn
   * stores the user's text in the field the last redirect reads, so after the turn that
   * reaches the maximum and the semi redirect, the last redirect repeats that text.
   */
  lemma LastRedirectRepeatsUserText(userId: string, s: ZSession, text: string, response: string, emotion: string)
    requires s.messageCount == Some(s.maxMessages - 1)
    ensures var s1 := NormalUpdate(s, text, response, emotion);
      var (s2, semi) := Redirect(userId, s1);
      var (s3, last) := Redirect(userId, s2);
      && semi.response == s.semiMessage && semi.redirectType == Some(SemiRedirect)
      && last.response == text && last.redirectType == Some(LastRedirect)
      && s3.messageCount == Some(s.maxMessages + 1)
  {
  }

  /** The `configure_session` upsert. */
  function Configure(old_: Option<ZSession>, userId: string, c: SessionConfig): (s: ZSession)
    ensures s.maxMessages == c.maxMessages.GetOr(3) && s.semiMessage == c.semiMessage.GetOr("")
    ensures s.lastMessage == c.lastMessage.GetOr("") && s.characterName == c.characterName.GetOr("Анна")
    ensures s.language == c.language.GetOr("ru")
    ensures old_.Some? ==> s.messageCount == old_.value.messageCount && s.userId == old_.value.userId
    ensures old_.None? ==> s.messageCount.None? && s.userId == userId
  {
    var base := if old_.Some? then old_.value else ZSession(userId, None, 3, "", "", None, None, "", "", None, None);
    base.(maxMessages := c.maxMessages.GetOr(3), semiMessage := c.semiMessage.GetOr(""),
          lastMessage := c.lastMessage.GetOr(""), characterName := c.characterName.GetOr("Анна"),
          language := c.language.GetOr("ru"))
  }

  /** The session store with one user's record deleted; users without a record are unaffected. */
  function ResetUser(sessions: map<string, ZSession>, userId: string): (r: map<string, ZSession>)
    ensures userId !in r
    ensures forall u :: u != userId ==> (u in r <==> u in sessions)
    ensures forall u :: u in r ==> r[u] == sessions[u]
  {
    map u | u in sessions && u != userId :: sessions[u]
  }

  /** After a reset the user's next turn starts a fresh session at count zero, and a second
      reset changes nothing. */
  lemma ResetStartsOver(sessions: map<string, ZSession>, userId: string, m: ZennoMessage)
    ensures SessionFor(ResetUser(sessions, userId), userId, m) == NewSession(userId, m)
    ensures SessionFor(ResetUser(sessions, userId), userId, m).messageCount == Some(0)
    ensures ResetUser(ResetUser(sessions, userId), userId) == ResetUser(sessions, userId)
    ensures userId !in sessions ==> ResetUser(sessions, userId) == sessions
  {
  }

  /** `zenno_conversations.delete_many({"user_id": userId})`: no entry of the user is left
      (the lemmas below show that the other entries all stay, in their order). */
  function DropUser(log: seq<ZLog>, userId: string): (r: seq<ZLog>)
    ensures |r| <= |log|
    ensures forall i :: 0 <= i < |r| ==> r[i].userId != userId
    decreases |log|
  {
    if log == [] then []
    else (if log[0].userId == userId then [] else [log[0]]) + DropUser(log[1..], userId)
  }

  /** An entry survives the deletion exactly when it was logged for another user. */
  lemma {:induction false} DropUserMembers(log: seq<ZLog>, userId: string)
    ensures forall e :: e in DropUser(log, userId) <==> e in log && e.userId != userId
    decreases |log|
  {
    if log != [] {
      DropUserMembers(log[1..], userId);
      assert log == [log[0]] + log[1..];
    }
  }

  /** The deletion works segment by segment, so the entries it keeps stay in their order. */
  lemma {:induction false} DropUserKeepsOrder(a: seq<ZLog>, b: seq<ZLog>, userId: string)
    ensures DropUser(a + b, userId) == DropUser(a, userId) + DropUser(b, userId)
    decreases |a|
  {
    if a == [] {
      assert a + b == b;
    } else {
      var head := if a[0].userId == userId then [] else [a[0]];
      calc {
        DropUser(a + b, userId);
        { assert (a + b)[0] == a[0] && (a + b)[1..] == a[1..] + b; }
        head + DropUser(a[1..] + b, userId);
        { DropUserKeepsOrder(a[1..], b, userId); }
        head + (DropUser(a[1..], userId) + DropUser(b, userId));
        (head + DropUser(a[1..], userId)) + DropUser(b, userId);
        DropUser(a, userId) + DropUser(b, userId);
      }
    }
  }

  /** A log with no entry of the user is left as it is. */
  lemma {:induction false} DropUserOthersOnly(log: seq<ZLog>, userId: string)
    requires forall i :: 0 <= i < |log| ==> log[i].userId != userId
    ensures DropUser(log, userId) == log
    decreases |log|
  {
    if log != [] {
      DropUserOthersOnly(log[1..], userId);
    }
  }

  /**
   * The contract of one turn, from the sessions, log and engine log before it (`engineLog` is
   * absent when no engine is loaded) to those after it, for the session `s` the turn works on.
   */
  ghost predicate TurnEffect(
    sessions0: map<string, ZSession>, log0: seq<ZLog>, engineLog: Option<seq<LogRecord>>,
    sessions1: map<string, ZSession>, log1: seq<ZLog>,
    userId: string, text: string, m: ZennoMessage, s: ZSession, o: TurnOracle, r: ZennoResponse)
  {
    if s.messageCount.None? then
      r == ErrorReply(userId) && sessions1 == sessions0 && log1 == log0
    else if s.messageCount.value >= s.maxMessages then
      RedirectEffect(sessions0, log0, sessions1, log1, userId, text, s, r)
    else
      && NormalEffect(sessions0, log0, sessions1, log1, userId, text, s, r)
      && ReplySource(engineLog, userId, text, m, s, o, r)
  }

  /** A redirect turn: the `_handle_redirect` reply, its session saved and the turn logged. */
  ghost predicate RedirectEffect(
    sessions0: map<string, ZSession>, log0: seq<ZLog>, sessions1: map<string, ZSession>, log1: seq<ZLog>,
    userId: string, text: string, s: ZSession, r: ZennoResponse)
    requires s.messageCount.Some? && s.messageCount.value >= s.maxMessages
  {
    var (s2, expected) := Redirect(userId, s);
    && r == expected
    && sessions1 == sessions0[userId := s2]
    && log1 == log0 + [ZLog(userId, text, r.response, "redirect", s2.messageCount.value,
                            s2.stage.GetOr("unknown"), s2.language)]
  }

  /** A normal turn: no redirect, numbered one past the count, the session updated and the
      turn logged. */
  ghost predicate NormalEffect(
    sessions0: map<string, ZSession>, log0: seq<ZLog>, sessions1: map<string, ZSession>, log1: seq<ZLog>,
    userId: string, text: string, s: ZSession, r: ZennoResponse)
    requires s.messageCount.Some?
  {
    && !r.isRedirect && r.redirectType.None?
    && r.messageNumber == s.messageCount.value + 1
    && sessions1 == sessions0[userId := NormalUpdate(s, text, r.response, r.emotion)]
    && log1 == log0 + [ZLog(userId, text, r.response, r.emotion, r.messageNumber,
                            s.stage.GetOr("unknown"), s.language)]
  }

  /** Where a normal turn's reply comes from: the keyword fallback when no engine is loaded,
      otherwise the engine's reply under the session's character, at confidence 0.8. */
  ghost predicate ReplySource(
    engineLog: Option<seq<LogRecord>>, userId: string, text: string, m: ZennoMessage, s: ZSession,
    o: TurnOracle, r: ZennoResponse)
  {
    && (engineLog.None? ==> (r.response, r.emotion, r.aiConfidence) == FallbackResponse(text, m.language))
    && (engineLog.Some? ==>
          && r.aiConfidence == 0.8
          && (r.response, r.emotion) == SmartReply(engineLog.value, text, userId,
                                                   EngineView(BuildCharacterConfig(m, s)), o))
  }

  /**
   * A turn on a counted session is the funnel step of its count: the count becomes
   * `StepCount`, the turn redirects exactly when `StepKind` is not normal, sends the semi
   * text exactly on the semi step, and is numbered one past the old count.
   */
  lemma TurnFollowsFunnel(
    sessions0: map<string, ZSession>, log0: seq<ZLog>, engineLog: Option<seq<LogRecord>>,
    sessions1: map<string, ZSession>, log1: seq<ZLog>,
    userId: string, text: string, m: ZennoMessage, s: ZSession, o: TurnOracle, r: ZennoResponse)
    requires s.messageCount.Some?
    requires TurnEffect(sessions0, log0, engineLog, sessions1, log1, userId, text, m, s, o, r)
    ensures var c := s.messageCount.value;
      && userId in sessions1 && sessions1[userId].messageCount == Some(StepCount(c, s.maxMessages))
      && (r.isRedirect <==> StepKind(c, s.maxMessages) != Normal)
      && (r.redirectType == Some(SemiRedirect) <==> StepKind(c, s.maxMessages) == Semi)
      && (r.redirectType == Some(LastRedirect) <==> StepKind(c, s.maxMessages) == Last)
      && r.messageNumber == c + 1
  {
    if s.messageCount.value >= s.maxMessages {
      RedirectFollowsFunnel(sessions0, log0, sessions1, log1, userId, text, s, r);
    } else {
      NormalFollowsFunnel(sessions0, log0, sessions1, log1, userId, text, s, r);
    }
  }

  /** The funnel facts of a redirect turn: the semi or the last step, with its count. */
  lemma RedirectFollowsFunnel(
    sessions0: map<string, ZSession>, log0: seq<ZLog>, sessions1: map<string, ZSession>, log1: seq<ZLog>,
    userId: string, text: string, s: ZSession, r: ZennoResponse)
    requires s.messageCount.Some? && s.messageCount.value >= s.maxMessages
    requires RedirectEffect(sessions0, log0, sessions1, log1, userId, text, s, r)
    ensures var c := s.messageCount.value;
      && userId in sessions1 && sessions1[userId].messageCount == Some(StepCount(c, s.maxMessages))
      && r.isRedirect && StepKind(c, s.maxMessages) != Normal
      && (r.redirectType == Some(SemiRedirect) <==> StepKind(c, s.maxMessages) == Semi)
      && (r.redirectType == Some(LastRedirect) <==> StepKind(c, s.maxMessages) == Last)
      && r.messageNumber == c + 1
  {
    var (s2, expected) := Redirect(userId, s);
    assert r == expected && sessions1 == sessions0[userId := s2];
  }

  /** The funnel facts of a normal turn: the normal step, one more message. */
  lemma NormalFollowsFunnel(
    sessions0: map<string, ZSession>, log0: seq<ZLog>, sessions1: map<string, ZSession>, log1: seq<ZLog>,
    userId: string, text: string, s: ZSession, r: ZennoResponse)
    requires s.messageCount.Some? && s.messageCount.value < s.maxMessages
    requires NormalEffect(sessions0, log0, sessions1, log1, userId, text, s, r)
    ensures var c := s.messageCount.value;
      && userId in sessions1 && sessions1[userId].messageCount == Some(StepCount(c, s.maxMessages))
      && !r.isRedirect && StepKind(c, s.maxMessages) == Normal && r.redirectType.None?
      && r.messageNumber == c + 1
  {
  }

  /** A record configured before the user's first message has no count. */
  lemma ConfiguredBeforeFirstTurn(sessions: map<string, ZSession>, userId: string, c: SessionConfig, m: ZennoMessage)
    requires userId !in sessions
    ensures SessionFor(sessions[userId := Configure(None, userId, c)], userId, m).messageCount.None?
  {
  }

  /** A turn on a record without a count is the error reply and leaves the record as it is,
      so the user's next turn, whatever its request, meets the same record. */
  lemma ErrorTurnKeepsRecord(
    sessions0: map<string, ZSession>, log0: seq<ZLog>, engineLog: Option<seq<LogRecord>>,
    sessions1: map<string, ZSession>, log1: seq<ZLog>,
    userId: string, text: string, m: ZennoMessage, o: TurnOracle, r: ZennoResponse, next: ZennoMessage)
    requires userId in sessions0 && sessions0[userId].messageCount.None?
    requires TurnEffect(sessions0, log0, engineLog, sessions1, log1, userId, text, m, sessions0[userId], o, r)
    ensures r == ErrorReply(userId) && log1 == log0
    ensures SessionFor(sessions1, userId, next) == sessions0[userId]
  {
  }

  // ---------------------------------------------------------------------------
  // The API object
  // ---------------------------------------------------------------------------

  class ZennoApi {
    /** `zenno_sessions`. */
    var sessions: map<string, ZSession>
    /** `zenno_conversations`, in insertion order. */
    var log: seq<ZLog>
    /** The reply engine, when it could be loaded. */
    const ai: AdvancedBot?

    ghost predicate Valid()
      reads this, ai
    {
      ai != null ==> ai.Valid()
    }

    constructor (engine: AdvancedBot?)
      requires engine != null ==> engine.Valid()
      ensures Valid() && ai == engine && sessions == map[] && log == []
    {
      ai := engine;
      sessions := map[];
      log := [];
    }

    /** `_get_or_create_session`. */
    method GetOrCreateSession(userId: string, m: ZennoMessage) returns (s: ZSession)
      modifies this
      ensures s == SessionFor(old(sessions), userId, m)
      ensures sessions == old(sessions)[userId := s] && log == old(log)
    {
      if userId in sessions {
        s := sessions[userId];
      } else {
        s := NewSession(userId, m);
        sessions := sessions[userId := s];
      }
    }

    /** `_update_session`: an update of an existing record only. */
    method UpdateSession(userId: string, s: ZSession)
      modifies this
      ensures sessions == if userId in old(sessions) then old(sessions)[userId := s] else old(sessions)
      ensures log == old(log)
    {
      if userId in sessions {
        sessions := sessions[userId := s];
      }
    }

    /** `_log_conversation`. */
    method LogConversation(userId: string, text: string, response: string, emotion: string, s: ZSession)
      requires s.messageCount.Some?
      modifies this
      ensures log == old(log) + [ZLog(userId, text, response, emotion, s.messageCount.value,
                                      s.stage.GetOr("unknown"), s.language)]
      ensures sessions == old(sessions)
    {
      log := log + [ZLog(userId, text, response, emotion, s.messageCount.value, s.stage.GetOr("unknown"), s.language)];
    }

    /** `_handle_redirect`. */
    method HandleRedirect(userId: string, s: ZSession, text: string) returns (r: ZennoResponse)
      requires s.messageCount.Some? && s.messageCount.value >= s.maxMessages
      requires userId in sessions && sessions[userId] == s
      modifies this
      ensures var (s2, expected) := Redirect(userId, s);
        && r == expected
        && sessions == old(sessions)[userId := s2]
        && log == old(log) + [ZLog(userId, text, r.response, "redirect", s2.messageCount.value,
                                   s2.stage.GetOr("unknown"), s2.language)]
    {
      var count := s.messageCount.value;
      var current := s;
      var response: string;
      var kind: RedirectType;
      if count == s.maxMessages {
        response := s.semiMessage;
        kind := SemiRedirect;
        current := s.(messageCount := Some(count + 1));
        UpdateSession(userId, current);
      } else {
        response := s.lastMessage;
        kind := LastRedirect;
        assert sessions == old(sessions)[userId := s];
      }
      LogConversation(userId, text, response, "redirect", current);
      r := ZennoResponse(response, userId, count + 1, "redirect", true, Some(kind), 1.0);
    }

    /** The answering half of `process_message`: a turn below the maximum. */
    method AnswerTurn(userId: string, text: string, m: ZennoMessage, s: ZSession, o: TurnOracle)
      returns (r: ZennoResponse)
      requires Valid()
      requires s.messageCount.Some? && s.messageCount.value < s.maxMessages
      requires userId in sessions && sessions[userId] == s
      modifies this, ai
      ensures Valid()
      ensures ai != null ==> ai.knowledge == old(ai.knowledge) && ai.learnedBackup == old(ai.learnedBackup)
      ensures r.userId == userId && !r.isRedirect && r.redirectType.None?
      ensures r.messageNumber == s.messageCount.value + 1
      ensures sessions == old(sessions)[userId := NormalUpdate(s, text, r.response, r.emotion)]
      ensures log == old(log) + [ZLog(userId, text, r.response, r.emotion, r.messageNumber,
                                      s.stage.GetOr("unknown"), s.language)]
      ensures ai == null ==> (r.response, r.emotion, r.aiConfidence) == FallbackResponse(text, m.language)
      ensures ai != null ==>
        && r.aiConfidence == 0.8
        && (r.response, r.emotion) == SmartReply(old(ai.conversations), text, userId,
                                                 EngineView(BuildCharacterConfig(m, s)), o)
        && TurnMemory(old(ai.conversations), old(ai.contexts), ai.conversations, ai.contexts,
                      userId, text, r.response, r.emotion, o)
    {
      var config := BuildCharacterConfig(m, s);
      var response: string;
      var emotion: string;
      var confidence: real;
      if ai != null {
        response, emotion := ai.GetSmartResponse(text, userId, EngineView(config), o);
        confidence := 0.8;
      } else {
        var fallback := FallbackResponse(text, config.language);
        response, emotion, confidence := fallback.0, fallback.1, fallback.2;
      }
      var updated := NormalUpdate(s, text, response, emotion);
      UpdateSession(userId, updated);
      LogConversation(userId, text, response, emotion, updated);
      r := ZennoResponse(response, userId, s.messageCount.value + 1, emotion, false, None, confidence);
    }

    /** What a turn does once its session is in the store: the error reply for a record
        without a count, a redirect at the maximum, an answer below it. */
    method Dispatch(userId: string, text: string, m: ZennoMessage, s: ZSession, o: TurnOracle)
      returns (r: ZennoResponse)
      requires Valid()
      requires userId in sessions && sessions[userId] == s
      modifies this, ai
      ensures Valid()
      ensures ai != null ==> ai.knowledge == old(ai.knowledge) && ai.learnedBackup == old(ai.learnedBackup)
      ensures r.userId == userId
      ensures TurnEffect(old(sessions), old(log), old(if ai == null then None else Some(ai.conversations)),
                         sessions, log, userId, text, m, s, o, r)
      ensures ai != null ==>
        if s.messageCount.Some? && s.messageCount.value < s.maxMessages
        then TurnMemory(old(ai.conversations), old(ai.contexts), ai.conversations, ai.contexts,
                        userId, text, r.response, r.emotion, o)
        else ai.conversations == old(ai.conversations) && ai.contexts == old(ai.contexts)
    {
      if s.messageCount.None? {
        r := ErrorReply(userId);
        return;
      }
      if s.messageCount.value >= s.maxMessages {
        r := HandleRedirect(userId, s, text);
        return;
      }
      r := AnswerTurn(userId, text, m, s, o);
    }

    /** `process_message`: parse, find the session, redirect or answer, record the turn. */
    method ProcessMessage(m: ZennoMessage, stamp: string, o: TurnOracle) returns (r: ZennoResponse)
      requires Valid()
      modifies this, ai
      ensures Valid()
      ensures ai != null ==> ai.knowledge == old(ai.knowledge) && ai.learnedBackup == old(ai.learnedBackup)
      ensures var (userId, text) := ZParse(m.message, stamp);
        var s := SessionFor(old(sessions), userId, m);
        && r.userId == userId
        && TurnEffect(old(sessions)[userId := s], old(log),
                      old(if ai == null then None else Some(ai.conversations)),
                      sessions, log, userId, text, m, s, o, r)
        && (ai != null ==>
              if s.messageCount.Some? && s.messageCount.value < s.maxMessages
              then TurnMemory(old(ai.conversations), old(ai.contexts), ai.conversations, ai.contexts,
                              userId, text, r.response, r.emotion, o)
              else ai.conversations == old(ai.conversations) && ai.contexts == old(ai.contexts))
    {
      var (userId, text) := ZParse(m.message, stamp);
      var s := GetOrCreateSession(userId, m);
      r := Dispatch(userId, text, m, s, o);
    }

    /** `configure_session`: the upsert of the configurable fields. */
    method ConfigureSession(userId: string, c: SessionConfig)
      modifies this
      ensures sessions == old(sessions)[userId := Configure(if userId in old(sessions) then Some(old(sessions)[userId]) else None, userId, c)]
      ensures log == old(log)
    {
      var existing := if userId in sessions then Some(sessions[userId]) else None;
      sessions := sessions[userId := Configure(existing, userId, c)];
    }

    /** `reset_session`: the user's session document and conversation entries deleted. */
    method ResetSession(userId: string)
      modifies this
      ensures sessions == ResetUser(old(sessions), userId)
      ensures log == DropUser(old(log), userId)
    {
      sessions := ResetUser(sessions, userId);
      log := DropUser(log, userId);
    }
  }
}
