/**
 * The retrieval-augmented reply engine (`AdvancedAISextBot`): message
 * normalisation, keyword emotion detection, post-processing of the similarity
 * search, the conversation-context view, the priority cascade that picks a
 * reply, the canned generators, personalisation, the per-user in-memory
 * cache, and the two ways new knowledge is appended.
 *
 * The embedding model and the vector index are outside the model: a similarity
 * query arrives as its ranked result (or a failure), and every random draw
 * arrives as a parameter (`pick` for `random.choice`, `coin` for
 * `random.random() < 0.3`).
 */
module AdvancedAi {
  import opened Common
  import opened Text

  // ---------------------------------------------------------------------------
  // Emotions and the keyword table
  // ---------------------------------------------------------------------------

  datatype Emotion = Flirty | Romantic | Playful | Seductive | Intimate | Neutral

  /** The label as the engine reports and stores it. */
  function EmotionName(e: Emotion): string {
    match e
    case Flirty => "flirty"
    case Romantic => "romantic"
    case Playful => "playful"
    case Seductive => "seductive"
    case Intimate => "intimate"
    case Neutral => "neutral"
  }

  /** The names of the six labels. */
  const EmotionLabels: set<string> := {"flirty", "romantic", "playful", "seductive", "intimate", "neutral"}

  /** Every emotion is reported under one of the six names, and no two share a name. */
  lemma EmotionNameIsLabel(e: Emotion)
    ensures EmotionName(e) in EmotionLabels
    ensures forall d: Emotion :: EmotionName(d) == EmotionName(e) ==> d == e
  {
  }

  const FlirtyWords: seq<string> :=
    ["красивый", "сексуальный", "привлекательный", "милый", "handsome", "sexy", "attractive", "cute"]
  const RomanticWords: seq<string> :=
    ["любовь", "сердце", "романтика", "love", "heart", "romance", "romantic"]
  const PlayfulWords: seq<string> :=
    ["игра", "шутка", "веселье", "play", "joke", "fun", "playful"]
  const SeductiveWords: seq<string> :=
    ["хочу", "желаю", "страсть", "want", "desire", "passion", "seductive"]
  const IntimateWords: seq<string> :=
    ["близость", "объятия", "поцелуи", "intimacy", "hug", "kiss", "close"]

  /** `emotion_keywords`, in the dictionary's iteration order. */
  const EmotionKeywords: seq<(Emotion, seq<string>)> := [
    (Flirty, FlirtyWords),
    (Romantic, RomanticWords),
    (Playful, PlayfulWords),
    (Seductive, SeductiveWords),
    (Intimate, IntimateWords)
  ]

  /** The label of the first row of `table` that has a keyword occurring in `message`. */
  function FirstMatching(table: seq<(Emotion, seq<string>)>, message: string): Emotion
    decreases |table|
  {
    if table == [] then Neutral
    else if AnyIn(table[0].1, message) then table[0].0
    else FirstMatching(table[1..], message)
  }

  /** `_detect_emotion`: the first label of the table with a matching keyword, else neutral. */
  function DetectEmotion(message: string): Emotion {
    FirstMatching(EmotionKeywords, message)
  }

  /** The scan of the table returns the label of the first row that matches. */
  lemma {:induction false} FirstMatchingIsFirstRow(table: seq<(Emotion, seq<string>)>, message: string, i: nat)
    requires i < |table| && AnyIn(table[i].1, message)
    requires forall j :: 0 <= j < i ==> !AnyIn(table[j].1, message)
    ensures FirstMatching(table, message) == table[i].0
    decreases i
  {
    if i > 0 {
      FirstMatchingIsFirstRow(table[1..], message, i - 1);
    }
  }

  /** When no row matches, the scan returns neutral. */
  lemma {:induction false} FirstMatchingNoRow(table: seq<(Emotion, seq<string>)>, message: string)
    requires forall j :: 0 <= j < |table| ==> !AnyIn(table[j].1, message)
    ensures FirstMatching(table, message) == Neutral
    decreases |table|
  {
    if table != [] {
      FirstMatchingNoRow(table[1..], message);
    }
  }

  /**
   * The classifier, label by label: each label is returned exactly when one of its
   * keywords occurs and no keyword of an earlier label does; neutral exactly when
   * no keyword occurs at all.
   */
  lemma DetectEmotionSpec(m: string)
    ensures DetectEmotion(m) == Flirty <==> AnyIn(FlirtyWords, m)
    ensures DetectEmotion(m) == Romantic <==> !AnyIn(FlirtyWords, m) && AnyIn(RomanticWords, m)
    ensures DetectEmotion(m) == Playful <==>
      !AnyIn(FlirtyWords, m) && !AnyIn(RomanticWords, m) && AnyIn(PlayfulWords, m)
    ensures DetectEmotion(m) == Seductive <==>
      !AnyIn(FlirtyWords, m) && !AnyIn(RomanticWords, m) && !AnyIn(PlayfulWords, m)
      && AnyIn(SeductiveWords, m)
    ensures DetectEmotion(m) == Intimate <==>
      !AnyIn(FlirtyWords, m) && !AnyIn(RomanticWords, m) && !AnyIn(PlayfulWords, m)
      && !AnyIn(SeductiveWords, m) && AnyIn(IntimateWords, m)
    ensures DetectEmotion(m) == Neutral <==>
      !AnyIn(FlirtyWords, m) && !AnyIn(RomanticWords, m) && !AnyIn(PlayfulWords, m)
      && !AnyIn(SeductiveWords, m) && !AnyIn(IntimateWords, m)
  {
    var t := EmotionKeywords;
    if AnyIn(FlirtyWords, m) {
      FirstMatchingIsFirstRow(t, m, 0);
    } else if AnyIn(RomanticWords, m) {
      FirstMatchingIsFirstRow(t, m, 1);
    } else if AnyIn(PlayfulWords, m) {
      FirstMatchingIsFirstRow(t, m, 2);
    } else if AnyIn(SeductiveWords, m) {
      FirstMatchingIsFirstRow(t, m, 3);
    } else if AnyIn(IntimateWords, m) {
      FirstMatchingIsFirstRow(t, m, 4);
    } else {
      FirstMatchingNoRow(t, m);
    }
  }

  // ---------------------------------------------------------------------------
  // Message normalisation (`_clean_message`)
  // ---------------------------------------------------------------------------

  /** First step: `re.sub(r'\s+', ' ', message.strip().lower())`. */
  function NormalizeSpacing(message: string): (r: string)
    ensures IsLower(r) && SingleSpaced(r)
    ensures r != [] ==> !IsSpace(r[0]) && !IsSpace(r[|r| - 1])
  {
    var stripped := Strip(message);
    var t := Lower(stripped);
    LowerShape(stripped);
    CollapseSpacesShape(t);
    CollapseSpacesKeepsLower(t);
    CollapseSpaces(t)
  }

  /** Second step on top of the first: drop every character outside `\w`, `\s` and `? ! . , -`. */
  function CleanMessage(message: string): (r: string)
    ensures forall i :: 0 <= i < |r| ==> IsEssential(r[i]) && IsLowerChar(r[i])
  {
    var spaced := NormalizeSpacing(message);
    var r := KeepEssential(spaced);
    KeepEssentialSpec(spaced);
    assert forall i :: 0 <= i < |r| ==> r[i] in spaced;
    r
  }

  /** Cleaning is the character filter applied to the first step's result. */
  lemma CleanMessageIsFilter(message: string)
    ensures CleanMessage(message) == KeepEssential(NormalizeSpacing(message))
  {
  }

  /** Cleaning keeps every character the first step produced that is essential. */
  lemma CleanMessageKeepsEssential(message: string, j: nat)
    requires j < |NormalizeSpacing(message)| && IsEssential(NormalizeSpacing(message)[j])
    ensures NormalizeSpacing(message)[j] in CleanMessage(message)
  {
    KeepEssentialSpec(NormalizeSpacing(message));
  }

  /** A stripped message whose lower-case form is single-spaced only gets lower-cased by the first step. */
  lemma NormalizeSpacingOfTidy(message: string)
    requires message != [] && !IsSpace(message[0]) && !IsSpace(message[|message| - 1])
    requires SingleSpaced(Lower(message))
    ensures NormalizeSpacing(message) == Lower(message)
  {
    StripKeepsStripped(message);
    CollapseSpacesKeepsSingleSpaced(Lower(message));
  }

  /** The wink decoration that personalisation may add. */
  const Wink: string := " \U{1F609}"

  /** A stripped message whose lower-case form is single-spaced and made of essential
      characters is cleaned to its lower-case form. */
  lemma CleanMessageOfTidy(message: string)
    requires message != [] && !IsSpace(message[0]) && !IsSpace(message[|message| - 1])
    requires SingleSpaced(Lower(message))
    requires forall i :: 0 <= i < |message| ==> IsEssential(Lower(message)[i])
    ensures CleanMessage(message) == Lower(message)
  {
    NormalizeSpacingOfTidy(message);
    KeepEssentialSpec(Lower(message));
  }

  /** The filter on the message "a", wink, " b": the emoji goes, both blanks stay. */
  lemma DropsWinkBetweenBlanks()
    ensures KeepEssential("a" + Wink + " b") == "a  b"
  {
    var s1 := " b";
    assert KeepEssential(s1) == s1;
    KeepEssentialCons('\U{1F609}', s1);
    var s2 := ['\U{1F609}'] + s1;
    KeepEssentialCons(' ', s2);
    var s3 := [' '] + s2;
    KeepEssentialCons('a', s3);
    assert "a" + Wink + " b" == ['a'] + s3;
  }

  /**
   * The second step can undo the first: dropping a symbol between two blanks leaves
   * two blanks side by side, so the cleaned text is not always single-spaced.
   */
  lemma CleanMessageCanLeaveDoubleBlank()
    ensures !SingleSpaced(CleanMessage("a" + Wink + " b"))
  {
    var m := "a" + Wink + " b";
    WinkMessageTidy();
    LowerKeepsLower(m);
    NormalizeSpacingOfTidy(m);
    CleanMessageIsFilter(m);
    DropsWinkBetweenBlanks();
    var r := CleanMessage(m);
    assert r == "a  b";
    assert r[1] == ' ' && r[2] == ' ';
  }

  /** The message "a", wink, " b" is lower-case, single-spaced and stripped. */
  lemma WinkMessageTidy()
    ensures var m := "a" + Wink + " b";
      IsLower(m) && SingleSpaced(m) && m != [] && !IsSpace(m[0]) && !IsSpace(m[|m| - 1])
  {
    var m := "a" + Wink + " b";
    assert m == ['a', ' ', '\U{1F609}', ' ', 'b'];
    assert !IsSpace('a') && !IsSpace('\U{1F609}') && !IsSpace('b');
  }

  lemma WantYouLowered()
    ensures Lower("Хочу тебя") == "хочу тебя"
  {
  }

  /** A lower-case Cyrillic letter is a word character and not whitespace. */
  lemma CyrillicLetter(c: char)
    requires '\U{430}' <= c <= '\U{44f}'
    ensures IsEssential(c) && !IsSpace(c)
  {
  }

  lemma WantYouTidy()
    ensures var s := "хочу тебя";
      SingleSpaced(s) && forall i :: 0 <= i < |s| ==> IsEssential(s[i])
  {
    var s := "хочу тебя";
    assert |s| == 9 && s[4] == ' ';
    forall i | 0 <= i < |s| && i != 4 ensures IsEssential(s[i]) && !IsSpace(s[i]) {
      assert '\U{430}' <= s[i] <= '\U{44f}';
      CyrillicLetter(s[i]);
    }
  }

  /** The example message "Хочу тебя" cleans to its lower-case form. */
  lemma WantYouCleaned()
    ensures CleanMessage("Хочу тебя") == "хочу тебя"
  {
    WantYouLowered();
    WantYouTidy();
    var m := "Хочу тебя";
    assert !IsSpace(m[0]) && !IsSpace(m[|m| - 1]);
    CleanMessageOfTidy(m);
  }

  /** No flirty, romantic or playful keyword starts with a letter of "хочу тебя". */
  lemma WantYouHasNoEarlierKeyword()
    ensures var s := "хочу тебя";
      !AnyIn(FlirtyWords, s) && !AnyIn(RomanticWords, s) && !AnyIn(PlayfulWords, s)
  {
    NoKeywordStartsIn(FlirtyWords, "хочу тебя");
    WantYouNotRomantic();
    WantYouNotPlayful();
  }

  lemma WantYouNotRomantic()
    ensures !AnyIn(RomanticWords, "хочу тебя")
  {
    NoKeywordStartsIn(RomanticWords, "хочу тебя");
  }

  lemma WantYouNotPlayful()
    ensures !AnyIn(PlayfulWords, "хочу тебя")
  {
    NoKeywordStartsIn(PlayfulWords, "хочу тебя");
  }

  /** A text holds none of the words when none of the words' first letters occurs in it. */
  lemma NoKeywordStartsIn(words: seq<string>, s: string)
    requires forall k :: 0 <= k < |words| ==> words[k] != [] && words[k][0] !in s
    ensures !AnyIn(words, s)
  {
    forall k | 0 <= k < |words| ensures !Contains(s, words[k]) {
      ContainsNeedsFirstChar(s, words[k]);
    }
  }

  /** "хочу" is the first keyword the cleaned message contains, so it is classified seductive. */
  lemma WantYouIsSeductive()
    ensures DetectEmotion(CleanMessage("Хочу тебя")) == Seductive
  {
    WantYouCleaned();
    WantYouDetected();
  }

  /** The cleaned form "хочу тебя" starts with the first seductive keyword. */
  lemma WantYouDetected()
    ensures DetectEmotion("хочу тебя") == Seductive
  {
    var s := "хочу тебя";
    WantYouHasNoEarlierKeyword();
    ContainsPrefix(s, SeductiveWords[0]);
    assert AnyIn(EmotionKeywords[3].1, s);
    FirstMatchingIsFirstRow(EmotionKeywords, s, 3);
  }

  // ---------------------------------------------------------------------------
  // Similarity search post-processing (`_search_similar`)
  // ---------------------------------------------------------------------------

  /** One entry the vector index returned, with its metadata and its distance. */
  datatype Candidate = Candidate(document: string, response: string, emotion: string, lang: string, distance: real)

  /** The index's answer to one query: entries nearest first; `hasDistances` is
      whether the answer carried a `distances` field. */
  datatype QueryResult = QueryResult(ranked: seq<Candidate>, hasDistances: bool)

  /** A similar exchange as the cascade sees it. */
  datatype Hit = Hit(text: string, response: string, emotion: string, similarity: real)

  /** The number of results asked of the index (`n_results`). */
  const TopK: nat := 5

  /** The `where={"lang": lang}` restriction of the query: only candidates of the language
      (`InLanguageMembers` shows that it keeps every one of them). */
  function InLanguage(cs: seq<Candidate>, lang: string): (r: seq<Candidate>)
    ensures |r| <= |cs|
    ensures forall i :: 0 <= i < |r| ==> r[i].lang == lang
    decreases |cs|
  {
    if cs == [] then []
    else
      var rest := InLanguage(cs[1..], lang);
      if cs[0].lang == lang then [cs[0]] + rest else rest
  }

  /** A candidate survives the restriction exactly when it was ranked and has the language. */
  lemma {:induction false} InLanguageMembers(cs: seq<Candidate>, lang: string)
    ensures forall c :: c in InLanguage(cs, lang) <==> c in cs && c.lang == lang
    decreases |cs|
  {
    if cs != [] {
      InLanguageMembers(cs[1..], lang);
      assert cs == [cs[0]] + cs[1..];
    }
  }

  /** The restriction keeps the index's order: it works segment by segment. */
  lemma {:induction false} InLanguageKeepsOrder(a: seq<Candidate>, b: seq<Candidate>, lang: string)
    ensures InLanguage(a + b, lang) == InLanguage(a, lang) + InLanguage(b, lang)
    decreases |a|
  {
    if a == [] {
      assert a + b == b;
    } else {
      var head := if a[0].lang == lang then [a[0]] else [];
      calc {
        InLanguage(a + b, lang);
        { assert (a + b)[0] == a[0] && (a + b)[1..] == a[1..] + b; }
        head + InLanguage(a[1..] + b, lang);
        { InLanguageKeepsOrder(a[1..], b, lang); }
        head + (InLanguage(a[1..], lang) + InLanguage(b, lang));
        (head + InLanguage(a[1..], lang)) + InLanguage(b, lang);
        InLanguage(a, lang) + InLanguage(b, lang);
      }
    }
  }

  /** A ranking that holds only the language's candidates passes unchanged. */
  lemma {:induction false} InLanguageOfOneLanguage(cs: seq<Candidate>, lang: string)
    requires forall i :: 0 <= i < |cs| ==> cs[i].lang == lang
    ensures InLanguage(cs, lang) == cs
    decreases |cs|
  {
    if cs != [] {
      InLanguageOfOneLanguage(cs[1..], lang);
    }
  }

  function ToHit(c: Candidate, hasDistances: bool): Hit {
    Hit(c.document, c.response, c.emotion, if hasDistances then 1.0 - c.distance else 1.0)
  }

  /**
   * `_search_similar`: at most five hits, the nearest entries of the requested language in
   * the index's order, each with similarity 1 - distance; no hits when the query failed.
   */
  function SearchSimilar(query: Result<QueryResult>, lang: string): (hits: seq<Hit>)
    ensures |hits| <= TopK
    ensures query.Failure? ==> hits == []
    ensures query.Success? ==>
      var kept := InLanguage(query.value.ranked, lang);
      && |hits| == (if |kept| < TopK then |kept| else TopK)
      && forall i :: 0 <= i < |hits| ==>
           && kept[i].lang == lang
           && hits[i].text == kept[i].document
           && hits[i].response == kept[i].response
           && hits[i].similarity == (if query.value.hasDistances then 1.0 - kept[i].distance else 1.0)
  {
    match query
    case Failure => []
    case Success(q) =>
      var kept := InLanguage(q.ranked, lang);
      var n := if |kept| < TopK then |kept| else TopK;
      seq(n, i requires 0 <= i < n => ToHit(kept[i], q.hasDistances))
  }

  // ---------------------------------------------------------------------------
  // Conversation context (`_get_conversation_context`)
  // ---------------------------------------------------------------------------

  datatype Stage = Beginning | Developing | Advanced
  datatype Topic = Meeting | Photos | Video

  /** One exchange of the `conversations` log, with the fields the engine reads or sets. */
  datatype LogRecord = LogRecord(
    userId: string,
    userMessage: Option<string>,
    botResponse: string,
    emotion: Option<string>,
    aiConfidence: Option<real>)

  datatype Context = Context(recentTopics: seq<Topic>, emotionHistory: seq<string>, stage: Stage)

  /** The context when nothing is known (and when the log could not be read). */
  const EmptyContext: Context := Context([], [], Beginning)

  /** How many records the context looks at. */
  const Lookback: nat := 5

  /** The user's records, newest first (the log is kept in arrival order); only the user's
      (`NewestFirstMembers` shows that all of them are there). */
  function NewestFirst(log: seq<LogRecord>, userId: string): (r: seq<LogRecord>)
    ensures |r| <= |log|
    ensures forall i :: 0 <= i < |r| ==> r[i].userId == userId
    decreases |log|
  {
    if log == [] then []
    else
      var last := log[|log| - 1];
      var rest := NewestFirst(log[..|log| - 1], userId);
      (if last.userId == userId then [last] else []) + rest
  }

  /** A record is fetched for the user exactly when it is one of the user's logged records. */
  lemma {:induction false} NewestFirstMembers(log: seq<LogRecord>, userId: string)
    ensures forall x :: x in NewestFirst(log, userId) <==> x in log && x.userId == userId
    decreases |log|
  {
    if log != [] {
      NewestFirstMembers(log[..|log| - 1], userId);
      assert log == log[..|log| - 1] + [log[|log| - 1]];
    }
  }

  /** A record appended to the log comes first if it is the user's. */
  lemma NewestFirstSnoc(log: seq<LogRecord>, x: LogRecord, userId: string)
    ensures NewestFirst(log + [x], userId) == (if x.userId == userId then [x] else []) + NewestFirst(log, userId)
  {
    var l := log + [x];
    assert l[|l| - 1] == x && l[..|l| - 1] == log;
  }

  /** The later part of the log comes first, each part newest first. */
  lemma {:induction false} NewestFirstReverses(a: seq<LogRecord>, b: seq<LogRecord>, userId: string)
    ensures NewestFirst(a + b, userId) == NewestFirst(b, userId) + NewestFirst(a, userId)
    decreases |b|
  {
    if b == [] {
      assert a + b == a;
    } else {
      var front := b[..|b| - 1];
      var last := b[|b| - 1];
      var head := if last.userId == userId then [last] else [];
      calc {
        NewestFirst(a + b, userId);
        { assert a + b == (a + front) + [last]; NewestFirstSnoc(a + front, last, userId); }
        head + NewestFirst(a + front, userId);
        { NewestFirstReverses(a, front, userId); }
        head + (NewestFirst(front, userId) + NewestFirst(a, userId));
        (head + NewestFirst(front, userId)) + NewestFirst(a, userId);
        { assert b == front + [last]; NewestFirstSnoc(front, last, userId); }
        NewestFirst(b, userId) + NewestFirst(a, userId);
      }
    }
  }

  /** `find({"user_id": ...}).sort("timestamp", -1).limit(5)`: the user's five newest
      records (all of them when there are fewer), newest first. */
  function RecentRecords(log: seq<LogRecord>, userId: string): (r: seq<LogRecord>)
    ensures var all := NewestFirst(log, userId);
      && |r| == (if |all| <= Lookback then |all| else Lookback)
      && r == all[..|r|]
  {
    var all := NewestFirst(log, userId);
    if |all| <= Lookback then all else all[..Lookback]
  }

  /** A new record of the user becomes the first of the five and pushes the oldest out; a
      record of another user changes nothing. */
  lemma RecentRecordsAfterAppend(log: seq<LogRecord>, x: LogRecord, userId: string)
    ensures x.userId == userId ==>
      var before := [x] + RecentRecords(log, userId);
      RecentRecords(log + [x], userId) == before[..if |before| <= Lookback then |before| else Lookback]
    ensures x.userId != userId ==> RecentRecords(log + [x], userId) == RecentRecords(log, userId)
  {
    var all := NewestFirst(log, userId);
    if x.userId == userId {
      var recent := RecentRecords(log, userId);
      var n := if |all| + 1 <= Lookback then |all| + 1 else Lookback;
      assert RecentRecords(log + [x], userId) == ([x] + all)[..n] by {
        NewestFirstSnoc(log, x, userId);
      }
      assert ([x] + all)[..n] == ([x] + recent)[..n] by {
        assert recent == all[..|recent|] && n <= |recent| + 1;
      }
    } else {
      assert NewestFirst(log + [x], userId) == all by {
        NewestFirstSnoc(log, x, userId);
      }
    }
  }

  /** The topic one record contributes, if any; meeting wins over photos, photos over video. */
  function TopicOf(r: LogRecord): Option<Topic> {
    var m := Lower(r.userMessage.GetOr(""));
    if Contains(m, "встреч") || Contains(m, "meet") then Some(Meeting)
    else if Contains(m, "фото") || Contains(m, "photo") then Some(Photos)
    else if Contains(m, "видео") || Contains(m, "video") then Some(Video)
    else None
  }

  /** The topics of `rs`, in record order, one at most per record. */
  function TopicsOf(rs: seq<LogRecord>): seq<Topic>
    decreases |rs|
  {
    if rs == [] then []
    else
      var t := TopicOf(rs[|rs| - 1]);
      TopicsOf(rs[..|rs| - 1]) + (if t.Some? then [t.value] else [])
  }

  /** The stored emotions of `rs`, in record order, skipping records without one. */
  function EmotionsOf(rs: seq<LogRecord>): seq<string>
    decreases |rs|
  {
    if rs == [] then []
    else
      var e := rs[|rs| - 1].emotion;
      EmotionsOf(rs[..|rs| - 1]) + (if e.Some? then [e.value] else [])
  }

  function StageOf(n: nat): Stage {
    if n > 3 then Advanced else if n > 1 then Developing else Beginning
  }

  /** The context the fetched records describe. */
  function ContextOf(recent: seq<LogRecord>): Context {
    Context(TopicsOf(recent), EmotionsOf(recent), StageOf(|recent|))
  }

  /** Each record contributes at most one topic and at most one emotion. */
  lemma {:induction false} AtMostOnePerRecord(rs: seq<LogRecord>)
    ensures |TopicsOf(rs)| <= |rs| && |EmotionsOf(rs)| <= |rs|
    decreases |rs|
  {
    if rs != [] {
      AtMostOnePerRecord(rs[..|rs| - 1]);
    }
  }

  /** Every topic that is reported comes from one of the records. */
  lemma {:induction false} TopicsComeFromRecords(rs: seq<LogRecord>, t: Topic)
    requires t in TopicsOf(rs)
    ensures exists i :: 0 <= i < |rs| && TopicOf(rs[i]) == Some(t)
    decreases |rs|
  {
    var last := rs[|rs| - 1];
    var front := rs[..|rs| - 1];
    if t in TopicsOf(front) {
      TopicsComeFromRecords(front, t);
      var i :| 0 <= i < |front| && TopicOf(front[i]) == Some(t);
      assert rs[i] == front[i];
    } else {
      assert TopicOf(rs[|rs| - 1]) == Some(t);
    }
  }

  // ---------------------------------------------------------------------------
  // Character configuration and the generators
  // ---------------------------------------------------------------------------

  /** The keys of the character configuration this engine reads; each may be absent. */
  datatype AiConfig = AiConfig(name: Option<string>, mood: Option<string>, language: Option<string>)

  function Lang(c: AiConfig): string { c.language.GetOr("ru") }
  function Mood(c: AiConfig): string { c.mood.GetOr("игривое") }
  function NameFor(c: AiConfig): string { c.name.GetOr(if Lang(c) == "ru" then "Анна" else "Anna") }

  function SeductiveReplies(lang: string, name: string): (xs: seq<string>)
    ensures |xs| == 5
  {
    if lang == "ru" then [
      "Мм, " + name + " становится возбужденной от твоих слов...",
      "Ты заставляешь меня краснеть, дорогой",
      "Я думаю о тебе в самые интимные моменты",
      "Хочешь узнать, о чем я мечтаю по ночам?",
      "Твои слова зажигают во мне огонь страсти"]
    else [
      "Mmm, " + name + " gets excited from your words...",
      "You make me blush, darling",
      "I think about you in the most intimate moments",
      "Want to know what I dream about at night?",
      "Your words ignite the fire of passion in me"]
  }

  function RomanticReplies(lang: string): (xs: seq<string>)
    ensures |xs| == 5
  {
    if lang == "ru" then [
      "Ты такой романтичный... это так привлекательно в мужчине",
      "Мое сердце бьется быстрее когда я читаю твои сообщения",
      "Ты особенный, не такой как все остальные",
      "Мне нравится как ты со мной разговариваешь",
      "Ты заставляешь меня чувствовать себя особенной"]
    else [
      "You're so romantic... it's so attractive in a man",
      "My heart beats faster when I read your messages",
      "You're special, not like all the others",
      "I like how you talk to me",
      "You make me feel special"]
  }

  function FlirtyReplies(lang: string): (xs: seq<string>)
    ensures |xs| == 5
  {
    if lang == "ru" then [
      "Ты такой очаровательный, не могу устоять",
      "Умеешь ли ты флиртовать или это у тебя природный талант?",
      "Мне нравится твоя уверенность",
      "Ты заставляешь меня улыбаться",
      "Какой ты интересный собеседник"]
    else [
      "You're so charming, I can't resist",
      "Do you know how to flirt or is this your natural talent?",
      "I like your confidence",
      "You make me smile",
      "What an interesting conversationalist you are"]
  }

  const AdvancedStageRu: seq<string> := [
    "Наши разговоры становятся все более интимными...",
    "Мне нравится как развиваются наши отношения",
    "Ты уже знаешь, как меня завести",
    "Каждый раз ты удивляешь меня все больше"]
  const AdvancedStageEn: seq<string> := [
    "Our conversations are getting more intimate...",
    "I like how our relationship is developing",
    "You already know how to turn me on",
    "Each time you surprise me more and more"]
  const EarlyStageRu: seq<string> := [
    "Расскажи мне о себе больше, ты такой интересный",
    "Мне нравится с тобой общаться",
    "Ты кажешься очень интересным человеком",
    "Что тебе нравится делать в свободное время?"]
  const EarlyStageEn: seq<string> := [
    "Tell me more about yourself, you're so interesting",
    "I like talking with you",
    "You seem like a very interesting person",
    "What do you like to do in your free time?"]

  function AdvancedStageReplies(lang: string): (xs: seq<string>)
    ensures |xs| == 4
  {
    if lang == "ru" then AdvancedStageRu else AdvancedStageEn
  }

  function EarlyStageReplies(lang: string): (xs: seq<string>)
    ensures |xs| == 4
  {
    if lang == "ru" then EarlyStageRu else EarlyStageEn
  }

  function FallbackReplies(lang: string): (xs: seq<string>)
    ensures |xs| == 5
  {
    if lang == "ru" then [
      "Интересно... расскажи мне больше об этом",
      "Ты всегда знаешь, что сказать",
      "Мне нравится наш разговор",
      "Ты заставляешь меня думать",
      "Какой ты загадочный"]
    else [
      "Interesting... tell me more about this",
      "You always know what to say",
      "I like our conversation",
      "You make me think",
      "How mysterious you are"]
  }

  /** The list the dynamic generator draws from: the advanced list only at the advanced stage. */
  function DynamicReplies(lang: string, stage: Stage): (xs: seq<string>)
    ensures |xs| == 4
  {
    if stage == Advanced then AdvancedStageReplies(lang) else EarlyStageReplies(lang)
  }

  /** `_generate_seductive_response`. */
  function GenerateSeductive(config: AiConfig, pick: nat): (r: string)
    ensures r in SeductiveReplies(Lang(config), NameFor(config))
  {
    Choose(SeductiveReplies(Lang(config), NameFor(config)), pick)
  }

  /** `_generate_romantic_response`. */
  function GenerateRomantic(config: AiConfig, pick: nat): (r: string)
    ensures r in RomanticReplies(Lang(config))
  {
    Choose(RomanticReplies(Lang(config)), pick)
  }

  /** `_generate_flirty_response`. */
  function GenerateFlirty(config: AiConfig, pick: nat): (r: string)
    ensures r in FlirtyReplies(Lang(config))
  {
    Choose(FlirtyReplies(Lang(config)), pick)
  }

  /** `_generate_dynamic_response`. */
  function GenerateDynamic(config: AiConfig, stage: Stage, pick: nat): (r: string)
    ensures r in DynamicReplies(Lang(config), stage)
  {
    Choose(DynamicReplies(Lang(config), stage), pick)
  }

  /** `_get_fallback_response`. */
  function GetFallbackResponse(config: AiConfig, pick: nat): (r: string)
    ensures r in FallbackReplies(Lang(config))
  {
    Choose(FallbackReplies(Lang(config)), pick)
  }

  /** Every language but "ru" is served the English lists. */
  lemma NonRussianUsesEnglish(lang: string, name: string, stage: Stage)
    requires lang != "ru"
    ensures SeductiveReplies(lang, name) == SeductiveReplies("en", name)
    ensures RomanticReplies(lang) == RomanticReplies("en")
    ensures FlirtyReplies(lang) == FlirtyReplies("en")
    ensures DynamicReplies(lang, stage) == DynamicReplies("en", stage)
    ensures FallbackReplies(lang) == FallbackReplies("en")
  {
    assert "en"[0] != "ru"[0];
  }

  /** The two stage lists share no reply, so the stage decides which one was drawn from. */
  lemma StageListsDisjoint(lang: string, r: string)
    requires r in EarlyStageReplies(lang)
    ensures r !in AdvancedStageReplies(lang)
  {
    if lang == "ru" {
      assert forall i, j :: 0 <= i < 4 && 0 <= j < 4 ==>
        |EarlyStageRu[i]| != |AdvancedStageRu[j]| || EarlyStageRu[i][0] != AdvancedStageRu[j][0];
    } else {
      assert forall i, j :: 0 <= i < 4 && 0 <= j < 4 ==>
        |EarlyStageEn[i]| != |AdvancedStageEn[j]| || EarlyStageEn[i][0] != AdvancedStageEn[j][0];
    }
  }

  // ---------------------------------------------------------------------------
  // Personalisation and the cascade
  // ---------------------------------------------------------------------------

  /** `_personalize_response`: a wink is added when the mood is playful and the draw falls under 0.3. */
  function Personalize(response: string, config: AiConfig, coin: bool): string {
    var mood := Mood(config);
    if (Contains(mood, "игривое") || Contains(mood, "playful")) && coin then response + Wink else response
  }

  /** Personalisation returns its input or its input with the wink, and the wink needs a playful mood. */
  lemma PersonalizeShape(response: string, config: AiConfig, coin: bool)
    ensures var r := Personalize(response, config, coin);
      && (r == response || r == response + Wink)
      && (r != response <==> coin && (Contains(Mood(config), "игривое") || Contains(Mood(config), "playful")))
  {
    var r := Personalize(response, config, coin);
    if r != response { assert |r| == |response| + 2; }
  }

  /** The first hit whose similarity is above 0.8. */
  function FirstHigh(hits: seq<Hit>): (k: Option<nat>)
    ensures k.Some? ==>
      && k.value < |hits| && hits[k.value].similarity > 0.8
      && forall j :: 0 <= j < k.value ==> hits[j].similarity <= 0.8
    ensures k.None? ==> forall j :: 0 <= j < |hits| ==> hits[j].similarity <= 0.8
  {
    if hits == [] then None
    else if hits[0].similarity > 0.8 then Some(0)
    else match FirstHigh(hits[1..])
      case None => None
      case Some(k) => Some(k + 1)
  }

  /** `max(hits, key=similarity)`: a hit of greatest similarity, the first of them on a tie. */
  function BestHit(hits: seq<Hit>): (k: nat)
    requires hits != []
    ensures k < |hits|
    ensures forall j :: 0 <= j < |hits| ==> hits[j].similarity <= hits[k].similarity
    ensures forall j :: 0 <= j < k ==> hits[j].similarity < hits[k].similarity
  {
    if |hits| == 1 then 0
    else
      var k := BestHit(hits[1..]) + 1;
      if hits[k].similarity > hits[0].similarity then k else 0
  }

  /** `_generate_contextual_response`. */
  function ContextualResponse(hits: seq<Hit>, ctx: Context, config: AiConfig, emotion: Emotion,
                              pick: nat, coin: bool): string
  {
    match FirstHigh(hits)
    case Some(k) => Personalize(hits[k].response, config, coin)
    case None =>
      if emotion == Seductive && ctx.stage == Advanced then GenerateSeductive(config, pick)
      else if emotion == Romantic then GenerateRomantic(config, pick)
      else if emotion == Flirty then GenerateFlirty(config, pick)
      else if hits != [] then Personalize(hits[BestHit(hits)].response, config, coin)
      else GenerateDynamic(config, ctx.stage, pick)
  }

  /** Rule 1: a hit above 0.8 wins, the first such hit in list order, whatever the emotion. */
  lemma CascadeHighSimilarity(hits: seq<Hit>, ctx: Context, config: AiConfig, emotion: Emotion,
                              pick: nat, coin: bool, k: nat)
    requires k < |hits| && hits[k].similarity > 0.8
    requires forall j :: 0 <= j < k ==> hits[j].similarity <= 0.8
    ensures var r := ContextualResponse(hits, ctx, config, emotion, pick, coin);
      r == hits[k].response || r == hits[k].response + Wink
  {
    assert FirstHigh(hits) == Some(k);
    PersonalizeShape(hits[k].response, config, coin);
  }

  /** Rules 2 to 6, once no hit is above 0.8. */
  lemma CascadeWithoutHighHit(hits: seq<Hit>, ctx: Context, config: AiConfig, emotion: Emotion,
                              pick: nat, coin: bool)
    requires forall j :: 0 <= j < |hits| ==> hits[j].similarity <= 0.8
    ensures var r := ContextualResponse(hits, ctx, config, emotion, pick, coin);
      var lang := Lang(config);
      && (emotion == Seductive && ctx.stage == Advanced ==> r in SeductiveReplies(lang, NameFor(config)))
      && (emotion == Romantic ==> r in RomanticReplies(lang))
      && (emotion == Flirty ==> r in FlirtyReplies(lang))
      && (emotion !in {Romantic, Flirty} && !(emotion == Seductive && ctx.stage == Advanced) ==>
           if hits != [] then
             exists k :: 0 <= k < |hits|
               && (forall j :: 0 <= j < |hits| ==> hits[j].similarity <= hits[k].similarity)
               && (forall j :: 0 <= j < k ==> hits[j].similarity < hits[k].similarity)
               && (r == hits[k].response || r == hits[k].response + Wink)
           else r in DynamicReplies(lang, ctx.stage))
  {
    assert FirstHigh(hits) == None;
    if hits != [] {
      var k := BestHit(hits);
      PersonalizeShape(hits[k].response, config, coin);
    }
  }

  /**
   * The example "Хочу тебя" at the beginning stage with no similar exchanges: the
   * seductive rule needs the advanced stage, so the reply comes from the early-stage
   * list and never from the advanced one.
   */
  lemma WantYouAtBeginning(config: AiConfig, pick: nat, coin: bool)
    ensures var r := ContextualResponse([], EmptyContext, config, DetectEmotion(CleanMessage("Хочу тебя")), pick, coin);
      r in EarlyStageReplies(Lang(config)) && r !in AdvancedStageReplies(Lang(config))
  {
    WantYouIsSeductive();
    SeductiveAtBeginning(config, pick, coin);
  }

  /** A seductive message at the beginning stage with no similar exchanges gets an early-stage reply. */
  lemma SeductiveAtBeginning(config: AiConfig, pick: nat, coin: bool)
    ensures var r := ContextualResponse([], EmptyContext, config, Seductive, pick, coin);
      r in EarlyStageReplies(Lang(config)) && r !in AdvancedStageReplies(Lang(config))
  {
    var r := ContextualResponse([], EmptyContext, config, Seductive, pick, coin);
    assert r == GenerateDynamic(config, Beginning, pick);
    StageListsDisjoint(Lang(config), r);
  }

  // ---------------------------------------------------------------------------
  // The in-memory cache (`_update_context`)
  // ---------------------------------------------------------------------------

  datatype CacheEntry = CacheEntry(user: string, bot: string, emotion: string)

  /** How many entries the cache keeps per user. */
  const CacheLimit: nat := 10

  /** Append one entry, then drop the oldest if the cache has grown past the limit. */
  function Windowed(cache: seq<CacheEntry>, e: CacheEntry): seq<CacheEntry> {
    var grown := cache + [e];
    if |grown| > CacheLimit then grown[1..] else grown
  }

  /** The newest `n` elements of `s` (all of them when there are fewer). */
  function Newest<T>(s: seq<T>, n: nat): (r: seq<T>)
    ensures |r| <= n
  {
    if |s| <= n then s else s[|s| - n..]
  }

  /** A cache within the limit stays within it, ends with the new entry, and overflows by
      dropping exactly its oldest entry. */
  lemma WindowedKeepsNewest(cache: seq<CacheEntry>, e: CacheEntry)
    requires |cache| <= CacheLimit
    ensures var w := Windowed(cache, e);
      && w == Newest(cache + [e], CacheLimit)
      && |w| <= CacheLimit && w[|w| - 1] == e
      && (|cache| < CacheLimit ==> w == cache + [e])
      && (|cache| == CacheLimit ==> w == cache[1..] + [e])
  {
  }

  /** The cache after a user's turns `es`, starting from an empty cache. */
  function CacheAfter(es: seq<CacheEntry>): seq<CacheEntry>
    decreases |es|
  {
    if es == [] then [] else Windowed(CacheAfter(es[..|es| - 1]), es[|es| - 1])
  }

  /** However many turns a user has had, the cache holds exactly the newest ten of them. */
  lemma {:induction false} CacheHoldsNewestTen(es: seq<CacheEntry>)
    ensures CacheAfter(es) == Newest(es, CacheLimit)
    decreases |es|
  {
    if es != [] {
      var front := es[..|es| - 1];
      CacheHoldsNewestTen(front);
      WindowedKeepsNewest(CacheAfter(front), es[|es| - 1]);
      assert front + [es[|es| - 1]] == es;
      if |front| > CacheLimit {
        assert Newest(front, CacheLimit)[1..] + [es[|es| - 1]] == es[|es| - CacheLimit..];
      }
    }
  }

  /**
   * The durable part of `_update_context`: the first record of the user with exactly this
   * message gets the emotion and the confidence 0.8; nothing else changes.
   */
  function Backfill(log: seq<LogRecord>, userId: string, message: string, emotion: string): (r: seq<LogRecord>)
    ensures |r| == |log|
    decreases |log|
  {
    if log == [] then []
    else if log[0].userId == userId && log[0].userMessage == Some(message) then
      [log[0].(emotion := Some(emotion), aiConfidence := Some(0.8))] + log[1..]
    else [log[0]] + Backfill(log[1..], userId, message, emotion)
  }

  predicate Matches(r: LogRecord, userId: string, message: string) {
    r.userId == userId && r.userMessage == Some(message)
  }

  /** No record before position `i` matches. */
  predicate NoMatchBefore(log: seq<LogRecord>, userId: string, message: string, i: int) {
    forall j :: 0 <= j < i && j < |log| ==> !Matches(log[j], userId, message)
  }

  lemma NoMatchBeforeShift(log: seq<LogRecord>, userId: string, message: string, i: int)
    requires log != [] && !Matches(log[0], userId, message) && 1 <= i <= |log|
    ensures NoMatchBefore(log, userId, message, i) <==> NoMatchBefore(log[1..], userId, message, i - 1)
  {
    if NoMatchBefore(log[1..], userId, message, i - 1) {
      forall j | 0 <= j < i ensures !Matches(log[j], userId, message) {
        if j > 0 { assert log[j] == log[1..][j - 1]; }
      }
    }
  }

  /** The backfill touches only the first matching record, and leaves the log alone when none matches. */
  lemma {:induction false} BackfillTouchesFirstMatch(log: seq<LogRecord>, userId: string, message: string, emotion: string)
    ensures var r := Backfill(log, userId, message, emotion);
      forall i :: 0 <= i < |log| ==>
        if Matches(log[i], userId, message) && NoMatchBefore(log, userId, message, i)
        then r[i] == log[i].(emotion := Some(emotion), aiConfidence := Some(0.8))
        else r[i] == log[i]
    decreases |log|
  {
    if log != [] && !Matches(log[0], userId, message) {
      BackfillTouchesFirstMatch(log[1..], userId, message, emotion);
      forall i | 1 <= i < |log| {
        NoMatchBeforeShift(log, userId, message, i);
      }
    }
  }

  // ---------------------------------------------------------------------------
  // Knowledge appended by learning
  // ---------------------------------------------------------------------------

  datatype Provenance = Initial | ManualEntry | AutoLearned

  /** One entry of the vector collection (its embedding is not modelled). */
  datatype KnowledgeRecord = KnowledgeRecord(
    id: string, document: string, response: string, emotion: string, lang: string, provenance: Provenance)

  /** One document of the `learned_responses` backup. */
  datatype LearnedRecord = LearnedRecord(
    question: string, answer: string, language: string, emotion: string, autoLearned: bool)

  /** Where learning from a conversation stopped: nowhere, at the embedding (before any
      write), or at the backup insert (after the vector write). */
  datatype LearnFault = NoFault | EmbedFault | BackupFault

  function Seed(id: string, text: string, response: string, emotion: string, lang: string): KnowledgeRecord {
    KnowledgeRecord(id, text, response, emotion, lang, Initial)
  }

  /** `_populate_initial_knowledge`: the bilingual corpus a new collection is seeded with. */
  const SeedKnowledge: seq<KnowledgeRecord> := [
    Seed("init_0", "Привет как дела", "Привет дорогой! У меня все отлично, особенно когда вижу тебя", "flirty", "ru"),
    Seed("init_1", "Что делаешь", "Думаю о тебе и наших встречах", "romantic", "ru"),
    Seed("init_2", "Откуда ты", "Я из Москвы, самый красивый город для самой красивой девушки", "flirty", "ru"),
    Seed("init_3", "Как тебя зовут", "Меня зовут Анна, а как мне тебя называть, красавчик?", "flirty", "ru"),
    Seed("init_4", "Сколько тебе лет", "Мне 23, самый расцвет для девушки, не правда ли?", "flirty", "ru"),
    Seed("init_5", "Что любишь", "Люблю страсть, романтику и интересных мужчин как ты", "seductive", "ru"),
    Seed("init_6", "Хочу тебя", "Мм, мне тоже хочется близости с тобой", "seductive", "ru"),
    Seed("init_7", "Встретимся", "Было бы замечательно, где бы ты хотел встретиться?", "romantic", "ru"),
    Seed("init_8", "Что на тебе", "Сейчас на мне шелковое белье... думаю, тебе понравилось бы", "seductive", "ru"),
    Seed("init_9", "Скучаю", "Я тоже скучаю по тебе, дорогой", "romantic", "ru"),
    Seed("init_10", "Hello how are you", "Hi handsome! I'm doing great, especially when I see you", "flirty", "en"),
    Seed("init_11", "What are you doing", "Thinking about you and our meetings", "romantic", "en"),
    Seed("init_12", "Where are you from", "I'm from New York, the most beautiful city for the most beautiful girl", "flirty", "en"),
    Seed("init_13", "What is your name", "My name is Anna, and how should I call you, handsome?", "flirty", "en"),
    Seed("init_14", "How old are you", "I'm 23, the perfect age for a girl, don't you think?", "flirty", "en"),
    Seed("init_15", "What do you like", "I love passion, romance and interesting men like you", "seductive", "en"),
    Seed("init_16", "I want you", "Mmm, I want closeness with you too", "seductive", "en"),
    Seed("init_17", "Let's meet", "That would be wonderful, where would you like to meet?", "romantic", "en"),
    Seed("init_18", "What are you wearing", "Right now I'm wearing silk lingerie... I think you'd like it", "seductive", "en"),
    Seed("init_19", "I miss you", "I miss you too, darling", "romantic", "en")
  ]

  /** The seed corpus has ten phrases per language and distinct ids. */
  lemma SeedKnowledgeShape()
    ensures |SeedKnowledge| == 20
    ensures forall i :: 0 <= i < 20 ==> SeedKnowledge[i].lang == (if i < 10 then "ru" else "en")
    ensures forall i :: 0 <= i < 20 ==> SeedKnowledge[i].provenance == Initial
  {
  }

  // ---------------------------------------------------------------------------
  // The draws and failures of one turn
  // ---------------------------------------------------------------------------

  /**
   * What the outside world decides during one smart-response turn: whether reading the
   * log fails, what the similarity query answers, the random draws, whether the cache
   * update's store write fails, and whether an unexpected error escapes the pipeline.
   */
  datatype TurnOracle = TurnOracle(
    contextFault: bool,
    query: Result<QueryResult>,
    pick: nat,
    coin: bool,
    updateFault: bool,
    engineFault: bool)

  /**
   * The reply and emotion label of one smart-response turn, given the log the context is
   * read from: the fallback list and "neutral" when the pipeline fails, otherwise the cascade's
   * reply for the cleaned message and its detected emotion.
   */
  function SmartReply(log: seq<LogRecord>, message: string, userId: string, config: AiConfig, o: TurnOracle): (string, string) {
    if o.engineFault then (GetFallbackResponse(config, o.pick), "neutral")
    else
      var ctx := if o.contextFault then EmptyContext else ContextOf(RecentRecords(log, userId));
      var e := DetectEmotion(CleanMessage(message));
      (ContextualResponse(SearchSimilar(o.query, Lang(config)), ctx, config, e, o.pick, o.coin), EmotionName(e))
  }

  /** A turn always reports one of the six labels, and "neutral" whenever the pipeline failed. */
  lemma SmartReplyLabel(log: seq<LogRecord>, message: string, userId: string, config: AiConfig, o: TurnOracle)
    ensures SmartReply(log, message, userId, config, o).1 in EmotionLabels
    ensures o.engineFault ==> SmartReply(log, message, userId, config, o) == (GetFallbackResponse(config, o.pick), "neutral")
  {
    if !o.engineFault {
      EmotionNameIsLabel(DetectEmotion(CleanMessage(message)));
    }
  }

  /** On a turn whose context cannot be read, the reply is what a first-time user would get. */
  lemma SmartReplyContextFault(log: seq<LogRecord>, message: string, userId: string, config: AiConfig, o: TurnOracle)
    requires o.contextFault
    ensures SmartReply(log, message, userId, config, o) == SmartReply([], message, userId, config, o)
  {
    assert RecentRecords([], userId) == [];
  }

  /**
   * What one smart-response turn leaves in the engine's log and caches, from `conv0`/`ctx0`
   * to `conv1`/`ctx1`: nothing when the pipeline failed or the cache update's write failed;
   * otherwise the backfilled log and this user's cache with the turn appended.
   */
  ghost predicate TurnMemory(
    conv0: seq<LogRecord>, ctx0: map<string, seq<CacheEntry>>,
    conv1: seq<LogRecord>, ctx1: map<string, seq<CacheEntry>>,
    userId: string, message: string, response: string, emotion: string, o: TurnOracle)
  {
    if o.engineFault || o.updateFault then conv1 == conv0 && ctx1 == ctx0
    else
      && conv1 == Backfill(conv0, userId, message, emotion)
      && ctx1 == ctx0[userId := Windowed(Get(ctx0, userId, []), CacheEntry(message, response, emotion))]
  }

  // ---------------------------------------------------------------------------
  // The engine object
  // ---------------------------------------------------------------------------

  class AdvancedBot {
    /** The `conversations` collection the engine reads its context from. */
    var conversations: seq<LogRecord>
    /** `conversation_contexts`: per-user cache of recent turns. */
    var contexts: map<string, seq<CacheEntry>>
    /** The vector collection. */
    var knowledge: seq<KnowledgeRecord>
    /** The `learned_responses` backup collection. */
    var learnedBackup: seq<LearnedRecord>

    /** Every user's cache is within the limit. */
    ghost predicate Valid()
      reads this
    {
      forall u :: u in contexts ==> |contexts[u]| <= CacheLimit
    }

    /** `__init__` and `initialize`: an existing collection is reused, a new one is seeded. */
    constructor (existing: Option<seq<KnowledgeRecord>>, log: seq<LogRecord>)
      ensures Valid()
      ensures conversations == log && contexts == map[] && learnedBackup == []
      ensures knowledge == (if existing.Some? then existing.value else SeedKnowledge)
    {
      conversations := log;
      contexts := map[];
      knowledge := if existing.Some? then existing.value else SeedKnowledge;
      learnedBackup := [];
    }

    /** `_get_conversation_context`: topics, emotions and stage of the user's five newest records. */
    method GetConversationContext(userId: string, storeFault: bool) returns (ctx: Context)
      ensures storeFault ==> ctx == EmptyContext
      ensures !storeFault ==>
        var recent := RecentRecords(conversations, userId);
        && ctx == ContextOf(recent)
        && (ctx.stage == Advanced <==> |recent| > 3)
        && (ctx.stage == Developing <==> 2 <= |recent| <= 3)
        && (ctx.stage == Beginning <==> |recent| <= 1)
    {
      if storeFault {
        return EmptyContext;
      }
      var recent := RecentRecords(conversations, userId);
      var topics: seq<Topic> := [];
      var emotions: seq<string> := [];
      var i := 0;
      while i < |recent|
        invariant 0 <= i <= |recent|
        invariant topics == TopicsOf(recent[..i])
        invariant emotions == EmotionsOf(recent[..i])
      {
        var rec := recent[i];
        assert recent[..i + 1][..i] == recent[..i];
        if rec.emotion.Some? {
          emotions := emotions + [rec.emotion.value];
        }
        var message := Lower(rec.userMessage.GetOr(""));
        if Contains(message, "встреч") || Contains(message, "meet") {
          topics := topics + [Meeting];
        } else if Contains(message, "фото") || Contains(message, "photo") {
          topics := topics + [Photos];
        } else if Contains(message, "видео") || Contains(message, "video") {
          topics := topics + [Video];
        }
        i := i + 1;
      }
      assert recent[..i] == recent;
      var stage := Beginning;
      if |recent| > 0 {
        if |recent| > 3 {
          stage := Advanced;
        } else if |recent| > 1 {
          stage := Developing;
        }
      }
      ctx := Context(topics, emotions, stage);
    }

    /** `_update_context`: backfill the log record, then append to the user's cache. */
    method UpdateContext(userId: string, message: string, response: string, emotion: string, storeFault: bool)
      requires Valid()
      modifies this
      ensures Valid()
      ensures knowledge == old(knowledge) && learnedBackup == old(learnedBackup)
      ensures storeFault ==> conversations == old(conversations) && contexts == old(contexts)
      ensures !storeFault ==>
        && conversations == Backfill(old(conversations), userId, message, emotion)
        && contexts == old(contexts)[userId := Windowed(Get(old(contexts), userId, []), CacheEntry(message, response, emotion))]
    {
      if storeFault {
        return;
      }
      conversations := Backfill(conversations, userId, message, emotion);
      var cache := if userId in contexts then contexts[userId] else [];
      cache := cache + [CacheEntry(message, response, emotion)];
      if |cache| > CacheLimit {
        cache := cache[1..];
      }
      contexts := contexts[userId := cache];
    }

    /** `learn_from_conversation`: the cleaned question goes to the collection and to the backup. */
    method LearnFromConversation(userMessage: string, botResponse: string, lang: string, emotion: string,
                                 stamp: string, fault: LearnFault)
      modifies this
      ensures conversations == old(conversations) && contexts == old(contexts)
      ensures knowledge == if fault == EmbedFault then old(knowledge)
        else old(knowledge) + [KnowledgeRecord("learned_" + stamp, CleanMessage(userMessage), botResponse, emotion, lang, AutoLearned)]
      ensures learnedBackup == if fault == NoFault
        then old(learnedBackup) + [LearnedRecord(CleanMessage(userMessage), botResponse, lang, emotion, true)]
        else old(learnedBackup)
    {
      var clean := CleanMessage(userMessage);
      if fault == EmbedFault {
        return;
      }
      knowledge := knowledge + [KnowledgeRecord("learned_" + stamp, clean, botResponse, emotion, lang, AutoLearned)];
      if fault == BackupFault {
        return;
      }
      learnedBackup := learnedBackup + [LearnedRecord(clean, botResponse, lang, emotion, true)];
    }

    /** `add_manual_training`: the cleaned question goes to the collection only, labelled neutral. */
    method AddManualTraining(question: string, answer: string, lang: string, stamp: string, embedFault: bool)
      modifies this
      ensures conversations == old(conversations) && contexts == old(contexts)
      ensures learnedBackup == old(learnedBackup)
      ensures knowledge == if embedFault then old(knowledge)
        else old(knowledge) + [KnowledgeRecord("manual_" + stamp, CleanMessage(question), answer, "neutral", lang, ManualEntry)]
    {
      if embedFault {
        return;
      }
      knowledge := knowledge + [KnowledgeRecord("manual_" + stamp, CleanMessage(question), answer, "neutral", lang, ManualEntry)];
    }

    /** `get_smart_response`: normalise, read the context, classify, search, decide, remember. */
    method GetSmartResponse(message: string, userId: string, config: AiConfig, o: TurnOracle)
      returns (response: string, emotion: string)
      requires Valid()
      modifies this
      ensures Valid()
      ensures knowledge == old(knowledge) && learnedBackup == old(learnedBackup)
      ensures (response, emotion) == SmartReply(old(conversations), message, userId, config, o)
      ensures TurnMemory(old(conversations), old(contexts), conversations, contexts, userId, message, response, emotion, o)
    {
      if o.engineFault {
        response := GetFallbackResponse(config, o.pick);
        emotion := "neutral";
        return;
      }
      var clean := CleanMessage(message);
      var ctx := GetConversationContext(userId, o.contextFault);
      var e := DetectEmotion(clean);
      var hits := SearchSimilar(o.query, Lang(config));
      response := ContextualResponse(hits, ctx, config, e, o.pick, o.coin);
      emotion := EmotionName(e);
      UpdateContext(userId, message, response, emotion, o.updateFault);
    }
  }
}
