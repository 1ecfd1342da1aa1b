/**
 * The Chat page: the canned-answer matcher `getBotResponse` and the message
 * log that `handleSendMessage` and its delayed completion maintain.
 */
module Chat {
  import opened Text
  import opened ChatLog

  // ---------------------------------------------------------------------------
  // Canned answers
  // ---------------------------------------------------------------------------

  // The long texts are written as concatenations of short pieces; each value is
  // the single string the page shows.

  const CollaboratorAnswer: string :=
    "Based on Qloo data, " + "Anirudh Ravichander's " + "top collaborators " +
    "include " + "Sivakarthikeyan, " + "Dhanush, and Vijay " + "Sethupathi. These " +
    "collaborations often " + "result in " + "chart-topping " + "soundtracks in Tamil " +
    "cinema."

  const TrendingAnswer: string :=
    "Currently trending " + "genres in India " + "include: Hip-Hop " + "fusion with " +
    "traditional music, " + "Regional pop " + "(especially Tamil and " +
    "Telugu), Devotional " + "fusion, and " + "Independent artists " + "creating viral " +
    "content on social " + "platforms."

  const AudienceAnswer: string :=
    "Audience insights " + "typically show " + "patterns in age " +
    "groups (18-35 being " + "most active), gender " + "distribution, " + "geographic " +
    "preferences, and " + "consumption habits. " + "Would you like me to " +
    "analyze a specific " + "artist or content?"

  const FallbackAnswer: string :=
    "That's an interesting " + "question! While I " + "don't have specific " +
    "data for that query " + "right now, I can help " + "you explore audience " +
    "insights, " + "demographics, " + "trending content, and " + "collaboration " +
    "opportunities. Try " + "asking about specific " + "artists, genres, or " +
    "regions."

  const GreetingText: string :=
    "Hi! I'm your Audience " + "IQ assistant. Ask me " + "anything about " +
    "audience insights, " + "demographics, or " + "content " + "recommendations. For " +
    "example, you could " + "ask: 'Who's the top " + "collaborator for " +
    "Anirudh?' or 'What " + "are the trending " + "genres in India?'"

  // ---------------------------------------------------------------------------
  // The matcher
  // ---------------------------------------------------------------------------

  /** Rule 1: both "anirudh" and "collaborator". */
  predicate AsksCollaborator(lower: string) {
    Includes(lower, "anirudh") && Includes(lower, "collaborator")
  }

  /** Rule 2: both "trending" and "genre". */
  predicate AsksTrending(lower: string) {
    Includes(lower, "trending") && Includes(lower, "genre")
  }

  /** Rule 3: either "demographics" or "audience" on its own. */
  predicate AsksAudience(lower: string) {
    Includes(lower, "demographics") || Includes(lower, "audience")
  }

  /** Which of the canned answers a question gets. */
  datatype Topic = Collaborators | TrendingGenres | AudienceInsights | Unrecognised

  /** The if-chain of `getBotResponse` on the lower-cased input: the first rule that fires wins. */
  function TopicOf(lower: string): Topic
  {
    if AsksCollaborator(lower) then Collaborators
    else if AsksTrending(lower) then TrendingGenres
    else if AsksAudience(lower) then AudienceInsights
    else Unrecognised
  }

  /** The text returned for each topic. */
  function AnswerFor(topic: Topic): string
  {
    match topic
    case Collaborators => CollaboratorAnswer
    case TrendingGenres => TrendingAnswer
    case AudienceInsights => AudienceAnswer
    case Unrecognised => FallbackAnswer
  }

  /** `getBotResponse`: lower-case the input, pick the topic, return its answer. */
  function BotResponse(input: string): (answer: string)
    ensures answer in {CollaboratorAnswer, TrendingAnswer, AudienceAnswer, FallbackAnswer}
  {
    AnswerFor(TopicOf(Lower(input)))
  }

  /** Each topic is chosen exactly when its rule is the first one to fire. */
  lemma TopicCharacterisation(lower: string)
    ensures TopicOf(lower) == Collaborators <==> AsksCollaborator(lower)
    ensures TopicOf(lower) == TrendingGenres <==> !AsksCollaborator(lower) && AsksTrending(lower)
    ensures TopicOf(lower) == AudienceInsights
            <==> !AsksCollaborator(lower) && !AsksTrending(lower) && AsksAudience(lower)
    ensures TopicOf(lower) == Unrecognised
            <==> !AsksCollaborator(lower) && !AsksTrending(lower) && !AsksAudience(lower)
  {
  }

  /** The four canned texts are different strings: each starts with its own letter. */
  lemma AnswersDistinct()
    ensures CollaboratorAnswer != TrendingAnswer && CollaboratorAnswer != AudienceAnswer
    ensures CollaboratorAnswer != FallbackAnswer && TrendingAnswer != AudienceAnswer
    ensures TrendingAnswer != FallbackAnswer && AudienceAnswer != FallbackAnswer
  {
    assert CollaboratorAnswer[0] == 'B' && TrendingAnswer[0] == 'C';
    assert AudienceAnswer[0] == 'A' && FallbackAnswer[0] == 'T';
  }

  /** Each canned text is returned exactly when its rule is the first to fire; the fallback exactly when none fires. */
  lemma BotResponseByRule(input: string)
    ensures BotResponse(input) == CollaboratorAnswer <==> AsksCollaborator(Lower(input))
    ensures BotResponse(input) == TrendingAnswer
            <==> !AsksCollaborator(Lower(input)) && AsksTrending(Lower(input))
    ensures BotResponse(input) == AudienceAnswer
            <==> !AsksCollaborator(Lower(input)) && !AsksTrending(Lower(input)) && AsksAudience(Lower(input))
    ensures BotResponse(input) == FallbackAnswer
            <==> !AsksCollaborator(Lower(input)) && !AsksTrending(Lower(input)) && !AsksAudience(Lower(input))
  {
    AnswersDistinct();
  }

  // ---------------------------------------------------------------------------
  // The same matcher as an ordered rule table
  // ---------------------------------------------------------------------------

  /** A rule fires when every one of its keywords occurs in the lower-cased input. */
  datatype Rule = Rule(keywords: seq<string>, topic: Topic)

  predicate Fires(rule: Rule, lower: string) {
    forall k :: k in rule.keywords ==> Includes(lower, k)
  }

  /** First-match (not best-match) evaluation of an ordered rule table. */
  function FirstMatch(rules: seq<Rule>, lower: string, fallback: Topic): Topic
  {
    if rules == [] then fallback
    else if Fires(rules[0], lower) then rules[0].topic
    else FirstMatch(rules[1..], lower, fallback)
  }

  /**
   * The table behind `getBotResponse`: rules 1 and 2 need both of their
   * keywords, rule 3 is two one-keyword rules that share one answer.
   */
  const RuleTable: seq<Rule> := [
    Rule(["anirudh", "collaborator"], Collaborators),
    Rule(["trending", "genre"], TrendingGenres),
    Rule(["demographics"], AudienceInsights),
    Rule(["audience"], AudienceInsights)
  ]

  /** The answer is that of the earliest rule that fires. */
  lemma {:induction false} FirstMatchPicksEarliest(rules: seq<Rule>, lower: string, fallback: Topic, i: nat)
    requires i < |rules| && Fires(rules[i], lower)
    requires forall j :: 0 <= j < i ==> !Fires(rules[j], lower)
    ensures FirstMatch(rules, lower, fallback) == rules[i].topic
  {
    if i > 0 {
      assert !Fires(rules[0], lower);
      FirstMatchPicksEarliest(rules[1..], lower, fallback, i - 1);
    }
  }

  /** When no rule fires the fallback is returned. */
  lemma {:induction false} FirstMatchFallsBack(rules: seq<Rule>, lower: string, fallback: Topic)
    requires forall j :: 0 <= j < |rules| ==> !Fires(rules[j], lower)
    ensures FirstMatch(rules, lower, fallback) == fallback
  {
    if rules != [] {
      assert !Fires(rules[0], lower);
      FirstMatchFallsBack(rules[1..], lower, fallback);
    }
  }

  /** The if-chain is the first-match evaluation of `RuleTable`. */
  lemma TopicFollowsRuleTable(lower: string)
    ensures TopicOf(lower) == FirstMatch(RuleTable, lower, Unrecognised)
  {
    assert Fires(RuleTable[0], lower) == AsksCollaborator(lower);
    assert Fires(RuleTable[1], lower) == AsksTrending(lower);
    assert Fires(RuleTable[2], lower) == Includes(lower, "demographics");
    assert Fires(RuleTable[3], lower) == Includes(lower, "audience");
    if AsksCollaborator(lower) {
      FirstMatchPicksEarliest(RuleTable, lower, Unrecognised, 0);
    } else if AsksTrending(lower) {
      FirstMatchPicksEarliest(RuleTable, lower, Unrecognised, 1);
    } else if Includes(lower, "demographics") {
      FirstMatchPicksEarliest(RuleTable, lower, Unrecognised, 2);
    } else if Includes(lower, "audience") {
      FirstMatchPicksEarliest(RuleTable, lower, Unrecognised, 3);
    } else {
      FirstMatchFallsBack(RuleTable, lower, Unrecognised);
    }
  }

  /** The matcher sees only the lower-cased input. */
  lemma {:induction false} BotResponseIgnoresCase(a: string, b: string)
    requires SameUpToCase(a, b)
    ensures BotResponse(a) == BotResponse(b)
  {
    SameUpToCaseLower(a, b);
  }

  /** Lower-casing the input first changes nothing. */
  lemma BotResponseOfLower(input: string)
    ensures BotResponse(Lower(input)) == BotResponse(input)
  {
    LowerIdempotent(input);
  }

  /**
   * "Anirudh" and "collaborator", in any case, in either order and with any
   * text around and between them, always get the collaborator answer,
   * whatever other keywords the text holds.
   */
  lemma CollaboratorRuleShadowsOthers(p: string, k1: string, m: string, k2: string, q: string)
    requires Lower(k1) == "anirudh" && Lower(k2) == "collaborator"
    ensures TopicOf(Lower(p + k1 + m + k2 + q)) == Collaborators
    ensures TopicOf(Lower(p + k2 + m + k1 + q)) == Collaborators
  {
    assert p + k1 + m + k2 + q == p + k1 + (m + k2 + q);
    IncludesLoweredPart(p, k1, m + k2 + q);
    IncludesLoweredPart(p + k1 + m, k2, q);
    assert p + k2 + m + k1 + q == p + k2 + (m + k1 + q);
    IncludesLoweredPart(p, k2, m + k1 + q);
    IncludesLoweredPart(p + k2 + m, k1, q);
  }

  /**
   * "trending" followed by "genre" or "genres", in any case and with any text
   * around them, gets the trending answer unless rule 1 fires first;
   * "genres" matches because it contains "genre".
   */
  lemma TrendingGenreQuestion(p: string, k1: string, m: string, k2: string, q: string)
    requires Lower(k1) == "trending" && (Lower(k2) == "genre" || Lower(k2) == "genres")
    requires !AsksCollaborator(Lower(p + k1 + m + k2 + q))
    ensures TopicOf(Lower(p + k1 + m + k2 + q)) == TrendingGenres
  {
    assert p + k1 + m + k2 + q == p + k1 + (m + k2 + q);
    IncludesLoweredPart(p, k1, m + k2 + q);
    IncludesLoweredPart(p + k1 + m, k2, q);
    if Lower(k2) == "genres" {
      assert Lower(k2) == "genre" + "s";
      IncludesPrefixOfNeedle(Lower(p + k1 + m + k2 + q), "genre", "s");
    }
  }

  /** One of the two audience keywords is enough for rule 3. */
  lemma OneAudienceKeywordSuffices(p: string, k: string, q: string)
    requires Lower(k) == "demographics" || Lower(k) == "audience"
    requires !AsksCollaborator(Lower(p + k + q)) && !AsksTrending(Lower(p + k + q))
    ensures TopicOf(Lower(p + k + q)) == AudienceInsights
  {
    IncludesLoweredPart(p, k, q);
  }

  /** A text without a "u" and without an "i", in either case, gets the fallback answer. */
  lemma NoKeywordLetters(input: string)
    requires LacksLetter(input, 'u', 'U') && LacksLetter(input, 'i', 'I')
    ensures TopicOf(Lower(input)) == Unrecognised
  {
    NotIncludesLetter(input, "anirudh", 'u', 'U');
    NotIncludesLetter(input, "trending", 'i', 'I');
    NotIncludesLetter(input, "demographics", 'i', 'I');
    NotIncludesLetter(input, "audience", 'u', 'U');
  }

  // The example questions and their topics. Each question is written as the
  // concatenation of its parts around the keywords, so that the general
  // lemmas above apply to it directly.

  lemma ExampleEmptyInput(input: string)
    requires input == ""
    ensures TopicOf(Lower(input)) == Unrecognised
  {
    NoKeywordLetters(input);
  }

  lemma ExampleCollaborator(input: string)
    requires input == "ANIRUDH" + " " + "collaborator"
    ensures TopicOf(Lower(input)) == Collaborators
  {
    assert input == "" + "ANIRUDH" + " " + "collaborator" + "";
    CollaboratorRuleShadowsOthers("", "ANIRUDH", " ", "collaborator", "");
  }

  lemma ExampleTrending(input: string)
    requires input == "trending" + " " + "genres" + " in India"
    ensures TopicOf(Lower(input)) == TrendingGenres
  {
    assert LacksLetter(input, 'u', 'U');
    NotIncludesLetter(input, "anirudh", 'u', 'U');
    assert Lower("trending") == "trending" && Lower("genres") == "genres";
    assert input == "" + "trending" + " " + "genres" + " in India";
    TrendingGenreQuestion("", "trending", " ", "genres", " in India");
  }

  lemma ExampleAudience(input: string)
    requires input == "Tell me about " + "audience" + " size"
    ensures TopicOf(Lower(input)) == AudienceInsights
  {
    assert LacksLetter(input, 'r', 'R');
    NotIncludesLetter(input, "anirudh", 'r', 'R');
    NotIncludesLetter(input, "trending", 'r', 'R');
    OneAudienceKeywordSuffices("Tell me about ", "audience", " size");
  }

  lemma ExampleDemographics(input: string)
    requires input == "What are the " + "demographics"
    ensures TopicOf(Lower(input)) == AudienceInsights
  {
    assert LacksLetter(input, 'u', 'U') && LacksLetter(input, 'n', 'N');
    NotIncludesLetter(input, "anirudh", 'u', 'U');
    NotIncludesLetter(input, "trending", 'n', 'N');
    assert input == "What are the " + "demographics" + "";
    OneAudienceKeywordSuffices("What are the ", "demographics", "");
  }

  lemma ExampleUnrelated(input: string)
    requires input == "What's the weather today?"
    ensures TopicOf(Lower(input)) == Unrecognised
  {
    assert LacksLetter(input, 'u', 'U') && LacksLetter(input, 'i', 'I');
    NoKeywordLetters(input);
  }

  /** The greeting's first suggested question: keywords in reverse order, mixed case. */
  lemma ExampleTopCollaborator(input: string)
    requires input == "Who's the top " + "collaborator" + " for " + "Anirudh" + "?"
    ensures TopicOf(Lower(input)) == Collaborators
  {
    assert Lower("Anirudh") == "anirudh" && Lower("collaborator") == "collaborator";
    CollaboratorRuleShadowsOthers("Who's the top ", "Anirudh", " for ", "collaborator", "?");
  }

  /** One keyword of rule 1 on its own is not enough: rules 1 and 2 need both. */
  lemma ExampleLoneKeyword(input: string)
    requires input == "Anirudh"
    ensures TopicOf(Lower(input)) == Unrecognised
  {
    assert LacksLetter(input, 'c', 'C') && LacksLetter(input, 't', 'T');
    assert LacksLetter(input, 'm', 'M') && LacksLetter(input, 'e', 'E');
    NotIncludesLetter(input, "collaborator", 'c', 'C');
    NotIncludesLetter(input, "trending", 't', 'T');
    NotIncludesLetter(input, "demographics", 'm', 'M');
    NotIncludesLetter(input, "audience", 'e', 'E');
  }

  // ---------------------------------------------------------------------------
  // The page's log
  // ---------------------------------------------------------------------------

  const Greeting: Message := Message(GreetingText, false)

  /** The page's log: it opens with the greeting and every reply is `getBotResponse`'s. */
  predicate Consistent(messages: seq<Message>, pending: seq<string>) {
    LogFollows(messages, pending, GreetingText, BotResponse)
  }

  /**
   * The state `handleSendMessage` works on, plus `pending`: the texts captured
   * by the timers it has scheduled and that have not fired yet, oldest first.
   */
  class ChatSession {
    var messages: seq<Message>
    var inputValue: string
    var isTyping: bool
    var pending: seq<string>

    /** The log is consistent; the typing indicator is only on while some answer is still due. */
    ghost predicate Valid()
      reads this
    {
      Consistent(messages, pending) && (isTyping ==> pending != [])
    }

    constructor ()
      ensures Valid()
      ensures messages == [Greeting] && inputValue == "" && !isTyping && pending == []
    {
      messages := [Greeting];
      inputValue := "";
      isTyping := false;
      pending := [];
    }

    /** The input field's `onChange`. */
    method SetInput(value: string)
      requires Valid()
      modifies this
      ensures Valid()
      ensures inputValue == value
      ensures messages == old(messages) && isTyping == old(isTyping) && pending == old(pending)
    {
      inputValue := value;
    }

    /**
     * `handleSendMessage` up to the `setTimeout` call: white-space-only input is
     * ignored; otherwise the untrimmed input is logged as a user message, the
     * field is cleared, the indicator is switched on and a reply to that text
     * is scheduled. A reply already pending does not block it.
     */
    method Submit()
      requires Valid()
      modifies this
      ensures Valid()
      ensures AllWhiteSpace(old(inputValue)) ==>
                messages == old(messages) && inputValue == old(inputValue)
                && isTyping == old(isTyping) && pending == old(pending)
      ensures !AllWhiteSpace(old(inputValue)) ==>
                messages == old(messages) + [Message(old(inputValue), true)]
                && inputValue == "" && isTyping
                && pending == old(pending) + [old(inputValue)]
    {
      TrimEmptyIff(inputValue);
      if Trim(inputValue) == "" {
        return;
      }
      AskKeepsLog(messages, pending, GreetingText, BotResponse, inputValue);
      messages := messages + [Message(inputValue, true)];
      pending := pending + [inputValue];
      inputValue := "";
      isTyping := true;
    }

    /**
     * The timer callback: the assistant's answer to the oldest pending text is
     * logged and the indicator is switched off.
     */
    method Complete()
      requires Valid() && pending != []
      modifies this
      ensures Valid()
      ensures messages == old(messages) + [Message(BotResponse(old(pending)[0]), false)]
      ensures pending == old(pending)[1..]
      ensures !isTyping && inputValue == old(inputValue)
    {
      AnswerKeepsLog(messages, pending, GreetingText, BotResponse);
      messages := messages + [Message(BotResponse(pending[0]), false)];
      pending := pending[1..];
      isTyping := false;
    }
  }

  // ---------------------------------------------------------------------------
  // Sessions
  // ---------------------------------------------------------------------------

  /** A fresh page on which `question` has been typed and sent. */
  method SendOnFreshPage(question: string) returns (chat: ChatSession)
    requires !AllWhiteSpace(question)
    ensures fresh(chat) && chat.Valid()
    ensures chat.messages == [Greeting, Message(question, true)] && chat.pending == [question]
    ensures chat.inputValue == "" && chat.isTyping
  {
    chat := new ChatSession();
    chat.SetInput(question);
    chat.Submit();
  }

  /**
   * One question on a fresh page: the field is cleared and the indicator is
   * on while the reply is due; the reply then follows the question and the
   * indicator goes off.
   */
  method AskOnce(question: string)
    returns (log: seq<Message>, inputWhileWaiting: string, typingWhileWaiting: bool, typingAfter: bool)
    requires !AllWhiteSpace(question)
    ensures log == [Greeting, Message(question, true), Message(BotResponse(question), false)]
    ensures inputWhileWaiting == "" && typingWhileWaiting && !typingAfter
  {
    var chat := SendOnFreshPage(question);
    inputWhileWaiting, typingWhileWaiting := chat.inputValue, chat.isTyping;
    chat.Complete();
    log, typingAfter := chat.messages, chat.isTyping;
  }

  /** Asking the greeting's first question gets the collaborator answer. */
  method CollaboratorSession(question: string)
    returns (log: seq<Message>, inputWhileWaiting: string, typingWhileWaiting: bool, typingAfter: bool)
    requires question == "Who's the top " + "collaborator" + " for " + "Anirudh" + "?"
    ensures log == [Greeting, Message(question, true), Message(CollaboratorAnswer, false)]
    ensures inputWhileWaiting == "" && typingWhileWaiting && !typingAfter
  {
    assert !IsWhiteSpace(question[0]);
    ExampleTopCollaborator(question);
    log, inputWhileWaiting, typingWhileWaiting, typingAfter := AskOnce(question);
  }
}
