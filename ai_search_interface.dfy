/**
  The guided symptom chat: the assistant greets the user, asks four follow-up questions
  one answer at a time, and after the fifth answer runs the symptom search over all
  five answers and announces how many providers it found.
*/
module SymptomChat {
  import opened Wrappers
  import opened Text
  import opened Providers

  datatype Sender = Ai | User

  datatype Message = Message(sender: Sender, content: string)

  datatype SearchStep = Initial | Results

  const Greeting: string :=
    "Hi! I'm here to help you find the right holistic health provider. Tell me about what you're experiencing or what kind of treatment you're looking for."

  /** The question list; the greeting plays the part of the first entry, which is never sent. */
  const SymptomQuestions: seq<string> := [
    "What specific symptoms or conditions are you experiencing?",
    "How long have you been dealing with these symptoms?",
    "What treatments have you tried before?",
    "Do you have any location preferences?",
    "Are there specific types of practitioners you're interested in?"
  ]

  /** The index of the last question; an answer given at this index triggers the search. */
  const LastQuestion := |SymptomQuestions| - 1

  const AnnouncementStart: string := "Based on your responses, I found "
  /** The text after the count; its leading space ends the number. */
  const AnnouncementEnd: string := " " + "providers who might be able to help you. Here are my recommendations:"

  /** The message announcing the search result, with the count written in decimal. */
  function ResultsAnnouncement(count: nat): string {
    AnnouncementStart + Decimal(count) + AnnouncementEnd
  }

  const Opening := [Message(Ai, Greeting)]

  /** The message recording the k-th answer: after the greeting and k earlier pairs. */
  function AnswerAt(messages: seq<Message>, k: nat): Message
    requires 2 * k + 1 < |messages|
  {
    messages[2 * k + 1]
  }

  /** The assistant's reply to the k-th answer. */
  function ReplyAt(messages: seq<Message>, k: nat): Message
    requires 2 * k + 2 < |messages|
  {
    messages[2 * k + 2]
  }

  /** The greeting, then for each answer the user's message and the assistant's reply. */
  ghost predicate Transcript(messages: seq<Message>, responses: seq<string>) {
    && |messages| == 1 + 2 * |responses|
    && messages[0] == Message(Ai, Greeting)
    && (forall k: nat :: k < |responses| ==> AnswerAt(messages, k) == Message(User, responses[k]))
    && (forall k: nat :: k < |responses| ==> ReplyAt(messages, k).sender == Ai)
  }

  /** The replies so far are the questions after the first, in order. */
  ghost predicate AskedInOrder(messages: seq<Message>, responses: seq<string>) {
    forall k: nat :: k < |responses| && k + 1 < |SymptomQuestions| && 2 * k + 2 < |messages| ==>
      ReplyAt(messages, k) == Message(Ai, SymptomQuestions[k + 1])
  }

  /**
    Every reply after the last question announces the number of providers the symptom
    search found over the answers given up to that point.
  */
  ghost predicate Announced(messages: seq<Message>, responses: seq<string>, providers: seq<Provider>) {
    forall k: nat :: LastQuestion <= k < |responses| && 2 * k + 2 < |messages| ==>
      ReplyAt(messages, k).content == ResultsAnnouncement(|SymptomMatches(providers, responses[..k + 1])|)
  }

  /** Adding an answer and a reply keeps the transcript's shape. */
  lemma TranscriptExtends(messages: seq<Message>, responses: seq<string>, input: string, reply: string)
    requires Transcript(messages, responses)
    ensures Transcript(messages + [Message(User, input), Message(Ai, reply)], responses + [input])
  {
    var m := messages + [Message(User, input), Message(Ai, reply)];
    var r := responses + [input];
    forall k: nat | k < |r| ensures AnswerAt(m, k) == Message(User, r[k]) && ReplyAt(m, k).sender == Ai {
      if k < |responses| {
        assert AnswerAt(m, k) == AnswerAt(messages, k) && ReplyAt(m, k) == ReplyAt(messages, k);
      }
    }
  }

  /** Answering while questions remain is followed by the next question. */
  lemma AskedExtends(messages: seq<Message>, responses: seq<string>, input: string)
    requires Transcript(messages, responses) && AskedInOrder(messages, responses)
    requires |responses| < LastQuestion
    ensures AskedInOrder(messages + [Message(User, input), Message(Ai, SymptomQuestions[|responses| + 1])],
                         responses + [input])
  {
    var m := messages + [Message(User, input), Message(Ai, SymptomQuestions[|responses| + 1])];
    forall k: nat | k < |responses| + 1 && k + 1 < |SymptomQuestions| && 2 * k + 2 < |m|
      ensures ReplyAt(m, k) == Message(Ai, SymptomQuestions[k + 1])
    {
      if k < |responses| {
        assert ReplyAt(m, k) == ReplyAt(messages, k);
      }
    }
  }

  /** Answering after the last question keeps the questions asked earlier in place. */
  lemma AskedKept(messages: seq<Message>, responses: seq<string>, input: string, reply: string)
    requires Transcript(messages, responses) && AskedInOrder(messages, responses)
    requires |responses| >= LastQuestion
    ensures AskedInOrder(messages + [Message(User, input), Message(Ai, reply)], responses + [input])
  {
    var m := messages + [Message(User, input), Message(Ai, reply)];
    forall k: nat | k < |responses| + 1 && k + 1 < |SymptomQuestions| && 2 * k + 2 < |m|
      ensures ReplyAt(m, k) == Message(Ai, SymptomQuestions[k + 1])
    {
      assert ReplyAt(m, k) == ReplyAt(messages, k);
    }
  }

  /** Answering after the last question is followed by the announcement of the new search. */
  lemma AnnouncedExtends(messages: seq<Message>, responses: seq<string>, providers: seq<Provider>, input: string)
    requires Transcript(messages, responses) && Announced(messages, responses, providers)
    ensures var r := responses + [input];
      Announced(messages + [Message(User, input), Message(Ai, ResultsAnnouncement(|SymptomMatches(providers, r)|))],
                r, providers)
  {
    var r := responses + [input];
    var m := messages + [Message(User, input), Message(Ai, ResultsAnnouncement(|SymptomMatches(providers, r)|))];
    forall k: nat | LastQuestion <= k < |r| && 2 * k + 2 < |m|
      ensures ReplyAt(m, k).content == ResultsAnnouncement(|SymptomMatches(providers, r[..k + 1])|)
    {
      if k < |responses| {
        assert ReplyAt(m, k) == ReplyAt(messages, k);
        assert r[..k + 1] == responses[..k + 1];
      } else {
        assert r[..k + 1] == r;
      }
    }
  }

  class AISearchInterface {
    /** The provider service the chat searches with. */
    const service: ProviderService

    var messages: seq<Message>
    var currentInput: string
    var matchedProviders: seq<Provider>
    var searchStep: SearchStep
    var currentQuestionIndex: int
    var userResponses: seq<string>

    /**
      The transcript is the greeting followed by one (answer, reply) pair per answer; the
      k-th reply is question k + 1 while there is one, and a results announcement after
      that. While questions remain the index counts the answers; once the results are
      shown, the last question has been answered and the matches are the symptom search
      over every answer.
    */
    ghost predicate Valid()
      reads this, service
    {
      && 0 <= currentQuestionIndex <= LastQuestion
      && Transcript(messages, userResponses)
      && AskedInOrder(messages, userResponses)
      && Announced(messages, userResponses, service.providers)
      && (searchStep == Initial ==> |userResponses| == currentQuestionIndex)
      && (searchStep == Results ==>
            && currentQuestionIndex == LastQuestion
            && |userResponses| > LastQuestion
            && matchedProviders == SymptomMatches(service.providers, userResponses))
    }

    constructor (service: ProviderService)
      ensures this.service == service
      ensures messages == Opening && currentInput == "" && matchedProviders == []
      ensures searchStep == Initial && currentQuestionIndex == 0 && userResponses == []
      ensures Valid()
    {
      this.service := service;
      messages := Opening;
      currentInput := "";
      matchedProviders := [];
      searchStep := Initial;
      currentQuestionIndex := 0;
      userResponses := [];
    }

    /** Typing in the message box. */
    method ChangeInput(value: string)
      requires Valid()
      modifies this
      ensures currentInput == value
      ensures messages == old(messages) && userResponses == old(userResponses)
      ensures matchedProviders == old(matchedProviders) && searchStep == old(searchStep)
      ensures currentQuestionIndex == old(currentQuestionIndex)
      ensures Valid()
    {
      currentInput := value;
    }

    /**
      Sending the typed text. Blank text is ignored. Otherwise the text (untrimmed) is
      recorded as an answer and the box cleared; then either the next question is asked or,
      after the last question, the symptom search runs over all the answers.
    */
    method HandleSendMessage()
      requires Valid()
      modifies this
      ensures Valid()
      ensures IsBlank(old(currentInput)) ==>
        && messages == old(messages) && currentInput == old(currentInput)
        && userResponses == old(userResponses) && matchedProviders == old(matchedProviders)
        && searchStep == old(searchStep) && currentQuestionIndex == old(currentQuestionIndex)
      ensures !IsBlank(old(currentInput)) ==>
        && userResponses == old(userResponses) + [old(currentInput)]
        && currentInput == ""
      ensures !IsBlank(old(currentInput)) && old(currentQuestionIndex) < LastQuestion ==>
        && messages == old(messages) + [Message(User, old(currentInput)),
                                        Message(Ai, SymptomQuestions[old(currentQuestionIndex) + 1])]
        && currentQuestionIndex == old(currentQuestionIndex) + 1
        && searchStep == old(searchStep) && matchedProviders == old(matchedProviders)
      ensures !IsBlank(old(currentInput)) && old(currentQuestionIndex) == LastQuestion ==>
        && matchedProviders == SymptomMatches(service.providers, userResponses)
        && messages == old(messages) + [Message(User, old(currentInput)),
                                        Message(Ai, ResultsAnnouncement(|matchedProviders|))]
        && searchStep == Results && currentQuestionIndex == old(currentQuestionIndex)
    {
      if IsBlank(currentInput) {
        return;
      }
      var input := currentInput;
      currentInput := "";
      if currentQuestionIndex < LastQuestion {
        AskNext(input);
      } else {
        ShowResults(input);
      }
    }

    /** The answer is recorded and the next question asked. */
    method AskNext(input: string)
      requires Valid() && currentQuestionIndex < LastQuestion
      modifies this
      ensures messages == old(messages) + [Message(User, input),
                                           Message(Ai, SymptomQuestions[old(currentQuestionIndex) + 1])]
      ensures userResponses == old(userResponses) + [input]
      ensures currentQuestionIndex == old(currentQuestionIndex) + 1
      ensures searchStep == old(searchStep) && matchedProviders == old(matchedProviders)
      ensures currentInput == old(currentInput)
      ensures Valid()
    {
      var nextQuestion := SymptomQuestions[currentQuestionIndex + 1];
      TranscriptExtends(messages, userResponses, input, nextQuestion);
      AskedExtends(messages, userResponses, input);
      messages := messages + [Message(User, input), Message(Ai, nextQuestion)];
      userResponses := userResponses + [input];
      currentQuestionIndex := currentQuestionIndex + 1;
    }

    /** The last answer is recorded, the symptom search runs over all answers and its count is announced. */
    method ShowResults(input: string)
      requires Valid() && currentQuestionIndex == LastQuestion
      modifies this
      ensures userResponses == old(userResponses) + [input]
      ensures matchedProviders == SymptomMatches(service.providers, userResponses)
      ensures messages == old(messages) + [Message(User, input),
                                           Message(Ai, ResultsAnnouncement(|matchedProviders|))]
      ensures searchStep == Results && currentQuestionIndex == old(currentQuestionIndex)
      ensures currentInput == old(currentInput)
      ensures Valid()
    {
      var symptoms := userResponses + [input];
      var providers := service.SearchBySymptoms(symptoms);
      var announcement := ResultsAnnouncement(|providers|);
      TranscriptExtends(messages, userResponses, input, announcement);
      AskedKept(messages, userResponses, input, announcement);
      AnnouncedExtends(messages, userResponses, service.providers, input);
      messages := messages + [Message(User, input), Message(Ai, announcement)];
      userResponses := symptoms;
      matchedProviders := providers;
      searchStep := Results;
    }

    /** "Start over": back to the greeting with nothing answered. */
    method StartOver()
      modifies this
      ensures messages == Opening && currentInput == "" && matchedProviders == []
      ensures searchStep == Initial && currentQuestionIndex == 0 && userResponses == []
      ensures Valid()
    {
      messages := Opening;
      currentInput := "";
      matchedProviders := [];
      searchStep := Initial;
      currentQuestionIndex := 0;
      userResponses := [];
    }
  }

  /** Dropping the head of a three-part text leaves the other two parts. */
  lemma DropHead(head: string, middle: string, tail: string)
    ensures (head + middle + tail)[|head|..] == middle + tail
  {
    assert head + middle + tail == head + (middle + tail);
  }

  /** The count in the announcement reads back, with `parseInt`, as the number of providers found. */
  lemma AnnouncementCountReadsBack(count: nat)
    ensures ResultsAnnouncement(count)[|AnnouncementStart|..] == Decimal(count) + AnnouncementEnd
    ensures ParseInt(ResultsAnnouncement(count)[|AnnouncementStart|..]) == Some(count)
  {
    DropHead(AnnouncementStart, Decimal(count), AnnouncementEnd);
    ParseIntReadsDecimal(count, AnnouncementEnd);
  }

  /**
    The first question is 58 characters long, and no other question nor the greeting is;
    no question is longer than 63 characters.
  */
  lemma QuestionLengths()
    ensures |SymptomQuestions[0]| == 58 && |Greeting| != 58
    ensures forall k :: 1 <= k < |SymptomQuestions| ==> |SymptomQuestions[k]| != 58
    ensures forall k :: 0 <= k < |SymptomQuestions| ==> |SymptomQuestions[k]| <= 63
  {
  }

  /** Every announcement has at least 104 characters, so it is longer than any question. */
  lemma AnnouncementLength(count: nat)
    ensures |ResultsAnnouncement(count)| >= 104
  {
    assert |AnnouncementStart| == 33 && |AnnouncementEnd| == 70;
  }

  /** Before the last answer no reply is an announcement: every reply so far is a question. */
  lemma NoAnnouncementBeforeLastAnswer(messages: seq<Message>, responses: seq<string>, count: nat)
    requires Transcript(messages, responses) && AskedInOrder(messages, responses)
    requires |responses| <= LastQuestion
    ensures forall k: nat :: k < |responses| ==> ReplyAt(messages, k).content != ResultsAnnouncement(count)
  {
    QuestionLengths();
    AnnouncementLength(count);
    forall k: nat | k < |responses| ensures ReplyAt(messages, k).content != ResultsAnnouncement(count) {
      assert ReplyAt(messages, k) == Message(Ai, SymptomQuestions[k + 1]);
    }
  }

  /** No reply in a transcript is the first question. */
  lemma ReplyIsNotFirstQuestion(messages: seq<Message>, responses: seq<string>, providers: seq<Provider>, k: int)
    requires Transcript(messages, responses) && AskedInOrder(messages, responses)
    requires Announced(messages, responses, providers)
    requires 0 <= k < |responses|
    ensures ReplyAt(messages, k) != Message(Ai, SymptomQuestions[0])
  {
    QuestionLengths();
    if k + 1 >= |SymptomQuestions| {
      AnnouncementLength(|SymptomMatches(providers, responses[..k + 1])|);
    }
  }

  /** The greeting is not the first question. */
  lemma GreetingIsNotFirstQuestion()
    ensures Greeting != SymptomQuestions[0]
  {
    QuestionLengths();
  }

  /** The first question of the list never appears in a transcript: the greeting asks it instead. */
  lemma FirstQuestionNotInTranscript(messages: seq<Message>, responses: seq<string>, providers: seq<Provider>)
    requires Transcript(messages, responses) && AskedInOrder(messages, responses)
    requires Announced(messages, responses, providers)
    ensures Message(Ai, SymptomQuestions[0]) !in messages
  {
    GreetingIsNotFirstQuestion();
    forall i | 1 <= i < |messages| ensures messages[i] != Message(Ai, SymptomQuestions[0]) {
      var k := (i - 1) / 2;
      if i == 2 * k + 2 {
        ReplyIsNotFirstQuestion(messages, responses, providers, k);
        assert messages[i] == ReplyAt(messages, k);
      } else {
        assert i == 2 * k + 1 && k < |responses|;
        assert messages[i] == AnswerAt(messages, k);
      }
    }
  }

  /** In the chat itself the first question is never sent. */
  lemma FirstQuestionNeverSent(ui: AISearchInterface)
    requires ui.Valid()
    ensures Message(Ai, SymptomQuestions[0]) !in ui.messages
  {
    FirstQuestionNotInTranscript(ui.messages, ui.userResponses, ui.service.providers);
  }
}
