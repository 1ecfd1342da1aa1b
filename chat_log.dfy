/**
 * The Chat page's message log and reply queue, independent of what the
 * greeting and the answers say: which texts each side has written, and the
 * invariant that every question gets its answer, in order, once its timer fires.
 */
module ChatLog {


  /** One entry of the conversation; `isUser` tells which side wrote it. */
  datatype Message = Message(content: string, isUser: bool)

  /** The contents of the user's messages, in order. */
  function UserTexts(log: seq<Message>): seq<string>
  {
    if log == [] then []
    else UserTexts(log[..|log| - 1]) + (if log[|log| - 1].isUser then [log[|log| - 1].content] else [])
  }

  /** The contents of the assistant's messages, in order. */
  function BotTexts(log: seq<Message>): seq<string>
  {
    if log == [] then []
    else BotTexts(log[..|log| - 1]) + (if log[|log| - 1].isUser then [] else [log[|log| - 1].content])
  }

  /** The answers `answer` gives to a list of questions, one each, in the same order. */
  function Replies(answer: string -> string, questions: seq<string>): (r: seq<string>)
    ensures |r| == |questions|
  {
    if questions == [] then []
    else Replies(answer, questions[..|questions| - 1]) + [answer(questions[|questions| - 1])]
  }

  /** Logging a message adds its text to its own side's texts and leaves the other side's. */
  lemma LogAppend(log: seq<Message>, m: Message)
    ensures UserTexts(log + [m]) == UserTexts(log) + (if m.isUser then [m.content] else [])
    ensures BotTexts(log + [m]) == BotTexts(log) + (if m.isUser then [] else [m.content])
  {
    assert (log + [m])[..|log|] == log;
  }

  /** Answering one more question appends its answer. */
  lemma RepliesAppend(answer: string -> string, questions: seq<string>, q: string)
    ensures Replies(answer, questions + [q]) == Replies(answer, questions) + [answer(q)]
  {
    assert (questions + [q])[..|questions|] == questions;
  }

  /**
   * The bookkeeping of the reply queue: `pending` is what is left of `asked`
   * after its first `|asked| - |pending|` entries have been answered.
   */
  predicate QueueTail(asked: seq<string>, pending: seq<string>) {
    |pending| <= |asked| && pending == asked[|asked| - |pending|..]
  }

  /** A new question joins both the questions asked and the queue, at the end. */
  lemma QueueAsk(asked: seq<string>, pending: seq<string>, q: string)
    requires QueueTail(asked, pending)
    ensures QueueTail(asked + [q], pending + [q])
    ensures (asked + [q])[..|asked + [q]| - |pending + [q]|] == asked[..|asked| - |pending|]
  {
    var n := |asked| - |pending|;
    assert (asked + [q])[n..] == asked[n..] + [q];
    assert (asked + [q])[..n] == asked[..n];
  }

  /** Answering the oldest question moves it from the queue to the answered ones. */
  lemma QueueAnswer(asked: seq<string>, pending: seq<string>)
    requires QueueTail(asked, pending) && pending != []
    ensures QueueTail(asked, pending[1..])
    ensures asked[..|asked| - |pending[1..]|] == asked[..|asked| - |pending|] + [pending[0]]
  {
    var n := |asked| - |pending|;
    assert asked[n] == pending[0];
    assert asked[n + 1..] == asked[n..][1..];
    assert asked[..n + 1] == asked[..n] + [asked[n]];
  }

  /**
   * The log opens with the assistant's `greeting`; the assistant has answered
   * the user's questions in order, one `answer` each, except the last
   * `|pending|` ones, which are exactly the texts still waiting for their timer.
   */
  predicate LogFollows(messages: seq<Message>, pending: seq<string>, greeting: string, answer: string -> string) {
    var asked := UserTexts(messages);
    && messages != [] && messages[0] == Message(greeting, false)
    && QueueTail(asked, pending)
    && BotTexts(messages) == [greeting] + Replies(answer, asked[..|asked| - |pending|])
  }

  /** Logging a question and queueing its reply keeps the log following the same rules. */
  lemma AskKeepsLog(messages: seq<Message>, pending: seq<string>, greeting: string, answer: string -> string, text: string)
    requires LogFollows(messages, pending, greeting, answer)
    ensures LogFollows(messages + [Message(text, true)], pending + [text], greeting, answer)
  {
    var asked := UserTexts(messages);
    var answered := asked[..|asked| - |pending|];
    var log := messages + [Message(text, true)];
    LogAppend(messages, Message(text, true));
    QueueAsk(asked, pending, text);
    assert UserTexts(log) == asked + [text];
    assert UserTexts(log)[..|UserTexts(log)| - |pending + [text]|] == answered;
    assert BotTexts(log) == [greeting] + Replies(answer, answered);
  }

  /** Logging the answer to the oldest queued question keeps the log following the same rules. */
  lemma AnswerKeepsLog(messages: seq<Message>, pending: seq<string>, greeting: string, answer: string -> string)
    requires LogFollows(messages, pending, greeting, answer) && pending != []
    ensures LogFollows(messages + [Message(answer(pending[0]), false)], pending[1..], greeting, answer)
  {
    var asked := UserTexts(messages);
    var answered := asked[..|asked| - |pending|];
    var reply := answer(pending[0]);
    var log := messages + [Message(reply, false)];
    LogAppend(messages, Message(reply, false));
    QueueAnswer(asked, pending);
    RepliesAppend(answer, answered, pending[0]);
    assert UserTexts(log) == asked;
    assert asked[..|asked| - |pending[1..]|] == answered + [pending[0]];
    assert BotTexts(log) == [greeting] + Replies(answer, answered) + [reply];
    assert [greeting] + Replies(answer, answered) + [reply] == [greeting] + Replies(answer, answered + [pending[0]]);
  }
}
