/** The message log and flags behind both chat surfaces (the per-patient
    diagnostic panel and the standalone assistant page). Sending a message
    and delivering the reply are two separate steps: the reply is produced
    by a timer, so several messages may be waiting for their replies at
    once; timers of equal delay fire in the order they were started. */
module Chat {
  import opened Text

  /** One entry of the log. The assistant's text is a canned reply, kept
      abstract as a value of `R`. */
  datatype Message<R> = UserMessage(text: string) | AssistantMessage(reply: R)

  /** The texts of the user entries, in log order. */
  function UserTexts<R>(log: seq<Message<R>>): (r: seq<string>)
    ensures |r| <= |log|
  {
    if log == [] then []
    else (if log[0].UserMessage? then [log[0].text] else []) + UserTexts(log[1..])
  }

  /** The replies of the assistant entries, in log order. */
  function Replies<R>(log: seq<Message<R>>): (r: seq<R>)
    ensures |r| <= |log|
  {
    if log == [] then []
    else (if log[0].AssistantMessage? then [log[0].reply] else []) + Replies(log[1..])
  }

  /** Every entry is either a user entry or an assistant entry. */
  lemma {:induction false} ProjectionSizes<R>(log: seq<Message<R>>)
    ensures |UserTexts(log)| + |Replies(log)| == |log|
  {
    if log != [] {
      ProjectionSizes(log[1..]);
    }
  }

  /** Appending an entry extends exactly one of the two projections. */
  lemma ProjectionsOfAppend<R>(log: seq<Message<R>>, m: Message<R>)
    ensures UserTexts(log + [m]) == UserTexts(log) + (if m.UserMessage? then [m.text] else [])
    ensures Replies(log + [m]) == Replies(log) + (if m.AssistantMessage? then [m.reply] else [])
  {
    UserTextsOfAppend(log, m);
    RepliesOfAppend(log, m);
  }

  lemma {:induction false} UserTextsOfAppend<R>(log: seq<Message<R>>, m: Message<R>)
    ensures UserTexts(log + [m]) == UserTexts(log) + (if m.UserMessage? then [m.text] else [])
  {
    if log == [] {
      assert log + [m] == [m];
    } else {
      var head := if log[0].UserMessage? then [log[0].text] else [];
      var tail := if m.UserMessage? then [m.text] else [];
      calc {
        UserTexts(log + [m]);
      == { assert (log + [m])[0] == log[0] && (log + [m])[1..] == log[1..] + [m]; }
        head + UserTexts(log[1..] + [m]);
      == { UserTextsOfAppend(log[1..], m); }
        head + (UserTexts(log[1..]) + tail);
      ==
        (head + UserTexts(log[1..])) + tail;
      }
    }
  }

  lemma {:induction false} RepliesOfAppend<R>(log: seq<Message<R>>, m: Message<R>)
    ensures Replies(log + [m]) == Replies(log) + (if m.AssistantMessage? then [m.reply] else [])
  {
    if log == [] {
      assert log + [m] == [m];
    } else {
      var head := if log[0].AssistantMessage? then [log[0].reply] else [];
      var tail := if m.AssistantMessage? then [m.reply] else [];
      calc {
        Replies(log + [m]);
      == { assert (log + [m])[0] == log[0] && (log + [m])[1..] == log[1..] + [m]; }
        head + Replies(log[1..] + [m]);
      == { RepliesOfAppend(log[1..], m); }
        head + (Replies(log[1..]) + tail);
      ==
        (head + Replies(log[1..])) + tail;
      }
    }
  }

  /** `respond` applied to each text. */
  function ReplyAll<R>(respond: string -> R, texts: seq<string>): (r: seq<R>)
    ensures |r| == |texts|
    ensures forall i :: 0 <= i < |texts| ==> r[i] == respond(texts[i])
  {
    if texts == [] then [] else [respond(texts[0])] + ReplyAll(respond, texts[1..])
  }

  /** The invariant of a chat log: it opens with the greeting; every user
      message is either answered or waiting, in the order sent; the assistant
      entries after the greeting are the replies to the answered messages, in
      the same order; and the indicator is off when nothing is waiting.
      Such a log holds the greeting, one entry per message sent and one
      per reply given. */
  ghost predicate Consistent<R>(greeting: R, respond: string -> R, log: seq<Message<R>>,
                                answered: seq<string>, pending: seq<string>, analyzing: bool): (r: bool)
    ensures r ==> |log| == 1 + 2 * |answered| + |pending|
  {
    ProjectionSizes(log);
    |log| > 0 && log[0] == AssistantMessage(greeting) &&
    UserTexts(log) == answered + pending &&
    Replies(log) == [greeting] + ReplyAll(respond, answered) &&
    (pending == [] ==> !analyzing)
  }

  /** Logging a user message and starting its timer keeps the invariant. */
  lemma SentKeepsConsistent<R>(greeting: R, respond: string -> R, log: seq<Message<R>>,
                               answered: seq<string>, pending: seq<string>, analyzing: bool,
                               message: string)
    requires Consistent(greeting, respond, log, answered, pending, analyzing)
    ensures Consistent(greeting, respond, log + [UserMessage(message)], answered,
                       pending + [message], true)
  {
    ProjectionsOfAppend(log, UserMessage(message));
    assert (answered + pending) + [message] == answered + (pending + [message]);
  }

  /** Answering the oldest waiting message keeps the invariant. */
  lemma DeliveredKeepsConsistent<R>(greeting: R, respond: string -> R, log: seq<Message<R>>,
                                    answered: seq<string>, pending: seq<string>, analyzing: bool)
    requires Consistent(greeting, respond, log, answered, pending, analyzing)
    requires pending != []
    ensures Consistent(greeting, respond, log + [AssistantMessage(respond(pending[0]))],
                       answered + [pending[0]], pending[1..], false)
  {
    var message := pending[0];
    ProjectionsOfAppend(log, AssistantMessage(respond(message)));
    ReplyAllAppend(respond, answered, message);
    assert answered + pending == (answered + [message]) + pending[1..];
  }

  /** The state of one chat: the log, the text box, whether the suggested
      prompts are shown, the "analyzing" indicator, and the messages whose
      reply timers have not fired yet. */
  class Session<R> {
    const greeting: R
    const respond: string -> R
    var log: seq<Message<R>>
    var input: string
    var showSuggestions: bool
    var analyzing: bool
    var pending: seq<string>
    /** The messages already answered, oldest first. */
    ghost var answered: seq<string>

    ghost predicate Valid()
      reads this
    {
      Consistent(greeting, respond, log, answered, pending, analyzing)
    }

    constructor (greeting: R, respond: string -> R)
      ensures Valid()
      ensures this.greeting == greeting && this.respond == respond
      ensures log == [AssistantMessage(greeting)]
      ensures input == "" && showSuggestions && !analyzing && pending == []
    {
      this.greeting := greeting;
      this.respond := respond;
      log := [AssistantMessage(greeting)];
      input := "";
      showSuggestions := true;
      analyzing := false;
      pending := [];
      answered := [];
    }

    /** Typing into the text box. */
    method SetInput(text: string)
      requires Valid()
      modifies this
      ensures Valid()
      ensures input == text
      ensures log == old(log) && pending == old(pending) && answered == old(answered)
      ensures showSuggestions == old(showSuggestions) && analyzing == old(analyzing)
    {
      input := text;
    }

    /** `handleSendMessage(message)`: a blank message is ignored; any other
        is logged as it was typed (untrimmed), the text box is cleared, the
        suggestions are hidden, the indicator is switched on and the reply
        timer for this message is started. */
    method Send(message: string)
      requires Valid()
      modifies this
      ensures Valid()
      ensures answered == old(answered)
      ensures IsBlank(message) ==>
        log == old(log) && input == old(input) && showSuggestions == old(showSuggestions) &&
        analyzing == old(analyzing) && pending == old(pending)
      ensures !IsBlank(message) ==>
        log == old(log) + [UserMessage(message)] && input == "" && !showSuggestions &&
        analyzing && pending == old(pending) + [message]
    {
      if TrimsToEmpty(message) {
        return;
      }
      SentKeepsConsistent(greeting, respond, log, answered, pending, analyzing, message);
      log := log + [UserMessage(message)];
      input := "";
      showSuggestions := false;
      analyzing := true;
      pending := pending + [message];
    }

    /** `handleSendMessage()` from the Send button or the Enter key: sends
        the text box's contents. */
    method SendInput()
      requires Valid()
      modifies this
      ensures Valid()
      ensures answered == old(answered)
      ensures IsBlank(old(input)) ==>
        log == old(log) && input == old(input) && showSuggestions == old(showSuggestions) &&
        analyzing == old(analyzing) && pending == old(pending)
      ensures !IsBlank(old(input)) ==>
        log == old(log) + [UserMessage(old(input))] && input == "" && !showSuggestions &&
        analyzing && pending == old(pending) + [old(input)]
    {
      Send(input);
    }

    /** The oldest reply timer fires: the indicator is switched off and the
        reply to that message is appended; nothing else changes. */
    method Deliver()
      requires Valid()
      requires pending != []
      modifies this
      ensures Valid()
      ensures log == old(log) + [AssistantMessage(respond(old(pending)[0]))]
      ensures pending == old(pending)[1..] && answered == old(answered) + [old(pending)[0]]
      ensures !analyzing
      ensures input == old(input) && showSuggestions == old(showSuggestions)
    {
      var message := pending[0];
      DeliveredKeepsConsistent(greeting, respond, log, answered, pending, analyzing);
      analyzing := false;
      log := log + [AssistantMessage(respond(message))];
      answered := answered + [message];
      pending := pending[1..];
    }
  }

  lemma ReplyAllAppend<R>(respond: string -> R, texts: seq<string>, t: string)
    ensures ReplyAll(respond, texts + [t]) == ReplyAll(respond, texts) + [respond(t)]
  {
  }
}
