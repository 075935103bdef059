/** The session's chat history and the step that answers one question.
    The history is a list of (speaker, text) entries that only ever grows by
    a user turn followed by a bot turn, or is emptied by the Clear button. */
module Chat {
  import opened AsciiText
  import opened Pipeline

  datatype Speaker = You | Bot
  datatype Entry = Entry(speaker: Speaker, text: string)

  /** The phrases that end the conversation instead of being answered. */
  const ExitWords: seq<string> := ["exit", "quit", "bye", "goodbye"]

  /** `question.lower().strip() in [...]`. */
  predicate IsExitCommand(question: string)
    ensures IsExitCommand(question) ==> 3 <= |question|
  {
    Strip(Lower(question)) in ExitWords
  }

  /** The exit test reads the question without its surrounding whitespace,
      ignoring the case of its letters. */
  lemma ExitIsTrimmedWord(question: string)
    ensures IsExitCommand(question) <==> Lower(Strip(question)) in ExitWords
  {
    LowerStripCommute(question);
  }

  /** Any exit word, in any mix of case and with any whitespace around it,
      is recognised. */
  lemma ExitPadded(a: string, w: string, b: string)
    requires AllSpace(a) && AllSpace(b) && Lower(w) in ExitWords
    ensures IsExitCommand(a + w + b)
  {
    LowerKeepsSpacing(w);
    assert Trimmed(w);
    StripUnique(a, w, b);
    ExitIsTrimmedWord(a + w + b);
  }

  /** The scenario of a user typing "bye": an exit. */
  lemma ByeIsExit()
    ensures IsExitCommand("bye")
  {
    assert Lower("bye") == "bye";
    ExitPadded("", "bye", "");
    assert "" + "bye" + "" == "bye";
  }

  /** No exit word is a proper prefix of another: each is either the only
      one of its length or differs from the shorter ones in its first letter. */
  lemma ExitWordsPrefixFree(e: string, x: string)
    requires e in ExitWords && x != []
    ensures e + x !in ExitWords
  {
    assert (e + x)[0] == e[0];
    assert |e + x| > |e|;
  }

  lemma ExitWordsTrimmed(e: string)
    requires e in ExitWords
    ensures e != [] && !IsSpace(e[0])
  {
  }

  /** An exit word, in any case, starts with a letter. */
  lemma ExitWordStart(w: string)
    requires Lower(w) in ExitWords
    ensures w != [] && !IsSpace(w[0])
  {
    ExitWordsTrimmed(Lower(w));
    assert LowerChar(w[0]) == Lower(w)[0];
  }

  /** Stripping a word that starts with a non-space, with whitespace before
      it and text after it, keeps the word and the text up to its last
      non-whitespace character. */
  lemma StripWordWithSuffix(a: string, w: string, x: string, t: string)
    requires AllSpace(a) && AllSpace(t)
    requires w != [] && !IsSpace(w[0]) && x != [] && !IsSpace(x[|x| - 1])
    ensures Strip(a + w + (x + t)) == w + x
  {
    TrimmedConcat(w, x);
    StripUnique(a, w + x, t);
    assert a + w + (x + t) == a + (w + x) + t;
  }

  /** Only the whole trimmed text counts: an exit word, with any whitespace
      before it, followed by any text that is not all whitespace ("bye bye ",
      "  quit?") is an ordinary question. */
  lemma ExitWordWithSuffixIsNotExit(a: string, w: string, suffix: string)
    requires AllSpace(a) && Lower(w) in ExitWords && !AllSpace(suffix)
    ensures !IsExitCommand(a + w + suffix)
  {
    var x, t := SplitTrailing(suffix);
    ExitWordStart(w);
    StripWordWithSuffix(a, w, x, t);
    ExitIsTrimmedWord(a + w + suffix);
    LowerConcat(w, x);
    ExitWordsPrefixFree(Lower(w), Lower(x));
  }

  /** The alternation invariant: even length, "You" at even positions and
      "Bot" at odd positions. */
  ghost predicate Alternating(history: seq<Entry>) {
    && |history| % 2 == 0
    && forall i :: 0 <= i < |history| ==> history[i].speaker == (if i % 2 == 0 then You else Bot)
  }

  /** The "Questions Asked" / "Total Questions" metric. */
  function QuestionCount(history: seq<Entry>): (n: nat)
    ensures 2 * n <= |history| <= 2 * n + 1
    ensures Alternating(history) ==> 2 * n == |history|
  {
    |history| / 2
  }

  /** The history after `process_question(question)`, given the session's
      model and chain. An exit phrase leaves it as it was and consults
      neither; any other question appends its own untrimmed text as a user
      turn and then the answer as a bot turn. */
  function Exchange(history: seq<Entry>, question: string, model: ChatModel, chain: DbChain): (r: seq<Entry>)
    ensures IsExitCommand(question) ==> r == history
    ensures !IsExitCommand(question) ==>
              && |r| == |history| + 2
              && r[..|history|] == history
              && r[|history|] == Entry(You, question)
              && r[|history| + 1] == Entry(Bot, GenerateResponse(question, model, chain))
    ensures Alternating(history) ==> Alternating(r)
  {
    if IsExitCommand(question) then history
    else
      var turn := [Entry(You, question), Entry(Bot, GenerateResponse(question, model, chain))];
      AlternatingExtend(history, turn);
      history + turn
  }

  lemma AlternatingExtend(history: seq<Entry>, turn: seq<Entry>)
    requires |turn| == 2 && turn[0].speaker == You && turn[1].speaker == Bot
    ensures Alternating(history) ==> Alternating(history + turn)
  {
    if Alternating(history) {
      var r := history + turn;
      forall i | 0 <= i < |r|
        ensures r[i].speaker == (if i % 2 == 0 then You else Bot)
      {
        if i >= |history| {
          assert r[i] == turn[i - |history|];
        }
      }
    }
  }

  /** The chat-history display: visits even positions and shows the user
      text there beside the bot text that follows, skipping a final user
      entry that has no answer. */
  method DisplayPairs(history: seq<Entry>) returns (shown: seq<(string, string)>)
    ensures |shown| == QuestionCount(history)
    ensures forall k :: 0 <= k < |shown| ==> shown[k] == (history[2 * k].text, history[2 * k + 1].text)
  {
    shown := [];
    var i := 0;
    while i < |history|
      invariant i % 2 == 0 && 0 <= i <= |history| + 1
      invariant |shown| == (if i <= |history| then i else |history|) / 2
      invariant forall k :: 0 <= k < |shown| ==> shown[k] == (history[2 * k].text, history[2 * k + 1].text)
    {
      if i + 1 < |history| {
        shown := shown + [(history[i].text, history[i + 1].text)];
      }
      i := i + 2;
    }
  }

  /** What one run of the page can do to the history: submit the form
      (with the "Send Message" button pressed or not, and the text box's
      contents) or press "Clear Chat History" in the sidebar. */
  datatype Event = Submit(submitted: bool, input: string) | ClearHistory

  /** A question reaches `process_question` only when the database is
      connected (otherwise the page stops before the form), the form was
      submitted and the input is non-empty. */
  predicate Accepted(dbConnected: bool, submitted: bool, input: string) {
    dbConnected && submitted && input != []
  }

  /** The history after one event. Clearing is not gated on the connection:
      the sidebar button is handled before the page stops. */
  function Step(history: seq<Entry>, dbConnected: bool, event: Event, model: ChatModel, chain: DbChain): (r: seq<Entry>)
    ensures event.ClearHistory? ==> r == []
    ensures event.Submit? && !Accepted(dbConnected, event.submitted, event.input) ==> r == history
  {
    match event
    case ClearHistory => []
    case Submit(submitted, input) =>
      if Accepted(dbConnected, submitted, input) then Exchange(history, input, model, chain) else history
  }

  /** The history after a sequence of events. */
  function Run(history: seq<Entry>, dbConnected: bool, events: seq<Event>, model: ChatModel, chain: DbChain): (r: seq<Entry>)
    ensures |r| <= |history| + 2 * |events|
    decreases |events|
  {
    if events == [] then history
    else Run(Step(history, dbConnected, events[0], model, chain), dbConnected, events[1..], model, chain)
  }

  /** Number of events that make the bot answer a question. */
  function Answered(dbConnected: bool, events: seq<Event>): nat
    decreases |events|
  {
    if events == [] then 0
    else
      var e := events[0];
      (if e.Submit? && Accepted(dbConnected, e.submitted, e.input) && !IsExitCommand(e.input) then 1 else 0)
      + Answered(dbConnected, events[1..])
  }

  /** Starting from an alternating history (the empty one, or any the page
      has produced), every sequence of submissions and clears keeps it
      alternating. */
  lemma {:induction false} RunAlternating(history: seq<Entry>, dbConnected: bool, events: seq<Event>, model: ChatModel, chain: DbChain)
    requires Alternating(history)
    ensures Alternating(Run(history, dbConnected, events, model, chain))
    decreases |events|
  {
    if events != [] {
      RunAlternating(Step(history, dbConnected, events[0], model, chain), dbConnected, events[1..], model, chain);
    }
  }

  /** Without a clear, the history only grows at its end, by two entries per
      answered question, so the counter goes up by one per answer. */
  lemma {:induction false} RunCount(history: seq<Entry>, dbConnected: bool, events: seq<Event>, model: ChatModel, chain: DbChain)
    requires forall i :: 0 <= i < |events| ==> events[i].Submit?
    ensures var r := Run(history, dbConnected, events, model, chain);
            && |r| == |history| + 2 * Answered(dbConnected, events)
            && r[..|history|] == history
            && QuestionCount(r) == QuestionCount(history) + Answered(dbConnected, events)
    decreases |events|
  {
    if events != [] {
      var next := Step(history, dbConnected, events[0], model, chain);
      assert next[..|history|] == history;
      RunCount(next, dbConnected, events[1..], model, chain);
      var r := Run(next, dbConnected, events[1..], model, chain);
      assert r[..|history|] == r[..|next|][..|history|];
    }
  }

  /** While the database is disconnected no question is ever answered: the
      history either stays as it was or has been cleared. */
  lemma {:induction false} RunDisconnected(history: seq<Entry>, events: seq<Event>, model: ChatModel, chain: DbChain)
    ensures Run(history, false, events, model, chain) in {history, []}
    decreases |events|
  {
    if events != [] {
      var next := Step(history, false, events[0], model, chain);
      RunDisconnected(next, events[1..], model, chain);
    }
  }

  /** The session state the page keeps: the connection flag, the model and
      chain built at start-up, and the chat history. */
  class ChatSession {
    const dbConnected: bool
    const model: ChatModel
    const chain: DbChain
    var history: seq<Entry>

    ghost predicate Valid()
      reads this
    {
      Alternating(history)
    }

    /** A new session: whatever start-up produced, and an empty history. */
    constructor (dbConnected: bool, model: ChatModel, chain: DbChain)
      ensures this.dbConnected == dbConnected && this.model == model && this.chain == chain
      ensures history == [] && Valid()
    {
      this.dbConnected := dbConnected;
      this.model := model;
      this.chain := chain;
      history := [];
    }

    /** `process_question`: always reports success; updates the history as
        `Exchange` says. */
    method ProcessQuestion(question: string) returns (ok: bool)
      modifies this
      ensures ok
      ensures history == Exchange(old(history), question, model, chain)
      ensures old(Valid()) ==> Valid()
    {
      if IsExitCommand(question) {
        return true;
      }
      history := history + [Entry(You, question)];
      var response := GenerateResponse(question, model, chain);
      history := history + [Entry(Bot, response)];
      return true;
    }

    /** The "Clear Chat History" button. */
    method Clear()
      modifies this
      ensures history == [] && Valid()
    {
      history := [];
    }

    /** Handling of the chat form after the connection check. */
    method SubmitForm(submitted: bool, input: string)
      modifies this
      ensures history == Step(old(history), dbConnected, Submit(submitted, input), model, chain)
      ensures old(Valid()) ==> Valid()
    {
      if !dbConnected {
        return;
      }
      if submitted && input != [] {
        var _ := ProcessQuestion(input);
      }
    }
  }
}
