/** What happens to a call into foreign code (the SQL chain, the chat
    model): it either returns a value or raises an exception, of which the
    bot only ever keeps `str(e)`. */
module Outcomes {

  datatype Outcome<T> = Returned(value: T) | Raised(message: string)

  datatype Option<T> = None | Some(value: T)
}

/** The question-answering pipeline: the database retrieval step, the prompt
    sent to the chat model, and the answer step. Both steps turn every
    failure into a string, so nothing ever escapes to the caller. The SQL
    chain and the chat model are parameters. */
module Pipeline {
  import opened Outcomes
  import opened AsciiText

  /** The SQL chain: called with the question, it returns the chain's output
      dictionary (of which only the "result" entry is read) or raises. */
  type DbChain = string -> Outcome<map<string, string>>

  datatype Role = System | Human
  datatype Message = Message(role: Role, content: string)

  /** The chat model: called with the message list, it returns the content
      of its reply or raises. */
  type ChatModel = seq<Message> -> Outcome<string>

  const DbErrorPrefix: string := "Error retrieving data: "
  const SorryPrefix: string := "Sorry, I encountered an error while processing your question: "
  /** `str(e)` of the `KeyError` raised when the chain's output has no "result". */
  const MissingResult: string := "'result'"

  const InputHeader: string := "Input:\n"
  const ContextHeader: string := "\n\nContext:\n"
  const OutputFooter: string := "\n\nOutput:\n"

  /** The fixed system instruction: persona, tone rules and one worked example. */
  const SystemPrompt: string :=
    "You are a student migration data expert and analyst.\n" +
    "Your task is to answer user questions using information from a SQL database about global student migration patterns.\n" +
    "Base your answer only on the given context and provide insights when possible.\n" +
    "\n" +
    "Guidelines:\n" +
    "- Be conversational and helpful\n" +
    "- Provide specific numbers when available\n" +
    "- Offer context about trends when relevant\n" +
    "- If data is limited, acknowledge it\n" +
    "- Use emojis sparingly but appropriately\n" +
    "\n" +
    "Example:\n" +
    "Input: How many students went to Canada?\n" +
    "Context: There are 120 students in the database who went to Canada.\n" +
    "Output: Based on the data, 120 students have migrated to Canada for higher studies. Canada continues to be a popular destination for international students!\n"

  /** The chain call failed, either by raising or by answering without a
      "result" entry (which raises `KeyError` inside the same `try`). */
  predicate ChainFailed(o: Outcome<map<string, string>>) {
    o.Raised? || "result" !in o.value
  }

  /** `retrieve_from_db`: the chain's "result" without surrounding
      whitespace, or an error report; never an exception. */
  function RetrieveFromDb(query: string, chain: DbChain): (r: string)
    ensures chain(query).Raised? ==> r == DbErrorPrefix + chain(query).message
    ensures chain(query).Returned? && "result" !in chain(query).value ==> r == DbErrorPrefix + MissingResult
    ensures !ChainFailed(chain(query)) ==> r == Strip(chain(query).value["result"])
    ensures Trimmed(r) || DbErrorPrefix <= r
  {
    match chain(query)
    case Raised(e) => DbErrorPrefix + e
    case Returned(d) => if "result" in d then Strip(d["result"]) else DbErrorPrefix + MissingResult
  }

  /** The human template with the question and the context filled in. */
  function HumanText(query: string, context: string): (r: string)
    ensures |r| == |query| + |context| + 28
    ensures r[..|InputHeader|] == InputHeader && r[|r| - |OutputFooter|..] == OutputFooter
    ensures r[|InputHeader|..|InputHeader| + |query|] == query
  {
    InputHeader + query + ContextHeader + context + OutputFooter
  }

  /** The two messages sent to the model: the system instruction, then the
      human template filled with the question and the retrieved context. */
  function BuildMessages(query: string, context: string): (m: seq<Message>)
    ensures |m| == 2
    ensures m[0] == Message(System, SystemPrompt)
    ensures m[1].role == Human
    ensures ParseHuman(m[1].content, |query|) == Some((query, context))
  {
    HumanRoundTrip(query, context);
    [Message(System, SystemPrompt), Message(Human, HumanText(query, context))]
  }

  /** Reads a human message back into its question and context, given the
      length of the question (the template does not delimit the question on
      its own: see `PromptAmbiguous`). */
  function ParseHuman(content: string, queryLength: nat): Option<(string, string)> {
    var n := queryLength;
    var m := |InputHeader| + n + |ContextHeader|;
    if m + |OutputFooter| <= |content|
       && content[..|InputHeader|] == InputHeader
       && content[|InputHeader| + n..m] == ContextHeader
       && content[|content| - |OutputFooter|..] == OutputFooter
    then Some((content[|InputHeader|..|InputHeader| + n], content[m..|content| - |OutputFooter|]))
    else None
  }

  lemma HumanRoundTrip(query: string, context: string)
    ensures ParseHuman(HumanText(query, context), |query|) == Some((query, context))
  {
    var s := HumanText(query, context);
    var i := |InputHeader|;
    var n := |query|;
    var m := i + n + |ContextHeader|;
    assert s == InputHeader + query + ContextHeader + context + OutputFooter;
    assert s[..i] == InputHeader;
    assert s[i..i + n] == query;
    assert s[i + n..m] == ContextHeader;
    assert s[m..|s| - |OutputFooter|] == context;
    assert s[|s| - |OutputFooter|..] == OutputFooter;
  }

  /** Two different question/context pairs can produce the very same prompt:
      a question that itself contains the context header reads like a
      shorter question whose context begins with the rest of it. */
  lemma PromptAmbiguous(a: string, b: string, c: string)
    ensures (a + ContextHeader + b, c) != (a, b + ContextHeader + c)
    ensures HumanText(a + ContextHeader + b, c) == HumanText(a, b + ContextHeader + c)
  {
    assert |a + ContextHeader + b| != |a|;
    assert a + ContextHeader + b + ContextHeader + c == a + ContextHeader + (b + ContextHeader + c);
  }

  /** The prompt `generate_response` sends for a question. */
  function PromptFor(query: string, chain: DbChain): (m: seq<Message>)
    ensures |m| == 2 && m[0] == Message(System, SystemPrompt) && m[1].role == Human
    ensures ParseHuman(m[1].content, |query|) == Some((query, RetrieveFromDb(query, chain)))
  {
    BuildMessages(query, RetrieveFromDb(query, chain))
  }

  /** `generate_response`: the model's reply to the prompt, verbatim, or an
      apology embedding the failure; never an exception. */
  function GenerateResponse(query: string, model: ChatModel, chain: DbChain): (r: string)
    ensures model(PromptFor(query, chain)).Returned? ==> r == model(PromptFor(query, chain)).value
    ensures model(PromptFor(query, chain)).Raised? ==>
              SorryPrefix <= r && r[|SorryPrefix|..] == model(PromptFor(query, chain)).message
  {
    match model(PromptFor(query, chain))
    case Returned(content) => content
    case Raised(e) => SorryPrefix + e
  }

  /** The model is consulted with one prompt only: two models that agree on
      it give the same answer. */
  lemma AnswerDependsOnlyOnPrompt(query: string, m1: ChatModel, m2: ChatModel, chain: DbChain)
    requires m1(PromptFor(query, chain)) == m2(PromptFor(query, chain))
    ensures GenerateResponse(query, m1, chain) == GenerateResponse(query, m2, chain)
  {
  }

  /** A database failure does not stop the pipeline: the error report becomes
      the context the model is asked to explain. */
  lemma DbFailureForwarded(query: string, chain: DbChain)
    requires ChainFailed(chain(query))
    ensures PromptFor(query, chain)[1].content == HumanText(query, RetrieveFromDb(query, chain))
    ensures DbErrorPrefix <= RetrieveFromDb(query, chain)
  {
  }
}
