// GeminiManager: the language-model side of the retrieval pipeline. A question
// is embedded for the similarity search, and the answer is generated from a
// prompt that states the instructions, the question and the retrieved context,
// one numbered line per hit with its relevance in percent.

module Gemini {
  import opened Values
  import opened Results
  import opened VectorStore

  /** The instructions ahead of the question; every instruction line ends in a space. */
  const Instruction: string :=
    "You are a helpful personal AI assistant with access to the user's relationship in collection. \n"
    + "Answer the user's question directly and naturally, without prefacing with phrases like \n"
    + "\"Based on your provided data\" or \"Thank you for asking\". \n"
    + "Do not add unnecessary disclaimers. \n"
    + "If relevant context is provided, weave it naturally into the answer. \n"
    + "If no context is relevant, give a general helpful response. \n"
    + "\n"
    + "User Question: "

  const ContextHeader: string := "\n\nRelevant Context from Personal Data:\n"

  const ContextClosing: string :=
    "\nPlease provide a helpful response based on the context above. If the context doesn't "
    + "contain relevant information, let the user know and provide a general helpful response."

  const NoContext: string := "\n\nNo relevant context found in personal data. Please provide a general helpful response."

  /** `generateEmbedding(text)`: the model's vector, or the provider's failure rethrown
      under a fixed message. `providerFails` is whether the embedding call throws. */
  method GenerateEmbedding(text: Value, providerFails: bool) returns (r: Result<Vector>)
    ensures providerFails <==> r.Err?
    ensures r.Err? ==> r.error == Failed("Failed to generate embedding")
    ensures r.Ok? ==> r.value == Embed(text) && Dimension(r.value) == EmbeddingSize
  {
    if providerFails {
      return Err(Failed("Failed to generate embedding"));
    }
    r := Ok(Embed(text));
  }

  /** The nearest whole number of tenths to `x >= 0`, a tie going up, as `toFixed(1)` picks it. */
  function NearestTenths(x: real): (n: nat)
    requires x >= 0.0
    ensures (n as real) - 0.5 <= 10.0 * x < (n as real) + 0.5
  {
    (10.0 * x + 0.5).Floor
  }

  /** `x.toFixed(1)` over exact reals: the sign of a negative `x`, then its magnitude
      to one decimal place. */
  function Fixed1(x: real): string
  {
    var n := NearestTenths(if x < 0.0 then -x else x);
    (if x < 0.0 then "-" else "") + NatToString(n / 10) + "." + [DigitChar(n % 10)]
  }

  /** Whole percentages keep their digits, ties round up in magnitude, and a small
      negative score keeps its sign. */
  lemma Fixed1Examples()
    ensures Fixed1(50.0) == "50.0"
    ensures Fixed1(87.25) == "87.3"
    ensures Fixed1(-0.04) == "-0.0"
  {
    assert NearestTenths(50.0) == 500;
    assert NatToString(50) == NatToString(5) + "0";
    assert NearestTenths(87.25) == 873;
    assert NatToString(87) == NatToString(8) + "7";
    assert NearestTenths(0.04) == 0;
  }

  /** The prompt up to and including the question. */
  function Header(query: Value): string
  {
    Instruction + JsString(query)
  }

  /** `${index + 1}. ${item.payload.content} (Relevance: ${(item.score * 100).toFixed(1)}%)` */
  function Line(index: nat, item: Hit): string
  {
    NatToString(index + 1) + ". " + JsString(Get(item.payload, "content"))
    + " (Relevance: " + Fixed1(item.score * 100.0) + "%)\n"
  }

  /** The context lines of the hits, numbered from 1 in the order of the hits. */
  function Lines(context: seq<Hit>): string
    decreases |context|
  {
    if context == [] then ""
    else Lines(context[..|context| - 1]) + Line(|context| - 1, context[|context| - 1])
  }

  /** The whole prompt `generateResponse(query, context)` sends to the chat model. */
  function PromptText(query: Value, context: seq<Hit>): string
  {
    if |context| > 0 then Header(query) + ContextHeader + Lines(context) + ContextClosing
    else Header(query) + NoContext
  }

  /** The line of hit `i` follows the lines of the hits before it. */
  lemma {:induction false} LinesInOrder(context: seq<Hit>, i: nat)
    requires i < |context|
    ensures Lines(context[..i]) + Line(i, context[i]) <= Lines(context)
    decreases |context|
  {
    var last := |context| - 1;
    var front := context[..last];
    if i < last {
      assert front[..i] == context[..i];
      assert front[i] == context[i];
      LinesInOrder(front, i);
    } else {
      assert context[..i] == front;
    }
  }

  /** Adding the next hit appends its line. */
  lemma LinesStep(context: seq<Hit>, i: nat)
    requires i < |context|
    ensures Lines(context[..i + 1]) == Lines(context[..i]) + Line(i, context[i])
  {
    assert context[..i + 1][..i] == context[..i];
  }

  /** Text inside the third part of a concatenation keeps its place in the whole. */
  lemma PrefixWithin(p: string, q: string, x: string, y: string, whole: string, tail: string)
    requires x + y <= whole
    ensures p + q + x + y <= p + q + whole + tail
  {
    var s := p + q + whole + tail;
    var t := p + q + x + y;
    forall k | 0 <= k < |t|
      ensures t[k] == s[k]
    {
      if k >= |p| + |q| {
        assert t[k] == (x + y)[k - |p| - |q|] == whole[k - |p| - |q|];
      }
    }
  }

  /** A text starts every text built by appending to it. */
  lemma StartsWith(h: string, rest: string, s: string)
    requires s == h + rest
    ensures |h| <= |s| && s[..|h|] == h
  {
  }

  /** Every hit's line appears in the prompt, right after the question, the context
      header and the lines of the hits ranked before it. */
  lemma PromptListsEveryHit(query: Value, context: seq<Hit>, i: nat)
    requires i < |context|
    ensures Header(query) + ContextHeader + Lines(context[..i]) + Line(i, context[i]) <= PromptText(query, context)
  {
    LinesInOrder(context, i);
    assert PromptText(query, context) == Header(query) + ContextHeader + Lines(context) + ContextClosing;
    PrefixWithin(Header(query), ContextHeader, Lines(context[..i]), Line(i, context[i]), Lines(context), ContextClosing);
  }

  /** Both prompts start with the instructions followed by the question as written. */
  lemma PromptAsksTheQuestion(query: Value, context: seq<Hit>)
    ensures |Header(query)| <= |PromptText(query, context)|
    ensures PromptText(query, context)[..|Header(query)|] == Header(query)
  {
    var head := Header(query);
    if |context| > 0 {
      var rest := ContextHeader + Lines(context) + ContextClosing;
      AppendStep(head + ContextHeader, Lines(context), ContextClosing);
      AppendStep(head, ContextHeader, Lines(context) + ContextClosing);
      AppendStep(ContextHeader, Lines(context), ContextClosing);
      StartsWith(head, rest, PromptText(query, context));
    } else {
      StartsWith(head, NoContext, PromptText(query, context));
    }
  }

  lemma AppendStep(a: string, b: string, c: string)
    ensures a + b + c == a + (b + c)
  {
  }

  /** The `prompt +=` steps of `generateResponse`: the question, then either the
      numbered context lines with the closing request or the no-context note. */
  method BuildPrompt(query: Value, context: seq<Hit>) returns (prompt: string)
    ensures prompt == PromptText(query, context)
  {
    prompt := Header(query);
    if |context| > 0 {
      prompt := prompt + ContextHeader;
      ghost var head := prompt;
      for i := 0 to |context|
        invariant prompt == head + Lines(context[..i])
      {
        LinesStep(context, i);
        AppendStep(head, Lines(context[..i]), Line(i, context[i]));
        prompt := prompt + Line(i, context[i]);
      }
      assert context[..|context|] == context;
      prompt := prompt + ContextClosing;
    } else {
      prompt := prompt + NoContext;
    }
  }

  /** `generateResponse(query, context)`: `generate` is the chat model, answering the
      prompt with a text or failing; a failure is rethrown under a fixed message. */
  method GenerateResponse(query: Value, context: seq<Hit>, generate: string -> Option<string>) returns (r: Result<string>)
    ensures generate(PromptText(query, context)).None? <==> r.Err?
    ensures r.Err? ==> r.error == Failed("Failed to generate response")
    ensures r.Ok? ==> r.value == generate(PromptText(query, context)).value
  {
    var prompt := BuildPrompt(query, context);
    var answer := generate(prompt);
    if answer.None? {
      return Err(Failed("Failed to generate response"));
    }
    r := Ok(answer.value);
  }
}
