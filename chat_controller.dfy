// The chat endpoint: validates the environment and the request, embeds the
// question, retrieves the three most similar training texts, asks the chat model
// for an answer over them and reports the answer with a preview of each
// retrieved document. Every failure after validation becomes a 500 carrying the
// thrown message.

module ChatController {
  import opened Values
  import opened Results
  import opened VectorStore
  import opened Qdrant
  import opened Gemini

  /** `GEMINI_API_KEY` and `QDRANT_URL` as the process environment holds them. */
  datatype Env = Env(geminiApiKey: Value, qdrantUrl: Value)

  /** A retrieved document as the response shaping reads it: `doc.id`, `doc.score`,
      `doc.text` and `doc.timestamp`. */
  datatype Doc = Doc(id: Value, score: real, text: Value, timestamp: Value)

  /** One entry of `context.relevantDocs`. */
  datatype RelevantDoc = RelevantDoc(id: Value, relevanceScore: real, textPreview: string, timestamp: Value)

  /** The JSON the endpoint answers with: the 200 body, or a status with `error` and,
      for thrown errors, `details`. */
  datatype ChatResponse =
    | Answered(query: string, response: string, documentsFound: nat, relevantDocs: seq<RelevantDoc>,
               queryLength: nat, embeddingSize: nat, responseLength: nat)
    | Refused(status: nat, error: string, details: Option<string>)

  const PreviewLength: nat := 150
  const ChatFailure: string := "Internal server error during chat"

  /** `!process.env.GEMINI_API_KEY || !process.env.QDRANT_URL` fails the request. */
  predicate EnvReady(env: Env)
  {
    Truthy(env.geminiApiKey) && Truthy(env.qdrantUrl)
  }

  /** `text.substring(0, 150) + (text.length > 150 ? '...' : '')` */
  function Preview(text: string): (p: string)
    ensures |p| <= PreviewLength + 3
    ensures |text| <= PreviewLength ==> p == text
    ensures |text| > PreviewLength ==>
      (|p| == PreviewLength + 3 && p[..PreviewLength] == text[..PreviewLength] && p[PreviewLength..] == "...")
  {
    if |text| > PreviewLength then text[..PreviewLength] + "..." else text
  }

  /** A preview is never the marker alone: it starts with the text's own first characters. */
  lemma PreviewStartsWithText(text: string)
    ensures var n := if |text| < PreviewLength then |text| else PreviewLength;
      text[..n] <= Preview(text)
  {
  }

  /** `Math.round(x * 100) / 100` over exact reals: a whole number of hundredths,
      at most half a hundredth away from `x`. */
  function Round2(x: real): (r: real)
    ensures (r * 100.0).Floor as real == r * 100.0
    ensures -0.005 < r - x <= 0.005
  {
    (100.0 * x + 0.5).Floor as real / 100.0
  }

  /** The mapping of one document, or the TypeError `doc.text.substring` raises when
      the text is not a string. */
  function ShapeDoc(d: Doc): (r: Result<RelevantDoc>)
    ensures r.Ok? <==> d.text.Str?
    ensures r.Ok? ==>
      (&& r.value.id == d.id && r.value.timestamp == d.timestamp
       && r.value.textPreview == Preview(d.text.s) && r.value.relevanceScore == Round2(d.score))
  {
    if d.text.Str? then Ok(RelevantDoc(d.id, Round2(d.score), Preview(d.text.s), d.timestamp))
    else if Nullish(d.text) then
      Err(TypeFault(ReadFault(d.text, "substring")))
    else Err(TypeFault("doc.text.substring is not a function"))
  }

  /** `similarDocs.map(...)`: one entry per document in order, or the error of the
      first document whose text is not a string. */
  function ShapeDocs(docs: seq<Doc>): (r: Result<seq<RelevantDoc>>)
    ensures r.Ok? <==> forall i :: 0 <= i < |docs| ==> docs[i].text.Str?
    ensures r.Ok? ==> |r.value| == |docs| && forall i :: 0 <= i < |docs| ==> r.value[i] == ShapeDoc(docs[i]).value
    ensures r.Err? ==> exists i ::
      (&& 0 <= i < |docs| && !docs[i].text.Str? && r.error == ShapeDoc(docs[i]).error
       && forall j :: 0 <= j < i ==> docs[j].text.Str?)
    decreases |docs|
  {
    if docs == [] then Ok([])
    else
      var head := ShapeDoc(docs[0]);
      if head.Err? then Err(head.error)
      else
        var tail := ShapeDocs(docs[1..]);
        if tail.Err? then
          assert forall i :: 0 < i < |docs| ==> docs[i] == docs[1..][i - 1];
          Err(tail.error)
        else Ok([head.value] + tail.value)
  }

  /** `searchSimilar` answers `{id, score, payload}`: the text and timestamp are
      fields of the payload, so `doc.text` and `doc.timestamp` read as undefined. */
  function AsDoc(h: Hit): Doc
  {
    Doc(h.id, h.score, Undefined, Undefined)
  }

  function AsDocs(hits: seq<Hit>): (docs: seq<Doc>)
    ensures |docs| == |hits|
    ensures forall i :: 0 <= i < |hits| ==> docs[i] == AsDoc(hits[i])
  {
    seq(|hits|, i requires 0 <= i < |hits| => AsDoc(hits[i]))
  }

  /** The endpoint's answer once the question is embedded and the hits are found:
      `generated` is the chat model's answer to the prompt over the hits. */
  function Respond(query: string, embedding: Vector, hits: seq<Hit>, generated: Option<string>): ChatResponse
  {
    if generated.None? then Refused(500, ChatFailure, Some("Failed to generate response"))
    else
      var docs := ShapeDocs(AsDocs(hits));
      if docs.Err? then Refused(500, ChatFailure, Some(docs.error.message))
      else Answered(query, generated.value, |hits|, docs.value, |query|, Dimension(embedding), |generated.value|)
  }

  /** With no similar document the answer is reported with empty context and the
      lengths of the question, the embedding and the answer. */
  lemma AnswerWithoutHits(query: string, embedding: Vector, answer: string)
    ensures Respond(query, embedding, [], Some(answer))
      == Answered(query, answer, 0, [], |query|, Dimension(embedding), |answer|)
  {
    assert ShapeDocs(AsDocs([])) == Ok([]);
  }

  /** As written, any retrieved document makes the shaping throw, so the generated
      answer is discarded and the endpoint fails. */
  lemma AnyHitFailsTheChat(query: string, embedding: Vector, hits: seq<Hit>, answer: string)
    requires |hits| > 0
    ensures Respond(query, embedding, hits, Some(answer)) == Refused(500, ChatFailure, Some(ReadFault(Undefined, "substring")))
  {
    var docs := AsDocs(hits);
    assert ShapeDoc(docs[0]) == Err(TypeFault(ReadFault(Undefined, "substring")));
    assert ShapeDocs(docs) == Err(TypeFault(ReadFault(Undefined, "substring")));
  }

  /** As written, the endpoint never answers over a non-empty collection: the search
      returns at least one hit, and shaping it throws. */
  lemma StoredDataFailsTheChat(query: string, embedding: Vector, hits: seq<Hit>, pts: map<Value, Point>,
                               answer: string)
    requires Hits(hits, pts, DefaultSearchLimit) && |pts| > 0
    ensures Respond(query, embedding, hits, Some(answer))
      == Refused(500, ChatFailure, Some(ReadFault(Undefined, "substring")))
  {
    AnyHitFailsTheChat(query, embedding, hits, answer);
  }

  /** Documents that do carry their text are reported one for one, in retrieval order. */
  lemma DocsWithTextAreReported(docs: seq<Doc>)
    requires forall i :: 0 <= i < |docs| ==> docs[i].text.Str?
    ensures var r := ShapeDocs(docs);
      && r.Ok? && |r.value| == |docs|
      && forall i :: 0 <= i < |docs| ==>
           r.value[i].id == docs[i].id && r.value[i].textPreview == Preview(docs[i].text.s)
  {
  }

  /** `chat(req, res)`: `body` is `req.body`, `manager` the `QdrantManager` it
      creates, `embeddingFails` whether the embedding provider throws and
      `generate` the chat model. */
  method Chat(env: Env, body: Payload, manager: QdrantManager, embeddingFails: bool,
              generate: string -> Option<string>) returns (resp: ChatResponse)
    modifies manager.store
    ensures !EnvReady(env) ==>
      resp == Refused(500, "Missing required environment variables", None) && unchanged(manager.store)
    ensures var query := Get(body, "query");
      EnvReady(env) && !Truthy(query) ==>
        resp == Refused(400, "Missing required field: query", None) && unchanged(manager.store)
    ensures var query := Get(body, "query");
      EnvReady(env) && Truthy(query) && !NonBlankString(query) ==>
        resp == Refused(400, "Query must be a non-empty string", None) && unchanged(manager.store)
    ensures var query := Get(body, "query");
      EnvReady(env) && NonBlankString(query) && embeddingFails ==>
        resp == Refused(500, ChatFailure, Some("Failed to generate embedding")) && unchanged(manager.store)
    ensures var query := Get(body, "query");
      EnvReady(env) && NonBlankString(query) && !embeddingFails ==>
        && manager.store.collections == manager.Ready(old(manager.store.collections), manager.collectionName)
        && exists hits ::
             && Hits(hits, PointsOf(manager.store.collections, manager.collectionName), DefaultSearchLimit)
             && resp == Respond(query.s, Embed(query), hits, generate(PromptText(query, hits)))
  {
    if !Truthy(env.geminiApiKey) || !Truthy(env.qdrantUrl) {
      return Refused(500, "Missing required environment variables", None);
    }
    var query := Get(body, "query");
    if !Truthy(query) {
      return Refused(400, "Missing required field: query", None);
    }
    if !query.Str? || IsBlank(query.s) {
      return Refused(400, "Query must be a non-empty string", None);
    }
    var embedding := GenerateEmbedding(query, embeddingFails);
    if embedding.Err? {
      return Refused(500, ChatFailure, Some(embedding.error.message));
    }
    var similar := manager.SearchSimilar(embedding.value, DefaultSearchLimit);
    var hits := similar.value;
    var response := GenerateResponse(query, hits, generate);
    if response.Err? {
      resp := Refused(500, ChatFailure, Some(response.error.message));
    } else {
      var docs := ShapeDocs(AsDocs(hits));
      if docs.Err? {
        resp := Refused(500, ChatFailure, Some(docs.error.message));
      } else {
        resp := Answered(query.s, response.value, |hits|, docs.value, |query.s|, Dimension(embedding.value),
                         |response.value|);
      }
    }
    assert resp == Respond(query.s, Embed(query), hits, generate(PromptText(query, hits)));
  }
}
