/** The retrieval-augmented generation pipeline: documents are embedded and
    stored; a question is embedded, the nearest documents are retrieved, a
    numbered context and a prompt are built, and the language model answers.
    The embedding model and the chat-completion service are opaque functions;
    the calls made to them are recorded so that a call not made can be
    stated. */
module Pipeline {
  import opened Wrappers
  import opened Values
  import opened Database
  import opened VectorStores

  /** One call to the embedding model: a single text or a batch. */
  datatype EmbedCall = EmbedOne(text: string) | EmbedMany(texts: seq<string>)

  /** The sentence-transformer service: `encode` maps one text to its vector. */
  class EmbeddingService {
    const encode: string -> Vector
    const dimension: nat
    /** Every call made to the model so far, oldest first. */
    var calls: seq<EmbedCall>

    constructor (encode: string -> Vector)
      ensures this.encode == encode && dimension == 384 && calls == []
    {
      this.encode := encode;
      dimension := 384;
      calls := [];
    }

    method EmbedText(text: string) returns (v: Vector)
      modifies this`calls
      ensures v == encode(text)
      ensures calls == old(calls) + [EmbedOne(text)]
    {
      v := encode(text);
      calls := calls + [EmbedOne(text)];
    }

    /** One vector per text, in order, from a single batch call. */
    method EmbedBatch(texts: seq<string>) returns (vs: seq<Vector>)
      modifies this`calls
      ensures vs == EncodeAll(encode, texts)
      ensures calls == old(calls) + [EmbedMany(texts)]
    {
      vs := EncodeAll(encode, texts);
      calls := calls + [EmbedMany(texts)];
    }
  }

  function EncodeAll(encode: string -> Vector, texts: seq<string>): (vs: seq<Vector>)
    ensures |vs| == |texts|
    ensures forall i :: 0 <= i < |texts| ==> vs[i] == encode(texts[i])
  {
    seq(|texts|, i requires 0 <= i < |texts| => encode(texts[i]))
  }

  datatype Message = Message(role: string, content: string)

  datatype ChatRequest = ChatRequest(model: string, messages: seq<Message>, temperature: real, maxTokens: nat)

  /** The chat-completion service: `complete` gives the answer to a request. */
  class ChatClient {
    const complete: ChatRequest -> string
    /** Every request sent so far, oldest first. */
    var requests: seq<ChatRequest>

    constructor (complete: ChatRequest -> string)
      ensures this.complete == complete && requests == []
    {
      this.complete := complete;
      requests := [];
    }

    method Create(request: ChatRequest) returns (answer: string)
      modifies this`requests
      ensures answer == complete(request)
      ensures requests == old(requests) + [request]
    {
      answer := complete(request);
      requests := requests + [request];
    }
  }

  const DefaultModel: string := "llama-3.3-70b-versatile"
  const MaxTokens: nat := 500
  const PreviewLength: nat := 200
  const NoDocumentsAnswer: string := "No relevant documents found in the database."
  const SystemPrompt: string := "You are a helpful assistant that answers questions based on provided context."

  /** The fixed text of the user prompt around the context and the question. */
  const PromptHead: string :=
    "You are a helpful assistant. Answer the question based on the context provided.\n\nContext:\n"
  const PromptMiddle: string := "\n\nQuestion: "
  const PromptTail: string :=
    "\n\nAnswer: Provide a clear, concise answer based only on the information in the context. "
    + "If the context doesn't contain relevant information, say so."

  /** The user prompt: the context and the question, verbatim, at fixed places
      of the template. */
  function UserPrompt(context: string, question: string): (p: string)
    ensures |p| == |PromptHead| + |context| + |PromptMiddle| + |question| + |PromptTail|
    ensures p[..|PromptHead|] == PromptHead
    ensures p[|PromptHead|..|PromptHead| + |context|] == context
    ensures p[|PromptHead| + |context|..|PromptHead| + |context| + |PromptMiddle|] == PromptMiddle
    ensures p[|PromptHead| + |context| + |PromptMiddle|..|p| - |PromptTail|] == question
    ensures p[|p| - |PromptTail|..] == PromptTail
  {
    PromptHead + context + PromptMiddle + question + PromptTail
  }

  /** The request `_generate_answer` sends. */
  function AnswerRequest(model: string, context: string, question: string, temperature: real): ChatRequest
  {
    ChatRequest(
      model,
      [Message("system", SystemPrompt), Message("user", UserPrompt(context, question))],
      temperature,
      MaxTokens)
  }

  /** The context entry for the `n`-th retrieved document (numbered from 1). */
  function ContextPart(n: nat, text: Value): string
  {
    "Document " + NatToDecimal(n) + ":\n" + ToStr(text) + "\n"
  }

  function ContextParts(docs: seq<RetrievedDoc>): (parts: seq<string>)
    ensures |parts| == |docs|
  {
    seq(|docs|, i requires 0 <= i < |docs| => ContextPart(i + 1, docs[i].text))
  }

  /** The context: the numbered entries of the retrieved documents, joined by
      newlines. */
  function Context(docs: seq<RetrievedDoc>): string
  {
    Join("\n", ContextParts(docs))
  }

  /** An entry reads "Document ", the number, ":\n", the text through `str()`
      and a final newline; the number can be read back from it. */
  lemma ContextPartShape(n: nat, text: Value)
    ensures var p := ContextPart(n, text);
      var number := NatToDecimal(n);
      && |p| == 12 + |number| + |ToStr(text)|
      && p[..9] == "Document "
      && DecimalValue(p[9..9 + |number|]) == n
      && p[9 + |number|..11 + |number|] == ":\n"
      && p[11 + |number|..|p| - 1] == ToStr(text)
      && p[|p| - 1] == '\n'
  {
    var number, t := NatToDecimal(n), ToStr(text);
    var a := "Document " + number;
    var b := a + ":\n";
    var c := b + t;
    var p := c + "\n";
    assert p == ContextPart(n, text);
    assert |a| == 9 + |number| && |b| == |a| + 2 && |c| == |b| + |t|;
    assert p[..|c|] == c;
    assert p[..9] == c[..9] == b[..9] == a[..9] == "Document ";
    assert p[9..|a|] == c[9..|a|] == b[9..|a|] == a[9..] == number;
    assert p[|a|..|b|] == c[|a|..|b|] == b[|a|..] == ":\n";
    assert p[|b|..|c|] == c[|b|..] == t;
    DecimalRoundTrip(n);
  }

  /** In the context, the entry of the `i`-th document (0-based, so numbered
      `i + 1`) stands unchanged at its offset, a newline separates it from the
      next entry, and nothing follows the last entry. */
  lemma ContextEntryAt(docs: seq<RetrievedDoc>, i: nat)
    requires i < |docs|
    ensures var parts := ContextParts(docs);
      var o := JoinOffset("\n", parts, i);
      && parts[i] == ContextPart(i + 1, docs[i].text)
      && o + |parts[i]| <= |Context(docs)|
      && Context(docs)[o..o + |parts[i]|] == ContextPart(i + 1, docs[i].text)
      && (i + 1 < |docs| ==> JoinOffset("\n", parts, i + 1) <= |Context(docs)|)
      && (i + 1 < |docs| ==> Context(docs)[o + |parts[i]|..JoinOffset("\n", parts, i + 1)] == "\n")
      && (i + 1 == |docs| ==> o + |parts[i]| == |Context(docs)|)
  {
    var parts := ContextParts(docs);
    JoinAt("\n", parts, i);
    if i + 1 < |docs| {
      JoinSeparatorAt("\n", parts, i);
    } else {
      JoinEnd("\n", parts);
    }
  }

  /** The preview of a text: its first 200 characters and "...", appended
      even when nothing was cut. */
  function Preview(text: string): (p: string)
    ensures |p| == (if |text| <= PreviewLength then |text| else PreviewLength) + 3
    ensures p[..|p| - 3] <= text && p[|p| - 3..] == "..."
    ensures |text| <= PreviewLength ==> p == text + "..."
  {
    Prefix(text, PreviewLength) + "..."
  }

  datatype Source = Source(id: string, score: real, text: string)

  /** A retrieved text that is not a string cannot be cut and extended: the
      first such document (by position) makes the query fail. */
  datatype QueryError = TextNotAString(position: nat)

  /** The sources of a query: one per retrieved document, in order, with its
      id, score and text preview. */
  function Sources(docs: seq<RetrievedDoc>): (r: Result<seq<Source>, QueryError>)
    ensures r.Success? <==> forall i :: 0 <= i < |docs| ==> docs[i].text.Str?
    ensures r.Success? ==>
      && |r.value| == |docs|
      && forall i :: 0 <= i < |docs| ==>
           r.value[i] == Source(docs[i].id, docs[i].score, Preview(docs[i].text.s))
    ensures r.Failure? ==>
      && r.error.position < |docs| && !docs[r.error.position].text.Str?
      && forall i :: 0 <= i < r.error.position ==> docs[i].text.Str?
    decreases |docs|
  {
    if docs == [] then Success([])
    else if !docs[0].text.Str? then Failure(TextNotAString(0))
    else
      match Sources(docs[1..])
      case Success(rest) => Success([Source(docs[0].id, docs[0].score, Preview(docs[0].text.s))] + rest)
      case Failure(TextNotAString(k)) => Failure(TextNotAString(k + 1))
  }

  datatype QueryResult = QueryResult(answer: string, sources: seq<Source>, retrievedDocs: seq<RetrievedDoc>)

  /** The document texts, in order. */
  function Texts(documents: seq<Document>): (texts: seq<string>)
    ensures |texts| == |documents|
    ensures forall i :: 0 <= i < |documents| ==> texts[i] == documents[i].text
  {
    seq(|documents|, i requires 0 <= i < |documents| => documents[i].text)
  }

  class RagPipeline {
    const embedder: EmbeddingService
    const vectorStore: VectorStore
    const chat: ChatClient
    const modelName: string

    /** Builds the three components: the store's dimension is the embedding
        model's (384). The API keys only reach the client libraries, which are
        outside the model. */
    constructor (pineconeIndex: string, encode: string -> Vector, index: PineconeIndex,
                 complete: ChatRequest -> string, modelName: string := DefaultModel)
      ensures fresh(embedder) && fresh(vectorStore) && fresh(chat)
      ensures embedder.encode == encode && embedder.calls == []
      ensures vectorStore.indexName == pineconeIndex && vectorStore.dimension == 384
      ensures vectorStore.index == index && vectorStore.upserts == []
      ensures chat.complete == complete && chat.requests == []
      ensures this.modelName == modelName
    {
      var e := new EmbeddingService(encode);
      embedder := e;
      vectorStore := new VectorStore(pineconeIndex, e.dimension, index);
      chat := new ChatClient(complete);
      this.modelName := modelName;
    }

    /** Embeds and stores documents. No call at all for an empty list;
        otherwise one batch embedding of the texts in order, and the same
        documents with those vectors stored. The two lists always agree in
        length, so storing never fails. */
    method IndexDocuments(documents: seq<Document>)
      modifies embedder, vectorStore
      ensures documents == [] ==>
        embedder.calls == old(embedder.calls) && vectorStore.upserts == old(vectorStore.upserts)
      ensures documents != [] ==>
        && embedder.calls == old(embedder.calls) + [EmbedMany(Texts(documents))]
        && vectorStore.upserts == old(vectorStore.upserts)
             + Batches(Records(documents, EncodeAll(embedder.encode, Texts(documents))))
    {
      if documents == [] {
        return;
      }
      var texts := seq(|documents|, i requires 0 <= i < |documents| => documents[i].text);
      var embeddings := embedder.EmbedBatch(texts);
      var r := vectorStore.UpsertDocuments(documents, embeddings);
      assert r == Pass;
    }

    /** Answers a question. No retrieved document: the fixed answer, with no
        model call. Otherwise one model call with the numbered context, and the
        sources and the retrieved documents alongside the answer. */
    method Query(question: string, topK: int := 5, temperature: real := 0.7) returns (r: Result<QueryResult, QueryError>)
      modifies embedder, chat
      ensures embedder.calls == old(embedder.calls) + [EmbedOne(question)]
      ensures var docs := Retrieved(vectorStore.index.query(embedder.encode(question), topK));
        && (docs == [] ==>
              && r == Success(QueryResult(NoDocumentsAnswer, [], []))
              && chat.requests == old(chat.requests))
        && (docs != [] ==>
              var request := AnswerRequest(modelName, Context(docs), question, temperature);
              && chat.requests == old(chat.requests) + [request]
              && r == match Sources(docs)
                      case Success(sources) => Success(QueryResult(chat.complete(request), sources, docs))
                      case Failure(e) => Failure(e))
    {
      var queryEmbedding := embedder.EmbedText(question);
      var retrievedDocs := vectorStore.Search(queryEmbedding, topK);
      assert retrievedDocs == Retrieved(vectorStore.index.query(queryEmbedding, topK));
      if retrievedDocs == [] {
        return Success(QueryResult(NoDocumentsAnswer, [], []));
      }
      var context := BuildContext(retrievedDocs);
      var answer := GenerateAnswer(question, context, temperature);
      var sources := Sources(retrievedDocs);
      if sources.Failure? {
        return Failure(sources.error);
      }
      r := Success(QueryResult(answer, sources.value, retrievedDocs));
    }

    /** The numbered context, one entry per document, in retrieval order. */
    method BuildContext(documents: seq<RetrievedDoc>) returns (context: string)
      ensures context == Context(documents)
    {
      var contextParts := [];
      for i := 0 to |documents|
        invariant |contextParts| == i
        invariant forall j :: 0 <= j < i ==> contextParts[j] == ContextPart(j + 1, documents[j].text)
      {
        contextParts := contextParts + ["Document " + NatToDecimal(i + 1) + ":\n" + ToStr(documents[i].text) + "\n"];
      }
      assert contextParts == ContextParts(documents);
      context := Join("\n", contextParts);
    }

    /** One request to the model, with the system message and the user prompt. */
    method GenerateAnswer(question: string, context: string, temperature: real) returns (answer: string)
      modifies chat
      ensures chat.requests == old(chat.requests) + [AnswerRequest(modelName, context, question, temperature)]
      ensures answer == chat.complete(AnswerRequest(modelName, context, question, temperature))
    {
      var prompt := PromptHead + context + PromptMiddle + question + PromptTail;
      answer := chat.Create(ChatRequest(
        modelName,
        [Message("system", SystemPrompt), Message("user", prompt)],
        temperature,
        MaxTokens));
    }
  }
}
