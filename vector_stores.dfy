/** The vector store: documents and their embeddings become index records
    that are sent in batches of 100, and query matches come back as
    documents. The index service is outside the model: `upsert` is recorded
    in a log of batches, and `query` is an opaque function of the query
    vector and `top_k`. */
module VectorStores {
  import opened Wrappers
  import opened Values
  import opened Database

  /** An embedding; its numbers are carried, never inspected. */
  type Vector = seq<real>

  /** One record of an upsert request. */
  datatype VectorRecord = VectorRecord(id: string, values: Vector, metadata: map<string, Value>)

  /** One match of a query response, as the index returns it. */
  datatype QueryMatch = QueryMatch(id: string, score: real, metadata: map<string, Value>)

  /** One match as the store hands it on: the `text` metadata entry split out. */
  datatype RetrievedDoc = RetrievedDoc(id: string, score: real, text: Value, metadata: map<string, Value>)

  /** What the index service answers to a query. */
  datatype PineconeIndex = PineconeIndex(query: (Vector, int) -> seq<QueryMatch>)

  datatype UpsertError = LengthMismatch(documents: nat, embeddings: nat)

  /** Characters of a document's text kept in its record's metadata. */
  const MetadataTextLimit: nat := 1000
  /** Records per upsert request. */
  const BatchSize: nat := 100

  /** The record for one document: the text cut to 1000 characters under the
      key "text", then the document's own metadata, which wins on a clash. */
  function RecordOf(doc: Document, embedding: Vector): VectorRecord
  {
    VectorRecord(doc.id, embedding, map["text" := Str(Prefix(doc.text, MetadataTextLimit))] + doc.metadata)
  }

  /** The metadata of a record keeps every metadata entry of its document, and
      under "text" holds the first 1000 characters of the document's text unless
      the document's metadata has a "text" entry of its own. */
  lemma RecordMetadata(doc: Document, embedding: Vector)
    ensures RecordOf(doc, embedding).metadata.Keys == doc.metadata.Keys + {"text"}
    ensures forall k :: k in doc.metadata ==> RecordOf(doc, embedding).metadata[k] == doc.metadata[k]
    ensures "text" !in doc.metadata ==>
      && RecordOf(doc, embedding).metadata["text"] == Str(Prefix(doc.text, MetadataTextLimit))
      && |Prefix(doc.text, MetadataTextLimit)| <= MetadataTextLimit
      && Prefix(doc.text, MetadataTextLimit) <= doc.text
      && (|doc.text| <= MetadataTextLimit ==> Prefix(doc.text, MetadataTextLimit) == doc.text)
  {
  }

  /** The records for a list of documents and their embeddings, pairwise. */
  function Records(documents: seq<Document>, embeddings: seq<Vector>): (records: seq<VectorRecord>)
    requires |documents| == |embeddings|
    ensures |records| == |documents|
  {
    seq(|documents|, i requires 0 <= i < |documents| => RecordOf(documents[i], embeddings[i]))
  }

  /** `s[lo:hi]` for `0 <= lo <= hi`: the bounds are clamped to the length. */
  function Slice<T>(s: seq<T>, lo: nat, hi: nat): (r: seq<T>)
    requires lo <= hi
    ensures |r| <= hi - lo
  {
    if lo >= |s| then [] else if hi >= |s| then s[lo..] else s[lo..hi]
  }

  /** The consecutive slices `s[i:i+100]` for `i` in `range(0, len(s), 100)`. */
  function Batches<T>(s: seq<T>): seq<seq<T>>
    decreases |s|
  {
    if s == [] then []
    else if |s| <= BatchSize then [s]
    else [s[..BatchSize]] + Batches(s[BatchSize..])
  }

  function Flatten<T>(batches: seq<seq<T>>): seq<T>
    decreases |batches|
  {
    if batches == [] then [] else batches[0] + Flatten(batches[1..])
  }

  /** The batches, put back together, are the records in their order; no
      batch is empty or larger than 100; and there are ceil(n / 100) of
      them. */
  lemma {:induction false} BatchesPartition<T>(s: seq<T>)
    ensures Flatten(Batches(s)) == s
    ensures forall b :: b in Batches(s) ==> 0 < |b| <= BatchSize
    ensures |Batches(s)| == (|s| + BatchSize - 1) / BatchSize
    decreases |s|
  {
    if s == [] {
    } else if |s| <= BatchSize {
      assert Batches(s) == [s];
      assert Flatten([s]) == s + Flatten([]);
      assert (|s| + BatchSize - 1) / BatchSize == 1;
    } else {
      var rest := s[BatchSize..];
      BatchesPartition(rest);
      var bs := Batches(s);
      assert bs == [s[..BatchSize]] + Batches(rest);
      assert bs[1..] == Batches(rest);
      assert s[..BatchSize] + rest == s;
    }
  }

  /** Batch `j` is exactly the slice `s[j*100 : j*100 + 100]`. */
  lemma {:induction false} BatchAt<T>(s: seq<T>, j: nat)
    requires j < |Batches(s)|
    ensures j * BatchSize < |s|
    ensures Batches(s)[j] == Slice(s, j * BatchSize, j * BatchSize + BatchSize)
    decreases j
  {
    if j == 0 {
      if |s| <= BatchSize {
        assert Batches(s) == [s];
      }
    } else {
      var rest := s[BatchSize..];
      assert Batches(s) == [s[..BatchSize]] + Batches(rest);
      BatchAt(rest, j - 1);
      var lo := (j - 1) * BatchSize;
      assert j * BatchSize == lo + BatchSize;
      if lo + BatchSize >= |rest| {
        assert Slice(s, j * BatchSize, j * BatchSize + BatchSize) == s[j * BatchSize..] == rest[lo..];
      } else {
        assert Slice(s, j * BatchSize, j * BatchSize + BatchSize) == rest[lo..lo + BatchSize];
      }
    }
  }

  /** The record of a document without a "text" metadata entry comes back from
      a query with the document's id, the first 1000 characters of its text
      and its metadata unchanged. */
  lemma RecordRoundTrip(doc: Document, embedding: Vector, score: real)
    requires "text" !in doc.metadata
    ensures FormatMatch(QueryMatch(RecordOf(doc, embedding).id, score, RecordOf(doc, embedding).metadata))
         == RetrievedDoc(doc.id, score, Str(Prefix(doc.text, MetadataTextLimit)), doc.metadata)
  {
    var md := RecordOf(doc, embedding).metadata;
    assert md - {"text"} == doc.metadata;
  }

  /** A query match as handed on: `text` is the metadata's "text" entry, or ""
      when there is none, and the metadata loses that entry. */
  function FormatMatch(m: QueryMatch): (d: RetrievedDoc)
    ensures d.id == m.id && d.score == m.score
    ensures "text" in m.metadata ==> d.text == m.metadata["text"]
    ensures "text" !in m.metadata ==> d.text == Str("")
    ensures "text" !in d.metadata && d.metadata.Keys == m.metadata.Keys - {"text"}
    ensures forall k :: k in d.metadata ==> d.metadata[k] == m.metadata[k]
  {
    RetrievedDoc(
      m.id, m.score,
      if "text" in m.metadata then m.metadata["text"] else Str(""),
      map k | k in m.metadata && k != "text" :: m.metadata[k])
  }

  /** The documents a query response turns into, one per match, in order. */
  function Retrieved(matches: seq<QueryMatch>): (docs: seq<RetrievedDoc>)
    ensures |docs| == |matches|
  {
    seq(|matches|, i requires 0 <= i < |matches| => FormatMatch(matches[i]))
  }

  /** Builds the records one document at a time. */
  method PrepareRecords(documents: seq<Document>, embeddings: seq<Vector>) returns (vectors: seq<VectorRecord>)
    requires |documents| == |embeddings|
    ensures |vectors| == |documents|
    ensures forall i :: 0 <= i < |documents| ==>
      && vectors[i].id == documents[i].id
      && vectors[i].values == embeddings[i]
      && vectors[i].metadata == map["text" := Str(Prefix(documents[i].text, MetadataTextLimit))] + documents[i].metadata
  {
    vectors := [];
    for i := 0 to |documents|
      invariant |vectors| == i
      invariant forall j :: 0 <= j < i ==> vectors[j] == RecordOf(documents[j], embeddings[j])
    {
      var doc := documents[i];
      vectors := vectors + [VectorRecord(
        doc.id,
        embeddings[i],
        map["text" := Str(Prefix(doc.text, MetadataTextLimit))] + doc.metadata)];
    }
  }

  class VectorStore {
    const indexName: string
    const dimension: nat
    const index: PineconeIndex
    /** Every upsert request sent to the index so far, oldest first. */
    var upserts: seq<seq<VectorRecord>>

    constructor (indexName: string, dimension: nat, index: PineconeIndex)
      ensures this.indexName == indexName && this.dimension == dimension && this.index == index
      ensures upserts == []
    {
      this.indexName := indexName;
      this.dimension := dimension;
      this.index := index;
      upserts := [];
    }

    /** Stores documents with their embeddings: refused, with nothing sent,
        when the two lists differ in length; otherwise the records go out in
        consecutive batches of at most 100. */
    method UpsertDocuments(documents: seq<Document>, embeddings: seq<Vector>) returns (r: Outcome<UpsertError>)
      modifies this`upserts
      ensures |documents| != |embeddings| ==>
        r == Fail(LengthMismatch(|documents|, |embeddings|)) && upserts == old(upserts)
      ensures |documents| == |embeddings| ==>
        r == Pass && upserts == old(upserts) + Batches(Records(documents, embeddings))
    {
      if |documents| != |embeddings| {
        return Fail(LengthMismatch(|documents|, |embeddings|));
      }
      var vectors := PrepareRecords(documents, embeddings);
      assert vectors == Records(documents, embeddings);
      var i := 0;
      assert Drop(vectors, 0) == vectors;
      while i < |vectors|
        invariant old(upserts) + Batches(vectors) == upserts + Batches(Drop(vectors, i))
        decreases |vectors| - i
      {
        var batch := Slice(vectors, i, i + BatchSize);
        upserts := upserts + [batch];
        BatchStep(vectors, i);
        i := i + BatchSize;
      }
      assert Drop(vectors, i) == [];
      r := Pass;
    }

    /** The store's answer to a query vector: every match of the index's
        response, in order, formatted. */
    method Search(queryEmbedding: Vector, topK: int := 5) returns (matches: seq<RetrievedDoc>)
      ensures var response := index.query(queryEmbedding, topK);
        && |matches| == |response|
        && forall i :: 0 <= i < |response| ==> matches[i] == FormatMatch(response[i])
    {
      var results := index.query(queryEmbedding, topK);
      matches := [];
      for i := 0 to |results|
        invariant |matches| == i
        invariant forall j :: 0 <= j < i ==> matches[j] == FormatMatch(results[j])
      {
        var m := results[i];
        matches := matches + [RetrievedDoc(
          m.id, m.score,
          if "text" in m.metadata then m.metadata["text"] else Str(""),
          map k | k in m.metadata && k != "text" :: m.metadata[k])];
      }
    }
  }

  /** The records from offset `i` on: `s[i:]`. */
  function Drop<T>(s: seq<T>, i: nat): seq<T>
  {
    if i >= |s| then [] else s[i..]
  }

  /** One step of the batching loop: the batches of the records from offset
      `i` are the batch at `i` followed by those from `i + BatchSize`. */
  lemma BatchStep<T>(s: seq<T>, i: nat)
    requires i < |s|
    ensures Batches(Drop(s, i))
         == [Slice(s, i, i + BatchSize)] + Batches(Drop(s, i + BatchSize))
  {
    var rest := s[i..];
    if |rest| <= BatchSize {
      assert Drop(s, i + BatchSize) == [];
    } else {
      assert rest[..BatchSize] == s[i..i + BatchSize];
      assert rest[BatchSize..] == s[i + BatchSize..];
    }
  }
}
