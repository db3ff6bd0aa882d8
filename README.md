# AutoRAG core in Dafny

AutoRAG fetches documents from a Supabase table, embeds them, stores the
vectors in a Pinecone index, and answers a question with a Groq language
model over the nearest documents. Around the vendor SDK calls sit a few small
deterministic rules. This project models those rules and proves properties
about them:

- **Configuration validation** (`config.dfy`, module `Config`). The database
  block is a union tagged by `type`. Each type has its own required fields.
  The API keys must not be blank. The optimisation settings have bounds and
  defaults. Every validator either returns its input unchanged or records an
  error. Errors are collected in field order. A field that is left out takes
  its default and is not validated.
- **Row to document normalisation** (`database.dfy`, module `Database`,
  class `SupabaseConnector`). A row is skipped when its id or its text is
  falsy. The id and the text go through `str()`. Every other column becomes
  metadata. The table and column names have fallbacks.
- **Vector records and batching** (`vector_stores.dfy`, module
  `VectorStores`, class `VectorStore`). The document and embedding lists must
  have the same length. Each record's metadata holds the document text cut to
  1000 characters. Records are sent in consecutive batches of 100. Query
  matches come back with the `text` entry split out of their metadata.
- **Pipeline shaping** (`pipeline.dfy`, module `Pipeline`, class
  `RagPipeline`). An empty document list makes no calls. An empty retrieval
  result gives a fixed answer and no model call. The context is a numbered
  list of the retrieved documents. The prompt template is fixed. Source
  previews are 200 characters followed by `"..."`.
- `values.dfy` (module `Values`) models the parts of Python that this code
  relies on: truth values, `str()`, `str.strip()`, `s[:n]` and
  `"\n".join`. `wrappers.dfy` holds the Option, Result and Outcome types
  used for error paths.

The SDKs are treated as opaque:

- Supabase `select(...).limit(n).execute()` and the exact count are
  functions of the table name (and limit). The connector receives them.
- Pinecone `query` is a function of the query vector and `top_k`.
- Pinecone `upsert` appends a batch to the store's `upserts` log.
- The sentence-transformer model is a function `encode` from text to vector.
  Its calls are logged in `EmbeddingService.calls`.
- Groq chat completion is a function from the request to the answer. Its
  requests are logged in `ChatClient.requests`.

The errors the code raises itself become `Failure`/`Fail` values: a
validation error, a database type other than `supabase`, document and
embedding lists of different lengths, and a retrieved text that is not a
string. The SDK stand-ins above are total, so no client call fails in the
model. Floats (scores, temperature, vector components) are carried as `real`
and never inspected.

What the validators accept, stated from the code:

- A `postgresql` block requires only `host`. `user` and `password` are never
  checked (`autorag/utils/config.py:64-70`).
- A `supabase` block that leaves out `url` or `key` is accepted, because
  omitted fields take their default without being validated
  (`autorag/utils/config.py:19-20`, `40-54`). Only a url or key given as null
  or `""` is rejected.
- `text_column` and `id_column` are declared three times. The last
  declaration wins, so the defaults are `"content"` and `"id"`.

Behaviour worth knowing that the model makes explicit:

- In `upsert_documents` the document metadata is spread after `"text"`. A
  metadata entry named `"text"` therefore replaces the truncated document
  text (`RecordMetadata`). Only without such an entry does a record come back
  from a query with the document's truncated text (`RecordRoundTrip`).
- After that replacement a retrieved `text` may not be a string. `query` then
  fails with a type error while building the source previews. This happens
  after the model has already been called (`RagPipeline.Query`, `Sources`).

## Model

| member | source | states |
|---|---|---|
| `Config.ParseDatabaseType` | autorag/utils/config.py:14-16 | exactly the three literals "supabase", "mongodb" and "postgresql" are database types, and each parses back to its own name |
| `Config.CheckType` | autorag/utils/config.py:14-16 | `type` is required; it is accepted exactly when it is one of the three literals, and the accepted type is the given name |
| `Config.RequiredFor` | autorag/utils/config.py:40-70 | a per-type validator fails exactly when the validated type is its own and the field was given as null or ""; otherwise it returns the given value unchanged; an omitted field is not validated |
| `Config.ValidateDatabase` | autorag/utils/config.py:11-70 | the database block is accepted exactly when its type is a valid literal and the fields that type needs (supabase: url and key; mongodb: connection_string; postgresql: host) are not given falsy; an accepted block holds the given values or the defaults (text_column "content", id_column "id"); each per-type error is reported exactly when its type and field condition hold, and a missing type is reported exactly when it is omitted |
| `Config.SupabaseWithCredentialsAccepted` | autorag/utils/config.py:40-54 | a supabase block with a non-empty url and key is accepted and keeps both |
| `Config.CheckKey` | autorag/utils/config.py:80-94 | an API key is accepted exactly when it was given as a string with a non-white-space character, and is then returned unchanged; absent or null keys are errors |
| `Config.CheckString` | autorag/utils/config.py:78 | `pinecone_index` defaults to "autorag" and otherwise takes any given string |
| `Config.ValidateApiKeys` | autorag/utils/config.py:73-94 | the keys block is accepted exactly when both keys have a non-white-space character and the index name is not null; the accepted keys are the given ones and the index name defaults to "autorag" |
| `Config.CheckBounded` | autorag/utils/config.py:100-111 | an omitted bounded integer takes its default; a given one is accepted exactly within [lo, hi], unchanged, and otherwise fails with the bound it broke |
| `Config.ValidateOptimization` | autorag/utils/config.py:97-111 | accepted exactly when num_experiments (if given) lies in [1,100] and test_questions (if given) in [10,500]; defaults 20 and 50; every accepted block is in range |
| `Config.Block` | autorag/utils/config.py:117-119 | a nested block is required: it succeeds exactly when it was given, not null, and its own validation succeeds, and its error count is that validation's |
| `Config.ValidateConfig` | autorag/utils/config.py:114-119 | the whole configuration is accepted exactly when all three blocks are given and accepted; its parts are the blocks' validated values and its optimisation settings are in range |
| `Values.StripBlank` | autorag/utils/config.py:84-86 | `s.strip() == ""` exactly when every character of `s` is Python white space |
| `Values.DecimalRoundTrip` | autorag/rag/pipeline.py:114-115 | the decimal text `str(n)` of a natural number reads back as `n` |
| `Values.Prefix` | autorag/rag/vector_store.py:67 | `s[:n]` is a prefix of `s` of length min(len(s), n) |
| `Values.JoinAt` | autorag/rag/pipeline.py:116 | in `sep.join(parts)` each part stands unchanged at its offset |
| `Values.JoinSeparatorAt` | autorag/rag/pipeline.py:116 | in `sep.join(parts)` the separator stands between each part and the next |
| `Values.JoinEnd` | autorag/rag/pipeline.py:116 | `sep.join(parts)` ends right after its last part, with no trailing separator |
| `Database.OrDefault` | autorag/database/supabase.py:25-27 | `value or default`: a non-empty value is kept, a null or empty one gives the default |
| `Database.ToDocument` | autorag/database/supabase.py:76-91 | a document's id and text are `str()` of the row's id and text values, and its metadata is the row without the id and text columns, values unchanged |
| `Database.NormalizeAppend` | autorag/database/supabase.py:73-93 | rows are processed in order, one at a time: the documents of `a + b` are those of `a` followed by those of `b` |
| `Database.NormalizeLength` | autorag/database/supabase.py:73-93 | never more documents than rows; one document per row when every row has a truthy id and text |
| `Database.NormalizeMembers` | autorag/database/supabase.py:76-91 | a document is emitted exactly when some row with a truthy id and a truthy text produces it |
| `Database.NormalizeNoneKept` | autorag/database/supabase.py:80-81 | rows that all lack a truthy id or text give no documents |
| `Database.CountOrZero` | autorag/database/supabase.py:107 | a reported count is returned as is, a null count gives 0 |
| `Database.SupabaseConnector.constructor` | autorag/database/supabase.py:23-27 | the table name, text column and id column fall back to "documents", "content" and "id" when the configured value is null or empty |
| `Database.SupabaseConnector.Connect` | autorag/database/supabase.py:20-27 | opening a connector fails exactly when the type is not supabase; otherwise the new connector has the fallback names |
| `Database.SupabaseConnector.FetchDocuments` | autorag/database/supabase.py:46-93 | with `limit` defaulting to 100, the result is the normalisation of the returned rows in order, and empty when the data is null or empty |
| `Database.SupabaseConnector.CountDocuments` | autorag/database/supabase.py:98-107 | the table's count, with null read as 0 |
| `VectorStores.RecordMetadata` | autorag/rag/vector_store.py:61-70 | a record's metadata keeps all of the document's metadata, and under "text" holds the first min(len, 1000) characters of the text unless the document's metadata has its own "text" entry |
| `VectorStores.Records` | autorag/rag/vector_store.py:61-70 | one record per document, in order |
| `VectorStores.PrepareRecords` | autorag/rag/vector_store.py:60-70 | one record per document, in order, with the document's id, the paired embedding and the merged metadata |
| `VectorStores.Slice` | autorag/rag/vector_store.py:75 | a clamped slice `s[lo:hi]` is never longer than hi - lo |
| `VectorStores.BatchesPartition` | autorag/rag/vector_store.py:72-76 | concatenating the batches gives the records back in order; each batch is non-empty and holds at most 100 records; there are ceil(n/100) batches, so none for no records |
| `VectorStores.BatchAt` | autorag/rag/vector_store.py:73-75 | batch j is exactly the slice `records[100*j : 100*j + 100]` |
| `VectorStores.BatchStep` | autorag/rag/vector_store.py:74-76 | the batches from offset i are the slice at i followed by the batches from i + 100 |
| `VectorStores.FormatMatch` | autorag/rag/vector_store.py:98-104 | a match keeps its id and score; its text is the metadata "text" entry or "" when absent; its metadata is the match metadata without "text" |
| `VectorStores.Retrieved` | autorag/rag/vector_store.py:97-106 | one retrieved document per match |
| `VectorStores.RecordRoundTrip` | autorag/rag/vector_store.py:66-68 | a stored document without a "text" metadata entry comes back from a query with its id, its first 1000 characters and its metadata unchanged |
| `VectorStores.VectorStore.constructor` | autorag/rag/vector_store.py:13-29 | the store keeps its index name and dimension, and has sent no upserts |
| `VectorStores.VectorStore.UpsertDocuments` | autorag/rag/vector_store.py:49-76 | lists of different lengths fail with both lengths and send nothing; otherwise the upsert log grows by exactly the batches of the records |
| `VectorStores.VectorStore.Search` | autorag/rag/vector_store.py:78-106 | with `top_k` defaulting to 5, one formatted match per result of the index query, in order |
| `Pipeline.EncodeAll` | autorag/rag/embeddings.py:39-57 | one vector per text, the model's vector for that text, in order |
| `Pipeline.EmbeddingService.constructor` | autorag/rag/embeddings.py:13-23 | the embedding dimension is 384 and no call has been made |
| `Pipeline.EmbeddingService.EmbedText` | autorag/rag/embeddings.py:25-37 | the question's vector, with one single-text call logged |
| `Pipeline.EmbeddingService.EmbedBatch` | autorag/rag/embeddings.py:39-57 | the texts' vectors, with one batch call logged |
| `Pipeline.ChatClient.Create` | autorag/rag/pipeline.py:130-140 | the answer to the request, with the request logged |
| `Pipeline.UserPrompt` | autorag/rag/pipeline.py:121-128 | the prompt holds the fixed head, then the context verbatim, the fixed middle, the question verbatim and the fixed tail, at fixed offsets |
| `Pipeline.ContextParts` | autorag/rag/pipeline.py:113-115 | one context entry per retrieved document |
| `Pipeline.ContextPartShape` | autorag/rag/pipeline.py:114-115 | entry n reads "Document ", the number n (which reads back as n), ":\n", the document's text and a newline |
| `Pipeline.ContextEntryAt` | autorag/rag/pipeline.py:113-116 | in the context the entry for the i-th document, numbered i + 1, stands unchanged at its offset, in retrieval order, with a newline before the next entry and nothing after the last one |
| `Pipeline.Preview` | autorag/rag/pipeline.py:100 | a preview is the first min(len, 200) characters followed by "...", appended even for short texts |
| `Pipeline.Sources` | autorag/rag/pipeline.py:96-103 | when every retrieved text is a string, one source per document, in order, with the same id and score and the preview; otherwise failure at the first non-string text |
| `Pipeline.Texts` | autorag/rag/pipeline.py:51 | the documents' texts, in order |
| `Pipeline.RagPipeline.constructor` | autorag/rag/pipeline.py:14-38 | the model name defaults to `llama-3.3-70b-versatile`; fresh components: the store is opened on the given index with the embedder's dimension 384 |
| `Pipeline.RagPipeline.IndexDocuments` | autorag/rag/pipeline.py:40-57 | an empty list makes no embedding and no store call; otherwise one batch embedding of the texts in order, and the same documents upserted in batches with those vectors (the lengths agree, so storing cannot fail) |
| `Pipeline.RagPipeline.Query` | autorag/rag/pipeline.py:59-109 | with `top_k` defaulting to 5 and the temperature to 0.7, the question is embedded once; an empty retrieval gives the fixed answer with empty sources and documents and no model call; otherwise one model call with the context prompt, the answer, the sources and the unchanged retrieval result |
| `Pipeline.RagPipeline.BuildContext` | autorag/rag/pipeline.py:111-116 | the context is the newline join of the numbered entries |
| `Pipeline.RagPipeline.GenerateAnswer` | autorag/rag/pipeline.py:118-140 | exactly one request is sent: the model name, the fixed system message, the user prompt, the temperature and 500 maximum tokens; the answer is the model's reply |

## Left out

- `load_config` (autorag/utils/config.py:122-158): it checks that the file exists, parses YAML and re-wraps exceptions. The model starts from the parsed document (`RawConfig`).
- Type coercion and extra keys in the validation library: each raw field is already a string or an integer, or null. Unknown keys are not modelled.
- Error messages: the text of raised exceptions, and the re-wrapping into `Exception("Failed to ...")`, are not modelled. The error kinds and the failing field names are.
- `SupabaseConnector.test_connection`, `VectorStore._ensure_index_exists`, `delete_all`, `get_stats`, `RAGPipeline.get_index_stats` and `clear_index`: these are pure SDK calls with no logic of their own.
- `create_client` and the API keys: the clients are given to the constructors as opaque functions.
- Client failures: `select`, `count`, `query`, `upsert`, `encode`, `complete` and `create_client` never fail in the model. So the re-raises in `fetch_documents` and `count_documents` (autorag/database/supabase.py:95-96, 107-109) and a `create_client` refusal of a null url or key (autorag/database/supabase.py:24) are not modelled.
- VectorStores.VectorStore.Search: the index's answer is a fixed function of the query vector and `top_k`. It is not tied to the records upserted before. The promise that at most `top_k` matches come back belongs to the service and is not stated.
- Database.SupabaseConnector.FetchDocuments: the limit only reaches the opaque select function. That at most `limit` rows come back is the service's promise and is not stated.
- Dictionary order: metadata is a `map`, so the column order of a row, and of the metadata built from it, is not modelled.
- Floats: scores, temperature and embedding components are carried as `real` values and never computed with. Floats, lists and nested objects in rows are `Opaque` values that carry only their `str()` text and their truth value.
- The embedding model is a deterministic function of the text. Batch encoding is modelled as per-text encoding. The fixed length of 384 of its vectors is not stated.
- autorag/cli.py: the terminal flow (prompts, printing, exit codes) is not part of this model.
