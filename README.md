# Search-as-you-type suggestions: a verified model

This project models the core of a small search-as-you-type system over a
Stack Exchange dump held in Elasticsearch. It has three programs:

- **The suggestion indexer** (`suggestion-indexer/indexer.py`).
  - It reads every post of the source index, lower-cases and HTML-strips its
    body and title, and cuts the text into clauses at `. , ? ! ; :`.
  - It tokenises every clause with `WORD_RE` and counts every window of 1 to
    3 words whose words are 2 to 30 characters long and not stopwords: these
    are the *shingles*.
  - It aggregates the shingles over all posts into `ShingleData` records.
    Each record holds the shingle, its length in characters, its total
    frequency and its metadata snapshots, de-duplicated by key.
  - It writes the records to a suggestion index as bulk action/document
    line pairs, in batches of 100 lines.
- **The suggester** (`suggestion-indexer/suggester.py`).
  - It builds the Elasticsearch query for a partial input: a `dis_max` of
    three sub-queries inside a `function_score`, filtered by length and by a
    nested metadata filter.
  - It maps the hits of the answer to their suggestion texts.
- **The test-index loader** (`test-index/indexer.py`). A SAX handler turns
  every `row` of `Posts.xml` into an action line and a body line, and posts
  them in batches of 2000 lines.

The model's modules:

| Module | What it models |
|---|---|
| `Wrappers` | `Option`, used where the Python code would raise. |
| `Json` | Decoded JSON values. |
| `Text` | `str.lower()` on ASCII, `re.split` with a character class, `' '.join`, and a hand-written scanner equivalent to `WORD_RE.findall`. |
| `Shingles` | `get_shingles`. |
| `Aggregator` | `ShingleData` and `process_documents`. |
| `Batching` | The shared batching arithmetic. |
| `IndexWriter` | `create_suggestion_index`. |
| `Suggester` | The query builders and the hit mapping. |
| `PostLoader` | `StreamHandler`. |

How each part is modelled:

- **Imperative code stays imperative.**
  - `get_shingles` is a method with the source's nested loops. It is proved
    equal to a specification fold, `ShingleCounts`.
  - `ShingleData` is a class. `process_documents` updates a `ShingleTable`
    class that owns the `ShingleData` objects. Its ghost `view` is proved to
    follow a fold over the hits.
  - `create_suggestion_index` is a loop that returns the batches it posts.
  - `StreamHandler` is a class. Its `sent` field is the log of posted
    batches, and its ghost `rows` field records every line produced.
- **The query builders are pure functions on `Json`.** Each has a reader
  that recovers its inputs. Round-trip lemmas prove that the reader inverts
  the builder. Exactness lemmas prove that only the builder's output is read
  back. Together they pin every key, constant and nesting of the query.

Three facts about the code that the model keeps as written:

- The suggestion indexer flushes at 100 *lines* (`len(batch) == 100`),
  which is 50 records.
- A record's `length` is `len(shingle)`, the number of characters of the
  shingle, not its number of words.
- The query's length filter compares that length with `len(partial)`. The
  model takes both in characters; for a non-ASCII `partial`, Python 2 would
  count the bytes of the argument instead.

## Model

| member | source | states |
|---|---|---|
| Text.Lower | suggestion-indexer/indexer.py:84 | `.lower()` keeps the length and leaves no ASCII capital. Each capital becomes the small letter at the same place in the alphabet, and every other character is kept. |
| Text.LowerIdempotent | suggestion-indexer/indexer.py:84 | Lowering lowered text changes nothing. |
| Text.Split | suggestion-indexer/indexer.py:17 | Splitting at the `CHUNK_RE` class gives at least one piece, and no piece holds a delimiter. |
| Text.SplitAt | suggestion-indexer/indexer.py:109 | Splitting `a + d + b` at a delimiter `d` gives the pieces of `a`, then the pieces of `b`. |
| Text.SplitJoin | suggestion-indexer/indexer.py:118 | Splitting a `' '.join` of space-free words at spaces gives the words back. |
| Text.Tokens | suggestion-indexer/indexer.py:18 | Every token `WORD_RE.findall` returns is a full match of `\w+(?:[\-\_\']+\w+)?`: a non-empty word run, then either nothing or a non-empty joiner run followed by a non-empty word run. |
| Text.TokenChars | suggestion-indexer/indexer.py:18 | A token holds only word characters and joiners, so never a space. |
| Text.OneJoinerRun | suggestion-indexer/indexer.py:18 | In any token, every character between two non-word joiners (`-` or `'`) is a joiner: a token never holds two separate joiner groups. |
| Text.TokensFrom | suggestion-indexer/indexer.py:110 | Every character of every token `WORD_RE.findall` returns occurs in the scanned text. |
| Text.LoweredTokens | suggestion-indexer/indexer.py:84-85 | Every token of lowered text holds only small letters, digits, `_`, `-` and `'`. |
| Text.TokensOfWords | suggestion-indexer/indexer.py:110 | Tokenising space-joined plain words gives exactly those words back. |
| Text.OneJoinerGroup | suggestion-indexer/indexer.py:18 | An illustration of the one-group rule that `Tokens` and `OneJoinerRun` state for all inputs: `x-y-z` tokenises as `x-y`, `z`. |
| Text.UnderscoreBacktrack | suggestion-indexer/indexer.py:18 | `_` is both a word character and a joiner, so `a-_` is a single token. |
| Shingles.GetShingles | suggestion-indexer/indexer.py:105-123 | The dict returned is exactly the specification count `ShingleCounts(text, stopwords)`. |
| Shingles.CountChunk | suggestion-indexer/indexer.py:109-122 | One pass of the `for chunk` loop counts that chunk's tokens on top of the chunks before it. |
| Shingles.CountClause | suggestion-indexer/indexer.py:111-122 | The `for size` loop counts every window size from 1 to 3 of one clause. |
| Shingles.CountSize | suggestion-indexer/indexer.py:112-122 | The `for i` loop counts every start position `0 .. len(words) - size`; a short clause has none. |
| Shingles.CountAt | suggestion-indexer/indexer.py:113-122 | One window adds 1 under its space-joined text, or is skipped when a word rejects it. |
| Shingles.Acceptable | suggestion-indexer/indexer.py:115-117 | The word scan accepts a window if and only if every word is 2 to 30 characters long and not a stopword. |
| Shingles.ShingleKeys | suggestion-indexer/indexer.py:109-120 | `x` is a key of the result if and only if some accepted window of 1 to 3 consecutive words inside one clause joins to `x`. So no shingle crosses a delimiter, and one rejected window never hides another. |
| Shingles.ShingleWellFormed | suggestion-indexer/indexer.py:23-25 | Every key splits at spaces into 1 to 3 words. Each word is 2 to 30 characters long and not a stopword. |
| Shingles.ShingleCountsPositive | suggestion-indexer/indexer.py:120 | Every count in the result is at least 1. |
| Shingles.ShingleCountsExact | suggestion-indexer/indexer.py:111-120 | The count of `x` is the number of accepted windows, over all clauses, sizes and positions, that read `x`. It is 0 when there is none. |
| Shingles.CountsSplitAtDelimiter | suggestion-indexer/indexer.py:109 | The count of `a + d + b` with `d` a delimiter is the count of `a` plus the count of `b`. |
| Shingles.ShingleCounts | suggestion-indexer/indexer.py:105-123 | The specification fold; no ensures of its own. What it returns is stated by `ShingleKeys`, `ShingleCountsExact`, `ShingleWellFormed`, `ShingleCountsPositive` and `EmptyText`. |
| Shingles.EmptyText | suggestion-indexer/indexer.py:105-123 | The empty text yields the empty dict. |
| Shingles.CountClausesAdd | suggestion-indexer/indexer.py:120 | Counting into a non-empty dict adds the fresh counts to the counts already there. |
| Aggregator.NewRecord | suggestion-indexer/indexer.py:28-32 | A fresh record holds the shingle, its character length, frequency 0 and no metadata. |
| Aggregator.ShingleData.constructor | suggestion-indexer/indexer.py:28-32 | `ShingleData(s)` starts as `NewRecord(s)`. |
| Aggregator.ShingleData.Update | suggestion-indexer/indexer.py:34-37 | `update` moves the object to `Updated(old, freq, metadata, key(metadata))`. |
| Aggregator.Updated | suggestion-indexer/indexer.py:34-37 | The record after `update`; no ensures of its own. Its promises are stated by `UpdatedKeeps`, `UpdatedTwice` and `UpdatedSound`. |
| Aggregator.UpdatedKeeps | suggestion-indexer/indexer.py:34-37 | The shingle and length are unchanged and the frequency grows by exactly `freq`. The metadata gains the key, an existing entry is never overwritten, and a new key maps to the given metadata. |
| Aggregator.UpdatedTwice | suggestion-indexer/indexer.py:36-37 | A second update with the same metadata leaves the metadata map the same, at the same size, and still adds its frequency. |
| Aggregator.UpdatedSound | suggestion-indexer/indexer.py:34-37 | After an update with a positive frequency, a record has at least one metadata entry and no more entries than its frequency. |
| Aggregator.MetadataOf | suggestion-indexer/indexer.py:80-81 | The metadata snapshot of a hit; no ensures of its own. `MetadataOfFields` states what it holds. |
| Aggregator.MetadataOfFields | suggestion-indexer/indexer.py:80-81 | The snapshot holds exactly the `META_FIELDS` present with a truthy value, with their values. A count of 0 is dropped. |
| Aggregator.FieldText | suggestion-indexer/indexer.py:84 | The lowered, stripped text of one field; no ensures of its own. `MissingFieldIsEmpty` states the missing-field case. |
| Aggregator.MissingFieldIsEmpty | suggestion-indexer/indexer.py:79-84 | For a hit with a `_source` dict, a text field that `_source` lacks is read as `strip("")`. |
| Aggregator.ShinglerPositive | suggestion-indexer/indexer.py:85 | Every count that `get_shingles` gives `process_documents` is at least 1. |
| Aggregator.ShingleTable.constructor | suggestion-indexer/indexer.py:41 | The table starts empty. |
| Aggregator.ShingleTable.Add | suggestion-indexer/indexer.py:86 | `setdefault(s, ShingleData(s)).update(f, md)` updates the record of `s`, created fresh when absent, and leaves every other record as it was. |
| Aggregator.ShingleTable.AddAll | suggestion-indexer/indexer.py:85-86 | The loop over one count dict moves the table to `AddCounts`, whatever order it visits the shingles in. |
| Aggregator.ShingleTable.AddDocumentFields | suggestion-indexer/indexer.py:79-86 | One hit adds the counts of its body, then of its title, each with the hit's metadata. |
| Aggregator.ShingleTable.ProcessDocuments | suggestion-indexer/indexer.py:77-86 | `process_documents` moves the table to the fold `AddHits` over the hits, in order. |
| Aggregator.AddCounts | suggestion-indexer/indexer.py:85-86 | The shingles in the table afterwards are those before plus those counted. |
| Aggregator.AddHits | suggestion-indexer/indexer.py:77-86 | The fold over the hits that `ProcessDocuments` follows; no ensures of its own. It is stated by `AddHitsFreq`, `AddHitsKeys`, `AddHitsKeepsMetadata`, `AddHitsFiles`, `AddHitsFrom` and `ProcessedWellFormed`. |
| Aggregator.AddHitsFreq | suggestion-indexer/indexer.py:85-86 | A shingle's frequency grows by the sum of its counts over every text field of every hit. |
| Aggregator.AddHitsKeys | suggestion-indexer/indexer.py:85-86 | A shingle is in the table afterwards if and only if it was before or some field of some hit produced it. |
| Aggregator.AddHitsKeepsMetadata | suggestion-indexer/indexer.py:37 | A metadata entry already filed is never replaced. |
| Aggregator.AddHitsFiles | suggestion-indexer/indexer.py:85-86 | A shingle that some field of a hit produced has the key of that hit's metadata among its metadata keys. |
| Aggregator.AddHitsFrom | suggestion-indexer/indexer.py:85-86 | Every metadata entry a shingle gains is the metadata of a hit with a field that produced the shingle, filed under that metadata's key. |
| Aggregator.AddTextsUntouched | suggestion-indexer/indexer.py:85-86 | The record of a shingle that no field of the hit produces is left unchanged. |
| Aggregator.ProcessedWellFormed | suggestion-indexer/indexer.py:77-86 | After `process_documents`, every record keeps its shingle and character length. It has at least one metadata entry and no more entries than its frequency. |
| Batching.FlattenChunks | suggestion-indexer/indexer.py:138-145 | Cutting lines into batches loses, duplicates and reorders nothing. |
| Batching.ChunkSizes | suggestion-indexer/indexer.py:138-145 | Every batch is non-empty and at most the batch size. Every batch but the last is exactly the batch size. |
| Batching.ChunksOfFull | suggestion-indexer/indexer.py:138-145 | Full batches sent, then a non-empty rest sent at the end, are exactly the lines cut into chunks. |
| IndexWriter.Action | suggestion-indexer/indexer.py:128-130 | The action line of record `_id`; no ensures of its own. `LinesAt` places it. |
| IndexWriter.MetadataValues | suggestion-indexer/indexer.py:135 | `metadata.values()`, in ascending key order: one entry per key. |
| IndexWriter.MetadataValuesListed | suggestion-indexer/indexer.py:135 | The list has one entry per metadata key, and a dict is in the list if and only if it is filed in the record. |
| IndexWriter.Document | suggestion-indexer/indexer.py:131-136 | The suggestion document of a record; no ensures of its own. `DocumentOf` states its content. |
| IndexWriter.DocumentOf | suggestion-indexer/indexer.py:131-136 | The document has exactly the keys `suggestion`, `freq`, `length` and `meta`, holding the record's shingle, frequency and length. Its `meta` list has one object per metadata key, and a dict is in it if and only if it is filed in the record. |
| IndexWriter.Documents | suggestion-indexer/indexer.py:127 | The documents of the records, in `itervalues()` order; no ensures of its own. |
| IndexWriter.Lines | suggestion-indexer/indexer.py:127-136 | The lines in order; no ensures of its own. `LinesAt` and `SentBatches` state them. |
| IndexWriter.LinesAt | suggestion-indexer/indexer.py:127-136 | There are `2n` lines. Line `2i` is the action of record `i` with `_id` `i`, and line `2i + 1` is document `i`, which is `Document` of record `i` in `Documents(records)`. |
| IndexWriter.AddRecord | suggestion-indexer/indexer.py:128-142 | One pass of the `for _id` loop: the lines sent and the batch together grow by exactly the record's action and document, and a batch that reaches 100 lines is sent. The batch stays even and below 100 lines, and every batch sent holds exactly 100. |
| IndexWriter.CreateSuggestionIndex | suggestion-indexer/indexer.py:125-145 | The batches posted are exactly the `2n` lines of the records' documents, cut into chunks of 100 lines. |
| IndexWriter.SentBatches | suggestion-indexer/indexer.py:138-145 | The batches posted concatenate to all lines in order. None is empty, each holds at most 100 lines and an even number of lines, and all but the last hold exactly 100. |
| Suggester.MakeMetaFilter | suggestion-indexer/suggester.py:67-83 | `make_meta_filter`; no ensures of its own. It is pinned by `MetaFilterRoundTrip` and `MetaFilterExact`. |
| Suggester.MetaFilterRoundTrip | suggestion-indexer/suggester.py:67-83 | The meta filter reads back as its two bounds. |
| Suggester.MetaFilterExact | suggestion-indexer/suggester.py:67-83 | The only value read as a meta filter is `nested` on path `meta` over a `bool.must` of exactly the `meta.viewcount` and `meta.answercount` ranges, in that order. |
| Suggester.SubQueriesRoundTrip | suggestion-indexer/suggester.py:21-40 | The three sub-queries read back as `partial`. |
| Suggester.SubQueriesExact | suggestion-indexer/suggester.py:21-40 | Exactly three sub-queries, in order, each carrying `partial` unchanged: `prefix` on `suggestion.kw` with boost 100.0; `match_phrase_prefix` with slop 2 and boost 10.0; `match` with `minimum_should_match` 1. |
| Suggester.ScoredRoundTrip | suggestion-indexer/suggester.py:17-49 | The scored part reads back as `partial`. |
| Suggester.ScoredExact | suggestion-indexer/suggester.py:17-49 | The scored part is a `function_score` with `boost_mode` `multiply` and a `field_value_factor` on `freq` with `missing` 1 and `modifier` `log`, around a `dis_max` with `tie_breaker` 0.5 over those sub-queries. |
| Suggester.FilterRoundTrip | suggestion-indexer/suggester.py:51-60 | The filter reads back as its meta filter. |
| Suggester.FilterExact | suggestion-indexer/suggester.py:51-60 | The filter is a `bool.must` of a `length` range with `gte` `len(partial)`, followed by the meta filter unchanged. |
| Suggester.MakeMainQuery | suggestion-indexer/suggester.py:12-65 | `make_main_query`; no ensures of its own. It is pinned by `MainQueryRoundTrip` and `MainQueryExact`, with the parts by the sub-query, scored and filter lemmas. |
| Suggester.MainQueryRoundTrip | suggestion-indexer/suggester.py:12-65 | The main query reads back as `partial` and the meta filter. |
| Suggester.MainQueryExact | suggestion-indexer/suggester.py:12-65 | The only value read as a main query is `make_main_query`'s output. It has exactly the keys `query`, `size` 20 and `_source` `["suggestion"]`, and its `bool` has exactly `must` and `filter`. |
| Suggester.SuggestionsOf | suggestion-indexer/suggester.py:89 | One suggestion per hit, in hit order, each the hit's `_source.suggestion`. None when some hit lacks one. |
| Suggester.Suggestions | suggestion-indexer/suggester.py:89 | The hit mapping on a whole answer; no ensures of its own. `SuggestionsOf` states it. |
| Suggester.GetSuggestions | suggestion-indexer/suggester.py:85-89 | `get_suggestions`; no ensures of its own. `GetSuggestionsAsks` states what it posts and returns. |
| Suggester.GetSuggestionsAsks | suggestion-indexer/suggester.py:85-89 | `get_suggestions` posts exactly the query that reads back as `partial` and the two bounds. Its result is the suggestions of the answer, or None when the search fails. |
| PostLoader.Action | test-index/indexer.py:24 | The `index` action of a row; no ensures of its own. `StartElement` appends it. |
| PostLoader.Body | test-index/indexer.py:25-26 | The body line of a row; no ensures of its own. `BodyFields` and `BodyKeys` state its keys and values. |
| PostLoader.RowLines | test-index/indexer.py:24-26 | The two lines of a row, action first; no ensures of its own. `StartElement` appends them. |
| PostLoader.BodyFields | test-index/indexer.py:25-26 | The body has key `field.lower()` for exactly the `INDEX_FIELDS` the row carries, each with the attribute's value. |
| PostLoader.BodyKeys | test-index/indexer.py:25-26 | Every key of the body is a lower-cased indexed field that the row carries. No other attribute is kept. |
| PostLoader.LoweredDistinct | test-index/indexer.py:12-13 | No two `INDEX_FIELDS` lower-case to the same key, so no field overwrites another. |
| PostLoader.StreamHandler.constructor | test-index/indexer.py:19-20 | The handler starts with an empty batch and nothing sent. |
| PostLoader.StreamHandler.StartElement | test-index/indexer.py:22-28 | A `row` appends exactly its action (`_index` `music`, `_type` `post`, `_id` its `Id`) and its body, and posts the batch when it reaches 2000 lines. A row without `Id` fails before anything is appended. Any other element changes nothing. Between events the batch is even and below 2000. |
| PostLoader.StreamHandler.EndElement | test-index/indexer.py:30-32 | Closing `posts` posts a non-empty batch and nothing else. Every other end tag does nothing. After `posts` closes, the batches sent are exactly all lines, in order, in chunks of 2000. |
| PostLoader.StreamHandler.IndexBatch | test-index/indexer.py:34-39 | The pending lines are posted as one batch, in order, and the batch is emptied. |
| PostLoader.StreamHandler.PendingChunks | test-index/indexer.py:22-39 | Mid-stream, the batches sent plus the pending batch are all lines so far, cut into chunks of 2000. |

## Left out

- `read_index` (the scroll pagination over HTTP) and `main` are network I/O. `ProcessDocuments` takes the hits of one page as a sequence.
- `stripHTML` and `MLStripper` depend on Python's `HTMLParser`. They are the parameter `strip`, and nothing is assumed about them.
- `hash(json.dumps(metadata, sort_keys=True))` is the parameter `key`. De-duplication is by key, so two snapshots with colliding hashes are treated as one, as in the source.
- `STOPWORDS` is a module outside this model. It is the parameter `stopwords`.
- Text.Lower: folds ASCII capitals only. Python's `.lower()` also folds other letters, for example `u'\u212a'.lower() == u'k'`, which yields a word character the model leaves unfolded. (`WORD_RE` has no `re.UNICODE` flag, so its `\w` is the ASCII class the model uses.)
- `index_batch`, `indexBatch` and the POST in `get_suggestions` are sinks or sources. The batches are returned (`CreateSuggestionIndex`) or appended to the `sent` log (`StreamHandler`), and the search is the parameter `search`. `raise_for_status` failures abort a Python run; here they are the `None` of `search`, or not modelled for the two bulk sinks.
- The `"\n".join(json.dumps(...))` serialisation of bulk lines is not modelled: lines are kept as `Json` values.
- The iteration order of `shingle_data.itervalues()` is taken as the order of the `records` sequence.
- IndexWriter.MetadataValues: lists the metadata dicts in ascending key order. CPython lists them in its hash-table order, which the model does not follow; the entries themselves are the same.
- How Elasticsearch scores and ranks the query (`dis_max`, the `log` factor, the top 20) is not modelled. Only the query's shape is.
- The `xml.sax` driver, file opening, command-line parsing and every `print` are not modelled.
- Aggregator.ShingleTable.ProcessDocuments: requires every hit to have a `_source` dict whose text fields are strings (`DocOk`). Those are the inputs on which the source raises instead of returning.
- Aggregator.Source: a hit without a `_source` dict is read as an empty source, where Python raises at `doc["_source"]`. `ProcessDocuments` and `MissingFieldIsEmpty` require `DocOk`, so they never meet such a hit. The fold lemmas (`AddHits…`, `ProcessedWellFormed`) are stated for every sequence of hits; what they state about hits Python rejects has no Python counterpart.
- Suggester.GetSuggestions: carries no contract of its own. `GetSuggestionsAsks` states what it posts and returns.
- Suggester.FilterExact: `len(partial)` is the length in characters. Python 2 would count the bytes of a `str` argument.
