# ksqlDB query stream decoder, in Dafny

A model of the query stream of the Node ksqlDB client (`src/query-stream.ts`):
the request a `QueryStream` sends when it is created, and the decoder that
runs once per response chunk.

- The first chunk is the header. It is parsed as one JSON value. If its
  `error_code` is truthy, it becomes the error metadata and the stream fails
  with a `KsqlDbQueryStreamError` built from its `@type`, `error_code` and
  `message`. Otherwise it becomes the success metadata and yields nothing.
- Every later chunk is split on `'\n'` and empty lines are dropped. Each line
  is parsed as a positional row frame and zipped by index against
  `columnNames`. The rows go out as one batch, in line order.

Modules:

- `JsValues` (`js_values.dfy`): JSON values plus `undefined`, JavaScript
  truthiness, and what a property or index read yields on each kind of value.
- `Lines` (`lines.dfy`): `split('\n').filter(Boolean)`, with `split` written
  out and its round trip with `join` proved.
- `Rows` (`rows.dfy`): the `reduce` that builds one row, as a function
  (`RowOf`, in the reducer's own left-to-right order) and as the accumulator
  loop (`BuildRow`).
- `QueryStreams` (`query_stream.dfy`): the decoder step as a function
  (`Transform`), the `QueryStream` class with its two metadata fields, the
  getters, the header builder, the request body, and `TransformChunk`, proved
  to update the fields and answer exactly as `Transform` says. `Run` feeds a
  response's chunks through the decoder in order and stops after a failure or
  an exception, as the destroyed Node stream does.
- `QueryStreamProperties` (`query_stream_properties.dfy`): what the decoder
  promises over a whole response, and the two decoding scenarios of the
  repository's tests.

The metadata fields hold the parsed header as it is. The source only casts it
(`as QueryStreamSuccessMetadata`), so the model does not assume its shape
either. Behaviour of the code that the model keeps:

- The header is the first chunk, not the first non-empty one. An empty first
  chunk is a `SyntaxError`.
- "Error" means a truthy `error_code`. A header with `error_code: 0` is
  success metadata.
- A row chunk made only of whitespace other than `'\n'` is a line like any
  other. `JSON.parse` then throws on it, so it does not yield an empty batch
  (`WhitespaceChunkThrows`). Only a chunk of nothing but `'\n'` yields an
  empty batch.
- A falsy header (`0`, `false`, `""`) is stored, but the `!this._success_metadata`
  test still reads it as unset, so the next chunk is again taken as a header.
- A header that parses to `null` throws a `TypeError` at `rawMeta['error_code']`.
- On the row path every line is parsed before any row is built, so a
  `SyntaxError` in any line wins over a `TypeError` in the zip. A
  `columnNames` that is not an array throws only if the chunk has a line. A
  `null` frame throws only if there is a column to fill.
- A column name is turned into a property key. An object column name with its
  own `toString` field makes that conversion throw a `TypeError`
  (`ObjectColumnNameThrows`); so does an array column name holding such an
  object.

## Model

| member | source | states |
|---|---|---|
| `JsValues.Truthy` | src/query-stream.ts:115-118 | a value is falsy exactly when it is `undefined`, `null`, `false`, `0` or `""` |
| `JsValues.At` | src/query-stream.ts:139 | `values[i]` is an element of an array frame, a one-character string taken from a string frame, a field of an object frame, or undefined; it is undefined past the end and on booleans and numbers |
| `JsValues.KeyOf` | src/query-stream.ts:139 | a string column name is its own property key, a one-string array is keyed by that string and an empty array by `""` |
| `Rows.RowOf` | src/query-stream.ts:138-141 | the row built by the reducer has no key other than a column key |
| `QueryStreams.Transform` | src/query-stream.ts:110-145 | with success metadata set, the state is kept and the outcome is a batch or an exception; otherwise a header that fails keeps the success metadata, stores itself as error metadata and carries its error fields, and a header that succeeds is stored as success metadata and has no truthy `error_code` |
| `QueryStreams.DecodeRows` | src/query-stream.ts:133-144 | a row chunk yields a batch with one row per line, or an exception; a line that is not JSON makes it throw a SyntaxError |
| `QueryStreams.Run` | src/query-stream.ts:110-145 | a run yields at most one outcome per chunk, at least one for a non-empty response, and no failure or exception before its last outcome |
| `QueryStreams.QueryStream.TransformChunk` | src/query-stream.ts:110-145 | the new metadata fields and the outcome are those of the decoder step `Transform`; with success metadata already set, neither field changes and the outcome is a batch or an exception |
| `QueryStreams.QueryStream.constructor` | src/query-stream.ts:22-30 | every metadata accessor starts out undefined; the one request carries the body `{sql, properties, sessionVariables}`, the fixed path, `POST`, the delimited content type, and `authorization` holding the basic-auth username and password; the header keys are exactly these four with basic auth and the other three without |
| `QueryStreams.QueryStream.BuildHeaders` | src/query-stream.ts:84-100 | the headers are exactly path, method and content type, plus `authorization` if and only if `authConfig.basic` is present, holding its username and password |
| `QueryStreams.RequestBody` | src/query-stream.ts:165-169 | the body has exactly the keys `sql`, `properties` and `sessionVariables`, holding the constructor's arguments |
| `QueryStreams.QueryStream.ColumnNames` | src/query-stream.ts:36-38 | the `columnNames` field of the success metadata, or undefined when no such metadata (or field) is set |
| `QueryStreams.QueryStream.ColumnTypes` | src/query-stream.ts:44-46 | the `columnTypes` field of the success metadata, or undefined |
| `QueryStreams.QueryStream.QueryId` | src/query-stream.ts:51-53 | the `queryId` field of the success metadata, or undefined |
| `QueryStreams.QueryStream.ErrorMessage` | src/query-stream.ts:58-60 | the `message` field of the error metadata, or undefined |
| `QueryStreams.QueryStream.ErrorCode` | src/query-stream.ts:65-67 | the `error_code` field of the error metadata, or undefined |
| `QueryStreams.QueryStream.ErrorType` | src/query-stream.ts:72-74 | the `@type` field of the error metadata, or undefined |
| `QueryStreams.ParseAll` | src/query-stream.ts:135-136 | the lines parse to a frame each, in order, exactly when every line is JSON; otherwise a SyntaxError |
| `QueryStreams.ZipAll` | src/query-stream.ts:137-142 | one row per frame, the k-th zipped from the k-th frame, exactly when there is no frame or `columnNames` is an array of names that convert to property keys and (it is empty or every frame can be indexed); otherwise a TypeError |
| `QueryStreams.ZipFrames` | src/query-stream.ts:137-142 | the per-frame loop that runs the reducer gives exactly the rows (or the TypeError) of `ZipAll` |
| `Rows.BuildRow` | src/query-stream.ts:138-141 | the accumulator loop builds exactly the row `RowOf` describes |
| `Rows.ColumnKeys` | src/query-stream.ts:138-140 | for column names that convert to property keys, one key per name; a string column name is its own key |
| `Rows.RowOfKeys` | src/query-stream.ts:138-141 | a row's key set is exactly the set of column names |
| `Rows.RowOfValue` | src/query-stream.ts:138-141 | each column holds the frame's value at its index, and for a repeated name the value at its last index wins |
| `Rows.RowOfArray` | src/query-stream.ts:138-141 | for an array frame, a column past the end of the frame holds undefined |
| `Rows.RowOfIgnoresExtra` | src/query-stream.ts:138-141 | frame elements past the last column do not affect the row |
| `Lines.Split` | src/query-stream.ts:103 | `split('\n')` gives at least one piece and no piece holds the separator |
| `Lines.JoinSplit` | src/query-stream.ts:103 | joining the pieces of a split with the separator gives back the text |
| `Lines.SplitJoin` | src/query-stream.ts:103 | splitting a join of separator-free pieces gives back the pieces |
| `Lines.SplitAppend` | src/query-stream.ts:103 | splitting `a + sep + b` gives the pieces of `a` followed by those of `b` |
| `Lines.DropEmpty` | src/query-stream.ts:103 | `filter(Boolean)` keeps only non-empty strings, each taken from the input |
| `Lines.DropEmptyAppend` | src/query-stream.ts:103 | filtering distributes over concatenation, so the order of the kept strings is the input's |
| `Lines.ParseChunk` | src/query-stream.ts:102-104 | every line returned is non-empty and holds no `'\n'` |
| `Lines.ParseChunkJoin` | src/query-stream.ts:102-104 | non-empty newline-free lines joined by `'\n'` are read back as exactly those lines, in order |
| `Lines.ParseChunkAppend` | src/query-stream.ts:102-104 | the lines before a `'\n'` come, in order, before the lines after it |
| `Lines.ParseChunkBlank` | src/query-stream.ts:102-104 | a chunk yields no line if and only if every character is `'\n'` |
| `QueryStreamProperties.RunStopsAtFailure` | src/query-stream.ts:118-127 | a failure or exception is a run's last outcome, and a run with fewer outcomes than chunks ended on one |
| `QueryStreamProperties.RunKeepsSuccessMetadata` | src/query-stream.ts:115-131 | once success metadata is set it is never replaced, no error metadata is set, and every later outcome is a batch or a final exception |
| `QueryStreamProperties.HeaderErrorFailsStream` | src/query-stream.ts:115-127 | a first chunk with truthy `error_code` is stored as error metadata, the stream fails with its `@type`, `error_code` and `message`, no batch follows, success metadata stays unset, and the error accessors return those fields |
| `QueryStreamProperties.HeaderSuccessSetsMetadata` | src/query-stream.ts:115-131 | a truthy first chunk without truthy `error_code` becomes the success metadata for the rest of the run, yields nothing, and the `columnNames`, `columnTypes` and `queryId` accessors return its fields |
| `QueryStreamProperties.RowChunkBatch` | src/query-stream.ts:133-144 | a row chunk with k non-empty lines yields one batch of k rows, the k-th zipped from the k-th line, and leaves the metadata unchanged |
| `QueryStreamProperties.BlankChunkEmptyBatch` | src/query-stream.ts:133-144 | a row chunk made only of `'\n'` yields an empty batch, not an error |
| `QueryStreamProperties.WhitespaceChunkThrows` | src/query-stream.ts:133-136 | a row chunk holding one space is parsed as a line, so a parser that rejects it makes the chunk throw |
| `QueryStreamProperties.ObjectColumnNameThrows` | src/query-stream.ts:138-141 | an object column name with its own `toString` field makes a chunk with a row throw a TypeError, leaving the metadata unchanged |
| `QueryStreamProperties.RunRowChunks` | src/query-stream.ts:133-144 | after success metadata, well-formed row chunks yield one batch each, in chunk order |
| `QueryStreamProperties.DeserializesRowScenario` | src/__tests__/query-stream.spec.ts:129-186 | metadata with columns a, b, c followed by `["hi",1,"there"]` yields nothing, then exactly one batch holding the one row `{a: "hi", b: 1, c: "there"}` |
| `QueryStreamProperties.ErrorScenario` | src/__tests__/query-stream.spec.ts:188-234 | an error header with code 4000 fails the stream with that type, code and message, whatever chunks follow, and the accessors return them |

## Left out

- The Node stream machinery (`Transform` set-up, `pipe`, `Symbol.asyncIterator`, the `stream` getter): it bridges pushed chunks to pulled batches. `Run` keeps only what it means for decoding: chunks in arrival order, nothing decoded after a failure.
- How Node reacts to an exception thrown synchronously inside the transform: the model only reports it as the `Threw` outcome and ends the run there.
- Sending the request: `session.request(...).end(body)` is I/O; the constructor records the one request it would send in the `request` field.
- `JSON.parse`: a parameter `parse` of the decoder, with `None` for a SyntaxError. `Buffer.toString`: chunks are taken as already decoded text.
- `JSON.stringify` of the request body: the body is kept as a value, and the dropping of `undefined` fields is not modelled.
- Strings are sequences of characters: `JsValues.At` indexes a string frame by character, where JavaScript indexes UTF-16 code units, so frames holding characters outside the Basic Multilingual Plane read differently.
- Aliasing: the getters return the metadata values themselves. In JavaScript `columnNames` is the live array, and a caller who mutates it changes how later chunks are zipped; model values are immutable, so that is not modelled.
- Numbers are integers; JSON fractions and exponents are not modelled.
- Property order of a row object: a row is a map, so JavaScript's key order is not modelled.
- A column named `__proto__`: JavaScript assigns it through the prototype setter instead of creating a key; the model makes it an ordinary key.
- Reassembly of a JSON value or a line split across chunks: the code has none, so neither does the model.
- `src/ksqldb-session.ts` and `src/ksqldb-client.ts`: connection and session plumbing over `http2.connect`, `close` and `destroy`.
- `src/constants.ts` is not part of this model: the endpoint path and the content type take the values the ksqlDB HTTP API documents for its query-stream endpoint (`/query-stream`, `application/vnd.ksqlapi.delimited.v1`).
