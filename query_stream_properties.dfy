/**
 * What the query stream's decoder promises over a whole response: the
 * one-shot choice between success and error metadata, row batches that
 * follow the lines of each chunk, and no output after a failure.
 */
module QueryStreamProperties {
  import opened Wrappers
  import opened JsValues
  import opened Lines
  import opened Rows
  import opened QueryStreams

  /** Every line of a row chunk is JSON that can be indexed. */
  predicate RowFramesReadable(chunk: string, parse: string -> Option<Value>) {
    forall line | line in ParseChunk(chunk) :: parse(line).Some? && Readable(parse(line).value)
  }

  /**
   * Every chunk is decoded until a failure or an exception, and that
   * outcome is the run's last: a run is shorter than its chunks only when
   * it ended that way.
   */
  lemma {:induction false} RunStopsAtFailure(st: DecoderState, chunks: seq<string>, parse: string -> Option<Value>)
    ensures forall k | 0 <= k < |Run(st, chunks, parse).1| ::
      Ends(Run(st, chunks, parse).1[k]) ==> k == |Run(st, chunks, parse).1| - 1
    ensures |Run(st, chunks, parse).1| < |chunks| ==>
      |Run(st, chunks, parse).1| >= 1 && Ends(Run(st, chunks, parse).1[|Run(st, chunks, parse).1| - 1])
    decreases |chunks|
  {
    if chunks != [] {
      var (next, out) := Transform(st, chunks[0], parse);
      if !Ends(out) {
        RunStopsAtFailure(next, chunks[1..], parse);
      }
    }
  }

  /**
   * Once success metadata is set it is never replaced, error metadata is
   * never set beside it, and every later chunk takes the row path.
   */
  lemma {:induction false} RunKeepsSuccessMetadata(st: DecoderState, chunks: seq<string>, parse: string -> Option<Value>)
    requires Truthy(st.success)
    ensures Run(st, chunks, parse).0 == st
    ensures forall k | 0 <= k < |Run(st, chunks, parse).1| ::
      Run(st, chunks, parse).1[k].Batch? ||
      (Run(st, chunks, parse).1[k].Threw? && k == |Run(st, chunks, parse).1| - 1)
    decreases |chunks|
  {
    if chunks != [] {
      var (next, out) := Transform(st, chunks[0], parse);
      if !Ends(out) {
        RunKeepsSuccessMetadata(next, chunks[1..], parse);
      }
    }
  }

  /**
   * A first chunk whose `error_code` is truthy becomes error metadata and
   * fails the stream with its type tag, code and message: no batch is ever
   * yielded and success metadata stays unset.
   */
  lemma HeaderErrorFailsStream(st: DecoderState, chunks: seq<string>, parse: string -> Option<Value>)
    requires !Truthy(st.success)
    requires chunks != [] && parse(chunks[0]).Some?
    requires Readable(parse(chunks[0]).value) && Truthy(Get(parse(chunks[0]).value, "error_code"))
    ensures var raw := parse(chunks[0]).value;
      Run(st, chunks, parse) == (DecoderState(st.success, raw), [Failed(ErrorOf(raw))])
    ensures var raw := parse(chunks[0]).value;
      var last := Run(st, chunks, parse).0;
      GetOpt(last.error, "@type") == Get(raw, "@type") &&
      GetOpt(last.error, "error_code") == Get(raw, "error_code") &&
      GetOpt(last.error, "message") == Get(raw, "message")
  {
  }

  /**
   * A truthy first chunk with no truthy `error_code` (absent, 0, false,
   * ...) becomes the success metadata for good: it yields nothing, every later
   * chunk yields a batch until an exception, and the accessors read its
   * fields.
   */
  lemma HeaderSuccessSetsMetadata(st: DecoderState, chunks: seq<string>, parse: string -> Option<Value>)
    requires !Truthy(st.success)
    requires chunks != [] && parse(chunks[0]).Some?
    requires Truthy(parse(chunks[0]).value) && !Truthy(Get(parse(chunks[0]).value, "error_code"))
    ensures Run(st, chunks, parse).0 == DecoderState(parse(chunks[0]).value, st.error)
    ensures Run(st, chunks, parse).1[0] == NoOutput
    ensures forall k | 1 <= k < |Run(st, chunks, parse).1| ::
      Run(st, chunks, parse).1[k].Batch? ||
      (Run(st, chunks, parse).1[k].Threw? && k == |Run(st, chunks, parse).1| - 1)
    ensures var raw := parse(chunks[0]).value;
      var last := Run(st, chunks, parse).0;
      GetOpt(last.success, "columnNames") == Get(raw, "columnNames") &&
      GetOpt(last.success, "columnTypes") == Get(raw, "columnTypes") &&
      GetOpt(last.success, "queryId") == Get(raw, "queryId")
  {
    var raw := parse(chunks[0]).value;
    RunKeepsSuccessMetadata(DecoderState(raw, st.error), chunks[1..], parse);
  }

  /**
   * A row chunk with k non-empty lines, each an indexable JSON value,
   * yields one batch of k rows, the k-th zipped from the k-th line.
   */
  lemma RowChunkBatch(st: DecoderState, chunk: string, parse: string -> Option<Value>, names: seq<Value>)
    requires Truthy(st.success) && Get(st.success, "columnNames") == Arr(names) && KeysConvertible(names)
    requires RowFramesReadable(chunk, parse)
    ensures Transform(st, chunk, parse).0 == st
    ensures var out := Transform(st, chunk, parse).1;
      var lines := ParseChunk(chunk);
      out.Batch? && |out.rows| == |lines| &&
      forall k | 0 <= k < |lines| :: out.rows[k] == RowOf(ColumnKeys(names), parse(lines[k]).value)
  {
  }

  /** A row chunk of nothing but '\n' (or nothing at all) yields an empty batch, not an error. */
  lemma BlankChunkEmptyBatch(st: DecoderState, chunk: string, parse: string -> Option<Value>)
    requires Truthy(st.success)
    requires forall k | 0 <= k < |chunk| :: chunk[k] == '\n'
    ensures Transform(st, chunk, parse) == (st, Batch([]))
  {
    ParseChunkBlank(chunk);
  }

  /**
   * A row chunk holding only a space is one line, handed to `JSON.parse`,
   * so it throws instead of yielding an empty batch.
   */
  lemma WhitespaceChunkThrows(st: DecoderState, chunk: string, parse: string -> Option<Value>)
    requires Truthy(st.success)
    requires chunk == " " && parse(chunk) == None
    ensures Transform(st, chunk, parse) == (st, Threw(SyntaxError))
  {
  }

  /**
   * A column name that is an object with its own `toString` field cannot
   * become a property key, so a chunk with a row throws a TypeError.
   */
  lemma ObjectColumnNameThrows(st: DecoderState, chunk: string, parse: string -> Option<Value>, names: seq<Value>, k: nat)
    requires Truthy(st.success) && Get(st.success, "columnNames") == Arr(names)
    requires k < |names| && names[k].Obj? && "toString" in names[k].fields
    requires RowFramesReadable(chunk, parse) && ParseChunk(chunk) != []
    ensures Transform(st, chunk, parse) == (st, Threw(TypeError))
  {
  }

  /**
   * After success metadata with an array of column names, a run over
   * well-formed row chunks yields one batch per chunk, in order.
   */
  lemma {:induction false} RunRowChunks(st: DecoderState, chunks: seq<string>, parse: string -> Option<Value>, names: seq<Value>)
    requires Truthy(st.success) && Get(st.success, "columnNames") == Arr(names) && KeysConvertible(names)
    requires forall i | 0 <= i < |chunks| :: RowFramesReadable(chunks[i], parse)
    ensures Run(st, chunks, parse).0 == st
    ensures |Run(st, chunks, parse).1| == |chunks|
    ensures forall i | 0 <= i < |chunks| :: Run(st, chunks, parse).1[i] == Transform(st, chunks[i], parse).1
    ensures forall i | 0 <= i < |chunks| :: Run(st, chunks, parse).1[i].Batch?
    decreases |chunks|
  {
    if chunks != [] {
      RowChunkBatch(st, chunks[0], parse, names);
      var first := Transform(st, chunks[0], parse);
      assert first.0 == st && first.1.Batch?;
      RunRowChunks(st, chunks[1..], parse, names);
      var rest := Run(st, chunks[1..], parse);
      assert Run(st, chunks, parse) == (rest.0, [first.1] + rest.1);
      forall i | 1 <= i < |chunks|
        ensures Run(st, chunks, parse).1[i] == Transform(st, chunks[i], parse).1
      {
        assert chunks[1..][i - 1] == chunks[i];
      }
    }
  }

  /** Success metadata of the server's test query: columns a, b, c. */
  const TestMetadata: Value :=
    Obj(map["queryId" := Str("test-123"),
            "columnNames" := Arr([Str("a"), Str("b"), Str("c")]),
            "columnTypes" := Arr([Str("STRING"), Str("BIGINT"), Str("STRING")])])

  /**
   * The metadata chunk followed by the row chunk `["hi",1,"there"]` yields
   * exactly one batch holding the row {a: "hi", b: 1, c: "there"}.
   */
  lemma DeserializesRowScenario(metaText: string, rowText: string, parse: string -> Option<Value>)
    requires rowText == "[\"hi\",1,\"there\"]"
    requires parse(metaText) == Some(TestMetadata)
    requires parse(rowText) == Some(Arr([Str("hi"), Num(1), Str("there")]))
    ensures Run(Initial, [metaText, rowText], parse) ==
      (DecoderState(TestMetadata, Undefined),
       [NoOutput, Batch([map["a" := Str("hi"), "b" := Num(1), "c" := Str("there")]])])
  {
    var frame := Arr([Str("hi"), Num(1), Str("there")]);
    var row := map["a" := Str("hi"), "b" := Num(1), "c" := Str("there")];
    var st := DecoderState(TestMetadata, Undefined);
    assert Transform(Initial, metaText, parse) == (st, NoOutput);

    TestRowLine(rowText);
    var names := [Str("a"), Str("b"), Str("c")];
    RowChunkBatch(st, rowText, parse, names);
    TestRow(ColumnKeys(names), frame);
    var out := Transform(st, rowText, parse).1;
    assert ParseChunk(rowText)[0] == rowText;
    assert out.rows[0] == row;
    assert out.rows == [row];
    assert Transform(st, rowText, parse) == (st, Batch([row]));
    RunRowChunks(st, [rowText], parse, names);
    assert Run(st, [rowText], parse).1 == [Batch([row])];
    var chunks := [metaText, rowText];
    assert chunks[0] == metaText && chunks[1..] == [rowText];
    assert Run(Initial, chunks, parse) == (st, [NoOutput] + Run(st, [rowText], parse).1);
    assert [NoOutput] + [Batch([row])] == [NoOutput, Batch([row])];
  }

  lemma TestRowLine(rowText: string)
    requires rowText == "[\"hi\",1,\"there\"]"
    ensures ParseChunk(rowText) == [rowText]
  {
  }

  lemma TestRow(keys: seq<string>, frame: Value)
    requires keys == ["a", "b", "c"] && frame == Arr([Str("hi"), Num(1), Str("there")])
    ensures RowOf(keys, frame) == map["a" := Str("hi"), "b" := Num(1), "c" := Str("there")]
  {
    assert keys[..2] == ["a", "b"] && keys[..2][..1] == ["a"];
    assert RowOf(["a"], frame) == map["a" := Str("hi")];
    assert RowOf(["a", "b"], frame) == map["a" := Str("hi"), "b" := Num(1)];
  }

  /** An error header with code 4000 fails the stream and sets the error accessors. */
  lemma ErrorScenario(metaText: string, rest: seq<string>, parse: string -> Option<Value>)
    requires parse(metaText) ==
      Some(Obj(map["@type" := Str("test"), "error_code" := Num(4000), "message" := Str("Test Error")]))
    ensures var (last, outs) := Run(Initial, [metaText] + rest, parse);
      outs == [Failed(QueryStreamError(Str("test"), Num(4000), Str("Test Error")))] &&
      GetOpt(last.error, "error_code") == Num(4000) &&
      GetOpt(last.error, "@type") == Str("test") &&
      GetOpt(last.error, "message") == Str("Test Error") &&
      GetOpt(last.success, "columnNames") == Undefined
  {
  }
}
