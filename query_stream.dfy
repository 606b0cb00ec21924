/**
 * The query stream of a ksqlDB client: the request it issues on a
 * multiplexed HTTP/2 session, and the decoder that turns the response
 * chunks into header metadata and row batches.
 *
 * The decoder runs once per response chunk. While no success metadata is
 * set, the chunk is parsed as one JSON value: a truthy `error_code` makes it
 * error metadata and fails the stream with a structured error; anything
 * else becomes success metadata and yields nothing. Afterwards every chunk
 * is split into lines, each line is parsed as a positional row frame and
 * zipped against `columnNames`, and the rows go out as one batch.
 */
module QueryStreams {
  import opened Wrappers
  import opened JsValues
  import opened Lines
  import opened Rows

  /** Path of the server's streaming query endpoint. */
  const QueryStreamEndpoint: string := "/query-stream"
  /** Media type of the server's newline-delimited JSON responses. */
  const DelimitedContentType: string := "application/vnd.ksqlapi.delimited.v1"

  /** HTTP/2 header names (Node's `http2.constants`). */
  const HeaderPath: string := ":path"
  const HeaderMethod: string := ":method"
  const HeaderContentType: string := "content-type"
  const HeaderAuthorization: string := "authorization"

  datatype BasicAuth = BasicAuth(username: string, password: string)

  /** `Partial<KsqlDbAuthTypes>`: the one credential kind may be absent. */
  datatype AuthConfig = AuthConfig(basic: Option<BasicAuth>)

  /** A header value: plain text, or the structured basic credentials. */
  datatype HeaderValue = Text(text: string) | Credentials(username: string, password: string)

  /** The one request a query stream sends: its headers and its JSON body. */
  datatype Request = Request(headers: map<string, HeaderValue>, body: Value)

  /** `KsqlDbQueryStreamError`: the server's error type tag, code and message. */
  datatype QueryStreamError = QueryStreamError(errorType: Value, errorCode: Value, message: Value)

  /** What one call of the chunk transform hands to its callback, or throws. */
  datatype Outcome =
    | NoOutput                          // callback(null): the header was consumed
    | Batch(rows: seq<Row>)             // callback(null, rows)
    | Failed(error: QueryStreamError)   // callback(error): the stream fails
    | Threw(exception: JsError)         // an exception escaped the transform

  predicate Ends(out: Outcome) {
    out.Failed? || out.Threw?
  }

  /** The decoder's two metadata fields; `undefined` until set. */
  datatype DecoderState = DecoderState(success: Value, error: Value)

  const Initial: DecoderState := DecoderState(Undefined, Undefined)

  /** The request body `{sql, properties, sessionVariables}`; absent options are `undefined`. */
  function RequestBody(sql: string, properties: Value, sessionVariables: Value): (body: Value)
    ensures body.Obj? && body.fields.Keys == {"sql", "properties", "sessionVariables"}
    ensures Get(body, "sql") == Str(sql)
    ensures Get(body, "properties") == properties
    ensures Get(body, "sessionVariables") == sessionVariables
  {
    Obj(map["sql" := Str(sql), "properties" := properties, "sessionVariables" := sessionVariables])
  }

  /** The error raised for error metadata `raw`. */
  function ErrorOf(raw: Value): QueryStreamError
    requires Readable(raw)
  {
    QueryStreamError(Get(raw, "@type"), Get(raw, "error_code"), Get(raw, "message"))
  }

  /**
   * `lines.map(JSON.parse)`: every line parsed, or a SyntaxError (`None`)
   * as soon as one line is not JSON.
   */
  function ParseAll(lines: seq<string>, parse: string -> Option<Value>): (r: Option<seq<Value>>)
    ensures r.Some? <==> forall k | 0 <= k < |lines| :: parse(lines[k]).Some?
    ensures r.Some? ==> |r.value| == |lines|
    ensures r.Some? ==> forall k | 0 <= k < |lines| :: parse(lines[k]) == Some(r.value[k])
    decreases |lines|
  {
    if lines == [] then Some([])
    else match (parse(lines[0]), ParseAll(lines[1..], parse))
      case (Some(v), Some(vs)) => Some([v] + vs)
      case _ => None
  }

  /**
   * `frames.map(values => columnNames.reduce(...))`: one row per frame.
   * Reading `reduce` of a `columnNames` that is not an array throws; so
   * does a column name that cannot become a property key, and indexing a
   * `null` frame when there is a column to fill. None of this happens when
   * there is no frame.
   */
  function ZipAll(columnNames: Value, frames: seq<Value>): (r: Result<seq<Row>, JsError>)
    ensures r.Failure? ==> r.error == TypeError
    ensures r.Success? <==>
      frames == [] ||
      (columnNames.Arr? && KeysConvertible(columnNames.items) &&
       (columnNames.items == [] || forall k | 0 <= k < |frames| :: Readable(frames[k])))
    ensures r.Success? ==> |r.value| == |frames|
    ensures r.Success? && frames != [] ==>
      forall k | 0 <= k < |frames| ::
        r.value[k] == RowOf(ColumnKeys(columnNames.items), frames[k])
    decreases |frames|
  {
    if frames == [] then Success([])
    else if !columnNames.Arr? || !KeysConvertible(columnNames.items) then Failure(TypeError)
    else
      var keys := ColumnKeys(columnNames.items);
      if keys != [] && !Readable(frames[0]) then Failure(TypeError)
      else match ZipAll(columnNames, frames[1..])
        case Success(rest) => Success([RowOf(keys, frames[0])] + rest)
        case Failure(e) => Failure(e)
  }

  /** The row path: the batch decoded from one chunk against `columnNames`. */
  function DecodeRows(columnNames: Value, chunk: string, parse: string -> Option<Value>): (out: Outcome)
    ensures out.Batch? || out.Threw?
    ensures out.Batch? ==> |out.rows| == |ParseChunk(chunk)|
    ensures (exists k | 0 <= k < |ParseChunk(chunk)| :: parse(ParseChunk(chunk)[k]).None?) ==>
      out == Threw(SyntaxError)
  {
    match ParseAll(ParseChunk(chunk), parse)
    case None => Threw(SyntaxError)
    case Some(frames) =>
      match ZipAll(columnNames, frames)
      case Success(rows) => Batch(rows)
      case Failure(e) => Threw(e)
  }

  /** One step of the decoder: the new metadata fields and the outcome. */
  function Transform(st: DecoderState, chunk: string, parse: string -> Option<Value>): (r: (DecoderState, Outcome))
    ensures Truthy(st.success) ==> r.0 == st && (r.1.Batch? || r.1.Threw?)
    ensures r.1.Threw? || r.1.Batch? ==> r.0 == st
    ensures r.1.Failed? ==>
      !Truthy(st.success) && parse(chunk).Some? && r.0 == DecoderState(st.success, parse(chunk).value) &&
      Readable(parse(chunk).value) && r.1.error == ErrorOf(parse(chunk).value)
    ensures r.1.NoOutput? ==>
      !Truthy(st.success) && parse(chunk).Some? && r.0 == DecoderState(parse(chunk).value, st.error) &&
      Readable(parse(chunk).value) && !Truthy(Get(parse(chunk).value, "error_code"))
  {
    if !Truthy(st.success) then
      match parse(chunk)
      case None => (st, Threw(SyntaxError))
      case Some(raw) =>
        if !Readable(raw) then (st, Threw(TypeError))
        else if Truthy(Get(raw, "error_code")) then (st.(error := raw), Failed(ErrorOf(raw)))
        else (st.(success := raw), NoOutput)
    else
      (st, DecodeRows(Get(st.success, "columnNames"), chunk, parse))
  }

  /**
   * The chunks of one response run through the decoder in arrival order.
   * A failure or an exception destroys the stream, so no later chunk is
   * decoded.
   */
  function Run(st: DecoderState, chunks: seq<string>, parse: string -> Option<Value>): (r: (DecoderState, seq<Outcome>))
    ensures |r.1| <= |chunks|
    ensures chunks != [] ==> |r.1| >= 1
    ensures forall k | 0 <= k < |r.1| - 1 :: !Ends(r.1[k])
    decreases |chunks|
  {
    if chunks == [] then (st, [])
    else
      var (next, out) := Transform(st, chunks[0], parse);
      if Ends(out) then (next, [out])
      else
        var (last, outs) := Run(next, chunks[1..], parse);
        (last, [out] + outs)
  }

  /**
   * The `.map` that zips each parsed frame against `columnNames`, one
   * reducer run per frame, in order.
   */
  method ZipFrames(columnNames: Value, frames: seq<Value>) returns (r: Result<seq<Row>, JsError>)
    ensures r == ZipAll(columnNames, frames)
  {
    var results: seq<Row> := [];
    var j := 0;
    while j < |frames|
      invariant 0 <= j <= |frames| && |results| == j
      invariant j > 0 ==> columnNames.Arr? && KeysConvertible(columnNames.items)
      invariant j > 0 && columnNames.items != [] ==> forall k | 0 <= k < j :: Readable(frames[k])
      invariant forall k | 0 <= k < j ::
        columnNames.Arr? && KeysConvertible(columnNames.items) &&
        (columnNames.items == [] || Readable(frames[k])) &&
        results[k] == RowOf(ColumnKeys(columnNames.items), frames[k])
    {
      if !columnNames.Arr? || !KeysConvertible(columnNames.items) {
        return Failure(TypeError);
      }
      var keys := ColumnKeys(columnNames.items);
      if keys != [] && !Readable(frames[j]) {
        return Failure(TypeError);
      }
      var row := BuildRow(keys, frames[j]);
      results := results + [row];
      j := j + 1;
    }
    r := Success(results);
    ghost var spec := ZipAll(columnNames, frames);
    assert spec.Success?;
    assert frames != [] ==> spec.value == results;
  }

  class QueryStream {
    const sql: string
    const sessionVariables: Value
    const queryProperties: Value
    const authConfig: Option<AuthConfig>

    var successMetadata: Value
    var errorMetadata: Value
    /** The request issued on the session when the stream was created. */
    var request: Request

    function State(): DecoderState
      reads this
    {
      DecoderState(successMetadata, errorMetadata)
    }

    /** Opens the stream: builds the headers and body and sends them once. */
    constructor (sql: string, sessionVariables: Value, queryProperties: Value, authConfig: Option<AuthConfig>)
      ensures this.sql == sql && this.sessionVariables == sessionVariables
      ensures this.queryProperties == queryProperties && this.authConfig == authConfig
      ensures State() == Initial
      ensures ColumnNames() == Undefined && ColumnTypes() == Undefined && QueryId() == Undefined
      ensures ErrorMessage() == Undefined && ErrorCode() == Undefined && ErrorType() == Undefined
      ensures request.body == RequestBody(sql, queryProperties, sessionVariables)
      ensures HeaderPath in request.headers && request.headers[HeaderPath] == Text(QueryStreamEndpoint)
      ensures HeaderMethod in request.headers && request.headers[HeaderMethod] == Text("POST")
      ensures HeaderContentType in request.headers && request.headers[HeaderContentType] == Text(DelimitedContentType)
      ensures authConfig.Some? && authConfig.value.basic.Some? ==>
        request.headers.Keys == {HeaderPath, HeaderMethod, HeaderContentType, HeaderAuthorization} &&
        request.headers[HeaderAuthorization] ==
          Credentials(authConfig.value.basic.value.username, authConfig.value.basic.value.password)
      ensures !(authConfig.Some? && authConfig.value.basic.Some?) ==>
        request.headers.Keys == {HeaderPath, HeaderMethod, HeaderContentType}
    {
      this.sql := sql;
      this.sessionVariables := sessionVariables;
      this.queryProperties := queryProperties;
      this.authConfig := authConfig;
      successMetadata := Undefined;
      errorMetadata := Undefined;
      new;
      var headers := BuildHeaders(QueryStreamEndpoint, "POST");
      request := Request(headers, RequestBody(sql, queryProperties, sessionVariables));
    }

    /** Column names of the query, once success metadata is set. */
    function ColumnNames(): (names: Value)
      reads this
      ensures successMetadata.Obj? && "columnNames" in successMetadata.fields ==>
        names == successMetadata.fields["columnNames"]
      ensures !(successMetadata.Obj? && "columnNames" in successMetadata.fields) ==> names == Undefined
    {
      GetOpt(successMetadata, "columnNames")
    }

    /** Column types of the query, once success metadata is set. */
    function ColumnTypes(): (types: Value)
      reads this
      ensures successMetadata.Obj? && "columnTypes" in successMetadata.fields ==>
        types == successMetadata.fields["columnTypes"]
      ensures !(successMetadata.Obj? && "columnTypes" in successMetadata.fields) ==> types == Undefined
    {
      GetOpt(successMetadata, "columnTypes")
    }

    /** The query's id; the server sends one only for push queries. */
    function QueryId(): (id: Value)
      reads this
      ensures successMetadata.Obj? && "queryId" in successMetadata.fields ==>
        id == successMetadata.fields["queryId"]
      ensures !(successMetadata.Obj? && "queryId" in successMetadata.fields) ==> id == Undefined
    {
      GetOpt(successMetadata, "queryId")
    }

    /** The message of the server's error metadata, if any. */
    function ErrorMessage(): (message: Value)
      reads this
      ensures errorMetadata.Obj? && "message" in errorMetadata.fields ==>
        message == errorMetadata.fields["message"]
      ensures !(errorMetadata.Obj? && "message" in errorMetadata.fields) ==> message == Undefined
    {
      GetOpt(errorMetadata, "message")
    }

    /** The code of the server's error metadata, if any. */
    function ErrorCode(): (code: Value)
      reads this
      ensures errorMetadata.Obj? && "error_code" in errorMetadata.fields ==>
        code == errorMetadata.fields["error_code"]
      ensures !(errorMetadata.Obj? && "error_code" in errorMetadata.fields) ==> code == Undefined
    {
      GetOpt(errorMetadata, "error_code")
    }

    /** The type tag (`@type`) of the server's error metadata, if any. */
    function ErrorType(): (tag: Value)
      reads this
      ensures errorMetadata.Obj? && "@type" in errorMetadata.fields ==>
        tag == errorMetadata.fields["@type"]
      ensures !(errorMetadata.Obj? && "@type" in errorMetadata.fields) ==> tag == Undefined
    {
      GetOpt(errorMetadata, "@type")
    }

    /**
     * The request headers: path, method and content type always, and the
     * basic credentials as the authorization entry exactly when configured.
     */
    method BuildHeaders(path: string, httpMethod: string) returns (headers: map<string, HeaderValue>)
      ensures authConfig.Some? && authConfig.value.basic.Some? ==>
        headers.Keys == {HeaderPath, HeaderMethod, HeaderContentType, HeaderAuthorization}
      ensures !(authConfig.Some? && authConfig.value.basic.Some?) ==>
        headers.Keys == {HeaderPath, HeaderMethod, HeaderContentType}
      ensures HeaderPath in headers && headers[HeaderPath] == Text(path)
      ensures HeaderMethod in headers && headers[HeaderMethod] == Text(httpMethod)
      ensures HeaderContentType in headers && headers[HeaderContentType] == Text(DelimitedContentType)
      ensures HeaderAuthorization in headers ==>
        authConfig.Some? && authConfig.value.basic.Some? &&
        headers[HeaderAuthorization] ==
          Credentials(authConfig.value.basic.value.username, authConfig.value.basic.value.password)
    {
      headers := map[HeaderPath := Text(path), HeaderMethod := Text(httpMethod),
                     HeaderContentType := Text(DelimitedContentType)];
      if authConfig.Some? && authConfig.value.basic.Some? {
        var basic := authConfig.value.basic.value;
        headers := headers[HeaderAuthorization := Credentials(basic.username, basic.password)];
      }
    }

    /**
     * Decodes one response chunk. `parse` stands for `JSON.parse`, with
     * `None` for a SyntaxError.
     */
    method TransformChunk(chunk: string, parse: string -> Option<Value>) returns (out: Outcome)
      modifies this`successMetadata, this`errorMetadata
      ensures (State(), out) == Transform(old(State()), chunk, parse)
      ensures old(Truthy(successMetadata)) ==>
        successMetadata == old(successMetadata) && errorMetadata == old(errorMetadata) &&
        (out.Batch? || out.Threw?)
    {
      if !Truthy(successMetadata) {
        var parsed := parse(chunk);
        if parsed.None? {
          return Threw(SyntaxError);
        }
        var rawMeta := parsed.value;
        if !Readable(rawMeta) {
          return Threw(TypeError);
        }
        if Truthy(Get(rawMeta, "error_code")) {
          errorMetadata := rawMeta;
          return Failed(QueryStreamError(Get(errorMetadata, "@type"), Get(errorMetadata, "error_code"),
                                         Get(errorMetadata, "message")));
        }
        successMetadata := rawMeta;
        return NoOutput;
      }

      var parsedFrames := ParseAll(ParseChunk(chunk), parse);
      if parsedFrames.None? {
        return Threw(SyntaxError);
      }
      var zipped := ZipFrames(Get(successMetadata, "columnNames"), parsedFrames.value);
      match zipped
      case Success(rows) => return Batch(rows);
      case Failure(e) => return Threw(e);
    }
  }
}
