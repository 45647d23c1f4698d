/**
 * The random-value service: `GET /` and `GET /random` name the service; `POST /random`
 * decodes a JSON request for a distribution, draws from it, and serializes the value
 * in the format the query asks for; every other request is 404 "Not Found".
 * The random generator, the JSON decoder, the query parser and the serializers are
 * outside the model: their results arrive as parameters.
 */
module RandomService {

  import opened Wrappers
  import opened Http

  /** The body of `GET /` and `GET /random`. */
  const INDEX: string := "Random Microservice"

  /** The body of every unrouted request. */
  const NOT_FOUND_TEXT: string := "Not Found"

  /** The panic of `Uniform::new` when the range is empty. */
  const EMPTY_RANGE_PANIC: string := "Uniform::new called with `low >= high`"

  newtype i32 = x: int | -0x8000_0000 <= x < 0x8000_0000
  newtype u16 = x: int | 0 <= x < 0x1_0000

  /** A colour of three 8-bit channels. */
  datatype Color = Color(red: byte, green: byte, blue: byte)

  /** `RngRequest`, the decoded body of `POST /random`; floating-point parameters are reals here. */
  datatype RngRequest =
    | Uniform(start: i32, end: i32)
    | Normal(mean: real, stdDev: real)
    | Bernoulli(p: real)
    | Shuffle(data: seq<byte>)
    | Color(from: Color, to: Color)

  /** `RngResponse`. */
  datatype RngResponse = Value(value: real) | Bytes(bytes: seq<byte>) | Color(color: Color)

  // ---------------------------------------------------------------- color_range

  /** `color_range`: the bounds of the inclusive range, whichever order they come in. */
  function ColorRange(from: byte, to: byte): (r: (byte, byte))
    ensures r.0 <= r.1
    ensures r.0 <= from && r.0 <= to && (r.0 == from || r.0 == to)
    ensures r.1 >= from && r.1 >= to && (r.1 == from || r.1 == to)
  {
    if from <= to then (from, to) else (to, from)
  }

  predicate InRange(x: byte, range: (byte, byte)) {
    range.0 <= x <= range.1
  }

  /** The range does not depend on the order of its arguments, and holds exactly the values between them. */
  lemma ColorRangeSymmetric(a: byte, b: byte, x: byte)
    ensures ColorRange(a, b) == ColorRange(b, a)
    ensures InRange(x, ColorRange(a, b)) <==> (a <= x <= b || b <= x <= a)
  {
  }

  // ---------------------------------------------------------------- shuffle

  /** The swaps the slice shuffle draws: for position `i`, a partner in `0..=i`. */
  predicate ShufflePicks(picks: seq<nat>, n: nat) {
    |picks| == n && forall i :: 0 <= i < n ==> picks[i] <= i
  }

  function Swap(s: seq<byte>, a: nat, b: nat): (r: seq<byte>)
    requires a < |s| && b < |s|
    ensures |r| == |s| && multiset(r) == multiset(s)
    ensures r[a] == s[b] && r[b] == s[a]
    ensures forall k :: 0 <= k < |s| && k != a && k != b ==> r[k] == s[k]
  {
    s[a := s[b]][b := s[a]]
  }

  /**
   * `rng.shuffle(&mut data)`: from the top position `i` down to 1, swap it with the
   * drawn partner `picks[i]` (Fisher–Yates); positions `i..` are already placed.
   */
  function ShuffleBelow(s: seq<byte>, picks: seq<nat>, i: nat): (r: seq<byte>)
    requires i <= |s| && ShufflePicks(picks, |s|)
    ensures |r| == |s| && multiset(r) == multiset(s)
    ensures forall k :: i <= k < |s| ==> r[k] == s[k]
    decreases i
  {
    if i < 2 then s else ShuffleBelow(Swap(s, i - 1, picks[i - 1]), picks, i - 1)
  }

  function ShuffleBytes(data: seq<byte>, picks: seq<nat>): (r: seq<byte>)
    requires ShufflePicks(picks, |data|)
    ensures |r| == |data| && multiset(r) == multiset(data)
  {
    ShuffleBelow(data, picks, |data|)
  }

  // ---------------------------------------------------------------- handle_request

  /** What the thread's generator yields for one request, one field per draw site. */
  datatype Draws = Draws(uniform: i32, normal: real, bernoulli: bool, picks: seq<nat>, red: byte, green: byte, blue: byte)

  /** The draws lie in the support of the distributions `req` builds. */
  predicate DrawsFit(req: RngRequest, d: Draws) {
    match req
    case Uniform(start, end) => start < end ==> start <= d.uniform < end
    case Normal(_, _) => true
    case Bernoulli(_) => true
    case Shuffle(data) => ShufflePicks(d.picks, |data|)
    case Color(from, to) =>
      && InRange(d.red, ColorRange(from.red, to.red))
      && InRange(d.green, ColorRange(from.green, to.green))
      && InRange(d.blue, ColorRange(from.blue, to.blue))
  }

  /** `handle_request` either produces a response or panics inside a distribution's constructor. */
  datatype Generated = Produced(response: RngResponse) | Panicked(message: string)

  function HandleRequest(req: RngRequest, d: Draws): (g: Generated)
    requires DrawsFit(req, d)
    ensures g.Panicked? <==> req.Uniform? && req.start >= req.end
    ensures req.Uniform? && g.Produced? ==>
      g.response.Value? && req.start as real <= g.response.value < req.end as real
    ensures req.Bernoulli? ==> g == Produced(Value(0.0)) || g == Produced(Value(1.0))
    ensures req.Shuffle? ==>
      && g.Produced? && g.response.Bytes?
      && |g.response.bytes| == |req.data| && multiset(g.response.bytes) == multiset(req.data)
    ensures req.Color? ==>
      && g.Produced? && g.response.Color?
      && InRange(g.response.color.red, ColorRange(req.from.red, req.to.red))
      && InRange(g.response.color.green, ColorRange(req.from.green, req.to.green))
      && InRange(g.response.color.blue, ColorRange(req.from.blue, req.to.blue))
  {
    match req
    case Uniform(start, end) =>
      if start < end then Produced(Value(d.uniform as real)) else Panicked(EMPTY_RANGE_PANIC)
    case Normal(_, _) => Produced(Value(d.normal))
    case Bernoulli(_) => Produced(Value(if d.bernoulli then 1.0 else 0.0))
    case Shuffle(data) => Produced(RngResponse.Bytes(ShuffleBytes(data, d.picks)))
    case Color(_, _) => Produced(RngResponse.Color(Color.Color(d.red, d.green, d.blue)))
  }

  // ---------------------------------------------------------------- format and serialize

  /** A `serde_json::Value`, the shape `queryst::parse` returns. */
  datatype Json = Null | Bool(b: bool) | Number(n: real) | String(s: string) | Array(items: seq<Json>) | Object(fields: map<string, Json>)

  /** `value[key]`: the field of an object, `Null` for a missing field or any other value. */
  function Index(v: Json, key: string): Json {
    if v.Object? && key in v.fields then v.fields[key] else Null
  }

  /** `Value::as_str`. */
  function AsStr(v: Json): Option<string> {
    if v.String? then Some(v.s) else None
  }

  /** The parse succeeded and gave an object whose field `format` is a string. */
  predicate HasFormatField(v: Option<Json>) {
    v.Some? && v.value.Object? && "format" in v.value.fields && v.value.fields["format"].String?
  }

  /**
   * The output format of `POST /random`: the query string (empty when absent) is
   * parsed, parse failures count as `Null`, and the string field `format` wins over
   * the default "json".
   */
  function FormatOf(query: Option<string>, parse: string -> Option<Json>): (format: string)
    ensures HasFormatField(parse(query.GetOr(""))) ==> format == parse(query.GetOr("")).value.fields["format"].s
    ensures !HasFormatField(parse(query.GetOr(""))) ==> format == "json"
  {
    AsStr(Index(parse(query.GetOr("")).GetOr(Null), "format")).GetOr("json")
  }

  /** The two encoders, `serde_json::to_vec` and `serde_cbor::to_vec`, each of which may fail. */
  datatype Encoders = Encoders(json: RngResponse -> Result<seq<byte>, string>, cbor: RngResponse -> Result<seq<byte>, string>)

  /** `serialize`: only "json" and "cbor" are encoded; any other format is an error naming it. */
  function Serialize(format: string, resp: RngResponse, enc: Encoders): (r: Result<seq<byte>, string>)
    ensures r.Success? ==> format == "json" || format == "cbor"
    ensures format == "json" ==> r == enc.json(resp)
    ensures format == "cbor" ==> r == enc.cbor(resp)
    ensures format != "json" && format != "cbor" ==> r == Failure("unsupported format " + format)
  {
    match format
    case "json" => enc.json(resp)
    case "cbor" => enc.cbor(resp)
    case _ => Failure("unsupported format " + format)
  }

  // ---------------------------------------------------------------- handler

  /** The foreign libraries the handler calls: the query parser, the request decoder and the encoders. */
  datatype Libraries = Libraries(parseQuery: string -> Option<Json>, decode: seq<byte> -> Result<RngRequest, string>, encoders: Encoders)

  /** The generator's draws fit the request the body decodes to, if it decodes. */
  predicate DrawsFitBody(body: seq<byte>, libs: Libraries, d: Draws) {
    libs.decode(body).Success? ==> DrawsFit(libs.decode(body).value, d)
  }

  /** The `POST /random` arm: decode, draw, serialize; the decoder's or the serializer's error is a 422 carrying its text. */
  function GenerateResponse(req: Request<seq<byte>>, libs: Libraries, d: Draws): (r: Outcome)
    requires DrawsFitBody(req.body, libs, d)
    ensures libs.decode(req.body).Failure? ==>
      r == Respond(Response(UNPROCESSABLE_ENTITY, Text(libs.decode(req.body).error)))
    ensures libs.decode(req.body).Success? && HandleRequest(libs.decode(req.body).value, d).Panicked? ==>
      r == Panic(HandleRequest(libs.decode(req.body).value, d).message)
    ensures libs.decode(req.body).Success? && HandleRequest(libs.decode(req.body).value, d).Produced? ==>
      var s := Serialize(FormatOf(req.query, libs.parseQuery), HandleRequest(libs.decode(req.body).value, d).response, libs.encoders);
      && (s.Success? ==> r == Respond(Response(OK, Body.Bytes(s.value))))
      && (s.Failure? ==> r == Respond(Response(UNPROCESSABLE_ENTITY, Text(s.error))))
  {
    match libs.decode(req.body)
    case Failure(e) => Respond(Response(UNPROCESSABLE_ENTITY, Text(e)))
    case Success(request) =>
      match HandleRequest(request, d)
      case Panicked(message) => Panic(message)
      case Produced(resp) =>
        match Serialize(FormatOf(req.query, libs.parseQuery), resp, libs.encoders)
        case Success(bytes) => Respond(OkResponse(Body.Bytes(bytes)))
        case Failure(e) => Respond(Response(UNPROCESSABLE_ENTITY, Text(e)))
  }

  /** `microservice_handler`. */
  function Handle(req: Request<seq<byte>>, libs: Libraries, d: Draws): (r: Outcome)
    requires DrawsFitBody(req.body, libs, d)
    ensures req.httpMethod == GET && (req.path == "/" || req.path == "/random") ==> r == Respond(Response(OK, Text(INDEX)))
    ensures !(req.httpMethod == GET && (req.path == "/" || req.path == "/random"))
            && !(req.httpMethod == POST && req.path == "/random")
            ==> r == Respond(Response(NOT_FOUND, Text(NOT_FOUND_TEXT)))
    ensures r.Respond? ==> r.response.status in {OK, NOT_FOUND, UNPROCESSABLE_ENTITY}
    ensures !r.Fail?
    ensures r.Panic? ==>
      && req.httpMethod == POST && req.path == "/random"
      && libs.decode(req.body).Success? && libs.decode(req.body).value.Uniform?
      && libs.decode(req.body).value.start >= libs.decode(req.body).value.end
  {
    match (req.httpMethod, req.path)
    case (GET, "/") => Respond(OkResponse(Text(INDEX)))
    case (GET, "/random") => Respond(OkResponse(Text(INDEX)))
    case (POST, "/random") => GenerateResponse(req, libs, d)
    case _ => Respond(Response(NOT_FOUND, Text(NOT_FOUND_TEXT)))
  }

  /**
   * A request that decodes and draws is answered with its serialization: 200 with
   * exactly the encoded bytes, or 422 with the encoder's or the format's error text.
   */
  lemma PostAnswersSerialization(req: Request<seq<byte>>, libs: Libraries, d: Draws)
    requires req.httpMethod == POST && req.path == "/random"
    requires DrawsFitBody(req.body, libs, d)
    requires libs.decode(req.body).Success? && HandleRequest(libs.decode(req.body).value, d).Produced?
    ensures var s := Serialize(FormatOf(req.query, libs.parseQuery), HandleRequest(libs.decode(req.body).value, d).response, libs.encoders);
      && (s.Success? ==> Handle(req, libs, d) == Respond(Response(OK, Body.Bytes(s.value))))
      && (s.Failure? ==> Handle(req, libs, d) == Respond(Response(UNPROCESSABLE_ENTITY, Text(s.error))))
  {
  }

  /** A body the decoder rejects is answered 422 with the decoder's message. */
  lemma DecodeErrorIsUnprocessable(req: Request<seq<byte>>, libs: Libraries, d: Draws)
    requires req.httpMethod == POST && req.path == "/random"
    requires libs.decode(req.body).Failure?
    ensures Handle(req, libs, d) == Respond(Response(UNPROCESSABLE_ENTITY, Text(libs.decode(req.body).error)))
  {
  }

  /** A format other than "json" and "cbor" is answered 422 "unsupported format <format>". */
  lemma UnsupportedFormatIsUnprocessable(req: Request<seq<byte>>, libs: Libraries, d: Draws)
    requires req.httpMethod == POST && req.path == "/random"
    requires DrawsFitBody(req.body, libs, d)
    requires libs.decode(req.body).Success?
    requires !(libs.decode(req.body).value.Uniform? && libs.decode(req.body).value.start >= libs.decode(req.body).value.end)
    requires FormatOf(req.query, libs.parseQuery) != "json" && FormatOf(req.query, libs.parseQuery) != "cbor"
    ensures Handle(req, libs, d)
      == Respond(Response(UNPROCESSABLE_ENTITY, Text("unsupported format " + FormatOf(req.query, libs.parseQuery))))
  {
  }

  /**
   * Without a query the format is "json" (as long as the parser finds no `format` in
   * the empty string), and a shuffle answers 200 with the JSON of a permutation of
   * the request's bytes.
   */
  lemma ShuffleAnswersPermutation(req: Request<seq<byte>>, libs: Libraries, d: Draws)
    requires req.httpMethod == POST && req.path == "/random" && req.query.None?
    requires !HasFormatField(libs.parseQuery(""))
    requires libs.decode(req.body).Success? && libs.decode(req.body).value.Shuffle?
    requires ShufflePicks(d.picks, |libs.decode(req.body).value.data|)
    requires forall resp :: libs.encoders.json(resp).Success?
    ensures var data := libs.decode(req.body).value.data;
      exists shuffled :: |shuffled| == |data| && multiset(shuffled) == multiset(data)
        && Handle(req, libs, d) == Respond(Response(OK, Body.Bytes(libs.encoders.json(RngResponse.Bytes(shuffled)).value)))
  {
    var data := libs.decode(req.body).value.data;
    var shuffled := ShuffleBytes(data, d.picks);
    assert FormatOf(req.query, libs.parseQuery) == "json";
    assert Handle(req, libs, d) == Respond(Response(OK, Body.Bytes(libs.encoders.json(RngResponse.Bytes(shuffled)).value)));
  }

  // ---------------------------------------------------------------- listen address

  /** A socket address; only its equality matters here. */
  datatype SocketAddr = V4(octets: seq<byte>, port: u16) | V6(segments: seq<u16>, port: u16)

  /** `127.0.0.1:8080`. */
  const DEFAULT_ADDRESS: SocketAddr := V4([127, 0, 0, 1], 8080)

  /**
   * The address `main` binds: the `--address` argument, else `ADDRESS` from the
   * environment; that one string is parsed, and when it is missing or does not parse
   * the configuration file's address is used, else 127.0.0.1:8080.
   */
  function ListenAddress(cli: Option<string>, env: Option<string>, config: Option<SocketAddr>,
                         parse: string -> Option<SocketAddr>): (addr: SocketAddr)
    ensures cli.Some? && parse(cli.value).Some? ==> addr == parse(cli.value).value
    ensures cli.None? && env.Some? && parse(env.value).Some? ==> addr == parse(env.value).value
    ensures cli.Some? && parse(cli.value).None? ==> addr == config.GetOr(DEFAULT_ADDRESS)
    ensures cli.None? && (env.None? || parse(env.value).None?) ==> addr == config.GetOr(DEFAULT_ADDRESS)
  {
    AndThen(cli.Or(env), parse).Or(config).GetOr(DEFAULT_ADDRESS)
  }
}
