/** pkg/gateway/types.go: the JSON-RPC 2.0 message shapes, the two classifiers over
    them, and the field-by-field decoding that encoding/json does for the structs. */
module Messages {
  import opened Option
  import opened Wire

  function SkipDigits(t: string): string {
    if t != "" && IsDigit(t[0]) then SkipDigits(t[1..]) else t
  }

  predicate StartsWithDigit(t: string) {
    t != "" && IsDigit(t[0])
  }

  predicate IsExponent(t: string) {
    && t != "" && (t[0] == 'e' || t[0] == 'E')
    && var u := if |t| > 1 && (t[1] == '+' || t[1] == '-') then t[2..] else t[1..];
       StartsWithDigit(u) && SkipDigits(u) == ""
  }

  /** A JSON number that is no integer literal: it has a fraction or an exponent. */
  predicate IsNumeral(t: string) {
    var u := if t != "" && t[0] == '-' then t[1..] else t;
    && StartsWithDigit(u)
    && var v := SkipDigits(u);
       && (u[0] == '0' ==> v == u[1..])
       && (|| IsExponent(v)
           || (v != "" && v[0] == '.' && StartsWithDigit(v[1..])
               && (SkipDigits(v[1..]) == "" || IsExponent(SkipDigits(v[1..])))))
  }

  type Numeral = t: string | IsNumeral(t) witness "0.5"

  /** Numbers: an integer literal, or any other numeral kept as its text. */
  datatype Json =
    | JNull
    | JBool(b: bool)
    | JInt(n: int)
    | JNumeral(text: Numeral)
    | JStr(s: string)
    | JArr(items: seq<Json>)
    | JObj(fields: map<string, Json>)

  /** One trimmed line as json.Unmarshal meets it: broken text, of which only the first
      character matters to the dispatcher, or a value. */
  datatype Line = Malformed(brace: bool) | Parsed(json: Json)

  datatype Error = Error(code: int, message: string)
  datatype Request = Request(id: Json, name: string, params: Option<Json>)
  datatype Notification = Notification(name: string, params: Option<Json>)
  datatype Response = Response(id: Json, result: Option<Json>, error: Option<Error>)

  const PARSE_ERROR := -32700
  const METHOD_NOT_FOUND := -32601
  const INTERNAL_ERROR := -32603
  const AUTH_FAILED := -32001

  // ---------------------------------------------------------------- decoding

  /** The member's value when it is present; a JSON null is still a value here. */
  function Raw(j: Json, key: string): Option<Json> {
    if j.JObj? && key in j.fields then Some(j.fields[key]) else None
  }

  /** What a pointer field holds afterwards: null leaves it nil. */
  function Pointer(j: Json, key: string): Option<Json> {
    match Raw(j, key)
    case Some(v) => if v == JNull then None else Some(v)
    case None => None
  }

  /** A struct decodes from an object, and from null, which changes nothing. */
  predicate IsStruct(l: Line) {
    l.Parsed? && (l.json.JObj? || l.json.JNull?)
  }

  predicate StringOk(v: Option<Json>) {
    v.None? || v.value.JStr?
  }

  predicate IntOk(v: Option<Json>) {
    v.None? || (v.value.JInt? && -0x8000_0000_0000_0000 <= v.value.n < 0x8000_0000_0000_0000)
  }

  function StringOr(v: Option<Json>): string
    requires StringOk(v)
  {
    if v.Some? then v.value.s else ""
  }

  /** The error member decodes into *Error. */
  predicate ErrorOk(v: Option<Json>) {
    v.None? ||
    (v.value.JObj? && IntOk(Pointer(v.value, "code")) && StringOk(Pointer(v.value, "message")))
  }

  function ErrorOf(v: Option<Json>): Option<Error>
    requires ErrorOk(v)
  {
    if v.None? then None else
    var code := Pointer(v.value, "code");
    Some(Error(if code.Some? then code.value.n else 0, StringOr(Pointer(v.value, "message"))))
  }

  /** IsNotification (types.go): decodes, and has no id other than null. */
  predicate IsNotification(l: Line) {
    IsStruct(l) && Pointer(l.json, "id").None?
  }

  /** HasResultOrError (types.go): decodes, and has a non-null result or error. */
  predicate HasResultOrError(l: Line) {
    && IsStruct(l) && ErrorOk(Pointer(l.json, "error"))
    && (Pointer(l.json, "result").Some? || Pointer(l.json, "error").Some?)
  }

  function IdOf(j: Json): Json {
    match Raw(j, "id") case Some(v) => v case None => JNull
  }

  function DecodeRequest(l: Line): Option<Request> {
    if IsStruct(l) && StringOk(Pointer(l.json, "jsonrpc")) && StringOk(Pointer(l.json, "method"))
    then Some(Request(IdOf(l.json), StringOr(Pointer(l.json, "method")), Raw(l.json, "params")))
    else None
  }

  function DecodeNotification(l: Line): Option<Notification> {
    if IsStruct(l) && StringOk(Pointer(l.json, "jsonrpc")) && StringOk(Pointer(l.json, "method"))
    then Some(Notification(StringOr(Pointer(l.json, "method")), Raw(l.json, "params")))
    else None
  }

  function DecodeResponse(l: Line): Option<Response> {
    if IsStruct(l) && StringOk(Pointer(l.json, "jsonrpc")) && ErrorOk(Pointer(l.json, "error"))
    then Some(Response(IdOf(l.json), Raw(l.json, "result"), ErrorOf(Pointer(l.json, "error"))))
    else None
  }

  /** Arrays and objects decode to values that Go cannot use as map keys: looking one up panics. */
  predicate Comparable(id: Json) {
    !id.JArr? && !id.JObj?
  }

  /** What the structs do not accept, and that a null member counts as none. */
  lemma DecodesStrictly(fields: map<string, Json>, v: Json)
    ensures var l := Parsed(JObj(fields["method" := v]));
            !v.JNull? && !v.JStr? ==> DecodeRequest(l) == None && DecodeNotification(l) == None
    ensures var l := Parsed(JObj(fields["jsonrpc" := v]));
            !v.JNull? && !v.JStr? ==> DecodeRequest(l) == None && DecodeNotification(l) == None && DecodeResponse(l) == None
    ensures var l := Parsed(JObj(fields["error" := v]));
            !v.JNull? && !v.JObj? ==> DecodeResponse(l) == None && !HasResultOrError(l)
    ensures DecodeRequest(Parsed(JObj(fields["method" := JNull]))) == DecodeRequest(Parsed(JObj(fields - {"method"})))
    ensures DecodeResponse(Parsed(JObj(fields["error" := JNull]))) == DecodeResponse(Parsed(JObj(fields - {"error"})))
    ensures forall brace :: DecodeRequest(Malformed(brace)) == None && DecodeResponse(Malformed(brace)) == None
  {
    RemovedIsNull(fields, "method");
    RemovedIsNull(fields, "error");
  }

  lemma RemovedIsNull(fields: map<string, Json>, key: string)
    ensures Pointer(JObj(fields[key := JNull]), key) == Pointer(JObj(fields - {key}), key) == None
    ensures forall other :: other != key ==> Raw(JObj(fields[key := JNull]), other) == Raw(JObj(fields - {key}), other)
  {
  }

  /** An error's code is a 64-bit integer and its message a string. */
  lemma ErrorsDecodeStrictly(fields: map<string, Json>, v: Json)
    ensures ErrorOk(Some(JObj(fields["code" := v]))) ==>
              v.JNull? || (v.JInt? && -0x8000_0000_0000_0000 <= v.n < 0x8000_0000_0000_0000)
    ensures ErrorOk(Some(JObj(fields["message" := v]))) ==> v.JNull? || v.JStr?
  {
  }

  // ---------------------------------------------------------------- encoding

  const VERSION := map["jsonrpc" := JStr("2.0")]

  function Member(key: string, v: Option<Json>): map<string, Json> {
    match v case Some(j) => map[key := j] case None => map[]
  }

  function EncodeError(e: Error): Json {
    JObj(map["code" := JInt(e.code), "message" := JStr(e.message)])
  }

  function EncodeRequest(r: Request): Json {
    JObj(VERSION + map["id" := r.id, "method" := JStr(r.name)] + Member("params", r.params))
  }

  function EncodeNotification(n: Notification): Json {
    JObj(VERSION + map["method" := JStr(n.name)] + Member("params", n.params))
  }

  function EncodeResponse(r: Response): Json {
    JObj(VERSION + map["id" := r.id] + Member("result", r.result)
         + Member("error", if r.error.Some? then Some(EncodeError(r.error.value)) else None))
  }

  /** A Go int fits an error code. */
  predicate GoResponse(r: Response) {
    r.error.Some? ==> IntOk(Some(JInt(r.error.value.code)))
  }

  // ---------------------------------------------------------------- classification

  datatype Kind = KRejected | KRequest | KNotification | KResponse | KUnknown

  /** dispatchMessage (server.go) once a connection is past authentication. */
  function ServerKind(l: Line): Kind {
    if !(if l.Malformed? then l.brace else l.json.JObj?) then KRejected
    else if HasResultOrError(l) then KResponse
    else if IsNotification(l) then KNotification
    else KRequest
  }

  /** readLoop (client.go). */
  function ClientKind(l: Line): Kind {
    if IsNotification(l) then KNotification
    else if HasResultOrError(l) then KResponse
    else KUnknown
  }

  /** On objects the classifiers agree except on two families: a result or error without
      an id, and an id without a result or error, which only the server takes for a request. */
  lemma ClassifiersAgree(fields: map<string, Json>)
    ensures var l := Parsed(JObj(fields));
            ServerKind(l) == ClientKind(l) <==>
            (Pointer(l.json, "id").Some? <==>
             ErrorOk(Pointer(l.json, "error")) && (Pointer(l.json, "result").Some? || Pointer(l.json, "error").Some?))
    ensures var l := Parsed(JObj(fields));
            ServerKind(l) != ClientKind(l) ==>
            || (ServerKind(l) == KResponse && ClientKind(l) == KNotification)
            || (ServerKind(l) == KRequest && ClientKind(l) == KUnknown)
  {
  }

  /** Off objects they part ways: a bare null is a notification to the client alone, and
      broken text starting with a brace is a request to the server alone. */
  lemma ClassifiersOffObjects(l: Line)
    requires !(l.Parsed? && l.json.JObj?)
    ensures ClientKind(l) == if l == Parsed(JNull) then KNotification else KUnknown
    ensures ServerKind(l) == if l == Malformed(true) then KRequest else KRejected
    ensures ServerKind(l) == KRequest ==> DecodeRequest(l).None?
  {
  }

  predicate Carries(r: Response) {
    r.error.Some? || (r.result.Some? && r.result.value != JNull)
  }

  lemma ResponsesCarry(l: Line)
    requires ClientKind(l) == KResponse && DecodeResponse(l).Some?
    ensures Carries(DecodeResponse(l).value)
  {
  }

  /** The objects that go over the wire, member by member. */
  lemma EncodedRequest(id: Json, name: string, params: Json)
    ensures EncodeRequest(Request(id, name, Some(params))) ==
            JObj(map["jsonrpc" := JStr("2.0"), "id" := id, "method" := JStr(name), "params" := params])
    ensures EncodeRequest(Request(id, name, None)) == JObj(map["jsonrpc" := JStr("2.0"), "id" := id, "method" := JStr(name)])
  {
  }

  lemma EncodedNotification(name: string, params: Json)
    ensures EncodeNotification(Notification(name, Some(params))) ==
            JObj(map["jsonrpc" := JStr("2.0"), "method" := JStr(name), "params" := params])
    ensures EncodeNotification(Notification(name, None)) == JObj(map["jsonrpc" := JStr("2.0"), "method" := JStr(name)])
  {
  }

  lemma EncodedResponse(id: Json, value: Json, code: int, text: string)
    ensures EncodeResponse(Response(id, Some(value), None)) == ResultJson(id, value)
    ensures EncodeResponse(Response(id, None, Some(Error(code, text)))) == ErrorJson(id, code, text)
  {
  }

  function ResultJson(id: Json, value: Json): Json {
    JObj(map["jsonrpc" := JStr("2.0"), "id" := id, "result" := value])
  }

  function ErrorJson(id: Json, code: int, text: string): Json {
    JObj(map["jsonrpc" := JStr("2.0"), "id" := id,
             "error" := JObj(map["code" := JInt(code), "message" := JStr(text)])])
  }

  lemma RequestRoundTrip(r: Request)
    ensures var l := Parsed(EncodeRequest(r));
            && DecodeRequest(l) == Some(r)
            && ServerKind(l) == (if r.id == JNull then KNotification else KRequest)
            && ClientKind(l) == (if r.id == JNull then KNotification else KUnknown)
  {
    var l := Parsed(EncodeRequest(r));
    assert Raw(l.json, "id") == Some(r.id);
    assert Raw(l.json, "params") == r.params;
  }

  lemma NotificationRoundTrip(n: Notification)
    ensures var l := Parsed(EncodeNotification(n));
            DecodeNotification(l) == Some(n) && ServerKind(l) == ClientKind(l) == KNotification
  {
    var l := Parsed(EncodeNotification(n));
    assert Raw(l.json, "params") == n.params;
  }

  /** A response is read back as itself, and taken for a response by the client exactly
      when it has an id and carries an error or a result other than null. */
  lemma ResponseRoundTrip(r: Response)
    requires GoResponse(r)
    ensures var l := Parsed(EncodeResponse(r));
            && DecodeResponse(l) == Some(r)
            && ClientKind(l) == (if r.id == JNull then KNotification else if Carries(r) then KResponse else KUnknown)
            && ServerKind(l) == (if Carries(r) then KResponse else if r.id == JNull then KNotification else KRequest)
  {
    var l := Parsed(EncodeResponse(r));
    assert Raw(l.json, "id") == Some(r.id);
    assert Raw(l.json, "result") == r.result;
    if r.error.Some? {
      assert Raw(l.json, "error") == Some(EncodeError(r.error.value));
      assert Pointer(EncodeError(r.error.value), "code") == Some(JInt(r.error.value.code));
      assert Pointer(EncodeError(r.error.value), "message") == Some(JStr(r.error.value.message));
    } else {
      assert Raw(l.json, "error") == None;
    }
  }

  /** Distinct built messages stay distinct on the wire. */
  lemma ResponsesInjective(a: Response, b: Response)
    requires GoResponse(a) && GoResponse(b) && EncodeResponse(a) == EncodeResponse(b)
    ensures a == b
  {
    ResponseRoundTrip(a);
    ResponseRoundTrip(b);
  }
}
