/** The slice of HTTP the service touches: requests with a client address,
    headers and a raw body; responses with a status, headers and either a
    JSON document or plain text. Header names are kept in Go's canonical
    form (`Content-Type`, `X-Api-Key`). */
module Http {
  import opened Base

  /** A JSON document as `encoding/json` writes it. */
  datatype Json =
    | JNull
    | JString(s: string)
    | JInt(i: int)
    | JFloat(f: Float32)
    | JArray(items: seq<Json>)
    | JObject(fields: map<string, Json>)

  datatype Body = JsonBody(value: Json) | TextBody(text: string) | NoBody

  type Headers = map<string, string>

  /** An inbound request. `remoteAddr` is the connecting `host:port` the Go
      server records; `body` is the undecoded request body. */
  datatype Request = Request(verb: string, path: string, remoteAddr: string, headers: Headers, body: string)

  datatype Response = Response(status: int, headers: Headers, body: Body)

  const StatusOK := 200
  const StatusBadRequest := 400
  const StatusUnauthorized := 401
  const StatusTooManyRequests := 429
  const StatusInternalServerError := 500

  const ContentType := "Content-Type"
  const JsonContentType := "application/json"

  /** `Header.Get`: the value of a header, or "" when the request lacks it. */
  function HeaderGet(h: Headers, name: string): (v: string)
    ensures name in h ==> v == h[name]
    ensures name !in h ==> v == ""
  {
    if name in h then h[name] else ""
  }

  /** `writeJSON`: the JSON content type, the given status, the encoded data. */
  function WriteJson(status: int, data: Json): (r: Response)
    ensures r.status == status
    ensures IsJsonResponse(r)
    ensures r.body == JsonBody(data)
  {
    Response(status, map[ContentType := JsonContentType], JsonBody(data))
  }

  predicate IsJsonResponse(r: Response) {
    ContentType in r.headers && r.headers[ContentType] == JsonContentType && r.body.JsonBody?
  }

  /** The error envelope `{"error": message}`. */
  function ErrorEnvelope(message: string): Json {
    JObject(map["error" := JString(message)])
  }

  /** Reads an error envelope back, as a client decoding the body would. */
  function ErrorMessage(r: Response): Option<string> {
    if r.body.JsonBody? && r.body.value.JObject? && r.body.value.fields.Keys == {"error"}
       && r.body.value.fields["error"].JString?
    then Some(r.body.value.fields["error"].s)
    else None
  }

  /** `writeError`: a JSON response whose body decodes to exactly the given
      message, whatever the status. */
  function WriteError(status: int, message: string): (r: Response)
    ensures r.status == status
    ensures IsJsonResponse(r)
    ensures ErrorMessage(r) == Some(message)
  {
    WriteJson(status, ErrorEnvelope(message))
  }

  /** `http.Error`: a plain-text response carrying `text` and a newline. */
  function PlainError(text: string, status: int): (r: Response)
    ensures r.status == status
    ensures !IsJsonResponse(r)
    ensures r.body == TextBody(text + "\n")
  {
    Response(status,
             map[ContentType := "text/plain; charset=utf-8", "X-Content-Type-Options" := "nosniff"],
             TextBody(text + "\n"))
  }

  /** The permissive CORS headers every response carries. */
  function CorsHeaders(): Headers {
    map["Access-Control-Allow-Origin" := "*",
        "Access-Control-Allow-Methods" := "GET, POST, OPTIONS",
        "Access-Control-Allow-Headers" := "Content-Type"]
  }
}
