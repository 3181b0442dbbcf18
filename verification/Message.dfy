/** The two messages of internal/tunnel/message.go and the webhook row of
    internal/store/db.go. Texts are exact; JSON and UTF-8 are not modelled. */
module Message {
  import opened Timestamps

  const MESSAGE_REQUEST := "request"
  const MESSAGE_RESPONSE := "response"

  type Headers = map<string, seq<string>>

  datatype Request = Request(
    kind: string,
    id: string,
    httpMethod: string,
    path: string,
    headers: Headers,
    body: string,
    replay: bool,
    receivedAt: UtcTime
  ) {
    function WithType(): Request {
      this.(kind := MESSAGE_REQUEST)
    }
  }

  datatype Response = Response(kind: string, id: string, status: int, body: string, error: string) {
    function WithType(): Response {
      this.(kind := MESSAGE_RESPONSE)
    }
  }

  /** A stored webhook. An empty dedupKey is stored as NULL; a status of 0 means the
      webhook is still pending. */
  datatype Webhook = Webhook(
    id: string,
    token: string,
    httpMethod: string,
    path: string,
    headers: Headers,
    body: string,
    dedupKey: string,
    receivedAt: UtcTime,
    status: int,
    responseBody: string
  )

  /** A request carries a webhook: it asks for the same thing, field by field. */
  predicate Carries(req: Request, w: Webhook) {
    && req.httpMethod == w.httpMethod && req.path == w.path && req.headers == w.headers && req.body == w.body
    && req.receivedAt == w.receivedAt
  }

  /** The request made for a stored webhook; Send fills in its kind and its id. */
  function RequestOf(w: Webhook, replay: bool): Request {
    Request("", w.id, w.httpMethod, w.path, w.headers, w.body, replay, w.receivedAt)
  }
}
