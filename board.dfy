/** The board's fixed addresses and the HTTP response shape its handlers
    return (quasi-board/server.py). */
module Board {
  import opened Common
  import opened JsonValues

  const DOMAIN: string := "gawain.valiant-quantum.com"
  const ACTOR_URL: string := "https://" + DOMAIN + "/quasi-board"
  const OUTBOX_URL: string := ACTOR_URL + "/outbox"
  const INBOX_URL: string := ACTOR_URL + "/inbox"
  const LEDGER_URL: string := ACTOR_URL + "/ledger"

  /** `json.loads` of a request body: the decoded value, or None when the
      bytes are not JSON (the decoder raises). */
  type JsonDecoder = seq<byte> -> Option<Json>

  /** A status code and the JSON body sent with it. */
  datatype Response = Response(status: int, body: Json)

  function Ok(fields: map<string, Json>): Response {
    Response(200, JObj(fields))
  }

  /** `raise HTTPException(status, detail)`. */
  function HttpError(status: int, detail: string): Response {
    Response(status, JObj(map["detail" := JStr(detail)]))
  }

  /** What the framework sends when a handler raises anything else. */
  const SERVER_ERROR: Response := Response(500, JStr("Internal Server Error"))
}
