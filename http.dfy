/**
 * The slice of net/http the router relies on: method names, status codes,
 * the reply a handler writes, and the `strings.Join` used for the Allow header.
 */
module Http {
  import opened Wrappers

  const MethodGet: string := "GET"
  const MethodPost: string := "POST"
  /** RFC 9110 section 9.3.7. */
  const MethodOptions: string := "OPTIONS"

  /** RFC 9110 section 15.3.1; written implicitly by the first body write. */
  const StatusOK: int := 200
  /** RFC 9110 section 15.3.5. */
  const StatusNoContent: int := 204
  /** RFC 9110 section 15.5.1. */
  const StatusBadRequest: int := 400
  /** RFC 9110 section 15.5.6. */
  const StatusMethodNotAllowed: int := 405
  /** RFC 9110 section 15.6.1. */
  const StatusInternalServerError: int := 500

  /** What is written after the status line. */
  datatype Body = NoBody | PlainText(text: string) | JsonBody

  /** A response: its status, the Allow header (RFC 9110 section 10.2.1) if set, and its body. */
  datatype Reply = Reply(status: int, allow: Option<string>, body: Body)

  /** `strings.Join(parts, sep)`. */
  function Join(parts: seq<string>, sep: string): string
    decreases |parts|
  {
    if |parts| == 0 then ""
    else if |parts| == 1 then parts[0]
    else parts[0] + sep + Join(parts[1..], sep)
  }
}
