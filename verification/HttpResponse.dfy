// The two response printers.
module HttpResponse {
  import opened Text
  import Decimal

  // Streams out each line with its line end, then the blank line and the body.
  function Render(lines: seq<string>, body: string): string {
    if lines == [] then CRLF + body else lines[0] + CRLF + Render(lines[1..], body)
  }

  function HeaderLines(statusLine: string, connection: string, length: nat): seq<string> {
    [statusLine, "Connection: " + connection, "Content-Type: text/plain", "Content-Length: " + Decimal.Digits(length)]
  }

  function OkLines(keepAlive: bool, length: nat): seq<string> {
    HeaderLines("HTTP/1.1 200 OK", if keepAlive then "keep-alive" else "close", length)
  }

  function BuildSimpleOkResponse(body: string, keepAlive: bool): string {
    Render(OkLines(keepAlive, |body|), body)
  }

  function BuildSimpleErrorResponse(status: int, reason: string, body: string): string {
    Render(HeaderLines("HTTP/1.1 " + Decimal.Print(status) + " " + reason, "close", |body|), body)
  }
}
