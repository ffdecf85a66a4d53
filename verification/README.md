# Go-Healthcheck: a Dafny model of the status check

Go-Healthcheck is a small web server. For a chosen domain it issues one HTTP GET per
configured path and reports each URL as `OK`, `HTTP <code>` or `ERROR: <message>`.
Its page then paints each status in a colour. This project models the decision
logic of `main.go` and proves what it promises:

- `checkURL` classifies the outcome of a GET (module `Checker`). The GET is
  abstracted into an `Outcome`: the status code of a response, or the text of a
  transport failure.
- `statusHandler` refuses an empty domain. Otherwise it builds
  `"https://" + domain + path` for every configured path and checks them one at a
  time, in order, appending one `URLStatus` per path (module `Server`). The
  network is a parameter `network: (nat, string) -> Outcome` that gives the
  outcome of GET number k of the request (counting from 0) on a URL. A later GET
  on the same URL may therefore answer differently from an earlier one. The handler
  also returns the list of URLs it handed to the checker, in call order, so that
  "the checker is never called" can be stated.
- The two records of `main.go` are datatypes of module `Server`. `Server.AppSettings`
  (main.go:13-16) holds the configured `paths` and `domains`. It is an immutable
  input, read once at start-up. `Server.URLStatus` (main.go:20-23) is one row of the
  answer: a `url` and its `status`.
- `getStatusColor`, the JavaScript embedded in the served page, maps a status
  string to a colour by its first matching prefix (module `Frontend`).
- Go's `%d` rendering of the status code is written out with a strict reading
  that undoes it (module `Decimal`). This is what makes "exactly `HTTP ` followed
  by the decimal code" a checkable statement.

Files: `wrappers.dfy` (Option), `decimal.dfy`, `checker.dfy`, `server.dfy`,
`frontend.dfy`.

With zero configured paths `statuses` stays a nil slice (main.go:64), and Go's
JSON encoder writes a nil slice as `null`, not `[]`. `Server.Slice`
distinguishes `Nil` from a made slice. `StatusHandler` proves that the list is
`Nil` exactly when there are no paths.

## Model

| member | source | states |
|---|---|---|
| `Decimal.NatToDecimal` | main.go:54 | `%d` of a natural number is canonical: at least one digit, all digits, no leading zero. Its digits denote the number. |
| `Decimal.IntToDecimal` | main.go:54 | `%d` of any integer (a minus sign for negatives) reads back as that integer under the strict reading `ParseInt`. |
| `Decimal.ParseIntExact` | main.go:54 | The reading is exact. A string reads as `n` only if it is `%d` of `n`, so the rendering is the one and only text for its number. |
| `Decimal.RenderingStartsWithLeadingDigit` | main.go:54 | The first character of `%d` of a natural number is its most significant decimal digit. |
| `Checker.Classify` | main.go:43-54 | The result is `"OK"` exactly for a response with 200 ≤ code < 400. It starts with `"HTTP "` exactly for any other response, and the text after `"HTTP "` reads back as the code. It starts with `"ERROR: "` exactly for a transport error, and the text after the prefix is the error message. |
| `Checker.ClassifyHttpText` | main.go:53-54 | A code outside [200, 400) gives exactly `"HTTP "` followed by its `%d` rendering. This covers 1xx, 4xx and 5xx. |
| `Checker.ReadClassify` | main.go:43-54 | Reading a status string back gives the tagged meaning of the outcome (`Healthy`, `HttpFailure(code)` or `Unreachable(message)`). The string loses nothing of the outcome's meaning (`Meaning`). |
| `Checker.ClassifyDistinguishes` | main.go:43-54 | Two outcomes with the same status string have the same meaning. The three shapes never collide. |
| `Frontend.StatusColour` | main.go:185-191 | Green exactly for `"OK"`. Orange exactly for strings starting with `"HTTP 4"`, red for `"HTTP 5"` and gray for `"ERROR"`. Black otherwise. The patterns exclude one another, so the first-match order does not change the result. |
| `Frontend.HealthyIsGreen` | main.go:185-186 | Every response with 200 ≤ code < 400 is painted green. |
| `Frontend.TransportErrorIsGray` | main.go:189 | Every transport error is painted gray, whatever its message. |
| `Frontend.ResponseColour` | main.go:185-191 | Any response code that is not healthy is coloured by the first character of its `%d` rendering: leading digit 4 gives orange, 5 gives red, and anything else (including negative codes) gives black. |
| `Frontend.ThreeDigitColour` | main.go:185-191 | For codes 100–999: 200–399 are green, 400–499 orange and 500–599 red. 1xx and 600–999 are black. |
| `Server.Slice.Append` | main.go:68-71 | `append` always yields a made (non-nil) slice, with the new element after the old ones. |
| `Server.FullURLParts` | main.go:66 | A full URL is `"https://"`, then the domain, then the path, each unchanged. Its length is the sum of the three parts. |
| `Server.CheckURLMeaning` | main.go:38-55 | The checker's status for the answer to a given call is `"OK"` exactly when that answer is a response with 200 ≤ code < 400. Reading the status back gives the answer's meaning. |
| `Server.StatusHandler` | main.go:57-76 | An empty domain gives 400 with "Missing domain parameter", and the checker is never called. Otherwise the reply is a JSON list equal to `Aggregate`: row k is path k, checked by call k. The list is nil exactly when there are no paths. The checker is called once per path, in order, and call k is on `"https://" + domain + paths[k]`. |
| `Server.AggregateStep` | main.go:65-71 | One more loop iteration appends exactly one row, for the next path, made by the next call. Earlier rows are untouched. |
| `Server.AggregateConcat` | main.go:64-72 | Checking two lists of paths one after the other gives the rows of their concatenation. The second list's checks see the network as it answers the calls after the first list's. |
| `Server.AggregateLocal` | main.go:65-67 | The rows depend on the network only through its answer to call k on the URL of path k. |
| `Server.RepeatedPathCheckedAgain` | main.go:65-71 | A path configured twice is fetched twice. The two rows have the same URL, but they may carry different statuses: a timeout on the first GET and a 200 on the second give `ERROR: …` and `OK`. |
| `Server.HealthScenarioOk` | main.go:64-72 | With the path `/health` on `example.com` and a 200 answer, the result is one row `https://example.com/health` / `OK`. |
| `Server.HealthScenarioUnavailable` | main.go:64-72 | The same configuration with a 503 answer gives one row with status `HTTP 503`. |
| `Server.HealthScenarioTimeout` | main.go:64-72 | The same configuration with a timeout gives one row with status `"ERROR: "` followed by the timeout's description. |

## Left out

- The HTTP GET itself, its 800 ms timeout and closing the response body (main.go:41-47) are network I/O. They are replaced by the `Outcome` value, or by the `network` parameter. An error message is runtime text, so it is an opaque string.
- Redirect following belongs to Go's HTTP client. The model classifies whatever final code the `Outcome` carries.
- Over HTTP/1.x a status code is three digits. `Outcome` allows any integer. `Frontend.ResponseColour` states the colour for every integer. `Frontend.ThreeDigitColour` gives the simple range rule, which holds only for three-digit codes: a code such as 45 renders as "HTTP 45" and is painted orange.
- Reading the `domain` query parameter (main.go:58) is a library call, so `domain` is taken as a given string.
- `http.Error` writes its message followed by a newline, with a `text/plain` content type. That formatting is library behaviour: the reply carries only the status code and the message.
- JSON encoding of the replies (main.go:74-75, 79-80) is a library call. The model stops at the list of `URLStatus` values, or `Nil` for Go's nil slice.
- `configHandler` (main.go:78-81) only JSON-encodes the configuration. It has no logic beyond the encoder.
- `loadSettings` (main.go:25-36) is file I/O and a process abort. The configuration is an input record.
- The HTML, the CSS and the DOM code of `frontendHandler` (main.go:84-228), apart from `getStatusColor`, are presentation only.
- `openBrowser` (main.go:231-247) and `main`'s goroutine, sleep and `ListenAndServe` (main.go:249-267) are OS interaction and concurrency.
- The diagnostic `fmt.Println` lines (main.go:39, 44, 50, 53) are observational only. The URLs passed to the checker are still visible as `checked`.
