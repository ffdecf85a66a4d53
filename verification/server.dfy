/**
  The `/status` endpoint (`statusHandler` in main.go): the missing-domain
  guard and the loop that checks every configured path of a domain, one at a
  time and in order. The configuration is an immutable input record. The
  network is a parameter that gives the outcome of the k-th GET of the
  request (counting from 0) on a URL, so a later GET on the same URL may
  answer differently from an earlier one.
 */
module Server {
  import opened Wrappers
  import opened Checker

  /** The configuration read once at start-up (`AppSettings`). */
  datatype AppSettings = AppSettings(paths: seq<string>, domains: seq<string>)

  /** One row of the `/status` answer. */
  datatype URLStatus = URLStatus(url: string, status: string)

  /** The outcome of the GET with a given call number on a given URL. */
  type Network = (nat, string) -> Outcome

  /**
    A Go slice as far as the handler can tell: `nil` until the first `append`,
    which Go's JSON encoder writes as `null` rather than `[]`.
   */
  datatype Slice<T> = Nil | Made(elems: seq<T>) {
    function Items(): seq<T> {
      match this
      case Nil => []
      case Made(elems) => elems
    }

    function Append(x: T): (s: Slice<T>)
      ensures s.Made? && s.Items() == Items() + [x]
    {
      Made(Items() + [x])
    }
  }

  /** What the handler writes: an HTTP error with a message, or a JSON list. */
  datatype Reply = HttpError(code: int, message: string) | JsonStatuses(statuses: Slice<URLStatus>)

  const StatusBadRequest := 400
  const MissingDomainMessage := "Missing domain parameter"

  /** `fmt.Sprintf("https://%s%s", domain, path)` */
  function FullURL(domain: string, path: string): string {
    "https://" + domain + path
  }

  /** A full URL is the scheme, then the domain, then the path, each unchanged. */
  lemma FullURLParts(domain: string, path: string)
    ensures var url := FullURL(domain, path);
            && |url| == 8 + |domain| + |path|
            && url[..8] == "https://"
            && url[8..8 + |domain|] == domain
            && url[8 + |domain|..] == path
  {
    var url := FullURL(domain, path);
    assert url[8..8 + |domain|] == domain && url[8 + |domain|..] == path;
  }

  /** `checkURL` with the GET replaced by the network's answer to call `call` on `url`. */
  function CheckURL(network: Network, call: nat, url: string): string {
    Classify(network(call, url))
  }

  /** The status string carries exactly the meaning of the network's answer to that call. */
  lemma CheckURLMeaning(network: Network, call: nat, url: string)
    ensures var status := CheckURL(network, call, url);
            && (status == "OK" <==> network(call, url).Response? && IsHealthyCode(network(call, url).code))
            && ReadStatus(status) == Some(Meaning(network(call, url)))
  {
    ReadClassify(network(call, url));
  }

  /** The row the handler produces for the path it checks with call number `call`. */
  function Entry(domain: string, path: string, call: nat, network: Network): URLStatus {
    var url := FullURL(domain, path);
    URLStatus(url, Classify(network(call, url)))
  }

  /** The rows for a list of paths: row k is path k, checked by call k. */
  function Aggregate(domain: string, paths: seq<string>, network: Network): seq<URLStatus> {
    seq(|paths|, k requires 0 <= k < |paths| => Entry(domain, paths[k], k, network))
  }

  /** One row per path, row k for path k and call k: no row dropped, merged or moved. */
  lemma AggregateAt(domain: string, paths: seq<string>, network: Network)
    ensures |Aggregate(domain, paths, network)| == |paths|
    ensures forall k :: 0 <= k < |paths| ==>
              Aggregate(domain, paths, network)[k] == Entry(domain, paths[k], k, network)
  {
  }

  /** The network as seen by calls made after the first `offset` ones. */
  function After(network: Network, offset: nat): Network {
    (call: nat, url: string) => network(offset + call, url)
  }

  /**
    Checking two lists of paths one after the other gives the rows of their
    concatenation, the second list's checks being the calls after the first's.
   */
  lemma AggregateConcat(domain: string, p1: seq<string>, p2: seq<string>, network: Network)
    ensures Aggregate(domain, p1 + p2, network) ==
            Aggregate(domain, p1, network) + Aggregate(domain, p2, After(network, |p1|))
  {
    var whole := Aggregate(domain, p1 + p2, network);
    var parts := Aggregate(domain, p1, network) + Aggregate(domain, p2, After(network, |p1|));
    forall k | 0 <= k < |whole|
      ensures whole[k] == parts[k]
    {
      if k >= |p1| {
        EntryAfter(domain, p2[k - |p1|], network, |p1|, k - |p1|);
      }
    }
  }

  /** Call j after the first `offset` calls is call `offset + j`. */
  lemma EntryAfter(domain: string, path: string, network: Network, offset: nat, j: nat)
    ensures Entry(domain, path, j, After(network, offset)) == Entry(domain, path, offset + j, network)
  {
    var url := FullURL(domain, path);
    assert After(network, offset)(j, url) == network(offset + j, url);
  }

  /** Checking one more path appends its row, made by the next call. */
  lemma AggregateStep(domain: string, paths: seq<string>, i: nat, network: Network)
    requires i < |paths|
    ensures Aggregate(domain, paths[..i + 1], network) ==
            Aggregate(domain, paths[..i], network) + [Entry(domain, paths[i], i, network)]
  {
    assert paths[..i + 1] == paths[..i] + [paths[i]];
    AggregateConcat(domain, paths[..i], [paths[i]], network);
    EntryAfter(domain, paths[i], network, i, 0);
  }

  /** The rows depend on the network only through its answer to call k on the URL of path k. */
  lemma AggregateLocal(domain: string, paths: seq<string>, n1: Network, n2: Network)
    requires forall k :: 0 <= k < |paths| ==> n1(k, FullURL(domain, paths[k])) == n2(k, FullURL(domain, paths[k]))
    ensures Aggregate(domain, paths, n1) == Aggregate(domain, paths, n2)
  {
    var r1, r2 := Aggregate(domain, paths, n1), Aggregate(domain, paths, n2);
    forall k | 0 <= k < |paths|
      ensures r1[k] == r2[k]
    {
    }
  }

  /**
    A path configured twice is checked twice: when the first GET times out
    and the second succeeds, the two rows differ.
   */
  lemma RepeatedPathCheckedAgain(domain: string, path: string, network: Network)
    requires network(0, FullURL(domain, path)) == TransportError("timeout")
    requires network(1, FullURL(domain, path)) == Response(200)
    ensures var rows := Aggregate(domain, [path, path], network);
            |rows| == 2 && rows[0].url == rows[1].url && rows[0].status != rows[1].status
  {
    AggregateAt(domain, [path, path], network);
  }

  /**
    Handles `GET /status?domain=<domain>`. `checked` lists the URLs of the
    GETs the handler makes, in order: call k is a GET on `checked[k]`, and
    row k carries the classification of the network's answer to that call.
   */
  method StatusHandler(settings: AppSettings, domain: string, network: Network)
    returns (reply: Reply, checked: seq<string>)
    ensures domain == "" ==> reply == HttpError(StatusBadRequest, MissingDomainMessage) && checked == []
    ensures domain != "" ==> reply.JsonStatuses?
    ensures domain != "" ==> reply.statuses.Items() == Aggregate(domain, settings.paths, network)
    ensures domain != "" ==> (reply.statuses.Nil? <==> settings.paths == [])
    ensures domain != "" ==> |checked| == |settings.paths|
    ensures domain != "" ==> forall k :: 0 <= k < |settings.paths| ==> checked[k] == FullURL(domain, settings.paths[k])
  {
    if domain == "" {
      return HttpError(StatusBadRequest, MissingDomainMessage), [];
    }

    var statuses: Slice<URLStatus> := Nil;
    checked := [];
    var paths := settings.paths;
    for i := 0 to |paths|
      invariant statuses.Items() == Aggregate(domain, paths[..i], network)
      invariant statuses.Nil? <==> i == 0
      invariant |checked| == i
      invariant forall k :: 0 <= k < i ==> checked[k] == FullURL(domain, paths[k])
    {
      var fullURL := FullURL(domain, paths[i]);
      checked := checked + [fullURL];
      var status := CheckURL(network, i, fullURL);
      statuses := statuses.Append(URLStatus(fullURL, status));
      AggregateStep(domain, paths, i, network);
    }
    assert paths[..|paths|] == paths;
    reply := JsonStatuses(statuses);
  }

  /**
    The scenario of one configured path "/health" on "example.com": a 200
    gives "OK", a 503 gives "HTTP 503", a timeout gives "ERROR: " and its
    description.
   */
  lemma HealthScenarioOk(network: Network)
    requires network(0, "https://example.com/health") == Response(200)
    ensures Aggregate("example.com", ["/health"], network) == [URLStatus("https://example.com/health", "OK")]
  {
    ExampleRow(network);
  }

  /** `%d` of 503, worked out digit by digit. */
  lemma Rendering503()
    ensures Decimal.IntToDecimal(503) == "503"
  {
    assert Decimal.NatToDecimal(5) == "5" by { assert Decimal.DigitChar(5) == '5'; }
    assert Decimal.NatToDecimal(50) == "50" by { assert Decimal.DigitChar(0) == '0'; }
    assert Decimal.NatToDecimal(503) == "503" by { assert Decimal.DigitChar(3) == '3'; }
  }

  lemma HealthScenarioUnavailable(network: Network)
    requires network(0, "https://example.com/health") == Response(503)
    ensures Aggregate("example.com", ["/health"], network) == [URLStatus("https://example.com/health", "HTTP 503")]
  {
    Rendering503();
    ClassifyHttpText(503);
    assert Classify(Response(503)) == "HTTP 503";
    ExampleRow(network);
  }

  lemma HealthScenarioTimeout(network: Network, timeout: string)
    requires network(0, "https://example.com/health") == TransportError(timeout)
    ensures Aggregate("example.com", ["/health"], network) == [URLStatus("https://example.com/health", "ERROR: " + timeout)]
  {
    ExampleRow(network);
  }

  /** The single row for "/health" on "example.com", whatever the network answers. */
  lemma ExampleRow(network: Network)
    ensures var url := "https://example.com/health";
            Aggregate("example.com", ["/health"], network) == [URLStatus(url, Classify(network(0, url)))]
  {
    assert FullURL("example.com", "/health") == "https://example.com/health";
  }
}
