/** ListenerHttpServer: routes a request URL to one of three JSON reports built
    from the reception tracker, or answers 404.

    The JSON reports are kept as documents; the text td::JsonBuilder makes of
    them is the `render` parameter.  The HTTP server library, its callback
    and the promise are not part of this model. */
module HttpServer {
  import opened Common
  import opened ReceptionTracking

  datatype Handler = StatsRoute | RecentBlocksRoute | BlockStatsRoute(blockIdText: string) | NotFoundRoute

  datatype Header = Header(name: string, value: string)

  /** HttpResponse::create's arguments, the headers added and the payload. */
  datatype Response = Response(protocol: string, code: nat, reason: string, forceNoPayload: bool, keepAlive: bool,
                               headers: seq<Header>, body: string)

  /** One entry of a report's block list; the stats report leaves out the source node. */
  datatype BlockEntry = BlockEntry(blockId: BlockId, receivedAt: int, sourceNode: Option<string>, size: int,
                                   processingTime: real)

  datatype Report =
    | StatsReport(blocksReceived: int, avgProcessingTime: real, recentBlocks: seq<BlockEntry>)
    | RecentBlocksReport(blocks: seq<BlockEntry>)
    | BlockStatsReport(blockId: BlockId, receivedAt: int, sourceNode: string, sourceAddr: string, size: int,
                       processingTime: real)

  const StatsLimit: int := 10
  const RecentBlocksLimit: int := 100
  const BlockStatsPrefix: string := "/block_stats/"
  const NotFoundBody: string := "Not Found"

  /** static_cast<td::int64>: the value wrapped into the signed 64-bit range. */
  function ToInt64(n: int): int
  {
    var m := n % 0x1_0000_0000_0000_0000;
    if m < 0x8000_0000_0000_0000 then m else m - 0x1_0000_0000_0000_0000
  }

  /** std::string::find of a character, with npos written as |s|. */
  function FirstIndexOf(s: string, c: char): (r: nat)
    ensures r <= |s|
    ensures forall i :: 0 <= i < r ==> s[i] != c
    ensures r < |s| ==> s[r] == c
    decreases |s|
  {
    if s == [] then 0 else if s[0] == c then 0 else 1 + FirstIndexOf(s[1..], c)
  }

  /** The URL up to its first '?'. */
  function PathOf(url: string): string
  {
    url[..FirstIndexOf(url, '?')]
  }

  /** The path is the URL cut before its first '?', or the whole URL when it has none. */
  lemma PathOfSpec(url: string)
    ensures '?' !in PathOf(url)
    ensures PathOf(url) <= url
    ensures ('?' in url) == (|PathOf(url)| < |url|)
    ensures |PathOf(url)| < |url| ==> url[|PathOf(url)|] == '?'
  {
    var k := FirstIndexOf(url, '?');
    if '?' in url {
      var j :| 0 <= j < |url| && url[j] == '?';
      assert k <= j;
    }
  }

  /** std::string::substr(pos, count) for pos <= size: at most `count` characters. */
  function Substr(s: string, pos: nat, count: nat): string
    requires pos <= |s|
  {
    if |s| - pos <= count then s[pos..] else s[pos..pos + count]
  }

  /** The routing of handle_request, with the length of the prefix that is cut
      and compared to "/block_stats/" as a parameter. */
  function RouteWith(path: string, prefixLength: nat): Handler
  {
    if path == "/stats" then StatsRoute
    else if path == "/recent_blocks" then RecentBlocksRoute
    else if Substr(path, 0, prefixLength) == BlockStatsPrefix && prefixLength <= |path| then
      BlockStatsRoute(path[prefixLength..])
    else NotFoundRoute
  }

  /** As written: a 12-character prefix is compared with the 13-character literal. */
  function Route(path: string): Handler
  {
    RouteWith(path, 12)
  }

  /** The prefix length the literal needs. */
  function RouteFixed(path: string): Handler
  {
    RouteWith(path, |BlockStatsPrefix|)
  }

  /** No path reaches the block-stats report: every route is one of the other three. */
  lemma BlockStatsUnreachable(path: string)
    ensures !Route(path).BlockStatsRoute?
    ensures Route(path) == StatsRoute <==> path == "/stats"
    ensures Route(path) == RecentBlocksRoute <==> path == "/recent_blocks"
  {
    assert |Substr(path, 0, 12)| <= 12 < |BlockStatsPrefix|;
  }

  /** Concretely: the path "/block_stats/x" gets the 404. */
  lemma BlockStatsPathNotFound()
    ensures Route("/block_stats/x") == NotFoundRoute
  {
    var path := "/block_stats/x";
    BlockStatsUnreachable(path);
    assert path != "/stats" by { assert path[1] != "/stats"[1]; }
    assert path != "/recent_blocks" by { assert path[1] != "/recent_blocks"[1]; }
  }

  /** With the 13-character prefix every "/block_stats/<id>" path reaches the
      block-stats report with <id>, and the other routes are unchanged. */
  lemma BlockStatsRoutedWhenFixed(id: string)
    ensures RouteFixed(BlockStatsPrefix + id) == BlockStatsRoute(id)
    ensures RouteFixed("/stats") == StatsRoute && RouteFixed("/recent_blocks") == RecentBlocksRoute
  {
    var path := BlockStatsPrefix + id;
    assert path[..13] == BlockStatsPrefix;
    assert path[13..] == id;
    assert path != "/stats" by { assert path[1] != "/stats"[1]; }
    assert path != "/recent_blocks" by { assert path[1] != "/recent_blocks"[1]; }
  }

  // ----- the reports

  function StatsEntry(s: ReceptionStats): BlockEntry
  {
    BlockEntry(s.blockId, s.receivedAt, None, ToInt64(s.messageSize), s.processingTime)
  }

  function RecentEntry(s: ReceptionStats): BlockEntry
  {
    BlockEntry(s.blockId, s.receivedAt, Some(s.sourceNode), ToInt64(s.messageSize), s.processingTime)
  }

  function StatsReportOf(st: TrackerState): Report
  {
    StatsReport(ToInt64(st.blocksReceived), st.avgProcessingTime,
                seq(|NewestFirst(st.history, StatsLimit)|, i requires 0 <= i < |NewestFirst(st.history, StatsLimit)| =>
                      StatsEntry(NewestFirst(st.history, StatsLimit)[i])))
  }

  function RecentBlocksReportOf(st: TrackerState, limit: int): Report
  {
    RecentBlocksReport(seq(|NewestFirst(st.history, limit)|, i requires 0 <= i < |NewestFirst(st.history, limit)| =>
                             RecentEntry(NewestFirst(st.history, limit)[i])))
  }

  /** get_block_stats_json: the text of the id is not parsed; a default id is looked up. */
  function BlockStatsReportOf(st: TrackerState, blockIdText: string): Report
  {
    var s := Lookup(st, DefaultBlockId);
    BlockStatsReport(s.blockId, s.receivedAt, s.sourceNode, s.sourceAddr, ToInt64(s.messageSize), s.processingTime)
  }

  /** The stats report lists at most the 10 newest blocks, newest first. */
  lemma StatsReportSpec(st: TrackerState)
    ensures |StatsReportOf(st).recentBlocks| == if |st.history| < 10 then |st.history| else 10
    ensures forall i :: 0 <= i < |StatsReportOf(st).recentBlocks| ==>
              StatsReportOf(st).recentBlocks[i].blockId == st.history[|st.history| - 1 - i].blockId
    ensures st.blocksReceived < 0x8000_0000_0000_0000 ==> StatsReportOf(st).blocksReceived == st.blocksReceived
  {
    NewestFirstSpec(st.history, StatsLimit);
  }

  /** The block-stats report is the same whatever id text the path carried. */
  lemma BlockStatsIgnoresId(st: TrackerState, a: string, b: string)
    ensures BlockStatsReportOf(st, a) == BlockStatsReportOf(st, b)
    ensures DefaultBlockId !in st.recentBlocks ==> BlockStatsReportOf(st, a).blockId == DefaultBlockId
  {
  }

  // ----- responses

  function JsonResponse(text: string): Response
  {
    Response("HTTP/1.1", 200, "OK", false, true,
             [Header("Content-Type", "application/json"), Header("Content-Length", NatToDecimal(|text|))], text)
  }

  function NotFoundResponse(keepAlive: bool): Response
  {
    Response("HTTP/1.1", 404, "Not Found", false, keepAlive,
             [Header("Content-Type", "text/plain"), Header("Content-Length", "9")], NotFoundBody)
  }

  /** handle_request on a tracker state; `render` is the JSON text of a report. */
  function HandleRequest(url: string, keepAlive: bool, st: TrackerState, render: Report -> string): Response
  {
    match Route(PathOf(url))
    case StatsRoute => JsonResponse(render(StatsReportOf(st)))
    case RecentBlocksRoute => JsonResponse(render(RecentBlocksReportOf(st, RecentBlocksLimit)))
    case BlockStatsRoute(idText) => JsonResponse(render(BlockStatsReportOf(st, idText)))
    case NotFoundRoute => NotFoundResponse(keepAlive)
  }

  predicate ContentLengthMatches(r: Response)
  {
    |r.headers| == 2 && r.headers[1].name == "Content-Length" &&
    (forall i :: 0 <= i < |r.headers[1].value| ==> '0' <= r.headers[1].value[i] <= '9') &&
    DecimalValue(r.headers[1].value) == |r.body|
  }

  /** Every response announces the length of its body, the literal "9" of the
      404 included; a URL whose path is neither report gets the 404, and
      "/recent_blocks" reports 100 blocks whatever the query string says. */
  lemma HandleRequestSpec(url: string, keepAlive: bool, st: TrackerState, render: Report -> string)
    ensures ContentLengthMatches(HandleRequest(url, keepAlive, st, render))
    ensures HandleRequest(url, keepAlive, st, render).code == 404 <==>
            PathOf(url) != "/stats" && PathOf(url) != "/recent_blocks"
    ensures PathOf(url) == "/recent_blocks" ==>
            HandleRequest(url, keepAlive, st, render).body == render(RecentBlocksReportOf(st, 100))
    ensures HandleRequest(url, keepAlive, st, render).keepAlive ==
            (HandleRequest(url, keepAlive, st, render).code == 200 || keepAlive)
  {
    BlockStatsUnreachable(PathOf(url));
    var r := HandleRequest(url, keepAlive, st, render);
    if r.code == 200 {
      DecimalRoundTrip(|r.body|);
    } else {
      assert DecimalValue("9") == 9;
    }
  }
}
