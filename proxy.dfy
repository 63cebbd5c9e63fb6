/** `proxyStream` (controllers/proxyController.js): relays an HLS playlist or
    a media segment from RuTube. Playlists follow the line grammar of
    section 4.1 of RFC 8216: every line is blank, a tag or comment starting
    with `#`, or a URI; only URI lines are rewritten, each into a link back
    through the proxy.

    The WHATWG URL constructor and `encodeURIComponent` are passed in as
    functions (`newUrl` yields `None` where the constructor throws); the two
    upstream fetches are represented by their results: the playlist text, or
    the response headers of the segment stream, `None` when the fetch fails. */
module Proxy {
  import opened Common

  /** The parts of a parsed URL the handler reads; `urlParam` is
      `searchParams.get("url")`. */
  datatype Url = Url(origin: string, pathname: string, href: string, urlParam: Option<string>)

  /** `new URL(input)` (base `None`) or `new URL(input, base)`. */
  type UrlParser = (string, Option<string>) -> Option<Url>

  /** The headers object sent upstream: `User-Agent` always, the other
      three only when set. */
  datatype RequestHeaders = RequestHeaders(userAgent: string, referer: Option<string>,
                                           origin: Option<string>, range: Option<string>)

  /** The request the proxy sends upstream; `asText` is `responseType: "text"`
      (otherwise `"stream"`). */
  datatype Fetch = Fetch(url: string, headers: RequestHeaders, asText: bool)

  datatype Body = Text(text: string) | Piped | ProxyError

  datatype Reply = Reply(status: int, headers: map<string, string>, body: Body)

  const UserAgent: string :=
    "Mozilla/5.0 (Windows NT 10.0; Win64; x64) AppleWebKit/537.36 (KHTML, like Gecko) Chrome/96.0.4664.110 Safari/537.36"
  const RuTubeReferer: string := "https://rutube.ru/"
  const RuTubeOrigin: string := "https://rutube.ru"
  const PlaylistReplyHeaders: map<string, string> :=
    map["Content-Type" := "application/vnd.apple.mpegurl", "Access-Control-Allow-Origin" := "*"]

  /** The upstream response headers relayed to the client when present. */
  const PassthroughNames: seq<string> :=
    ["content-type", "content-length", "accept-ranges", "content-range", "content-disposition"]

  /** The CORS headers a relayed segment carries, each with value `*`. */
  const CorsNames: set<string> :=
    {"Access-Control-Allow-Origin", "Access-Control-Allow-Headers", "Access-Control-Expose-Headers"}

  predicate IsPlaylist(url: string) {
    Contains(url, ".m3u8")
  }

  predicate IsSegment(url: string) {
    Contains(url, ".ts")
  }

  /** A `Range` header is forwarded when the request carries a non-empty one. */
  predicate RangeGiven(range: Option<string>) {
    range.Some? && range.value != ""
  }

  /** The characters `String.prototype.trim` removes: ECMAScript white space
      and line terminators. */
  predicate IsJsWhitespace(c: char) {
    c == '\t' || c == '\n' || c == '\U{000B}' || c == '\U{000C}' || c == '\r' || c == ' ' ||
    c == '\U{00A0}' || c == '\U{1680}' || ('\U{2000}' <= c <= '\U{200A}') ||
    c == '\U{2028}' || c == '\U{2029}' || c == '\U{202F}' || c == '\U{205F}' ||
    c == '\U{3000}' || c == '\U{FEFF}'
  }

  /** `s.trim()`: leading and trailing white space removed. */
  function Trim(s: string): (r: string)
    ensures |r| <= |s|
    ensures r == [] || (!IsJsWhitespace(r[0]) && !IsJsWhitespace(r[|r| - 1]))
    ensures s == [] || (!IsJsWhitespace(s[0]) && !IsJsWhitespace(s[|s| - 1])) ==> r == s
    ensures r == [] <==> forall i :: 0 <= i < |s| ==> IsJsWhitespace(s[i])
  {
    if s != [] && IsJsWhitespace(s[0]) then
      var t := Trim(s[1..]);
      assert forall i :: 0 < i < |s| ==> s[i] == s[1..][i - 1];
      t
    else if s != [] && IsJsWhitespace(s[|s| - 1]) then
      var t := Trim(s[..|s| - 1]);
      assert forall i :: 0 <= i < |s| - 1 ==> s[i] == s[..|s| - 1][i];
      t
    else s
  }

  /** The trimmed text is the part of `s` between a white-space prefix and a
      white-space suffix. */
  lemma {:induction false} TrimInfix(s: string) returns (i: nat, j: nat)
    ensures i <= j <= |s| && Trim(s) == s[i..j]
    ensures forall k :: 0 <= k < i ==> IsJsWhitespace(s[k])
    ensures forall k :: j <= k < |s| ==> IsJsWhitespace(s[k])
  {
    if s != [] && IsJsWhitespace(s[0]) {
      var i', j' := TrimInfix(s[1..]);
      i, j := i' + 1, j' + 1;
      assert s[1..][i'..j'] == s[i..j];
      assert forall k :: 1 <= k < |s| ==> s[k] == s[1..][k - 1];
    } else if s != [] && IsJsWhitespace(s[|s| - 1]) {
      i, j := TrimInfix(s[..|s| - 1]);
      assert s[..|s| - 1][i..j] == s[i..j];
      assert forall k :: 0 <= k < |s| - 1 ==> s[k] == s[..|s| - 1][k];
    } else {
      i, j := 0, |s|;
      assert s[0..|s|] == s;
    }
  }

  /** `line.trim() === ""`: the line is empty or made of white space only. */
  function IsBlank(line: string): (r: bool)
    ensures r <==> forall i :: 0 <= i < |line| ==> IsJsWhitespace(line[i])
  {
    Trim(line) == ""
  }

  /** The stream URL after unpacking a link that already points through this
      proxy (its `url` query parameter, possibly absent); a link that does
      not parse stays as it is. */
  function Unwrapped(url: string, apiUrl: string, newUrl: UrlParser): (r: Option<string>)
    ensures !Contains(url, apiUrl + "/api/proxy") ==> r == Some(url)
    ensures Contains(url, apiUrl + "/api/proxy") && newUrl(url, None).None? ==> r == Some(url)
    ensures Contains(url, apiUrl + "/api/proxy") && newUrl(url, None).Some? ==>
      r == newUrl(url, None).value.urlParam
  {
    if Contains(url, apiUrl + "/api/proxy") then
      match newUrl(url, None)
      case None => Some(url)
      case Some(u) => u.urlParam
    else Some(url)
  }

  /** The part of `p` up to and including its last `/`. */
  function UpToLastSlash(p: string): (r: string)
    requires '/' in p
    ensures 1 <= |r| <= |p| && r == p[..|r|] && r[|r| - 1] == '/'
    ensures forall j :: |r| <= j < |p| ==> p[j] != '/'
  {
    if p[|p| - 1] == '/' then p
    else
      assert '/' in p[..|p| - 1] by {
        var k :| 0 <= k < |p| && p[k] == '/';
        assert p[..|p| - 1][k] == '/';
      }
      UpToLastSlash(p[..|p| - 1])
  }

  /** `pathname.replace(/\/[^/]+$/, "/")`: the last segment after the final
      `/` is dropped; a path ending in `/`, or without any `/`, is kept. */
  function DirectoryOf(pathname: string): (r: string)
    ensures '/' !in pathname ==> r == pathname
    ensures pathname != [] && pathname[|pathname| - 1] == '/' ==> r == pathname
    ensures '/' in pathname ==>
      StartsWith(pathname, r) && r != [] && r[|r| - 1] == '/' &&
      forall j :: |r| <= j < |pathname| ==> pathname[j] != '/'
  {
    if '/' in pathname then UpToLastSlash(pathname) else pathname
  }

  /** The base relative playlist entries are resolved against:
      `origin + pathname.replace(…)` (controllers/proxyController.js:62-63). */
  function BaseDirectory(base: Url): (r: string)
    ensures StartsWith(r, base.origin)
    ensures '/' !in base.pathname ==> r == base.origin + base.pathname
    ensures '/' in base.pathname ==>
      var dir := r[|base.origin|..];
      StartsWith(base.pathname, dir) && dir != [] && dir[|dir| - 1] == '/' &&
      forall j :: |dir| <= j < |base.pathname| ==> base.pathname[j] != '/'
  {
    var dir := DirectoryOf(base.pathname);
    assert (base.origin + dir)[|base.origin|..] == dir;
    base.origin + dir
  }

  /** The `map` callback of the playlist rewrite. */
  function RewriteLine(line: string, proxyUrl: string, baseDir: string,
                       newUrl: UrlParser, encode: string -> string): (r: string)
    ensures IsBlank(line) || StartsWith(line, "#") ==> r == line
    ensures !(IsBlank(line) || StartsWith(line, "#")) ==>
      var u := if StartsWith(line, "http") then newUrl(line, None) else newUrl(line, Some(baseDir));
      r == if u.Some? then proxyUrl + encode(u.value.href) else line
  {
    if IsBlank(line) || StartsWith(line, "#") then line
    else
      var segmentUrl := if StartsWith(line, "http") then newUrl(line, None)
                        else newUrl(line, Some(baseDir));
      match segmentUrl
      case None => line
      case Some(u) => proxyUrl + encode(u.href)
  }

  function RewriteLines(lines: seq<string>, proxyUrl: string, baseDir: string,
                        newUrl: UrlParser, encode: string -> string): (r: seq<string>)
    ensures |r| == |lines|
    ensures forall i :: 0 <= i < |lines| ==> r[i] == RewriteLine(lines[i], proxyUrl, baseDir, newUrl, encode)
  {
    if lines == [] then []
    else [RewriteLine(lines[0], proxyUrl, baseDir, newUrl, encode)]
         + RewriteLines(lines[1..], proxyUrl, baseDir, newUrl, encode)
  }

  /** `text.split("\n").map(rewriteLine).join("\n")`. A playlist with no URI
      line (only blank lines, tags and comments) is relayed byte for byte.
      Provided neither the proxy prefix nor the encoder introduces a newline
      (`encodeURIComponent` escapes it), the result has the input's lines, in
      order, each rewritten on its own. */
  function RewritePlaylist(text: string, proxyUrl: string, baseDir: string,
                           newUrl: UrlParser, encode: string -> string): (r: string)
    ensures (forall i :: 0 <= i < |SplitLines(text)| ==>
               IsBlank(SplitLines(text)[i]) || StartsWith(SplitLines(text)[i], "#")) ==> r == text
    ensures '\n' !in proxyUrl && (forall s :: '\n' !in encode(s)) ==>
      SplitLines(r) == RewriteLines(SplitLines(text), proxyUrl, baseDir, newUrl, encode)
  {
    var lines := SplitLines(text);
    var out := RewriteLines(lines, proxyUrl, baseDir, newUrl, encode);
    JoinSplit(text);
    assert (forall i :: 0 <= i < |lines| ==> IsBlank(lines[i]) || StartsWith(lines[i], "#")) ==> out == lines;
    RewrittenLinesSplit(lines, proxyUrl, baseDir, newUrl, encode);
    JoinLines(out)
  }

  /** Rewritten newline-free lines hold no newline, so joining and splitting
      them again gives them back, provided the proxy prefix and the encoder
      introduce no newline. */
  lemma RewrittenLinesSplit(lines: seq<string>, proxyUrl: string, baseDir: string,
                            newUrl: UrlParser, encode: string -> string)
    requires |lines| >= 1
    requires forall i :: 0 <= i < |lines| ==> '\n' !in lines[i]
    ensures '\n' !in proxyUrl && (forall s :: '\n' !in encode(s)) ==>
      var out := RewriteLines(lines, proxyUrl, baseDir, newUrl, encode);
      SplitLines(JoinLines(out)) == out
  {
    if '\n' !in proxyUrl && (forall s :: '\n' !in encode(s)) {
      var out := RewriteLines(lines, proxyUrl, baseDir, newUrl, encode);
      forall i | 0 <= i < |out| ensures '\n' !in out[i] {
        assert forall s :: '\n' !in proxyUrl + encode(s);
      }
      SplitJoin(out);
    }
  }

  /** The `forEach` over the pass-through header names: each one present
      with a non-empty value upstream is copied to the reply. */
  method CopyPassthrough(upstream: map<string, string>) returns (out: map<string, string>)
    ensures forall k :: k in out <==> k in PassthroughNames && k in upstream && upstream[k] != ""
    ensures forall k :: k in out ==> out[k] == upstream[k]
  {
    out := map[];
    for i := 0 to |PassthroughNames|
      invariant forall k :: k in out <==> k in PassthroughNames[..i] && k in upstream && upstream[k] != ""
      invariant forall k :: k in out ==> out[k] == upstream[k]
    {
      var header := PassthroughNames[i];
      assert PassthroughNames[..i + 1] == PassthroughNames[..i] + [header];
      if header in upstream && upstream[header] != "" {
        out := out[header := upstream[header]];
      }
    }
    assert PassthroughNames[..|PassthroughNames|] == PassthroughNames;
  }

  /** The headers a relayed segment carries: the pass-through ones and the
      three permissive CORS headers. */
  ghost predicate SegmentHeaders(h: map<string, string>, upstream: map<string, string>) {
    (forall k :: k in h <==> k in CorsNames || (k in PassthroughNames && k in upstream && upstream[k] != "")) &&
    (forall k :: k in CorsNames ==> k in h && h[k] == "*") &&
    (forall k :: k in PassthroughNames && k in h ==> h[k] == upstream[k])
  }

  /** The playlist branch (controllers/proxyController.js:39-79): fetch the
      text, rewrite its URI lines against the playlist's own directory. */
  method RelayPlaylist(url: string, headers: RequestHeaders, apiUrl: string,
                       newUrl: UrlParser, encode: string -> string, playlistText: Option<string>)
    returns (fetched: Fetch, reply: Reply)
    ensures fetched == Fetch(url, headers, true)
    ensures playlistText.None? || newUrl(url, None).None? ==> reply == Reply(500, map[], ProxyError)
    ensures playlistText.Some? && newUrl(url, None).Some? ==>
      reply == Reply(200, PlaylistReplyHeaders,
        Text(RewritePlaylist(playlistText.value, apiUrl + "/api/proxy?url=",
                             BaseDirectory(newUrl(url, None).value), newUrl, encode)))
  {
    fetched := Fetch(url, headers, true);
    var baseUrl := newUrl(url, None);
    if playlistText.None? || baseUrl.None? {
      return fetched, Reply(500, map[], ProxyError);
    }
    var proxyUrl := apiUrl + "/api/proxy?url=";
    var processed := RewritePlaylist(playlistText.value, proxyUrl, BaseDirectory(baseUrl.value),
                                     newUrl, encode);
    reply := Reply(200, PlaylistReplyHeaders, Text(processed));
  }

  /** The segment branch (controllers/proxyController.js:81-119): forward
      the range, stream the body, copy the pass-through headers. */
  method RelaySegment(url: string, headers: RequestHeaders, range: Option<string>,
                      upstreamHeaders: Option<map<string, string>>)
    returns (fetched: Fetch, reply: Reply)
    ensures fetched == Fetch(url, if RangeGiven(range) then headers.(range := range) else headers, false)
    ensures upstreamHeaders.None? ==> reply == Reply(500, map[], ProxyError)
    ensures upstreamHeaders.Some? ==>
      reply.body == Piped && SegmentHeaders(reply.headers, upstreamHeaders.value) &&
      reply.status == (if RangeGiven(range) then 206 else 200)
  {
    var sent := headers;
    if RangeGiven(range) {
      sent := sent.(range := range);
    }
    fetched := Fetch(url, sent, false);
    if upstreamHeaders.None? {
      return fetched, Reply(500, map[], ProxyError);
    }
    var out := CopyPassthrough(upstreamHeaders.value);
    out := out["Access-Control-Allow-Origin" := "*"];
    out := out["Access-Control-Allow-Headers" := "*"];
    out := out["Access-Control-Expose-Headers" := "*"];
    var status := 200;
    if RangeGiven(range) {
      status := 206;
    }
    reply := Reply(status, out, Piped);
  }

  /** `proxyStream`. */
  method ProxyStream(query: Option<string>, range: Option<string>, apiUrl: string,
                     newUrl: UrlParser, encode: string -> string,
                     playlistText: Option<string>, upstreamHeaders: Option<map<string, string>>)
    returns (fetched: Option<Fetch>, reply: Reply)
    // a missing or empty `url` is refused before anything is fetched
    ensures query.None? || query.value == "" ==>
      fetched.None? && reply == Reply(400, map[], Text("No URL provided"))
    // something is fetched exactly when the (unpacked) stream URL exists
    ensures fetched.Some? <==>
      query.Some? && query.value != "" && Unwrapped(query.value, apiUrl, newUrl).Some?
    ensures query.Some? && query.value != "" && Unwrapped(query.value, apiUrl, newUrl).None? ==>
      reply == Reply(500, map[], ProxyError)
    ensures fetched.Some? ==>
      var f := fetched.value;
      Unwrapped(query.value, apiUrl, newUrl) == Some(f.url) &&
      f.asText == IsPlaylist(f.url) &&
      f.headers.userAgent == UserAgent &&
      (f.headers.referer.Some? <==> IsPlaylist(f.url) || IsSegment(f.url)) &&
      (f.headers.origin.Some? <==> IsPlaylist(f.url) || IsSegment(f.url)) &&
      (f.headers.referer.Some? ==> f.headers.referer.value == RuTubeReferer) &&
      (f.headers.origin.Some? ==> f.headers.origin.value == RuTubeOrigin) &&
      (f.headers.range.Some? <==> !IsPlaylist(f.url) && RangeGiven(range)) &&
      (f.headers.range.Some? ==> f.headers.range == range)
    // a playlist comes back rewritten line by line
    ensures fetched.Some? && IsPlaylist(fetched.value.url) ==>
      var u := fetched.value.url;
      if playlistText.None? || newUrl(u, None).None? then reply == Reply(500, map[], ProxyError)
      else reply == Reply(200, PlaylistReplyHeaders,
        Text(RewritePlaylist(playlistText.value, apiUrl + "/api/proxy?url=",
                             BaseDirectory(newUrl(u, None).value), newUrl, encode)))
    // anything else is streamed through, partially when a range was asked for
    ensures fetched.Some? && !IsPlaylist(fetched.value.url) ==>
      if upstreamHeaders.None? then reply == Reply(500, map[], ProxyError)
      else
        reply.body == Piped && SegmentHeaders(reply.headers, upstreamHeaders.value) &&
        reply.status == (if RangeGiven(range) then 206 else 200)
    ensures reply.status == 206 <==>
      fetched.Some? && !IsPlaylist(fetched.value.url) && upstreamHeaders.Some? && RangeGiven(range)
  {
    if query.None? || query.value == "" {
      return None, Reply(400, map[], Text("No URL provided"));
    }
    var streamUrl := query;
    if Contains(query.value, apiUrl + "/api/proxy") {
      var urlObj := newUrl(query.value, None);
      if urlObj.Some? {
        streamUrl := urlObj.value.urlParam;
      }
    }
    if streamUrl.None? {
      // `streamUrl.includes` throws on `null`
      return None, Reply(500, map[], ProxyError);
    }
    var url := streamUrl.value;
    var isPlaylist := Contains(url, ".m3u8");
    var isSegment := Contains(url, ".ts");

    var headers := RequestHeaders(UserAgent, None, None, None);
    if isSegment || isPlaylist {
      headers := headers.(referer := Some(RuTubeReferer));
      headers := headers.(origin := Some(RuTubeOrigin));
    }

    if isPlaylist {
      var f;
      f, reply := RelayPlaylist(url, headers, apiUrl, newUrl, encode, playlistText);
      fetched := Some(f);
      return;
    }
    var f;
    f, reply := RelaySegment(url, headers, range, upstreamHeaders);
    fetched := Some(f);
  }
}
