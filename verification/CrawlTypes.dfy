/** The values that pass between the parts of the crawler: commands, pages,
    responses and job options (worker.go, job.go, protofiles/ideacrawler.proto),
    and the world the crawler runs in. */
module CrawlTypes {

  datatype Option<+T> = None | Some(value: T)

  type Int32 = x: int | -0x8000_0000 <= x <= 0x7fff_ffff

  newtype Byte = x: int | 0 <= x < 256
  type Bytes = seq<Byte>

  datatype Verb = GET | HEAD

  // A URL stands for the string it was parsed from.
  datatype Command = Command(
    verb: Verb, url: string, noCallback: bool,
    metaStr: string, urlDepth: Int32, anchorText: string)

  datatype Page = Page(
    success: bool, error: string, jobID: string, url: string, httpStatusCode: Int32,
    content: Bytes, metaStr: string, urlDepth: Int32, anchorText: string)

  // One `a[href]` element: its resolved and normalised URL, if it resolves.
  datatype Anchor = Unresolved | Anchor(nurl: string, text: string)

  // `requestUrl` is the URL of the last request made, after redirects;
  // `body` is None when reading the body fails.
  datatype Response = Response(
    requestUrl: string, status: Int32, statusText: string, mime: string, body: Option<Bytes>)

  datatype Outcome = Failed(error: string) | Got(res: Response)

  datatype ReqType = GetReq | HeadReq | BuiltinJS | JScript

  // What a client sends with AddPage or AddJS.
  datatype PageRequest = PageRequest(reqtype: ReqType, url: string, js: string, noCallback: bool, metaStr: string)

  datatype KVP = KVP(key: string, value: string)

  // A compiled regexp is the set of strings it matches; None is the nil regexp
  // of an empty pattern.
  type Regexp = Option<string -> bool>

  datatype Options = Options(
    seedUrl: string, noFollow: bool, depth: Int32, followOtherDomains: bool,
    checkContent: bool, mimetype: string, cancelOnDisconnect: bool, callbackSeedUrl: bool,
    callbackUrl: Regexp, followUrl: Regexp, callbackAnchorText: Regexp,
    callbackXpathMatch: seq<KVP>, callbackXpathRegexp: seq<KVP>,
    loginCheck: Option<KVP>)  // LoginSuccessCheck, when it is to be made after each page

  // Everything outside the crawler: what the web answers, and the results of
  // the URL, HTML and XPath libraries.
  datatype World = World(
    get: string -> Outcome,
    head: string -> Outcome,
    links: (string, Bytes) -> Option<seq<Anchor>>,
    xpath: (Bytes, string) -> string,
    host: string -> string,
    parses: string -> bool,
    hasHost: string -> bool,
    shippingUrl: string -> string,
    lowercase: string -> string,
    scriptUrl: (bool, string, string) -> string,  // the crawljs URL of a builtin or custom script
    statusText: Int32 -> string)

  // Status codes of the crawler's own (statuscodes/statuscodes.go).
  const NO_LONGER_LOGGED_IN: Int32 := 1502
  const FETCHBOT_ERROR: Int32 := 1520
  const RESPONSE_ERROR: Int32 := 1530
  const FOLLOW_PARSE_ERROR: Int32 := 1550

  predicate Matches(r: Regexp, s: string) {
    r.Some? && r.value(s)
  }

  // A nil regexp filters nothing out.
  predicate Passes(r: Regexp, s: string) {
    r.Some? ==> r.value(s)
  }

  /** int32 addition of one, with Go's wrap-around. */
  function NextDepth(d: Int32): Int32 {
    if d == 0x7fff_ffff then -0x8000_0000 else d + 1
  }

  /** The int32 depth counter after `n` hops from a root. */
  function DepthAfter(n: nat): Int32 {
    if n == 0 then 0 else NextDepth(DepthAfter(n - 1))
  }

  /** The counter is the hop count itself until int32 overflows. */
  lemma {:induction false} DepthAfterExact(n: nat)
    requires n <= 0x7fff_ffff
    ensures DepthAfter(n) == n
  {
    if n > 0 { DepthAfterExact(n - 1); }
  }

  function Urls(cmds: seq<Command>): set<string> {
    set c | c in cmds :: c.url
  }

  predicate DistinctUrls(cmds: seq<Command>) {
    forall i, j :: 0 <= i < j < |cmds| ==> cmds[i].url != cmds[j].url
  }

  predicate NoRepeats<T(==)>(s: seq<T>) {
    forall i, j :: 0 <= i < j < |s| ==> s[i] != s[j]
  }

  lemma SubsetSize<T>(a: set<T>, b: set<T>)
    requires a <= b
    ensures |a| <= |b|
  {
    assert b == a + (b - a);
  }
}
