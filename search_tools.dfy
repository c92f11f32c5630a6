/** The web-search tool of `src/search_tools.py`: provider dispatch, failure
    isolation, and normalisation of provider results into uniform evidence
    records. The two providers (SerpAPI over HTTP and DuckDuckGo) are oracles
    that return raw records or fail. */
module SearchTools {
  import opened Wrappers
  import opened Text

  /** A provider's result record: a JSON object whose values are strings. */
  type RawRecord = map<string, string>

  /** `record.get(key)`. */
  function Get(r: RawRecord, key: string): (v: Option<string>)
    ensures v.Some? <==> key in r
    ensures v.Some? ==> v.value == r[key]
  {
    if key in r then Some(r[key]) else None
  }

  /** The decoded SerpAPI response; `organicResults` is None when the JSON
      object has no "organic_results" member. */
  datatype ApiResponse = ApiResponse(organicResults: Option<seq<RawRecord>>)

  /** A normalised search result: the dictionary with exactly the keys
      title, url, snippet and domain. */
  datatype EvidenceRecord = EvidenceRecord(
    title: Option<string>,
    url: Option<string>,
    snippet: Option<string>,
    domain: string)

  /** One call to a provider, as the tool issues it. */
  datatype SearchRequest =
    | SerpApiRequest(query: string, apiKey: string, num: nat, headers: map<string, string>)
    | DdgRequest(query: string, maxResults: nat)

  /** The providers, given the position of the call in the request log. */
  type SerpApi = (nat, SearchRequest) -> Result<ApiResponse>
  type DdgSearch = (nat, SearchRequest) -> Result<seq<RawRecord>>

  /** The SerpAPI path keeps at most this many results. */
  const ApiResultCap := 5

  /** The default `num_results` of `search`. */
  const DefaultNumResults := 5

  function Min(a: nat, b: nat): nat {
    if a <= b then a else b
  }

  // ---------------------------------------------------------------- domains

  lemma SlashSlashCount(u: string)
    requires Contains(u, "//")
    ensures multiset(u)['/'] >= 2
  {
    var i: nat :| i <= |u| && OccursAt(u, "//", i);
    assert u == u[..i] + u[i..i + 2] + u[i + 2..];
    assert u[i..i + 2] == "//";
    assert multiset(u) == multiset(u[..i]) + multiset("//") + multiset(u[i + 2..]);
  }

  /** A URL containing "//" has at least three '/'-separated segments. */
  lemma ThirdSegment(u: string)
    ensures Contains(u, "//") ==> |Split(u, "/")| >= 3
  {
    SplitCharCount(u, '/');
    if Contains(u, "//") {
      SlashSlashCount(u);
    }
  }

  /** `_extract_domain(url)`: "" for a missing or empty URL; the host part after
      "//" when there is one; otherwise everything before the first '/'. */
  function ExtractDomain(url: Option<string>): (d: string)
    ensures url.None? || url.value == "" ==> d == ""
    ensures '/' !in d
  {
    if url.None? || url.value == "" then ""
    else
      var u := url.value;
      var parts := Split(u, "/");
      var k := if Contains(u, "//") then 2 else 0;
      ThirdSegment(u);
      SplitPieces(u, "/");
      ContainsChar(parts[k], '/');
      parts[k]
  }

  /** The first '/'-separated segment of `host + path` is the host. */
  lemma HostSegment(host: string, path: string)
    requires '/' !in host
    requires path == [] || path[0] == '/'
    ensures Split(host + path, "/")[0] == host
  {
    ContainsChar(host, '/');
    if path == [] {
      assert host + path == host;
      SplitNone(host, "/");
    } else {
      assert host + path == host + "/" + path[1..];
      SplitAfterFirst(host, "/", path[1..]);
    }
  }

  /** A URL `scheme//host/path` yields its host. */
  lemma ExtractDomainUrl(scheme: string, host: string, path: string)
    requires '/' !in scheme && '/' !in host
    requires path == [] || path[0] == '/'
    ensures ExtractDomain(Some(scheme + "//" + host + path)) == host
  {
    var rest := host + path;
    var tail := "" + "/" + rest;
    var u := scheme + "//" + host + path;
    assert u == scheme + "//" + rest && u == scheme + "/" + tail;
    ContainsInside(scheme, "//", rest);
    SlashSplit(scheme, tail);
    SlashSplit("", rest);
    HostSegment(host, path);
  }

  /** The segment before the first '/' comes off first. */
  lemma SlashSplit(x: string, rest: string)
    requires '/' !in x
    ensures Split(x + "/" + rest, "/") == [x] + Split(rest, "/")
  {
    ContainsChar(x, '/');
    SplitAfterFirst(x, "/", rest);
  }

  /** A URL without "//" yields everything before its first '/'. */
  lemma ExtractDomainBare(host: string, path: string)
    requires host != [] && '/' !in host
    requires path == [] || path[0] == '/'
    requires !Contains(host + path, "//")
    ensures ExtractDomain(Some(host + path)) == host
  {
    HostSegment(host, path);
  }

  // ---------------------------------------------------------------- normalisation

  /** A SerpAPI record: "link" gives both the url and the domain. */
  function FromApi(r: RawRecord): EvidenceRecord {
    EvidenceRecord(Get(r, "title"), Get(r, "link"), Get(r, "snippet"), ExtractDomain(Get(r, "link")))
  }

  /** A DuckDuckGo record: "href" gives the url and the domain, "body" the snippet. */
  function FromDdg(r: RawRecord): EvidenceRecord {
    EvidenceRecord(Get(r, "title"), Get(r, "href"), Get(r, "body"), ExtractDomain(Get(r, "href")))
  }

  /** `data.get("organic_results", [])`. */
  function Organic(data: ApiResponse): seq<RawRecord> {
    match data.organicResults
    case None => []
    case Some(rs) => rs
  }

  /** What `_process_api_results` returns. */
  function ApiRecords(data: ApiResponse): seq<EvidenceRecord> {
    var rs := Organic(data);
    seq(Min(ApiResultCap, |rs|), i requires 0 <= i < Min(ApiResultCap, |rs|) => FromApi(rs[i]))
  }

  /** What `_process_ddg_results` returns. */
  function DdgRecords(results: seq<RawRecord>): seq<EvidenceRecord> {
    seq(|results|, i requires 0 <= i < |results| => FromDdg(results[i]))
  }

  /** `_process_api_results`: the first five organic results, in provider order,
      each with its link as url and the link's domain; none without "organic_results". */
  method ProcessApiResults(data: ApiResponse) returns (processed: seq<EvidenceRecord>)
    ensures |processed| == Min(ApiResultCap, |Organic(data)|) && |processed| <= ApiResultCap
    ensures data.organicResults.None? ==> processed == []
    ensures forall i :: 0 <= i < |processed| ==>
      var r := Organic(data)[i];
      processed[i].title == Get(r, "title") && processed[i].url == Get(r, "link")
      && processed[i].snippet == Get(r, "snippet") && processed[i].domain == ExtractDomain(Get(r, "link"))
    ensures processed == ApiRecords(data)
  {
    var rs := Organic(data);
    var kept := rs[..Min(ApiResultCap, |rs|)];
    processed := [];
    for i := 0 to |kept|
      invariant |processed| == i
      invariant forall j :: 0 <= j < i ==> processed[j] == FromApi(rs[j])
    {
      var result := kept[i];
      processed := processed + [EvidenceRecord(Get(result, "title"), Get(result, "link"), Get(result, "snippet"),
                                               ExtractDomain(Get(result, "link")))];
    }
  }

  /** `_process_ddg_results`: one record per input result, in the same order. */
  method ProcessDdgResults(results: seq<RawRecord>) returns (processed: seq<EvidenceRecord>)
    ensures |processed| == |results|
    ensures forall i :: 0 <= i < |processed| ==>
      var r := results[i];
      processed[i].title == Get(r, "title") && processed[i].url == Get(r, "href")
      && processed[i].snippet == Get(r, "body") && processed[i].domain == ExtractDomain(Get(r, "href"))
    ensures processed == DdgRecords(results)
  {
    processed := [];
    for i := 0 to |results|
      invariant |processed| == i
      invariant forall j :: 0 <= j < i ==> processed[j] == FromDdg(results[j])
    {
      var result := results[i];
      processed := processed + [EvidenceRecord(Get(result, "title"), Get(result, "href"), Get(result, "body"),
                                               ExtractDomain(Get(result, "href")))];
    }
  }

  /** Every normalised record's domain is free of '/'. */
  lemma RecordDomains(data: ApiResponse, results: seq<RawRecord>)
    ensures forall e :: e in ApiRecords(data) ==> '/' !in e.domain
    ensures forall e :: e in DdgRecords(results) ==> '/' !in e.domain
  {
  }

  // ---------------------------------------------------------------- search

  /** `if self.api_key:` — present and non-empty. */
  predicate Truthy(apiKey: Option<string>) {
    apiKey.Some? && apiKey.value != ""
  }

  /** The provider call `search` makes: SerpAPI exactly when the key is truthy. */
  function RequestFor(apiKey: Option<string>, headers: map<string, string>, query: string, num: nat)
    : (req: SearchRequest)
    ensures req.SerpApiRequest? <==> Truthy(apiKey)
    ensures req.query == query
    ensures req.SerpApiRequest? ==> req.apiKey == apiKey.value && req.num == num && req.headers == headers
    ensures req.DdgRequest? ==> req.maxResults == num
  {
    if Truthy(apiKey) then SerpApiRequest(query, apiKey.value, num, headers) else DdgRequest(query, num)
  }

  /** What `search(query, num)` returns when it is call number `call`: the normalised
      results of the chosen provider, and [] whenever that provider fails. */
  function SearchResult(apiKey: Option<string>, headers: map<string, string>, serpApi: SerpApi,
                        ddg: DdgSearch, call: nat, query: string, num: nat): seq<EvidenceRecord>
  {
    var req := RequestFor(apiKey, headers, query, num);
    if req.SerpApiRequest? then
      match serpApi(call, req)
      case Failure(_) => []
      case Success(data) => ApiRecords(data)
    else
      match ddg(call, req)
      case Failure(_) => []
      case Success(rs) => DdgRecords(rs)
  }

  /** A failing provider gives no results; otherwise the SerpAPI path gives at most
      five records and the DuckDuckGo path one per raw result. */
  lemma SearchOutcome(apiKey: Option<string>, headers: map<string, string>, serpApi: SerpApi,
                      ddg: DdgSearch, call: nat, query: string, num: nat)
    ensures var req := RequestFor(apiKey, headers, query, num);
            var r := SearchResult(apiKey, headers, serpApi, ddg, call, query, num);
            && (Truthy(apiKey) ==> |r| <= ApiResultCap)
            && (Truthy(apiKey) && serpApi(call, req).Failure? ==> r == [])
            && (!Truthy(apiKey) && ddg(call, req).Failure? ==> r == [])
            && (!Truthy(apiKey) && ddg(call, req).Success? ==> |r| == |ddg(call, req).value|)
            && (forall e :: e in r ==> '/' !in e.domain)
  {
  }

  class WebSearchTool {
    const apiKey: Option<string>
    const headers: map<string, string>
    const serpApi: SerpApi
    const ddg: DdgSearch
    /** Every provider call made so far, in order. */
    var requests: seq<SearchRequest>

    /** `WebSearchTool(api_key)`. */
    constructor(apiKey: Option<string>, serpApi: SerpApi, ddg: DdgSearch)
      ensures this.apiKey == apiKey && this.serpApi == serpApi && this.ddg == ddg
      ensures headers == map["User-Agent" := "FactCheckerBot/1.0"]
      ensures requests == []
    {
      this.apiKey := apiKey;
      this.headers := map["User-Agent" := "FactCheckerBot/1.0"];
      this.serpApi := serpApi;
      this.ddg := ddg;
      requests := [];
    }

    /** `search(query, num_results)`: one provider call, never an exception. */
    method Search(query: string, numResults: nat) returns (results: seq<EvidenceRecord>)
      modifies this
      ensures requests == old(requests) + [RequestFor(apiKey, headers, query, numResults)]
      ensures results == SearchResult(apiKey, headers, serpApi, ddg, |old(requests)|, query, numResults)
    {
      var call := |requests|;
      var req := RequestFor(apiKey, headers, query, numResults);
      requests := requests + [req];
      if Truthy(apiKey) {
        var response := serpApi(call, req);
        if response.Failure? {
          results := [];
        } else {
          results := ProcessApiResults(response.value);
        }
      } else {
        var fetched := ddg(call, req);
        if fetched.Failure? {
          results := [];
        } else {
          results := ProcessDdgResults(fetched.value);
        }
      }
    }
  }
}
