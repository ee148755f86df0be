/** The web search of app/search_engine.py: the parameters sent to SerpAPI
    for a query and a search type, and the organic results taken from the
    answer. The SerpAPI call itself is a parameter. */
module SearchEngine {
  import opened Outcomes

  /** A parameter value: SerpAPI receives strings and the result count. */
  datatype ParamValue = Str(s: string) | Int(n: int)

  /** The parts of a JSON answer. */
  datatype Json =
    | JNull
    | JBool(b: bool)
    | JNumber(n: int)
    | JString(s: string)
    | JArray(items: seq<Json>)
    | JObject(fields: map<string, Json>)

  const DefaultNumResults: int := 10

  /** The `tbm` flag a search type sets, if any. */
  function TbmFor(searchType: string): Option<string>
  {
    if searchType == "news" then Some("nws")
    else if searchType == "images" then Some("isch")
    else if searchType == "videos" then Some("vid")
    else None
  }

  /** The site restriction a search type puts in front of the query, if any. */
  function SitePrefix(searchType: string): Option<string>
  {
    if searchType == "linkedin" then Some("site:linkedin.com ")
    else if searchType == "facebook" then Some("site:facebook.com ")
    else None
  }

  /** The dictionary `run` sends: engine, query, key and count, with the
      `tbm` flag or the site-restricted query the search type calls for. */
  function SearchParams(apiKey: string, query: string, searchType: string, numResults: int): map<string, ParamValue>
  {
    var q := match SitePrefix(searchType) case Some(p) => p + query case None => query;
    var base := map["engine" := Str("google"), "q" := Str(q), "api_key" := Str(apiKey), "num" := Int(numResults)];
    match TbmFor(searchType)
    case Some(flag) => base["tbm" := Str(flag)]
    case None => base
  }

  /** The engine, key and count are always sent; "news", "images" and
      "videos" add the flags "nws", "isch" and "vid" and keep the query;
      "linkedin" and "facebook" restrict the query to the site and add no
      flag; every other type, "web" included, sends the base entries only. */
  lemma SearchParamsSpec(apiKey: string, query: string, searchType: string, numResults: int)
    ensures var params := SearchParams(apiKey, query, searchType, numResults);
      && "engine" in params && params["engine"] == Str("google")
      && "api_key" in params && params["api_key"] == Str(apiKey)
      && "num" in params && params["num"] == Int(numResults)
      && "q" in params
      && params.Keys == {"engine", "q", "api_key", "num"} + (if TbmFor(searchType).Some? then {"tbm"} else {})
      && ("tbm" in params <==> searchType in ["news", "images", "videos"])
      && (searchType == "news" ==> params["tbm"] == Str("nws"))
      && (searchType == "images" ==> params["tbm"] == Str("isch"))
      && (searchType == "videos" ==> params["tbm"] == Str("vid"))
      && (searchType == "linkedin" ==> params["q"] == Str("site:linkedin.com " + query))
      && (searchType == "facebook" ==> params["q"] == Str("site:facebook.com " + query))
      && (searchType !in ["linkedin", "facebook"] ==> params["q"] == Str(query))
      && (searchType !in ["news", "images", "videos", "linkedin", "facebook"] ==>
            params == map["engine" := Str("google"), "q" := Str(query), "api_key" := Str(apiKey), "num" := Int(numResults)])
  {
  }

  /** At most one of the two adjustments applies to a search type. */
  lemma AdjustmentsExclusive(searchType: string)
    ensures !(TbmFor(searchType).Some? && SitePrefix(searchType).Some?)
  {
  }

  /** The search result list: the answer's "organic_results", or an empty
      list when it has none. */
  function OrganicResults(answer: map<string, Json>): (r: Json)
    ensures "organic_results" in answer ==> r == answer["organic_results"]
    ensures "organic_results" !in answer ==> r == JArray([])
  {
    GetOr(Get(answer, "organic_results"), JArray([]))
  }

  class SerpApiSearch {
    const apiKey: string

    constructor (apiKey: string)
      ensures this.apiKey == apiKey
    {
      this.apiKey := apiKey;
    }

    /** The dictionary `run` builds: the base entries, then one entry added
        or overwritten as the search type says. */
    method BuildParams(query: string, searchType: string, numResults: int) returns (params: map<string, ParamValue>)
      ensures params == SearchParams(apiKey, query, searchType, numResults)
    {
      params := map["engine" := Str("google"), "q" := Str(query), "api_key" := Str(apiKey), "num" := Int(numResults)];
      if searchType == "news" {
        params := params["tbm" := Str("nws")];
      } else if searchType == "images" {
        params := params["tbm" := Str("isch")];
      } else if searchType == "videos" {
        params := params["tbm" := Str("vid")];
      } else if searchType == "linkedin" {
        params := params["q" := Str("site:linkedin.com " + query)];
      } else if searchType == "facebook" {
        params := params["q" := Str("site:facebook.com " + query)];
      }
    }

    /** SerpAPISearchEngine.run; `search` is what SerpAPI answers for a
        parameter dictionary. */
    method Run(search: map<string, ParamValue> -> map<string, Json>, query: string,
               searchType: string := "web", numResults: int := DefaultNumResults) returns (results: Json)
      ensures results == OrganicResults(search(SearchParams(apiKey, query, searchType, numResults)))
    {
      var params := BuildParams(query, searchType, numResults);
      var answer := search(params);
      results := OrganicResults(answer);
    }
  }
}
