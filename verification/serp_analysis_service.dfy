/** The key choice and result formatting of
    `src/services/serpAnalysisService.js`. The two default keys, read from the
    environment when the service is constructed, are the fields of `Config`;
    an unset variable is `None`. */
module SerpAnalysis {
  import opened Wrappers

  /** `{enabled, key}` as stored under `user.apiKeys.serpApi` or
      `user.apiKeys.scrapingBee`; a stored key may be absent. */
  datatype KeySetting = KeySetting(enabled: bool, key: Option<string>)

  datatype ApiKeys = ApiKeys(serpApi: Option<KeySetting>, scrapingBee: Option<KeySetting>)

  datatype User = User(apiKeys: Option<ApiKeys>)

  /** The service's defaults: `DEFAULT_SERPAPI_KEY`, `DEFAULT_SCRAPINGBEE_KEY`. */
  datatype Config = Config(defaultSerpApiKey: Option<string>, defaultScrapingBeeKey: Option<string>)

  /** A SerpApi search object built with a key, or the `{apiKey}` record the
      ScrapingBee path uses. */
  datatype Client = SerpApiClient(apiKey: Option<string>) | ScrapingBeeClient(apiKey: Option<string>)

  datatype Provider = SerpApi | ScrapingBee

  /** `user?.apiKeys?.serpApi` or `user?.apiKeys?.scrapingBee`. */
  function SettingOf(user: Option<User>, p: Provider): (r: Option<KeySetting>)
    ensures user.None? ==> r.None?
    ensures user.Some? && user.value.apiKeys.None? ==> r.None?
    ensures user.Some? && user.value.apiKeys.Some? ==>
      r == (if p == SerpApi then user.value.apiKeys.value.serpApi else user.value.apiKeys.value.scrapingBee)
  {
    match user
    case None => None
    case Some(u) =>
      match u.apiKeys
      case None => None
      case Some(keys) => if p == SerpApi then keys.serpApi else keys.scrapingBee
  }

  /** The user has switched on their own key for `p`. */
  predicate UsesOwnKey(user: Option<User>, p: Provider) {
    var s := SettingOf(user, p);
    s.Some? && s.value.enabled
  }

  /** `setting?.enabled ? setting.key : fallback`. */
  function ChooseKey(setting: Option<KeySetting>, fallback: Option<string>): (k: Option<string>)
    ensures setting.Some? && setting.value.enabled ==> k == setting.value.key
    ensures !(setting.Some? && setting.value.enabled) ==> k == fallback
  {
    if setting.Some? && setting.value.enabled then setting.value.key else fallback
  }

  /** `initializeClient(user, service)`: for "serpapi" and "scrapingbee" a
      client of that kind whose key is the user's own exactly when the user
      enabled it, and the default key otherwise; for any other service name,
      nothing (`undefined`). */
  function InitializeClient(config: Config, user: Option<User>, service: string): (r: Option<Client>)
    ensures r.Some? <==> service == "serpapi" || service == "scrapingbee"
    ensures service == "serpapi" ==>
      && r.value.SerpApiClient?
      && (UsesOwnKey(user, SerpApi) ==> r.value.apiKey == SettingOf(user, SerpApi).value.key)
      && (!UsesOwnKey(user, SerpApi) ==> r.value.apiKey == config.defaultSerpApiKey)
    ensures service == "scrapingbee" ==>
      && r.value.ScrapingBeeClient?
      && (UsesOwnKey(user, ScrapingBee) ==> r.value.apiKey == SettingOf(user, ScrapingBee).value.key)
      && (!UsesOwnKey(user, ScrapingBee) ==> r.value.apiKey == config.defaultScrapingBeeKey)
  {
    if service == "serpapi" then
      Some(SerpApiClient(ChooseKey(SettingOf(user, SerpApi), config.defaultSerpApiKey)))
    else if service == "scrapingbee" then
      Some(ScrapingBeeClient(ChooseKey(SettingOf(user, ScrapingBee), config.defaultScrapingBeeKey)))
    else
      None
  }

  /** A user with no stored keys, or no user at all, always gets the default
      keys. */
  lemma DefaultKeyWithoutSettings(config: Config, user: Option<User>)
    requires user.None? || user.value.apiKeys.None?
    ensures InitializeClient(config, user, "serpapi") == Some(SerpApiClient(config.defaultSerpApiKey))
    ensures InitializeClient(config, user, "scrapingbee") == Some(ScrapingBeeClient(config.defaultScrapingBeeKey))
  {
  }

  /** The setting for one provider never affects the key chosen for the
      other. */
  lemma KeysIndependent(config: Config, keys: ApiKeys, s: Option<KeySetting>)
    ensures InitializeClient(config, Some(User(Some(keys.(scrapingBee := s)))), "serpapi")
         == InitializeClient(config, Some(User(Some(keys))), "serpapi")
    ensures InitializeClient(config, Some(User(Some(keys.(serpApi := s)))), "scrapingbee")
         == InitializeClient(config, Some(User(Some(keys))), "scrapingbee")
  {
  }

  // ---------------------------------------------------------------------
  // Result formatting

  /** One entry of SerpApi's `organic_results`; other fields are dropped. */
  datatype SerpApiResult = SerpApiResult(title: string, link: string, snippet: string, position: Option<int>)

  /** One entry of ScrapingBee's extracted `organic_results`. */
  datatype ScrapedResult = ScrapedResult(title: string, link: string, snippet: string)

  datatype SerpApiData = SerpApiData(query: string, organicResults: seq<SerpApiResult>)

  datatype ScrapingBeeData = ScrapingBeeData(searchQuery: string, organicResults: seq<ScrapedResult>)

  datatype FormattedResult = FormattedResult(title: string, link: string, snippet: string, position: Option<int>)

  datatype Formatted = Formatted(keyword: string, organicResults: seq<FormattedResult>)

  function CopyResults(results: seq<SerpApiResult>): (r: seq<FormattedResult>)
    ensures |r| == |results|
    ensures forall i :: 0 <= i < |r| ==>
      r[i] == FormattedResult(results[i].title, results[i].link, results[i].snippet, results[i].position)
  {
    if results == [] then []
    else
      var x := results[0];
      [FormattedResult(x.title, x.link, x.snippet, x.position)] + CopyResults(results[1..])
  }

  /** `formatSerpApiResults(data)`: the keyword is the query SerpApi echoes in
      `search_parameters.q`; the results keep their length, order, fields and
      SerpApi's own `position`. */
  function FormatSerpApiResults(data: SerpApiData): (r: Formatted)
    ensures r.keyword == data.query
    ensures |r.organicResults| == |data.organicResults|
    ensures forall i :: 0 <= i < |r.organicResults| ==>
      && r.organicResults[i].title == data.organicResults[i].title
      && r.organicResults[i].link == data.organicResults[i].link
      && r.organicResults[i].snippet == data.organicResults[i].snippet
      && r.organicResults[i].position == data.organicResults[i].position
  {
    Formatted(data.query, CopyResults(data.organicResults))
  }

  /** The results from `start` on, numbered `start + 1`, `start + 2`, ... */
  function NumberFrom(results: seq<ScrapedResult>, start: nat): (r: seq<FormattedResult>)
    requires start <= |results|
    ensures |r| == |results| - start
    ensures forall i :: 0 <= i < |r| ==>
      r[i] == FormattedResult(results[start + i].title, results[start + i].link,
                              results[start + i].snippet, Some(start + i + 1))
    decreases |results| - start
  {
    if start == |results| then []
    else
      var x := results[start];
      [FormattedResult(x.title, x.link, x.snippet, Some(start + 1))] + NumberFrom(results, start + 1)
  }

  /** `formatScrapingBeeResults(data)`: the keyword is `search_query`; the
      results keep their length, order and fields and are numbered by their
      index plus one, so the positions are exactly 1..n in order. */
  function FormatScrapingBeeResults(data: ScrapingBeeData): (r: Formatted)
    ensures r.keyword == data.searchQuery
    ensures |r.organicResults| == |data.organicResults|
    ensures forall i :: 0 <= i < |r.organicResults| ==>
      && r.organicResults[i].title == data.organicResults[i].title
      && r.organicResults[i].link == data.organicResults[i].link
      && r.organicResults[i].snippet == data.organicResults[i].snippet
      && r.organicResults[i].position == Some(i + 1)
  {
    Formatted(data.searchQuery, NumberFrom(data.organicResults, 0))
  }

  /** Positions are consecutive: each formatted ScrapingBee result is numbered
      one more than the one before it, starting from 1. */
  lemma ScrapingBeePositionsConsecutive(data: ScrapingBeeData, i: nat)
    requires 0 < i < |data.organicResults|
    ensures FormatScrapingBeeResults(data).organicResults[0].position == Some(1)
    ensures FormatScrapingBeeResults(data).organicResults[i].position.value
         == FormatScrapingBeeResults(data).organicResults[i - 1].position.value + 1
  {
  }

  /** Formatting either feed commutes with splitting it: the results of
      `a + b` are those of `a` followed by those of `b`, for ScrapingBee with
      the second part's positions shifted by `|a|`. */
  lemma {:induction false} CopyResultsAppend(a: seq<SerpApiResult>, b: seq<SerpApiResult>)
    ensures CopyResults(a + b) == CopyResults(a) + CopyResults(b)
  {
    if a == [] {
      assert a + b == b;
    } else {
      assert (a + b)[1..] == a[1..] + b;
      CopyResultsAppend(a[1..], b);
    }
  }

  lemma ScrapingBeeAppend(q: string, a: seq<ScrapedResult>, b: seq<ScrapedResult>)
    ensures var whole := FormatScrapingBeeResults(ScrapingBeeData(q, a + b)).organicResults;
      && whole[..|a|] == FormatScrapingBeeResults(ScrapingBeeData(q, a)).organicResults
      && |whole| == |a| + |b|
      && forall j :: 0 <= j < |b| ==>
           whole[|a| + j] == FormatScrapingBeeResults(ScrapingBeeData(q, b)).organicResults[j]
                               .(position := Some(|a| + j + 1))
  {
  }
}
