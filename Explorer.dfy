/** The Policy Based Data Explorer: a browser app that calls the Consumer API
    under a chosen policy and mirrors the API call it is showing in its own
    address bar, so that a page can be deep-linked.

    The app's globals (`baseURL`, `myToken`, `myPolicy`, `previousUrl`, the
    limits and the state of the "previous" buttons) are the fields of class
    `Explorer`; the requests it sends with `fetch` are recorded in `requests`,
    and the query of its own address bar is `location`. */
module Explorer {
  import opened Js
  import opened Text
  import opened Url

  /** The app's own query parameters. */
  const CATALOG_PARAM := "q"
  const POLICY_PARAM := "policy"
  const ENTITY_TYPE_PARAM := "entity"
  const ENTITY_ID_PARAM := "id"
  const TIMESERIES_PARAM := "ts"

  const DEFAULT_LIMIT := 10
  const TIMESERIES_LIMIT := 20

  /** The TypeError `bbkUrltoAppUrl` raises for an `entity` URL without a
      type segment (`splitUrl[1]` is undefined). */
  const UNDEFINED_SEGMENT := "TypeError: splitUrl[1] is undefined"

  /** The kinds of Consumer API call: BBK_CATALOG (1), BBK_ENTITY_TYPE (2),
      BBK_ENTITY_INSTANCE (3) and BBK_TIMESERIES (4). */
  datatype ApiCall = CatalogCall | EntityTypeCall | EntityInstanceCall | TimeseriesCall

  // ----- classifying Consumer API URLs -----

  /** The `/`-separated segments of the part of url after baseUrl, one leading
      `/` dropped; none when url does not start with baseUrl. */
  function ApiPath(baseUrl: string, url: string): (r: Option<seq<string>>)
    ensures r.Some? <==> baseUrl <= url
    ensures r.Some? ==> |r.value| >= 1
  {
    if !StartsWith(url, baseUrl) then None
    else
      var rest := url[|baseUrl|..];
      var path := if StartsWith(rest, "/") then rest[1..] else rest;
      Some(Split(path, '/'))
  }

  function Classify(segs: seq<string>): Option<ApiCall>
    requires |segs| >= 1
  {
    if StartsWith(segs[0], "catalog") then Some(CatalogCall)
    else if StartsWith(segs[0], ENTITY_TYPE_PARAM) then
      if |segs| > 4 && StartsWith(segs[3], "timeseries") then Some(TimeseriesCall)
      else if |segs| > 2 then Some(EntityInstanceCall)
      else Some(EntityTypeCall)
    else None
  }

  /** `bbkUrlType(url)`; `None` is `null`. */
  function BbkUrlType(baseUrl: string, url: string): Option<ApiCall> {
    match ApiPath(baseUrl, url)
    case None => None
    case Some(segs) => Classify(segs)
  }

  /** The classification rules, segment by segment. */
  lemma BbkUrlTypeRules(baseUrl: string, url: string)
    ensures !(baseUrl <= url) ==> BbkUrlType(baseUrl, url).None?
    ensures baseUrl <= url ==>
              var segs := ApiPath(baseUrl, url).value;
              && (BbkUrlType(baseUrl, url) == Some(CatalogCall) <==> "catalog" <= segs[0])
              && (BbkUrlType(baseUrl, url).None? <==> !("catalog" <= segs[0]) && !("entity" <= segs[0]))
              && (BbkUrlType(baseUrl, url) == Some(EntityTypeCall) <==>
                    !("catalog" <= segs[0]) && "entity" <= segs[0] && |segs| <= 2)
              && (BbkUrlType(baseUrl, url) == Some(TimeseriesCall) <==>
                    !("catalog" <= segs[0]) && "entity" <= segs[0] && |segs| > 4 && "timeseries" <= segs[3])
  {
  }

  /** The last `/` segment of url. */
  function LastSegment(url: string): string {
    var parts := Split(url, '/');
    parts[|parts| - 1]
  }

  /** `extractTimeSeriesName(url)`: the last segment cut before its first `?`;
      `substring(0, -1)` makes it empty when there is no `?`. */
  function ExtractTimeSeriesName(url: string): (r: string)
    ensures '?' in LastSegment(url) ==> r == BeforeChar(LastSegment(url), '?')
    ensures '?' !in LastSegment(url) ==> r == ""
  {
    var last := LastSegment(url);
    IndexOfChar(last, '?');
    Substring(last, 0, IndexOf(last, "?"))
  }

  /** `if (s.indexOf("?") >= 0) s = s.substring(0, s.indexOf("?"))`. */
  function CutAtQuery(s: string): (r: string)
    ensures r == BeforeChar(s, '?')
  {
    IndexOfChar(s, '?');
    var i := IndexOf(s, "?");
    if i >= 0 then Substring(s, 0, i) else s
  }

  // ----- the app URL -----

  /** `mergeQueryParam(url, name, value)` on the parameter list: a falsy value
      deletes the name, any other value sets it. */
  function Merge(ps: seq<Param>, name: string, value: Option<string>): (r: seq<Param>)
    ensures forall i | 0 <= i < |r| :: r[i].0 == name || r[i] in ps
  {
    if TruthyString(value) then SetParam(ps, name, value.value) else DeleteParam(ps, name)
  }

  /** After a merge the name reads as the value when it is truthy and is absent
      otherwise; every other parameter reads as before. */
  lemma MergeGet(ps: seq<Param>, name: string, value: Option<string>, other: string)
    ensures GetParam(Merge(ps, name, value), name) == if TruthyString(value) then value else None
    ensures other != name ==> GetParam(Merge(ps, name, value), other) == GetParam(ps, other)
  {
    if TruthyString(value) {
      SetParamGet(ps, name, value.value, other);
    } else {
      DeleteParamGet(ps, name, other);
    }
  }

  method MergeQueryParam(url: SearchParams, name: string, value: Option<string>)
    modifies url
    ensures url.pairs == Merge(old(url.pairs), name, value)
  {
    if !TruthyString(value) {
      url.Delete(name);
      return;
    }
    url.Set(name, value.value);
  }

  /** What `searchParams.forEach((v, k) => searchParams.delete(k))` leaves:
      the callback runs for position i of the list as it is after the
      deletions so far, so the entry that moves into a deleted position is
      skipped. */
  function ForEachDeleted(ps: seq<Param>, i: nat): seq<Param>
    decreases |ps| - i
  {
    if i >= |ps| then ps else ForEachDeleted(DeleteParam(ps, ps[i].0), i + 1)
  }

  /** The clearing loop of `bbkUrltoAppUrl` as written. */
  method ClearParamsAsWritten(app: SearchParams)
    modifies app
    ensures app.pairs == ForEachDeleted(old(app.pairs), 0)
  {
    var i := 0;
    while i < |app.pairs|
      invariant ForEachDeleted(app.pairs, i) == ForEachDeleted(old(app.pairs), 0)
      decreases |app.pairs| - i
    {
      app.Delete(app.pairs[i].0);
      i := i + 1;
    }
  }

  /** The loop as written keeps the second of three distinct parameters: an
      address bar showing an entity instance keeps `entity` when the app moves
      to another call. */
  lemma ForEachDeleteSkipsEntries()
    ensures ForEachDeleted([("policy", "p"), ("entity", "country"), ("id", "x")], 0) == [("entity", "country")]
  {
    var ps := [("policy", "p"), ("entity", "country"), ("id", "x")];
    var ps1 := [("entity", "country"), ("id", "x")];
    assert DeleteParam(ps, "policy") == ps1 by {
      assert ps[1..] == ps1 && ps1[1..] == [("id", "x")];
    }
    assert DeleteParam(ps1, "id") == [("entity", "country")] by {
      assert ps1[1..] == [("id", "x")];
    }
    assert ForEachDeleted(ps, 0) == ForEachDeleted(ps1, 1);
    assert ForEachDeleted(ps1, 1) == ForEachDeleted([("entity", "country")], 2);
  }

  /** Clearing every parameter, as the loop is evidently meant to. */
  method ClearParams(app: SearchParams)
    modifies app
    ensures app.pairs == []
  {
    while app.pairs != []
      decreases |app.pairs|
    {
      app.Delete(app.pairs[0].0);
    }
  }

  /** The list every app URL starts from once the old parameters are cleared
      and `q` is deleted: the policy, when it is truthy. */
  function PolicyParams(policy: Option<string>): seq<Param> {
    Merge(DeleteParam([], CATALOG_PARAM), POLICY_PARAM, policy)
  }

  /** The catalog branch of `bbkUrltoAppUrl`: the API URL's `q`, if it has one. */
  function CatalogParams(p0: seq<Param>, bbkUrl: string): seq<Param> {
    var query := ParseUrl(bbkUrl).query;
    if HasParam(query, CATALOG_PARAM) then Merge(p0, CATALOG_PARAM, GetParam(query, CATALOG_PARAM)) else p0
  }

  /** The entity branch: the type, id and timeseries name from segments 1, 2
      and 4, each cut at `?`; reading segment 1 of a one-segment path throws. */
  function EntityParams(p0: seq<Param>, segs: seq<string>): Result<seq<Param>, string> {
    if |segs| < 2 then Err(UNDEFINED_SEGMENT)
    else
      var p1 := Merge(p0, ENTITY_TYPE_PARAM, Some(CutAtQuery(segs[1])));
      if |segs| > 2 then
        var p2 := Merge(p1, ENTITY_ID_PARAM, Some(CutAtQuery(segs[2])));
        if |segs| > 4 && StartsWith(segs[3], "timeseries") then
          Ok(Merge(p2, TIMESERIES_PARAM, Some(CutAtQuery(segs[4]))))
        else Ok(p2)
      else Ok(p1)
  }

  /** The app URL parameters `bbkUrltoAppUrl` produces for the current policy
      and a Consumer API URL, every earlier parameter cleared. */
  function AppParams(policy: Option<string>, baseUrl: string, bbkUrl: string): Result<seq<Param>, string> {
    var p0 := PolicyParams(policy);
    match ApiPath(baseUrl, bbkUrl)
    case None => Ok(p0)
    case Some(segs) =>
      if StartsWith(segs[0], "catalog") then Ok(CatalogParams(p0, bbkUrl))
      else if StartsWith(segs[0], ENTITY_TYPE_PARAM) then EntityParams(p0, segs)
      else Ok(p0)
  }

  predicate AppName(n: string) {
    n == POLICY_PARAM || n == CATALOG_PARAM || n == ENTITY_TYPE_PARAM || n == ENTITY_ID_PARAM || n == TIMESERIES_PARAM
  }

  /** The app URL holds only the app's own parameters, whatever the address
      bar held before. */
  lemma AppParamsNames(policy: Option<string>, baseUrl: string, bbkUrl: string)
    ensures AppParams(policy, baseUrl, bbkUrl).Ok? ==>
              forall i | 0 <= i < |AppParams(policy, baseUrl, bbkUrl).value| :: AppName(AppParams(policy, baseUrl, bbkUrl).value[i].0)
  {
    var p0 := PolicyParams(policy);
    assert AllAppNames(p0) by {
      MergeKeepsNames(DeleteParam([], CATALOG_PARAM), POLICY_PARAM, policy);
    }
    match ApiPath(baseUrl, bbkUrl)
    case None =>
    case Some(segs) =>
      if StartsWith(segs[0], "catalog") {
        var query := ParseUrl(bbkUrl).query;
        MergeKeepsNames(p0, CATALOG_PARAM, GetParam(query, CATALOG_PARAM));
      } else if StartsWith(segs[0], ENTITY_TYPE_PARAM) && |segs| >= 2 {
        EntityParamsNames(p0, segs);
      }
  }

  predicate AllAppNames(ps: seq<Param>) {
    forall i | 0 <= i < |ps| :: AppName(ps[i].0)
  }

  /** Merging an app parameter keeps a list of app parameters. */
  lemma MergeKeepsNames(ps: seq<Param>, name: string, value: Option<string>)
    requires AllAppNames(ps) && AppName(name)
    ensures AllAppNames(Merge(ps, name, value))
  {
    var r := Merge(ps, name, value);
    forall i | 0 <= i < |r| ensures AppName(r[i].0) {
      if r[i].0 != name {
        var j :| 0 <= j < |ps| && ps[j] == r[i];
      }
    }
  }

  lemma EntityParamsNames(p0: seq<Param>, segs: seq<string>)
    requires AllAppNames(p0) && |segs| >= 2
    ensures AllAppNames(EntityParams(p0, segs).value)
  {
    var p1 := Merge(p0, ENTITY_TYPE_PARAM, Some(CutAtQuery(segs[1])));
    MergeKeepsNames(p0, ENTITY_TYPE_PARAM, Some(CutAtQuery(segs[1])));
    if |segs| > 2 {
      var p2 := Merge(p1, ENTITY_ID_PARAM, Some(CutAtQuery(segs[2])));
      MergeKeepsNames(p1, ENTITY_ID_PARAM, Some(CutAtQuery(segs[2])));
      if |segs| > 4 {
        MergeKeepsNames(p2, TIMESERIES_PARAM, Some(CutAtQuery(segs[4])));
      }
    }
  }

  /** The app URL carries the policy exactly when it is set. */
  lemma AppParamsPolicy(policy: Option<string>, baseUrl: string, bbkUrl: string)
    ensures AppParams(policy, baseUrl, bbkUrl).Ok? ==>
              GetParam(AppParams(policy, baseUrl, bbkUrl).value, POLICY_PARAM) == if TruthyString(policy) then policy else None
  {
    var p0 := PolicyParams(policy);
    MergeGet([], POLICY_PARAM, policy, POLICY_PARAM);
    match ApiPath(baseUrl, bbkUrl)
    case None =>
    case Some(segs) =>
      if StartsWith(segs[0], "catalog") {
        MergeGet(p0, CATALOG_PARAM, GetParam(ParseUrl(bbkUrl).query, CATALOG_PARAM), POLICY_PARAM);
      } else if StartsWith(segs[0], ENTITY_TYPE_PARAM) && |segs| >= 2 {
        EntityParamsKeep(p0, segs, POLICY_PARAM);
      }
  }

  /** The entity branch leaves every parameter but its own three untouched. */
  lemma EntityParamsKeep(p0: seq<Param>, segs: seq<string>, other: string)
    requires |segs| >= 2
    requires other != ENTITY_TYPE_PARAM && other != ENTITY_ID_PARAM && other != TIMESERIES_PARAM
    ensures GetParam(EntityParams(p0, segs).value, other) == GetParam(p0, other)
  {
    var p1 := Merge(p0, ENTITY_TYPE_PARAM, Some(CutAtQuery(segs[1])));
    MergeGet(p0, ENTITY_TYPE_PARAM, Some(CutAtQuery(segs[1])), other);
    if |segs| > 2 {
      var p2 := Merge(p1, ENTITY_ID_PARAM, Some(CutAtQuery(segs[2])));
      MergeGet(p1, ENTITY_ID_PARAM, Some(CutAtQuery(segs[2])), other);
      if |segs| > 4 {
        MergeGet(p2, TIMESERIES_PARAM, Some(CutAtQuery(segs[4])), other);
      }
    }
  }

  /** Only a catalog call puts `q` in the app URL. */
  lemma AppParamsCatalogOnly(policy: Option<string>, baseUrl: string, bbkUrl: string)
    ensures AppParams(policy, baseUrl, bbkUrl).Ok? && BbkUrlType(baseUrl, bbkUrl) != Some(CatalogCall) ==>
              !HasParam(AppParams(policy, baseUrl, bbkUrl).value, CATALOG_PARAM)
  {
    var p0 := PolicyParams(policy);
    MergeGet([], POLICY_PARAM, policy, CATALOG_PARAM);
    match ApiPath(baseUrl, bbkUrl)
    case None =>
    case Some(segs) =>
      if !StartsWith(segs[0], "catalog") && StartsWith(segs[0], ENTITY_TYPE_PARAM) && |segs| >= 2 {
        EntityParamsKeep(p0, segs, CATALOG_PARAM);
      }
  }

  /** Building the app URL throws exactly for an entity-type call whose path
      is the single segment. */
  lemma AppParamsFails(policy: Option<string>, baseUrl: string, bbkUrl: string)
    ensures AppParams(policy, baseUrl, bbkUrl).Err? <==>
              ApiPath(baseUrl, bbkUrl).Some? && |ApiPath(baseUrl, bbkUrl).value| == 1 &&
              BbkUrlType(baseUrl, bbkUrl) == Some(EntityTypeCall)
  {
  }

  // ----- paging -----

  /** The parameters `consumerAPIFetch` adds where absent: `limit` and a zero
      `offset` for catalog and entity-type calls, `limit` for timeseries. */
  function WithPagingDefaults(kind: Option<ApiCall>, q: seq<Param>, defaultLimit: int, timeseriesLimit: int): seq<Param> {
    if kind == Some(CatalogCall) || kind == Some(EntityTypeCall) then
      var q1 := if HasParam(q, "limit") then q else SetParam(q, "limit", IntToString(defaultLimit));
      if HasParam(q1, "offset") then q1 else SetParam(q1, "offset", "0")
    else if kind == Some(TimeseriesCall) then
      if HasParam(q, "limit") then q else SetParam(q, "limit", IntToString(timeseriesLimit))
    else q
  }

  /** Defaults fill in only what is missing and leave every other parameter. */
  lemma PagingDefaultsFillGaps(kind: Option<ApiCall>, q: seq<Param>, dl: int, tl: int, other: string)
    ensures var r := WithPagingDefaults(kind, q, dl, tl);
            && (kind == Some(CatalogCall) || kind == Some(EntityTypeCall) ==>
                  && GetParam(r, "limit") == (if HasParam(q, "limit") then GetParam(q, "limit") else Some(IntToString(dl)))
                  && GetParam(r, "offset") == (if HasParam(q, "offset") then GetParam(q, "offset") else Some("0")))
            && (kind == Some(TimeseriesCall) ==>
                  GetParam(r, "limit") == (if HasParam(q, "limit") then GetParam(q, "limit") else Some(IntToString(tl))))
            && (other != "limit" && other != "offset" ==> GetParam(r, other) == GetParam(q, other))
            && (kind == Some(TimeseriesCall) ==> GetParam(r, "offset") == GetParam(q, "offset"))
  {
    var q1 := if HasParam(q, "limit") then q else SetParam(q, "limit", IntToString(dl));
    SetParamGet(q, "limit", IntToString(dl), "offset");
    SetParamGet(q, "limit", IntToString(dl), other);
    SetParamGet(q1, "offset", "0", "limit");
    SetParamGet(q1, "offset", "0", other);
    SetParamGet(q, "limit", IntToString(tl), "offset");
    SetParamGet(q, "limit", IntToString(tl), other);
  }

  /** The URL `consumerAPIFetch` fetches for url: catalog, entity-type and
      timeseries calls are re-serialised with the paging defaults. */
  function FetchUrl(baseUrl: string, url: string, defaultLimit: int, timeseriesLimit: int): string {
    var kind := BbkUrlType(baseUrl, url);
    if kind == Some(CatalogCall) || kind == Some(EntityTypeCall) || kind == Some(TimeseriesCall) then
      var u := ParseUrl(url);
      Href(Url(u.address, WithPagingDefaults(kind, u.query, defaultLimit, timeseriesLimit)))
    else url
  }

  /** `parseInt(offset) == 0`; `NaN == 0` is false. */
  predicate OffsetIsZero(q: seq<Param>) {
    HasParam(q, "offset") && ParseInt(GetParam(q, "offset").value) == Some(0)
  }

  /** A catalog or entity-type fetch disables the previous buttons exactly
      when its offset, given or defaulted to 0, reads as 0. */
  lemma FirstPageDisablesPrevious(kind: Option<ApiCall>, q: seq<Param>, dl: int, tl: int)
    requires kind == Some(CatalogCall) || kind == Some(EntityTypeCall)
    ensures OffsetIsZero(WithPagingDefaults(kind, q, dl, tl)) <==>
              !HasParam(q, "offset") || ParseInt(GetParam(q, "offset").value) == Some(0)
  {
    PagingDefaultsFillGaps(kind, q, dl, tl, "offset");
    ParseIntOfIntToString(0);
  }

  /** A number as `searchParams.set` writes it; `None` is `NaN`. */
  function NumberString(n: Option<int>): string {
    if n.Some? then IntToString(n.value) else "NaN"
  }

  /** The offset `page(up)` moves to: the current offset (0 when absent) plus
      the limit, or minus the limit and at least 0; `NaN` stays `NaN`. */
  function PageOffset(offset: Option<string>, up: bool, limit: int): (r: Option<int>)
    ensures var start := StartOffset(offset);
            && (start.None? <==> r.None?)
            && (start.Some? && up ==> r.value == start.value + limit)
            && (start.Some? && !up ==> r.value == if start.value - limit < 0 then 0 else start.value - limit)
  {
    MoveOffset(StartOffset(offset), up, limit)
  }

  /** The offset a page starts from: the given one read by `parseInt`, 0 when
      absent. */
  function StartOffset(offset: Option<string>): Option<int> {
    if offset.Some? then ParseInt(offset.value) else Some(0)
  }

  /** The start offset moved by the limit. */
  function MoveOffset(start: Option<int>, up: bool, limit: int): Option<int> {
    match start
    case None => None
    case Some(o) =>
      if up then Some(o + limit)
      else if o - limit < 0 then Some(0) else Some(o - limit)
  }

  /** The query of the URL `page(up)` fetches on a catalog or entity-type call. */
  function PagedQuery(q: seq<Param>, up: bool, limit: int): seq<Param> {
    SetParam(SetParam(q, "offset", NumberString(PageOffset(GetParam(q, "offset"), up, limit))), "limit", IntToString(limit))
  }

  function PagedUrl(baseUrl: string, url: string, up: bool, limit: int): string {
    var u := ParseUrl(url);
    var kind := BbkUrlType(baseUrl, url);
    Href(Url(u.address, if kind == Some(CatalogCall) || kind == Some(EntityTypeCall) then PagedQuery(u.query, up, limit) else u.query))
  }

  /** A page sets the moved offset and the limit and keeps everything else. */
  lemma PagedQueryValues(q: seq<Param>, up: bool, limit: int, other: string)
    ensures GetParam(PagedQuery(q, up, limit), "limit") == Some(IntToString(limit))
    ensures GetParam(PagedQuery(q, up, limit), "offset") == Some(NumberString(PageOffset(GetParam(q, "offset"), up, limit)))
    ensures other != "limit" && other != "offset" ==> GetParam(PagedQuery(q, up, limit), other) == GetParam(q, other)
  {
    var off := NumberString(PageOffset(GetParam(q, "offset"), up, limit));
    SetParamGet(q, "offset", off, other);
    SetParamGet(SetParam(q, "offset", off), "limit", IntToString(limit), "offset");
    SetParamGet(SetParam(q, "offset", off), "limit", IntToString(limit), other);
  }

  /** From offset o (or none, which counts as 0), a page writes o plus the
      limit going up and max(0, o - limit) going down. */
  lemma PagedOffsetValue(q: seq<Param>, up: bool, limit: int, o: int)
    requires GetParam(q, "offset") == Some(IntToString(o)) || (GetParam(q, "offset").None? && o == 0)
    ensures GetParam(PagedQuery(q, up, limit), "offset") ==
            Some(IntToString(if up then o + limit else if o - limit < 0 then 0 else o - limit))
  {
    PageOffsetOf(GetParam(q, "offset"), up, limit, o);
    PagedQueryValues(q, up, limit, "offset");
  }

  lemma PageOffsetOf(offset: Option<string>, up: bool, limit: int, o: int)
    requires offset == Some(IntToString(o)) || (offset.None? && o == 0)
    ensures PageOffset(offset, up, limit) == Some(if up then o + limit else if o - limit < 0 then 0 else o - limit)
  {
    StartOfPrinted(offset, o);
    PageOffsetFrom(offset, o, up, limit);
  }

  lemma StartOfPrinted(offset: Option<string>, o: int)
    requires offset == Some(IntToString(o)) || (offset.None? && o == 0)
    ensures StartOffset(offset) == Some(o)
  {
    if offset.Some? {
      ParseIntOfIntToString(o);
    }
  }

  lemma PageOffsetFrom(offset: Option<string>, o: int, up: bool, limit: int)
    requires StartOffset(offset) == Some(o)
    ensures PageOffset(offset, up, limit) == Some(if up then o + limit else if o - limit < 0 then 0 else o - limit)
  {
    PageOffsetFromStart(offset, Some(o), up, limit);
    MoveOffsetSome(o, up, limit);
  }

  lemma MoveOffsetSome(o: int, up: bool, limit: int)
    ensures MoveOffset(Some(o), up, limit) == Some(if up then o + limit else if o - limit < 0 then 0 else o - limit)
  {
  }

  /** From a non-negative offset, a page up and then a page down come back to
      it. */
  lemma PageUpThenDown(q: seq<Param>, limit: int, o: int)
    requires 0 <= o && limit >= 0
    requires GetParam(q, "offset") == Some(IntToString(o))
    ensures GetParam(PagedQuery(PagedQuery(q, true, limit), false, limit), "offset") == Some(IntToString(o))
  {
    PagedOffsetValue(q, true, limit, o);
    PagedOffsetValue(PagedQuery(q, true, limit), false, limit, o + limit);
  }

  /** A page down from an offset at most the limit lands on the first page, so
      the fetch that follows disables the previous buttons. */
  lemma PageDownToFirstPage(q: seq<Param>, limit: int, o: int)
    requires GetParam(q, "offset") == Some(IntToString(o)) || (GetParam(q, "offset").None? && o == 0)
    requires o <= limit
    ensures OffsetIsZero(PagedQuery(q, false, limit))
  {
    var pq := PagedQuery(q, false, limit);
    assert GetParam(pq, "offset") == Some(IntToString(0)) by {
      PagedOffsetValue(q, false, limit, o);
    }
    ParseIntOfIntToString(0);
  }

  // ----- requests and curl -----

  const AUTH_TOKEN_HEADER := "x-bbk-auth-token"
  const AUDIENCE_HEADER := "x-bbk-audience"

  /** The headers `consumerAPIFetch` sends: the token, and the policy as the
      audience in dev-shim mode; an unset global is sent as `null`. */
  function FetchHeaders(token: Option<string>, policy: Option<string>, devShimMode: bool): seq<Param> {
    [(AUTH_TOKEN_HEADER, NullableToJsString(token))] +
    (if devShimMode then [(AUDIENCE_HEADER, NullableToJsString(policy))] else [])
  }

  /** The curl option for one header. */
  function HeaderOption(h: Param): string {
    " -H " + h.0 + ":" + h.1
  }

  function HeaderOptions(hs: seq<Param>): string {
    if hs == [] then "" else HeaderOption(hs[0]) + HeaderOptions(hs[1..])
  }

  /** The string `copyCurlToClipBoard(url)` writes to the clipboard. */
  function CurlCommand(url: string, token: Option<string>, policy: Option<string>, devShimMode: bool): string {
    "curl \"" + url + "\" -X GET" + HeaderOption((AUTH_TOKEN_HEADER, NullableToJsString(token))) +
    (if devShimMode then HeaderOption((AUDIENCE_HEADER, NullableToJsString(policy))) else "")
  }

  lemma AuthOptionText(t: string)
    ensures HeaderOption((AUTH_TOKEN_HEADER, t)) == " -H x-bbk-auth-token:" + t
  {
  }

  lemma AudienceOptionText(t: string)
    ensures HeaderOption((AUDIENCE_HEADER, t)) == " -H x-bbk-audience:" + t
  {
  }

  /** The curl command is `curl "<url>" -X GET -H x-bbk-auth-token:<token>`,
      followed by ` -H x-bbk-audience:<policy>` exactly in dev-shim mode. */
  lemma CurlCommandText(url: string, token: Option<string>, policy: Option<string>, devShimMode: bool)
    ensures CurlCommand(url, token, policy, devShimMode) ==
            "curl \"" + url + "\" -X GET" + " -H x-bbk-auth-token:" + NullableToJsString(token) +
            (if devShimMode then " -H x-bbk-audience:" + NullableToJsString(policy) else "")
  {
    AuthOptionText(NullableToJsString(token));
    AudienceOptionText(NullableToJsString(policy));
  }

  /** The curl command repeats the request `consumerAPIFetch` sends: the same
      URL, method and headers. */
  lemma CurlRepeatsFetch(url: string, token: Option<string>, policy: Option<string>, devShimMode: bool)
    ensures CurlCommand(url, token, policy, devShimMode) ==
            "curl \"" + url + "\" -X GET" + HeaderOptions(FetchHeaders(token, policy, devShimMode))
  {
    var hs := FetchHeaders(token, policy, devShimMode);
    var h0 := (AUTH_TOKEN_HEADER, NullableToJsString(token));
    var h1 := (AUDIENCE_HEADER, NullableToJsString(policy));
    if devShimMode {
      assert hs == [h0, h1];
      assert hs[1..] == [h1];
      assert HeaderOptions([h1]) == HeaderOption(h1) + HeaderOptions([]);
      assert HeaderOptions(hs) == HeaderOption(h0) + HeaderOption(h1);
    } else {
      assert hs == [h0];
      assert HeaderOptions(hs) == HeaderOption(h0) + HeaderOptions([]);
    }
  }

  // ----- handleUrlParams -----

  /** The Consumer API URL `handleUrlParams` builds from the app's
      parameters, or `None` for no URL; nothing is built without a policy.
      The catalog query is written as it is: the percent-encoding is not
      modelled. */
  function HandleUrl(q: seq<Param>, baseUrl: string): (r: Option<string>)
    ensures r.Some? <==> TruthyString(GetParam(q, POLICY_PARAM)) &&
                         (TruthyString(GetParam(q, CATALOG_PARAM)) || TruthyString(GetParam(q, ENTITY_TYPE_PARAM)))
  {
    var catalog := GetParam(q, CATALOG_PARAM);
    var entityType := GetParam(q, ENTITY_TYPE_PARAM);
    var entityId := GetParam(q, ENTITY_ID_PARAM);
    var timeseries := GetParam(q, TIMESERIES_PARAM);
    if !TruthyString(GetParam(q, POLICY_PARAM)) then None
    else if TruthyString(catalog) then Some(baseUrl + "/catalog?q=" + catalog.value)
    else if TruthyString(entityType) then
      if TruthyString(entityId) then
        if TruthyString(timeseries) then
          Some(baseUrl + "/entity/" + entityType.value + "/" + entityId.value + "/timeseries/" + timeseries.value)
        else Some(baseUrl + "/entity/" + entityType.value + "/" + entityId.value)
      else Some(baseUrl + "/entity/" + entityType.value)
    else None
  }

  /** A value the round trip carries as a path segment: non-empty, without
      `/` or `?`. */
  predicate Segment(s: string) {
    s != "" && '/' !in s && '?' !in s
  }

  /** A printed number holds no `/`, `?`, `&` or `=`. */
  lemma NumberIsPlain(n: int)
    ensures '/' !in IntToString(n) && '?' !in IntToString(n) && '&' !in IntToString(n) && '=' !in IntToString(n)
  {
    var d := NatToString(if n < 0 then -n else n);
    assert forall i | 0 <= i < |d| :: IsDigit(d[i]);
    if n < 0 {
      assert IntToString(n) == "-" + d;
    }
  }

  /** The parts with sfx appended to the last one. */
  function WithSuffix(parts: seq<string>, sfx: string): seq<string>
    requires |parts| >= 1
  {
    parts[..|parts| - 1] + [parts[|parts| - 1] + sfx]
  }

  lemma {:induction false} JoinWithSuffix(parts: seq<string>, sfx: string, c: char)
    requires |parts| >= 1
    ensures Join(parts, c) + sfx == Join(WithSuffix(parts, sfx), c)
  {
    if |parts| > 1 {
      JoinWithSuffix(parts[1..], sfx, c);
      assert WithSuffix(parts, sfx)[0] == parts[0];
      assert WithSuffix(parts, sfx)[1..] == WithSuffix(parts[1..], sfx);
    }
  }

  lemma WithSuffixLast(parts: seq<string>, sfx: string)
    requires |parts| >= 1
    ensures |WithSuffix(parts, sfx)| == |parts|
    ensures WithSuffix(parts, sfx)[|parts| - 1] == parts[|parts| - 1] + sfx
  {
  }

  lemma WithSuffixFree(parts: seq<string>, sfx: string, c: char)
    requires |parts| >= 1 && c !in sfx
    requires forall i | 0 <= i < |parts| :: c !in parts[i]
    ensures forall i | 0 <= i < |WithSuffix(parts, sfx)| :: c !in WithSuffix(parts, sfx)[i]
  {
    forall i | 0 <= i < |WithSuffix(parts, sfx)| ensures c !in WithSuffix(parts, sfx)[i] {
      if i < |parts| - 1 {
        assert WithSuffix(parts, sfx)[i] == parts[i];
      }
    }
  }

  /** The segments of a URL that extends the base with `/` and a path. */
  lemma ApiPathUnder(baseUrl: string, path: string)
    ensures ApiPath(baseUrl, baseUrl + "/" + path) == Some(Split(path, '/'))
  {
    var url := baseUrl + "/" + path;
    assert url[|baseUrl|..] == "/" + path;
    assert ("/" + path)[1..] == path;
  }

  /** The segments of a URL that extends the base with `/`, a path and a
      suffix free of `/`. */
  lemma ApiPathOfParts(baseUrl: string, parts: seq<string>, sfx: string)
    requires |parts| >= 1 && '/' !in sfx
    requires forall i | 0 <= i < |parts| :: '/' !in parts[i]
    ensures ApiPath(baseUrl, baseUrl + "/" + Join(parts, '/') + sfx) == Some(WithSuffix(parts, sfx))
  {
    UrlOfParts(baseUrl, parts, sfx);
    SplitWithSuffix(parts, sfx);
    ApiPathUnder(baseUrl, Join(WithSuffix(parts, sfx), '/'));
  }

  /** The segments of a URL that extends the base with `/` and the join of
      parts free of `/`. */
  lemma ApiPathOfJoin(baseUrl: string, parts: seq<string>)
    requires |parts| >= 1
    requires forall i | 0 <= i < |parts| :: '/' !in parts[i]
    ensures ApiPath(baseUrl, baseUrl + "/" + Join(parts, '/')) == Some(parts)
  {
    SplitJoin(parts, '/');
    ApiPathUnder(baseUrl, Join(parts, '/'));
  }

  /** The last segment of such a URL is the last part with the suffix. */
  lemma LastSegmentOfParts(baseUrl: string, parts: seq<string>, sfx: string)
    requires |parts| >= 1 && '/' !in sfx
    requires forall i | 0 <= i < |parts| :: '/' !in parts[i]
    ensures LastSegment(baseUrl + "/" + Join(parts, '/') + sfx) == parts[|parts| - 1] + sfx
  {
    var ws := WithSuffix(parts, sfx);
    UrlOfParts(baseUrl, parts, sfx);
    SplitWithSuffix(parts, sfx);
    LastSegmentAfter(baseUrl, Join(ws, '/'), ws);
    WithSuffixLast(parts, sfx);
  }

  lemma UrlOfParts(baseUrl: string, parts: seq<string>, sfx: string)
    requires |parts| >= 1
    ensures baseUrl + "/" + Join(parts, '/') + sfx == baseUrl + ['/'] + Join(WithSuffix(parts, sfx), '/')
  {
    JoinWithSuffix(parts, sfx, '/');
  }

  lemma SplitWithSuffix(parts: seq<string>, sfx: string)
    requires |parts| >= 1 && '/' !in sfx
    requires forall i | 0 <= i < |parts| :: '/' !in parts[i]
    ensures Split(Join(WithSuffix(parts, sfx), '/'), '/') == WithSuffix(parts, sfx)
  {
    WithSuffixFree(parts, sfx, '/');
    SplitJoin(WithSuffix(parts, sfx), '/');
  }

  lemma LastSegmentAfter(x: string, y: string, ws: seq<string>)
    requires Split(y, '/') == ws
    ensures |ws| >= 1 && LastSegment(x + ['/'] + y) == ws[|ws| - 1]
  {
    LastOfSplit(x, y, '/');
  }

  /** The last segment after a separator is the last segment of what follows it. */
  lemma LastOfSplit(x: string, y: string, c: char)
    ensures var all := Split(x + [c] + y, c);
            all[|all| - 1] == Split(y, c)[|Split(y, c)| - 1]
  {
    SplitAppend(x, y, c);
    var all := Split(x, c) + Split(y, c);
    assert all[|all| - 1] == Split(y, c)[|Split(y, c)| - 1];
  }

  lemma Join2(a: string, b: string, c: char)
    ensures Join([a, b], c) == a + [c] + b
  {
    assert [a, b][1..] == [b];
  }

  lemma EntityTypeUrlParts(baseUrl: string, et: string)
    ensures baseUrl + "/entity/" + et == baseUrl + "/" + Join(["entity", et], '/')
  {
    calc {
      baseUrl + "/" + Join(["entity", et], '/');
    == { JoinCons(baseUrl + "/", ["entity", et]); assert ["entity", et][1..] == [et]; }
      baseUrl + "/" + "entity" + "/" + et;
    == { Merge3(baseUrl, "/", "entity", "/", "/entity/"); }
      baseUrl + "/entity/" + et;
    }
  }

  lemma EntityInstanceUrlParts(baseUrl: string, et: string, id: string)
    ensures baseUrl + "/entity/" + et + "/" + id == baseUrl + "/" + Join(["entity", et, id], '/')
  {
    calc {
      baseUrl + "/" + Join(["entity", et, id], '/');
    == { JoinCons(baseUrl + "/", ["entity", et, id]); assert ["entity", et, id][1..] == [et, id]; }
      baseUrl + "/" + "entity" + "/" + Join([et, id], '/');
    == { Merge3(baseUrl, "/", "entity", "/", "/entity/"); }
      baseUrl + "/entity/" + Join([et, id], '/');
    == { JoinCons(baseUrl + "/entity/", [et, id]); assert [et, id][1..] == [id]; }
      baseUrl + "/entity/" + et + "/" + id;
    }
  }

  lemma TimeseriesUrlParts(baseUrl: string, et: string, id: string, ts: string)
    ensures baseUrl + "/entity/" + et + "/" + id + "/timeseries/" + ts ==
            baseUrl + "/" + Join(["entity", et, id, "timeseries", ts], '/')
  {
    var x := baseUrl + "/entity/" + et + "/" + id;
    calc {
      baseUrl + "/" + Join(["entity", et, id, "timeseries", ts], '/');
    == { JoinCons(baseUrl + "/", ["entity", et, id, "timeseries", ts]);
         assert ["entity", et, id, "timeseries", ts][1..] == [et, id, "timeseries", ts]; }
      baseUrl + "/" + "entity" + "/" + Join([et, id, "timeseries", ts], '/');
    == { Merge3(baseUrl, "/", "entity", "/", "/entity/"); }
      baseUrl + "/entity/" + Join([et, id, "timeseries", ts], '/');
    == { JoinCons(baseUrl + "/entity/", [et, id, "timeseries", ts]);
         assert [et, id, "timeseries", ts][1..] == [id, "timeseries", ts]; }
      baseUrl + "/entity/" + et + "/" + Join([id, "timeseries", ts], '/');
    == { JoinCons(baseUrl + "/entity/" + et + "/", [id, "timeseries", ts]);
         assert [id, "timeseries", ts][1..] == ["timeseries", ts]; }
      x + "/" + Join(["timeseries", ts], '/');
    == { JoinCons(x + "/", ["timeseries", ts]); assert ["timeseries", ts][1..] == [ts]; }
      x + "/" + "timeseries" + "/" + ts;
    == { Merge3(x, "/", "timeseries", "/", "/timeseries/"); }
      x + "/timeseries/" + ts;
    }
  }

  /** Taking the first part off a join. */
  lemma JoinCons(x: string, parts: seq<string>)
    requires |parts| >= 2
    ensures x + Join(parts, '/') == x + parts[0] + "/" + Join(parts[1..], '/')
  {
    assert Join(parts, '/') == parts[0] + "/" + Join(parts[1..], '/');
  }

  /** Three pieces spelling a literal can be written as the literal. */
  lemma Merge3(x: string, a: string, b: string, c: string, lit: string)
    requires a + b + c == lit
    ensures x + a + b + c == x + lit
  {
  }

  /** `cut(s + sfx)` is s when s has no `?` and sfx is empty or starts a query. */
  lemma CutAtQueryOfSuffix(s: string, sfx: string)
    requires '?' !in s && (sfx == "" || sfx[0] == '?')
    ensures CutAtQuery(s + sfx) == s
  {
    if sfx != "" {
      assert (s + sfx)[|s|] == '?';
      assert (s + sfx)[..|s|] == s;
    } else {
      assert s + sfx == s;
    }
  }

  /** Merging a new truthy parameter appends it. */
  lemma MergeAppends(ps: seq<Param>, name: string, v: string)
    requires !HasParam(ps, name) && v != ""
    ensures Merge(ps, name, Some(v)) == ps + [(name, v)]
  {
  }

  lemma PolicyParamsOf(p: string)
    requires p != ""
    ensures PolicyParams(Some(p)) == [(POLICY_PARAM, p)]
  {
    MergeAppends([], POLICY_PARAM, p);
  }

  lemma EntityTypeParams(p0: seq<Param>, et: string, sfx: string)
    requires !HasParam(p0, ENTITY_TYPE_PARAM)
    requires Segment(et) && (sfx == "" || sfx[0] == '?')
    ensures EntityParams(p0, ["entity", et + sfx]) == Ok(p0 + [(ENTITY_TYPE_PARAM, et)])
  {
    CutAtQueryOfSuffix(et, sfx);
    MergeAppends(p0, ENTITY_TYPE_PARAM, et);
  }

  lemma EntityInstanceParams(p0: seq<Param>, et: string, id: string)
    requires !HasParam(p0, ENTITY_TYPE_PARAM) && !HasParam(p0, ENTITY_ID_PARAM)
    requires Segment(et) && Segment(id)
    ensures EntityParams(p0, ["entity", et, id]) == Ok(p0 + [(ENTITY_TYPE_PARAM, et), (ENTITY_ID_PARAM, id)])
  {
    CutAtQueryOfSuffix(et, "");
    CutAtQueryOfSuffix(id, "");
    assert et + "" == et && id + "" == id;
    var p1 := p0 + [(ENTITY_TYPE_PARAM, et)];
    MergeAppends(p0, ENTITY_TYPE_PARAM, et);
    AppendGet(p0, (ENTITY_TYPE_PARAM, et), ENTITY_ID_PARAM);
    MergeAppends(p1, ENTITY_ID_PARAM, id);
    assert p1 + [(ENTITY_ID_PARAM, id)] == p0 + [(ENTITY_TYPE_PARAM, et), (ENTITY_ID_PARAM, id)];
  }

  lemma TimeseriesParams(p0: seq<Param>, et: string, id: string, ts: string, sfx: string)
    requires !HasParam(p0, ENTITY_TYPE_PARAM) && !HasParam(p0, ENTITY_ID_PARAM) && !HasParam(p0, TIMESERIES_PARAM)
    requires Segment(et) && Segment(id) && Segment(ts) && (sfx == "" || sfx[0] == '?')
    ensures EntityParams(p0, ["entity", et, id, "timeseries", ts + sfx]) ==
            Ok(p0 + [(ENTITY_TYPE_PARAM, et), (ENTITY_ID_PARAM, id), (TIMESERIES_PARAM, ts)])
  {
    CutAtQueryOfSuffix(et, "");
    CutAtQueryOfSuffix(id, "");
    CutAtQueryOfSuffix(ts, sfx);
    assert et + "" == et && id + "" == id;
    var p1 := p0 + [(ENTITY_TYPE_PARAM, et)];
    var p2 := p1 + [(ENTITY_ID_PARAM, id)];
    MergeAppends(p0, ENTITY_TYPE_PARAM, et);
    AppendGet(p0, (ENTITY_TYPE_PARAM, et), ENTITY_ID_PARAM);
    MergeAppends(p1, ENTITY_ID_PARAM, id);
    AppendGet(p0, (ENTITY_TYPE_PARAM, et), TIMESERIES_PARAM);
    AppendGet(p1, (ENTITY_ID_PARAM, id), TIMESERIES_PARAM);
    MergeAppends(p2, TIMESERIES_PARAM, ts);
    assert p2 + [(TIMESERIES_PARAM, ts)] == p0 + [(ENTITY_TYPE_PARAM, et), (ENTITY_ID_PARAM, id), (TIMESERIES_PARAM, ts)];
    assert StartsWith("timeseries", "timeseries");
  }

  /** The parameter list holding only the policy has none of the others. */
  lemma OnlyPolicy(p: string)
    ensures !HasParam([(POLICY_PARAM, p)], ENTITY_TYPE_PARAM) && !HasParam([(POLICY_PARAM, p)], ENTITY_ID_PARAM)
    ensures !HasParam([(POLICY_PARAM, p)], TIMESERIES_PARAM) && !HasParam([(POLICY_PARAM, p)], CATALOG_PARAM)
  {
  }

  lemma DefaultsOfEmpty(kind: Option<ApiCall>, dl: int, tl: int)
    requires kind == Some(CatalogCall) || kind == Some(EntityTypeCall)
    ensures WithPagingDefaults(kind, [], dl, tl) == [("limit", IntToString(dl)), ("offset", "0")]
  {
    assert SetParam([], "limit", IntToString(dl)) == [("limit", IntToString(dl))];
    assert !HasParam([("limit", IntToString(dl))], "offset");
  }

  lemma HrefLimitOffset(address: string, lim: string)
    ensures Href(Url(address, [("limit", lim), ("offset", "0")])) == address + ("?limit=" + lim + "&offset=0")
  {
    var ps := [("limit", lim), ("offset", "0")];
    assert Parts(ps) == [PartOf(ps[0]), PartOf(ps[1])];
    Join2(PartOf(ps[0]), PartOf(ps[1]), '&');
    assert Href(Url(address, ps)) == address + "?" + (("limit" + "=" + lim) + ['&'] + ("offset" + "=" + "0"));
    LimitOffsetText(address, lim);
  }

  lemma LimitOffsetText(address: string, lim: string)
    ensures address + "?" + (("limit" + "=" + lim) + ['&'] + ("offset" + "=" + "0")) == address + ("?limit=" + lim + "&offset=0")
  {
    assert "?" + ("limit" + "=" + lim) == "?limit=" + lim;
    assert ['&'] + ("offset" + "=" + "0") == "&offset=0";
  }

  /** The query-free URL of a catalog or entity-type call is fetched with the
      default limit and offset 0 appended. */
  lemma FetchPagedPlainUrl(baseUrl: string, url: string, dl: int, tl: int)
    requires '?' !in url
    requires BbkUrlType(baseUrl, url) == Some(CatalogCall) || BbkUrlType(baseUrl, url) == Some(EntityTypeCall)
    ensures FetchUrl(baseUrl, url, dl, tl) == url + ("?limit=" + IntToString(dl) + "&offset=0")
  {
    assert ParseUrl(url) == Url(url, []);
    DefaultsOfEmpty(BbkUrlType(baseUrl, url), dl, tl);
    HrefLimitOffset(url, IntToString(dl));
  }

  lemma HrefLimit(address: string, lim: string)
    ensures Href(Url(address, [("limit", lim)])) == address + ("?limit=" + lim)
  {
    assert Parts([("limit", lim)]) == [PartOf(("limit", lim))];
  }

  /** The query-free URL of a timeseries call is fetched with the timeseries
      limit appended. */
  lemma FetchTimeseriesPlainUrl(baseUrl: string, url: string, dl: int, tl: int)
    requires '?' !in url
    requires BbkUrlType(baseUrl, url) == Some(TimeseriesCall)
    ensures FetchUrl(baseUrl, url, dl, tl) == url + ("?limit=" + IntToString(tl))
  {
    assert ParseUrl(url) == Url(url, []);
    assert WithPagingDefaults(Some(TimeseriesCall), [], dl, tl) == [("limit", IntToString(tl))];
    HrefLimit(url, IntToString(tl));
  }

  lemma PagedSuffix(n: int)
    ensures '/' !in "?limit=" + IntToString(n) + "&offset=0" && ("?limit=" + IntToString(n) + "&offset=0")[0] == '?'
    ensures '/' !in "?limit=" + IntToString(n) && ("?limit=" + IntToString(n))[0] == '?'
  {
    NumberIsPlain(n);
  }

  /** The app parameters for a URL whose path starts with an `entity` segment
      are those of the entity branch. */
  lemma AppParamsOfEntityPath(p: string, baseUrl: string, url: string, segs: seq<string>)
    requires p != "" && ApiPath(baseUrl, url) == Some(segs) && |segs| >= 1 && segs[0] == "entity"
    ensures AppParams(Some(p), baseUrl, url) == EntityParams([(POLICY_PARAM, p)], segs)
  {
    PolicyParamsOf(p);
    assert !StartsWith("entity", "catalog");
  }

  /** The app parameters for a catalog URL whose query holds `q`. */
  lemma AppParamsOfCatalogPath(p: string, baseUrl: string, url: string, c: string)
    requires p != "" && c != "" && ApiPath(baseUrl, url).Some?
    requires StartsWith(ApiPath(baseUrl, url).value[0], "catalog")
    requires GetParam(ParseUrl(url).query, CATALOG_PARAM) == Some(c)
    ensures AppParams(Some(p), baseUrl, url) == Ok([(POLICY_PARAM, p), (CATALOG_PARAM, c)])
  {
    PolicyParamsOf(p);
    OnlyPolicy(p);
    MergeAppends([(POLICY_PARAM, p)], CATALOG_PARAM, c);
    assert [(POLICY_PARAM, p)] + [(CATALOG_PARAM, c)] == [(POLICY_PARAM, p), (CATALOG_PARAM, c)];
  }

  /** The entity-type URL `handleUrlParams` builds and the URL fetched for it. */
  lemma EntityTypeUrlType(baseUrl: string, et: string)
    requires Segment(et)
    ensures ApiPath(baseUrl, baseUrl + "/entity/" + et) == Some(["entity", et])
    ensures BbkUrlType(baseUrl, baseUrl + "/entity/" + et) == Some(EntityTypeCall)
  {
    EntityTypeUrlParts(baseUrl, et);
    ApiPathOfJoin(baseUrl, ["entity", et]);
  }

  lemma EntityTypeUrls(baseUrl: string, et: string, dl: int, tl: int)
    requires '?' !in baseUrl && Segment(et)
    ensures BbkUrlType(baseUrl, baseUrl + "/entity/" + et) == Some(EntityTypeCall)
    ensures ApiPath(baseUrl, FetchUrl(baseUrl, baseUrl + "/entity/" + et, dl, tl)) ==
            Some(["entity", et + ("?limit=" + IntToString(dl) + "&offset=0")])
  {
    var sfx := "?limit=" + IntToString(dl) + "&offset=0";
    EntityTypeUrlType(baseUrl, et);
    EntityTypeFetchUrl(baseUrl, et, dl, tl);
    PagedSuffix(dl);
    ApiPathOfParts(baseUrl, ["entity", et], sfx);
    WithSuffixPair("entity", et, sfx);
  }

  /** The fetched entity-type URL: the path with the paging query appended. */
  lemma EntityTypeFetchUrl(baseUrl: string, et: string, dl: int, tl: int)
    requires '?' !in baseUrl && Segment(et)
    ensures FetchUrl(baseUrl, baseUrl + "/entity/" + et, dl, tl) ==
            baseUrl + "/" + Join(["entity", et], '/') + ("?limit=" + IntToString(dl) + "&offset=0")
  {
    var url := baseUrl + "/entity/" + et;
    NotInAppend('?', baseUrl, "/entity/");
    NotInAppend('?', baseUrl + "/entity/", et);
    EntityTypeUrlType(baseUrl, et);
    FetchPagedPlainUrl(baseUrl, url, dl, tl);
    EntityTypeUrlParts(baseUrl, et);
  }

  lemma NotInAppend(c: char, a: string, b: string)
    requires c !in a && c !in b
    ensures c !in a + b
  {
  }

  lemma WithSuffixPair(a: string, b: string, sfx: string)
    ensures WithSuffix([a, b], sfx) == [a, b + sfx]
  {
  }

  /** The app parameters for a fetched entity-type URL. */
  lemma EntityTypeAppParams(p: string, baseUrl: string, fetched: string, et: string, sfx: string)
    requires p != "" && Segment(et) && (sfx == "" || sfx[0] == '?')
    requires ApiPath(baseUrl, fetched) == Some(["entity", et + sfx])
    ensures AppParams(Some(p), baseUrl, fetched) == Ok([(POLICY_PARAM, p), (ENTITY_TYPE_PARAM, et)])
  {
    AppParamsOfEntityPath(p, baseUrl, fetched, ["entity", et + sfx]);
    OnlyPolicy(p);
    EntityTypeParams([(POLICY_PARAM, p)], et, sfx);
    assert [(POLICY_PARAM, p)] + [(ENTITY_TYPE_PARAM, et)] == [(POLICY_PARAM, p), (ENTITY_TYPE_PARAM, et)];
  }

  /** Round trip for an entity type: the URL `handleUrlParams` builds is an
      entity-type call, and the app URL for the URL it fetches holds the same
      policy and entity type. */
  lemma EntityTypeRoundTrip(q: seq<Param>, baseUrl: string, dl: int, tl: int, p: string, et: string)
    requires '?' !in baseUrl
    requires GetParam(q, POLICY_PARAM) == Some(p) && p != ""
    requires !TruthyString(GetParam(q, CATALOG_PARAM))
    requires GetParam(q, ENTITY_TYPE_PARAM) == Some(et) && Segment(et)
    requires !TruthyString(GetParam(q, ENTITY_ID_PARAM))
    ensures HandleUrl(q, baseUrl) == Some(baseUrl + "/entity/" + et)
    ensures BbkUrlType(baseUrl, baseUrl + "/entity/" + et) == Some(EntityTypeCall)
    ensures AppParams(Some(p), baseUrl, FetchUrl(baseUrl, baseUrl + "/entity/" + et, dl, tl)) ==
            Ok([(POLICY_PARAM, p), (ENTITY_TYPE_PARAM, et)])
  {
    EntityTypeUrls(baseUrl, et, dl, tl);
    PagedSuffix(dl);
    EntityTypeAppParams(p, baseUrl, FetchUrl(baseUrl, baseUrl + "/entity/" + et, dl, tl), et,
                        "?limit=" + IntToString(dl) + "&offset=0");
  }

  /** The entity-instance URL `handleUrlParams` builds, fetched as it is. */
  lemma EntityInstanceUrls(baseUrl: string, et: string, id: string, dl: int, tl: int)
    requires Segment(et) && Segment(id)
    ensures ApiPath(baseUrl, baseUrl + "/entity/" + et + "/" + id) == Some(["entity", et, id])
    ensures BbkUrlType(baseUrl, baseUrl + "/entity/" + et + "/" + id) == Some(EntityInstanceCall)
    ensures FetchUrl(baseUrl, baseUrl + "/entity/" + et + "/" + id, dl, tl) == baseUrl + "/entity/" + et + "/" + id
  {
    var parts := ["entity", et, id];
    EntityInstanceUrlParts(baseUrl, et, id);
    ApiPathOfJoin(baseUrl, parts);
  }

  /** Round trip for an entity instance. */
  lemma EntityInstanceRoundTrip(q: seq<Param>, baseUrl: string, dl: int, tl: int, p: string, et: string, id: string)
    requires GetParam(q, POLICY_PARAM) == Some(p) && p != ""
    requires !TruthyString(GetParam(q, CATALOG_PARAM))
    requires GetParam(q, ENTITY_TYPE_PARAM) == Some(et) && Segment(et)
    requires GetParam(q, ENTITY_ID_PARAM) == Some(id) && Segment(id)
    requires !TruthyString(GetParam(q, TIMESERIES_PARAM))
    ensures HandleUrl(q, baseUrl) == Some(baseUrl + "/entity/" + et + "/" + id)
    ensures BbkUrlType(baseUrl, baseUrl + "/entity/" + et + "/" + id) == Some(EntityInstanceCall)
    ensures AppParams(Some(p), baseUrl, FetchUrl(baseUrl, baseUrl + "/entity/" + et + "/" + id, dl, tl)) ==
            Ok([(POLICY_PARAM, p), (ENTITY_TYPE_PARAM, et), (ENTITY_ID_PARAM, id)])
  {
    EntityInstanceUrls(baseUrl, et, id, dl, tl);
    EntityInstanceAppParams(p, baseUrl, baseUrl + "/entity/" + et + "/" + id, et, id);
  }

  /** The app parameters for a fetched entity-instance URL. */
  lemma EntityInstanceAppParams(p: string, baseUrl: string, fetched: string, et: string, id: string)
    requires p != "" && Segment(et) && Segment(id)
    requires ApiPath(baseUrl, fetched) == Some(["entity", et, id])
    ensures AppParams(Some(p), baseUrl, fetched) == Ok([(POLICY_PARAM, p), (ENTITY_TYPE_PARAM, et), (ENTITY_ID_PARAM, id)])
  {
    AppParamsOfEntityPath(p, baseUrl, fetched, ["entity", et, id]);
    OnlyPolicy(p);
    EntityInstanceParams([(POLICY_PARAM, p)], et, id);
    assert [(POLICY_PARAM, p)] + [(ENTITY_TYPE_PARAM, et), (ENTITY_ID_PARAM, id)] ==
           [(POLICY_PARAM, p), (ENTITY_TYPE_PARAM, et), (ENTITY_ID_PARAM, id)];
  }

  /** The timeseries URL `handleUrlParams` builds and the URL fetched for it. */
  lemma TimeseriesUrlType(baseUrl: string, et: string, id: string, ts: string)
    requires Segment(et) && Segment(id) && Segment(ts)
    ensures BbkUrlType(baseUrl, baseUrl + "/entity/" + et + "/" + id + "/timeseries/" + ts) == Some(TimeseriesCall)
  {
    TimeseriesUrlParts(baseUrl, et, id, ts);
    ApiPathOfJoin(baseUrl, ["entity", et, id, "timeseries", ts]);
    assert StartsWith("timeseries", "timeseries");
  }

  lemma TimeseriesUrls(baseUrl: string, et: string, id: string, ts: string, dl: int, tl: int)
    requires '?' !in baseUrl && Segment(et) && Segment(id) && Segment(ts)
    ensures BbkUrlType(baseUrl, baseUrl + "/entity/" + et + "/" + id + "/timeseries/" + ts) == Some(TimeseriesCall)
    ensures FetchUrl(baseUrl, baseUrl + "/entity/" + et + "/" + id + "/timeseries/" + ts, dl, tl) ==
            baseUrl + "/" + Join(["entity", et, id, "timeseries", ts], '/') + ("?limit=" + IntToString(tl))
  {
    var url := baseUrl + "/entity/" + et + "/" + id + "/timeseries/" + ts;
    TimeseriesUrlType(baseUrl, et, id, ts);
    PlainTimeseriesUrl(baseUrl, et, id, ts);
    FetchTimeseriesPlainUrl(baseUrl, url, dl, tl);
    TimeseriesUrlParts(baseUrl, et, id, ts);
  }

  lemma PlainTimeseriesUrl(baseUrl: string, et: string, id: string, ts: string)
    requires '?' !in baseUrl && Segment(et) && Segment(id) && Segment(ts)
    ensures '?' !in baseUrl + "/entity/" + et + "/" + id + "/timeseries/" + ts
  {
    var x := baseUrl + "/entity/" + et;
    NotInAppend('?', baseUrl, "/entity/");
    NotInAppend('?', baseUrl + "/entity/", et);
    NotInAppend('?', x, "/");
    NotInAppend('?', x + "/", id);
    NotInAppend('?', x + "/" + id, "/timeseries/");
    NotInAppend('?', x + "/" + id + "/timeseries/", ts);
  }

  /** The timeseries name of a URL whose last segment is a name without `?`
      followed by a query. */
  lemma ExtractNameOfParts(baseUrl: string, parts: seq<string>, sfx: string)
    requires |parts| >= 1 && '/' !in sfx && sfx != [] && sfx[0] == '?' && '?' !in parts[|parts| - 1]
    requires forall i | 0 <= i < |parts| :: '/' !in parts[i]
    ensures ExtractTimeSeriesName(baseUrl + "/" + Join(parts, '/') + sfx) == parts[|parts| - 1]
  {
    LastSegmentOfParts(baseUrl, parts, sfx);
    CutAtQueryOfSuffix(parts[|parts| - 1], sfx);
    assert '?' in parts[|parts| - 1] + sfx by {
      assert (parts[|parts| - 1] + sfx)[|parts[|parts| - 1]|] == '?';
    }
  }

  /** The segments and the timeseries name of a fetched timeseries URL. */
  lemma TimeseriesFetched(baseUrl: string, et: string, id: string, ts: string, sfx: string)
    requires Segment(et) && Segment(id) && Segment(ts) && '/' !in sfx && sfx != [] && sfx[0] == '?'
    ensures var fetched := baseUrl + "/" + Join(["entity", et, id, "timeseries", ts], '/') + sfx;
            && ApiPath(baseUrl, fetched) == Some(["entity", et, id, "timeseries", ts + sfx])
            && ExtractTimeSeriesName(fetched) == ts
  {
    var parts := ["entity", et, id, "timeseries", ts];
    ApiPathOfParts(baseUrl, parts, sfx);
    assert WithSuffix(parts, sfx) == ["entity", et, id, "timeseries", ts + sfx];
    ExtractNameOfParts(baseUrl, parts, sfx);
  }

  /** The app parameters for a fetched timeseries URL. */
  lemma TimeseriesAppParams(p: string, baseUrl: string, fetched: string, et: string, id: string, ts: string, sfx: string)
    requires p != "" && Segment(et) && Segment(id) && Segment(ts) && (sfx == "" || sfx[0] == '?')
    requires ApiPath(baseUrl, fetched) == Some(["entity", et, id, "timeseries", ts + sfx])
    ensures AppParams(Some(p), baseUrl, fetched) ==
            Ok([(POLICY_PARAM, p), (ENTITY_TYPE_PARAM, et), (ENTITY_ID_PARAM, id), (TIMESERIES_PARAM, ts)])
  {
    AppParamsOfEntityPath(p, baseUrl, fetched, ["entity", et, id, "timeseries", ts + sfx]);
    OnlyPolicy(p);
    TimeseriesParams([(POLICY_PARAM, p)], et, id, ts, sfx);
    assert [(POLICY_PARAM, p)] + [(ENTITY_TYPE_PARAM, et), (ENTITY_ID_PARAM, id), (TIMESERIES_PARAM, ts)] ==
           [(POLICY_PARAM, p), (ENTITY_TYPE_PARAM, et), (ENTITY_ID_PARAM, id), (TIMESERIES_PARAM, ts)];
  }

  /** Round trip for a timeseries; the name the app shows for the fetched URL
      is the one it asked for. */
  lemma TimeseriesRoundTrip(q: seq<Param>, baseUrl: string, dl: int, tl: int, p: string, et: string, id: string, ts: string)
    requires '?' !in baseUrl
    requires GetParam(q, POLICY_PARAM) == Some(p) && p != ""
    requires !TruthyString(GetParam(q, CATALOG_PARAM))
    requires GetParam(q, ENTITY_TYPE_PARAM) == Some(et) && Segment(et)
    requires GetParam(q, ENTITY_ID_PARAM) == Some(id) && Segment(id)
    requires GetParam(q, TIMESERIES_PARAM) == Some(ts) && Segment(ts)
    ensures HandleUrl(q, baseUrl) == Some(baseUrl + "/entity/" + et + "/" + id + "/timeseries/" + ts)
    ensures BbkUrlType(baseUrl, baseUrl + "/entity/" + et + "/" + id + "/timeseries/" + ts) == Some(TimeseriesCall)
    ensures AppParams(Some(p), baseUrl, FetchUrl(baseUrl, baseUrl + "/entity/" + et + "/" + id + "/timeseries/" + ts, dl, tl)) ==
            Ok([(POLICY_PARAM, p), (ENTITY_TYPE_PARAM, et), (ENTITY_ID_PARAM, id), (TIMESERIES_PARAM, ts)])
    ensures ExtractTimeSeriesName(FetchUrl(baseUrl, baseUrl + "/entity/" + et + "/" + id + "/timeseries/" + ts, dl, tl)) == ts
  {
    var sfx := "?limit=" + IntToString(tl);
    TimeseriesUrls(baseUrl, et, id, ts, dl, tl);
    PagedSuffix(tl);
    TimeseriesFetched(baseUrl, et, id, ts, sfx);
    TimeseriesAppParams(p, baseUrl, FetchUrl(baseUrl, baseUrl + "/entity/" + et + "/" + id + "/timeseries/" + ts, dl, tl),
                        et, id, ts, sfx);
  }

  /** The first segment of a catalog path starts with `catalog`. */
  lemma CatalogFirstSegment(rest: string)
    ensures StartsWith(Split("catalog?" + rest, '/')[0], "catalog")
  {
    var s := "catalog?" + rest;
    SplitFirst(s, '/');
    assert s[..7] == "catalog";
  }

  lemma CatalogUrlShape(baseUrl: string, c: string)
    ensures baseUrl + "/catalog?q=" + c == Href(Url(baseUrl + "/catalog", [(CATALOG_PARAM, c)]))
    ensures baseUrl + "/catalog?q=" + c == baseUrl + "/" + ("catalog?" + PartOf((CATALOG_PARAM, c)))
  {
    assert Parts([(CATALOG_PARAM, c)]) == [PartOf((CATALOG_PARAM, c))];
  }

  /** The catalog URL `handleUrlParams` builds, parsed. */
  lemma CatalogUrlParsed(baseUrl: string, c: string)
    requires '?' !in baseUrl && '&' !in c
    ensures ParseUrl(baseUrl + "/catalog?q=" + c) == Url(baseUrl + "/catalog", [(CATALOG_PARAM, c)])
    ensures BbkUrlType(baseUrl, baseUrl + "/catalog?q=" + c) == Some(CatalogCall)
  {
    CatalogUrlShape(baseUrl, c);
    ParseHref(Url(baseUrl + "/catalog", [(CATALOG_PARAM, c)]));
    ApiPathUnder(baseUrl, "catalog?" + PartOf((CATALOG_PARAM, c)));
    CatalogFirstSegment(PartOf((CATALOG_PARAM, c)));
  }

  lemma CatalogDefaults(c: string, dl: int, tl: int)
    ensures WithPagingDefaults(Some(CatalogCall), [(CATALOG_PARAM, c)], dl, tl) ==
            [(CATALOG_PARAM, c), ("limit", IntToString(dl)), ("offset", "0")]
  {
    var p1 := [(CATALOG_PARAM, c), ("limit", IntToString(dl))];
    assert !HasParam([(CATALOG_PARAM, c)], "limit");
    assert SetParam([(CATALOG_PARAM, c)], "limit", IntToString(dl)) == p1;
    assert !HasParam(p1, "offset");
  }

  lemma CatalogFetchedShape(baseUrl: string, ps: seq<Param>)
    requires ps != []
    ensures Href(Url(baseUrl + "/catalog", ps)) == baseUrl + "/" + ("catalog?" + Join(Parts(ps), '&'))
  {
  }

  /** The URL fetched for a catalog query: the query with the paging defaults. */
  lemma CatalogFetched(baseUrl: string, c: string, dl: int, tl: int)
    requires '?' !in baseUrl && '&' !in c
    ensures FetchUrl(baseUrl, baseUrl + "/catalog?q=" + c, dl, tl) ==
            Href(Url(baseUrl + "/catalog", [(CATALOG_PARAM, c), ("limit", IntToString(dl)), ("offset", "0")]))
  {
    CatalogUrlParsed(baseUrl, c);
    CatalogDefaults(c, dl, tl);
  }

  /** The fetched catalog URL is a catalog call whose `q` is the query. */
  lemma CatalogFetchedParsed(baseUrl: string, c: string, dl: int)
    requires '?' !in baseUrl && '&' !in c
    ensures var fetched := Href(Url(baseUrl + "/catalog", [(CATALOG_PARAM, c), ("limit", IntToString(dl)), ("offset", "0")]));
            && ApiPath(baseUrl, fetched).Some? && StartsWith(ApiPath(baseUrl, fetched).value[0], "catalog")
            && GetParam(ParseUrl(fetched).query, CATALOG_PARAM) == Some(c)
  {
    var ps := [(CATALOG_PARAM, c), ("limit", IntToString(dl)), ("offset", "0")];
    NumberIsPlain(dl);
    ParseHref(Url(baseUrl + "/catalog", ps));
    CatalogFetchedShape(baseUrl, ps);
    ApiPathUnder(baseUrl, "catalog?" + Join(Parts(ps), '&'));
    CatalogFirstSegment(Join(Parts(ps), '&'));
  }

  /** Round trip for a catalog query, which takes precedence over any entity
      parameters: the app URL for the fetched URL holds the same policy and
      query. */
  lemma CatalogRoundTrip(q: seq<Param>, baseUrl: string, dl: int, tl: int, p: string, c: string)
    requires '?' !in baseUrl
    requires GetParam(q, POLICY_PARAM) == Some(p) && p != ""
    requires GetParam(q, CATALOG_PARAM) == Some(c) && c != "" && '&' !in c
    ensures HandleUrl(q, baseUrl) == Some(baseUrl + "/catalog?q=" + c)
    ensures BbkUrlType(baseUrl, baseUrl + "/catalog?q=" + c) == Some(CatalogCall)
    ensures AppParams(Some(p), baseUrl, FetchUrl(baseUrl, baseUrl + "/catalog?q=" + c, dl, tl)) ==
            Ok([(POLICY_PARAM, p), (CATALOG_PARAM, c)])
  {
    CatalogUrlParsed(baseUrl, c);
    CatalogFetched(baseUrl, c, dl, tl);
    CatalogFetchedParsed(baseUrl, c, dl);
    AppParamsOfCatalogPath(p, baseUrl, FetchUrl(baseUrl, baseUrl + "/catalog?q=" + c, dl, tl), c);
  }

  // ----- the app -----

  /** A request the explorer sends with `fetch`. */
  datatype ApiRequest = ApiRequest(url: string, headers: seq<Param>)

  /** Whether a fetch of url disables the previous buttons: for a catalog or
      entity-type call, exactly when its offset reads as 0; None when the
      buttons are left as they are. */
  function FetchDisables(baseUrl: string, url: string, defaultLimit: int, timeseriesLimit: int): Option<bool> {
    var kind := BbkUrlType(baseUrl, url);
    if kind == Some(CatalogCall) || kind == Some(EntityTypeCall)
    then Some(OffsetIsZero(WithPagingDefaults(kind, ParseUrl(url).query, defaultLimit, timeseriesLimit)))
    else None
  }

  /** The paging defaults of `consumerAPIFetch`: the URL to fetch and, for a
      catalog or entity-type call, whether the previous buttons are disabled. */
  method FetchTarget(baseUrl: string, url: string, defaultLimit: int, timeseriesLimit: int)
    returns (target: string, disabled: Option<bool>)
    ensures target == FetchUrl(baseUrl, url, defaultLimit, timeseriesLimit)
    ensures disabled == FetchDisables(baseUrl, url, defaultLimit, timeseriesLimit)
  {
    var kind := BbkUrlType(baseUrl, url);
    target := url;
    disabled := None;
    if kind == Some(CatalogCall) || kind == Some(EntityTypeCall) {
      var u := ParseUrl(url);
      var ps := new SearchParams(u.query);
      if !HasParam(ps.pairs, "limit") {
        ps.Set("limit", IntToString(defaultLimit));
      }
      if !HasParam(ps.pairs, "offset") {
        ps.Set("offset", "0");
      }
      assert ps.pairs == WithPagingDefaults(kind, u.query, defaultLimit, timeseriesLimit);
      PagingDefaultsFillGaps(kind, u.query, defaultLimit, timeseriesLimit, "offset");
      target := Href(Url(u.address, ps.pairs));
      if HasParam(ps.pairs, "offset") {
        disabled := Some(ParseInt(GetParam(ps.pairs, "offset").value) == Some(0));
      }
    }
    if kind == Some(TimeseriesCall) {
      var u := ParseUrl(url);
      var ps := new SearchParams(u.query);
      if !HasParam(ps.pairs, "limit") {
        ps.Set("limit", IntToString(timeseriesLimit));
      }
      target := Href(Url(u.address, ps.pairs));
    }
  }

  /** The offset arithmetic of `page(up)` on a catalog or entity-type query. */
  method PagedParams(q: seq<Param>, up: bool, limit: int) returns (r: seq<Param>)
    ensures r == PagedQuery(q, up, limit)
  {
    var ps := new SearchParams(q);
    var offset := NextOffset(ps.pairs, up, limit);
    ps.Set("offset", NumberString(offset));
    ps.Set("limit", IntToString(limit));
    r := ps.pairs;
  }

  /** The offset arithmetic itself: the current offset, 0 when absent, moved
      by the limit and kept at least 0 going down. */
  method NextOffset(pairs: seq<Param>, up: bool, limit: int) returns (offset: Option<int>)
    ensures offset == PageOffset(GetParam(pairs, "offset"), up, limit)
  {
    var start: Option<int> := Some(0);
    if HasParam(pairs, "offset") {
      start := ParseInt(GetParam(pairs, "offset").value);
    }
    offset := MoveBy(start, up, limit);
    PageOffsetFromStart(GetParam(pairs, "offset"), start, up, limit);
  }

  /** The parameters a built parameter list holds, or the error. */
  function PairsOf(r: Result<SearchParams, string>): Result<seq<Param>, string>
    reads if r.Ok? then {r.value} else {}
  {
    if r.Ok? then Ok(r.value.pairs) else Err(r.error)
  }

  /** `PageOffset` is the start offset moved by the limit. */
  lemma PageOffsetFromStart(offset: Option<string>, start: Option<int>, up: bool, limit: int)
    requires start == StartOffset(offset)
    ensures PageOffset(offset, up, limit) == MoveOffset(start, up, limit)
  {
  }

  /** Moving a start offset by the limit; `NaN` stays `NaN`. */
  method MoveBy(start: Option<int>, up: bool, limit: int) returns (offset: Option<int>)
    ensures offset == MoveOffset(start, up, limit)
    ensures offset.None? <==> start.None?
    ensures start.Some? && up ==> offset == Some(start.value + limit)
    ensures start.Some? && !up ==> offset == Some(if start.value - limit < 0 then 0 else start.value - limit)
  {
    offset := start;
    if offset.Some? {
      if up {
        offset := Some(offset.value + limit);
      } else {
        offset := Some(offset.value - limit);
        if offset.value < 0 {
          offset := Some(0);
        }
      }
    }
  }

  /** The URL `page(up)` fetches next. */
  method NextPageUrl(baseUrl: string, previousUrl: string, up: bool, limit: int) returns (next: string)
    ensures next == PagedUrl(baseUrl, previousUrl, up, limit)
  {
    var u := ParseUrl(previousUrl);
    var kind := BbkUrlType(baseUrl, previousUrl);
    var q := u.query;
    if kind == Some(CatalogCall) || kind == Some(EntityTypeCall) {
      q := PagedParams(u.query, up, limit);
    }
    next := Href(Url(u.address, q));
  }

  class Explorer {
    const baseUrl: string
    const devShimMode: bool
    const defaultLimit: int
    const timeseriesLimit: int
    var myToken: Option<string>
    var myPolicy: Option<string>
    var previousUrl: string
    var previousDisabled: bool
    var location: seq<Param>
    var requests: seq<ApiRequest>

    /** The app once its configuration is loaded: `baseURL` and `devShimMode`
        come from the configuration and the limit from the limit input. */
    constructor (baseUrl: string, devShimMode: bool, defaultLimit: int, location: seq<Param>)
      ensures this.baseUrl == baseUrl && this.devShimMode == devShimMode
      ensures this.defaultLimit == defaultLimit && timeseriesLimit == TIMESERIES_LIMIT
      ensures myToken.None? && myPolicy.None? && previousUrl == "" && !previousDisabled
      ensures this.location == location && requests == []
    {
      this.baseUrl := baseUrl;
      this.devShimMode := devShimMode;
      this.defaultLimit := defaultLimit;
      timeseriesLimit := TIMESERIES_LIMIT;
      myToken := None;
      myPolicy := None;
      previousUrl := "";
      previousDisabled := false;
      this.location := location;
      requests := [];
    }

    /** Clicking a policy in the drop-down: its token and id become current. */
    method SelectPolicy(token: Option<string>, id: Option<string>)
      modifies this
      ensures myToken == token && myPolicy == id
      ensures previousUrl == old(previousUrl) && previousDisabled == old(previousDisabled)
      ensures location == old(location) && requests == old(requests)
    {
      myToken := token;
      myPolicy := id;
    }

    /** A new value typed into the token input becomes the token. */
    method TokenChanged(value: string)
      modifies this
      ensures myToken == Some(value) && myPolicy == old(myPolicy)
      ensures previousUrl == old(previousUrl) && previousDisabled == old(previousDisabled)
      ensures location == old(location) && requests == old(requests)
    {
      myToken := Some(value);
    }

    /** `bbkUrltoAppUrl(bbkUrl)`: a fresh parameter list for the app URL. */
    method BbkUrlToAppUrl(bbkUrl: string) returns (r: Result<SearchParams, string>)
      ensures r.Ok? ==> fresh(r.value)
      ensures PairsOf(r) == AppParams(myPolicy, baseUrl, bbkUrl)
    {
      var app := new SearchParams(location);
      ClearParams(app);
      app.Delete(CATALOG_PARAM);
      MergeQueryParam(app, POLICY_PARAM, myPolicy);
      if StartsWith(bbkUrl, baseUrl) {
        var nonBase := bbkUrl[|baseUrl|..];
        if StartsWith(nonBase, "/") {
          nonBase := nonBase[1..];
        }
        var segs := Split(nonBase, '/');
        if StartsWith(segs[0], "catalog") {
          var query := ParseUrl(bbkUrl).query;
          if HasParam(query, CATALOG_PARAM) {
            MergeQueryParam(app, CATALOG_PARAM, GetParam(query, CATALOG_PARAM));
          }
        } else if StartsWith(segs[0], ENTITY_TYPE_PARAM) {
          if |segs| < 2 {
            return Err(UNDEFINED_SEGMENT);
          }
          MergeQueryParam(app, ENTITY_TYPE_PARAM, Some(CutAtQuery(segs[1])));
          if |segs| > 2 {
            MergeQueryParam(app, ENTITY_ID_PARAM, Some(CutAtQuery(segs[2])));
            if |segs| > 4 && StartsWith(segs[3], "timeseries") {
              MergeQueryParam(app, TIMESERIES_PARAM, Some(CutAtQuery(segs[4])));
            }
          }
        }
      }
      return Ok(app);
    }

    /** The state of the previous buttons after a fetch of url. */
    twostate predicate PreviousFollows(url: string)
      reads this
    {
      var d := FetchDisables(baseUrl, url, defaultLimit, timeseriesLimit);
      previousDisabled == if d.Some? then d.value else old(previousDisabled)
    }

    /** The effect of `consumerAPIFetch(url)` up to the `fetch`: the previous
        buttons follow the offset; unless building the app URL throws, the
        address bar shows the app URL, the fetched URL becomes `previousUrl`
        and the request is sent. */
    twostate predicate Fetched(url: string, new r: Result<(), string>)
      reads this
    {
      && myToken == old(myToken) && myPolicy == old(myPolicy)
      && PreviousFollows(url)
      && FetchOutcome(url, r)
    }

    /** Unless building the app URL for the fetched URL throws, the address
        bar shows it, the fetched URL becomes `previousUrl` and the request is
        sent. */
    twostate predicate FetchOutcome(url: string, new r: Result<(), string>)
      reads this
    {
      var target := FetchUrl(baseUrl, url, defaultLimit, timeseriesLimit);
      var app := AppParams(myPolicy, baseUrl, target);
      && (app.Err? ==> r == Err(app.error) && location == old(location) &&
                       previousUrl == old(previousUrl) && requests == old(requests))
      && (app.Ok? ==> r == Ok(()) && location == app.value && previousUrl == target &&
                      requests == old(requests) + [ApiRequest(target, FetchHeaders(myToken, myPolicy, devShimMode))])
    }

    /** `consumerAPIFetch(url)` up to the `fetch`; rendering the response is
        not modelled. */
    method ConsumerApiFetch(url: string) returns (r: Result<(), string>)
      modifies this
      ensures myToken == old(myToken) && myPolicy == old(myPolicy)
      ensures PreviousFollows(url)
      ensures FetchOutcome(url, r)
    {
      var headers := FetchHeaders(myToken, myPolicy, devShimMode);
      var target, disabled := FetchTarget(baseUrl, url, defaultLimit, timeseriesLimit);
      previousDisabled := if disabled.Some? then disabled.value else previousDisabled;
      var app := BbkUrlToAppUrl(target);
      if app.Err? {
        r := Err(app.error);
      } else {
        location := app.value.pairs;
        previousUrl := target;
        requests := requests + [ApiRequest(target, headers)];
        r := Ok(());
      }
    }

    /** `page(up)` on the previous URL: catalog and entity-type calls move
        their offset; other calls are fetched again as they are. */
    method Page(up: bool) returns (r: Result<(), string>)
      requires BbkUrlType(baseUrl, previousUrl) != Some(TimeseriesCall)
      modifies this
      ensures Fetched(PagedUrl(baseUrl, old(previousUrl), up, defaultLimit), r)
    {
      var next := NextPageUrl(baseUrl, previousUrl, up, defaultLimit);
      r := ConsumerApiFetch(next);
    }

    /** `handleUrlParams()`: with a policy in the address bar, the Consumer
        API URL its parameters describe is fetched. */
    method HandleUrlParams() returns (r: Option<Result<(), string>>)
      modifies this
      ensures HandleUrl(old(location), baseUrl).None? ==> r.None? && unchanged(this)
      ensures HandleUrl(old(location), baseUrl).Some? ==> r.Some? && Fetched(HandleUrl(old(location), baseUrl).value, r.value)
    {
      var url := HandleUrl(location, baseUrl);
      if url.None? {
        return None;
      }
      var f := ConsumerApiFetch(url.value);
      return Some(f);
    }
  }
}
