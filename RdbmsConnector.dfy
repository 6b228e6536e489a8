/** The database connector (connectors/nodejs/rdbms/index.js): it turns stored
    records into catalog records, filters them by category and uploads them
    in a stream session, and answers the webhook's entity lookups (optionally
    enriched with a flag from wikidata) and population timeseries lookups.

    The database, the wikidata service, `moment`'s date parsing and knex's
    integer parsing are parameters: the rows a query returns (None when the
    query fails), a function from the `_wikidata` reference to the fetch
    outcome, and parsing functions. */
module RdbmsConnector {
  import opened Js
  import opened Text
  import opened Sorting
  import Catalog
  import Webhook

  /** ENTITY_REF_CID, ENTITY_REF_PROP and FILTER from the environment. */
  datatype Config = Config(refCid: Option<string>, refProp: Option<string>, filter: Option<string>)

  /** The `id` column: an integer or a text key. */
  datatype RowId = IntId(n: int) | TextId(s: string)

  /** A row of `select('id', 'properties')`. */
  datatype DbRecord = DbRecord(id: RowId, properties: Object)

  /** `record.id.toString()`. */
  function IdString(id: RowId): string {
    match id
    case IntId(n) => IntToString(n)
    case TextId(s) => s
  }

  const BBK_SCHEME := "bbk://"
  const CID_PLACEHOLDER := "{cid}"
  const WIKIDATA := "_wikidata"
  const FILTER_NATURAL := "CATEGORY_EQ_NATURAL"
  const FILTER_CULTURAL := "CATEGORY_EQ_CULTURAL"
  const POPULATION := "population"

  /** Both ENTITY_REF_CID and ENTITY_REF_PROP are set. */
  predicate RewritesRefs(cfg: Config) {
    TruthyString(cfg.refCid) && TruthyString(cfg.refProp)
  }

  /** The reference rewrite: a truthy property value that starts with
      `bbk://` gets its first `{cid}` replaced. A truthy value that is not a
      string throws: `indexOf` is missing on numbers, booleans and objects,
      and on an array whose first element is `"bbk://"` the prefix test passes
      but `replace` is missing. */
  function RewriteRef(props: Object, key: string, cid: string): (r: Result<Object, string>)
    ensures r.Ok? ==> r.value.Keys == props.Keys
    ensures r.Ok? ==> forall k | k in props && k != key :: r.value[k] == props[k]
    ensures r.Ok? && key in props && r.value[key] != props[key] ==>
              props[key].JStr? && BBK_SCHEME <= props[key].s
    ensures key in props && props[key].JStr? && BBK_SCHEME <= props[key].s ==>
              r == Ok(props[key := JStr(ReplaceFirst(props[key].s, CID_PLACEHOLDER, cid))])
    ensures r.Err? <==>
              key in props && TruthyJson(props[key]) && !props[key].JStr?
              && (props[key].JArr? ==> |props[key].items| > 0 && props[key].items[0] == JStr(BBK_SCHEME))
  {
    if key !in props || !TruthyJson(props[key]) then Ok(props)
    else
      match props[key]
      case JStr(s) =>
        IndexOfZeroIsPrefix(s, BBK_SCHEME);
        if IndexOf(s, BBK_SCHEME) == 0 then Ok(props[key := JStr(ReplaceFirst(s, CID_PLACEHOLDER, cid))])
        else Ok(props)
      case JArr(items) =>
        if |items| > 0 && items[0] == JStr(BBK_SCHEME) then Err("TypeError: prop.replace is not a function")
        else Ok(props)
      case _ => Err("TypeError: prop.indexOf is not a function")
  }

  /** `recordToBBKData`: the properties with `id` stamped as the string form
      of the record id, the reference rewritten when configured, and
      `_wikidata` dropped. */
  function RecordToBBKData(cfg: Config, rec: DbRecord): (r: Result<Object, string>)
    ensures r.Ok? ==> WIKIDATA !in r.value
    ensures r.Ok? ==> r.value.Keys == (rec.properties.Keys + {"id"}) - {WIKIDATA}
    ensures r.Ok? && !(RewritesRefs(cfg) && cfg.refProp.value == "id") ==>
              r.value["id"] == JStr(IdString(rec.id))
    ensures r.Ok? ==>
              forall k | k in rec.properties && k != "id" && k != WIKIDATA
                         && !(RewritesRefs(cfg) && k == cfg.refProp.value) :: r.value[k] == rec.properties[k]
    ensures !RewritesRefs(cfg) ==> r.Ok?
  {
    var stamped := rec.properties["id" := JStr(IdString(rec.id))];
    var rewritten := if RewritesRefs(cfg) then RewriteRef(stamped, cfg.refProp.value, cfg.refCid.value) else Ok(stamped);
    match rewritten
    case Err(e) => Err(e)
    case Ok(props) => Ok(props - {WIKIDATA})
  }

  /** With both variables set, a `bbk://` reference the record holds has its
      first `{cid}` replaced by ENTITY_REF_CID, and nothing else about it
      changes. */
  lemma RecordRefRewritten(cfg: Config, rec: DbRecord, s: string)
    requires RewritesRefs(cfg)
    requires cfg.refProp.value != "id" && cfg.refProp.value != WIKIDATA
    requires cfg.refProp.value in rec.properties && rec.properties[cfg.refProp.value] == JStr(s)
    requires BBK_SCHEME <= s
    ensures RecordToBBKData(cfg, rec).Ok?
    ensures RecordToBBKData(cfg, rec).value[cfg.refProp.value]
            == JStr(ReplaceFirst(s, CID_PLACEHOLDER, cfg.refCid.value))
  {
    var stamped := rec.properties["id" := JStr(IdString(rec.id))];
    assert stamped[cfg.refProp.value] == JStr(s);
  }

  /** `i.entity.category`: a missing or `null` `entity` throws; a value with
      no `category` property reads as undefined. */
  function CategoryOf(item: Object): (r: Result<Option<Json>, string>)
    ensures r.Err? <==> "entity" !in item || item["entity"] == JNull
  {
    if "entity" !in item || item["entity"] == JNull then Err("TypeError: cannot read category")
    else match item["entity"]
      case JObj(f) => Ok(Get(f, "category"))
      case _ => Ok(None)
  }

  /** `v == w` for a word w of lower-case letters: only a string equal to w,
      or an array whose comma-joined form is w, compares equal (numbers and
      booleans convert w to NaN, objects print as `[object Object]`). */
  predicate LooselyEqualsWord(v: Option<Json>, w: string) {
    v.Some? &&
    match v.value
    case JStr(s) => s == w
    case JArr(items) => ArrayToJsString(items) == w
    case _ => false
  }

  predicate InCategory(w: string, item: Object) {
    CategoryOf(item).Ok? && LooselyEqualsWord(CategoryOf(item).value, w)
  }

  function CategoryTest(w: string): Object -> bool {
    item => InCategory(w, item)
  }

  /** `items.filter(i => i.entity.category == w)`, which throws at the first
      item whose `entity` is missing or null. */
  function KeepCategory(items: seq<Object>, w: string): Result<seq<Object>, string> {
    if items == [] then Ok([])
    else match CategoryOf(items[0])
      case Err(e) => Err(e)
      case Ok(c) =>
        match KeepCategory(items[1..], w)
        case Err(e) => Err(e)
        case Ok(rest) => Ok(if LooselyEqualsWord(c, w) then [items[0]] + rest else rest)
  }

  /** The category filter fails exactly when some item has no `entity`, and
      otherwise keeps, in order, exactly the items of that category. */
  lemma {:induction false} KeepCategoryIsFilter(items: seq<Object>, w: string)
    ensures KeepCategory(items, w).Ok? <==> forall i | 0 <= i < |items| :: CategoryOf(items[i]).Ok?
    ensures KeepCategory(items, w).Ok? ==> KeepCategory(items, w).value == Filter(items, CategoryTest(w))
  {
    if items != [] {
      KeepCategoryIsFilter(items[1..], w);
      assert forall i | 1 <= i < |items| :: items[1..][i - 1] == items[i];
      assert CategoryTest(w)(items[0]) == InCategory(w, items[0]);
    }
  }

  /** The FILTER step of `upsert`. */
  function FilterItems(cfg: Config, items: seq<Object>): (r: Result<seq<Object>, string>)
    ensures cfg.filter != Some(FILTER_NATURAL) && cfg.filter != Some(FILTER_CULTURAL) ==> r == Ok(items)
    ensures cfg.filter == Some(FILTER_NATURAL) ==> r == KeepCategory(items, "natural")
    ensures cfg.filter == Some(FILTER_CULTURAL) ==> r == KeepCategory(items, "cultural")
  {
    if cfg.filter == Some(FILTER_NATURAL) then KeepCategory(items, "natural")
    else if cfg.filter == Some(FILTER_CULTURAL) then KeepCategory(items, "cultural")
    else Ok(items)
  }

  /** `json.map(recordToBBKData)`, which throws at the first failing record. */
  function MapRecords(cfg: Config, rows: seq<DbRecord>): (r: Result<seq<Object>, string>)
    ensures r.Ok? <==> forall i | 0 <= i < |rows| :: RecordToBBKData(cfg, rows[i]).Ok?
    ensures r.Ok? ==> |r.value| == |rows|
    ensures r.Ok? ==> forall i | 0 <= i < |rows| :: r.value[i] == RecordToBBKData(cfg, rows[i]).value
  {
    if rows == [] then Ok([])
    else
      assert forall i | 1 <= i < |rows| :: rows[1..][i - 1] == rows[i];
      match RecordToBBKData(cfg, rows[0])
      case Err(e) => Err(e)
      case Ok(first) =>
        match MapRecords(cfg, rows[1..])
        case Err(e) => Err(e)
        case Ok(rest) => Ok([first] + rest)
  }

  /** The items `upsert` uploads: every record normalised, then filtered. */
  function UpsertItems(cfg: Config, rows: seq<DbRecord>): Result<seq<Object>, string> {
    match MapRecords(cfg, rows)
    case Err(e) => Err(e)
    case Ok(items) => FilterItems(cfg, items)
  }

  /** Without a category filter every record is uploaded, in order. */
  lemma UnfilteredUploadsEveryRecord(cfg: Config, rows: seq<DbRecord>)
    requires !RewritesRefs(cfg)
    requires cfg.filter != Some(FILTER_NATURAL) && cfg.filter != Some(FILTER_CULTURAL)
    ensures UpsertItems(cfg, rows).Ok?
    ensures |UpsertItems(cfg, rows).value| == |rows|
    ensures forall i | 0 <= i < |rows| :: UpsertItems(cfg, rows).value[i] == RecordToBBKData(cfg, rows[i]).value
  {
  }

  /** `MyCatalog.upsert`: read the table, prepare the items, and stream them
      to the catalog with `upsert`. */
  method Upsert(cat: Catalog.BBKCatalog, cfg: Config, rows: Option<seq<DbRecord>>, oracle: Catalog.Oracle)
    returns (r: Catalog.UpsertResult)
    modifies cat
    ensures rows.None? || UpsertItems(cfg, rows.value).Err? ==>
              r.LoadFailed? && cat.log == old(cat.log) && cat.sid == old(cat.sid)
    ensures rows.Some? && UpsertItems(cfg, rows.value).Ok? ==>
              r.Synced? &&
              Catalog.SessionRun(cat.sid, cat.log, r.outcome)
              == Catalog.SessionTrace(cat.base, cat.key, old(cat.sid), old(cat.log), Catalog.SESSION_STREAM,
                                      Catalog.ACTION_UPSERT, UpsertItems(cfg, rows.value).value, oracle)
  {
    if rows.None? {
      return Catalog.LoadFailed("database error");
    }
    var prepared := UpsertItems(cfg, rows.value);
    if prepared.Err? {
      return Catalog.LoadFailed(prepared.error);
    }
    var outcome := cat.Session(Catalog.SESSION_STREAM, Catalog.ACTION_UPSERT, prepared.value, oracle);
    r := Catalog.Synced(outcome);
  }

  /** A property of a JSON value: only objects have the properties read here. */
  function Prop(j: Json, k: string): Option<Json> {
    if j.JObj? then Get(j.fields, k) else None
  }

  predicate Nullish(v: Option<Json>) {
    v.None? || v.value == JNull
  }

  /** `v[0]`: the first element of an array, key `"0"` of an object, the
      first character of a string. */
  function Index0(j: Json): Option<Json> {
    match j
    case JArr(items) => if items == [] then None else Some(items[0])
    case JObj(f) => Get(f, "0")
    case JStr(s) => if s == "" then None else Some(JStr([s[0]]))
    case _ => None
  }

  /** `json?.results?.bindings[0]?.flag?.value`: undefined along the optional
      links, but reading `[0]` of a missing `bindings` throws. */
  function FlagOf(reply: Json): (r: Result<Option<Json>, string>)
    ensures Nullish(Prop(reply, "results")) ==> r == Ok(None)
  {
    var results := Prop(reply, "results");
    if Nullish(results) then Ok(None)
    else
      var bindings := Prop(results.value, "bindings");
      if Nullish(bindings) then Err("TypeError: cannot read 0")
      else
        var first := Index0(bindings.value);
        if Nullish(first) then Ok(None)
        else
          var flag := Prop(first.value, "flag");
          if Nullish(flag) then Ok(None) else Ok(Prop(flag.value, "value"))
  }

  /** A successful SPARQL reply carrying a flag yields it. */
  lemma FlagOfBinding(flag: Json)
    ensures FlagOf(JObj(map["results" := JObj(map["bindings" :=
              JArr([JObj(map["flag" := JObj(map["value" := flag])])])])])) == Ok(Some(flag))
  {
  }

  /** `entity.entity.flag = v` in strict mode: sets it on an object, is lost
      on an array (arrays serialise without the property), and throws on a
      missing, null or primitive `entity`. */
  function SetFlag(record: Object, v: Json): (r: Result<Object, string>)
    ensures r.Ok? ==> r.value.Keys == record.Keys
    ensures r.Ok? <==> "entity" in record && (record["entity"].JObj? || record["entity"].JArr?)
    ensures r.Ok? && record["entity"].JObj? ==>
              r.value == record["entity" := JObj(record["entity"].fields["flag" := v])]
    ensures r.Ok? && record["entity"].JArr? ==> r.value == record
  {
    if "entity" !in record then Err("TypeError: cannot set flag")
    else match record["entity"]
      case JObj(f) => Ok(record["entity" := JObj(f["flag" := v])])
      case JArr(_) => Ok(record)
      case _ => Err("TypeError: cannot set flag")
  }

  /** Outcome of the wikidata request: the fetch, the `ok` check or the JSON
      parse failed, or the reply body. */
  datatype Enrichment = FetchFailed | Fetched(reply: Json)

  /** `MyWebhook.entity`: the first row the database returns for the id,
      normalised and, when it has a `_wikidata` reference, enriched with the
      flag; `null` when there is no row or anything on the way fails. */
  function Entity(cfg: Config, rows: Option<seq<DbRecord>>, wikidata: Json -> Enrichment): Json {
    if rows.None? || rows.value == [] then JNull
    else
      var row := rows.value[0];
      if WIKIDATA !in row.properties then
        match RecordToBBKData(cfg, row)
        case Ok(e) => JObj(e)
        case Err(_) => JNull
      else
        match wikidata(row.properties[WIKIDATA])
        case FetchFailed => JNull
        case Fetched(reply) =>
          match RecordToBBKData(cfg, row)
          case Err(_) => JNull
          case Ok(e) =>
            match FlagOf(reply)
            case Err(_) => JNull
            case Ok(None) => JObj(e)
            case Ok(Some(flag)) =>
              match SetFlag(e, flag)
              case Ok(withFlag) => JObj(withFlag)
              case Err(_) => JNull
  }

  /** No row, or a failed query, answers null. */
  lemma EntityMissing(cfg: Config, rows: Option<seq<DbRecord>>, wikidata: Json -> Enrichment)
    requires rows.None? || rows.value == []
    ensures Entity(cfg, rows, wikidata) == JNull
  {
  }

  /** A row without `_wikidata` answers its normalised record. */
  lemma EntityWithoutReference(cfg: Config, rows: seq<DbRecord>, wikidata: Json -> Enrichment)
    requires rows != [] && WIKIDATA !in rows[0].properties
    requires RecordToBBKData(cfg, rows[0]).Ok?
    ensures Entity(cfg, Some(rows), wikidata) == JObj(RecordToBBKData(cfg, rows[0]).value)
  {
  }

  /** With a `_wikidata` reference, a failed enrichment answers null rather
      than the record without its flag. */
  lemma EnrichmentFailureIsNull(cfg: Config, rows: seq<DbRecord>, wikidata: Json -> Enrichment)
    requires rows != [] && WIKIDATA in rows[0].properties
    requires wikidata(rows[0].properties[WIKIDATA]) == FetchFailed
    ensures Entity(cfg, Some(rows), wikidata) == JNull
  {
  }

  /** A flag is added exactly when the reply defines one; a reply without one
      answers the record as it is. */
  lemma EnrichedEntity(cfg: Config, rows: seq<DbRecord>, wikidata: Json -> Enrichment, reply: Json)
    requires rows != [] && WIKIDATA in rows[0].properties
    requires wikidata(rows[0].properties[WIKIDATA]) == Fetched(reply)
    requires RecordToBBKData(cfg, rows[0]).Ok?
    requires FlagOf(reply).Ok?
    ensures var e := RecordToBBKData(cfg, rows[0]).value;
            && (FlagOf(reply).value.None? ==> Entity(cfg, Some(rows), wikidata) == JObj(e))
            && (FlagOf(reply).value.Some? && "entity" in e && e["entity"].JObj? ==>
                  Entity(cfg, Some(rows), wikidata)
                  == JObj(e["entity" := JObj(e["entity"].fields["flag" := FlagOf(reply).value.value])]))
  {
  }

  /** A row of `annual_pop_ts`: `ts_from as from`, `ts_value as value`. */
  datatype TsRow = TsRow(from: int, value: Json)

  /** The optional filters, already read: a start year, an end year and a
      row limit, each None when not given. */
  datatype TsQuery = TsQuery(startYear: Option<int>, endYear: Option<int>, limit: Option<nat>)

  /** `from >= start` when given, `from < end` when given. */
  predicate InWindow(q: TsQuery, row: TsRow) {
    (q.startYear.Some? ==> row.from >= q.startYear.value) && (q.endYear.Some? ==> row.from < q.endYear.value)
  }

  function WindowTest(q: TsQuery): TsRow -> bool {
    row => InWindow(q, row)
  }

  function ByFrom(): (TsRow, TsRow) -> bool {
    (a: TsRow, b: TsRow) => a.from <= b.from
  }

  lemma ByFromIsTotalPreorder()
    ensures TotalPreorder(ByFrom())
  {
  }

  /** The population query: the rows in the window, ascending by `from`, cut
      to `limit`. */
  function PopulationRows(rows: seq<TsRow>, q: TsQuery): seq<TsRow> {
    var sorted := SortBy(Filter(rows, WindowTest(q)), ByFrom());
    if q.limit.Some? then Take(sorted, q.limit.value) else sorted
  }

  /** The population rows are in the window, ascending, no more than the
      limit and as many as the limit allows, and they are the earliest rows of
      the window: every row of the window left out comes no earlier. */
  lemma PopulationRowsSpec(rows: seq<TsRow>, q: TsQuery)
    ensures var r := PopulationRows(rows, q);
            var matching := Filter(rows, WindowTest(q));
            && (forall i | 0 <= i < |r| :: InWindow(q, r[i]) && r[i] in rows)
            && (forall i, j | 0 <= i < j < |r| :: r[i].from <= r[j].from)
            && |r| == (if q.limit.Some? && q.limit.value < |matching| then q.limit.value else |matching|)
            && r <= SortBy(matching, ByFrom())
            && (forall i, j | 0 <= i < |r| <= j < |matching| :: r[i].from <= SortBy(matching, ByFrom())[j].from)
  {
    var matching := Filter(rows, WindowTest(q));
    var sorted := SortBy(matching, ByFrom());
    ByFromIsTotalPreorder();
    SortBySorted(matching, ByFrom());
    var r := PopulationRows(rows, q);
    if q.limit.Some? {
      TakeSortedIsLeast(sorted, q.limit.value, ByFrom());
    }
    forall i | 0 <= i < |r| ensures InWindow(q, r[i]) && r[i] in rows {
      assert r[i] == sorted[i];
      assert sorted[i] in multiset(matching);
      var k :| 0 <= k < |matching| && matching[k] == sorted[i];
      assert WindowTest(q)(matching[k]);
    }
  }

  /** A window whose start equals its end holds nothing. */
  lemma EmptyWindow(rows: seq<TsRow>, y: int, limit: Option<nat>)
    ensures PopulationRows(rows, TsQuery(Some(y), Some(y), limit)) == []
  {
    var q := TsQuery(Some(y), Some(y), limit);
    var matching := Filter(rows, WindowTest(q));
    if matching != [] {
      assert WindowTest(q)(matching[0]);
    }
  }

  function RowJson(row: TsRow): Json {
    JObj(map["from" := JNum(row.from), "value" := row.value])
  }

  function RowsJson(rows: seq<TsRow>): (j: Json)
    ensures j.JArr? && |j.items| == |rows|
    ensures forall i | 0 <= i < |rows| :: j.items[i] == RowJson(rows[i])
  {
    JArr(seq(|rows|, i requires 0 <= i < |rows| => RowJson(rows[i])))
  }

  /** `MyWebhook.timeseries`: `[]` for any timeseries but `population` and
      for a failed query; the population rows otherwise. */
  function Timeseries(tsid: Option<string>, rows: Option<seq<TsRow>>, q: TsQuery): (j: Json)
    ensures j.JArr?
    ensures tsid != Some(POPULATION) || rows.None? ==> j == JArr([])
    ensures tsid == Some(POPULATION) && rows.Some? ==> j == RowsJson(PopulationRows(rows.value, q))
  {
    if tsid == Some(POPULATION) && rows.Some? then RowsJson(PopulationRows(rows.value, q)) else JArr([])
  }

  /** Reading the query strings: a filter applies only when its parameter is
      a non-empty string; `year` is what `moment(s).year()` gives and `count`
      is knex's reading of the limit (None for one it ignores). */
  function ReadQuery(start: Option<string>, end: Option<string>, limit: Option<string>,
                     year: string -> int, count: string -> Option<nat>): (q: TsQuery)
    ensures q.startYear.Some? <==> TruthyString(start)
    ensures q.endYear.Some? <==> TruthyString(end)
    ensures !TruthyString(limit) ==> q.limit.None?
    ensures TruthyString(start) ==> q.startYear.value == year(start.value)
    ensures TruthyString(end) ==> q.endYear.value == year(end.value)
    ensures TruthyString(limit) ==> q.limit == count(limit.value)
  {
    TsQuery(if TruthyString(start) then Some(year(start.value)) else None,
            if TruthyString(end) then Some(year(end.value)) else None,
            if TruthyString(limit) then count(limit.value) else None)
  }

  /** The connector's webhook handlers. `db` answers the rows for an entity
      id and `tsdb` its population rows (None when the query fails). */
  function Handlers(cfg: Config, db: string -> Option<seq<DbRecord>>, wikidata: Json -> Enrichment,
                    tsdb: string -> Option<seq<TsRow>>, year: string -> int, count: string -> Option<nat>): Webhook.Handlers
  {
    Webhook.Handlers(
      eid => Webhook.Answered(Some(Entity(cfg, db(eid), wikidata))),
      (eid, tsid, start, end, limit) =>
        Webhook.Answered(Some(Timeseries(tsid, tsdb(eid), ReadQuery(start, end, limit, year, count)))))
  }

  /** Through the webhook, an unknown entity is a 404. */
  lemma UnknownEntityIsNotFound(cfg: Config, db: string -> Option<seq<DbRecord>>, wikidata: Json -> Enrichment,
                                tsdb: string -> Option<seq<TsRow>>, year: string -> int, count: string -> Option<nat>,
                                req: Webhook.Request)
    requires req.bodyFault.None? && Webhook.MatchRoute(Webhook.EntityGet, req).Some?
    requires var eid := Webhook.MatchRoute(Webhook.EntityGet, req).value.eid; db(eid).None? || db(eid).value == []
    ensures Webhook.Dispatch(req, Handlers(cfg, db, wikidata, tsdb, year, count)) == Webhook.NotFound()
  {
    Webhook.EntityRouteDispatch(req, Handlers(cfg, db, wikidata, tsdb, year, count));
  }

  /** Through the webhook, every timeseries request is answered 200 with an
      array, even one for an unknown timeseries or after a failed query. */
  lemma TimeseriesAlwaysOk(cfg: Config, db: string -> Option<seq<DbRecord>>, wikidata: Json -> Enrichment,
                           tsdb: string -> Option<seq<TsRow>>, year: string -> int, count: string -> Option<nat>,
                           req: Webhook.Request)
    requires req.bodyFault.None? && Webhook.MatchRoute(Webhook.EntityGet, req).None?
    requires Webhook.MatchRoute(Webhook.TimeseriesGet, req).Some?
    ensures Webhook.Dispatch(req, Handlers(cfg, db, wikidata, tsdb, year, count)).status == 200
    ensures Webhook.Dispatch(req, Handlers(cfg, db, wikidata, tsdb, year, count)).body.JsonBody?
    ensures Webhook.Dispatch(req, Handlers(cfg, db, wikidata, tsdb, year, count)).body.json.JArr?
  {
    var h := Handlers(cfg, db, wikidata, tsdb, year, count);
    var p := Webhook.MatchRoute(Webhook.TimeseriesGet, req).value;
    var start, end, limit := Get(req.query, "start"), Get(req.query, "end"),
                             Get(req.query, "limit");
    var j := Timeseries(p.tsid, tsdb(p.eid), ReadQuery(start, end, limit, year, count));
    assert h.timeseries(p.eid, p.tsid, start, end, limit) == Webhook.Answered(Some(j));
    Webhook.TimeseriesRouteDispatch(req, h);
    assert Truthy(Some(j));
  }
}
