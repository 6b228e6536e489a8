/** The Policy Based Data Map: a browser app that lists the policies and the
    entity types a policy grants, shows the instances of the chosen type as
    markers, and keeps the chosen policy and entity type in its address bar.

    The `window` globals the app reads and assigns (`location`, `entities`,
    `policies`, `selectedEntity`, `selectedPolicy`, the marker group and the
    "no data" banner) are the fields of class `MapWindow`. What the app fetches
    from the coordinator and the Consumer API is passed in as parameters. */
module MapApp {
  import opened Js
  import opened Text
  import opened Url
  import Explorer

  // ----- request headers -----

  /** `headers(policy)`: the policy's token, and its id as the audience in
      dev-shim mode; a property the policy lacks is sent as `undefined`. */
  function Headers(policy: Object, devShimMode: bool): (r: map<string, Option<Json>>)
    ensures Explorer.AUTH_TOKEN_HEADER in r && r[Explorer.AUTH_TOKEN_HEADER] == Get(policy, "token")
    ensures Explorer.AUDIENCE_HEADER in r <==> devShimMode
    ensures devShimMode ==> r[Explorer.AUDIENCE_HEADER] == Get(policy, "id")
    ensures forall h | h in r :: h == Explorer.AUTH_TOKEN_HEADER || h == Explorer.AUDIENCE_HEADER
  {
    var base := map[Explorer.AUTH_TOKEN_HEADER := Get(policy, "token")];
    if devShimMode then base[Explorer.AUDIENCE_HEADER := Get(policy, "id")] else base
  }

  /** A header list as a header object; a later header replaces an earlier
      one of the same name. */
  function HeaderMap(hs: seq<Param>): map<string, Option<Json>> {
    if hs == [] then map[]
    else HeaderMap(hs[..|hs| - 1])[hs[|hs| - 1].0 := Some(JStr(hs[|hs| - 1].1))]
  }

  /** For a policy with a string token and id, the map sends the headers the
      explorer sends for that token and policy. */
  lemma SameHeadersAsExplorer(policy: Object, token: string, id: string, devShimMode: bool)
    requires Get(policy, "token") == Some(JStr(token)) && Get(policy, "id") == Some(JStr(id))
    ensures Headers(policy, devShimMode) == HeaderMap(Explorer.FetchHeaders(Some(token), Some(id), devShimMode))
  {
    var h0 := (Explorer.AUTH_TOKEN_HEADER, token);
    var h1 := (Explorer.AUDIENCE_HEADER, id);
    var hs := Explorer.FetchHeaders(Some(token), Some(id), devShimMode);
    assert NullableToJsString(Some(token)) == token && NullableToJsString(Some(id)) == id;
    assert HeaderMap([h0]) == map[Explorer.AUTH_TOKEN_HEADER := Some(JStr(token))] by {
      assert [h0][..0] == [];
    }
    if devShimMode {
      assert hs == [h0, h1] && hs[..1] == [h0];
    } else {
      assert hs == [h0];
    }
  }

  // ----- the address bar -----

  /** The browser URL after `mergeQueryParam(name, value)`: a truthy value is
      written with `set`. For a falsy value the function deletes the name from
      its own copy of the URL and returns before `replaceState`, so the browser
      URL stays as it was. */
  function MergedUrl(u: Url, name: string, value: Option<Json>): Url {
    if Truthy(value) then Url(u.address, SetParam(u.query, name, ToJsString(value.value))) else u
  }

  /** A truthy value can be read back under its name; a falsy one leaves the
      old value, if any, in place; other parameters and the address do not
      change. */
  lemma MergedUrlGet(u: Url, name: string, value: Option<Json>, other: string)
    ensures MergedUrl(u, name, value).address == u.address
    ensures GetParam(MergedUrl(u, name, value).query, name) ==
            if Truthy(value) then Some(ToJsString(value.value)) else GetParam(u.query, name)
    ensures other != name ==> GetParam(MergedUrl(u, name, value).query, other) == GetParam(u.query, other)
  {
    if Truthy(value) {
      SetParamGet(u.query, name, ToJsString(value.value), other);
    }
  }

  // ----- choosing an entity type or a policy -----

  /** The TypeErrors the `find` callbacks raise on an id that is not a string. */
  const ID_NOT_A_STRING := "TypeError: id.toLowerCase is not a function"
  const ID_MISSING := "TypeError: Cannot read properties of undefined (reading 'toLowerCase')"
  const ID_NULL := "TypeError: Cannot read properties of null (reading 'toLowerCase')"

  /** The key a `find` callback compares with the lower-cased value:
      `e.id?.toLowerCase()` for an entity (optional), `p.id.toLowerCase()` for
      a policy; `Ok(None)` is `undefined`. */
  function IdKey(o: Object, optional: bool): Result<Option<string>, string> {
    match Get<Json>(o, "id")
    case Some(JStr(s)) => Ok(Some(Lower(s)))
    case None => if optional then Ok(None) else Err(ID_MISSING)
    case Some(JNull) => if optional then Ok(None) else Err(ID_NULL)
    case Some(_) => Err(ID_NOT_A_STRING)
  }

  /** How `find` ends: at the first match, without one, or at the first
      element whose callback throws. */
  datatype Search = FoundAt(i: nat) | NotFound | ThrewAt(i: nat, error: string)

  /** The number of elements `find` got past without a match. */
  function Reached(r: Search, n: nat): nat {
    if r.NotFound? then n else r.i
  }

  /** `xs.find(x => key(x) === target)`. */
  function Find(xs: seq<Object>, optional: bool, target: string): (r: Search)
    ensures Reached(r, |xs|) <= |xs|
    ensures r.FoundAt? ==> r.i < |xs| && IdKey(xs[r.i], optional) == Ok(Some(target))
    ensures r.ThrewAt? ==> r.i < |xs| && IdKey(xs[r.i], optional) == Err(r.error)
    ensures forall j | 0 <= j < Reached(r, |xs|) ::
              IdKey(xs[j], optional).Ok? && IdKey(xs[j], optional).value != Some(target)
  {
    if xs == [] then NotFound
    else
      match IdKey(xs[0], optional)
      case Err(e) => ThrewAt(0, e)
      case Ok(k) =>
        if k == Some(target) then FoundAt(0)
        else
          var rest := Find(xs[1..], optional, target);
          assert forall j | 1 <= j < |xs| :: xs[j] == xs[1..][j - 1];
          match rest
          case FoundAt(i) => FoundAt(i + 1)
          case NotFound => NotFound
          case ThrewAt(i, e) => ThrewAt(i + 1, e)
  }

  /** Nothing is found exactly when every element's callback runs and none
      matches. */
  lemma NotFoundIffNoMatch(xs: seq<Object>, optional: bool, target: string)
    ensures Find(xs, optional, target) == NotFound <==>
            forall j | 0 <= j < |xs| :: IdKey(xs[j], optional).Ok? && IdKey(xs[j], optional).value != Some(target)
  {
    var r := Find(xs, optional, target);
    if r.FoundAt? {
      assert IdKey(xs[r.i], optional).value == Some(target);
    } else if r.ThrewAt? {
      assert IdKey(xs[r.i], optional).Err?;
    }
  }

  /** An element whose id is the value up to case is selected when no element
      before it matches or throws. */
  lemma {:induction false} FindsIdInAnyCase(xs: seq<Object>, optional: bool, value: string, k: nat, id: string)
    requires k < |xs| && Get(xs[k], "id") == Some(JStr(id)) && Lower(id) == Lower(value)
    requires forall j | 0 <= j < k :: IdKey(xs[j], optional).Ok? && IdKey(xs[j], optional).value != Some(Lower(value))
    ensures Find(xs, optional, Lower(value)) == FoundAt(k)
  {
    if k > 0 {
      assert forall j | 0 <= j < k - 1 :: xs[1..][j] == xs[j + 1];
      FindsIdInAnyCase(xs[1..], optional, value, k - 1, id);
    }
  }

  /** The element `find` returns; `None` is `undefined`. */
  function Selected(xs: seq<Object>, r: Search): Option<Object> {
    if r.FoundAt? && r.i < |xs| then Some(xs[r.i]) else None
  }

  /** `selected?.id`. */
  function IdOf(o: Option<Object>): Option<Json> {
    if o.None? then None else Get(o.value, "id")
  }

  // ----- policies -----

  /** `a === b` for values read from two separately parsed JSON documents:
      `undefined` equals `undefined`, and arrays and objects are distinct
      objects, so never identical. */
  predicate StrictEquals(a: Option<Json>, b: Option<Json>) {
    match (a, b)
    case (None, None) => true
    case (Some(JNull), Some(JNull)) => true
    case (Some(JBool(x)), Some(JBool(y))) => x == y
    case (Some(JNum(x)), Some(JNum(y))) => x == y
    case (Some(JStr(x)), Some(JStr(y))) => x == y
    case _ => false
  }

  /** The position of the first configured policy with that id, or -1. */
  function FirstWithId(cs: seq<Object>, id: Option<Json>): (r: int)
    ensures -1 <= r < |cs|
    ensures r >= 0 ==> StrictEquals(Get(cs[r], "id"), id)
    ensures forall j | 0 <= j < (if r == -1 then |cs| else r) :: !StrictEquals(Get(cs[j], "id"), id)
  {
    if cs == [] then -1
    else if StrictEquals(Get(cs[0], "id"), id) then 0
    else
      var r := FirstWithId(cs[1..], id);
      assert forall j | 1 <= j < |cs| :: cs[j] == cs[1..][j - 1];
      if r == -1 then -1 else r + 1
  }

  /** `configPolicies.find(t => t.id === id)?.token ?? null`. */
  function ConfigToken(cs: seq<Object>, id: Option<Json>): Json {
    var i := FirstWithId(cs, id);
    if i == -1 then JNull
    else match Get(cs[i], "token")
      case None => JNull
      case Some(t) => t
  }

  /** The token of the first configured policy with the id; `null` when there
      is none or it has no token. */
  lemma ConfigTokenOfFirst(cs: seq<Object>, id: Option<Json>, k: nat, token: Json)
    requires k < |cs| && StrictEquals(Get(cs[k], "id"), id) && Get(cs[k], "token") == Some(token)
    requires forall j | 0 <= j < k :: !StrictEquals(Get(cs[j], "id"), id)
    ensures ConfigToken(cs, id) == token
  {
    var i := FirstWithId(cs, id);
    assert i == k;
  }

  lemma ConfigTokenMissing(cs: seq<Object>, id: Option<Json>)
    requires forall j | 0 <= j < |cs| :: !StrictEquals(Get(cs[j], "id"), id)
    ensures ConfigToken(cs, id) == JNull
  {
    var i := FirstWithId(cs, id);
    assert i == -1;
  }

  /** `{...policy, token: …}`. */
  function WithToken(policy: Object, cs: seq<Object>): Object {
    policy["token" := ConfigToken(cs, Get(policy, "id"))]
  }

  /** The token merge of `getPoliciesFromCoordinator`: the coordinator's
      policies in their order, each with every field it had and the token of
      the first configured policy with the same id. */
  function MergeTokens(ps: seq<Object>, cs: seq<Object>): (r: seq<Object>)
    ensures |r| == |ps|
    ensures forall i | 0 <= i < |ps| :: "token" in r[i] && r[i]["token"] == ConfigToken(cs, Get(ps[i], "id"))
    ensures forall i, k | 0 <= i < |ps| && k != "token" :: (k in r[i] <==> k in ps[i]) && (k in ps[i] ==> r[i][k] == ps[i][k])
  {
    seq(|ps|, i requires 0 <= i < |ps| => WithToken(ps[i], cs))
  }

  /** Merging the tokens a second time changes nothing: the ids the tokens
      are looked up by are kept. */
  lemma MergeTokensIdempotent(ps: seq<Object>, cs: seq<Object>)
    ensures MergeTokens(MergeTokens(ps, cs), cs) == MergeTokens(ps, cs)
  {
    var once := MergeTokens(ps, cs);
    forall i | 0 <= i < |ps| ensures MergeTokens(once, cs)[i] == once[i] {
      assert Get(once[i], "id") == Get(ps[i], "id");
      assert MergeTokens(once, cs)[i] == WithToken(once[i], cs);
      assert once[i] == WithToken(ps[i], cs);
    }
  }

  /** `getPolicies()`: the configured policies exactly when
      `useStaticPolicies === true`, or else the coordinator's list with the
      configured tokens. */
  function GetPolicies(useStaticPolicies: Option<Json>, cs: seq<Object>, coordinator: seq<Object>): seq<Object> {
    if useStaticPolicies == Some(JBool(true)) then cs else MergeTokens(coordinator, cs)
  }

  /** A merely truthy flag such as the string `"true"` still asks the
      coordinator. */
  lemma TruthyFlagAsksCoordinator(cs: seq<Object>, coordinator: seq<Object>)
    ensures Truthy(Some(JStr("true"))) && GetPolicies(Some(JStr("true")), cs, coordinator) == MergeTokens(coordinator, cs)
    ensures Truthy(Some(JNum(1))) && GetPolicies(Some(JNum(1)), cs, coordinator) == MergeTokens(coordinator, cs)
  {
  }

  // ----- popups -----

  /** The order in which an object's properties were created: every key of
      the object exactly once. */
  predicate KeyOrder(fields: map<string, Json>, order: seq<string>) {
    && (forall i | 0 <= i < |order| :: order[i] in fields)
    && (forall k | k in fields :: k in order)
    && Distinct(order)
  }

  predicate Distinct(order: seq<string>) {
    forall i, j | 0 <= i < j < |order| :: order[i] != order[j]
  }

  /** A list of distinct names has as many names as the set it forms. */
  lemma {:induction false} DistinctCount(order: seq<string>)
    requires Distinct(order)
    ensures |set k | k in order| == |order|
  {
    if order != [] {
      DistinctTail(order);
      DistinctCount(order[1..]);
      SetOfCons(order);
    }
  }

  lemma DistinctTail(order: seq<string>)
    requires order != [] && Distinct(order)
    ensures Distinct(order[1..]) && order[0] !in order[1..]
  {
    var rest := order[1..];
    forall i, j | 0 <= i < j < |rest| ensures rest[i] != rest[j] {
      assert rest[i] == order[i + 1] && rest[j] == order[j + 1];
    }
    forall j | 0 <= j < |rest| ensures rest[j] != order[0] {
      assert rest[j] == order[j + 1];
    }
  }

  lemma SetOfCons(order: seq<string>)
    requires order != [] && order[0] !in order[1..]
    ensures |set k | k in order| == 1 + |set k | k in order[1..]|
  {
    assert order == [order[0]] + order[1..];
    assert (set k | k in order) == {order[0]} + (set k | k in order[1..]);
  }

  /** A creation order is as long as the object has properties. */
  lemma KeyOrderLength(fields: map<string, Json>, order: seq<string>)
    requires KeyOrder(fields, order)
    ensures |order| == |fields|
  {
    DistinctCount(order);
    assert (set k | k in order) == fields.Keys;
  }

  /** `Object.values` of an object whose properties were created in the order
      given. */
  function ValuesInOrder(fields: map<string, Json>, order: seq<string>): (r: seq<Json>)
    ensures (forall i | 0 <= i < |order| :: order[i] in fields) ==>
              |r| == |order| && forall i | 0 <= i < |order| :: r[i] == fields[order[i]]
  {
    if order == [] then []
    else
      var rest := ValuesInOrder(fields, order[1..]);
      assert forall i | 1 <= i < |order| :: order[i] == order[1..][i - 1];
      (if order[0] in fields then [fields[order[0]]] else []) + rest
  }

  /** `Object.values` gives one value per property, in creation order. */
  lemma ObjectValues(fields: map<string, Json>, order: seq<string>)
    requires KeyOrder(fields, order)
    ensures |ValuesInOrder(fields, order)| == |fields|
    ensures forall i | 0 <= i < |order| :: ValuesInOrder(fields, order)[i] == fields[order[i]]
    ensures forall k | k in fields :: fields[k] in ValuesInOrder(fields, order)
  {
    KeyOrderLength(fields, order);
    var r := ValuesInOrder(fields, order);
    forall k | k in fields ensures fields[k] in r {
      var i :| 0 <= i < |order| && order[i] == k;
      assert r[i] == fields[k];
    }
  }

  const VALUES_OF_NULL := "TypeError: Cannot convert undefined or null to object"

  /** `getValue(value)`: an object or an array becomes the list of its values,
      any other value is shown as it is; `typeof null` is `'object'` too, and
      `Object.values(null)` throws. */
  function GetValue(value: Json, order: seq<string>): (r: Result<Json, string>)
    requires value.JObj? ==> KeyOrder(value.fields, order)
    ensures value == JNull <==> r.Err?
    ensures value.JArr? ==> r == Ok(value)
    ensures value.JObj? ==>
              r.Ok? && r.value.JArr? && |r.value.items| == |value.fields| == |order| &&
              forall i | 0 <= i < |order| :: r.value.items[i] == value.fields[order[i]]
    ensures value.JBool? || value.JNum? || value.JStr? ==> r == Ok(value)
  {
    match value
    case JNull => Err(VALUES_OF_NULL)
    case JArr(_) => Ok(value)
    case JObj(fields) =>
      ObjectValues(fields, order);
      Ok(JArr(ValuesInOrder(fields, order)))
    case _ => Ok(value)
  }

  /** Shown values are shown as they are: `getValue` is idempotent. */
  lemma GetValueIdempotent(value: Json, order: seq<string>, order2: seq<string>)
    requires value.JObj? ==> KeyOrder(value.fields, order)
    requires GetValue(value, order).Ok?
    ensures GetValue(GetValue(value, order).value, order2) == GetValue(value, order)
  {
  }

  // ----- the window -----

  /** A marker at a latitude and a longitude with a title. */
  datatype Marker = Marker(lat: int, lng: int, title: Json)

  /** `headers(undefined)` reads `token` of `undefined`. */
  const NO_POLICY := "TypeError: Cannot read properties of undefined (reading 'token')"

  class MapWindow {
    const devShimMode: bool
    var location: Url
    var entities: seq<Object>
    var policies: seq<Object>
    var selectedEntity: Option<Object>
    var selectedPolicy: Option<Object>
    /** The markers on the map. */
    var shown: seq<Marker>
    var bannerVisible: bool
    /** The marker groups the map was fitted to, in order. */
    var fitted: seq<seq<Marker>>

    /** The window once `initMap` has run: no data yet and the banner hidden. */
    constructor (devShimMode: bool, location: Url)
      ensures this.devShimMode == devShimMode && this.location == location
      ensures entities == [] && policies == [] && selectedEntity.None? && selectedPolicy.None?
      ensures shown == [] && !bannerVisible && fitted == []
    {
      this.devShimMode := devShimMode;
      this.location := location;
      entities := [];
      policies := [];
      selectedEntity := None;
      selectedPolicy := None;
      shown := [];
      bannerVisible := false;
      fitted := [];
    }

    twostate predicate MapKept()
      reads this
    {
      shown == old(shown) && bannerVisible == old(bannerVisible) && fitted == old(fitted)
    }

    /** `mergeQueryParam(name, value)`. */
    method MergeQueryParam(name: string, value: Option<Json>)
      modifies this
      ensures location == MergedUrl(old(location), name, value)
      ensures entities == old(entities) && policies == old(policies)
      ensures selectedEntity == old(selectedEntity) && selectedPolicy == old(selectedPolicy) && MapKept()
    {
      var url := new SearchParams(location.query);
      if !Truthy(value) {
        url.Delete(name);
        return;
      }
      url.Set(name, ToJsString(value.value));
      location := Url(location.address, url.pairs);
    }

    /** `entitySelectionChanged(value)`: the first entity type whose id is the
        value up to case becomes the selection and goes into the address bar;
        a callback that throws leaves everything as it was. */
    method EntitySelectionChanged(value: string) returns (r: Result<(), string>)
      modifies this
      ensures var s := Find(old(entities), true, Lower(value));
              && (s.ThrewAt? ==> r == Err(s.error) && location == old(location) && selectedEntity == old(selectedEntity))
              && (!s.ThrewAt? ==> r == Ok(()) && selectedEntity == Selected(old(entities), s) &&
                                  location == MergedUrl(old(location), "entity", IdOf(selectedEntity)))
      ensures entities == old(entities) && policies == old(policies) && selectedPolicy == old(selectedPolicy) && MapKept()
    {
      var s := Find(entities, true, Lower(value));
      if s.ThrewAt? {
        return Err(s.error);
      }
      selectedEntity := Selected(entities, s);
      MergeQueryParam("entity", IdOf(selectedEntity));
      return Ok(());
    }

    /** `refreshEntities()` with the entity types the Consumer API answers: the
        list is replaced and its first element selected; without a policy,
        `headers` throws before the request. */
    method RefreshEntities(answer: seq<Object>) returns (r: Result<(), string>)
      modifies this
      ensures old(selectedPolicy).None? ==> r == Err(NO_POLICY) && entities == old(entities) && selectedEntity == old(selectedEntity)
      ensures old(selectedPolicy).Some? ==> r == Ok(()) && entities == answer &&
                                            selectedEntity == if answer == [] then None else Some(answer[0])
      ensures location == old(location) && policies == old(policies) && selectedPolicy == old(selectedPolicy) && MapKept()
    {
      if selectedPolicy.None? {
        return Err(NO_POLICY);
      }
      entities := answer;
      selectedEntity := if answer == [] then None else Some(answer[0]);
      return Ok(());
    }

    /** `policySelectionChanged(value)`: the first policy whose id is the value
        up to case becomes the selection and goes into the address bar, then
        the entity types are fetched again. */
    method PolicySelectionChanged(value: string, answer: seq<Object>) returns (r: Result<(), string>)
      modifies this
      ensures var s := Find(old(policies), false, Lower(value));
              && (s.ThrewAt? ==> r == Err(s.error) && location == old(location) &&
                                 selectedPolicy == old(selectedPolicy) && entities == old(entities))
              && (!s.ThrewAt? ==> selectedPolicy == Selected(old(policies), s) &&
                                  location == MergedUrl(old(location), "policy", IdOf(selectedPolicy)))
              && (s.FoundAt? ==> r == Ok(()) && entities == answer)
              && (s.NotFound? ==> r == Err(NO_POLICY) && entities == old(entities))
      ensures policies == old(policies) && MapKept()
    {
      var s := Find(policies, false, Lower(value));
      if s.ThrewAt? {
        return Err(s.error);
      }
      selectedPolicy := Selected(policies, s);
      MergeQueryParam("policy", IdOf(selectedPolicy));
      r := RefreshEntities(answer);
    }

    /** `refreshPolicies()` with the configuration and the coordinator's list. */
    method RefreshPolicies(useStaticPolicies: Option<Json>, cs: seq<Object>, coordinator: seq<Object>)
      modifies this
      ensures policies == GetPolicies(useStaticPolicies, cs, coordinator)
      ensures location == old(location) && entities == old(entities)
      ensures selectedEntity == old(selectedEntity) && selectedPolicy == old(selectedPolicy) && MapKept()
    {
      policies := GetPolicies(useStaticPolicies, cs, coordinator);
    }

    /** `getData()` with the markers built from the Consumer API's answer:
        without a selected policy and entity type nothing happens; otherwise
        the old markers are removed, the banner shows exactly when there is
        nothing to show, and the map is fitted to the new markers when there
        are any. */
    method GetData(markers: seq<Marker>)
      modifies this
      ensures old(selectedPolicy).None? || old(selectedEntity).None? ==> MapKept()
      ensures old(selectedPolicy).Some? && old(selectedEntity).Some? ==>
                && shown == markers
                && (bannerVisible <==> markers == [])
                && fitted == old(fitted) + (if markers == [] then [] else [markers])
      ensures location == old(location) && entities == old(entities) && policies == old(policies)
      ensures selectedEntity == old(selectedEntity) && selectedPolicy == old(selectedPolicy)
    {
      if selectedPolicy.None? || selectedEntity.None? {
        return;
      }
      shown := [];
      bannerVisible := markers == [];
      if markers == [] {
        return;
      }
      shown := markers;
      fitted := fitted + [markers];
    }
  }
}
