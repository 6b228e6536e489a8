/** The shared checks of the REST test suites: what each helper of the `Crud`
    class accepts as a passing response. A response is its status and its
    parsed body; a check passes when none of its expectations fails and
    nothing it evaluates throws. */
module Crud {
  import opened Js
  import opened Text
  import Http
  import Sorting

  /** A response: its status and its parsed body (`None` for no body). */
  datatype Response = Response(status: int, body: Option<Json>)

  /** `value.prop` for a value that may be `undefined`; the property of a
      value that is not an object is `undefined` here. */
  function Field(v: Option<Json>, k: string): (r: Option<Json>)
    ensures r.Some? ==> v.Some? && v.value.JObj? && k in v.value.fields && r.value == v.value.fields[k]
  {
    if v.Some? && v.value.JObj? then Get(v.value.fields, k) else None
  }

  // ----- status codes -----

  /** The statuses `get`, `update` and `post` accept. */
  const OK_CODES: seq<int> := [Http.OK, Http.NO_CONTENT]

  /** `exists(url)`: the status is one of OK_CODES. */
  function Exists(status: int): (r: bool)
    ensures r <==> status == 200 || status == 204
  {
    status in OK_CODES
  }

  /** The check `get`, `update` and `post` make: an accepted status, then the
      caller's checker on the body when one is given. */
  predicate OkResponsePasses(r: Response, checker: Option<Option<Json> -> bool>) {
    r.status in OK_CODES && (checker.Some? ==> checker.value(r.body))
  }

  /** A response those checks accept is one `exists` reports, and `201
      Created`, which `add` demands, is not among them. */
  lemma OkResponseExists(r: Response, checker: Option<Option<Json> -> bool>)
    ensures OkResponsePasses(r, checker) ==> Exists(r.status)
    ensures r.status == Http.CREATED ==> !OkResponsePasses(r, checker)
  {
  }

  // ----- expected-error keys -----

  /** An expected-error key: a name and, for a key such as `name[3]`, an index. */
  datatype Key = Key(name: string, index: Option<nat>)

  /** The digits of a `[digits]` group that starts at position i of s. */
  function BracketAt(s: string, i: nat): Option<string> {
    if i < |s| && s[i] == '[' then
      var d := DigitPrefix(s[i + 1..]);
      if d != "" && i + 1 + |d| < |s| && s[i + 1 + |d|] == ']' then Some(d) else None
    else None
  }

  /** `s.match(/\[(\d+)\]/)` searching from position k: where the first group
      starts. */
  function FirstBracket(s: string, k: nat): (r: Option<nat>)
    ensures r.Some? ==> k <= r.value < |s| && BracketAt(s, r.value).Some?
    ensures forall i | k <= i < (if r.None? then |s| else r.value) :: BracketAt(s, i).None?
    decreases |s| - k
  {
    if k >= |s| then None
    else if BracketAt(s, k).Some? then Some(k)
    else FirstBracket(s, k + 1)
  }

  /** The first group starts at i when one starts there and none before. */
  lemma FirstBracketIs(s: string, i: nat)
    requires BracketAt(s, i).Some?
    requires forall j | 0 <= j < i :: BracketAt(s, j).None?
    ensures FirstBracket(s, 0) == Some(i)
  {
  }

  lemma DigitPrefixUpTo(t: string, d: string)
    requires AllDigits(d) && d <= t && |d| < |t| && !IsDigit(t[|d|])
    ensures DigitPrefix(t) == d
  {
    if d != [] {
      assert t[1..][|d| - 1] == t[|d|];
      DigitPrefixUpTo(t[1..], d[1..]);
    }
  }

  /** Wherever the text of a group occurs, the group itself starts there. */
  lemma GroupTextIsGroup(s: string, j: nat, d: string)
    requires AllDigits(d) && d != "" && OccursAt(s, "[" + d + "]", j)
    ensures BracketAt(s, j) == Some(d)
  {
    var pat := "[" + d + "]";
    var w := s[j..j + |pat|];
    assert w == pat;
    assert s[j] == w[0] == '[';
    var t := s[j + 1..];
    assert forall x | 0 <= x < |d| :: t[x] == w[1 + x] == pat[1 + x] == d[x];
    assert t[..|d|] == d;
    assert t[|d|] == w[1 + |d|] == ']';
    DigitPrefixUpTo(t, d);
  }

  /** The first group's text first occurs where the group starts. */
  lemma FirstGroupText(s: string, i: nat, d: string)
    requires FirstBracket(s, 0) == Some(i) && BracketAt(s, i) == Some(d)
    ensures IndexOf(s, "[" + d + "]") == i
  {
    var pat := "[" + d + "]";
    assert s[i..i + |pat|] == pat by {
      assert s[i + 1..][..|d|] == d;
      assert s[i + 1..i + 1 + |d|] == d;
    }
    assert OccursAt(s, pat, i);
    var r := IndexOf(s, pat);
    if r != i {
      assert 0 <= r < i;
      GroupTextIsGroup(s, r, d);
      assert false;
    }
  }

  /** The key of an expected error: with a `[digits]` group, the first group's
      number is the index and the name is the key with that group cut out;
      without one, the key is the name. */
  function ParseKey(property: string): (k: Key)
    ensures FirstBracket(property, 0).None? ==> k == Key(property, None)
    ensures FirstBracket(property, 0).Some? ==>
              var i := FirstBracket(property, 0).value;
              var d := BracketAt(property, i).value;
              k.index == Some(DigitsValue(d)) && k.name == property[..i] + property[i + |d| + 2..]
  {
    match FirstBracket(property, 0)
    case None => Key(property, None)
    case Some(i) =>
      var d := BracketAt(property, i).value;
      FirstGroupText(property, i, d);
      Key(ReplaceFirst(property, "[" + d + "]", ""), Some(DigitsValue(d)))
  }

  /** The key text the tests write for a key. */
  function KeyText(k: Key): string {
    if k.index.None? then k.name else k.name + "[" + NatToString(k.index.value) + "]"
  }

  /** A key without an index is read back as itself. */
  lemma ParsePlainKey(name: string)
    requires '[' !in name
    ensures ParseKey(name) == Key(name, None)
  {
    assert forall i | 0 <= i < |name| :: BracketAt(name, i).None?;
  }

  /** The group `[d]` written right after `name` is found where it starts. */
  lemma BracketAfterName(name: string, d: string)
    requires AllDigits(d) && d != ""
    ensures BracketAt(name + "[" + d + "]", |name|) == Some(d)
  {
    var s := name + "[" + d + "]";
    var m := |name|;
    assert s[m + 1..] == d + "]";
    assert s[m + 1..][..|d|] == d;
    DigitPrefixUpTo(s[m + 1..], d);
  }

  /** No group starts inside a name without `[`. */
  lemma NoBracketInName(name: string, d: string)
    requires '[' !in name
    ensures forall j | 0 <= j < |name| :: BracketAt(name + "[" + d + "]", j).None?
  {
    forall j | 0 <= j < |name| ensures BracketAt(name + "[" + d + "]", j).None? {
      assert (name + "[" + d + "]")[j] == name[j];
    }
  }

  /** A name followed by a group of digits is read as that name with the
      digits' value as index. */
  lemma ParseGroupKey(name: string, d: string)
    requires '[' !in name && AllDigits(d) && d != ""
    ensures ParseKey(name + "[" + d + "]") == Key(name, Some(DigitsValue(d)))
  {
    var s := name + "[" + d + "]";
    var m := |name|;
    assert BracketAt(s, m) == Some(d) by {
      BracketAfterName(name, d);
    }
    assert FirstBracket(s, 0) == Some(m) by {
      NoBracketInName(name, d);
      FirstBracketIs(s, m);
    }
    assert s[..m] == name && s[m + |d| + 2..] == [];
  }

  /** A name followed by `[n]` is read back as that name with index n. */
  lemma ParseIndexedKey(name: string, n: nat)
    requires '[' !in name
    ensures ParseKey(name + "[" + NatToString(n) + "]") == Key(name, Some(n))
  {
    ParseGroupKey(name, NatToString(n));
  }

  /** Reading back the text of a key whose name has no `[` gives the key. */
  lemma ParseKeyText(k: Key)
    requires '[' !in k.name
    ensures ParseKey(KeyText(k)) == k
  {
    if k.index.None? {
      ParsePlainKey(k.name);
    } else {
      ParseIndexedKey(k.name, k.index.value);
    }
  }

  // ----- matching messages -----

  /** The TypeError `e.reason.toLowerCase()` raises on a reason that is not a
      string. */
  const REASON_NOT_A_STRING := "TypeError: e.reason.toLowerCase is not a function"

  /** The `find` callback of `check_error`: the name is equal, the index is
      equal when the key has one, and the lower-cased reason contains the
      expected fragment as given (not lower-cased). The reason is read only
      when name and index match. */
  function MessageMatch(e: Json, key: Key, fragment: Json): Result<bool, string> {
    var f := if e.JObj? then e.fields else map[];
    if Get(f, "name") != Some(JStr(key.name)) then Ok(false)
    else if key.index.Some? && Get(f, "index") != Some(JNum(key.index.value)) then Ok(false)
    else
      match Get<Json>(f, "reason")
      case Some(JStr(reason)) => Ok(Contains(Lower(reason), ToJsString(fragment)))
      case _ => Err(REASON_NOT_A_STRING)
  }

  /** Lower-casing leaves no upper-case ASCII letter. */
  lemma LowerHasNoCapital(s: string, p: nat)
    requires p < |s|
    ensures !('A' <= Lower(s)[p] <= 'Z')
  {
  }

  /** A fragment with a capital letter can never match, whatever the reason. */
  lemma CapitalFragmentNeverMatches(e: Json, key: Key, fragment: string, c: nat)
    requires c < |fragment| && 'A' <= fragment[c] <= 'Z'
    ensures MessageMatch(e, key, JStr(fragment)) != Ok(true)
  {
    var f := if e.JObj? then e.fields else map[];
    if Get(f, "reason").Some? && Get(f, "reason").value.JStr? {
      NoCapitalOccurs(Get(f, "reason").value.s, fragment, c);
    }
  }

  /** A fragment with a capital letter occurs nowhere in a lower-cased text. */
  lemma NoCapitalOccurs(s: string, fragment: string, c: nat)
    requires c < |fragment| && 'A' <= fragment[c] <= 'Z'
    ensures forall i :: !OccursAt(Lower(s), fragment, i)
  {
    var low := Lower(s);
    forall i ensures !OccursAt(low, fragment, i) {
      if 0 <= i && i + |fragment| <= |low| {
        LowerHasNoCapital(s, i + c);
        assert low[i..i + |fragment|][c] != fragment[c];
      }
    }
  }

  /** `messages.find(callback) !== undefined`, or the error the callback
      throws first. */
  function FindMessage(items: seq<Json>, key: Key, fragment: Json): Result<bool, string> {
    if items == [] then Ok(false)
    else
      match MessageMatch(items[0], key, fragment)
      case Err(e) => Err(e)
      case Ok(true) => Ok(true)
      case Ok(false) => FindMessage(items[1..], key, fragment)
  }

  /** Found means some message matches; not found means every message was
      compared without a match; an error comes from some message. */
  lemma {:induction false} FindMessageMeaning(items: seq<Json>, key: Key, fragment: Json)
    ensures var r := FindMessage(items, key, fragment);
            && (r == Ok(true) ==> exists k | 0 <= k < |items| :: MessageMatch(items[k], key, fragment) == Ok(true))
            && (r == Ok(false) ==> forall k | 0 <= k < |items| :: MessageMatch(items[k], key, fragment) == Ok(false))
            && (r.Err? ==> exists k | 0 <= k < |items| :: MessageMatch(items[k], key, fragment).Err?)
    decreases |items|
  {
    if items != [] {
      FindMessageMeaning(items[1..], key, fragment);
      assert forall k | 1 <= k < |items| :: items[k] == items[1..][k - 1];
    }
  }

  /** When every reason the callback reads is a string, the message is found
      exactly when some message matches. */
  lemma FoundIffSomeMatch(items: seq<Json>, key: Key, fragment: Json)
    requires forall k | 0 <= k < |items| :: MessageMatch(items[k], key, fragment).Ok?
    ensures FindMessage(items, key, fragment) == Ok(true) <==>
            exists k | 0 <= k < |items| :: MessageMatch(items[k], key, fragment) == Ok(true)
  {
    var r := FindMessage(items, key, fragment);
    FindMessageMeaning(items, key, fragment);
    if r == Ok(false) {
      forall k | 0 <= k < |items| ensures MessageMatch(items[k], key, fragment) != Ok(true) {
        assert MessageMatch(items[k], key, fragment) == Ok(false);
      }
    }
  }

  // ----- check_error -----

  /** An expected error: its properties, each a key and an expected fragment
      of the reason, in the order `for ... in` lists them. */
  type ExpectedError = seq<(string, Json)>

  /** The error object of a body, when the body is an object. */
  function ErrorOf(body: Option<Json>): Option<Json> {
    Field(body, "error")
  }

  /** The error envelope: an object whose `error` is an object with the code,
      the code's reason phrase as status, and a message. */
  predicate ErrorEnvelope(body: Option<Json>, code: int) {
    && body.Some? && body.value.JObj?
    && ErrorOf(body).Some? && ErrorOf(body).value.JObj?
    && Field(ErrorOf(body), "code") == Some(JNum(code))
    && Http.ReasonPhrase(code).Some?
    && Field(ErrorOf(body), "status") == Some(JStr(Http.ReasonPhrase(code).value))
    && Field(ErrorOf(body), "message").Some?
  }

  /** A message with the three properties an error list must have. */
  predicate Listed(e: Json) {
    e.JObj? && "name" in e.fields && "index" in e.fields && "reason" in e.fields
  }

  /** `error.message` is an array of listed messages. */
  predicate MessageList(m: Option<Json>) {
    m.Some? && m.value.JArr? && forall i | 0 <= i < |m.value.items| :: Listed(m.value.items[i])
  }

  function Items(m: Option<Json>): seq<Json> {
    if m.Some? && m.value.JArr? then m.value.items else []
  }

  /** Every property of every expected error finds its message. */
  predicate AllFound(items: seq<Json>, errors: seq<ExpectedError>) {
    forall i {:trigger EachFound(items, errors[i])} | 0 <= i < |errors| :: EachFound(items, errors[i])
  }

  /** `find` succeeds for every property of one expected error. */
  predicate EachFound(items: seq<Json>, e: ExpectedError) {
    forall j {:trigger PropertyFound(items, e[j])} | 0 <= j < |e| :: PropertyFound(items, e[j])
  }

  /** `find` succeeds for one property: some message matches it. */
  predicate PropertyFound(items: seq<Json>, property: (string, Json)) {
    FindMessage(items, ParseKey(property.0), property.1) == Ok(true)
  }

  /** `check_error(response, code, errors)` passes. */
  predicate CheckErrorPasses(r: Response, code: int, errors: seq<ExpectedError>) {
    && ErrorEnvelope(r.body, code)
    && (|errors| > 0 ==> MessageList(Field(ErrorOf(r.body), "message")))
    && (|errors| > 0 ==> AllFound(Items(Field(ErrorOf(r.body), "message")), errors))
    && r.status == code
  }

  /** The shape loop of `check_error`: every message names the field, the
      index and the reason. */
  method AllListed(messages: seq<Json>) returns (ok: bool)
    ensures ok == forall k | 0 <= k < |messages| :: Listed(messages[k])
  {
    var i := 0;
    while i < |messages|
      invariant 0 <= i <= |messages|
      invariant forall k | 0 <= k < i :: Listed(messages[k])
    {
      if !Listed(messages[i]) {
        return false;
      }
      i := i + 1;
    }
    return true;
  }

  /** The inner loop of `check_error`: every property of one expected error
      finds its message. */
  method FoundEach(items: seq<Json>, e: ExpectedError) returns (ok: bool)
    ensures ok == EachFound(items, e)
  {
    var j := 0;
    while j < |e|
      invariant 0 <= j <= |e|
      invariant forall j' {:trigger PropertyFound(items, e[j'])} | 0 <= j' < j :: PropertyFound(items, e[j'])
    {
      if !PropertyFound(items, e[j]) {
        return false;
      }
      j := j + 1;
    }
    return true;
  }

  /** The outer loop of `check_error`: every expected error is found. */
  method FoundAll(items: seq<Json>, errors: seq<ExpectedError>) returns (ok: bool)
    ensures ok == AllFound(items, errors)
  {
    var i := 0;
    while i < |errors|
      invariant 0 <= i <= |errors|
      invariant forall i' {:trigger EachFound(items, errors[i'])} | 0 <= i' < i :: EachFound(items, errors[i'])
    {
      var each := FoundEach(items, errors[i]);
      if !each {
        return false;
      }
      i := i + 1;
    }
    return true;
  }

  /** `check_error`, expectation by expectation: the envelope, the shape of
      every message, then a `find` for every property of every expected
      error; the first failure ends the check. */
  method CheckError(r: Response, code: int, errors: seq<ExpectedError>) returns (passed: bool)
    ensures passed == CheckErrorPasses(r, code, errors)
  {
    if !ErrorEnvelope(r.body, code) {
      return false;
    }
    var message := Field(ErrorOf(r.body), "message");
    if |errors| > 0 {
      if !(message.value.JArr?) {
        return false;
      }
      var listed := AllListed(message.value.items);
      if !listed {
        return false;
      }
    }
    var found := FoundAll(Items(message), errors);
    if !found {
      return false;
    }
    passed := r.status == code;
  }

  /** Passing needs an error list only when errors are expected: with none,
      any message is accepted. */
  lemma NoExpectedErrors(r: Response, code: int)
    ensures CheckErrorPasses(r, code, []) <==> ErrorEnvelope(r.body, code) && r.status == code
  {
  }

  // ----- verify and verify_all -----

  /** A property of a value; an array's index and `length` properties are not
      modelled. */
  function Prop(v: Json, k: string): Option<Json> {
    if v.JObj? then Get(v.fields, k) else None
  }

  /** `expect(actual).to.containSubset(expected)` for JSON values: a
      primitive or `null` must be equal; every element of an expected array
      must be matched by some element of the actual array; every property of
      an expected object must be present, an object or array recursively, any
      other value equal. */
  function Subset(expected: Json, actual: Json): bool
    decreases expected, 0
  {
    match expected
    case JArr(es) =>
      actual.JArr? && forall i | 0 <= i < |es| :: SomeContains(es[i], actual.items)
    case JObj(fs) =>
      (actual.JObj? || actual.JArr?) && forall key | key in fs :: PropSubset(fs[key], Prop(actual, key))
    case _ => expected == actual
  }

  /** Some element of the actual array contains an expected element. */
  predicate SomeContains(e: Json, actuals: seq<Json>)
    decreases e, 1
  {
    exists k | 0 <= k < |actuals| :: Subset(e, actuals[k])
  }

  /** One property of `containSubset`: an expected object or array needs an
      actual value that is not `null` and contains it; any other expected
      value must be there and equal. */
  function PropSubset(eo: Json, ao: Option<Json>): bool
    decreases eo, 1
  {
    if eo.JObj? || eo.JArr? then ao.Some? && ao.value != JNull && Subset(eo, ao.value)
    else ao == Some(eo)
  }

  /** Every value contains itself, so a deep-equal match is a subset match. */
  lemma {:induction false} SubsetReflexive(v: Json)
    ensures Subset(v, v)
  {
    match v
    case JArr(es) =>
      forall i | 0 <= i < |es| ensures SomeContains(es[i], es) {
        SubsetReflexive(es[i]);
      }
    case JObj(fs) =>
      forall key | key in fs ensures PropSubset(fs[key], Prop(v, key)) {
        SubsetReflexive(fs[key]);
      }
    case _ =>
  }

  /** One resource compared with one body: `containSubset` or `deep.equal`. */
  predicate ResourceMatches(actual: Json, resource: Object, subset: bool) {
    if subset then Subset(JObj(resource), actual) else actual == JObj(resource)
  }

  /** The subset comparison accepts everything the deep one accepts. */
  lemma DeepMatchIsSubsetMatch(actual: Json, resource: Object)
    ensures ResourceMatches(actual, resource, false) ==> ResourceMatches(actual, resource, true)
  {
    if actual == JObj(resource) {
      SubsetReflexive(actual);
    }
  }

  /** `verify(url, resource, include)` passes. */
  predicate VerifyPasses(r: Response, resource: Object, subset: bool) {
    r.body.Some? && r.body.value.JObj? && ResourceMatches(r.body.value, resource, subset) && r.status == Http.OK
  }

  /** A server that answers 200 with the resource itself passes `verify`,
      with either comparison. */
  lemma EchoPassesVerify(resource: Object, subset: bool)
    ensures VerifyPasses(Response(Http.OK, Some(JObj(resource))), resource, subset)
  {
    DeepMatchIsSubsetMatch(JObj(resource), resource);
  }

  /** In the deep mode `verify` passes exactly for a 200 whose body is the
      resource; whatever passes it also passes the subset mode. */
  lemma VerifyModes(r: Response, resource: Object)
    ensures VerifyPasses(r, resource, false) <==> r.status == Http.OK && r.body == Some(JObj(resource))
    ensures VerifyPasses(r, resource, false) ==> VerifyPasses(r, resource, true)
  {
    if r.body.Some? {
      DeepMatchIsSubsetMatch(r.body.value, resource);
    }
  }

  /** The body is an array as long as the list whose i-th element matches
      the i-th resource, and the status is `200 OK`. */
  predicate ListMatches(r: Response, expected: seq<Object>, subset: bool) {
    && r.body.Some? && r.body.value.JArr?
    && |r.body.value.items| == |expected|
    && (forall i | 0 <= i < |expected| :: ResourceMatches(r.body.value.items[i], expected[i], subset))
    && r.status == Http.OK
  }

  /** `verify_all(url, resources, include)` passes: the body lists the
      resources in id order. */
  predicate VerifyAllPasses(r: Response, resources: seq<Object>, subset: bool, le: (Object, Object) -> bool) {
    ListMatches(r, Sorting.SortBy(resources, le), subset)
  }

  /** A server that answers the resources in id order passes `verify_all`,
      with either comparison. */
  lemma InOrderAnswerPasses(resources: seq<Object>, subset: bool, le: (Object, Object) -> bool)
    ensures var sorted := Sorting.SortBy(resources, le);
            VerifyAllPasses(Response(Http.OK, Some(JArr(seq(|sorted|, i requires 0 <= i < |sorted| => JObj(sorted[i]))))),
                            resources, subset, le)
  {
    var sorted := Sorting.SortBy(resources, le);
    forall i | 0 <= i < |sorted| ensures ResourceMatches(JObj(sorted[i]), sorted[i], subset) {
      DeepMatchIsSubsetMatch(JObj(sorted[i]), sorted[i]);
    }
  }

  /** `verify_all`: the caller's list is sorted in place into id order, then
      the body is compared element by element. */
  method VerifyAll(r: Response, resources: array<Object>, subset: bool, le: (Object, Object) -> bool) returns (passed: bool)
    modifies resources
    ensures resources[..] == Sorting.SortBy(old(resources[..]), le)
    ensures passed == VerifyAllPasses(r, old(resources[..]), subset, le)
  {
    var sorted := Sorting.SortBy(resources[..], le);
    forall i | 0 <= i < resources.Length {
      resources[i] := sorted[i];
    }
    passed := MatchAll(r, resources[..], subset);
  }

  /** The comparisons of `verify_all` once the list is in order: the body's
      type, its length, each element in turn, then the status. */
  method MatchAll(r: Response, expected: seq<Object>, subset: bool) returns (passed: bool)
    ensures passed == ListMatches(r, expected, subset)
  {
    if !(r.body.Some? && r.body.value.JArr?) || |r.body.value.items| != |expected| {
      return false;
    }
    var items := r.body.value.items;
    var i := 0;
    while i < |expected|
      invariant 0 <= i <= |expected|
      invariant forall k | 0 <= k < i :: ResourceMatches(items[k], expected[k], subset)
    {
      if !ResourceMatches(items[i], expected[i], subset) {
        return false;
      }
      i := i + 1;
    }
    passed := r.status == Http.OK;
  }
}
