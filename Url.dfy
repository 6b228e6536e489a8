/** URLs as the browser apps handle them: an address and an ordered list of
    query parameters with the `URLSearchParams` operations `get`, `has`, `set`
    and `delete`, and the conversion between a URL string and that structure
    (`new URL(s)` and `url.toString()`).

    Names and values are kept verbatim; the percent-encoding and the `+` for a
    space that a browser applies when it serialises or parses a query are not
    modelled, and neither is the `#` fragment. */
module Url {
  import opened Js
  import opened Text
  import Sorting

  type Param = (string, string)

  /** `params.get(name)`: the value of the first pair with that name. */
  function GetParam(ps: seq<Param>, name: string): (r: Option<string>)
    ensures r.Some? ==> (name, r.value) in ps
    ensures r.None? ==> forall i | 0 <= i < |ps| :: ps[i].0 != name
  {
    if ps == [] then None
    else if ps[0].0 == name then Some(ps[0].1)
    else GetParam(ps[1..], name)
  }

  /** `get` answers the value of the first pair with that name. */
  lemma {:induction false} GetParamFirst(ps: seq<Param>, name: string, i: nat)
    requires i < |ps| && ps[i].0 == name
    requires forall j | 0 <= j < i :: ps[j].0 != name
    ensures GetParam(ps, name) == Some(ps[i].1)
  {
    if i > 0 {
      assert forall j | 0 <= j < i - 1 :: ps[1..][j] == ps[j + 1];
      GetParamFirst(ps[1..], name, i - 1);
    }
  }

  /** `params.has(name)`. */
  predicate HasParam(ps: seq<Param>, name: string) {
    GetParam(ps, name).Some?
  }

  /** `params.delete(name)`: every pair with that name removed, the others
      kept in their order. */
  function DeleteParam(ps: seq<Param>, name: string): (r: seq<Param>)
    ensures |r| <= |ps|
    ensures HasParam(ps, name) ==> |r| < |ps|
    ensures forall i | 0 <= i < |r| :: r[i].0 != name && r[i] in ps
    ensures forall i | 0 <= i < |ps| && ps[i].0 != name :: ps[i] in r
  {
    if ps == [] then []
    else
      var rest := DeleteParam(ps[1..], name);
      assert forall i | 1 <= i < |ps| :: ps[i] == ps[1..][i - 1];
      if ps[0].0 == name then rest else [ps[0]] + rest
  }

  /** `delete` keeps exactly the pairs with another name, in their order and
      with their repetitions. */
  lemma {:induction false} DeleteParamIsFilter(ps: seq<Param>, name: string)
    ensures DeleteParam(ps, name) == Sorting.Filter(ps, (p: Param) => p.0 != name)
  {
    if ps != [] {
      DeleteParamIsFilter(ps[1..], name);
    }
  }

  /** Deleting a name leaves no value under it and every other value as it was. */
  lemma {:induction false} DeleteParamGet(ps: seq<Param>, name: string, other: string)
    ensures GetParam(DeleteParam(ps, name), name).None?
    ensures other != name ==> GetParam(DeleteParam(ps, name), other) == GetParam(ps, other)
  {
    if ps != [] {
      DeleteParamGet(ps[1..], name, other);
    }
  }

  /** The pair named name, first among those with that name, gets value v;
      the later ones are removed. */
  function SetFirst(ps: seq<Param>, name: string, v: string): (r: seq<Param>)
    requires HasParam(ps, name)
    ensures |r| <= |ps|
    ensures forall i | 0 <= i < |r| :: r[i] == (name, v) || r[i] in ps
  {
    if ps[0].0 == name then [(name, v)] + DeleteParam(ps[1..], name)
    else [ps[0]] + SetFirst(ps[1..], name, v)
  }

  /** `params.set(name, v)`: the first pair with that name takes the value v
      and the others with that name are removed; without one, the pair is
      appended. */
  function SetParam(ps: seq<Param>, name: string, v: string): (r: seq<Param>)
    ensures forall i | 0 <= i < |r| :: r[i] == (name, v) || r[i] in ps
  {
    if HasParam(ps, name) then SetFirst(ps, name, v) else ps + [(name, v)]
  }

  lemma {:induction false} SetFirstGet(ps: seq<Param>, name: string, v: string, other: string)
    requires HasParam(ps, name)
    ensures GetParam(SetFirst(ps, name, v), name) == Some(v)
    ensures other != name ==> GetParam(SetFirst(ps, name, v), other) == GetParam(ps, other)
  {
    if ps[0].0 == name {
      DeleteParamGet(ps[1..], name, other);
    } else {
      SetFirstGet(ps[1..], name, v, other);
    }
  }

  lemma {:induction false} AppendGet(ps: seq<Param>, p: Param, name: string)
    requires !HasParam(ps, p.0) || name != p.0
    ensures GetParam(ps + [p], name) == if name == p.0 then Some(p.1) else GetParam(ps, name)
  {
    if ps == [] {
    } else {
      assert (ps + [p])[1..] == ps[1..] + [p];
      AppendGet(ps[1..], p, name);
    }
  }

  /** After `set`, `get` answers the new value for that name and the old one
      for every other name. */
  lemma SetParamGet(ps: seq<Param>, name: string, v: string, other: string)
    ensures GetParam(SetParam(ps, name, v), name) == Some(v)
    ensures other != name ==> GetParam(SetParam(ps, name, v), other) == GetParam(ps, other)
  {
    if HasParam(ps, name) {
      SetFirstGet(ps, name, v, other);
    } else {
      AppendGet(ps, (name, v), name);
      AppendGet(ps, (name, v), other);
    }
  }

  /** A `URLSearchParams` object: the pair list its methods update in place. */
  class SearchParams {
    var pairs: seq<Param>

    constructor (init: seq<Param>)
      ensures pairs == init
    {
      pairs := init;
    }

    method Set(name: string, v: string)
      modifies this
      ensures pairs == SetParam(old(pairs), name, v)
    {
      pairs := SetParam(pairs, name, v);
    }

    method Delete(name: string)
      modifies this
      ensures pairs == DeleteParam(old(pairs), name)
    {
      pairs := DeleteParam(pairs, name);
    }
  }

  /** A URL: everything before the first `?`, and the parsed query. */
  datatype Url = Url(address: string, query: seq<Param>)

  /** One `name=value` part of a query; a part without `=` is a name with an
      empty value. */
  function ParsePart(part: string): Param {
    if '=' in part then
      var i := CharIndex(part, '=');
      (part[..i], part[i + 1..])
    else (part, "")
  }

  /** The pairs of the `&`-separated parts of a query; empty parts are skipped. */
  function ParseParts(parts: seq<string>): seq<Param> {
    if parts == [] then []
    else (if parts[0] == "" then [] else [ParsePart(parts[0])]) + ParseParts(parts[1..])
  }

  /** `new URL(s)`: the address and the query parameters of s. */
  function ParseUrl(s: string): (u: Url)
    ensures '?' !in u.address && u.address <= s
  {
    if '?' in s then
      var i := CharIndex(s, '?');
      Url(s[..i], ParseParts(Split(s[i + 1..], '&')))
    else Url(s, [])
  }

  function PartOf(p: Param): string {
    p.0 + "=" + p.1
  }

  function Parts(ps: seq<Param>): (r: seq<string>)
    ensures |r| == |ps|
    ensures forall i | 0 <= i < |ps| :: r[i] == PartOf(ps[i])
  {
    if ps == [] then [] else [PartOf(ps[0])] + Parts(ps[1..])
  }

  /** `url.toString()`: a URL with no parameters has no `?`. */
  function Href(u: Url): string {
    if u.query == [] then u.address else u.address + "?" + Join(Parts(u.query), '&')
  }

  /** A pair the query syntax can carry: no `=` or `&` in the name and no `&`
      in the value. */
  predicate PlainParam(p: Param) {
    '=' !in p.0 && '&' !in p.0 && '&' !in p.1
  }

  lemma {:induction false} ParsePartsOfParts(ps: seq<Param>)
    requires forall i | 0 <= i < |ps| :: PlainParam(ps[i])
    ensures ParseParts(Parts(ps)) == ps
  {
    if ps != [] {
      var part := PartOf(ps[0]);
      assert part[|ps[0].0|] == '=';
      assert CharIndex(part, '=') == |ps[0].0|;
      assert part[..|ps[0].0|] == ps[0].0 && part[|ps[0].0| + 1..] == ps[0].1;
      assert Parts(ps)[1..] == Parts(ps[1..]);
      ParsePartsOfParts(ps[1..]);
    }
  }

  /** Reading back a serialised URL gives the same address and parameters. */
  lemma ParseHref(u: Url)
    requires '?' !in u.address
    requires forall i | 0 <= i < |u.query| :: PlainParam(u.query[i])
    ensures ParseUrl(Href(u)) == u
  {
    if u.query != [] {
      var s := Href(u);
      var q := Join(Parts(u.query), '&');
      assert s[|u.address|] == '?';
      assert CharIndex(s, '?') == |u.address|;
      assert s[..|u.address|] == u.address && s[|u.address| + 1..] == q;
      assert forall i | 0 <= i < |Parts(u.query)| :: '&' !in Parts(u.query)[i] by {
        forall i | 0 <= i < |Parts(u.query)| ensures '&' !in Parts(u.query)[i] {
          assert Parts(u.query)[i] == u.query[i].0 + "=" + u.query[i].1;
        }
      }
      SplitJoin(Parts(u.query), '&');
      ParsePartsOfParts(u.query);
    }
  }
}
