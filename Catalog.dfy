/** The catalog session client of the connectors (the `BBKCatalog` class of
    bbk-catalog.js): it opens an upload session against a remote catalog,
    posts the items in consecutive pages strictly one after the other, and
    closes the session.

    Requests are recorded in the order they are put on the wire; the replies
    come from an oracle that sees every request issued so far. A promise chain
    of `BBKCatalog` is modelled as the sequential run it performs: each step
    waits for the previous reply, and the first rejection skips every later
    step. */
module Catalog {
  import opened Js
  import opened Text

  // session modes and action verbs of bbk-catalog.js
  const SESSION_STREAM := "stream"
  const SESSION_ACCRUE := "accrue"
  const SESSION_REPLACE := "replace"
  const ACTION_DELETE := "delete"
  const ACTION_UPSERT := "upsert"

  /** The page size `session` hands to `action`. */
  const SESSION_PAGE := 100

  /** A request as issued by `fetch`. Every request carries the JSON content
      type and the connector's auth token in `x-bbk-auth-token`. */
  datatype Request =
    | Get(url: string, token: string)
    | Post(url: string, token: string, body: Json)

  /** What `fetch` yields: a rejection of its own, or a reply with its `ok`
      flag, its text and its body read as JSON (None when it is not JSON). */
  datatype Response =
    | NetworkError(reason: string)
    | Reply(ok: bool, text: string, json: Option<Json>)

  datatype Failure =
    | Transport(reason: string)  // fetch itself rejected
    | HttpError(text: string)    // a non-OK reply: `new Error(text)`
    | NotJson                    // `res.json()` rejected
    | KeysOfNull                 // `Object.keys(null)` threw on a batch reply

  datatype Outcome<+T> = Resolved(value: T) | Rejected(failure: Failure)

  /** Where a connector's `upsert` ends: loading its data failed before any
      session (the error is logged), or a session ran to the given outcome. */
  datatype UpsertResult = LoadFailed(reason: string) | Synced(outcome: Outcome<()>)

  /** Replies to the last request of a history. */
  type Oracle = seq<Request> -> Response

  /** The requests issued by a run and how its promise settled. */
  datatype Trace = Trace(log: seq<Request>, outcome: Outcome<()>)

  /** `cat.replace(/\/$/, '')`: at most one trailing slash is removed. */
  function StripTrailingSlash(s: string): (r: string)
    ensures r <= s && |s| - |r| <= 1
    ensures r == s <==> (s == [] || s[|s| - 1] != '/')
  {
    if s != [] && s[|s| - 1] == '/' then s[..|s| - 1] else s
  }

  /** The session base URL every request of a connector starts with. */
  function SessionBase(cat: string, cid: string): string {
    StripTrailingSlash(cat) + "/connector/" + cid + "/session/"
  }

  /** A catalog URL with one trailing slash gives the same session base as
      the URL without it. */
  lemma SessionBaseIgnoresTrailingSlash(cat: string, cid: string)
    requires cat == [] || cat[|cat| - 1] != '/'
    ensures SessionBase(cat + "/", cid) == SessionBase(cat, cid)
  {
    assert (cat + "/")[..|cat|] == cat;
  }

  function OpenUrl(base: string, mode: string): string {
    base + "open/" + mode
  }

  /** The session id is concatenated into the URL as `String(sid)`. */
  function ActionUrl(base: string, sid: Json, verb: string): string {
    base + ToJsString(sid) + "/" + verb
  }

  function CloseUrl(base: string, sid: Json, commit: bool): string {
    base + ToJsString(sid) + "/close/" + (if commit then "true" else "false")
  }

  /** `handleFetchErrors`: a non-OK reply rejects with its text. */
  function CheckResponse(resp: Response): (r: Outcome<()>)
    ensures r.Resolved? <==> resp.Reply? && resp.ok
    ensures resp.Reply? && !resp.ok ==> r == Rejected(HttpError(resp.text))
  {
    match resp
    case NetworkError(reason) => Rejected(Transport(reason))
    case Reply(ok, text, _) => if ok then Resolved(()) else Rejected(HttpError(text))
  }

  /** `handleFetchErrors` followed by `res.json()`. */
  function ReadJson(resp: Response): (r: Outcome<Json>)
    ensures r.Resolved? <==> resp.Reply? && resp.ok && resp.json.Some?
    ensures r.Resolved? ==> r.value == resp.json.value
    ensures CheckResponse(resp).Rejected? ==> r == Rejected(CheckResponse(resp).failure)
  {
    match CheckResponse(resp)
    case Rejected(f) => Rejected(f)
    case Resolved(_) => if resp.json.Some? then Resolved(resp.json.value) else Rejected(NotJson)
  }

  /** The reply to one batch: read as JSON, whose keys are then counted for
      the log line, which throws when the reply is `null`. */
  function BatchResult(resp: Response): (r: Outcome<()>)
    ensures r.Resolved? <==> ReadJson(resp).Resolved? && ReadJson(resp).value != JNull
  {
    match ReadJson(resp)
    case Rejected(f) => Rejected(f)
    case Resolved(j) => if j == JNull then Rejected(KeysOfNull) else Resolved(())
  }

  /** `i.id`, written by `JSON.stringify` as `null` when undefined. */
  function IdOf(item: Object): Json {
    if "id" in item then item["id"] else JNull
  }

  /** The ids of a batch, in the batch's order (`items.map(i => i.id)`). */
  function Ids(batch: seq<Object>): (ids: seq<Json>)
    ensures |ids| == |batch|
    ensures forall i | 0 <= i < |batch| :: ids[i] == IdOf(batch[i])
  {
    if batch == [] then [] else [IdOf(batch[0])] + Ids(batch[1..])
  }

  /** The records themselves, as JSON objects. */
  function Records(batch: seq<Object>): (rs: seq<Json>)
    ensures |rs| == |batch|
    ensures forall i | 0 <= i < |batch| :: rs[i] == JObj(batch[i])
  {
    if batch == [] then [] else [JObj(batch[0])] + Records(batch[1..])
  }

  /** The body of a batch post: the records for `upsert`, only their ids for
      any other verb. */
  function BatchBody(verb: string, batch: seq<Object>): Json {
    JArr(if verb == ACTION_UPSERT then Records(batch) else Ids(batch))
  }

  /** What the two kinds of body hold, element by element. */
  lemma BatchBodyContents(verb: string, batch: seq<Object>)
    ensures BatchBody(verb, batch).JArr? && |BatchBody(verb, batch).items| == |batch|
    ensures forall i | 0 <= i < |batch| ::
              BatchBody(verb, batch).items[i]
                == if verb == ACTION_UPSERT then JObj(batch[i]) else IdOf(batch[i])
  {
  }

  function Min(a: int, b: int): int {
    if a < b then a else b
  }

  /** The consecutive pages `action` posts: `items.slice(start, end)` for
      `start = 0, page, 2 * page, ...` while `start < items.length`. */
  function Batches(items: seq<Object>, page: nat): seq<seq<Object>>
    requires page > 0
    decreases |items|
  {
    if items == [] then []
    else if |items| <= page then [items]
    else [items[..page]] + Batches(items[page..], page)
  }

  function Flatten(bs: seq<seq<Object>>): seq<Object> {
    if bs == [] then [] else bs[0] + Flatten(bs[1..])
  }

  /** The pages concatenate back to the items, in order. */
  lemma {:induction false} BatchesFlatten(items: seq<Object>, page: nat)
    requires page > 0
    ensures Flatten(Batches(items, page)) == items
    decreases |items|
  {
    var bs := Batches(items, page);
    if items == [] {
    } else if |items| <= page {
      assert Flatten(bs) == items + Flatten([]);
    } else {
      var rest := Batches(items[page..], page);
      BatchesFlatten(items[page..], page);
      assert bs == [items[..page]] + rest;
      assert bs[1..] == rest;
      assert Flatten(bs) == items[..page] + Flatten(rest);
      assert items == items[..page] + items[page..];
    }
  }

  /** There are ceil(n / page) pages, each holding between 1 and `page` items. */
  lemma {:induction false} BatchesSizes(items: seq<Object>, page: nat)
    requires page > 0
    ensures |items| <= |Batches(items, page)| * page
    ensures |Batches(items, page)| > 0 ==> (|Batches(items, page)| - 1) * page < |items|
    ensures forall k | 0 <= k < |Batches(items, page)| ::
              0 < |Batches(items, page)[k]| <= page
    decreases |items|
  {
    var bs := Batches(items, page);
    if items == [] {
    } else if |items| <= page {
      assert bs == [items];
    } else {
      var rest := Batches(items[page..], page);
      BatchesSizes(items[page..], page);
      assert bs == [items[..page]] + rest;
      assert |bs| == |rest| + 1;
      MulSucc(|rest|, page);
      forall k | 0 <= k < |bs| ensures 0 < |bs[k]| <= page {
        if k > 0 { assert bs[k] == rest[k - 1]; }
      }
    }
  }

  /** The pages partition the items exactly and in order, there are
      ceil(n / page) of them (the fewest pages of `page` items that hold n
      items), and each holds between 1 and `page` items. */
  lemma BatchesPartition(items: seq<Object>, page: nat)
    requires page > 0
    ensures Flatten(Batches(items, page)) == items
    ensures |items| <= |Batches(items, page)| * page
    ensures |Batches(items, page)| > 0 ==> (|Batches(items, page)| - 1) * page < |items|
    ensures forall k | 0 <= k < |Batches(items, page)| ::
              0 < |Batches(items, page)[k]| <= page
  {
    BatchesFlatten(items, page);
    BatchesSizes(items, page);
  }

  /** Page k is exactly `items[k * page .. min((k + 1) * page, n)]`. */
  lemma {:induction false} BatchAt(items: seq<Object>, page: nat, k: nat)
    requires page > 0 && k < |Batches(items, page)|
    ensures k * page < |items|
    ensures Batches(items, page)[k] == items[k * page .. Min((k + 1) * page, |items|)]
    decreases |items|
  {
    if |items| <= page {
      assert Batches(items, page) == [items];
      assert k == 0;
    } else if k == 0 {
      assert Batches(items, page) == [items[..page]] + Batches(items[page..], page);
    } else {
      var tail := items[page..];
      assert Batches(items, page) == [items[..page]] + Batches(tail, page);
      BatchAt(tail, page, k - 1);
      var lo := (k - 1) * page;
      MulSucc(k - 1, page);
      MulSucc(k, page);
      assert k * page == lo + page && (k + 1) * page == lo + page + page;
      SliceAfterPage(items, page, lo);
    }
  }

  lemma SliceAfterPage(items: seq<Object>, page: nat, lo: nat)
    requires page <= |items| && lo < |items| - page
    ensures items[page..][lo .. Min(lo + page, |items| - page)]
         == items[lo + page .. Min(lo + page + page, |items|)]
  {
  }

  lemma MulSucc(k: nat, page: nat)
    ensures (k + 1) * page == k * page + page
  {
  }

  /** A session of 250 items with page size 100 posts three pages, of 100,
      100 and 50 items. */
  lemma TwoHundredFiftyItems(items: seq<Object>)
    requires |items| == 250
    ensures |Batches(items, SESSION_PAGE)| == 3
    ensures |Batches(items, SESSION_PAGE)[0]| == 100
    ensures |Batches(items, SESSION_PAGE)[1]| == 100
    ensures |Batches(items, SESSION_PAGE)[2]| == 50
  {
    BatchesPartition(items, SESSION_PAGE);
    BatchAt(items, SESSION_PAGE, 0);
    BatchAt(items, SESSION_PAGE, 1);
    BatchAt(items, SESSION_PAGE, 2);
  }

  /** The posts of a list of pages, in order. */
  function Posts(url: string, token: string, verb: string, bs: seq<seq<Object>>): (rs: seq<Request>)
    ensures |rs| == |bs|
  {
    if bs == [] then [] else [Post(url, token, BatchBody(verb, bs[0]))] + Posts(url, token, verb, bs[1..])
  }

  /** The promise chain `action` builds: page after page, each posted only
      once the previous one was accepted, and the first rejection settles the
      whole chain. */
  function ActionTrace(log: seq<Request>, url: string, token: string, verb: string,
                       bs: seq<seq<Object>>, oracle: Oracle): Trace
    decreases |bs|
  {
    if bs == [] then Trace(log, Resolved(()))
    else
      var sent := log + [Post(url, token, BatchBody(verb, bs[0]))];
      match BatchResult(oracle(sent))
      case Rejected(f) => Trace(sent, Rejected(f))
      case Resolved(_) => ActionTrace(sent, url, token, verb, bs[1..], oracle)
  }

  /** One step of the chain: the first page is posted, and the rest follows
      only when it is accepted. */
  lemma ActionTraceStep(log: seq<Request>, url: string, token: string, verb: string,
                        b: seq<Object>, rest: seq<seq<Object>>, oracle: Oracle)
    ensures var sent := log + [Post(url, token, BatchBody(verb, b))];
            BatchResult(oracle(sent)).Rejected? ==>
              ActionTrace(log, url, token, verb, [b] + rest, oracle) == Trace(sent, BatchResult(oracle(sent)))
    ensures var sent := log + [Post(url, token, BatchBody(verb, b))];
            BatchResult(oracle(sent)).Resolved? ==>
              ActionTrace(log, url, token, verb, [b] + rest, oracle) == ActionTrace(sent, url, token, verb, rest, oracle)
  {
    assert ([b] + rest)[0] == b && ([b] + rest)[1..] == rest;
  }

  /** The pages `bs[..k]` are posted as the first of them followed by the
      rest. */
  lemma PostsPrefixStep(url: string, token: string, verb: string, bs: seq<seq<Object>>, k: nat)
    requires 1 <= k <= |bs|
    ensures Posts(url, token, verb, bs[..k])
         == [Post(url, token, BatchBody(verb, bs[0]))] + Posts(url, token, verb, bs[1..][..k - 1])
  {
    assert bs[..k][0] == bs[0];
    assert bs[..k][1..] == bs[1..][..k - 1];
  }

  /** An action only appends to the log, at most one request per page; it
      resolves after posting every page and rejects after posting at least
      one. */
  lemma {:induction false} ActionTraceLength(log: seq<Request>, url: string, token: string, verb: string,
                                             bs: seq<seq<Object>>, oracle: Oracle)
    ensures var t := ActionTrace(log, url, token, verb, bs, oracle);
            && log <= t.log
            && |t.log| <= |log| + |bs|
            && (t.outcome.Resolved? ==> |t.log| == |log| + |bs|)
            && (t.outcome.Rejected? ==> |t.log| > |log|)
    decreases |bs|
  {
    if bs != [] {
      var sent := log + [Post(url, token, BatchBody(verb, bs[0]))];
      if BatchResult(oracle(sent)).Resolved? {
        ActionTraceLength(sent, url, token, verb, bs[1..], oracle);
      }
    }
  }

  /** A log that extends `log + [p]` continues after `log` with `p`. */
  lemma SuffixAfter(a: seq<Request>, log: seq<Request>, p: Request)
    requires log + [p] <= a
    ensures a[|log|..] == [p] + a[|log| + 1..]
  {
    assert a[|log|] == p;
  }

  /** The requests an action adds to the log are the posts of its first pages. */
  lemma {:induction false} ActionTracePosts(log: seq<Request>, url: string, token: string, verb: string,
                                            bs: seq<seq<Object>>, oracle: Oracle)
    ensures var t := ActionTrace(log, url, token, verb, bs, oracle);
            && |log| <= |t.log| <= |log| + |bs|
            && t.log[|log|..] == Posts(url, token, verb, bs[..|t.log| - |log|])
    decreases |bs|
  {
    ActionTraceLength(log, url, token, verb, bs, oracle);
    if bs != [] {
      var p := Post(url, token, BatchBody(verb, bs[0]));
      var sent := log + [p];
      var t := ActionTrace(log, url, token, verb, bs, oracle);
      var k := |t.log| - |log|;
      PostsPrefixStep(url, token, verb, bs, k);
      if BatchResult(oracle(sent)).Rejected? {
        assert t.log == sent;
        assert t.log[|log|..] == [p];
        assert bs[1..][..k - 1] == [];
      } else {
        assert t == ActionTrace(sent, url, token, verb, bs[1..], oracle);
        ActionTraceLength(sent, url, token, verb, bs[1..], oracle);
        ActionTracePosts(sent, url, token, verb, bs[1..], oracle);
        SuffixAfter(t.log, log, p);
      }
    }
  }

  /** An action issues the posts of a prefix of its pages, in order, and
      nothing else; when it resolves, that prefix is every page, and when it
      rejects, at least one page was posted. */
  lemma ActionTraceSends(log: seq<Request>, url: string, token: string, verb: string,
                         bs: seq<seq<Object>>, oracle: Oracle)
    ensures var t := ActionTrace(log, url, token, verb, bs, oracle);
            && log <= t.log
            && |t.log| <= |log| + |bs|
            && t.log[|log|..] == Posts(url, token, verb, bs[..|t.log| - |log|])
            && (t.outcome.Resolved? ==> |t.log| == |log| + |bs|)
            && (t.outcome.Rejected? ==> |t.log| > |log|)
  {
    ActionTraceLength(log, url, token, verb, bs, oracle);
    ActionTracePosts(log, url, token, verb, bs, oracle);
  }

  /** Every post of an action but the last was accepted; the action resolves
      exactly when the last post (if any) was accepted too, and otherwise
      rejects with the failure of that last post. */
  lemma {:induction false} ActionTraceStopsAtFirstFailure(log: seq<Request>, url: string, token: string,
                                                          verb: string, bs: seq<seq<Object>>, oracle: Oracle)
    ensures var t := ActionTrace(log, url, token, verb, bs, oracle);
            && (forall j | |log| < j < |t.log| :: log <= t.log[..j] && BatchResult(oracle(t.log[..j])).Resolved?)
            && (t.outcome.Resolved? ==> t.log == log || BatchResult(oracle(t.log)).Resolved?)
            && (t.outcome.Rejected? ==> t.outcome == BatchResult(oracle(t.log)))
    decreases |bs|
  {
    ActionTraceSends(log, url, token, verb, bs, oracle);
    if bs != [] {
      var sent := log + [Post(url, token, BatchBody(verb, bs[0]))];
      var t := ActionTrace(log, url, token, verb, bs, oracle);
      if BatchResult(oracle(sent)).Resolved? {
        assert t == ActionTrace(sent, url, token, verb, bs[1..], oracle);
        ActionTraceSends(sent, url, token, verb, bs[1..], oracle);
        ActionTraceStopsAtFirstFailure(sent, url, token, verb, bs[1..], oracle);
        forall j | |log| < j < |t.log|
          ensures log <= t.log[..j] && BatchResult(oracle(t.log[..j])).Resolved?
        {
          if j == |sent| {
            assert t.log[..j] == sent;
          } else {
            assert sent <= t.log[..j];
          }
        }
      }
    }
  }

  /** What an action does depends only on the replies to histories it can
      reach: two oracles that agree on every history no longer than the last
      possible post produce the same run. */
  lemma {:induction false} ActionTraceUsesOnlyItsReplies(log: seq<Request>, url: string, token: string,
                                                         verb: string, bs: seq<seq<Object>>,
                                                         o1: Oracle, o2: Oracle)
    requires forall h: seq<Request> | |h| <= |log| + |bs| :: o1(h) == o2(h)
    ensures ActionTrace(log, url, token, verb, bs, o1) == ActionTrace(log, url, token, verb, bs, o2)
    decreases |bs|
  {
    if bs != [] {
      var sent := log + [Post(url, token, BatchBody(verb, bs[0]))];
      assert o1(sent) == o2(sent);
      ActionTraceUsesOnlyItsReplies(sent, url, token, verb, bs[1..], o1, o2);
    }
  }

  /** A session run: the session id afterwards, the requests issued and the
      outcome. */
  datatype SessionRun = SessionRun(sid: Json, log: seq<Request>, outcome: Outcome<()>)

  /** `open(mode)`, then `action(verb, items, 100)`, then `close(true)`,
      whose own promise is dropped. */
  function SessionTrace(base: string, token: string, sid0: Json, log0: seq<Request>,
                        mode: string, verb: string, items: seq<Object>, oracle: Oracle): SessionRun
  {
    var afterOpen := log0 + [Get(OpenUrl(base, mode), token)];
    match ReadJson(oracle(afterOpen))
    case Rejected(f) => SessionRun(sid0, afterOpen, Rejected(f))
    case Resolved(sid) =>
      var act := ActionTrace(afterOpen, ActionUrl(base, sid, verb), token, verb,
                             Batches(items, SESSION_PAGE), oracle);
      if act.outcome.Rejected? then SessionRun(sid, act.log, act.outcome)
      else SessionRun(sid, act.log + [Get(CloseUrl(base, sid, true), token)], Resolved(()))
  }

  /** A session first requests the open URL; a failed open issues nothing
      else, leaves the session id alone and rejects; a successful one makes
      its reply the session id. */
  lemma SessionOpensFirst(base: string, token: string, sid0: Json, log0: seq<Request>,
                          mode: string, verb: string, items: seq<Object>, oracle: Oracle)
    ensures var run := SessionTrace(base, token, sid0, log0, mode, verb, items, oracle);
            var afterOpen := log0 + [Get(OpenUrl(base, mode), token)];
            && afterOpen <= run.log
            && (ReadJson(oracle(afterOpen)).Rejected? ==>
                  run.log == afterOpen && run.sid == sid0 && run.outcome.Rejected?)
            && (ReadJson(oracle(afterOpen)).Resolved? ==> run.sid == oracle(afterOpen).json.value)
  {
    var afterOpen := log0 + [Get(OpenUrl(base, mode), token)];
    if ReadJson(oracle(afterOpen)).Resolved? {
      var sid := ReadJson(oracle(afterOpen)).value;
      ActionTraceSends(afterOpen, ActionUrl(base, sid, verb), token, verb, Batches(items, SESSION_PAGE), oracle);
    }
  }

  lemma {:induction false} PostsArePosts(url: string, token: string, verb: string, bs: seq<seq<Object>>)
    ensures forall i | 0 <= i < |bs| :: Posts(url, token, verb, bs)[i].Post?
  {
    if bs != [] {
      PostsArePosts(url, token, verb, bs[1..]);
      var rs := Posts(url, token, verb, bs);
      forall i | 0 <= i < |bs| ensures rs[i].Post? {
        if i > 0 { assert rs[i] == Posts(url, token, verb, bs[1..])[i - 1]; }
      }
    }
  }

  /** A session that resolves issued the open, the post of every page and
      then the close, in that order. */
  lemma SessionSuccessLog(base: string, token: string, sid0: Json, log0: seq<Request>,
                          mode: string, verb: string, items: seq<Object>, oracle: Oracle)
    requires SessionTrace(base, token, sid0, log0, mode, verb, items, oracle).outcome.Resolved?
    ensures var run := SessionTrace(base, token, sid0, log0, mode, verb, items, oracle);
            run.log == log0 + [Get(OpenUrl(base, mode), token)]
                       + Posts(ActionUrl(base, run.sid, verb), token, verb, Batches(items, SESSION_PAGE))
                       + [Get(CloseUrl(base, run.sid, true), token)]
  {
    var afterOpen := log0 + [Get(OpenUrl(base, mode), token)];
    var sid := ReadJson(oracle(afterOpen)).value;
    var url := ActionUrl(base, sid, verb);
    var bs := Batches(items, SESSION_PAGE);
    var act := ActionTrace(afterOpen, url, token, verb, bs, oracle);
    assert SessionTrace(base, token, sid0, log0, mode, verb, items, oracle)
        == SessionRun(sid, act.log + [Get(CloseUrl(base, sid, true), token)], Resolved(()));
    ActionTraceSends(afterOpen, url, token, verb, bs, oracle);
    assert bs[..|bs|] == bs;
    assert act.log == afterOpen + act.log[|afterOpen|..];
  }

  /** A session that rejects never closed: after the open it issued nothing
      but posts. */
  lemma SessionFailureNeverCloses(base: string, token: string, sid0: Json, log0: seq<Request>,
                                  mode: string, verb: string, items: seq<Object>, oracle: Oracle)
    requires SessionTrace(base, token, sid0, log0, mode, verb, items, oracle).outcome.Rejected?
    ensures var run := SessionTrace(base, token, sid0, log0, mode, verb, items, oracle);
            && |log0| + 1 <= |run.log|
            && forall j | |log0| + 1 <= j < |run.log| :: run.log[j].Post?
  {
    var afterOpen := log0 + [Get(OpenUrl(base, mode), token)];
    var run := SessionTrace(base, token, sid0, log0, mode, verb, items, oracle);
    if ReadJson(oracle(afterOpen)).Resolved? {
      var sid := ReadJson(oracle(afterOpen)).value;
      var url := ActionUrl(base, sid, verb);
      var bs := Batches(items, SESSION_PAGE);
      var act := ActionTrace(afterOpen, url, token, verb, bs, oracle);
      assert run.log == act.log by {
        assert run == SessionRun(sid, act.log, act.outcome);
      }
      var k := |act.log| - |afterOpen|;
      assert 0 <= k <= |bs| && act.log[|afterOpen|..] == Posts(url, token, verb, bs[..k]) by {
        ActionTracePosts(afterOpen, url, token, verb, bs, oracle);
      }
      var sent := act.log[|afterOpen|..];
      PostsArePosts(url, token, verb, bs[..k]);
      forall j | |afterOpen| <= j < |run.log| ensures run.log[j].Post? {
        assert run.log[j] == sent[j - |afterOpen|];
      }
    }
  }

  /** The result of a session does not depend on how the close is answered:
      two oracles that agree up to the last page produce the same run. */
  lemma SessionIgnoresCloseReply(base: string, token: string, sid0: Json, log0: seq<Request>,
                                 mode: string, verb: string, items: seq<Object>, o1: Oracle, o2: Oracle)
    requires forall h: seq<Request> | |h| <= |log0| + 1 + |Batches(items, SESSION_PAGE)| :: o1(h) == o2(h)
    ensures SessionTrace(base, token, sid0, log0, mode, verb, items, o1)
         == SessionTrace(base, token, sid0, log0, mode, verb, items, o2)
  {
    var afterOpen := log0 + [Get(OpenUrl(base, mode), token)];
    assert o1(afterOpen) == o2(afterOpen);
    if ReadJson(o1(afterOpen)).Resolved? {
      var sid := ReadJson(o1(afterOpen)).value;
      ActionTraceUsesOnlyItsReplies(afterOpen, ActionUrl(base, sid, verb), token, verb,
                                    Batches(items, SESSION_PAGE), o1, o2);
    }
  }

  /** The items of `items` from position `start` on (none once past the end). */
  function Drop(items: seq<Object>, start: nat): seq<Object> {
    if start < |items| then items[start..] else []
  }

  lemma BatchesFrom(items: seq<Object>, page: nat, start: nat)
    requires page > 0 && start < |items|
    ensures Batches(Drop(items, start), page)
         == [items[start..Min(start + page, |items|)]] + Batches(Drop(items, start + page), page)
  {
    var rest := items[start..];
    assert Drop(items, start) == rest;
    if |rest| > page {
      assert Batches(rest, page) == [rest[..page]] + Batches(rest[page..], page);
      assert rest[..page] == items[start..start + page];
      assert rest[page..] == items[start + page..];
      assert Drop(items, start + page) == items[start + page..];
    } else {
      assert Batches(rest, page) == [rest];
      assert rest == items[start..|items|];
      assert Drop(items, start + page) == [];
    }
  }

  /** One turn of the action loop: the page at `start` is posted, and the
      remaining pages follow only when it is accepted. */
  lemma ActionStepFrom(log: seq<Request>, next: seq<Request>, url: string, token: string, verb: string,
                       items: seq<Object>, page: nat, start: nat, after: nat, oracle: Oracle)
    requires page > 0 && start < |items| && after == start + page
    requires next == log + [Post(url, token, BatchBody(verb, items[start..Min(start + page, |items|)]))]
    ensures BatchResult(oracle(next)).Rejected? ==>
              ActionTrace(log, url, token, verb, Batches(Drop(items, start), page), oracle)
              == Trace(next, BatchResult(oracle(next)))
    ensures BatchResult(oracle(next)).Resolved? ==>
              ActionTrace(log, url, token, verb, Batches(Drop(items, start), page), oracle)
              == ActionTrace(next, url, token, verb, Batches(Drop(items, after), page), oracle)
  {
    var chunk := items[start..Min(start + page, |items|)];
    var rest := Batches(Drop(items, after), page);
    assert Batches(Drop(items, start), page) == [chunk] + rest by {
      BatchesFrom(items, page, start);
    }
    ActionTraceStep(log, url, token, verb, chunk, rest, oracle);
  }

  /** The loop of `action` on its own: starting from the requests already
      sent, post the pages of `items` to `url` one after the other, stopping
      at the first rejected page. */
  method PostPages(log: seq<Request>, url: string, token: string, verb: string,
                   items: seq<Object>, page: nat, oracle: Oracle) returns (sent: seq<Request>, r: Outcome<()>)
    requires page > 0
    ensures Trace(sent, r) == ActionTrace(log, url, token, verb, Batches(items, page), oracle)
  {
    sent := log;
    var start: nat := 0;
    ghost var whole := ActionTrace(log, url, token, verb, Batches(items, page), oracle);
    while start < |items|
      invariant ActionTrace(sent, url, token, verb, Batches(Drop(items, start), page), oracle) == whole
      decreases |items| - start
    {
      var end := Min(start + page, |items|);
      ghost var before := sent;
      ghost var from := start;
      sent := sent + [Post(url, token, BatchBody(verb, items[start..end]))];
      var result := BatchResult(oracle(sent));
      start := start + page;
      ActionStepFrom(before, sent, url, token, verb, items, page, from, start, oracle);
      if result.Rejected? {
        return sent, result;
      }
    }
    assert Batches(Drop(items, start), page) == [];
    r := Resolved(());
  }

  /** The `BBKCatalog` object of one connector. */
  class BBKCatalog {
    const cid: string
    const key: string
    /** `this.cat`: the session base URL. */
    const base: string
    /** The session id, JavaScript `null` until an `open` succeeds. */
    var sid: Json
    /** Every request this object has issued, in order. */
    var log: seq<Request>

    constructor (cat: string, cid: string, key: string)
      ensures this.cid == cid && this.key == key
      ensures base == SessionBase(cat, cid)
      ensures sid == JNull && log == []
    {
      this.cid := cid;
      this.key := key;
      this.base := SessionBase(cat, cid);
      sid := JNull;
      log := [];
    }

    /** Requests the open URL for `mode`; on a JSON reply of an OK response
        the session id becomes that reply, otherwise it is left as it was. */
    method Open(mode: string, oracle: Oracle) returns (r: Outcome<Json>)
      modifies this
      ensures log == old(log) + [Get(OpenUrl(base, mode), key)]
      ensures r == ReadJson(oracle(log))
      ensures sid == (if r.Resolved? then r.value else old(sid))
    {
      log := log + [Get(OpenUrl(base, mode), key)];
      r := ReadJson(oracle(log));
      if r.Resolved? {
        sid := r.value;
      }
    }

    /** Requests the close URL of the current session id. */
    method Close(commit: bool, oracle: Oracle) returns (r: Outcome<()>)
      modifies this
      ensures log == old(log) + [Get(CloseUrl(base, sid, commit), key)]
      ensures r == CheckResponse(oracle(log))
      ensures sid == old(sid)
    {
      log := log + [Get(CloseUrl(base, sid, commit), key)];
      r := CheckResponse(oracle(log));
    }

    /** Posts the items in pages of `page`, one page at a time, to the action
        URL of the current session id (nothing checks that a session is open).
        A page size of zero would never advance, so it is excluded. */
    method Action(verb: string, items: seq<Object>, page: nat, oracle: Oracle) returns (r: Outcome<()>)
      requires page > 0
      modifies this
      ensures sid == old(sid)
      ensures Trace(log, r) == ActionTrace(old(log), ActionUrl(base, sid, verb), key, verb,
                                           Batches(items, page), oracle)
    {
      var url := base + ToJsString(sid) + "/" + verb;
      var sent;
      sent, r := PostPages(log, url, key, verb, items, page, oracle);
      log := sent;
    }

    /** `open(mode)`, then `action(verb, items, 100)`, then `close(true)`. */
    method Session(mode: string, verb: string, items: seq<Object>, oracle: Oracle) returns (r: Outcome<()>)
      modifies this
      ensures SessionRun(sid, log, r) == SessionTrace(base, key, old(sid), old(log), mode, verb, items, oracle)
    {
      var afterOpen := Open(mode, oracle);
      if afterOpen.Rejected? {
        return Rejected(afterOpen.failure);
      }
      r := Action(verb, items, SESSION_PAGE, oracle);
      if r.Rejected? {
        return;
      }
      var closed := Close(true, oracle);
      r := Resolved(());
    }
  }
}
