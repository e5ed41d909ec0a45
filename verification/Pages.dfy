/** Reading a complete call list page by page, and ending a call in the region that has it
    (twilio_call.py). The provider is an oracle: what it answers to the k-th request. */
module Pages {
  import opened Base
  import opened Positions

  datatype Row = Row(sid: string, status: string, startTime: Option<real>, direction: string, caller: Option<string>)

  /** The first request carries the filters, a later one the address of a continuation. */
  datatype Target = Filtered | At(url: string)

  /** A page that validates, or whatever goes wrong while it is fetched and checked. */
  datatype Answer = Page(calls: seq<Row>, next: Option<string>) | Failed

  /** `answer` is the provider; `resolve` checks a continuation and makes it absolute, None
      where it is malformed or leads to another host or collection. */
  datatype Site = Site(answer: (nat, Target) -> Answer, resolve: string -> Option<string>)

  datatype Result = Rows(rows: seq<Row>) | Incomplete(pages: nat) | BadLink | BadPage | BadQuery

  /** The arguments; `blank` and `aware` tell what the destination and the time are like. */
  datatype Query = Query(blank: bool, aware: bool, after: real, pageSize: int, maxPages: int)

  predicate ValidQuery(q: Query) {
    !q.blank && q.aware && 1 <= q.pageSize <= 1000 && 1 <= q.maxPages
  }

  /** The target of the k-th request of an unlimited reader, None if the chain of
      continuations does not get that far. */
  function TargetAt(site: Site, k: nat): Option<Target>
    decreases k, 0
  {
    if k == 0 then Some(Filtered)
    else if Continues(site, k - 1) then
      Some(At(site.resolve(AnswerAt(site, k - 1).next.value).value))
    else None
  }

  function AnswerAt(site: Site, k: nat): Answer
    requires TargetAt(site, k).Some?
    decreases k, 1
  {
    site.answer(k, TargetAt(site, k).value)
  }

  /** Page k is reached, sound, and names a valid continuation. */
  predicate Continues(site: Site, k: nat)
    decreases k, 2
  {
    TargetAt(site, k).Some? &&
    var page := AnswerAt(site, k);
    page.Page? && page.next.Some? && site.resolve(page.next.value).Some?
  }

  /** Page k is the last of a sound chain. */
  predicate Ends(site: Site, k: nat) {
    TargetAt(site, k).Some? && AnswerAt(site, k).Page? && AnswerAt(site, k).next.None?
  }

  predicate Kept(row: Row, after: real) { row.startTime.None? || row.startTime.value > after }

  function Filter(rows: seq<Row>, after: real): seq<Row> {
    if rows == [] then []
    else Filter(rows[..|rows| - 1], after) + (if Kept(rows[|rows| - 1], after) then [rows[|rows| - 1]] else [])
  }

  /** The rows wanted of the first n pages, page after page. */
  function Collected(site: Site, after: real, n: nat): seq<Row>
    requires forall k :: 0 <= k < n ==> TargetAt(site, k).Some? && AnswerAt(site, k).Page?
  {
    if n == 0 then [] else Collected(site, after, n - 1) + Filter(AnswerAt(site, n - 1).calls, after)
  }

  /** The chain reaches page n only over sound pages with valid continuations. */
  lemma {:induction false} ReachedOverSoundPages(site: Site, n: nat, k: nat)
    requires TargetAt(site, n).Some? && k < n
    ensures Continues(site, k)
  {
    if k < n - 1 { ReachedOverSoundPages(site, n - 1, k); }
  }

  /** So a chain has at most one end, and nothing is reached behind it. */
  lemma NothingBehindTheEnd(site: Site, last: nat, k: nat)
    requires TargetAt(site, last).Some? && !Continues(site, last) && TargetAt(site, k).Some?
    ensures k <= last
  {
    if last < k { ReachedOverSoundPages(site, k, last); }
  }

  /** Filtering keeps exactly the wanted rows. */
  lemma {:induction false} FilterKeeps(rows: seq<Row>, after: real, row: Row)
    ensures row in Filter(rows, after) <==> row in rows && Kept(row, after)
  {
    if rows != [] {
      var last := |rows| - 1;
      FilterKeeps(rows[..last], after, row);
      assert rows == rows[..last] + [rows[last]];
    }
  }

  lemma {:induction false} CollectedGrows(site: Site, after: real, m: nat, n: nat)
    requires m <= n && forall k :: 0 <= k < n ==> TargetAt(site, k).Some? && AnswerAt(site, k).Page?
    ensures Collected(site, after, m) <= Collected(site, after, n)
  {
    if m < n { CollectedGrows(site, after, m, n - 1); }
  }

  ghost predicate OnPage(site: Site, row: Row, k: nat) {
    TargetAt(site, k).Some? && AnswerAt(site, k).Page? && row in AnswerAt(site, k).calls
  }

  /** A row is collected exactly if some page of the chain has it and it is wanted. */
  lemma {:induction false} CollectedIff(site: Site, after: real, n: nat, row: Row)
    requires forall k :: 0 <= k < n ==> TargetAt(site, k).Some? && AnswerAt(site, k).Page?
    ensures row in Collected(site, after, n) <==>
              Kept(row, after) && exists k :: 0 <= k < n && OnPage(site, row, k)
  {
    if n > 0 {
      CollectedIff(site, after, n - 1, row);
      FilterKeeps(AnswerAt(site, n - 1).calls, after, row);
      assert OnPage(site, row, n - 1) <==> row in AnswerAt(site, n - 1).calls;
    }
  }

  /** Rows of one page, appended one by one. */
  method AppendKept(rows: seq<Row>, calls: seq<Row>, after: real) returns (all: seq<Row>)
    ensures all == rows + Filter(calls, after)
  {
    all := rows;
    for i := 0 to |calls|
      invariant all == rows + Filter(calls[..i], after)
    {
      assert calls[..i + 1][..i] == calls[..i];
      if calls[i].startTime.None? || calls[i].startTime.value > after { all := all + [calls[i]]; }
    }
    assert calls[..|calls|] == calls;
  }

  // ---- the requests and the rows, in terms of what the provider answered

  /** The k-th answer, to `from`, is a page with a valid continuation, and `to` is that. */
  ghost predicate LeadsTo(site: Site, k: nat, from: Target, to: Target) {
    var page := site.answer(k, from);
    && page.Page? && page.next.Some? && site.resolve(page.next.value).Some?
    && to == At(site.resolve(page.next.value).value)
  }

  /** Each request behind the first goes to the valid continuation that the page before it
      named. */
  ghost predicate Follows(site: Site, asked: seq<Target>) {
    && (asked != [] ==> asked[0] == Filtered)
    && forall k :: 0 < k < |asked| ==> LeadsTo(site, k - 1, asked[k - 1], asked[k])
  }

  /** The rows of the pages answered, page after page. */
  ghost function Answered(site: Site, asked: seq<Target>): (r: seq<seq<Row>>)
    ensures |r| == |asked|
  {
    seq(|asked|, k requires 0 <= k < |asked| =>
      var page := site.answer(k, asked[k]); if page.Page? then page.calls else [])
  }

  /** Which rows have an unknown time or one after the bound. */
  ghost function InTime(rows: seq<Row>, after: real): (r: seq<bool>)
    ensures |r| == |rows|
    ensures forall k :: 0 <= k < |r| ==> (r[k] <==> rows[k].startTime.None? || rows[k].startTime.value > after)
  {
    seq(|rows|, k requires 0 <= k < |rows| => rows[k].startTime.None? || rows[k].startTime.value > after)
  }

  lemma {:induction false} FilterAt(rows: seq<Row>, after: real) returns (at: seq<nat>)
    ensures Picked(rows, InTime(rows, after), at, Filter(rows, after))
  {
    if rows == [] {
      at := [];
    } else {
      var last, chosen := |rows| - 1, InTime(rows, after);
      var before := FilterAt(rows[..last], after);
      assert chosen[..last] == InTime(rows[..last], after);
      PickedSnoc(rows, chosen, before, Filter(rows[..last], after));
      at := Snoced(before, last, chosen[last]);
    }
  }

  lemma {:induction false} FilterConcat(x: seq<Row>, y: seq<Row>, after: real)
    ensures Filter(x + y, after) == Filter(x, after) + Filter(y, after)
  {
    if y == [] {
      assert x + y == x;
    } else {
      assert (x + y)[..|x + y| - 1] == x + y[..|y| - 1];
      FilterConcat(x, y[..|y| - 1], after);
    }
  }

  /** What was asked so far are the targets of the chain. */
  ghost predicate OnChain(site: Site, asked: seq<Target>) {
    forall k :: 0 <= k < |asked| ==> TargetAt(site, k) == Some(asked[k])
  }

  lemma NextOnChain(site: Site, k: nat)
    requires TargetAt(site, k + 1).Some?
    ensures TargetAt(site, k).Some? && LeadsTo(site, k, TargetAt(site, k).value, TargetAt(site, k + 1).value)
  {
    assert Continues(site, k);
  }

  lemma ChainFollows(site: Site, asked: seq<Target>)
    requires OnChain(site, asked)
    ensures Follows(site, asked)
  {
    forall k | 0 < k < |asked| ensures LeadsTo(site, k - 1, asked[k - 1], asked[k]) { NextOnChain(site, k - 1); }
  }

  lemma {:induction false} CollectedIsFilter(site: Site, after: real, asked: seq<Target>)
    requires OnChain(site, asked) && forall k :: 0 <= k < |asked| ==> AnswerAt(site, k).Page?
    ensures Collected(site, after, |asked|) == Filter(Concat(Answered(site, asked)), after)
  {
    if asked == [] {
      assert Answered(site, asked) == [];
    } else {
      var last := |asked| - 1;
      CollectedIsFilter(site, after, asked[..last]);
      var rows := AnswerAt(site, last).calls;
      assert Answered(site, asked) == Answered(site, asked[..last]) + [rows];
      ConcatSnoc(Answered(site, asked[..last]), rows);
      FilterConcat(Concat(Answered(site, asked[..last])), rows, after);
    }
  }

  /** What the last request was answered. */
  ghost function LastAnswer(site: Site, asked: seq<Target>): Answer
    requires asked != []
  {
    site.answer(|asked| - 1, asked[|asked| - 1])
  }

  /** Rows come back exactly if the chain ends within the cap, and then they are the wanted
      rows of every page; a page or a link that is not sound raises, and so does a valid
      continuation on the last page allowed. `asked` lists where the requests went: the first
      carries the filters, each later one goes to the continuation of the page before. */
  method ListCalls(site: Site, q: Query) returns (r: Result, ghost asked: seq<Target>)
    ensures r == BadQuery <==> q.blank || !q.aware || q.pageSize < 1 || q.pageSize > 1000 || q.maxPages < 1
    ensures if r == BadQuery then asked == [] else 1 <= |asked| <= q.maxPages
    ensures Follows(site, asked)
    ensures r.Rows? ==> LastAnswer(site, asked).Page? && LastAnswer(site, asked).next.None?
    ensures r.Rows? ==> var all := Concat(Answered(site, asked));
      exists at :: Picked(all, InTime(all, q.after), at, r.rows)
    ensures r.BadPage? ==> LastAnswer(site, asked).Failed?
    ensures r.BadLink? ==> var page := LastAnswer(site, asked);
      page.Page? && page.next.Some? && site.resolve(page.next.value).None?
    ensures r.Incomplete? ==> var page := LastAnswer(site, asked);
      && |asked| == r.pages == q.maxPages
      && page.Page? && page.next.Some? && site.resolve(page.next.value).Some?
    ensures r.Rows? <==> ValidQuery(q) && exists n :: 0 <= n < q.maxPages && Ends(site, n)
    ensures r.Incomplete? <==> ValidQuery(q) && TargetAt(site, q.maxPages).Some?
  {
    asked := [];
    if q.blank || !q.aware || !(1 <= q.pageSize <= 1000) || q.maxPages < 1 { return BadQuery, asked; }
    var rows: seq<Row> := [];
    var target := Filtered;
    var requests := 0;
    while true
      invariant requests == |asked| < q.maxPages && TargetAt(site, requests) == Some(target) && OnChain(site, asked)
      invariant forall k :: 0 <= k < requests ==> AnswerAt(site, k).Page?
      invariant rows == Collected(site, q.after, requests)
      decreases q.maxPages - requests
    {
      var page := site.answer(requests, target);
      requests, asked := requests + 1, asked + [target];
      ChainFollows(site, asked);
      if page.Failed? {
        StopsAt(site, requests - 1, q.maxPages);
        return BadPage, asked;
      }
      rows := AppendKept(rows, page.calls, q.after);
      if page.next.None? {
        StopsAt(site, requests - 1, q.maxPages);
        assert Ends(site, requests - 1);
        CollectedIsFilter(site, q.after, asked);
        ghost var at := FilterAt(Concat(Answered(site, asked)), q.after);
        return Rows(rows), asked;
      }
      var url := site.resolve(page.next.value);
      if url.None? {
        StopsAt(site, requests - 1, q.maxPages);
        return BadLink, asked;
      }
      assert Continues(site, requests - 1);
      if requests == q.maxPages {
        forall n | 0 <= n < q.maxPages ensures !Ends(site, n) { ReachedOverSoundPages(site, q.maxPages, n); }
        return Incomplete(requests), asked;
      }
      target := At(url.value);
    }
  }

  /** A chain that stops at a page goes no further and ends nowhere else. */
  lemma StopsAt(site: Site, n: nat, maxPages: nat)
    requires n < maxPages && TargetAt(site, n).Some? && !Continues(site, n)
    ensures TargetAt(site, maxPages).None?
    ensures forall k: nat :: k != n ==> !Ends(site, k)
  {
    if TargetAt(site, maxPages).Some? { NothingBehindTheEnd(site, n, maxPages); }
    forall k: nat | k != n ensures !Ends(site, k) {
      if TargetAt(site, k).Some? {
        NothingBehindTheEnd(site, n, k);
        ReachedOverSoundPages(site, n, k);
      }
    }
  }

  // ---- ending a call

  /** How the update of a call goes: done, or an error of the provider. */
  datatype Update = Completed | Error(status: int, code: int)

  datatype Hangup =
    | Done
    | NotFound(hosts: seq<string>)
    | Raised(error: Update)
    | BadRegions
    | BadSid
    | NoCredentials

  /** Only these say that the call is over, and only this that the region does not have it. */
  predicate Terminal(u: Update) { u.Completed? || (u.status == 400 && u.code == 21220) }

  predicate Missing(u: Update) { u.Error? && u.status == 404 && u.code == 20404 }

  ghost predicate Distinct(hosts: seq<string>) {
    forall i, j :: 0 <= i < j < |hosts| ==> hosts[i] != hosts[j]
  }

  function HostSet(hosts: seq<string>): set<string> { set h | h in hosts }

  /** Comparing sizes, as the code does, finds every repeated host. */
  lemma {:induction false} SizesTellDistinct(hosts: seq<string>)
    ensures |HostSet(hosts)| <= |hosts|
    ensures |HostSet(hosts)| == |hosts| <==> Distinct(hosts)
  {
    if hosts == [] {
      assert HostSet(hosts) == {};
    } else {
      var last := |hosts| - 1;
      var front := hosts[..last];
      SizesTellDistinct(front);
      assert hosts == front + [hosts[last]];
      assert HostSet(hosts) == HostSet(front) + {hosts[last]};
      if hosts[last] in front {
        assert HostSet(hosts) == HostSet(front);
        var i :| 0 <= i < last && front[i] == hosts[last];
        assert hosts[i] == hosts[last];
      } else {
        assert |HostSet(hosts)| == |HostSet(front)| + 1;
        assert Distinct(hosts) <==> Distinct(front) by {
          assert forall i :: 0 <= i < last ==> hosts[i] == front[i];
          assert forall i :: 0 <= i < last ==> hosts[i] in front;
        }
      }
    }
  }

  /** The i-th region is the first that does not miss the call, and says that it is over. */
  ghost predicate EndsAt(hosts: seq<string>, update: string -> Update, i: int) {
    && 0 <= i < |hosts| && Terminal(update(hosts[i]))
    && forall j :: 0 <= j < i ==> Missing(update(hosts[j]))
  }

  /** The call counts as ended exactly if the first region that does not miss it says so;
      regions behind that one are left alone, and missing everywhere raises. */
  method HangupIn(hosts: seq<string>, update: string -> Update) returns (r: Hangup, tried: nat)
    ensures r != BadSid && r != NoCredentials
    ensures r == BadRegions <==> hosts == [] || !Distinct(hosts)
    ensures tried <= |hosts| && forall i :: 0 <= i < tried - 1 ==> update(hosts[i]) == Error(404, 20404)
    ensures r == Done <==> Distinct(hosts) && exists i :: EndsAt(hosts, update, i)
    ensures r == Done ==> 0 < tried && update(hosts[tried - 1]) in {Completed, Error(400, 21220)}
    ensures r.NotFound? <==>
              hosts != [] && Distinct(hosts) && forall i :: 0 <= i < |hosts| ==> Missing(update(hosts[i]))
    ensures r.NotFound? ==> r.hosts == hosts && tried == |hosts| && update(hosts[tried - 1]) == Error(404, 20404)
    ensures r.Raised? ==> 0 < tried && r.error == update(hosts[tried - 1])
    ensures r.Raised? ==> r.error !in {Completed, Error(400, 21220), Error(404, 20404)}
  {
    tried := 0;
    SizesTellDistinct(hosts);
    if hosts == [] || |HostSet(hosts)| != |hosts| { return BadRegions, 0; }
    while tried < |hosts|
      invariant tried <= |hosts|
      invariant forall i :: 0 <= i < tried ==> Missing(update(hosts[i]))
    {
      var u := update(hosts[tried]);
      tried := tried + 1;
      assert Terminal(u) ==> EndsAt(hosts, update, tried - 1);
      if u.Completed? { return Done, tried; }
      if u.status == 404 && u.code == 20404 {
      } else if u.status == 400 && u.code == 21220 {
        return Done, tried;
      } else {
        return Raised(u), tried;
      }
    }
    r := NotFound(hosts);
  }

  /** What an ambient client is: its host, and whether the credentials are set. */
  datatype Ambient = Ambient(host: string, credentials: bool)

  /** With regions the identifier and the regions are checked first. Without, the one ambient
      client decides, and missing there is never success. */
  method HangupCall(sidOk: bool, regions: Option<seq<string>>, ambient: Ambient, update: string -> Update)
      returns (r: Hangup, tried: nat)
    ensures r == BadSid <==> regions.Some? && !sidOk
    ensures r == NoCredentials <==> regions.None? && !ambient.credentials
    ensures r == Done <==>
              if regions.Some?
              then sidOk && Distinct(regions.value) && exists i :: EndsAt(regions.value, update, i)
              else ambient.credentials && Terminal(update(ambient.host))
    ensures r.NotFound? <==>
              if regions.Some?
              then sidOk && regions.value != [] && Distinct(regions.value)
                && forall i :: 0 <= i < |regions.value| ==> Missing(update(regions.value[i]))
              else ambient.credentials && Missing(update(ambient.host))
    ensures r.NotFound? ==> r.hosts == if regions.Some? then regions.value else [ambient.host]
    ensures regions.None? ==> tried == if ambient.credentials then 1 else 0
    ensures regions.None? && r == Done ==> update(ambient.host) in {Completed, Error(400, 21220)}
    ensures regions.None? && r.NotFound? ==> update(ambient.host) == Error(404, 20404)
  {
    if regions.Some? {
      if !sidOk { return BadSid, 0; }
      r, tried := HangupIn(regions.value, update);
      return;
    }
    if !ambient.credentials { return NoCredentials, 0; }
    var u := update(ambient.host);
    if u.Completed? || (u.status == 400 && u.code == 21220) { return Done, 1; }
    if u.status == 404 && u.code == 20404 { return NotFound([ambient.host]), 1; }
    return Raised(u), 1;
  }
}
