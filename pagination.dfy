/**
 * What the client's pagination loops fetch and return, stated as functions of a
 * page oracle.
 *
 * Offset pagination: the loop asks for offset 0, appends the page's items, stops
 * when the page's `total <= offset` (the offset before advancing) and otherwise
 * asks again at `offset + limit`. Cursor pagination: the loop asks with no
 * cursor, appends the page's ids, stops when the page has no `next` link and
 * otherwise asks again after the last id it received.
 */
module Pagination {
  import opened Spotify
  import opened Items

  // ---------------------------------------------------------------- offsets

  /**
   * Every page reports a positive page size and a total of at most `bound`.
   * This is what makes an offset loop finish; the client itself never checks it.
   */
  ghost predicate Bounded<T>(fetch: nat -> Page<T>, bound: int)
  {
    forall offset: nat :: fetch(offset).limit > 0 && fetch(offset).total <= bound
  }

  /** The offsets an offset loop requests, in order, when it starts at `offset`. */
  ghost function OffsetsFrom<T>(fetch: nat -> Page<T>, bound: int, offset: nat): seq<nat>
    requires Bounded(fetch, bound)
    decreases bound - offset
  {
    var page := fetch(offset);
    if page.total <= offset then [offset]
    else [offset] + OffsetsFrom(fetch, bound, offset + page.limit)
  }

  /** The items of the pages at `offsets`, page after page. */
  ghost function Gather<T>(fetch: nat -> Page<T>, offsets: seq<nat>): seq<T>
  {
    if offsets == [] then [] else fetch(offsets[0]).items + Gather(fetch, offsets[1..])
  }

  /** Everything an offset loop that starts at 0 and ignores the debug flag accumulates. */
  ghost function Collected<T>(fetch: nat -> Page<T>, bound: int): seq<T>
    requires Bounded(fetch, bound)
  {
    Gather(fetch, OffsetsFrom(fetch, bound, 0))
  }

  /**
   * A request sequence that obeys the loop's rule, stated without recursion: it
   * begins at `start`, every request but the last saw `offset < total` and is
   * followed by `offset + limit`, and the last saw `total <= offset`.
   */
  ghost predicate IsRun<T>(fetch: nat -> Page<T>, start: nat, offsets: seq<nat>)
  {
    && |offsets| > 0
    && offsets[0] == start
    && (forall i :: 0 <= i < |offsets| - 1 ==>
          offsets[i] < fetch(offsets[i]).total && offsets[i + 1] == offsets[i] + fetch(offsets[i]).limit)
    && fetch(offsets[|offsets| - 1]).total <= offsets[|offsets| - 1]
  }

  lemma {:induction false} OffsetsFromIsRun<T>(fetch: nat -> Page<T>, bound: int, start: nat)
    requires Bounded(fetch, bound)
    ensures IsRun(fetch, start, OffsetsFrom(fetch, bound, start))
    decreases bound - start
  {
    var page := fetch(start);
    if start < page.total {
      var next := start + page.limit;
      OffsetsFromIsRun(fetch, bound, next);
      var rest := OffsetsFrom(fetch, bound, next);
      var offsets := OffsetsFrom(fetch, bound, start);
      assert offsets == [start] + rest;
      forall i | 0 <= i < |offsets| - 1
        ensures offsets[i] < fetch(offsets[i]).total && offsets[i + 1] == offsets[i] + fetch(offsets[i]).limit
      {
        if i > 0 {
          assert offsets[i] == rest[i - 1] && offsets[i + 1] == rest[i];
        }
      }
    }
  }

  lemma {:induction false} RunIsOffsetsFrom<T>(fetch: nat -> Page<T>, bound: int, start: nat, offsets: seq<nat>)
    requires Bounded(fetch, bound)
    requires IsRun(fetch, start, offsets)
    ensures offsets == OffsetsFrom(fetch, bound, start)
    decreases |offsets|
  {
    if |offsets| > 1 {
      var next := start + fetch(start).limit;
      var rest := offsets[1..];
      forall i | 0 <= i < |rest| - 1
        ensures rest[i] < fetch(rest[i]).total && rest[i + 1] == rest[i] + fetch(rest[i]).limit
      {
        assert rest[i] == offsets[i + 1] && rest[i + 1] == offsets[i + 2];
      }
      assert IsRun(fetch, next, rest);
      RunIsOffsetsFrom(fetch, bound, next, rest);
      assert offsets == [start] + rest;
    }
  }

  /** The requested offsets are exactly the run the loop's rule determines, whatever bound proved termination. */
  lemma OffsetsAreTheRun<T>(fetch: nat -> Page<T>, bound: int, start: nat, offsets: seq<nat>)
    requires Bounded(fetch, bound)
    ensures IsRun(fetch, start, offsets) <==> offsets == OffsetsFrom(fetch, bound, start)
  {
    OffsetsFromIsRun(fetch, bound, start);
    if IsRun(fetch, start, offsets) {
      RunIsOffsetsFrom(fetch, bound, start, offsets);
    }
  }

  /** The requests start at `start` and strictly increase, so no offset is asked for twice. */
  lemma {:induction false} OffsetsIncrease<T>(fetch: nat -> Page<T>, bound: int, start: nat)
    requires Bounded(fetch, bound)
    ensures var offsets := OffsetsFrom(fetch, bound, start);
      offsets[0] == start
      && forall i, j :: 0 <= i < j < |offsets| ==> start <= offsets[i] < offsets[j]
    decreases bound - start
  {
    var page := fetch(start);
    if start < page.total {
      var next := start + page.limit;
      OffsetsIncrease(fetch, bound, next);
      var rest := OffsetsFrom(fetch, bound, next);
      var offsets := OffsetsFrom(fetch, bound, start);
      assert offsets == [start] + rest;
      forall i, j | 0 <= i < j < |offsets| ensures start <= offsets[i] < offsets[j] {
        assert offsets[j] == rest[j - 1];
        if i > 0 {
          assert offsets[i] == rest[i - 1];
        }
      }
    }
  }

  /** With a constant page size and total, the run from `start` is `start`, `start + limit`, ... up to the first offset at or above the total. */
  lemma {:induction false} UniformOffsetsFrom<T>(fetch: nat -> Page<T>, bound: int, limit: int, total: int, start: nat)
    requires Bounded(fetch, bound)
    requires forall offset: nat :: fetch(offset).limit == limit && fetch(offset).total == total
    ensures var offsets := OffsetsFrom(fetch, bound, start);
      && (forall i :: 0 <= i < |offsets| ==> offsets[i] == start + i * limit)
      && (forall i :: 0 <= i < |offsets| - 1 ==> offsets[i] < total)
      && total <= offsets[|offsets| - 1]
    decreases bound - start
  {
    var offsets := OffsetsFrom(fetch, bound, start);
    if start < total {
      assert fetch(start).limit == limit;
      var next := start + limit;
      UniformOffsetsFrom(fetch, bound, limit, total, next);
      var rest := OffsetsFrom(fetch, bound, next);
      assert offsets == [start] + rest;
      forall i | 0 <= i < |offsets| ensures offsets[i] == start + i * limit {
        if i > 0 {
          assert offsets[i] == rest[i - 1] == next + (i - 1) * limit;
        }
      }
    }
  }

  /**
   * With a constant positive page size and total, the loop asks for 0, limit,
   * 2 * limit, ... and its last request is the least multiple of limit at or
   * above the total; a total of 0 or less costs exactly one request.
   */
  lemma UniformOffsets<T>(fetch: nat -> Page<T>, bound: int, limit: int, total: int)
    requires Bounded(fetch, bound)
    requires forall offset: nat :: fetch(offset).limit == limit && fetch(offset).total == total
    ensures var offsets := OffsetsFrom(fetch, bound, 0);
      && (forall i :: 0 <= i < |offsets| ==> offsets[i] == i * limit)
      && total <= offsets[|offsets| - 1]
      && (|offsets| > 1 ==> offsets[|offsets| - 1] - limit < total)
      && (total <= 0 ==> |offsets| == 1)
  {
    UniformOffsetsFrom(fetch, bound, limit, total, 0);
    var offsets := OffsetsFrom(fetch, bound, 0);
    if |offsets| > 1 {
      var last := |offsets| - 1;
      assert offsets[last] - limit == offsets[last - 1] by {
        assert offsets[last] == last * limit;
        assert offsets[last - 1] == (last - 1) * limit;
      }
    }
  }

  /**
   * When the total is an exact multiple `pages * limit`, the loop makes
   * `pages + 1` requests: the last one, at offset `total`, returns nothing new.
   */
  lemma ExactMultipleCostsOneMoreRequest<T>(fetch: nat -> Page<T>, bound: int, limit: int, pages: nat)
    requires Bounded(fetch, bound)
    requires forall offset: nat :: fetch(offset).limit == limit && fetch(offset).total == pages * limit
    ensures |OffsetsFrom(fetch, bound, 0)| == pages + 1
  {
    assert fetch(0).limit == limit;
    UniformOffsetsFrom(fetch, bound, limit, pages * limit, 0);
    var offsets := OffsetsFrom(fetch, bound, 0);
    var last := |offsets| - 1;
    assert pages * limit <= last * limit;
    ScaleMonotone(last, pages, limit);
    if last > 0 {
      assert offsets[last - 1] < pages * limit;
      assert offsets[last - 1] == (last - 1) * limit;
      ScaleMonotone(last - 1, pages, limit);
    } else {
      ScaleMonotone(0, pages, limit);
    }
  }

  /** Multiplying by a positive page size keeps the order of page counts. */
  lemma ScaleMonotone(a: int, b: int, limit: int)
    requires limit > 0
    ensures a * limit < b * limit <==> a < b
  {
    if a < b {
      ScaleStrict(a, b, limit);
    } else if b < a {
      ScaleStrict(b, a, limit);
    }
  }

  lemma {:induction false} ScaleStrict(a: int, b: int, limit: int)
    requires limit > 0 && a < b
    ensures a * limit < b * limit
    decreases b - a
  {
    if a + 1 < b {
      ScaleStrict(a, b - 1, limit);
    }
    assert b * limit == (b - 1) * limit + limit;
  }

  /**
   * The bookkeeping of one pass of an offset loop that has requested `done` and
   * accumulated `acc` so far: after requesting `offset` it has either finished
   * the run or still has the run from `offset + limit` ahead of it.
   */
  lemma OffsetLoopStep<T>(fetch: nat -> Page<T>, bound: int, offset: nat, done: seq<nat>, acc: seq<T>)
    requires Bounded(fetch, bound)
    requires done + OffsetsFrom(fetch, bound, offset) == OffsetsFrom(fetch, bound, 0)
    requires acc + Gather(fetch, OffsetsFrom(fetch, bound, offset)) == Collected(fetch, bound)
    ensures var page := fetch(offset);
      && (page.total <= offset ==>
            done + [offset] == OffsetsFrom(fetch, bound, 0) && acc + page.items == Collected(fetch, bound))
      && (offset < page.total ==>
            && done + [offset] + OffsetsFrom(fetch, bound, offset + page.limit) == OffsetsFrom(fetch, bound, 0)
            && acc + page.items + Gather(fetch, OffsetsFrom(fetch, bound, offset + page.limit)) == Collected(fetch, bound))
  {
    var page := fetch(offset);
    if page.total <= offset {
      assert OffsetsFrom(fetch, bound, offset) == [offset];
      assert [offset][1..] == [];
      assert Gather(fetch, [offset]) == page.items + [];
      assert page.items + [] == page.items;
    } else {
      var next := OffsetsFrom(fetch, bound, offset + page.limit);
      assert OffsetsFrom(fetch, bound, offset) == [offset] + next;
      assert ([offset] + next)[1..] == next;
      assert Gather(fetch, [offset] + next) == page.items + Gather(fetch, next);
      assert done + [offset] + next == done + ([offset] + next);
      assert acc + page.items + Gather(fetch, next) == acc + (page.items + Gather(fetch, next));
    }
  }

  /** Concatenating the pages of two request sequences is concatenating their gathered items. */
  lemma {:induction false} GatherAppend<T>(fetch: nat -> Page<T>, a: seq<nat>, b: seq<nat>)
    ensures Gather(fetch, a + b) == Gather(fetch, a) + Gather(fetch, b)
    decreases |a|
  {
    if a == [] {
      assert a + b == b;
    } else {
      assert (a + b)[1..] == a[1..] + b;
      GatherAppend(fetch, a[1..], b);
    }
  }

  /** Every fetched page appears whole in the result, after the pages fetched before it and before those fetched after it. */
  lemma GatherKeepsEveryPage<T>(fetch: nat -> Page<T>, offsets: seq<nat>, i: nat)
    requires i < |offsets|
    ensures Gather(fetch, offsets) == Gather(fetch, offsets[..i]) + fetch(offsets[i]).items + Gather(fetch, offsets[i + 1..])
  {
    assert offsets == offsets[..i] + offsets[i..];
    GatherAppend(fetch, offsets[..i], offsets[i..]);
    assert offsets[i..][1..] == offsets[i + 1..];
  }

  /** A page oracle whose pages' items are rewritten by `f`; the page size and total are kept. */
  function MapPages<T, U>(fetch: nat -> Page<T>, f: seq<T> -> seq<U>): nat -> Page<U>
  {
    (offset: nat) => Page(f(fetch(offset).items), fetch(offset).limit, fetch(offset).total)
  }

  /** Rewriting the items of each page does not change which offsets the loop requests. */
  lemma {:induction false} MapPagesOffsets<T, U>(fetch: nat -> Page<T>, f: seq<T> -> seq<U>, bound: int, offset: nat)
    requires Bounded(fetch, bound)
    ensures Bounded(MapPages(fetch, f), bound)
    ensures OffsetsFrom(MapPages(fetch, f), bound, offset) == OffsetsFrom(fetch, bound, offset)
    decreases bound - offset
  {
    var mapped := MapPages(fetch, f);
    assert forall o: nat :: mapped(o).limit == fetch(o).limit && mapped(o).total == fetch(o).total;
    if offset < fetch(offset).total {
      MapPagesOffsets(fetch, f, bound, offset + fetch(offset).limit);
    }
  }

  /** When `f` distributes over concatenation, rewriting page by page is rewriting the gathered items. */
  lemma {:induction false} MapPagesGather<T, U>(fetch: nat -> Page<T>, f: seq<T> -> seq<U>, offsets: seq<nat>)
    requires f([]) == []
    requires forall a, b :: f(a + b) == f(a) + f(b)
    ensures Gather(MapPages(fetch, f), offsets) == f(Gather(fetch, offsets))
    decreases |offsets|
  {
    if offsets != [] {
      MapPagesGather(fetch, f, offsets[1..]);
      Distributes(f, fetch(offsets[0]).items, Gather(fetch, offsets[1..]));
    }
  }

  /** One instance of distributivity, for a call site whose terms do not trigger the quantifier. */
  lemma Distributes<T, U>(f: seq<T> -> seq<U>, a: seq<T>, b: seq<T>)
    requires forall x, y :: f(x + y) == f(x) + f(y)
    ensures f(a + b) == f(a) + f(b)
  {
  }

  // ---------------------------------------------------------------- cursor

  /** Python truthiness of the page's `next` link: present and not the empty string. */
  function HasNext(page: CursorPage): (truthy: bool)
    ensures truthy <==> page.next !in {None, Some("")}
  {
    page.next.Some? && page.next.value != ""
  }

  /** The id of the last artist on a non-empty page: the cursor for the following request. */
  function LastId(page: CursorPage): (id: string)
    requires page.items != []
    ensures id == page.items[|page.items| - 1].id
  {
    var ids := ArtistIds(page.items);
    ids[|ids| - 1]
  }

  /**
   * The cursor loop started with `after` ends (stops or fails) within `fuel`
   * requests. The client never checks this; a service whose links never run out
   * would keep it looping.
   */
  ghost predicate CursorEnds(fetch: Option<string> -> CursorPage, after: Option<string>, fuel: nat)
    decreases fuel
  {
    var page := fetch(after);
    fuel > 0 && (!HasNext(page) || page.items == [] || CursorEnds(fetch, Some(LastId(page)), fuel - 1))
  }

  /** The `after` cursors the loop requests, in order. */
  ghost function CursorRequests(fetch: Option<string> -> CursorPage, after: Option<string>, fuel: nat): seq<Option<string>>
    requires CursorEnds(fetch, after, fuel)
    decreases fuel
  {
    var page := fetch(after);
    if HasNext(page) && page.items != [] then [after] + CursorRequests(fetch, Some(LastId(page)), fuel - 1)
    else [after]
  }

  /** The ids of the pages at `requests`, page after page. */
  ghost function CursorGather(fetch: Option<string> -> CursorPage, requests: seq<Option<string>>): seq<string>
  {
    if requests == [] then [] else ArtistIds(fetch(requests[0]).items) + CursorGather(fetch, requests[1..])
  }

  function Prepend(ids: seq<string>, rest: Result<seq<string>>): Result<seq<string>>
  {
    match rest
    case Ok(more) => Ok(ids + more)
    case Err(e) => Err(e)
  }

  lemma PrependEmpty(rest: Result<seq<string>>)
    ensures Prepend([], rest) == rest
  {
    match rest
    case Ok(more) => assert [] + more == more;
    case Err(_) =>
  }

  lemma PrependPrepend(a: seq<string>, b: seq<string>, rest: Result<seq<string>>)
    ensures Prepend(a, Prepend(b, rest)) == Prepend(a + b, rest)
  {
    match rest
    case Ok(more) => assert a + (b + more) == a + b + more;
    case Err(_) =>
  }

  /**
   * What the cursor loop that ignores the debug flag returns: the ids of every
   * page, or the failure of `ids[-1]` on a page that has a `next` link and no ids.
   */
  ghost function FollowedIds(fetch: Option<string> -> CursorPage, after: Option<string>, fuel: nat): Result<seq<string>>
    requires CursorEnds(fetch, after, fuel)
    decreases fuel
  {
    var page := fetch(after);
    var ids := ArtistIds(page.items);
    if !HasNext(page) then Ok(ids)
    else if ids == [] then Err(LastIdOfEmptyPage)
    else Prepend(ids, FollowedIds(fetch, Some(LastId(page)), fuel - 1))
  }

  /**
   * A request sequence that obeys the cursor loop's rule, stated without
   * recursion: the first request carries `after`; each later one carries the last
   * id of the page before it, which had a `next` link; the last page has no
   * `next` link or no ids.
   */
  ghost predicate IsCursorChain(fetch: Option<string> -> CursorPage, after: Option<string>, requests: seq<Option<string>>)
  {
    && |requests| > 0
    && requests[0] == after
    && (forall i :: 0 <= i < |requests| - 1 ==>
          HasNext(fetch(requests[i])) && fetch(requests[i]).items != [] && requests[i + 1] == Some(LastId(fetch(requests[i]))))
    && (!HasNext(fetch(requests[|requests| - 1])) || fetch(requests[|requests| - 1]).items == [])
  }

  /** The cursors the loop requests obey the rule. */
  lemma {:induction false} CursorRequestsShape(fetch: Option<string> -> CursorPage, after: Option<string>, fuel: nat)
    requires CursorEnds(fetch, after, fuel)
    ensures IsCursorChain(fetch, after, CursorRequests(fetch, after, fuel))
    decreases fuel
  {
    var page := fetch(after);
    if HasNext(page) && page.items != [] {
      var rest := CursorRequests(fetch, Some(LastId(page)), fuel - 1);
      CursorRequestsShape(fetch, Some(LastId(page)), fuel - 1);
      var requests := CursorRequests(fetch, after, fuel);
      assert requests == [after] + rest;
      forall i | 0 <= i < |requests| - 1
        ensures HasNext(fetch(requests[i])) && fetch(requests[i]).items != [] && requests[i + 1] == Some(LastId(fetch(requests[i])))
      {
        if i > 0 {
          assert requests[i] == rest[i - 1] && requests[i + 1] == rest[i];
        }
      }
    }
  }

  /** Any request sequence that obeys the rule is the one the loop makes. */
  lemma {:induction false} CursorChainIsRequests(fetch: Option<string> -> CursorPage, after: Option<string>, fuel: nat,
                                                requests: seq<Option<string>>)
    requires CursorEnds(fetch, after, fuel)
    requires IsCursorChain(fetch, after, requests)
    ensures requests == CursorRequests(fetch, after, fuel)
    decreases fuel
  {
    var page := fetch(after);
    if HasNext(page) && page.items != [] {
      assert |requests| > 1;
      var next := Some(LastId(page));
      var rest := requests[1..];
      assert rest[0] == next;
      forall i | 0 <= i < |rest| - 1
        ensures HasNext(fetch(rest[i])) && fetch(rest[i]).items != [] && rest[i + 1] == Some(LastId(fetch(rest[i])))
      {
        assert rest[i] == requests[i + 1] && rest[i + 1] == requests[i + 2];
      }
      assert rest[|rest| - 1] == requests[|requests| - 1];
      CursorChainIsRequests(fetch, next, fuel - 1, rest);
      assert requests == [after] + rest;
    } else {
      assert |requests| == 1;
      assert requests == [after];
    }
  }

  /** The rule characterizes the cursor loop's requests exactly. */
  lemma CursorRequestsAreTheChain(fetch: Option<string> -> CursorPage, after: Option<string>, fuel: nat,
                                  requests: seq<Option<string>>)
    requires CursorEnds(fetch, after, fuel)
    ensures IsCursorChain(fetch, after, requests) <==> requests == CursorRequests(fetch, after, fuel)
  {
    CursorRequestsShape(fetch, after, fuel);
    if IsCursorChain(fetch, after, requests) {
      CursorChainIsRequests(fetch, after, fuel, requests);
    }
  }

  /**
   * The bookkeeping of one pass of the cursor loop that has requested `done` and
   * collected `followed` so far: after requesting `after` it has either finished
   * (with the ids, or with the failure of `ids[-1]`) or still has the chain from
   * the page's last id ahead of it.
   */
  lemma CursorLoopStep(fetch: Option<string> -> CursorPage, start: Option<string>, fuel: nat,
                       after: Option<string>, left: nat, done: seq<Option<string>>, followed: seq<string>)
    requires CursorEnds(fetch, start, fuel) && CursorEnds(fetch, after, left)
    requires done + CursorRequests(fetch, after, left) == CursorRequests(fetch, start, fuel)
    requires Prepend(followed, FollowedIds(fetch, after, left)) == FollowedIds(fetch, start, fuel)
    ensures var page := fetch(after);
      var ids := ArtistIds(page.items);
      && (!HasNext(page) ==>
            done + [after] == CursorRequests(fetch, start, fuel) && Ok(followed + ids) == FollowedIds(fetch, start, fuel))
      && (HasNext(page) && ids == [] ==>
            done + [after] == CursorRequests(fetch, start, fuel) && Err(LastIdOfEmptyPage) == FollowedIds(fetch, start, fuel))
      && (HasNext(page) && ids != [] ==>
            && left > 0
            && LastId(page) == ids[|ids| - 1]
            && CursorEnds(fetch, Some(LastId(page)), left - 1)
            && done + [after] + CursorRequests(fetch, Some(LastId(page)), left - 1) == CursorRequests(fetch, start, fuel)
            && Prepend(followed + ids, FollowedIds(fetch, Some(LastId(page)), left - 1)) == FollowedIds(fetch, start, fuel))
  {
    var page := fetch(after);
    var ids := ArtistIds(page.items);
    if HasNext(page) && ids != [] {
      var next := Some(LastId(page));
      assert CursorRequests(fetch, after, left) == [after] + CursorRequests(fetch, next, left - 1);
      assert done + [after] + CursorRequests(fetch, next, left - 1) == done + ([after] + CursorRequests(fetch, next, left - 1));
      PrependPrepend(followed, ids, FollowedIds(fetch, next, left - 1));
    } else {
      assert CursorRequests(fetch, after, left) == [after];
    }
  }

  /**
   * The loop fails exactly when its last page has a `next` link (and so no ids);
   * otherwise it returns the ids of all requested pages in request order.
   */
  lemma {:induction false} FollowedIdsOutcome(fetch: Option<string> -> CursorPage, after: Option<string>, fuel: nat)
    requires CursorEnds(fetch, after, fuel)
    ensures var requests := CursorRequests(fetch, after, fuel);
      FollowedIds(fetch, after, fuel)
        == if HasNext(fetch(requests[|requests| - 1])) then Err(LastIdOfEmptyPage) else Ok(CursorGather(fetch, requests))
    decreases fuel
  {
    var page := fetch(after);
    if HasNext(page) && page.items != [] {
      var next := Some(LastId(page));
      FollowedIdsOutcome(fetch, next, fuel - 1);
      var rest := CursorRequests(fetch, next, fuel - 1);
      var requests := CursorRequests(fetch, after, fuel);
      assert requests == [after] + rest;
      assert requests[|requests| - 1] == rest[|rest| - 1];
      assert requests[1..] == rest;
    } else {
      var requests := CursorRequests(fetch, after, fuel);
      assert requests == [after];
      assert requests[|requests| - 1] == after;
      assert CursorGather(fetch, requests) == ArtistIds(page.items) + CursorGather(fetch, []);
      assert ArtistIds(page.items) + [] == ArtistIds(page.items);
      if HasNext(page) {
        assert ArtistIds(page.items) == [];
      }
    }
  }

  /** The fuel only bounds the proof of termination: any sufficient fuel gives the same requests and result. */
  lemma {:induction false} CursorFuelIrrelevant(fetch: Option<string> -> CursorPage, after: Option<string>, fuel1: nat, fuel2: nat)
    requires CursorEnds(fetch, after, fuel1) && CursorEnds(fetch, after, fuel2)
    ensures CursorRequests(fetch, after, fuel1) == CursorRequests(fetch, after, fuel2)
    ensures FollowedIds(fetch, after, fuel1) == FollowedIds(fetch, after, fuel2)
    decreases fuel1
  {
    var page := fetch(after);
    if HasNext(page) && page.items != [] {
      CursorFuelIrrelevant(fetch, Some(LastId(page)), fuel1 - 1, fuel2 - 1);
    }
  }

  /** A service whose first page of followed artists is ["a1", "a2"] with a next link and whose second is ["a3"] without. */
  function ExamplePages(after: Option<string>): CursorPage
  {
    if after.None? then CursorPage([Artist("a1", "First"), Artist("a2", "Second")], Some("page-2"))
    else CursorPage([Artist("a3", "Third")], None)
  }

  /** Those two pages give ["a1", "a2", "a3"] in two requests, the second one after "a2". */
  lemma FollowedIdsExample()
    ensures CursorEnds(ExamplePages, None, 2)
    ensures CursorRequests(ExamplePages, None, 2) == [None, Some("a2")]
    ensures FollowedIds(ExamplePages, None, 2) == Ok(["a1", "a2", "a3"])
  {
    var first := ExamplePages(None);
    assert HasNext(first) && LastId(first) == "a2";
    assert ArtistIds(first.items) == ["a1", "a2"];
    var second := ExamplePages(Some("a2"));
    assert !HasNext(second) && ArtistIds(second.items) == ["a3"];
    assert CursorEnds(ExamplePages, Some("a2"), 1);
    assert FollowedIds(ExamplePages, Some("a2"), 1) == Ok(["a3"]);
    assert ["a1", "a2"] + ["a3"] == ["a1", "a2", "a3"];
  }
}
