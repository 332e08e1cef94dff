/** Walking a cursor chain: all pages of a listing, and the search for stuck refunds.
    A page source is a function of the cursor. */
module Pagination {
  import opened Common
  import Recovery = RefundRecovery

  type Cursor = Option<string>

  datatype Page<T> = Page(items: seq<T>, next: Cursor) | Malformed

  datatype Outcome<T> = Listed(items: seq<T>) | TooManyPages | BadPage | SameCursor

  // ── The chain ─────────────────────────────────────────────────────────────

  /** The cursor a page leads to; an empty one leads nowhere. */
  function Link<T>(source: Cursor -> Page<T>, c: Cursor): Cursor {
    var page := source(c);
    if page.Malformed? || page.next == Some("") then None else page.next
  }

  /** The cursor reached by following `k` links, if there are that many. */
  function Chain<T>(source: Cursor -> Page<T>, c: Cursor, k: nat): Option<Cursor>
    decreases k
  {
    if k == 0 then Some(c) else
    var next := Link(source, c);
    if next.None? then None else Chain(source, next, k - 1)
  }

  /** The chain is well formed and its last page is the one after `k` links. */
  predicate EndsAfter<T>(source: Cursor -> Page<T>, c: Cursor, k: nat) {
    var last := Chain(source, c, k);
    last.Some? && source(last.value).Page? && Link(source, last.value).None?
  }

  /** The items of the first `n` pages, in order. */
  function Items<T>(source: Cursor -> Page<T>, c: Cursor, n: nat): seq<T>
    decreases n
  {
    if n == 0 then [] else
    match source(c)
    case Malformed => []
    case Page(items, _) => items + Items(source, Link(source, c), n - 1)
  }

  // ── The walk ──────────────────────────────────────────────────────────────

  function Walk<T>(source: Cursor -> Page<T>, c: Cursor, budget: int): Outcome<T>
    decreases if budget < 0 then 0 else budget
  {
    if budget <= 0 then TooManyPages else
    match source(c)
    case Malformed => BadPage
    case Page(items, _) =>
      var next := Link(source, c);
      if next.None? then Listed(items)
      else if next == c then SameCursor
      else
        match Walk(source, next, budget - 1)
        case Listed(rest) => Listed(items + rest)
        case failure => failure
  }

  method FetchAllPages<T>(source: Cursor -> Page<T>, initial: Cursor, maxPages: int)
    returns (r: Outcome<T>, fetches: nat)
    ensures r == Walk(source, initial, maxPages)
    ensures fetches <= if maxPages < 0 then 0 else maxPages
  {
    var pages: seq<T> := [];
    var cursor := initial;
    var pageCount := 0;
    fetches := 0;
    while true
      invariant 0 <= pageCount == fetches <= if maxPages < 0 then 0 else maxPages
      invariant Walk(source, initial, maxPages) == match Walk(source, cursor, maxPages - pageCount)
                                                    case Listed(rest) => Listed(pages + rest)
                                                    case failure => failure
      decreases maxPages - pageCount
    {
      if pageCount >= maxPages {
        return TooManyPages, fetches;
      }
      var page := source(cursor);
      fetches := fetches + 1;
      if page.Malformed? {
        return BadPage, fetches;
      }
      ghost var before := pages;
      pages := pages + page.items;
      pageCount := pageCount + 1;
      if page.next.None? || page.next.value == "" {
        break;
      }
      if page.next == cursor {
        return SameCursor, fetches;
      }
      forall rest: seq<T> ensures before + (page.items + rest) == pages + rest {
      }
      cursor := page.next;
    }
    return Listed(pages), fetches;
  }

  /** The walk returns exactly when the chain ends within the allowed pages, and then
      with the items of all its pages in order. */
  lemma {:induction false} WalkMeaning<T>(source: Cursor -> Page<T>, c: Cursor, budget: int)
    ensures Walk(source, c, budget).Listed? <==> exists k :: 0 <= k < budget && EndsAfter(source, c, k)
    ensures forall k :: 0 <= k < budget && EndsAfter(source, c, k) ==> Walk(source, c, budget) == Listed(Items(source, c, k + 1))
    decreases if budget < 0 then 0 else budget
  {
    if budget > 0 {
      var next := Link(source, c);
      if next.None? {
        if source(c).Page? {
          assert EndsAfter(source, c, 0);
          assert Items(source, c, 1) == source(c).items + Items(source, next, 0);
        }
        assert forall k :: k > 0 ==> Chain(source, c, k).None?;
      } else if next == c {
        forall k | 0 <= k < budget ensures !EndsAfter(source, c, k) {
          LoopNeverEnds(source, c, k);
        }
      } else {
        WalkMeaning(source, next, budget - 1);
        assert forall k :: 0 < k < budget ==> EndsAfter(source, c, k) == EndsAfter(source, next, k - 1);
        assert !EndsAfter(source, c, 0);
        if Walk(source, next, budget - 1).Listed? {
          var k :| 0 <= k < budget - 1 && EndsAfter(source, next, k);
          assert EndsAfter(source, c, k + 1);
        }
      }
    }
  }

  /** A page leads on to the cursor it names, unless that is absent or empty. */
  lemma LinkMeans<T>(source: Cursor -> Page<T>, c: Cursor, to: string)
    ensures Link(source, c) == Some(to) <==> source(c).Page? && source(c).next == Some(to) && to != ""
  {
  }

  /** Why a walk fails: it came to a malformed page, to a page that leads to its own cursor,
      or all the pages it may read lead on to others. */
  lemma {:induction false} FailureMeaning<T>(source: Cursor -> Page<T>, c: Cursor, budget: int)
    ensures Walk(source, c, budget).BadPage? ==>
              exists k :: 0 <= k < budget && Chain(source, c, k).Some? && source(Chain(source, c, k).value).Malformed?
    ensures Walk(source, c, budget).SameCursor? ==>
              exists k :: 0 <= k < budget && Chain(source, c, k).Some? && LeadsToItself(source, Chain(source, c, k).value)
    ensures Walk(source, c, budget).TooManyPages? ==> forall k :: 0 <= k < budget ==>
              Chain(source, c, k).Some? && Link(source, Chain(source, c, k).value).Some?
              && !LeadsToItself(source, Chain(source, c, k).value)
    decreases if budget < 0 then 0 else budget
  {
    if budget > 0 {
      var next := Link(source, c);
      assert Chain(source, c, 0) == Some(c);
      if next.Some? && next != c {
        FailureMeaning(source, next, budget - 1);
        assert forall k :: 0 < k < budget ==> Chain(source, c, k) == Chain(source, next, k - 1);
        var rest := Walk(source, next, budget - 1);
        if rest.BadPage? {
          var k :| 0 <= k < budget - 1 && Chain(source, next, k).Some? && source(Chain(source, next, k).value).Malformed?;
          assert Chain(source, c, k + 1) == Chain(source, next, k);
        } else if rest.SameCursor? {
          var k :| 0 <= k < budget - 1 && Chain(source, next, k).Some? && LeadsToItself(source, Chain(source, next, k).value);
          assert Chain(source, c, k + 1) == Chain(source, next, k);
        }
      }
    }
  }

  predicate LeadsToItself<T>(source: Cursor -> Page<T>, c: Cursor) {
    c.Some? && Link(source, c) == c
  }

  lemma {:induction false} LoopNeverEnds<T>(source: Cursor -> Page<T>, c: Cursor, k: nat)
    requires c.Some? && Link(source, c) == c
    ensures !EndsAfter(source, c, k)
  {
    if k > 0 {
      LoopNeverEnds(source, c, k - 1);
    }
  }

  lemma {:induction false} ChainSplit<T>(source: Cursor -> Page<T>, c: Cursor, i: nat, m: nat)
    requires Chain(source, c, i).Some?
    ensures Chain(source, c, i + m) == Chain(source, Chain(source, c, i).value, m)
    decreases i
  {
    if i > 0 {
      ChainSplit(source, Link(source, c), i - 1, m);
    }
  }

  /** Past its last page a chain has no cursor. */
  lemma NothingAfterEnd<T>(source: Cursor -> Page<T>, c: Cursor, k: nat, m: nat)
    requires EndsAfter(source, c, k) && m > k
    ensures Chain(source, c, m).None?
  {
    ChainSplit(source, c, k, m - k);
  }

  /** A chain that comes back to a cursor never ends, so the walk fails however many
      pages it may read. */
  lemma CyclicWalkFails<T>(source: Cursor -> Page<T>, c: Cursor, i: nat, j: nat, budget: int)
    requires i < j && Chain(source, c, i).Some? && Chain(source, c, i) == Chain(source, c, j)
    ensures !Walk(source, c, budget).Listed?
  {
    WalkMeaning(source, c, budget);
    forall k | 0 <= k < budget ensures !EndsAfter(source, c, k) {
      CyclicNeverEnds(source, c, i, j, k);
    }
  }

  lemma {:induction false} CyclicNeverEnds<T>(source: Cursor -> Page<T>, c: Cursor, i: nat, j: nat, k: nat)
    requires i < j && Chain(source, c, i).Some? && Chain(source, c, i) == Chain(source, c, j)
    ensures !EndsAfter(source, c, k)
  {
    if EndsAfter(source, c, k) {
      if k < j {
        NothingAfterEnd(source, c, k, j);
      } else {
        // From the j-th cursor the end is k - j links away; so it is from the i-th, the same one.
        ChainSplit(source, c, j, k - j);
        ChainSplit(source, c, i, k - j);
        assert EndsAfter(source, c, i + (k - j));
        NothingAfterEnd(source, c, i + (k - j), k);
      }
    }
  }

  // ── Stuck refunds ─────────────────────────────────────────────────────────

  datatype Refund = Refund(id: Id, status: Recovery.RefundStatus, createdAtMs: int)
  datatype RefundPage = RefundPage(items: seq<Refund>, next: Cursor)

  predicate IsStuck(r: Refund, cutoff: int) {
    r.status.Pending? && r.createdAtMs < cutoff
  }

  function Filter(items: seq<Refund>, cutoff: int): seq<Refund> {
    if items == [] then []
    else Filter(items[..|items| - 1], cutoff) + if IsStuck(items[|items| - 1], cutoff) then [items[|items| - 1]] else []
  }

  /** The items of at most `n` pages; here every cursor but null is followed. */
  function Listing(source: Cursor -> RefundPage, c: Cursor, n: nat): seq<Refund>
    decreases n
  {
    if n == 0 then [] else
    var page := source(c);
    page.items + if page.next.None? then [] else Listing(source, page.next, n - 1)
  }

  lemma {:induction false} FilterAppend(a: seq<Refund>, b: seq<Refund>, cutoff: int)
    ensures Filter(a + b, cutoff) == Filter(a, cutoff) + Filter(b, cutoff)
  {
    if b == [] {
      assert a + b == a;
    } else {
      FilterAppend(a, b[..|b| - 1], cutoff);
      assert (a + b)[..|a + b| - 1] == a + b[..|b| - 1];
    }
  }

  /** The places of the items found. */
  function Places(items: seq<Refund>, cutoff: int): seq<nat> {
    if items == [] then []
    else Places(items[..|items| - 1], cutoff) + if IsStuck(items[|items| - 1], cutoff) then [|items| - 1] else []
  }

  lemma {:induction false} PlacesGiveItems(items: seq<Refund>, cutoff: int)
    ensures |Places(items, cutoff)| == |Filter(items, cutoff)|
    ensures forall k :: 0 <= k < |Places(items, cutoff)| ==>
              Places(items, cutoff)[k] < |items| && Filter(items, cutoff)[k] == items[Places(items, cutoff)[k]]
  {
    if items != [] {
      PlacesGiveItems(items[..|items| - 1], cutoff);
    }
  }

  lemma {:induction false} PlacesIncrease(items: seq<Refund>, cutoff: int)
    ensures forall k :: 0 <= k < |Places(items, cutoff)| ==> Places(items, cutoff)[k] < |items|
    ensures forall j, k :: 0 <= j < k < |Places(items, cutoff)| ==> Places(items, cutoff)[j] < Places(items, cutoff)[k]
  {
    if items != [] {
      PlacesIncrease(items[..|items| - 1], cutoff);
    }
  }

  lemma {:induction false} PlacesOfStuck(items: seq<Refund>, cutoff: int, i: nat)
    ensures i in Places(items, cutoff) <==>
              i < |items| && items[i].status == Recovery.Pending && items[i].createdAtMs < cutoff
  {
    if items != [] {
      PlacesOfStuck(items[..|items| - 1], cutoff, i);
    }
  }

  /** The items found are those pending and created before the cutoff, in their order: `at`
      gives their places. */
  lemma FilterMeaning(items: seq<Refund>, cutoff: int) returns (at: seq<nat>)
    ensures |at| == |Filter(items, cutoff)| && (forall j, k :: 0 <= j < k < |at| ==> at[j] < at[k])
    ensures forall k :: 0 <= k < |at| ==> at[k] < |items| && Filter(items, cutoff)[k] == items[at[k]]
    ensures forall i: nat :: i in at <==> i < |items| && items[i].status == Recovery.Pending && items[i].createdAtMs < cutoff
  {
    hide Places, Filter;
    at := Places(items, cutoff);
    PlacesGiveItems(items, cutoff);
    PlacesIncrease(items, cutoff);
    forall i: nat
      ensures i in at <==> i < |items| && items[i].status == Recovery.Pending && items[i].createdAtMs < cutoff
    {
      PlacesOfStuck(items, cutoff, i);
    }
  }

  method StuckOnPage(items: seq<Refund>, cutoff: int, found: seq<Refund>) returns (stuck: seq<Refund>)
    ensures stuck == found + Filter(items, cutoff)
  {
    stuck := found;
    for i := 0 to |items|
      invariant stuck == found + Filter(items[..i], cutoff)
    {
      assert items[..i + 1][..i] == items[..i];
      if IsStuck(items[i], cutoff) {
        stuck := stuck + [items[i]];
      }
    }
    assert items[..|items|] == items;
  }

  /** What the scan has found when it stops. */
  function Scan(source: Cursor -> RefundPage, c: Cursor, n: nat, cutoff: int, found: seq<Refund>): seq<Refund>
    decreases n
  {
    if n == 0 then found else
    var page := source(c);
    var more := found + Filter(page.items, cutoff);
    if page.next.None? then more else Scan(source, page.next, n - 1, cutoff, more)
  }

  lemma Regroup<T>(a: seq<T>, b: seq<T>, c: seq<T>)
    ensures (a + b) + c == a + (b + c)
  {
  }

  lemma {:induction false} ScanMeaning(source: Cursor -> RefundPage, c: Cursor, n: nat, cutoff: int, found: seq<Refund>)
    ensures Scan(source, c, n, cutoff, found) == found + Filter(Listing(source, c, n), cutoff)
    decreases n
  {
    if n > 0 {
      var page := source(c);
      var here := Filter(page.items, cutoff);
      if page.next.None? {
        assert page.items + [] == page.items;
      } else {
        var rest := Listing(source, page.next, n - 1);
        ScanMeaning(source, page.next, n - 1, cutoff, found + here);
        FilterAppend(page.items, rest, cutoff);
        Regroup(found, here, Filter(rest, cutoff));
      }
    }
  }

  /** One page is read even when none is allowed. */
  method FindStuckRefunds(source: Cursor -> RefundPage, now: int, threshold: int, maxPages: int) returns (stuck: seq<Refund>)
    ensures stuck == Filter(Listing(source, None, if maxPages < 1 then 1 else maxPages), now - threshold)
  {
    var cutoff := now - threshold;
    ghost var limit: nat := if maxPages < 1 then 1 else maxPages;
    ScanMeaning(source, None, limit, cutoff, []);
    stuck := [];
    var cursor: Cursor := None;
    var pages := 0;
    while true
      invariant 0 <= pages < limit
      invariant Scan(source, None, limit, cutoff, []) == Scan(source, cursor, limit - pages, cutoff, stuck)
      decreases limit - pages
    {
      var page := source(cursor);
      stuck := StuckOnPage(page.items, cutoff, stuck);
      cursor := page.next;
      pages := pages + 1;
      if cursor.None? || pages >= maxPages {
        break;
      }
    }
  }
}
