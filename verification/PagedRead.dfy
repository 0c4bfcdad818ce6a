/** Reading a listing page by page until it ends, or failing: a partial read must never pass for a
    complete one. */
module PagedRead {
  import opened Wrappers

  /** `Unkeyed`: not an object, or without a non-empty string id. */
  datatype Item = Unkeyed | Item(id: string, body: string)

  datatype Page = Page(items: seq<Item>, total: Option<int>)

  datatype ReadError = FetchFailed(message: string) | ListingChanged | WithoutId(page: nat) | WrongTotal | NotHonoured(page: nat) | NoEnd

  /** The answer to each page request, in the order they are made. */
  type Server = nat -> Result<Page, string>

  const MAX_PAGES := 1000

  predicate Known(id: string, got: seq<Item>) {
    exists i :: 0 <= i < |got| && got[i].Item? && got[i].id == id
  }

  /** `got` with the items of a page that are new; None when one has no id. */
  function Added(got: seq<Item>, items: seq<Item>): Option<seq<Item>>
    decreases |items|
  {
    if items == [] then Some(got)
    else if items[0].Unkeyed? then None
    else Added(if Known(items[0].id, got) then got else got + [items[0]], items[1..])
  }

  function ReadFrom(server: Server, page: nat, got: seq<Item>, firstTotal: Option<int>): Result<seq<Item>, ReadError>
    decreases MAX_PAGES + 1 - page
  {
    if page > MAX_PAGES then Err(NoEnd)
    else match server(page)
      case Err(message) => Err(FetchFailed(message))
      case Ok(Page(items, total)) =>
        if page > 1 && total != firstTotal then Err(ListingChanged)
        else match Added(got, items)
          case None => Err(WithoutId(page))
          case Some(now) =>
            if items == [] || (total.Some? && |now| >= total.value) then
              if total.Some? && |now| != total.value then Err(WrongTotal) else Ok(now)
            else if |now| == |got| then Err(NotHonoured(page))
            else ReadFrom(server, page + 1, now, total)
  }

  /** Adds a page's new items one by one; `false` at the first without an id. */
  method AddAll(got: seq<Item>, items: seq<Item>) returns (ok: bool, now: seq<Item>, added: nat)
    ensures ok <==> Added(got, items).Some?
    ensures ok ==> now == Added(got, items).value && added == |now| - |got|
  {
    now, added := got, 0;
    var i := 0;
    while i < |items|
      invariant 0 <= i <= |items|
      invariant Added(now, items[i..]) == Added(got, items)
      invariant added == |now| - |got|
    {
      var item := items[i];
      assert items[i..][1..] == items[i + 1..];
      if item.Unkeyed? {
        return false, now, added;
      }
      if !Known(item.id, now) {
        now := now + [item];
        added := added + 1;
      }
      i := i + 1;
    }
    ok := true;
  }

  method ReadAllPages(server: Server) returns (result: Result<seq<Item>, ReadError>)
    ensures result == ReadFrom(server, 1, [], None)
  {
    var byId: seq<Item> := [];
    var firstTotal: Option<int> := None;
    var page := 1;
    while page <= MAX_PAGES
      invariant 1 <= page <= MAX_PAGES + 1
      invariant ReadFrom(server, page, byId, firstTotal) == ReadFrom(server, 1, [], None)
    {
      var answer := server(page);
      if answer.Err? {
        return Err(FetchFailed(answer.error));
      }
      var items, total := answer.value.items, answer.value.total;
      if page == 1 {
        firstTotal := total;
      } else if total != firstTotal {
        return Err(ListingChanged);
      }
      var ok, now, added := AddAll(byId, items);
      if !ok {
        return Err(WithoutId(page));
      }
      byId := now;
      if |items| == 0 || (total.Some? && |byId| >= total.value) {
        if total.Some? && |byId| != total.value {
          return Err(WrongTotal);
        }
        return Ok(byId);
      }
      if added == 0 {
        return Err(NotHonoured(page));
      }
      page := page + 1;
    }
    result := Err(NoEnd);
  }

  // ---------------------------------------------------------------------------------------------
  // Any server
  // ---------------------------------------------------------------------------------------------

  ghost predicate DistinctIds(items: seq<Item>) {
    && (forall i :: 0 <= i < |items| ==> items[i].Item?)
    && (forall i, j :: 0 <= i < j < |items| ==> items[i].id != items[j].id)
  }

  function ItemsOf(answer: Result<Page, string>): seq<Item> {
    if answer.Ok? then answer.value.items else []
  }

  /** What pages 1 to `n` held, one after another. */
  function Pages(server: Server, n: nat): seq<Item> {
    if n == 0 then [] else Pages(server, n - 1) + ItemsOf(server(n))
  }

  lemma {:induction false} AddedTwice(got: seq<Item>, a: seq<Item>, b: seq<Item>)
    ensures Added(got, a + b) == match Added(got, a) case None => None case Some(now) => Added(now, b)
    decreases |a|
  {
    if a == [] {
      assert a + b == b;
    } else if !a[0].Unkeyed? {
      assert (a + b)[1..] == a[1..] + b;
      AddedTwice(if Known(a[0].id, got) then got else got + [a[0]], a[1..], b);
    }
  }

  lemma {:induction false} AddedFacts(got: seq<Item>, items: seq<Item>)
    requires DistinctIds(got) && Added(got, items).Some?
    ensures var now := Added(got, items).value;
            && DistinctIds(now) && got <= now
            && (forall x :: x in now ==> x in got || x in items)
            && (forall x :: x in items ==> x.Item? && Known(x.id, now))
    decreases |items|
  {
    if items != [] {
      var next := if Known(items[0].id, got) then got else got + [items[0]];
      assert items == [items[0]] + items[1..];
      assert Known(items[0].id, next) by {
        if !Known(items[0].id, got) { assert next[|got|].id == items[0].id; }
      }
      AddedFacts(next, items[1..]);
      StaysKnown(items[0].id, next, Added(next, items[1..]).value);
    }
  }

  lemma StaysKnown(id: string, got: seq<Item>, now: seq<Item>)
    requires Known(id, got) && got <= now
    ensures Known(id, now)
  {
    var i :| 0 <= i < |got| && got[i].Item? && got[i].id == id;
    assert now[i] == got[i];
  }

  ghost predicate Reported(server: Server, p: nat, total: Option<int>) {
    server(p).Ok? && server(p).value.total == total
  }

  /** Pages 1 to `n` were read, all of them reporting `total`, and added up to `got`. */
  ghost predicate ReadSoFar(server: Server, n: nat, got: seq<Item>, total: Option<int>) {
    && (forall p {:trigger Reported(server, p, total)} :: 1 <= p <= n ==> Reported(server, p, total))
    && Added([], Pages(server, n)) == Some(got)
  }

  lemma ReadOneMore(server: Server, page: nat, got: seq<Item>, total: Option<int>, now: seq<Item>)
    requires page >= 1 && ReadSoFar(server, page - 1, got, total) && Reported(server, page, total)
    requires Added(got, ItemsOf(server(page))) == Some(now)
    ensures ReadSoFar(server, page, now, total)
  {
    AddedTwice([], Pages(server, page - 1), ItemsOf(server(page)));
    forall p | 1 <= p <= page ensures Reported(server, p, total) { }
  }

  lemma {:induction false} ReadIsConsistent(server: Server, page: nat, got: seq<Item>, firstTotal: Option<int>)
    returns (n: nat, total: Option<int>)
    requires 1 <= page && (page > 1 ==> ReadSoFar(server, page - 1, got, firstTotal)) && (page == 1 ==> got == [])
    requires ReadFrom(server, page, got, firstTotal).Ok?
    ensures 1 <= n <= MAX_PAGES && ReadSoFar(server, n, ReadFrom(server, page, got, firstTotal).value, total)
    ensures total.Some? ==> |ReadFrom(server, page, got, firstTotal).value| == total.value
    ensures total.None? ==> ItemsOf(server(n)) == []
    decreases MAX_PAGES + 1 - page
  {
    ReadOkMeans(server, page, got, firstTotal);
    var items := server(page).value.items;
    total := server(page).value.total;
    var now := Added(got, items).value;
    if page == 1 {
      assert Pages(server, 0) == [];
      assert ReadSoFar(server, 0, got, total);
    }
    ReadOneMore(server, page, got, total, now);
    ReadStep(server, page, got, firstTotal, items, total, now);
    if items == [] || (total.Some? && |now| >= total.value) {
      n := page;
    } else {
      n, total := ReadIsConsistent(server, page + 1, now, total);
    }
  }

  lemma ReadOkMeans(server: Server, page: nat, got: seq<Item>, firstTotal: Option<int>)
    requires ReadFrom(server, page, got, firstTotal).Ok?
    ensures page <= MAX_PAGES && server(page).Ok?
    ensures page > 1 ==> server(page).value.total == firstTotal
    ensures Added(got, server(page).value.items).Some?
  {
  }

  /** Whatever the server answers, a read that ends normally after `n` pages holds each id on those pages
      exactly once, nothing else, and as many as the one total all of them reported. */
  lemma CompleteOrFailed(server: Server) returns (n: nat, total: Option<int>)
    requires ReadFrom(server, 1, [], None).Ok?
    ensures 1 <= n <= MAX_PAGES && forall p :: 1 <= p <= n ==> server(p).Ok? && server(p).value.total == total
    ensures var items := ReadFrom(server, 1, [], None).value;
            && DistinctIds(items)
            && (forall x :: x in items ==> x in Pages(server, n))
            && (forall x :: x in Pages(server, n) ==> x.Item? && Known(x.id, items))
            && (total.Some? ==> |items| == total.value)
            && (total.None? ==> server(n).value.items == [])
  {
    n, total := ReadIsConsistent(server, 1, [], None);
    forall p | 1 <= p <= n ensures server(p).Ok? && server(p).value.total == total {
      assert Reported(server, p, total);
    }
    AddedFacts([], Pages(server, n));
  }

  // ---------------------------------------------------------------------------------------------
  // A fixed listing
  // ---------------------------------------------------------------------------------------------

  function Min(a: nat, b: nat): nat {
    if a < b then a else b
  }

  function PageOf(listing: seq<Item>, size: nat, p: nat): seq<Item>
    requires p >= 1
  {
    listing[Min((p - 1) * size, |listing|)..Min(p * size, |listing|)]
  }

  ghost predicate Serves(server: Server, listing: seq<Item>, size: nat, total: Option<int>) {
    forall p :: p >= 1 ==> server(p) == Ok(Page(PageOf(listing, size, p), total))
  }

  lemma {:induction false} NewItemsAreAdded(got: seq<Item>, items: seq<Item>)
    requires DistinctIds(got + items)
    ensures Added(got, items) == Some(got + items)
    decreases |items|
  {
    if items != [] {
      assert (got + items)[|got|] == items[0];
      assert forall i :: 0 <= i < |got| ==> (got + items)[i] == got[i];
      assert !Known(items[0].id, got);
      assert got + [items[0]] + items[1..] == got + items;
      NewItemsAreAdded(got + [items[0]], items[1..]);
    } else {
      assert got + items == got;
    }
  }

  /** How far `MAX_PAGES` pages reach; without a total, the last of them must be seen to be empty. */
  predicate WithinReach(listing: seq<Item>, size: nat, total: Option<int>) {
    |listing| <= size * (if total.Some? then MAX_PAGES else MAX_PAGES - 1)
  }

  lemma PrefixGrows(size: nat, p: nat)
    requires p >= 1
    ensures p * size == (p - 1) * size + size
  {
  }

  lemma CutTwice(listing: seq<Item>, a: nat, b: nat)
    requires a <= b <= |listing|
    ensures listing[..a] + listing[a..b] == listing[..b]
  {
  }

  lemma PrefixIsDistinct(listing: seq<Item>, n: nat)
    requires DistinctIds(listing) && n <= |listing|
    ensures DistinctIds(listing[..n])
  {
  }

  /** One page, whatever it holds. */
  lemma ReadStep(server: Server, page: nat, got: seq<Item>, firstTotal: Option<int>, items: seq<Item>, total: Option<int>, now: seq<Item>)
    requires 1 <= page <= MAX_PAGES && server(page) == Ok(Page(items, total))
    requires (page > 1 ==> total == firstTotal) && Added(got, items) == Some(now)
    ensures ReadFrom(server, page, got, firstTotal)
            == if items == [] || (total.Some? && |now| >= total.value) then
                 if total.Some? && |now| != total.value then Err(WrongTotal) else Ok(now)
               else if |now| == |got| then Err(NotHonoured(page))
               else ReadFrom(server, page + 1, now, total)
  {
  }

  /** One page of the listing: it ends the read, or adds at least one item. */
  lemma OneCut(server: Server, listing: seq<Item>, total: Option<int>, page: nat, before: nat, after: nat)
    requires DistinctIds(listing) && 1 <= page <= MAX_PAGES && (total.Some? ==> total.value == |listing|)
    requires before <= after <= |listing| && (before == after ==> after == |listing|)
    requires server(page) == Ok(Page(listing[before..after], total))
    ensures ReadFrom(server, page, listing[..before], if page == 1 then None else total)
            == if after == |listing| && (total.Some? || before == after) then Ok(listing)
               else ReadFrom(server, page + 1, listing[..after], total)
  {
    CutTwice(listing, before, after);
    PrefixIsDistinct(listing, after);
    NewItemsAreAdded(listing[..before], listing[before..after]);
    ReadStep(server, page, listing[..before], if page == 1 then None else total, listing[before..after], total, listing[..after]);
    assert listing[..|listing|] == listing;
  }

  lemma {:induction false} ReadsOn(server: Server, listing: seq<Item>, size: nat, total: Option<int>, page: nat)
    requires Serves(server, listing, size, total) && size >= 1 && DistinctIds(listing)
    requires total.Some? ==> total.value == |listing|
    requires 1 <= page <= MAX_PAGES
    requires page > 1 ==> (if total.Some? then (page - 1) * size < |listing| else (page - 2) * size < |listing|)
    ensures ReadFrom(server, page, listing[..Min((page - 1) * size, |listing|)], if page == 1 then None else total)
            == if WithinReach(listing, size, total) then Ok(listing) else Err(NoEnd)
    decreases MAX_PAGES - page
  {
    var before, after := Min((page - 1) * size, |listing|), Min(page * size, |listing|);
    PrefixGrows(size, page);
    OneCut(server, listing, total, page, before, after);
    if after == |listing| && (total.Some? || before == after) {
      EndsInTime(listing, size, total, page);
    } else if page == MAX_PAGES {
      NeverEnds(listing, size, total);
    } else {
      ReadsOn(server, listing, size, total, page + 1);
    }
  }

  lemma EndsInTime(listing: seq<Item>, size: nat, total: Option<int>, page: nat)
    requires 1 <= page <= MAX_PAGES
    requires |listing| <= if total.Some? then page * size else (page - 1) * size
    ensures WithinReach(listing, size, total)
  {
    MultiplyKeepsOrder(page, MAX_PAGES, size);
    MultiplyKeepsOrder(page - 1, MAX_PAGES - 1, size);
  }

  lemma NeverEnds(listing: seq<Item>, size: nat, total: Option<int>)
    requires |listing| > if total.Some? then MAX_PAGES * size else (MAX_PAGES - 1) * size
    ensures !WithinReach(listing, size, total)
  {
    MultiplyKeepsOrder(MAX_PAGES, MAX_PAGES, size);
    MultiplyKeepsOrder(MAX_PAGES - 1, MAX_PAGES - 1, size);
  }

  lemma MultiplyKeepsOrder(a: nat, b: nat, size: nat)
    requires a <= b
    ensures a * size <= b * size == size * b
  {
    assert (b - a) * size >= 0;
    assert b * size == a * size + (b - a) * size;
  }

  /** A listing that does not change, served in pages of one size with its total always or never, is read
      exactly, in its order, if and only if it is within reach; else the read fails. */
  lemma FixedListingIsReadExactly(server: Server, listing: seq<Item>, size: nat, total: Option<int>)
    requires Serves(server, listing, size, total) && size >= 1 && DistinctIds(listing)
    requires total.Some? ==> total.value == |listing|
    ensures ReadFrom(server, 1, [], None) == Ok(listing) <==> WithinReach(listing, size, total)
    ensures ReadFrom(server, 1, [], None).Err? <==> !WithinReach(listing, size, total)
  {
    assert listing[..0] == [];
    ReadsOn(server, listing, size, total, 1);
  }

  // ---------------------------------------------------------------------------------------------
  // Why a read fails
  // ---------------------------------------------------------------------------------------------

  /** Pages 1 to `n` were answered. */
  ghost predicate Answered(server: Server, n: nat) {
    forall p {:trigger server(p)} :: 1 <= p <= n ==> server(p).Ok?
  }

  /** Page `p` is not empty, and every item on it was on an earlier page. */
  ghost predicate RepeatsOnly(server: Server, p: nat, got: seq<Item>, total: Option<int>) {
    && p >= 1 && ReadSoFar(server, p - 1, got, total)
    && ItemsOf(server(p)) != [] && forall x :: x in ItemsOf(server(p)) ==> x.Item? && Known(x.id, got)
  }

  /** A read that fails names something that is so: a page was not answered, or reported another total than
      the first, or holds an item without an id, or repeats only what was there; the ids read are not as
      many as the one total reported; or no page up to the last allowed was the end. */
  ghost predicate TrueReason(server: Server, e: ReadError) {
    match e
    case FetchFailed(message) => exists p :: 1 <= p <= MAX_PAGES && server(p) == Err(message)
    case ListingChanged =>
      exists p :: 1 < p <= MAX_PAGES && server(1).Ok? && server(p).Ok? && server(p).value.total != server(1).value.total
    case WithoutId(p) => 1 <= p <= MAX_PAGES && server(p).Ok? && Unkeyed in server(p).value.items
    case WrongTotal =>
      exists n: nat, got, total: int :: n >= 1 && ReadSoFar(server, n, got, Some(total)) && |got| != total
                                   && (ItemsOf(server(n)) == [] || |got| > total)
    case NotHonoured(p) =>
      1 <= p <= MAX_PAGES && exists got, total :: RepeatsOnly(server, p, got, total)
    case NoEnd =>
      Answered(server, MAX_PAGES) && forall p {:trigger server(p)} :: 1 <= p <= MAX_PAGES ==> ItemsOf(server(p)) != []
  }

  lemma {:induction false} NoneAddedMeansUnkeyed(got: seq<Item>, items: seq<Item>)
    requires Added(got, items).None?
    ensures Unkeyed in items
    decreases |items|
  {
    if !items[0].Unkeyed? {
      NoneAddedMeansUnkeyed(if Known(items[0].id, got) then got else got + [items[0]], items[1..]);
    }
  }

  /** Where a page adds nothing, everything on it was known. */
  lemma NothingNew(got: seq<Item>, items: seq<Item>, now: seq<Item>)
    requires DistinctIds(got) && Added(got, items) == Some(now) && |now| == |got|
    ensures now == got && forall x :: x in items ==> x.Item? && Known(x.id, got)
  {
    AddedFacts(got, items);
    assert got <= now;
  }

  ghost predicate NotEmptyUpTo(server: Server, n: nat) {
    forall p {:trigger server(p)} :: 1 <= p <= n ==> server(p).Ok? && ItemsOf(server(p)) != []
  }

  lemma {:induction false} FailureHasReason(server: Server, page: nat, got: seq<Item>, firstTotal: Option<int>)
    requires 1 <= page && (page == 1 ==> got == []) && NotEmptyUpTo(server, page - 1)
    requires page > 1 ==> ReadSoFar(server, page - 1, got, firstTotal) && server(1).Ok? && server(1).value.total == firstTotal
    requires page <= MAX_PAGES + 1 && ReadFrom(server, page, got, firstTotal).Err?
    ensures TrueReason(server, ReadFrom(server, page, got, firstTotal).error)
    decreases MAX_PAGES + 1 - page
  {
    if page <= MAX_PAGES && server(page).Ok? {
      var items, total := server(page).value.items, server(page).value.total;
      if page > 1 && total != firstTotal {
      } else if Added(got, items).None? {
        NoneAddedMeansUnkeyed(got, items);
      } else {
        FailsLater(server, page, got, firstTotal);
      }
    }
  }

  lemma {:induction false} FailsLater(server: Server, page: nat, got: seq<Item>, firstTotal: Option<int>)
    requires 1 <= page <= MAX_PAGES && (page == 1 ==> got == []) && NotEmptyUpTo(server, page - 1)
    requires page > 1 ==> ReadSoFar(server, page - 1, got, firstTotal) && server(1).Ok? && server(1).value.total == firstTotal
    requires ReadFrom(server, page, got, firstTotal).Err?
    requires server(page).Ok? && (page > 1 ==> server(page).value.total == firstTotal)
    requires Added(got, server(page).value.items).Some?
    ensures TrueReason(server, ReadFrom(server, page, got, firstTotal).error)
    decreases MAX_PAGES + 1 - page, 0
  {
    var items, total := server(page).value.items, server(page).value.total;
    var now := Added(got, items).value;
    if page == 1 {
      assert Pages(server, 0) == [];
      assert ReadSoFar(server, 0, got, total);
    }
    ReadOneMore(server, page, got, total, now);
    ReadStep(server, page, got, firstTotal, items, total, now);
    if items == [] || (total.Some? && |now| >= total.value) {
    } else if |now| == |got| {
      AddedFacts([], Pages(server, page - 1));
      NothingNew(got, items, now);
      assert RepeatsOnly(server, page, got, total);
    } else {
      FailureHasReason(server, page + 1, now, total);
    }
  }

  lemma FailuresAreTrue(server: Server)
    requires ReadFrom(server, 1, [], None).Err?
    ensures TrueReason(server, ReadFrom(server, 1, [], None).error)
  {
    FailureHasReason(server, 1, [], None);
  }
}
