/**
 Choosing a unit price among price-list rows, pricing a cart, and the totals a quote and
 an order take from it. Amounts are minor units (module Money); dates are milliseconds.
 */
module Pricing {
  import opened Wrappers
  import opened Cart
  import opened Sequences

  type Id = nat

  datatype Candidate = Candidate(
    itemId: Id, listId: Id, listOrg: Option<Id>, priority: int,
    validFrom: int, validTo: Option<int>, active: bool, minQty: int, unitPrice: int)

  datatype SourceKind = Contract | DefaultList | BasePrice

  datatype ResolvedPrice = ResolvedPrice(
    unitPrice: int, sourceKind: SourceKind, sourceId: Option<Id>, priceListId: Option<Id>, minQtyApplied: int)

  datatype Error = InvalidQuantity | ProductNotFound(product: Id) | ProductInactive(product: Id)

  // ---- Choosing ----

  predicate Listed(c: Candidate, org: Id, at: int) {
    && c.active
    && c.validFrom <= at
    && (c.validTo.None? || c.validTo.value > at)
    && (c.listOrg == Some(org) || c.listOrg == None)
  }

  predicate Usable(c: Candidate, org: Id, qty: int, at: int) {
    Listed(c, org, at) && c.minQty <= qty
  }

  function UsableOf(cs: seq<Candidate>, org: Id, qty: int, at: int): seq<Candidate> {
    if cs == [] then []
    else (if Usable(cs[0], org, qty, at) then [cs[0]] else []) + UsableOf(cs[1..], org, qty, at)
  }

  function Ranked(b: bool): int { if b then 1 else 0 }

  /** Contracts first, then higher priority, then newer, then lower list id. */
  function ByListPreference(a: Candidate, b: Candidate): int {
    var contract := Ranked(b.listOrg.Some?) - Ranked(a.listOrg.Some?);
    if contract != 0 then contract
    else if a.priority != b.priority then b.priority - a.priority
    else if a.validFrom != b.validFrom then b.validFrom - a.validFrom
    else if a.listId < b.listId then -1
    else if a.listId > b.listId then 1
    else 0
  }

  predicate Before(a: Candidate, b: Candidate) { ByListPreference(a, b) < 0 }

  function OfList(cs: seq<Candidate>, list: Id): seq<Candidate> {
    if cs == [] then [] else (if cs[0].listId == list then [cs[0]] else []) + OfList(cs[1..], list)
  }

  /** `reduce((a, b) => (b.minQty > a.minQty ? b : a))`, from `a` on. */
  function LargestTier(a: Candidate, cs: seq<Candidate>): Candidate
    decreases |cs|
  {
    if cs == [] then a else LargestTier(if cs[0].minQty > a.minQty then cs[0] else a, cs[1..])
  }

  /** The price-list row used, if any is usable. */
  function Choose(cs: seq<Candidate>, org: Id, qty: int, at: int): Option<Candidate> {
    var usable := UsableOf(cs, org, qty, at);
    if usable == [] then None
    else
      SortPermutes(usable, Before);
      assert |multiset(StableSort(usable, Before))| == |usable|;
      var best := StableSort(usable, Before)[0];
      var tiers := OfList(usable, best.listId);
      if tiers == [] then None else Some(LargestTier(tiers[0], tiers[1..]))
  }

  function PriceOf(tier: Candidate): ResolvedPrice {
    ResolvedPrice(tier.unitPrice, if tier.listOrg.None? then DefaultList else Contract,
                  Some(tier.itemId), Some(tier.listId), tier.minQty)
  }

  function PickPrice(cs: seq<Candidate>, org: Id, qty: int, at: int, basePrice: int): (r: Outcome<ResolvedPrice, Error>)
    ensures r.Fail? <==> qty < 1
  {
    if qty < 1 then Fail(InvalidQuantity)
    else
      match Choose(cs, org, qty, at)
      case None => Ok(ResolvedPrice(basePrice, BasePrice, None, None, 1))
      case Some(tier) => Ok(PriceOf(tier))
  }

  // ---- What the choice is ----

  predicate SameList(a: Candidate, b: Candidate) {
    && a.listOrg == b.listOrg && a.priority == b.priority
    && a.validFrom == b.validFrom && a.validTo == b.validTo && a.active == b.active
  }

  /** Rows of one list agree on the list's fields, as the join gives them. */
  predicate ListsAgree(cs: seq<Candidate>) {
    forall a, b :: a in cs && b in cs && a.listId == b.listId ==> SameList(a, b)
  }

  /** And no two are for the same tier. */
  predicate WellFormed(cs: seq<Candidate>) {
    forall a, b :: a in cs && b in cs && a.listId == b.listId ==> SameList(a, b) && (a.minQty == b.minQty ==> a == b)
  }

  /** The policy: a usable row of a list nothing usable is preferred to, and its largest usable tier. */
  predicate IsChoice(t: Candidate, cs: seq<Candidate>, org: Id, qty: int, at: int) {
    && t in cs && Usable(t, org, qty, at)
    && (forall u :: u in cs && Usable(u, org, qty, at) ==> !Before(u, t))
    && (forall u :: u in cs && Usable(u, org, qty, at) && u.listId == t.listId ==> u.minQty <= t.minQty)
  }

  lemma {:induction false} UsableIn(cs: seq<Candidate>, org: Id, qty: int, at: int)
    ensures forall c :: c in UsableOf(cs, org, qty, at) <==> c in cs && Usable(c, org, qty, at)
  {
    if cs != [] {
      UsableIn(cs[1..], org, qty, at);
      assert cs == [cs[0]] + cs[1..];
    }
  }

  lemma {:induction false} OfListIn(cs: seq<Candidate>, list: Id)
    ensures forall c :: c in OfList(cs, list) <==> c in cs && c.listId == list
  {
    if cs != [] {
      OfListIn(cs[1..], list);
      assert cs == [cs[0]] + cs[1..];
    }
  }

  lemma {:induction false} LargestTierIs(a: Candidate, cs: seq<Candidate>)
    ensures var t := LargestTier(a, cs);
      (t == a || t in cs) && a.minQty <= t.minQty && forall c :: c in cs ==> c.minQty <= t.minQty
    decreases |cs|
  {
    if cs != [] {
      LargestTierIs(if cs[0].minQty > a.minQty then cs[0] else a, cs[1..]);
      assert cs == [cs[0]] + cs[1..];
    }
  }

  lemma {:induction false} PreferenceIsWeak()
    ensures StrictWeak(Before)
  {}

  lemma {:induction false} SameListSameRank(a: Candidate, b: Candidate, c: Candidate)
    requires SameList(a, b) && a.listId == b.listId
    ensures Before(c, a) <==> Before(c, b)
  {}

  /** The code follows the policy: it finds a row exactly when one is usable, and then the policy's. */
  lemma {:induction false} ChoiceMade(cs: seq<Candidate>, org: Id, qty: int, at: int)
    requires ListsAgree(cs)
    ensures var r := Choose(cs, org, qty, at);
      && (r.None? <==> forall c :: c in cs ==> !Usable(c, org, qty, at))
      && (r.Some? ==> IsChoice(r.value, cs, org, qty, at))
  {
    var usable := UsableOf(cs, org, qty, at);
    UsableIn(cs, org, qty, at);
    if usable != [] {
      PreferenceIsWeak();
      SortedFirst(usable, Before);
      var best := StableSort(usable, Before)[0];
      var tiers := OfList(usable, best.listId);
      OfListIn(usable, best.listId);
      assert best in tiers;
      LargestTierIs(tiers[0], tiers[1..]);
      var t := LargestTier(tiers[0], tiers[1..]);
      assert tiers == [tiers[0]] + tiers[1..];
      assert t in tiers;
      forall u | u in cs && Usable(u, org, qty, at) ensures !Before(u, t) {
        SameListSameRank(best, t, u);
      }
    } else {
      forall c | c in cs ensures !Usable(c, org, qty, at) {}
    }
  }

  lemma {:induction false} ChoiceUnique(s: Candidate, t: Candidate, cs: seq<Candidate>, org: Id, qty: int, at: int)
    requires WellFormed(cs) && IsChoice(s, cs, org, qty, at) && IsChoice(t, cs, org, qty, at)
    ensures s == t
  {
    assert !Before(s, t) && !Before(t, s);
    assert s.listId == t.listId;
  }

  /** Only which rows there are matters, not their order or how often they come. */
  lemma {:induction false} OrderIrrelevant(cs: seq<Candidate>, cs': seq<Candidate>, org: Id, qty: int, at: int, basePrice: int)
    requires WellFormed(cs) && forall c :: c in cs <==> c in cs'
    ensures PickPrice(cs, org, qty, at, basePrice) == PickPrice(cs', org, qty, at, basePrice)
  {
    ChoiceMade(cs, org, qty, at);
    ChoiceMade(cs', org, qty, at);
    var r, r' := Choose(cs, org, qty, at), Choose(cs', org, qty, at);
    if r.Some? {
      assert r.value in cs';
      assert r'.Some?;
      assert IsChoice(r'.value, cs, org, qty, at);
      ChoiceUnique(r.value, r'.value, cs, org, qty, at);
    } else if r'.Some? {
      assert false;
    }
  }

  // ---- When two rows tie ----

  /** `t` in front of the rest wins every tie. */
  lemma {:induction false} FirstWins(t: Candidate, rest: seq<Candidate>, org: Id, qty: int, at: int)
    requires ListsAgree([t] + rest) && IsChoice(t, [t] + rest, org, qty, at)
    ensures Choose([t] + rest, org, qty, at) == Some(t)
  {
    var cs := [t] + rest;
    var usable := UsableOf(cs, org, qty, at);
    assert cs[1..] == rest && usable == [t] + UsableOf(rest, org, qty, at);
    UsableIn(cs, org, qty, at);
    PreferenceIsWeak();
    SortedFirst(usable, Before);
    var best := StableSort(usable, Before)[0];
    assert best.listId == t.listId by {
      assert !Before(t, best) && !Before(best, t);
    }
    var tiers := OfList(usable, t.listId);
    assert usable[1..] == UsableOf(rest, org, qty, at);
    assert tiers == [t] + OfList(usable[1..], t.listId);
    OfListIn(usable, t.listId);
    FirstIsLargest(t, tiers[1..]);
  }

  lemma {:induction false} FirstIsLargest(t: Candidate, cs: seq<Candidate>)
    requires forall c :: c in cs ==> c.minQty <= t.minQty
    ensures LargestTier(t, cs) == t
  {
    if cs != [] { FirstIsLargest(t, cs[1..]); }
  }

  /** The rows with `t` brought to the front. */
  lemma {:induction false} ToFront(t: Candidate, cs: seq<Candidate>) returns (rest: seq<Candidate>)
    requires t in cs
    ensures multiset([t] + rest) == multiset(cs)
  {
    var i :| 0 <= i < |cs| && cs[i] == t;
    rest := cs[..i] + cs[i + 1..];
    WithoutOne(cs, i);
  }

  lemma {:induction false} FrontRowWins(s: Candidate, cs: seq<Candidate>, org: Id, qty: int, at: int, basePrice: int)
    returns (cs': seq<Candidate>)
    requires ListsAgree(cs) && qty >= 1 && IsChoice(s, cs, org, qty, at)
    ensures multiset(cs') == multiset(cs) && PickPrice(cs', org, qty, at, basePrice) == Ok(PriceOf(s))
  {
    var rest := ToFront(s, cs);
    cs' := [s] + rest;
    SameElements(cs, cs');
    FirstWins(s, rest, org, qty, at);
  }

  /** Reordering the rows never changes the price. */
  ghost predicate OrderFree(cs: seq<Candidate>, org: Id, qty: int, at: int, basePrice: int) {
    forall cs' :: multiset(cs') == multiset(cs) ==>
      PickPrice(cs', org, qty, at, basePrice) == PickPrice(cs, org, qty, at, basePrice)
  }

  /** Rows that tie for the choice say the same. */
  ghost predicate TiesAgree(cs: seq<Candidate>, org: Id, qty: int, at: int) {
    forall s, t :: IsChoice(s, cs, org, qty, at) && IsChoice(t, cs, org, qty, at) ==> PriceOf(s) == PriceOf(t)
  }

  /**
   Exactly when the price of a product does not depend on the order of its rows: when the
   rows for the best list's largest tier, if there are several, agree.
   */
  lemma {:induction false} OrderFreeIff(cs: seq<Candidate>, org: Id, qty: int, at: int, basePrice: int)
    requires ListsAgree(cs) && qty >= 1
    ensures OrderFree(cs, org, qty, at, basePrice) <==> TiesAgree(cs, org, qty, at)
  {
    if OrderFree(cs, org, qty, at, basePrice) {
      forall s, t | IsChoice(s, cs, org, qty, at) && IsChoice(t, cs, org, qty, at) ensures PriceOf(s) == PriceOf(t) {
        var first := FrontRowWins(s, cs, org, qty, at, basePrice);
        var second := FrontRowWins(t, cs, org, qty, at, basePrice);
      }
    }
    if TiesAgree(cs, org, qty, at) {
      forall cs' | multiset(cs') == multiset(cs)
        ensures PickPrice(cs', org, qty, at, basePrice) == PickPrice(cs, org, qty, at, basePrice)
      {
        SameElements(cs, cs');
        TiesDecide(cs, cs', org, qty, at);
      }
    }
  }

  lemma {:induction false} TiesDecide(cs: seq<Candidate>, cs': seq<Candidate>, org: Id, qty: int, at: int)
    requires ListsAgree(cs) && (forall c :: c in cs <==> c in cs') && TiesAgree(cs, org, qty, at)
    ensures var r, r' := Choose(cs, org, qty, at), Choose(cs', org, qty, at);
      (r.Some? <==> r'.Some?) && (r.Some? ==> PriceOf(r.value) == PriceOf(r'.value))
  {
    ChoiceMade(cs, org, qty, at);
    ChoiceMade(cs', org, qty, at);
    var r, r' := Choose(cs, org, qty, at), Choose(cs', org, qty, at);
    if r.Some? {
      assert r.value in cs' && r'.Some?;
      assert IsChoice(r'.value, cs, org, qty, at);
    }
  }

  lemma {:induction false} FirstOfTwo(a: Candidate, b: Candidate, org: Id, qty: int, at: int, basePrice: int)
    requires a.listId == b.listId && SameList(a, b) && a.minQty == b.minQty && Usable(a, org, qty, at) && qty >= 1
    ensures ListsAgree([a, b]) && PickPrice([a, b], org, qty, at, basePrice) == Ok(PriceOf(a))
  {
    assert [a, b] == [a] + [b];
    FirstWins(a, [b], org, qty, at);
  }

  /** A row of list 7, for single units and always valid, with an item id and a price. */
  predicate RowOfList7(c: Candidate, itemId: Id, unitPrice: int) {
    c == Candidate(itemId, 7, None, 0, 0, None, true, 1, unitPrice)
  }

  /** Two rows for one tier of one list, with different prices: whichever comes first is charged. */
  lemma {:induction false} RowOrderCanMatter(a: Candidate, b: Candidate)
    requires RowOfList7(a, 1, 100) && RowOfList7(b, 2, 200)
    ensures ListsAgree([a, b])
    ensures PickPrice([a, b], 0, 1, 0, 500).value.unitPrice == 100
    ensures PickPrice([b, a], 0, 1, 0, 500).value.unitPrice == 200
  {
    FirstOfTwo(a, b, 0, 1, 0, 500);
    FirstOfTwo(b, a, 0, 1, 0, 500);
  }

  /** The policy, field by field: `t` is charged among `cs`. */
  ghost predicate Charged(t: Candidate, cs: seq<Candidate>, org: Id, qty: int, at: int) {
    && t in cs && Offered(t, org, qty, at)
    && forall u :: u in cs && Offered(u, org, qty, at) ==>
         && (u.listOrg.Some? ==> t.listOrg.Some?)
         && (u.listOrg.Some? == t.listOrg.Some? ==> u.priority <= t.priority)
         && (u.listOrg.Some? == t.listOrg.Some? && u.priority == t.priority ==> u.validFrom <= t.validFrom)
         && (u.listOrg.Some? == t.listOrg.Some? && u.priority == t.priority && u.validFrom == t.validFrom ==>
               t.listId <= u.listId)
         && (u.listId == t.listId ==> u.minQty <= t.minQty)
  }

  /** A row the customer can be charged by: active, valid at the moment, theirs or anybody's, and its tier reached. */
  predicate Offered(c: Candidate, org: Id, qty: int, at: int) {
    && c.active && c.validFrom <= at && (c.validTo.Some? ==> at < c.validTo.value)
    && (c.listOrg.Some? ==> c.listOrg.value == org) && c.minQty <= qty
  }

  lemma {:induction false} OfferedIs(c: Candidate, org: Id, qty: int, at: int)
    ensures Offered(c, org, qty, at) <==> Usable(c, org, qty, at)
  {}

  lemma {:induction false} PreferredOnFields(t: Candidate, u: Candidate)
    requires !Before(u, t)
    ensures u.listOrg.Some? ==> t.listOrg.Some?
    ensures u.listOrg.Some? == t.listOrg.Some? ==> u.priority <= t.priority
    ensures u.listOrg.Some? == t.listOrg.Some? && u.priority == t.priority ==> u.validFrom <= t.validFrom
    ensures u.listOrg.Some? == t.listOrg.Some? && u.priority == t.priority && u.validFrom == t.validFrom ==>
      t.listId <= u.listId
  {}

  /**
   The price of a product. With nothing on offer it is the base price; otherwise it is that
   of a row on offer whose list nothing on offer beats (contract before default, then higher
   priority, then newer, then lower id) and whose tier is that list's largest reached.
   */
  lemma {:induction false} PriceIs(cs: seq<Candidate>, org: Id, qty: int, at: int, basePrice: int)
    requires ListsAgree(cs) && qty >= 1
    ensures var r := PickPrice(cs, org, qty, at, basePrice);
      && r.Ok?
      && if forall c :: c in cs ==> !Offered(c, org, qty, at)
         then r.value == ResolvedPrice(basePrice, BasePrice, None, None, 1)
         else exists t :: Charged(t, cs, org, qty, at)
                && r.value == ResolvedPrice(t.unitPrice, if t.listOrg == None then DefaultList else Contract,
                                            Some(t.itemId), Some(t.listId), t.minQty)
  {
    ChoiceMade(cs, org, qty, at);
    forall c | c in cs ensures Offered(c, org, qty, at) <==> Usable(c, org, qty, at) { OfferedIs(c, org, qty, at); }
    var choice := Choose(cs, org, qty, at);
    if choice.Some? {
      var t := choice.value;
      forall u | u in cs && Offered(u, org, qty, at) ensures !Before(u, t) { OfferedIs(u, org, qty, at); }
      ChargedBy(t, cs, org, qty, at);
    }
  }

  lemma {:induction false} ChargedBy(t: Candidate, cs: seq<Candidate>, org: Id, qty: int, at: int)
    requires IsChoice(t, cs, org, qty, at)
    ensures Charged(t, cs, org, qty, at)
  {
    OfferedIs(t, org, qty, at);
    forall u | u in cs && Offered(u, org, qty, at)
      ensures !Before(u, t) && (u.listId == t.listId ==> u.minQty <= t.minQty)
    {
      OfferedIs(u, org, qty, at);
    }
    forall u | u in cs && Offered(u, org, qty, at)
      ensures u.listOrg.Some? ==> t.listOrg.Some?
      ensures u.listOrg.Some? == t.listOrg.Some? ==> u.priority <= t.priority
      ensures u.listOrg.Some? == t.listOrg.Some? && u.priority == t.priority ==> u.validFrom <= t.validFrom
      ensures u.listOrg.Some? == t.listOrg.Some? && u.priority == t.priority && u.validFrom == t.validFrom ==>
        t.listId <= u.listId
    {
      PreferredOnFields(t, u);
    }
  }

  /** With a larger quantity the list chosen never becomes a less preferred one, nor the base price again. */
  lemma {:induction false} RankNeverWorsens(cs: seq<Candidate>, org: Id, qty: int, more: int, at: int)
    requires ListsAgree(cs) && qty <= more && Choose(cs, org, qty, at).Some?
    ensures Choose(cs, org, more, at).Some?
    ensures !Before(Choose(cs, org, qty, at).value, Choose(cs, org, more, at).value)
  {
    ChoiceMade(cs, org, qty, at);
    ChoiceMade(cs, org, more, at);
    var t := Choose(cs, org, qty, at).value;
    assert t in cs && Usable(t, org, more, at);
  }

  // ---- The query ----

  /** A row of the price tables, of any product, list and validity. */
  datatype Row = Row(product: Id, candidate: Candidate)

  function Queried(table: seq<Row>, products: set<Id>, org: Id, at: int): seq<Row> {
    if table == [] then []
    else
      var r := table[|table| - 1];
      Queried(table[..|table| - 1], products, org, at)
      + (if r.product in products && Listed(r.candidate, org, at) then [r] else [])
  }

  function RowsOf(rows: seq<Row>, product: Id): seq<Candidate> {
    if rows == [] then []
    else
      var r := rows[|rows| - 1];
      RowsOf(rows[..|rows| - 1], product) + (if r.product == product then [r.candidate] else [])
  }

  lemma {:induction false} UsableConcat(a: seq<Candidate>, b: seq<Candidate>, org: Id, qty: int, at: int)
    ensures UsableOf(a + b, org, qty, at) == UsableOf(a, org, qty, at) + UsableOf(b, org, qty, at)
  {
    if a == [] {
      assert a + b == b;
    } else {
      assert (a + b)[0] == a[0] && (a + b)[1..] == a[1..] + b;
      UsableConcat(a[1..], b, org, qty, at);
      var first := if Usable(a[0], org, qty, at) then [a[0]] else [];
      Associative(first, UsableOf(a[1..], org, qty, at), UsableOf(b, org, qty, at));
    }
  }

  lemma {:induction false} RowsOfSnoc(rows: seq<Row>, r: Row, product: Id)
    ensures RowsOf(rows + [r], product) == RowsOf(rows, product) + (if r.product == product then [r.candidate] else [])
  {
    assert (rows + [r])[..|rows|] == rows;
  }

  lemma {:induction false} NoneUsable(cs: seq<Candidate>, org: Id, qty: int, at: int)
    requires forall c :: c in cs ==> !Usable(c, org, qty, at)
    ensures UsableOf(cs, org, qty, at) == []
  {
    if cs != [] { NoneUsable(cs[1..], org, qty, at); }
  }

  lemma {:induction false} UsableSnoc(cs: seq<Candidate>, more: seq<Candidate>, org: Id, qty: int, at: int)
    requires forall c :: c in more ==> !Usable(c, org, qty, at)
    ensures UsableOf(cs + more, org, qty, at) == UsableOf(cs, org, qty, at)
  {
    UsableConcat(cs, more, org, qty, at);
    NoneUsable(more, org, qty, at);
  }

  lemma {:induction false} QueryKeepsUsable(table: seq<Row>, products: set<Id>, product: Id, org: Id, qty: int, at: int)
    requires product in products
    ensures UsableOf(RowsOf(Queried(table, products, org, at), product), org, qty, at)
         == UsableOf(RowsOf(table, product), org, qty, at)
  {
    if table != [] {
      var front, r := table[..|table| - 1], table[|table| - 1];
      var queried := Queried(front, products, org, at);
      QueryKeepsUsable(front, products, product, org, qty, at);
      var last := if r.product == product then [r.candidate] else [];
      if r.product in products && Listed(r.candidate, org, at) {
        RowsOfSnoc(queried, r, product);
        UsableConcat(RowsOf(front, product), last, org, qty, at);
        UsableConcat(RowsOf(queried, product), last, org, qty, at);
      } else {
        assert queried + [] == queried;
        UsableSnoc(RowsOf(front, product), last, org, qty, at);
      }
    }
  }

  /** The query's filter leaves the price what it would be over the whole table. */
  lemma {:induction false} PrefilterIrrelevant(table: seq<Row>, products: set<Id>, product: Id, org: Id, qty: int, at: int, basePrice: int)
    requires product in products
    ensures PickPrice(RowsOf(Queried(table, products, org, at), product), org, qty, at, basePrice)
         == PickPrice(RowsOf(table, product), org, qty, at, basePrice)
  {
    QueryKeepsUsable(table, products, product, org, qty, at);
  }

  // ---- Pricing a cart ----

  datatype Product = Product(sku: nat, active: bool, basePrice: int)

  datatype PricedLine = PricedLine(product: Id, sku: nat, qty: int, price: ResolvedPrice, lineTotal: int)

  function GetRows(byProduct: map<Id, seq<Candidate>>, product: Id): seq<Candidate> {
    if product in byProduct then byProduct[product] else []
  }

  ghost predicate Groups(byProduct: map<Id, seq<Candidate>>, rows: seq<Row>) {
    forall p :: GetRows(byProduct, p) == RowsOf(rows, p)
  }

  lemma {:induction false} GroupsNext(byProduct: map<Id, seq<Candidate>>, rows: seq<Row>, r: Row)
    requires Groups(byProduct, rows)
    ensures Groups(byProduct[r.product := GetRows(byProduct, r.product) + [r.candidate]], rows + [r])
  {
    var next := byProduct[r.product := GetRows(byProduct, r.product) + [r.candidate]];
    forall p ensures GetRows(next, p) == RowsOf(rows + [r], p) {
      RowsOfSnoc(rows, r, p);
    }
  }

  /** The grouping loop keeps every row, under its product and in the order of the query. */
  method GroupByProduct(rows: seq<Row>) returns (byProduct: map<Id, seq<Candidate>>)
    ensures Groups(byProduct, rows)
  {
    byProduct := map[];
    var i := 0;
    while i < |rows|
      invariant 0 <= i <= |rows|
      invariant Groups(byProduct, rows[..i])
    {
      var r := rows[i];
      var list := GetRows(byProduct, r.product);
      assert rows[..i + 1] == rows[..i] + [r];
      GroupsNext(byProduct, rows[..i], r);
      byProduct := byProduct[r.product := list + [r.candidate]];
      i := i + 1;
    }
    assert rows[..|rows|] == rows;
  }

  function ProductError(products: map<Id, Product>, product: Id): Option<Error> {
    if product !in products then Some(ProductNotFound(product))
    else if !products[product].active then Some(ProductInactive(product))
    else None
  }

  /** The error of the first line whose product cannot be sold. */
  function FirstError(products: map<Id, Product>, lines: seq<Line>): (r: Option<Error>)
    ensures r.None? <==> forall l :: l in lines ==> ProductError(products, l.product).None?
  {
    if lines == [] then None
    else if ProductError(products, lines[0].product).Some? then ProductError(products, lines[0].product)
    else FirstError(products, lines[1..])
  }

  predicate Priceable(products: map<Id, Product>, l: Line) {
    l.qty >= 1 && ProductError(products, l.product).None?
  }

  /** One line priced among some candidates. */
  function PricedAmong(products: map<Id, Product>, cs: seq<Candidate>, org: Id, at: int, l: Line): PricedLine
    requires Priceable(products, l)
  {
    var p := products[l.product];
    var price := PickPrice(cs, org, l.qty, at, p.basePrice).value;
    PricedLine(l.product, p.sku, l.qty, price, price.unitPrice * l.qty)
  }

  /** A line's price, taken over every row there is for its product. */
  function Priced(products: map<Id, Product>, table: seq<Row>, org: Id, at: int, l: Line): PricedLine
    requires Priceable(products, l)
  {
    PricedAmong(products, RowsOf(table, l.product), org, at, l)
  }

  function Resolved(products: map<Id, Product>, table: seq<Row>, org: Id, at: int, lines: seq<Line>)
    : Outcome<seq<PricedLine>, Error>
  {
    if exists l :: l in lines && l.qty < 1 then Fail(InvalidQuantity)
    else if FirstError(products, lines).Some? then Fail(FirstError(products, lines).value)
    else Ok(seq(|lines|, i requires 0 <= i < |lines| => Priced(products, table, org, at, lines[i])))
  }

  /** A line for which nothing can be sold, and why. */
  predicate Unsellable(products: map<Id, Product>, l: Line, error: Error) {
    if l.product !in products then error == ProductNotFound(l.product)
    else !products[l.product].active && error == ProductInactive(l.product)
  }

  predicate FirstUnsellable(products: map<Id, Product>, lines: seq<Line>, i: nat, error: Error) {
    && i < |lines| && Unsellable(products, lines[i], error)
    && forall j :: 0 <= j < i ==> lines[j].product in products && products[lines[j].product].active
  }

  /**
   A cart is priced exactly when every quantity is at least one and every product is known
   and active. Quantities are checked first; then the first line that cannot be sold decides.
   */
  lemma {:induction false} ResolveAccepts(products: map<Id, Product>, table: seq<Row>, org: Id, at: int, lines: seq<Line>)
    ensures var r := Resolved(products, table, org, at, lines);
      && (r.Ok? <==> forall l :: l in lines ==> l.qty >= 1 && l.product in products && products[l.product].active)
      && ((exists l :: l in lines && l.qty < 1) ==> r == Fail(InvalidQuantity))
      && (r.Fail? && (forall l :: l in lines ==> l.qty >= 1) ==>
            exists i: nat :: FirstUnsellable(products, lines, i, r.error))
  {
    if FirstError(products, lines).Some? { FirstErrorIs(products, lines); }
  }

  lemma {:induction false} FirstErrorIs(products: map<Id, Product>, lines: seq<Line>)
    requires FirstError(products, lines).Some?
    ensures exists i: nat :: FirstUnsellable(products, lines, i, FirstError(products, lines).value)
  {
    var error := FirstError(products, lines).value;
    if ProductError(products, lines[0].product).Some? {
      assert FirstUnsellable(products, lines, 0, error);
    } else {
      FirstErrorIs(products, lines[1..]);
      var i: nat :| FirstUnsellable(products, lines[1..], i, error);
      forall j | 0 <= j < i + 1 ensures lines[j].product in products && products[lines[j].product].active {
        if j > 0 { assert lines[j] == lines[1..][j - 1]; }
      }
      assert FirstUnsellable(products, lines, i + 1, error);
    }
  }

  /** A priced line is its line, its product's sku, its price, and the two multiplied. */
  lemma {:induction false} ResolvedLine(
      products: map<Id, Product>, table: seq<Row>, org: Id, at: int, lines: seq<Line>, i: nat)
    requires Resolved(products, table, org, at, lines).Ok? && i < |lines|
    ensures var priced := Resolved(products, table, org, at, lines).value;
      && |priced| == |lines| && lines[i].product in products
      && priced[i].product == lines[i].product && priced[i].qty == lines[i].qty
      && priced[i].sku == products[lines[i].product].sku
      && priced[i].lineTotal == priced[i].price.unitPrice * lines[i].qty
      && PickPrice(RowsOf(table, lines[i].product), org, lines[i].qty, at, products[lines[i].product].basePrice)
         == Ok(priced[i].price)
  {
    assert lines[i] in lines;
  }

  method CheckLines(products: map<Id, Product>, lines: seq<Line>) returns (error: Option<Error>)
    ensures error == if exists l :: l in lines && l.qty < 1 then Some(InvalidQuantity) else FirstError(products, lines)
  {
    var i := 0;
    while i < |lines|
      invariant 0 <= i <= |lines|
      invariant forall j :: 0 <= j < i ==> lines[j].qty >= 1
    {
      if lines[i].qty < 1 { return Some(InvalidQuantity); }
      i := i + 1;
    }
    i := 0;
    while i < |lines|
      invariant 0 <= i <= |lines|
      invariant FirstError(products, lines) == FirstError(products, lines[i..])
    {
      error := ProductError(products, lines[i].product);
      if error.Some? { return; }
      assert lines[i..][1..] == lines[i + 1..];
      i := i + 1;
    }
    error := None;
  }

  /** Two queries and a grouping loop price every line as the whole price table would. */
  method Resolve(products: map<Id, Product>, table: seq<Row>, org: Id, at: int, lines: seq<Line>)
    returns (r: Outcome<seq<PricedLine>, Error>)
    ensures r == Resolved(products, table, org, at, lines)
  {
    var error := CheckLines(products, lines);
    if error.Some? { return Fail(error.value); }
    if lines == [] {
      assert Resolved(products, table, org, at, lines).value == [];
      return Ok([]);
    }
    var ids := set l | l in lines :: l.product;
    var byProduct := GroupByProduct(Queried(table, ids, org, at));
    forall l | l in lines
      ensures Priceable(products, l)
      ensures PricedAmong(products, GetRows(byProduct, l.product), org, at, l) == Priced(products, table, org, at, l)
    {
      PrefilterIrrelevant(table, ids, l.product, org, l.qty, at, products[l.product].basePrice);
    }
    var priced := seq(|lines|, i requires 0 <= i < |lines| =>
      PricedAmong(products, GetRows(byProduct, lines[i].product), org, at, lines[i]));
    forall i | 0 <= i < |lines| ensures priced[i] == Priced(products, table, org, at, lines[i]) {
      assert lines[i] in lines;
    }
    assert priced == Resolved(products, table, org, at, lines).value;
    r := Ok(priced);
  }

  // ---- Totals ----

  /** `reduce((sum, l) => sum.plus(l.lineTotal), zero)`. */
  function Total(sum: int, priced: seq<PricedLine>): int
    decreases |priced|
  {
    if priced == [] then sum else Total(sum + priced[0].lineTotal, priced[1..])
  }

  lemma {:induction false} TotalIsSum(sum: int, priced: seq<PricedLine>)
    ensures Total(sum, priced) == sum + SumOf(priced, (l: PricedLine) => l.lineTotal)
    decreases |priced|
  {
    if priced != [] { TotalIsSum(sum + priced[0].lineTotal, priced[1..]); }
  }

  predicate BySku(a: PricedLine, b: PricedLine) { a.sku < b.sku }

  predicate ByProduct(a: PricedLine, b: PricedLine) { a.product < b.product }

  function Extended(l: PricedLine): int { l.price.unitPrice * l.qty }

  /** The order's items as inserted, and as stock is reserved for them. */
  function ItemsBySku(priced: seq<PricedLine>): seq<PricedLine> { StableSort(priced, BySku) }

  function ItemsByProduct(priced: seq<PricedLine>): seq<PricedLine> { StableSort(ItemsBySku(priced), ByProduct) }

  /** Items are stored by sku and reserved by product id, the same items both times. */
  lemma {:induction false} ItemsInOrder(priced: seq<PricedLine>)
    ensures multiset(ItemsBySku(priced)) == multiset(priced) == multiset(ItemsByProduct(priced))
    ensures forall i, j :: 0 <= i < j < |ItemsBySku(priced)| ==> ItemsBySku(priced)[i].sku <= ItemsBySku(priced)[j].sku
    ensures forall i, j :: 0 <= i < j < |ItemsByProduct(priced)| ==>
      ItemsByProduct(priced)[i].product <= ItemsByProduct(priced)[j].product
  {
    var bySku, byProduct := ItemsBySku(priced), ItemsByProduct(priced);
    SortPermutes(priced, BySku);
    SortPermutes(bySku, ByProduct);
    assert StrictWeak(BySku) && StrictWeak(ByProduct);
    SortOrders(priced, BySku);
    SortOrders(bySku, ByProduct);
    forall i, j | 0 <= i < j < |bySku| ensures bySku[i].sku <= bySku[j].sku {
      assert !BySku(bySku[j], bySku[i]);
    }
    forall i, j | 0 <= i < j < |byProduct| ensures byProduct[i].product <= byProduct[j].product {
      assert !ByProduct(byProduct[j], byProduct[i]);
    }
  }

  lemma {:induction false} ExtendedTotal(priced: seq<PricedLine>)
    requires forall l :: l in priced ==> l.lineTotal == Extended(l)
    ensures SumOf(priced, (l: PricedLine) => l.lineTotal) == SumOf(priced, Extended)
  {
    if priced != [] { ExtendedTotal(priced[1..]); }
  }

  /** The total of an order is what its items come to, in whichever order they were sorted. */
  lemma {:induction false} OrderTotal(products: map<Id, Product>, table: seq<Row>, org: Id, at: int, lines: seq<Line>)
    requires Resolved(products, table, org, at, lines).Ok?
    ensures var priced := Resolved(products, table, org, at, lines).value;
      && Total(0, priced) == SumOf(ItemsBySku(priced), Extended)
      && Total(0, priced) == SumOf(ItemsByProduct(priced), Extended)
  {
    var priced := Resolved(products, table, org, at, lines).value;
    TotalIsSum(0, priced);
    ExtendedTotal(priced);
    SortPermutes(priced, BySku);
    SortPermutes(ItemsBySku(priced), ByProduct);
    SumPermutes(priced, ItemsBySku(priced), Extended);
    SumPermutes(priced, ItemsByProduct(priced), Extended);
  }

  function LineTotal(products: map<Id, Product>, table: seq<Row>, org: Id, at: int): Line -> int {
    (l: Line) => if Priceable(products, l) then Priced(products, table, org, at, l).lineTotal else 0
  }

  lemma {:induction false} TotalByLines(
      products: map<Id, Product>, table: seq<Row>, org: Id, at: int, lines: seq<Line>, priced: seq<PricedLine>)
    requires |priced| == |lines|
    requires forall i :: 0 <= i < |lines| ==>
      Priceable(products, lines[i]) && priced[i] == Priced(products, table, org, at, lines[i])
    ensures SumOf(priced, (l: PricedLine) => l.lineTotal) == SumOf(lines, LineTotal(products, table, org, at))
  {
    if lines != [] { TotalByLines(products, table, org, at, lines[1..], priced[1..]); }
  }

  /** An order costs what the quote for the same lines said, whatever order they were given in. */
  lemma {:induction false} OrderTotalIsQuoteTotal(
      products: map<Id, Product>, table: seq<Row>, org: Id, at: int, lines: seq<Line>, quoted: seq<Line>)
    requires multiset(lines) == multiset(quoted) && Resolved(products, table, org, at, lines).Ok?
    ensures Resolved(products, table, org, at, quoted).Ok?
    ensures Total(0, Resolved(products, table, org, at, lines).value)
         == Total(0, Resolved(products, table, org, at, quoted).value)
  {
    SameElements(lines, quoted);
    var priced, priced' := Resolved(products, table, org, at, lines).value, Resolved(products, table, org, at, quoted).value;
    TotalIsSum(0, priced);
    TotalIsSum(0, priced');
    TotalByLines(products, table, org, at, lines, priced);
    TotalByLines(products, table, org, at, quoted, priced');
    SumPermutes(lines, quoted, LineTotal(products, table, org, at));
  }
}
