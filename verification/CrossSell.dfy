/** Cross-sell: which add-ons may be offered for a cart, and what the pickers choose from them. */
module CrossSell {
  import opened Basics
  import opened Policy
  import opened Gate

  const MAX_OFFERS: nat := 2
  const LIMIT: nat := 8

  datatype Product = Product(id: string, title: string, price: int, inStock: bool, category: Option<string>, tags: seq<string>)

  // ---- headroom and candidates -------------------------------------------------------------------

  /** The tightest gap under the caps that apply to the cart. */
  function Gap(m: GateMandate, policy: Doc, total: int, today: int, spent: int): int {
    var gap := Min(m.perTxnCap - total, Min(m.dailyCap - today - total, m.totalCap - spent - total));
    var most := Get(policy.maxOrder, JNull);
    if most.JInt? then Min(gap, most.n - total) else gap
  }

  function Headroom(m: GateMandate, policy: Doc, total: int, today: int, spent: int): int {
    Max(0, Gap(m, policy, total, today, spent))
  }

  predicate InCart(cart: seq<Product>, id: string) { exists i | 0 <= i < |cart| :: cart[i].id == id }

  /** May be offered at all, price aside. */
  predicate Eligible(cart: seq<Product>, policy: Doc, m: GateMandate, p: Product) {
    && !InCart(cart, p.id)
    && !Contains(Get(policy.blockedSkus, JList([])), p.id)
    && p.inStock
    && p.category.Some?
    && Contains(Get(policy.allowedCategories, JList([])), p.category.value)
    && (m.categories != [] ==> p.category.value in m.categories)
  }

  function Filtered(cart: seq<Product>, products: seq<Product>, policy: Doc, m: GateMandate, room: int): (out: seq<Product>)
    ensures forall p :: p in out <==> p in products && Eligible(cart, policy, m, p) && p.price <= room
  {
    if products == [] then []
    else
      var n := |products| - 1;
      assert products == products[..n] + [products[n]];
      Filtered(cart, products[..n], policy, m, room)
      + (if Eligible(cart, policy, m, products[n]) && products[n].price <= room then [products[n]] else [])
  }

  function Take<T>(xs: seq<T>, n: nat): seq<T> { if |xs| <= n then xs else xs[..n] }

  function Candidates(cart: seq<Product>, products: seq<Product>, policy: Doc, m: GateMandate, today: int, spent: int,
                      limit: nat, total: int): seq<Product>
  {
    var room := Headroom(m, policy, total, today, spent);
    if room <= 0 then [] else Take(Sort(PriceThenId, Filtered(cart, products, policy, m, room)), limit)
  }

  // ---- orders ------------------------------------------------------------------------------------

  type Order = (Product, Product) -> bool

  /** Text order by code points. */
  predicate TextLe(a: string, b: string) {
    a == "" || (b != "" && (a[0] < b[0] || (a[0] == b[0] && TextLe(a[1..], b[1..]))))
  }

  predicate PriceThenId(p: Product, q: Product) {
    p.price < q.price || (p.price == q.price && TextLe(p.id, q.id))
  }

  function SharedTags(tags: set<string>, p: Product): set<string> { set t | t in p.tags && t in tags }

  /** Most tags shared with the cart first, then cheapest, then id. */
  function BestMatch(tags: set<string>): Order {
    (p: Product, q: Product) =>
      |SharedTags(tags, p)| > |SharedTags(tags, q)|
      || (|SharedTags(tags, p)| == |SharedTags(tags, q)| && PriceThenId(p, q))
  }

  ghost predicate Total(le: Order) { forall p, q :: le(p, q) || le(q, p) }

  ghost predicate Transitive(le: Order) { forall p, q, r :: le(p, q) && le(q, r) ==> le(p, r) }

  lemma {:induction false} TextLeTotal(a: string, b: string)
    ensures TextLe(a, b) || TextLe(b, a)
  {
    if a != "" && b != "" && a[0] == b[0] {
      TextLeTotal(a[1..], b[1..]);
    }
  }

  lemma {:induction false} TextLeTransitive(a: string, b: string, c: string)
    requires TextLe(a, b) && TextLe(b, c)
    ensures TextLe(a, c)
  {
    if a != "" && a[0] == b[0] && b[0] == c[0] {
      TextLeTransitive(a[1..], b[1..], c[1..]);
    }
  }

  lemma PriceThenIdOrders()
    ensures Total(PriceThenId) && Transitive(PriceThenId)
  {
    forall p, q ensures PriceThenId(p, q) || PriceThenId(q, p) {
      TextLeTotal(p.id, q.id);
    }
    forall p, q, r | PriceThenId(p, q) && PriceThenId(q, r) ensures PriceThenId(p, r) {
      if TextLe(p.id, q.id) && TextLe(q.id, r.id) {
        TextLeTransitive(p.id, q.id, r.id);
      }
    }
  }

  lemma BestMatchOrders(tags: set<string>)
    ensures Total(BestMatch(tags)) && Transitive(BestMatch(tags))
  {
    PriceThenIdOrders();
  }

  function Insert(le: Order, p: Product, xs: seq<Product>): seq<Product> {
    if xs == [] || le(p, xs[0]) then [p] + xs else [xs[0]] + Insert(le, p, xs[1..])
  }

  function Sort(le: Order, xs: seq<Product>): seq<Product> {
    if xs == [] then [] else Insert(le, xs[0], Sort(le, xs[1..]))
  }

  predicate Ordered(le: Order, xs: seq<Product>) { forall i, j | 0 <= i < j < |xs| :: le(xs[i], xs[j]) }

  lemma {:induction false} InsertMembers(le: Order, p: Product, xs: seq<Product>)
    ensures multiset(Insert(le, p, xs)) == multiset(xs) + multiset{p}
  {
    if xs != [] && !le(p, xs[0]) {
      InsertMembers(le, p, xs[1..]);
      assert xs == [xs[0]] + xs[1..];
    }
  }

  lemma {:induction false} InsertOrdered(le: Order, p: Product, xs: seq<Product>)
    requires Total(le) && Transitive(le) && Ordered(le, xs)
    ensures Ordered(le, Insert(le, p, xs))
  {
    if xs != [] && !le(p, xs[0]) {
      InsertOrdered(le, p, xs[1..]);
      InsertMembers(le, p, xs[1..]);
      SameMembers(Insert(le, p, xs[1..]), xs[1..] + [p]);
      assert forall x | x in xs[1..] + [p] :: le(xs[0], x) by {
        forall x | x in xs[1..] + [p] ensures le(xs[0], x) {
          if x in xs[1..] {
            var k :| 0 <= k < |xs| - 1 && xs[1..][k] == x;
            assert le(xs[0], xs[k + 1]);
          }
        }
      }
      HeadFirst(le, xs[0], Insert(le, p, xs[1..]), xs[1..] + [p]);
    } else if xs != [] {
      assert forall x | x in xs :: le(p, x) by {
        forall x | x in xs ensures le(p, x) {
          var k :| 0 <= k < |xs| && xs[k] == x;
          assert le(p, xs[0]) && (k == 0 || le(xs[0], xs[k]));
        }
      }
      HeadFirst(le, p, xs, xs);
    }
  }

  /** A head that comes before every member of an ordered list can be put in front of it. */
  lemma HeadFirst(le: Order, h: Product, rest: seq<Product>, members: seq<Product>)
    requires Ordered(le, rest) && forall x :: x in rest <==> x in members
    requires forall x | x in members :: le(h, x)
    ensures Ordered(le, [h] + rest)
  {
    forall j | 0 <= j < |rest| ensures le(h, rest[j]) {
      assert rest[j] in members;
    }
  }

  /** Sorting yields the same products, in order. */
  lemma {:induction false} SortSorts(le: Order, xs: seq<Product>)
    ensures multiset(Sort(le, xs)) == multiset(xs)
    ensures Total(le) && Transitive(le) ==> Ordered(le, Sort(le, xs))
  {
    if xs != [] {
      SortSorts(le, xs[1..]);
      InsertMembers(le, xs[0], Sort(le, xs[1..]));
      if Total(le) && Transitive(le) {
        InsertOrdered(le, xs[0], Sort(le, xs[1..]));
      }
      assert xs == [xs[0]] + xs[1..];
    }
  }

  lemma SameMembers<T>(xs: seq<T>, ys: seq<T>)
    requires multiset(xs) == multiset(ys)
    ensures forall x :: x in xs <==> x in ys
  {
    forall x ensures x in xs <==> x in ys {
      assert x in multiset(xs) <==> x in multiset(ys);
    }
  }

  /** The candidates are the eligible products within the headroom, cheapest first, cut at the limit: whatever is
      left out comes no earlier than everything that is in, and is left out only because the list is full. */
  lemma CandidatesAreTheCheapest(cart: seq<Product>, products: seq<Product>, policy: Doc, m: GateMandate, today: int,
                                 spent: int, limit: nat, total: int, p: Product)
    requires Headroom(m, policy, total, today, spent) > 0
    ensures var cs := Candidates(cart, products, policy, m, today, spent, limit, total);
            var room := Headroom(m, policy, total, today, spent);
            && |cs| <= limit && Ordered(PriceThenId, cs)
            && (p in cs ==> p in products && Eligible(cart, policy, m, p) && p.price <= room)
            && (p in products && Eligible(cart, policy, m, p) && p.price <= room && p !in cs ==>
                  |cs| == limit && forall i | 0 <= i < |cs| :: PriceThenId(cs[i], p))
  {
    var room := Headroom(m, policy, total, today, spent);
    var pool := Filtered(cart, products, policy, m, room);
    var sorted := Sort(PriceThenId, pool);
    PriceThenIdOrders();
    SortSorts(PriceThenId, pool);
    SameMembers(sorted, pool);
    assert p in sorted <==> p in pool;
    if p in pool && p !in Take(sorted, limit) {
      var k :| 0 <= k < |sorted| && sorted[k] == p;
      assert k >= limit;
    }
  }

  // ---- pickers -----------------------------------------------------------------------------------

  datatype Offer = Offer(id: string, title: string, price: int)

  function OfferOf(p: Product): Offer { Offer(p.id, p.title, p.price) }

  function OffersOf(ps: seq<Product>): (os: seq<Offer>)
    ensures |os| == |ps| && forall i | 0 <= i < |ps| :: os[i] == OfferOf(ps[i])
  {
    if ps == [] then [] else OffersOf(ps[..|ps| - 1]) + [OfferOf(ps[|ps| - 1])]
  }

  function CartTags(cart: seq<Product>): set<string> {
    set i, j | 0 <= i < |cart| && 0 <= j < |cart[i].tags| :: cart[i].tags[j]
  }

  /** The deterministic picker: the best two matches. */
  method FakePick(cart: seq<Product>, candidates: seq<Product>) returns (offers: seq<Offer>)
    ensures offers == if cart == [] then [] else OffersOf(Take(Sort(BestMatch(CartTags(cart)), candidates), MAX_OFFERS))
  {
    if cart == [] || candidates == [] {
      return [];
    }
    var best := Take(Sort(BestMatch(CartTags(cart)), candidates), MAX_OFFERS);
    offers := [];
    for i := 0 to |best|
      invariant offers == OffersOf(best[..i])
    {
      assert best[..i + 1][..i] == best[..i];
      offers := offers + [OfferOf(best[i])];
    }
    assert best[..|best|] == best;
  }

  /** One entry of a model's reply: anything, or an object with an id. */
  datatype Suggestion = NotAnObject | Suggests(id: Option<string>)

  /** The candidate an id stands for; a later one replaces an earlier one. */
  function ById(candidates: seq<Product>, id: string): (p: Option<Product>)
    ensures p.Some? ==> p.value in candidates && p.value.id == id
    ensures p.None? <==> !InCart(candidates, id)
  {
    if candidates == [] then None
    else
      var n := |candidates| - 1;
      if candidates[n].id == id then Some(candidates[n])
      else
        assert forall i | 0 <= i < |candidates| && candidates[i].id == id :: i < n && candidates[..n][i] == candidates[i];
        ById(candidates[..n], id)
  }

  function Chosen(candidates: seq<Product>, s: Suggestion): Option<Product> {
    if s.Suggests? && s.id.Some? then ById(candidates, s.id.value) else None
  }

  /** Every candidate the reply names, in the order of first mention. */
  function Mentioned(candidates: seq<Product>, reply: seq<Suggestion>): (ps: seq<Product>)
    ensures forall i | 0 <= i < |ps| :: ps[i] in candidates
    ensures forall i, j | 0 <= i < j < |ps| :: ps[i].id != ps[j].id
  {
    if reply == [] then []
    else
      var front := Mentioned(candidates, reply[..|reply| - 1]);
      var p := Chosen(candidates, reply[|reply| - 1]);
      if p.None? || InCart(front, p.value.id) then front else front + [p.value]
  }

  lemma {:induction false} MentionedGrows(candidates: seq<Product>, reply: seq<Suggestion>, i: nat)
    requires i <= |reply|
    ensures Mentioned(candidates, reply[..i]) <= Mentioned(candidates, reply)
    decreases |reply| - i
  {
    if i == |reply| {
      assert reply[..i] == reply;
    } else {
      assert reply[..i + 1][..i] == reply[..i];
      MentionedGrows(candidates, reply, i + 1);
    }
  }

  /** The model's reply, whatever it is, yields the first two distinct candidates it names. No reply is no offer. */
  method LLMPick(cart: seq<Product>, candidates: seq<Product>, reply: Option<seq<Suggestion>>) returns (offers: seq<Offer>)
    ensures offers == if cart == [] || reply.None? then []
                      else OffersOf(Take(Mentioned(candidates, reply.value), MAX_OFFERS))
  {
    if cart == [] || candidates == [] {
      if reply.Some? {
        NothingToMention(reply.value);
      }
      return [];
    }
    if reply.None? {
      return [];
    }
    var raw := reply.value;
    offers := [];
    ghost var chosen: seq<Product> := [];
    for i := 0 to |raw|
      invariant chosen == Mentioned(candidates, raw[..i]) && |chosen| < MAX_OFFERS
      invariant offers == OffersOf(chosen)
    {
      assert raw[..i + 1][..i] == raw[..i];
      var p := Chosen(candidates, raw[i]);
      if p.None? {
        continue;
      }
      var again := OfferedAlready(offers, p.value.id, chosen);
      if again {
        continue;
      }
      offers := offers + [OfferOf(p.value)];
      assert (chosen + [p.value])[..|chosen|] == chosen;
      chosen := chosen + [p.value];
      if |offers| == MAX_OFFERS {
        MentionedGrows(candidates, raw, i + 1);
        assert Take(Mentioned(candidates, raw), MAX_OFFERS) == chosen;
        return;
      }
    }
    assert raw[..|raw|] == raw;
  }

  method OfferedAlready(offers: seq<Offer>, id: string, ghost chosen: seq<Product>) returns (again: bool)
    requires offers == OffersOf(chosen)
    ensures again == InCart(chosen, id)
  {
    for i := 0 to |offers|
      invariant forall j | 0 <= j < i :: chosen[j].id != id
    {
      if offers[i].id == id {
        assert chosen[i].id == id;
        return true;
      }
    }
    return false;
  }

  lemma {:induction false} NothingToMention(reply: seq<Suggestion>)
    ensures Mentioned([], reply) == []
  {
    if reply != [] {
      NothingToMention(reply[..|reply| - 1]);
    }
  }
}
