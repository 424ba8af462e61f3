/**
 * The gate in the merchant's own terms. A policy document says some terms; each of the fifteen rules is restated here
 * about the cart, the catalog, the buyer and those terms, with nothing of the gate's own reading of the document. The
 * decision is the first of these statements that fails.
 */
module PlainGate {
  import opened Basics
  import opened Policy
  import opened Gate
  import opened GateLaws

  // ---- what a policy document says ---------------------------------------------------------------

  datatype Terms = Terms(
    maxOrder: int, categories: seq<string>, blocked: seq<string>, maxQty: int, inStockOnly: bool, reviewAbove: int, refundDays: int)

  predicate Number(v: Option<Json>, n: int, default: int) { v == Some(JInt(n)) || (v == None && n == default) }

  predicate Flag(v: Option<Json>, b: bool, default: bool) { v == Some(JBool(b)) || (v == None && b == default) }

  predicate Names(v: Option<Json>, names: seq<string>) {
    match v
    case None => names == []
    case Some(JList(xs)) => |xs| == |names| && forall i | 0 <= i < |xs| :: xs[i] == JStr(names[i])
    case _ => false
  }

  /** The document, key by key, with the default of every key that may be missing. */
  predicate Says(p: Doc, t: Terms) {
    && p.maxOrder == Some(JInt(t.maxOrder))
    && Names(p.allowedCategories, t.categories)
    && Names(p.blockedSkus, t.blocked)
    && Number(p.maxQtyPerLine, t.maxQty, 20)
    && Flag(p.inStockOnly, t.inStockOnly, true)
    && Number(p.reviewAbove, t.reviewAbove, 0)
    && Number(p.refundWindow, t.refundDays, 30)
  }

  /** Every policy that can be stored says some terms. */
  lemma StoredPolicySays(p: Doc) returns (t: Terms)
    requires ValidPolicy(p)
    ensures Says(p, t)
    ensures t.maxOrder >= 0 && t.maxQty >= 1 && t.reviewAbove >= 0 && t.refundDays >= 0
  {
    t := Terms(p.maxOrder.value.n, Unquote(p.allowedCategories.value.xs), Unquote(p.blockedSkus.value.xs),
               p.maxQtyPerLine.value.n, p.inStockOnly.value.b, p.reviewAbove.value.n, p.refundWindow.value.n);
  }

  // ---- carts -------------------------------------------------------------------------------------

  predicate Plain(it: Item) {
    it.Item? && it.id.IdStr? && it.id.s != "" && it.qty.QtyInt? && it.qty.n >= 1
  }

  /** One to twenty lines, each with a name and a count, no name twice. */
  predicate Formed(items: Items) {
    && items.ItemList? && 1 <= |items.xs| <= 20
    && (forall i | 0 <= i < |items.xs| :: Plain(items.xs[i]))
    && forall i, j | 0 <= i < j < |items.xs| :: items.xs[i].id != items.xs[j].id
  }

  /** The catalog entry of a line. */
  function Entry(cat: Catalog, it: Item): Option<Snap> {
    if it.Item? && it.id.IdStr? && it.id.s in cat then Some(cat[it.id.s]) else None
  }

  function Units(it: Item): int { if it.Item? && it.qty.QtyInt? then it.qty.n else 0 }

  function Cost(cat: Catalog, xs: seq<Item>): int {
    if xs == [] then 0
    else
      var last := xs[|xs| - 1];
      Cost(cat, xs[..|xs| - 1]) + (if Entry(cat, last).Some? then Entry(cat, last).value.price else 0) * Units(last)
  }

  predicate Known(cat: Catalog, xs: seq<Item>) { forall i | 0 <= i < |xs| :: Entry(cat, xs[i]).Some? }

  predicate InStock(cat: Catalog, xs: seq<Item>) {
    forall i | 0 <= i < |xs| :: Entry(cat, xs[i]).Some? ==> Entry(cat, xs[i]).value.inStock
  }

  predicate NoneOf(blocked: seq<string>, xs: seq<Item>) {
    forall i | 0 <= i < |xs| :: xs[i].Item? && xs[i].id.IdStr? ==> xs[i].id.s !in blocked
  }

  predicate AllIn(categories: seq<string>, cat: Catalog, xs: seq<Item>) {
    forall i | 0 <= i < |xs| :: Entry(cat, xs[i]).Some? ==>
      Entry(cat, xs[i]).value.category.Some? && Entry(cat, xs[i]).value.category.value in categories
  }

  predicate AtMost(limit: int, xs: seq<Item>) { forall i | 0 <= i < |xs| :: Units(xs[i]) <= limit }

  /** Each line is the requested item at the catalog's price. */
  predicate Quoted(cat: Catalog, xs: seq<Item>, lines: seq<Line>) {
    && |lines| == |xs|
    && forall i | 0 <= i < |xs| ::
         && xs[i] == Item(IdStr(lines[i].id), QtyInt(lines[i].quantity)) && Entry(cat, xs[i]).Some?
         && lines[i].unitPrice == Entry(cat, xs[i]).value.price && lines[i].lineTotal == lines[i].unitPrice * lines[i].quantity
         && lines[i].title == Entry(cat, xs[i]).value.title && lines[i].category == Entry(cat, xs[i]).value.category
  }

  /** What a decision shows of a cart: all of it, priced, or nothing. */
  predicate Shows(cat: Catalog, items: Items, lines: seq<Line>, total: int) {
    || (lines == [] && total == 0)
    || (items.ItemList? && Quoted(cat, items.xs, lines) && total == Cost(cat, items.xs))
  }

  /** The state a session must be in for each kind of run. */
  predicate InState(mode: Mode, status: Option<Status>) {
    || (mode == Preview && status in {None, Some(NotReady), Some(Ready), Some(RequiresReview)})
    || (mode == Authoritative && status == Some(Ready))
    || (mode == Retry && status == Some(Pending))
  }

  // ---- the rules ---------------------------------------------------------------------------------

  predicate CurrentMandate(m: GateMandate, now: int) {
    m.standing == Active && m.startsAt <= now < m.expiresAt && m.currency == "INR"
  }

  function ItemsOf(items: Items): seq<Item> { if items.ItemList? then items.xs else [] }

  /** Rule k, in words. */
  predicate Meets(gi: GateInput, t: Terms, k: nat) {
    var xs, m, cost := ItemsOf(gi.items), gi.mandate, Cost(gi.catalog, ItemsOf(gi.items));
    if k == 0 then Formed(gi.items)
    else if k == 1 then gi.agent.Some? && gi.agent.value.standing == Active
    else if k == 2 then m.Some? && CurrentMandate(m.value, gi.now)
    else if k == 3 then Known(gi.catalog, xs)
    else if k == 4 then t.inStockOnly ==> InStock(gi.catalog, xs)
    else if k == 5 then NoneOf(t.blocked, xs)
    else if k == 6 then AllIn(t.categories, gi.catalog, xs)
    else if k == 7 then AtMost(t.maxQty, xs)
    else if k == 8 then cost <= t.maxOrder
    else if k == 9 then m.Some? && m.value.categories != [] ==> AllIn(m.value.categories, gi.catalog, xs)
    else if k == 10 then m.Some? ==> cost <= m.value.perTxnCap
    else if k == 11 then m.Some? ==> gi.spentToday + cost <= m.value.dailyCap
    else if k == 12 then m.Some? ==> gi.spentTotal + cost <= m.value.totalCap
    else if k == 13 then InState(gi.mode, gi.status)
    else t.reviewAbove > 0 && cost > t.reviewAbove ==> gi.approved
  }

  predicate MeetsAll(gi: GateInput, t: Terms, n: nat) { forall k | 0 <= k < n :: Meets(gi, t, k) }

  // ---- each rule is its statement ----------------------------------------------------------------

  lemma {:induction false} CostIsSum(cat: Catalog, xs: seq<Item>)
    requires forall i | 0 <= i < |xs| :: Priceable(cat, xs[i])
    ensures Cost(cat, xs) == SumValue(cat, xs)
  {
    if xs != [] {
      CostIsSum(cat, xs[..|xs| - 1]);
    }
  }

  lemma BuyerRules(gi: GateInput, t: Terms, k: nat)
    requires k < 3
    ensures Passes(gi, k) <==> Meets(gi, t, k)
  {
    if k == 0 {
      WellFormedMeans(gi);
      if gi.items.ItemList? {
        assert forall i | 0 <= i < |gi.items.xs| :: PlainItem(gi.items.xs[i]) <==> Plain(gi.items.xs[i]);
      }
    }
  }

  lemma KnownRule(gi: GateInput, t: Terms)
    requires Passes(gi, 0) && PricesNonNegative(gi.catalog)
    ensures Passes(gi, 3) <==> Meets(gi, t, 3)
  {
    WellFormedMeans(gi);
    KnownMeans(gi);
    assert forall i | 0 <= i < |gi.items.xs| :: PlainItem(gi.items.xs[i]);
  }

  /** Past rule 3 the priced lines are the requested items, one for one. */
  lemma CartIsQuoted(gi: GateInput)
    requires Passes(gi, 0) && Passes(gi, 3)
    ensures gi.items.ItemList? && Quoted(gi.catalog, gi.items.xs, CartLines(gi))
    ensures CartTotal(gi) == Cost(gi.catalog, gi.items.xs)
  {
    WellFormedMeans(gi);
    KnownMeans(gi);
    CostIsSum(gi.catalog, gi.items.xs);
  }

  lemma ContainsNames(v: Option<Json>, names: seq<string>, s: string)
    requires Names(v, names)
    ensures Contains(Get(v, JList([])), s) <==> s in names
  {
    if s in names {
      var i :| 0 <= i < |names| && names[i] == s;
      assert v.value.xs[i] == JStr(s);
    }
  }

  /** Rules 4 to 7 and 9, on one item. */
  predicate MeetsOn(gi: GateInput, t: Terms, r: nat, it: Item) {
    var e := Entry(gi.catalog, it);
    e.Some? ==>
      if r == 4 then e.value.inStock
      else if r == 5 then it.id.s !in t.blocked
      else if r == 6 then e.value.category.Some? && e.value.category.value in t.categories
      else if r == 7 then Units(it) <= t.maxQty
      else gi.mandate.Some? ==> e.value.category.Some? && e.value.category.value in gi.mandate.value.categories
  }

  lemma LineRule(gi: GateInput, t: Terms, r: nat, it: Item)
    requires Says(gi.policy, t) && r in {4, 5, 6, 7, 9} && Priceable(gi.catalog, it)
    ensures LineFault(gi, r, LineOf(gi.catalog, it)).None? <==> MeetsOn(gi, t, r, it)
  {
    var l := LineOf(gi.catalog, it);
    ContainsNames(gi.policy.blockedSkus, t.blocked, l.id);
    if l.category.Some? {
      ContainsNames(gi.policy.allowedCategories, t.categories, l.category.value);
    }
  }

  lemma CleanMeans(gi: GateInput, t: Terms, r: nat)
    requires Says(gi.policy, t) && r in {4, 5, 6, 7, 9} && Passes(gi, 0) && Passes(gi, 3)
    ensures gi.items.ItemList? && forall i | 0 <= i < |gi.items.xs| :: Entry(gi.catalog, gi.items.xs[i]).Some?
    ensures CleanLines(gi, r) <==> forall i | 0 <= i < |gi.items.xs| :: MeetsOn(gi, t, r, gi.items.xs[i])
  {
    WellFormedMeans(gi);
    KnownMeans(gi);
    var xs := gi.items.xs;
    forall i | 0 <= i < |xs| ensures LineFault(gi, r, CartLines(gi)[i]).None? <==> MeetsOn(gi, t, r, xs[i]) {
      LineRule(gi, t, r, xs[i]);
    }
    if forall i | 0 <= i < |xs| :: MeetsOn(gi, t, r, xs[i]) {
      assert CleanLines(gi, r);
    }
  }

  lemma ListsReadable(gi: GateInput, t: Terms)
    requires Says(gi.policy, t)
    ensures !SetRaises(Get(gi.policy.blockedSkus, JList([]))) && !ListRaises(Get(gi.policy.allowedCategories, JList([])))
    ensures StockRequired(gi.policy) == t.inStockOnly
  {
  }

  lemma MeetsIsEach(gi: GateInput, t: Terms, r: nat)
    requires r in {4, 5, 6, 7, 9} && gi.items.ItemList? && gi.mandate.Some?
    requires forall i | 0 <= i < |gi.items.xs| :: Entry(gi.catalog, gi.items.xs[i]).Some?
    ensures Meets(gi, t, r) <==> (
              || (r == 4 && !t.inStockOnly) || (r == 9 && gi.mandate.value.categories == [])
              || forall i | 0 <= i < |gi.items.xs| :: MeetsOn(gi, t, r, gi.items.xs[i]))
  {
  }

  lemma PassesIsClean(gi: GateInput, t: Terms, r: nat)
    requires Says(gi.policy, t) && r in {4, 5, 6, 7, 9} && gi.mandate.Some?
    ensures Passes(gi, r) <==>
              (r == 4 && !t.inStockOnly) || (r == 9 && gi.mandate.value.categories == []) || CleanLines(gi, r)
  {
    ListsReadable(gi, t);
    LinePasses(gi);
  }

  lemma CartRule(gi: GateInput, t: Terms, r: nat)
    requires Says(gi.policy, t) && r in {4, 5, 6, 7, 9} && Passes(gi, 0) && Passes(gi, 3) && gi.mandate.Some?
    ensures Passes(gi, r) <==> Meets(gi, t, r)
  {
    CleanMeans(gi, t, r);
    PassesIsClean(gi, t, r);
    MeetsIsEach(gi, t, r);
  }

  lemma TotalRule(gi: GateInput, t: Terms, r: nat)
    requires Says(gi.policy, t) && r in {8, 10, 11, 12, 13, 14} && Passes(gi, 0) && Passes(gi, 3) && gi.mandate.Some?
    ensures Passes(gi, r) <==> Meets(gi, t, r)
  {
    CartIsQuoted(gi);
    PricedRule(gi, t, r);
  }

  lemma PricedRule(gi: GateInput, t: Terms, r: nat)
    requires Says(gi.policy, t) && r in {8, 10, 11, 12, 13, 14} && gi.mandate.Some? && gi.items.ItemList?
    requires CartTotal(gi) == Cost(gi.catalog, gi.items.xs)
    ensures Passes(gi, r) <==> Meets(gi, t, r)
  {
    if r == 13 {
      StateRule(gi);
    } else if r == 14 {
      ThresholdSays(gi.policy, t);
      assert RuleOutcome(gi, 14) == G14(gi);
    } else if r == 8 {
      assert RuleOutcome(gi, 8) == G08(gi);
    }
  }

  lemma StateRule(gi: GateInput)
    ensures Passes(gi, 13) <==> InState(gi.mode, gi.status)
  {
    assert RuleOutcome(gi, 13) == G13(gi);
    assert ExpectedStatus(gi.mode, gi.status) <==> InState(gi.mode, gi.status);
  }

  lemma ThresholdSays(p: Doc, t: Terms)
    requires Says(p, t)
    ensures Threshold(p) == if t.reviewAbove > 0 then Some(t.reviewAbove) else None
  {
  }

  lemma RuleMeans(gi: GateInput, t: Terms, k: nat)
    requires Says(gi.policy, t) && PricesNonNegative(gi.catalog) && k < 15 && PassedUpTo(gi, k)
    ensures Passes(gi, k) <==> Meets(gi, t, k)
  {
    if k < 3 {
      BuyerRules(gi, t, k);
    } else {
      assert Passes(gi, 0) && Passes(gi, 2);
      if k == 3 {
        KnownRule(gi, t);
      } else {
        assert Passes(gi, 3);
        if k in {4, 5, 6, 7, 9} { CartRule(gi, t, k); } else { TotalRule(gi, t, k); }
      }
    }
  }

  // ---- the decision ------------------------------------------------------------------------------

  lemma {:induction false} PrefixMeans(gi: GateInput, t: Terms, n: nat)
    requires Says(gi.policy, t) && PricesNonNegative(gi.catalog) && n <= 15
    ensures PassedUpTo(gi, n) <==> MeetsAll(gi, t, n)
  {
    if n > 0 {
      PrefixMeans(gi, t, n - 1);
      if PassedUpTo(gi, n - 1) {
        RuleMeans(gi, t, n - 1);
      }
    }
  }

  lemma NeverRaises(gi: GateInput, t: Terms, k: nat)
    requires Says(gi.policy, t) && PricesNonNegative(gi.catalog) && k < 15
    ensures !RuleOutcome(gi, k).Raise?
  {
    if k == 3 && gi.items.ItemList? {
      PriceScanNeverRaises(gi.catalog, gi.items.xs, 0);
    } else if k in {4, 5, 6, 7, 9} {
      ScanNeverRaises(gi, k, CartLines(gi), 0);
    }
  }

  /** The decision in plain terms: ALLOW if every rule is met; otherwise rule k, the first that is not, decides, which
      is REVIEW for the last and DENY for the others. From the pricing rule on, the lines are the requested items at the
      catalog's prices and the total is their cost. */
  lemma PlainDecision(gi: GateInput, t: Terms, k: nat)
    requires Says(gi.policy, t) && PricesNonNegative(gi.catalog)
    requires k <= 15 && MeetsAll(gi, t, k) && (k < 15 ==> !Meets(gi, t, k))
    ensures var d := Decide(gi);
            && d.verdict == (if k == 15 then ALLOW else if k == 14 then REVIEW else DENY)
            && d.rule == (if k == 15 then Allowed else G(k))
            && (k <= 3 ==> d.lines == [] && d.total == 0)
            && (k > 3 ==> gi.items.ItemList? && Quoted(gi.catalog, gi.items.xs, d.lines) && d.total == Cost(gi.catalog, gi.items.xs))
  {
    PrefixMeans(gi, t, k);
    if k < 15 {
      RuleMeans(gi, t, k);
      NeverRaises(gi, t, k);
    }
    DecidedAt(gi, 0, k);
    if k > 3 {
      assert Passes(gi, 0) && Passes(gi, 3);
      CartIsQuoted(gi);
    }
    Concluded(gi, k);
  }

  lemma Concluded(gi: GateInput, k: nat)
    requires k <= 15 && (k < 15 ==> RuleOutcome(gi, k).Fail?)
    ensures var d := Conclude(gi, k);
            && d.verdict == (if k == 15 then ALLOW else if k == 14 then REVIEW else DENY)
            && d.rule == (if k == 15 then Allowed else G(k))
            && d.lines == (if k <= 3 then [] else CartLines(gi)) && d.total == (if k <= 3 then 0 else CartTotal(gi))
  {
  }

  /** Some k always is the one. */
  lemma {:induction false} FirstUnmet(gi: GateInput, t: Terms, n: nat) returns (k: nat)
    requires n <= 15
    ensures k <= n && MeetsAll(gi, t, k) && (k < n ==> !Meets(gi, t, k))
  {
    if n == 0 {
      k := 0;
    } else {
      k := FirstUnmet(gi, t, n - 1);
      if k == n - 1 && Meets(gi, t, k) {
        k := n;
      }
    }
  }

  /** ALLOW exactly if all fifteen hold, REVIEW exactly if all but the last hold and the last does not. */
  lemma PlainVerdict(gi: GateInput, t: Terms)
    requires Says(gi.policy, t) && PricesNonNegative(gi.catalog)
    ensures Decide(gi).verdict == ALLOW <==> MeetsAll(gi, t, 15)
    ensures Decide(gi).verdict == REVIEW <==> MeetsAll(gi, t, 14) && !Meets(gi, t, 14)
    ensures Decide(gi).verdict != DENY ==>
              && gi.items.ItemList? && Quoted(gi.catalog, gi.items.xs, Decide(gi).lines)
              && Decide(gi).total == Cost(gi.catalog, gi.items.xs)
    ensures Shows(gi.catalog, gi.items, Decide(gi).lines, Decide(gi).total)
  {
    var k := FirstUnmet(gi, t, 15);
    PlainDecision(gi, t, k);
    if k < 14 {
      assert !Meets(gi, t, k);
    }
  }

  /** Stock: required by default. Where it is required no sold-out product is ever allowed, and where it is not the gate
      never asks. */
  lemma StockAsThePolicySays(gi: GateInput, t: Terms, id: string)
    requires Says(gi.policy, t) && PricesNonNegative(gi.catalog)
    ensures gi.policy.inStockOnly in {None, Some(JBool(true))} && Decide(gi).verdict != DENY && Mentions(gi.items, id) ==>
              id in gi.catalog && gi.catalog[id].inStock
    ensures gi.policy.inStockOnly == Some(JBool(false)) ==> Decide(gi).rule != G(4)
  {
    var k := FirstUnmet(gi, t, 15);
    PlainDecision(gi, t, k);
    if k >= 14 && Mentions(gi.items, id) {
      assert Meets(gi, t, 3) && Meets(gi, t, 4);
      var i :| 0 <= i < |gi.items.xs| && HasId(gi.items.xs[i], id);
      assert Entry(gi.catalog, gi.items.xs[i]).Some?;
    }
  }

  /** Two catalogs that differ in nothing but what is in stock. */
  predicate SameButStock(a: Catalog, b: Catalog) {
    a.Keys == b.Keys && forall id | id in a :: b[id] == a[id].(inStock := b[id].inStock)
  }

  lemma {:induction false} CostIgnoresStock(a: Catalog, b: Catalog, xs: seq<Item>)
    requires SameButStock(a, b)
    ensures Cost(a, xs) == Cost(b, xs)
  {
    if xs != [] {
      CostIgnoresStock(a, b, xs[..|xs| - 1]);
    }
  }

  lemma RuleIgnoresStock(gi: GateInput, t: Terms, cat: Catalog, k: nat)
    requires SameButStock(gi.catalog, cat) && (k == 4 ==> !t.inStockOnly)
    ensures Meets(gi.(catalog := cat), t, k) <==> Meets(gi, t, k)
  {
    CostIgnoresStock(gi.catalog, cat, ItemsOf(gi.items));
    var xs := ItemsOf(gi.items);
    forall i | 0 <= i < |xs|
      ensures Entry(cat, xs[i]).Some? <==> Entry(gi.catalog, xs[i]).Some?
      ensures Entry(cat, xs[i]).Some? ==> Entry(cat, xs[i]).value.category == Entry(gi.catalog, xs[i]).value.category
    {
    }
  }

  /** Where the policy does not ask for stock, the decision does not depend on what is in stock. */
  lemma StockDoesNotMatter(gi: GateInput, t: Terms, cat: Catalog)
    requires Says(gi.policy, t) && PricesNonNegative(gi.catalog) && SameButStock(gi.catalog, cat)
    requires gi.policy.inStockOnly == Some(JBool(false))
    ensures var d, d' := Decide(gi), Decide(gi.(catalog := cat));
            d'.verdict == d.verdict && d'.rule == d.rule && d'.total == d.total
  {
    var k := FirstUnmet(gi, t, 15);
    PlainDecision(gi, t, k);
    forall j: nat | j < 15 ensures Meets(gi.(catalog := cat), t, j) <==> Meets(gi, t, j) {
      RuleIgnoresStock(gi, t, cat, j);
    }
    CostIgnoresStock(gi.catalog, cat, ItemsOf(gi.items));
    PlainDecision(gi.(catalog := cat), t, k);
  }
}
