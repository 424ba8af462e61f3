/** What an evaluation of the gate means: laws about `Decide`, independent of how it runs. */
module GateLaws {
  import opened Basics
  import opened Policy
  import opened Gate

  // ---- the shape of a decision -------------------------------------------------------------------

  /** Checks 0..n-1 are rules 0..n-1 in order, all but the last passed, and the last says how rule n-1 went. */
  predicate RecordsRules(gi: GateInput, checks: seq<Check>) {
    var n := |checks|;
    && 1 <= n <= RULES
    && (forall j | 0 <= j < n - 1 :: Passes(gi, j) && checks[j] == Check(G(j), true, RuleOutcome(gi, j).detail))
    && var o := RuleOutcome(gi, n - 1);
       checks[n - 1] == Check(if o.Raise? then Guard else G(n - 1), o.Pass?, DetailOf(o))
  }

  /** The least rule in order that does not pass decides; the recorded checks are exactly the rules up to it. */
  lemma LeastFailingRule(gi: GateInput)
    ensures var d := Decide(gi); var n := |d.checks|;
            && RecordsRules(gi, d.checks)
            && (d.verdict == ALLOW <==> n == RULES && Passes(gi, n - 1))
            && (d.verdict == REVIEW <==> n == RULES && RuleOutcome(gi, 14).Fail?)
            && (d.verdict != ALLOW ==> !Passes(gi, n - 1))
            && (d.verdict != ALLOW ==> d.rule == d.checks[n - 1].rule && d.reason == d.checks[n - 1].detail)
  {
    var k := FirstStop(gi, 0);
    if k == RULES {
      AllPassShape(gi);
    } else {
      var o := RuleOutcome(gi, k);
      var checks := PassChecks(gi, k);
      assert Decide(gi) == Stop(k, o, checks, CartLines(gi), CartTotal(gi));
      assert Decide(gi).checks == checks + [Check(if o.Raise? then Guard else G(k), false, DetailOf(o))];
      StoppedShape(gi, k, Decide(gi).checks);
    }
  }

  lemma AllPassShape(gi: GateInput)
    requires PassedUpTo(gi, RULES)
    ensures RecordsRules(gi, PassChecks(gi, RULES))
  {
    assert Passes(gi, 14);
  }

  lemma StoppedShape(gi: GateInput, k: nat, checks: seq<Check>)
    requires k < RULES && PassedUpTo(gi, k) && !Passes(gi, k)
    requires var o := RuleOutcome(gi, k);
             checks == PassChecks(gi, k) + [Check(if o.Raise? then Guard else G(k), false, DetailOf(o))]
    ensures RecordsRules(gi, checks) && |checks| == k + 1
  {
    forall j | 0 <= j < k ensures Passes(gi, j) && checks[j] == Check(G(j), true, RuleOutcome(gi, j).detail) {
      assert checks[j] == PassChecks(gi, k)[j];
    }
  }

  lemma StopNeverAllows(k: nat, o: Outcome, checks: seq<Check>, lines: seq<Line>, total: int)
    ensures Stop(k, o, checks, lines, total).verdict != ALLOW
  {
  }

  lemma AllowIffAllPass(gi: GateInput)
    ensures Decide(gi).verdict == ALLOW <==> PassedUpTo(gi, RULES)
    ensures Decide(gi).verdict == ALLOW ==> Decide(gi).total == CartTotal(gi) && Decide(gi).lines == CartLines(gi)
  {
    var k := FirstStop(gi, 0);
    if k < RULES {
      assert !Passes(gi, k);
      StopNeverAllows(k, RuleOutcome(gi, k), PassChecks(gi, k), CartLines(gi), CartTotal(gi));
    }
  }

  /** The mode and the session status are read by G13 alone. */
  lemma ModeOnlyMattersToG13(gi: GateInput, mode: Mode, status: Option<Status>, r: nat)
    requires r < RULES && r != 13
    ensures RuleOutcome(gi.(mode := mode, status := status), r) == RuleOutcome(gi, r)
  {
    var gj := gi.(mode := mode, status := status);
    assert CartLines(gj) == CartLines(gi);
    if r in {4, 5, 6, 7, 9} {
      ScanFrame(gi, gj, r, CartLines(gi), 0);
    }
  }

  lemma {:induction false} ScanFrame(gi: GateInput, gj: GateInput, r: nat, lines: seq<Line>, i: nat)
    requires i <= |lines|
    requires forall j | i <= j < |lines| :: LineFault(gi, r, lines[j]) == LineFault(gj, r, lines[j])
    ensures Scan(gi, r, lines, i) == Scan(gj, r, lines, i)
    decreases |lines| - i
  {
    if i < |lines| {
      ScanFrame(gi, gj, r, lines, i + 1);
    }
  }

  /** Judged in the right state for its mode, a cart is judged the same in every mode. */
  lemma ModesAgree(gi: GateInput, mode: Mode, status: Option<Status>)
    requires ExpectedStatus(gi.mode, gi.status) && ExpectedStatus(mode, status)
    ensures Decide(gi.(mode := mode, status := status)).verdict == Decide(gi).verdict
    ensures Decide(gi.(mode := mode, status := status)).rule == Decide(gi).rule
    ensures Decide(gi.(mode := mode, status := status)).total == Decide(gi).total
    ensures Decide(gi.(mode := mode, status := status)).lines == Decide(gi).lines
  {
    var gj := gi.(mode := mode, status := status);
    forall r: nat | r < RULES && r != 13 ensures RuleOutcome(gj, r) == RuleOutcome(gi, r) {
      ModeOnlyMattersToG13(gi, mode, status, r);
    }
    assert Passes(gi, 13) && Passes(gj, 13);
    var k := FirstStop(gi, 0);
    forall j | 0 <= j < k ensures Passes(gj, j) {
      assert Passes(gi, j);
      if j != 13 {
        assert RuleOutcome(gj, j) == RuleOutcome(gi, j);
      }
    }
    if k < RULES {
      assert k != 13 && RuleOutcome(gj, k) == RuleOutcome(gi, k);
    }
    DecidedAt(gj, 0, k);
    SameStop(gi, gj, k);
  }

  lemma SameStop(gi: GateInput, gj: GateInput, k: nat)
    requires k <= RULES && CartLines(gj) == CartLines(gi)
    requires k < RULES ==> RuleOutcome(gj, k) == RuleOutcome(gi, k)
    ensures Conclude(gj, k).verdict == Conclude(gi, k).verdict && Conclude(gj, k).rule == Conclude(gi, k).rule
    ensures Conclude(gj, k).total == Conclude(gi, k).total && Conclude(gj, k).lines == Conclude(gi, k).lines
  {
  }

  // ---- the guard ---------------------------------------------------------------------------------

  predicate PricesNonNegative(cat: Catalog) { forall s | s in cat :: cat[s].price >= 0 }

  /** With a validated policy and a catalog of non-negative prices, no rule raises: G99 is never the answer. */
  lemma GuardUnreachable(gi: GateInput)
    requires ValidPolicy(gi.policy) && PricesNonNegative(gi.catalog)
    ensures Decide(gi).rule != Guard
    ensures forall r: nat | r < RULES :: !RuleOutcome(gi, r).Raise?
  {
    forall r: nat | r < RULES ensures !RuleOutcome(gi, r).Raise? {
      if r == 3 && gi.items.ItemList? {
        PriceScanNeverRaises(gi.catalog, gi.items.xs, 0);
      } else if r in {4, 5, 6, 7, 9} {
        ScanNeverRaises(gi, r, CartLines(gi), 0);
      }
    }
  }

  lemma {:induction false} PriceScanNeverRaises(cat: Catalog, xs: seq<Item>, i: nat)
    requires i <= |xs| && PricesNonNegative(cat)
    ensures PriceScan(cat, xs, i).Some? ==> PriceScan(cat, xs, i).value.Fail?
    decreases |xs| - i
  {
    if i < |xs| {
      PriceScanNeverRaises(cat, xs, i + 1);
    }
  }

  lemma {:induction false} ScanNeverRaises(gi: GateInput, r: nat, lines: seq<Line>, i: nat)
    requires i <= |lines| && (r == 6 ==> !JoinRaises(Get(gi.policy.allowedCategories, JList([]))))
    requires r == 7 ==> MaxQty(gi.policy).Some?
    ensures Scan(gi, r, lines, i).Some? ==> Scan(gi, r, lines, i).value.Fail?
    decreases |lines| - i
  {
    if i < |lines| {
      ScanNeverRaises(gi, r, lines, i + 1);
    }
  }

  /** A policy document without an order maximum, or with one that is not a number, can never lead to ALLOW. */
  lemma NoMaximumNoSale(gi: GateInput)
    requires var v := Get(gi.policy.maxOrder, JNull); !v.JInt? && !v.JBool?
    ensures Decide(gi).verdict == DENY
    ensures PassedUpTo(gi, 8) ==> Decide(gi).rule == Guard
  {
    assert !Passes(gi, 8);
    if PassedUpTo(gi, 8) {
      DecidedAt(gi, 0, 8);
    }
  }

  // ---- what ALLOW amounts to ---------------------------------------------------------------------

  predicate DistinctIds(xs: seq<Item>) {
    forall i, j | 0 <= i < j < |xs| && xs[i].Item? && xs[j].Item? :: xs[i].id != xs[j].id
  }

  /** One cart line is acceptable on its own. */
  predicate ItemOk(gi: GateInput, it: Item) {
    && Priceable(gi.catalog, it) && it.id.s != "" && it.qty.n >= 1
    && gi.catalog[it.id.s].price >= 0
    && (StockRequired(gi.policy) ==> gi.catalog[it.id.s].inStock)
    && !Contains(Get(gi.policy.blockedSkus, JList([])), it.id.s)
    && CategoryOk(gi, gi.catalog[it.id.s].category)
    && MaxQty(gi.policy).Some? && it.qty.n <= MaxQty(gi.policy).value
  }

  predicate CategoryOk(gi: GateInput, category: Option<string>) {
    && category.Some?
    && Contains(Get(gi.policy.allowedCategories, JList([])), category.value)
    && (gi.mandate.Some? && gi.mandate.value.categories != [] ==> category.value in gi.mandate.value.categories)
  }

  predicate BuyerOk(gi: GateInput) {
    && gi.agent.Some? && gi.agent.value.standing == Active
    && gi.mandate.Some? && gi.mandate.value.standing == Active
    && gi.mandate.value.startsAt <= gi.now < gi.mandate.value.expiresAt
    && gi.mandate.value.currency == INR
  }

  predicate PolicyReadable(p: Doc) {
    && !SetRaises(Get(p.blockedSkus, JList([])))
    && !ListRaises(Get(p.allowedCategories, JList([])))
    && (Get(p.maxOrder, JNull).JInt? || Get(p.maxOrder, JNull).JBool?)
  }

  predicate TotalOk(gi: GateInput, total: int)
    requires gi.mandate.Some?
  {
    && (Get(gi.policy.maxOrder, JNull).JInt? ==> total <= Get(gi.policy.maxOrder, JNull).n)
    && total <= gi.mandate.value.perTxnCap
    && gi.spentToday + total <= gi.mandate.value.dailyCap
    && gi.spentTotal + total <= gi.mandate.value.totalCap
  }

  predicate ReviewOk(gi: GateInput, total: int) {
    Threshold(gi.policy).Some? && total > Threshold(gi.policy).value ==> gi.approved
  }

  /** Everything a reader needs to know about ALLOW, with no rule order in it. */
  predicate Acceptable(gi: GateInput) {
    && gi.items.ItemList? && 1 <= |gi.items.xs| <= MAX_LINES
    && DistinctIds(gi.items.xs)
    && (forall i | 0 <= i < |gi.items.xs| :: ItemOk(gi, gi.items.xs[i]))
    && BuyerOk(gi) && PolicyReadable(gi.policy)
    && TotalOk(gi, SumValue(gi.catalog, gi.items.xs))
    && ExpectedStatus(gi.mode, gi.status)
    && ReviewOk(gi, SumValue(gi.catalog, gi.items.xs))
  }

  function Value(cat: Catalog, it: Item): int {
    if Priceable(cat, it) then cat[it.id.s].price * it.qty.n else 0
  }

  function SumValue(cat: Catalog, xs: seq<Item>): int {
    if xs == [] then 0 else SumValue(cat, xs[..|xs| - 1]) + Value(cat, xs[|xs| - 1])
  }

  lemma {:induction false} TotalIsSum(cat: Catalog, xs: seq<Item>)
    requires forall i | 0 <= i < |xs| :: Priceable(cat, xs[i])
    ensures TotalOf(LinesOf(cat, xs)) == SumValue(cat, xs)
  {
    if xs != [] {
      var front := xs[..|xs| - 1];
      TotalIsSum(cat, front);
      assert LinesOf(cat, xs) == LinesOf(cat, front) + [LineOf(cat, xs[|xs| - 1])];
      assert LinesOf(cat, xs)[..|xs| - 1] == LinesOf(cat, front);
    }
  }

  /** G00 in declarative form. */
  lemma WellFormedMeans(gi: GateInput)
    ensures Passes(gi, 0) <==> (gi.items.ItemList? && 1 <= |gi.items.xs| <= MAX_LINES && DistinctIds(gi.items.xs)
                                && forall i | 0 <= i < |gi.items.xs| :: PlainItem(gi.items.xs[i]))
  {
    if gi.items.ItemList? {
      var xs := gi.items.xs;
      ShapeScanIff(xs, 0);
      if forall j | 0 <= j < |xs| :: ShapeFault(xs, j).None? {
        forall i, j | 0 <= i < j < |xs| && xs[i].Item? && xs[j].Item? ensures xs[i].id != xs[j].id {
          assert ShapeFault(xs, j).None? && !HasId(xs[i], xs[j].id.s);
        }
        forall i | 0 <= i < |xs| ensures PlainItem(xs[i]) {
          assert ShapeFault(xs, i).None?;
        }
      }
      if DistinctIds(xs) && forall i | 0 <= i < |xs| :: PlainItem(xs[i]) {
        forall j | 0 <= j < |xs| ensures ShapeFault(xs, j).None? {
          assert PlainItem(xs[j]);
          forall i | 0 <= i < j ensures !HasId(xs[i], xs[j].id.s) {
            assert PlainItem(xs[i]);
          }
        }
      }
    }
  }

  predicate PlainItem(it: Item) {
    it.Item? && it.id.IdStr? && it.id.s != "" && it.qty.QtyInt? && it.qty.n >= 1
  }

  lemma {:induction false} ShapeScanIff(xs: seq<Item>, i: nat)
    requires i <= |xs|
    ensures ShapeScan(xs, i).None? <==> forall j | i <= j < |xs| :: ShapeFault(xs, j).None?
    decreases |xs| - i
  {
    if i < |xs| {
      ShapeScanIff(xs, i + 1);
    }
  }

  lemma {:induction false} PriceScanIff(cat: Catalog, xs: seq<Item>, i: nat)
    requires i <= |xs|
    ensures PriceScan(cat, xs, i).None? <==> forall j | i <= j < |xs| :: PriceFault(cat, xs[j]).None?
    decreases |xs| - i
  {
    if i < |xs| {
      PriceScanIff(cat, xs, i + 1);
    }
  }

  /** G03 in declarative form, for a well-formed cart. */
  lemma KnownMeans(gi: GateInput)
    requires Passes(gi, 0)
    ensures Passes(gi, 3) <==>
            forall i | 0 <= i < |gi.items.xs| :: Priceable(gi.catalog, gi.items.xs[i]) && gi.catalog[gi.items.xs[i].id.s].price >= 0
    ensures Passes(gi, 3) ==> CartLines(gi) == LinesOf(gi.catalog, gi.items.xs) && CartTotal(gi) == SumValue(gi.catalog, gi.items.xs)
  {
    WellFormedMeans(gi);
    var xs := gi.items.xs;
    PriceScanIff(gi.catalog, xs, 0);
    if Passes(gi, 3) {
      PricedCart(gi);
      TotalIsSum(gi.catalog, xs);
    } else {
      var j :| 0 <= j < |xs| && PriceFault(gi.catalog, xs[j]).Some?;
      assert PlainItem(xs[j]);
    }
  }

  predicate LineRules(gi: GateInput, l: Line) {
    && (StockRequired(gi.policy) ==> StockFault(gi, l).None?)
    && BlockFault(gi, l).None? && CategoryFault(gi, l).None? && QuantityFault(gi, l).None?
    && (gi.mandate.Some? && gi.mandate.value.categories != [] ==> MandateFault(gi, l).None?)
  }

  lemma LineRulesMeanItemOk(gi: GateInput, it: Item)
    requires Priceable(gi.catalog, it) && PlainItem(it) && gi.catalog[it.id.s].price >= 0
    ensures LineRules(gi, LineOf(gi.catalog, it)) <==> ItemOk(gi, it)
  {
  }

  predicate CleanLines(gi: GateInput, r: nat) { forall i | 0 <= i < |CartLines(gi)| :: LineFault(gi, r, CartLines(gi)[i]).None? }

  lemma ScannedPasses(gi: GateInput, r: nat, ok: Detail)
    ensures Scanned(gi, r, ok).Pass? <==> CleanLines(gi, r)
  {
    ScanFindsAll(gi, r, CartLines(gi), 0);
  }

  /** The five line-by-line rules, each as a statement about all lines. */
  lemma LinePasses(gi: GateInput)
    ensures Passes(gi, 4) <==> (StockRequired(gi.policy) ==> CleanLines(gi, 4))
    ensures Passes(gi, 5) <==> !SetRaises(Get(gi.policy.blockedSkus, JList([]))) && CleanLines(gi, 5)
    ensures Passes(gi, 6) <==> !ListRaises(Get(gi.policy.allowedCategories, JList([]))) && CleanLines(gi, 6)
    ensures Passes(gi, 7) <==> CleanLines(gi, 7)
    ensures Passes(gi, 9) <==> (gi.mandate.Some? && gi.mandate.value.categories != [] ==> CleanLines(gi, 9))
  {
    ScannedPasses(gi, 4, AllInStock);
    ScannedPasses(gi, 5, NoneBlocked);
    ScannedPasses(gi, 6, CategoriesOk(Categories(CartLines(gi))));
    ScannedPasses(gi, 7, QuantitiesOk(if MaxQty(gi.policy).Some? then MaxQty(gi.policy).value else 0));
    if gi.mandate.Some? {
      ScannedPasses(gi, 9, MandateCategories(gi.mandate.value.categories));
    }
  }

  lemma LineRulesAreFaults(gi: GateInput, l: Line)
    ensures LineRules(gi, l) <==>
            (StockRequired(gi.policy) ==> LineFault(gi, 4, l).None?)
            && LineFault(gi, 5, l).None? && LineFault(gi, 6, l).None? && LineFault(gi, 7, l).None?
            && (gi.mandate.Some? && gi.mandate.value.categories != [] ==> LineFault(gi, 9, l).None?)
  {
  }

  lemma LineRulesPass(gi: GateInput)
    ensures (Passes(gi, 4) && Passes(gi, 5) && Passes(gi, 6) && Passes(gi, 7) && Passes(gi, 9)) <==>
            (!SetRaises(Get(gi.policy.blockedSkus, JList([]))) && !ListRaises(Get(gi.policy.allowedCategories, JList([])))
             && forall i | 0 <= i < |CartLines(gi)| :: LineRules(gi, CartLines(gi)[i]))
  {
    LinePasses(gi);
    CleanLinesAreRules(gi);
  }

  lemma CleanLinesAreRules(gi: GateInput)
    ensures (forall i | 0 <= i < |CartLines(gi)| :: LineRules(gi, CartLines(gi)[i])) <==>
            (StockRequired(gi.policy) ==> CleanLines(gi, 4))
            && CleanLines(gi, 5) && CleanLines(gi, 6) && CleanLines(gi, 7)
            && (gi.mandate.Some? && gi.mandate.value.categories != [] ==> CleanLines(gi, 9))
  {
    var lines := CartLines(gi);
    forall i | 0 <= i < |lines|
      ensures LineRules(gi, lines[i]) <==>
              (StockRequired(gi.policy) ==> LineFault(gi, 4, lines[i]).None?)
              && LineFault(gi, 5, lines[i]).None? && LineFault(gi, 6, lines[i]).None? && LineFault(gi, 7, lines[i]).None?
              && (gi.mandate.Some? && gi.mandate.value.categories != [] ==> LineFault(gi, 9, lines[i]).None?)
    {
      LineRulesAreFaults(gi, lines[i]);
    }
  }

  /** Everything ALLOW needs except the two rules about the total. */
  predicate AcceptableAtSomePrice(gi: GateInput) {
    && gi.items.ItemList? && 1 <= |gi.items.xs| <= MAX_LINES
    && DistinctIds(gi.items.xs)
    && (forall i | 0 <= i < |gi.items.xs| :: ItemOk(gi, gi.items.xs[i]))
    && BuyerOk(gi) && PolicyReadable(gi.policy)
    && ExpectedStatus(gi.mode, gi.status)
  }

  lemma CartIsPriced(gi: GateInput)
    requires AcceptableAtSomePrice(gi)
    ensures Passes(gi, 0) && Passes(gi, 3)
    ensures CartLines(gi) == LinesOf(gi.catalog, gi.items.xs) && CartTotal(gi) == SumValue(gi.catalog, gi.items.xs)
  {
    forall i | 0 <= i < |gi.items.xs| ensures PlainItem(gi.items.xs[i]) { assert ItemOk(gi, gi.items.xs[i]); }
    WellFormedMeans(gi);
    KnownMeans(gi);
    assert forall i | 0 <= i < |gi.items.xs| :: ItemOk(gi, gi.items.xs[i]);
  }

  lemma LinesFollowRules(gi: GateInput)
    requires AcceptableAtSomePrice(gi)
    ensures forall i | 0 <= i < |CartLines(gi)| :: LineRules(gi, CartLines(gi)[i])
  {
    CartIsPriced(gi);
    forall i | 0 <= i < |CartLines(gi)| ensures LineRules(gi, CartLines(gi)[i]) {
      assert ItemOk(gi, gi.items.xs[i]) && CartLines(gi)[i] == LineOf(gi.catalog, gi.items.xs[i]);
      LineRulesMeanItemOk(gi, gi.items.xs[i]);
    }
  }

  lemma PricelessRulesPass(gi: GateInput)
    requires AcceptableAtSomePrice(gi)
    ensures PassedUpTo(gi, 8) && Passes(gi, 9) && Passes(gi, 13) && CartTotal(gi) == SumValue(gi.catalog, gi.items.xs)
  {
    CartIsPriced(gi);
    LinesFollowRules(gi);
    LineRulesPass(gi);
    BuyerRulesMean(gi);
    StateAndReviewMean(gi);
    UpToEight(gi);
  }

  lemma UpToEight(gi: GateInput)
    requires Passes(gi, 0) && Passes(gi, 1) && Passes(gi, 2) && Passes(gi, 3)
    requires Passes(gi, 4) && Passes(gi, 5) && Passes(gi, 6) && Passes(gi, 7)
    ensures PassedUpTo(gi, 8)
  {
  }

  lemma UpToAll(gi: GateInput)
    requires PassedUpTo(gi, 8) && Passes(gi, 8) && Passes(gi, 9) && Passes(gi, 10) && Passes(gi, 11)
    requires Passes(gi, 12) && Passes(gi, 13) && Passes(gi, 14)
    ensures PassedUpTo(gi, RULES)
  {
  }

  lemma CapRulesMean(gi: GateInput)
    requires gi.mandate.Some? && PolicyReadable(gi.policy)
    ensures TotalOk(gi, CartTotal(gi)) <==> Passes(gi, 8) && Passes(gi, 10) && Passes(gi, 11) && Passes(gi, 12)
    ensures !RuleOutcome(gi, 8).Raise?
  {
  }

  /** A cart that passed every rule is acceptable line by line. */
  lemma PassedItemsOk(gi: GateInput)
    requires PassedUpTo(gi, 8) && Passes(gi, 9)
    ensures gi.items.ItemList? && 1 <= |gi.items.xs| <= MAX_LINES && DistinctIds(gi.items.xs)
    ensures forall i | 0 <= i < |gi.items.xs| :: ItemOk(gi, gi.items.xs[i])
    ensures !SetRaises(Get(gi.policy.blockedSkus, JList([]))) && !ListRaises(Get(gi.policy.allowedCategories, JList([])))
    ensures CartTotal(gi) == SumValue(gi.catalog, gi.items.xs)
  {
    assert Passes(gi, 0) && Passes(gi, 3) && Passes(gi, 4) && Passes(gi, 5) && Passes(gi, 6) && Passes(gi, 7);
    WellFormedMeans(gi);
    KnownMeans(gi);
    LineRulesPass(gi);
    forall i | 0 <= i < |gi.items.xs| ensures ItemOk(gi, gi.items.xs[i]) {
      assert LineRules(gi, CartLines(gi)[i]) && CartLines(gi)[i] == LineOf(gi.catalog, gi.items.xs[i]);
      LineRulesMeanItemOk(gi, gi.items.xs[i]);
    }
  }

  lemma BuyerRulesMean(gi: GateInput)
    ensures Passes(gi, 1) && Passes(gi, 2) <==> BuyerOk(gi)
  {
  }

  lemma OrderMaxReadable(gi: GateInput)
    requires Passes(gi, 8)
    ensures Get(gi.policy.maxOrder, JNull).JInt? || Get(gi.policy.maxOrder, JNull).JBool?
  {
  }

  lemma StateAndReviewMean(gi: GateInput)
    ensures Passes(gi, 13) <==> ExpectedStatus(gi.mode, gi.status)
    ensures Passes(gi, 14) <==> ReviewOk(gi, CartTotal(gi))
  {
  }

  lemma AllPassedIsAcceptable(gi: GateInput)
    requires PassedUpTo(gi, RULES)
    ensures Acceptable(gi)
  {
    PassedItemsOk(gi);
    BuyerRulesMean(gi);
    OrderMaxReadable(gi);
    CapRulesMean(gi);
    StateAndReviewMean(gi);
  }

  lemma AcceptableAllPass(gi: GateInput)
    requires Acceptable(gi)
    ensures PassedUpTo(gi, RULES) && CartTotal(gi) == SumValue(gi.catalog, gi.items.xs)
  {
    PricelessRulesPass(gi);
    CapRulesMean(gi);
    StateAndReviewMean(gi);
    UpToAll(gi);
  }

  /** ALLOW, characterised without reference to the order of the rules. */
  lemma AllowIffAcceptable(gi: GateInput)
    ensures Decide(gi).verdict == ALLOW <==> Acceptable(gi)
    ensures Acceptable(gi) ==> Decide(gi).total == SumValue(gi.catalog, gi.items.xs)
  {
    AllowIffAllPass(gi);
    if PassedUpTo(gi, RULES) {
      AllPassedIsAcceptable(gi);
    }
    if Acceptable(gi) {
      AcceptableAllPass(gi);
    }
  }

  /** The facts a money step may rely on after ALLOW. */
  lemma AllowMeans(gi: GateInput)
    requires Decide(gi).verdict == ALLOW
    ensures BuyerOk(gi)
    ensures TotalOk(gi, Decide(gi).total) && ReviewOk(gi, Decide(gi).total) && ExpectedStatus(gi.mode, gi.status)
    ensures gi.items.ItemList? && Decide(gi).total == SumValue(gi.catalog, gi.items.xs) && Decide(gi).total >= 0
    ensures AllPriceable(gi) && Decide(gi).lines == LinesOf(gi.catalog, gi.items.xs)
  {
    AllowIffAcceptable(gi);
    AllowIffAllPass(gi);
    assert Passes(gi, 0) && Passes(gi, 3);
    KnownMeans(gi);
    SumNonNegative(gi, gi.items.xs);
  }

  lemma {:induction false} SumNonNegative(gi: GateInput, xs: seq<Item>)
    requires forall i | 0 <= i < |xs| :: ItemOk(gi, xs[i])
    ensures SumValue(gi.catalog, xs) >= 0
  {
    if xs != [] {
      SumNonNegative(gi, xs[..|xs| - 1]);
      ValueNonNegative(gi, xs[|xs| - 1]);
    }
  }

  lemma ValueNonNegative(gi: GateInput, it: Item)
    requires ItemOk(gi, it)
    ensures Value(gi.catalog, it) >= 0
  {
  }
}
