/** How a decision depends on the cart: order, size, prior spend, and which catalog entries it reads. */
module CartLaws {
  import opened Basics
  import opened Policy
  import opened Gate
  import opened GateLaws

  // ---- the gate reads only the catalog entries of the cart ---------------------------------------

  /** The two catalogs agree, presence included, on every id in the cart. */
  ghost predicate AgreeOnCart(items: Items, c1: Catalog, c2: Catalog) {
    forall s: string | Mentions(items, s) :: (s in c1 <==> s in c2) && (s in c1 ==> c1[s] == c2[s])
  }

  lemma CatalogFrame(gi: GateInput, cat: Catalog)
    requires AgreeOnCart(gi.items, gi.catalog, cat)
    ensures Decide(gi.(catalog := cat)) == Decide(gi)
  {
    var gj := gi.(catalog := cat);
    SameLines(gi, gj);
    forall r: nat | r < RULES ensures RuleOutcome(gj, r) == RuleOutcome(gi, r) {
      if r == 3 && gi.items.ItemList? {
        SamePriceScan(gi, gj, 0);
      } else if r in {4, 5, 6, 7, 9} {
        SameFaults(gi, gj, r);
        ScanFrame(gi, gj, r, CartLines(gi), 0);
      }
    }
    SameOutcomes(gi, gj);
  }

  lemma SameLines(gi: GateInput, gj: GateInput)
    requires gj == gi.(catalog := gj.catalog) && AgreeOnCart(gi.items, gi.catalog, gj.catalog)
    ensures CartLines(gj) == CartLines(gi)
  {
    if gi.items.ItemList? {
      var xs := gi.items.xs;
      forall i | 0 <= i < |xs|
        ensures Priceable(gi.catalog, xs[i]) <==> Priceable(gj.catalog, xs[i])
        ensures Priceable(gi.catalog, xs[i]) ==> LineOf(gi.catalog, xs[i]) == LineOf(gj.catalog, xs[i])
      {
        if xs[i].Item? && xs[i].id.IdStr? {
          assert HasId(xs[i], xs[i].id.s) && Mentions(gi.items, xs[i].id.s);
        }
      }
    }
  }

  lemma {:induction false} SamePriceScan(gi: GateInput, gj: GateInput, i: nat)
    requires gj == gi.(catalog := gj.catalog) && AgreeOnCart(gi.items, gi.catalog, gj.catalog)
    requires gi.items.ItemList? && i <= |gi.items.xs|
    ensures PriceScan(gj.catalog, gi.items.xs, i) == PriceScan(gi.catalog, gi.items.xs, i)
    decreases |gi.items.xs| - i
  {
    if i < |gi.items.xs| {
      var it := gi.items.xs[i];
      if it.Item? && it.id.IdStr? {
        assert HasId(it, it.id.s) && Mentions(gi.items, it.id.s);
      }
      SamePriceScan(gi, gj, i + 1);
    }
  }

  lemma SameFaults(gi: GateInput, gj: GateInput, r: nat)
    requires gj == gi.(catalog := gj.catalog) && AgreeOnCart(gi.items, gi.catalog, gj.catalog)
    ensures forall j | 0 <= j < |CartLines(gi)| :: LineFault(gi, r, CartLines(gi)[j]) == LineFault(gj, r, CartLines(gi)[j])
  {
    var lines := CartLines(gi);
    forall j | 0 <= j < |lines| ensures LineFault(gi, r, lines[j]) == LineFault(gj, r, lines[j]) {
      var it := gi.items.xs[j];
      assert Priceable(gi.catalog, it) && lines[j] == LineOf(gi.catalog, it);
      assert HasId(it, lines[j].id) && Mentions(gi.items, lines[j].id);
    }
  }

  lemma SameOutcomes(gi: GateInput, gj: GateInput)
    requires forall r: nat | r < RULES :: RuleOutcome(gj, r) == RuleOutcome(gi, r)
    requires CartLines(gj) == CartLines(gi)
    ensures Decide(gj) == Decide(gi)
  {
    var k := FirstStop(gi, 0);
    forall j | 0 <= j < k ensures Passes(gj, j) { assert Passes(gi, j); }
    if k < RULES {
      assert RuleOutcome(gj, k) == RuleOutcome(gi, k);
      assert !Passes(gi, k);
    }
    DecidedAt(gj, 0, k);
    SamePassChecks(gi, gj, k);
  }

  lemma {:induction false} SamePassChecks(gi: GateInput, gj: GateInput, k: nat)
    requires k <= RULES && forall r: nat | r < RULES :: RuleOutcome(gj, r) == RuleOutcome(gi, r)
    ensures PassChecks(gj, k) == PassChecks(gi, k)
  {
    if k > 0 {
      SamePassChecks(gi, gj, k - 1);
      assert RuleOutcome(gj, k - 1) == RuleOutcome(gi, k - 1);
    }
  }

  // ---- monotonicity ------------------------------------------------------------------------------

  /** Every line of ys is a line of xs with the same id and at most its quantity. */
  predicate SubCart(ys: seq<Item>, xs: seq<Item>) {
    forall i | 0 <= i < |ys| :: Covered(ys[i], xs)
  }

  predicate Covered(y: Item, xs: seq<Item>) {
    PlainItem(y) && exists j | 0 <= j < |xs| :: xs[j].Item? && xs[j].id == y.id && xs[j].qty.QtyInt? && y.qty.n <= xs[j].qty.n
  }

  /** Dropping lines, lowering quantities or lowering prior spend keeps ALLOW. */
  lemma SmallerCartStaysAllowed(gi: GateInput, ys: seq<Item>, spentToday: int, spentTotal: int)
    requires Decide(gi).verdict == ALLOW
    requires ys != [] && gi.items.ItemList? && DistinctIds(ys) && SubCart(ys, gi.items.xs)
    requires spentToday <= gi.spentToday && spentTotal <= gi.spentTotal
    ensures var smaller := gi.(items := ItemList(ys), spentToday := spentToday, spentTotal := spentTotal);
            Decide(smaller).verdict == ALLOW && 0 <= Decide(smaller).total <= Decide(gi).total
  {
    AllowIffAcceptable(gi);
    var gj := gi.(items := ItemList(ys), spentToday := spentToday, spentTotal := spentTotal);
    SmallerAcceptable(gi, gj, ys);
    AllowIffAcceptable(gj);
  }

  lemma SmallerAcceptable(gi: GateInput, gj: GateInput, ys: seq<Item>)
    requires Acceptable(gi) && ys != [] && DistinctIds(ys) && SubCart(ys, gi.items.xs)
    requires gj == gi.(items := ItemList(ys), spentToday := gj.spentToday, spentTotal := gj.spentTotal)
    requires gj.spentToday <= gi.spentToday && gj.spentTotal <= gi.spentTotal
    ensures Acceptable(gj) && 0 <= SumValue(gi.catalog, ys) <= SumValue(gi.catalog, gi.items.xs)
  {
    SmallerItems(gi, gj, ys);
    SubCartSum(gi, ys, gi.items.xs);
    SubCartSize(ys, gi.items.xs);
    SumNonNegative(gj, ys);
  }

  lemma SmallerItems(gi: GateInput, gj: GateInput, ys: seq<Item>)
    requires gi.items.ItemList? && forall i | 0 <= i < |gi.items.xs| :: ItemOk(gi, gi.items.xs[i])
    requires SubCart(ys, gi.items.xs)
    requires gj == gi.(items := gj.items, spentToday := gj.spentToday, spentTotal := gj.spentTotal)
    ensures forall i | 0 <= i < |ys| :: ItemOk(gj, ys[i])
  {
    forall i | 0 <= i < |ys| ensures ItemOk(gj, ys[i]) {
      assert Covered(ys[i], gi.items.xs);
      var j :| 0 <= j < |gi.items.xs| && gi.items.xs[j].Item? && gi.items.xs[j].id == ys[i].id
               && gi.items.xs[j].qty.QtyInt? && ys[i].qty.n <= gi.items.xs[j].qty.n;
      assert ItemOk(gi, gi.items.xs[j]);
    }
  }

  function Without(xs: seq<Item>, k: nat): seq<Item>
    requires k < |xs|
  {
    xs[..k] + xs[k + 1..]
  }

  lemma {:induction false} SumConcat(cat: Catalog, xs: seq<Item>, ys: seq<Item>)
    ensures SumValue(cat, xs + ys) == SumValue(cat, xs) + SumValue(cat, ys)
  {
    if ys == [] {
      assert xs + ys == xs;
    } else {
      SumConcat(cat, xs, ys[..|ys| - 1]);
      assert (xs + ys)[..|xs + ys| - 1] == xs + ys[..|ys| - 1];
    }
  }

  lemma SumWithout(cat: Catalog, xs: seq<Item>, k: nat)
    requires k < |xs|
    ensures SumValue(cat, xs) == SumValue(cat, Without(xs, k)) + Value(cat, xs[k])
  {
    SumConcat(cat, xs[..k], xs[k + 1..]);
    SumConcat(cat, xs[..k + 1], xs[k + 1..]);
    assert xs[..k + 1] + xs[k + 1..] == xs;
    assert xs[..k + 1][..k] == xs[..k];
  }

  /** The line of xs that covers the last line of ys, and what is left of both still cover each other. */
  lemma PeelCover(ys: seq<Item>, xs: seq<Item>) returns (k: nat)
    requires ys != [] && DistinctIds(ys) && SubCart(ys, xs)
    ensures k < |xs| && xs[k].Item? && xs[k].id == ys[|ys| - 1].id
    ensures xs[k].qty.QtyInt? && ys[|ys| - 1].qty.n <= xs[k].qty.n
    ensures SubCart(ys[..|ys| - 1], Without(xs, k)) && DistinctIds(ys[..|ys| - 1])
  {
    var last := ys[|ys| - 1];
    assert Covered(last, xs);
    k :| 0 <= k < |xs| && xs[k].Item? && xs[k].id == last.id && xs[k].qty.QtyInt? && last.qty.n <= xs[k].qty.n;
    forall i | 0 <= i < |ys| - 1 ensures Covered(ys[i], Without(xs, k)) {
      assert Covered(ys[i], xs);
      var j :| 0 <= j < |xs| && xs[j].Item? && xs[j].id == ys[i].id && xs[j].qty.QtyInt? && ys[i].qty.n <= xs[j].qty.n;
      assert ys[i].id != last.id;
      assert j != k;
      var j' := if j < k then j else j - 1;
      assert Without(xs, k)[j'] == xs[j];
    }
  }

  lemma {:induction false} SubCartSize(ys: seq<Item>, xs: seq<Item>)
    requires DistinctIds(ys) && SubCart(ys, xs)
    ensures |ys| <= |xs|
  {
    if ys != [] {
      var k := PeelCover(ys, xs);
      SubCartSize(ys[..|ys| - 1], Without(xs, k));
    }
  }

  lemma {:induction false} SubCartSum(gi: GateInput, ys: seq<Item>, xs: seq<Item>)
    requires DistinctIds(ys) && SubCart(ys, xs)
    requires forall i | 0 <= i < |xs| :: ItemOk(gi, xs[i])
    ensures SumValue(gi.catalog, ys) <= SumValue(gi.catalog, xs)
    decreases |ys|
  {
    if ys == [] {
      SumNonNegative(gi, xs);
    } else {
      var k := PeelCover(ys, xs);
      var rest := Without(xs, k);
      SubCartSum(gi, ys[..|ys| - 1], rest);
      SumWithout(gi.catalog, xs, k);
      assert ItemOk(gi, xs[k]);
      ScaleDown(gi.catalog[xs[k].id.s].price, ys[|ys| - 1].qty.n, xs[k].qty.n);
    }
  }

  lemma ScaleDown(price: int, a: int, b: int)
    requires price >= 0 && a <= b
    ensures price * a <= price * b
  {
  }

  // ---- order of the lines ------------------------------------------------------------------------

  predicate Permuted(xs: seq<Item>, ys: seq<Item>) { multiset(xs) == multiset(ys) }

  lemma PermutedMembers(xs: seq<Item>, ys: seq<Item>)
    requires Permuted(xs, ys)
    ensures |xs| == |ys|
    ensures forall i | 0 <= i < |ys| :: ys[i] in xs
  {
    assert |multiset(xs)| == |multiset(ys)|;
    forall i | 0 <= i < |ys| ensures ys[i] in xs {
      assert ys[i] in multiset(ys);
    }
  }

  lemma {:induction false} DistinctAtMostOnce(xs: seq<Item>, it: Item)
    requires DistinctIds(xs) && it.Item?
    ensures multiset(xs)[it] <= 1
  {
    if xs != [] {
      var front := xs[..|xs| - 1];
      assert xs == front + [xs[|xs| - 1]];
      DistinctAtMostOnce(front, it);
      if xs[|xs| - 1] == it {
        forall i | 0 <= i < |front| ensures front[i] != it {
          assert front[i] == xs[i];
        }
        assert it !in front;
      }
    }
  }

  lemma TwiceCounted(xs: seq<Item>, i: nat, j: nat)
    requires i < j < |xs| && xs[i] == xs[j]
    ensures multiset(xs)[xs[i]] >= 2
  {
    assert xs == xs[..j] + xs[j..];
    assert xs[..j][i] == xs[i] && xs[j..][0] == xs[i];
    assert multiset(xs)[xs[i]] == multiset(xs[..j])[xs[i]] + multiset(xs[j..])[xs[i]];
    assert xs[i] in xs[..j] && xs[i] in xs[j..];
  }

  lemma PermutedDistinct(xs: seq<Item>, ys: seq<Item>)
    requires Permuted(xs, ys) && DistinctIds(xs)
    ensures DistinctIds(ys)
  {
    PermutedMembers(xs, ys);
    forall i, j | 0 <= i < j < |ys| && ys[i].Item? && ys[j].Item? ensures ys[i].id != ys[j].id {
      DistinctAtMostOnce(xs, ys[i]);
      if ys[i] == ys[j] {
        TwiceCounted(ys, i, j);
      }
      assert ys[i] != ys[j];
      assert ys[i] in xs && ys[j] in xs;
      var a :| 0 <= a < |xs| && xs[a] == ys[i];
      var b :| 0 <= b < |xs| && xs[b] == ys[j];
      assert a != b;
    }
  }

  lemma WithoutMultiset(xs: seq<Item>, k: nat)
    requires k < |xs|
    ensures multiset(Without(xs, k)) == multiset(xs) - multiset{xs[k]}
  {
    assert xs == xs[..k] + [xs[k]] + xs[k + 1..];
  }

  lemma {:induction false} PermutedSum(cat: Catalog, xs: seq<Item>, ys: seq<Item>)
    requires Permuted(xs, ys)
    ensures SumValue(cat, xs) == SumValue(cat, ys)
    decreases |ys|
  {
    PermutedMembers(xs, ys);
    if ys != [] {
      var n := |ys| - 1;
      assert ys[n] in xs;
      var k :| 0 <= k < |xs| && xs[k] == ys[n];
      WithoutMultiset(xs, k);
      WithoutMultiset(ys, n);
      assert Without(ys, n) == ys[..n];
      PermutedSum(cat, Without(xs, k), ys[..n]);
      SumWithout(cat, xs, k);
    }
  }

  datatype Kind = KPass | KFail | KRaise

  function KindOf(o: Outcome): Kind {
    match o
    case Pass(_) => KPass
    case Fail(_) => KFail
    case Raise(_) => KRaise
  }

  predicate JoinSafe(p: Doc) { !JoinRaises(Get(p.allowedCategories, JList([]))) }

  /** With non-negative prices (and a policy whose category names can be listed), the order of the lines
      changes neither the verdict, nor the rule that decides, nor the total. */
  lemma OrderOfLinesIrrelevant(gi: GateInput, ys: seq<Item>)
    requires gi.items.ItemList? && Permuted(gi.items.xs, ys)
    requires PricesNonNegative(gi.catalog) && JoinSafe(gi.policy)
    ensures var d := Decide(gi); var e := Decide(gi.(items := ItemList(ys)));
            e.verdict == d.verdict && e.rule == d.rule && e.total == d.total
  {
    var gj := gi.(items := ItemList(ys));
    PermutedTotals(gi, ys);
    forall r: nat | r < RULES ensures KindOf(RuleOutcome(gj, r)) == KindOf(RuleOutcome(gi, r)) {
      PermutedKind(gi, ys, r);
    }
    SameKinds(gi, gj);
  }

  lemma PermutedTotals(gi: GateInput, ys: seq<Item>)
    requires gi.items.ItemList? && Permuted(gi.items.xs, ys)
    ensures var gj := gi.(items := ItemList(ys));
            CartTotal(gj) == CartTotal(gi) && (AllPriceable(gj) <==> AllPriceable(gi))
  {
    var xs := gi.items.xs;
    PermutedMembers(xs, ys);
    PermutedMembers(ys, xs);
    var gj := gi.(items := ItemList(ys));
    if AllPriceable(gi) || AllPriceable(gj) {
      assert forall i | 0 <= i < |ys| :: ys[i] in xs;
      assert forall i | 0 <= i < |xs| :: xs[i] in ys;
      PermutedSum(gi.catalog, xs, ys);
      TotalIsSum(gi.catalog, xs);
      TotalIsSum(gi.catalog, ys);
    }
  }

  lemma PermutedKind(gi: GateInput, ys: seq<Item>, r: nat)
    requires r < RULES && gi.items.ItemList? && Permuted(gi.items.xs, ys)
    requires PricesNonNegative(gi.catalog) && JoinSafe(gi.policy)
    ensures KindOf(RuleOutcome(gi.(items := ItemList(ys)), r)) == KindOf(RuleOutcome(gi, r))
  {
    if r == 0 {
      PermutedShape(gi, ys);
    } else if r == 3 {
      PermutedPrices(gi, ys);
    } else if r in {4, 5, 6, 7, 9} {
      PermutedLines(gi, ys, r);
    } else {
      PermutedTotals(gi, ys);
      CapsReadTheTotal(gi, gi.(items := ItemList(ys)), r);
    }
  }

  /** Of the cart, these rules read nothing but its total. */
  lemma CapsReadTheTotal(gi: GateInput, gj: GateInput, r: nat)
    requires r in {1, 2, 8, 10, 11, 12, 13, 14} && gj == gi.(items := gj.items) && CartTotal(gj) == CartTotal(gi)
    ensures RuleOutcome(gj, r) == RuleOutcome(gi, r)
  {
  }

  lemma PermutedShape(gi: GateInput, ys: seq<Item>)
    requires gi.items.ItemList? && Permuted(gi.items.xs, ys)
    ensures KindOf(G00(gi.(items := ItemList(ys)))) == KindOf(G00(gi))
  {
    var xs := gi.items.xs;
    var gj := gi.(items := ItemList(ys));
    PermutedMembers(xs, ys);
    PermutedMembers(ys, xs);
    WellFormedMeans(gi);
    WellFormedMeans(gj);
    if DistinctIds(xs) { PermutedDistinct(xs, ys); }
    if DistinctIds(ys) { PermutedDistinct(ys, xs); }
    assert (forall i | 0 <= i < |xs| :: PlainItem(xs[i])) <==> (forall i | 0 <= i < |ys| :: PlainItem(ys[i]));
    assert Passes(gi, 0) <==> Passes(gj, 0);
  }

  lemma PermutedPrices(gi: GateInput, ys: seq<Item>)
    requires gi.items.ItemList? && Permuted(gi.items.xs, ys) && PricesNonNegative(gi.catalog)
    ensures KindOf(G03(gi.(items := ItemList(ys)))) == KindOf(G03(gi))
  {
    var xs := gi.items.xs;
    PermutedMembers(xs, ys);
    PermutedMembers(ys, xs);
    PriceScanNeverRaises(gi.catalog, xs, 0);
    PriceScanNeverRaises(gi.catalog, ys, 0);
    PriceScanIff(gi.catalog, xs, 0);
    PriceScanIff(gi.catalog, ys, 0);
    assert (forall i | 0 <= i < |xs| :: PriceFault(gi.catalog, xs[i]).None?)
      <==> (forall i | 0 <= i < |ys| :: PriceFault(gi.catalog, ys[i]).None?);
  }

  lemma PermutedLineSets(gi: GateInput, ys: seq<Item>)
    requires gi.items.ItemList? && Permuted(gi.items.xs, ys)
    ensures var gj := gi.(items := ItemList(ys));
            forall l: Line :: l in CartLines(gi) <==> l in CartLines(gj)
  {
    var xs := gi.items.xs;
    var gj := gi.(items := ItemList(ys));
    PermutedMembers(xs, ys);
    PermutedMembers(ys, xs);
    PermutedTotals(gi, ys);
    var lines, lines' := CartLines(gi), CartLines(gj);
    if AllPriceable(gi) {
      forall i | 0 <= i < |xs| ensures lines[i] in lines' {
        assert xs[i] in ys;
        var k :| 0 <= k < |ys| && ys[k] == xs[i];
        assert lines'[k] == lines[i];
      }
      forall i | 0 <= i < |ys| ensures lines'[i] in lines {
        assert ys[i] in xs;
        var k :| 0 <= k < |xs| && xs[k] == ys[i];
        assert lines[k] == lines'[i];
      }
    }
  }

  lemma PermutedLines(gi: GateInput, ys: seq<Item>, r: nat)
    requires r in {4, 5, 6, 7, 9} && gi.items.ItemList? && Permuted(gi.items.xs, ys) && JoinSafe(gi.policy)
    ensures KindOf(RuleOutcome(gi.(items := ItemList(ys)), r)) == KindOf(RuleOutcome(gi, r))
  {
    var gj := gi.(items := ItemList(ys));
    PermutedLineSets(gi, ys);
    SameFaultKinds(gi, gj, r, CartLines(gi), CartLines(gj));
  }

  lemma SameFaultKinds(gi: GateInput, gj: GateInput, r: nat, lines: seq<Line>, lines': seq<Line>)
    requires JoinSafe(gi.policy) && gj == gi.(items := gj.items)
    requires forall l: Line :: l in lines <==> l in lines'
    ensures var a := Scan(gi, r, lines, 0); var b := Scan(gj, r, lines', 0);
            (a.None? <==> b.None?) && (a.Some? ==> KindOf(a.value) == KindOf(b.value))
  {
    var a := Scan(gi, r, lines, 0);
    var b := Scan(gj, r, lines', 0);
    ScanFindsAll(gi, r, lines, 0);
    ScanFindsAll(gj, r, lines', 0);
    assert forall l: Line :: LineFault(gi, r, l) == LineFault(gj, r, l);
    if a.None? {
      forall i | 0 <= i < |lines'| ensures LineFault(gj, r, lines'[i]).None? { assert lines'[i] in lines; }
    }
    if b.None? {
      forall i | 0 <= i < |lines| ensures LineFault(gi, r, lines[i]).None? { assert lines[i] in lines'; }
    }
    if r == 7 && MaxQty(gi.policy).None? {
      RaisingScan(gi, lines);
      RaisingScan(gj, lines');
    } else {
      ScanNeverRaises(gi, r, lines, 0);
      ScanNeverRaises(gj, r, lines', 0);
    }
  }

  lemma RaisingScan(gi: GateInput, lines: seq<Line>)
    requires MaxQty(gi.policy).None?
    ensures Scan(gi, 7, lines, 0) == if lines == [] then None else Some(Raise(TypeError(7)))
  {
  }

  lemma SameKinds(gi: GateInput, gj: GateInput)
    requires forall r: nat | r < RULES :: KindOf(RuleOutcome(gj, r)) == KindOf(RuleOutcome(gi, r))
    requires CartTotal(gj) == CartTotal(gi)
    ensures Decide(gj).verdict == Decide(gi).verdict && Decide(gj).rule == Decide(gi).rule
    ensures Decide(gj).total == Decide(gi).total
  {
    var k := FirstStop(gi, 0);
    forall j | 0 <= j < k ensures Passes(gj, j) {
      assert Passes(gi, j);
      assert KindOf(RuleOutcome(gj, j)) == KindOf(RuleOutcome(gi, j));
    }
    if k < RULES {
      assert KindOf(RuleOutcome(gj, k)) == KindOf(RuleOutcome(gi, k));
      assert !Passes(gi, k);
    }
    DecidedAt(gj, 0, k);
    SameConclusion(gi, gj, k);
  }

  lemma SameConclusion(gi: GateInput, gj: GateInput, k: nat)
    requires k <= RULES && CartTotal(gj) == CartTotal(gi)
    requires k < RULES ==> KindOf(RuleOutcome(gj, k)) == KindOf(RuleOutcome(gi, k))
    ensures Conclude(gj, k).verdict == Conclude(gi, k).verdict && Conclude(gj, k).rule == Conclude(gi, k).rule
    ensures Conclude(gj, k).total == Conclude(gi, k).total
  {
    if k < RULES {
      SameStops(k, RuleOutcome(gi, k), PassChecks(gi, k), CartLines(gi),
                RuleOutcome(gj, k), PassChecks(gj, k), CartLines(gj), CartTotal(gi));
    }
  }

  lemma SameStops(k: nat, a: Outcome, ca: seq<Check>, la: seq<Line>, b: Outcome, cb: seq<Check>, lb: seq<Line>, total: int)
    requires KindOf(a) == KindOf(b)
    ensures Stop(k, a, ca, la, total).verdict == Stop(k, b, cb, lb, total).verdict
    ensures Stop(k, a, ca, la, total).rule == Stop(k, b, cb, lb, total).rule
    ensures Stop(k, a, ca, la, total).total == Stop(k, b, cb, lb, total).total
  {
  }
}
