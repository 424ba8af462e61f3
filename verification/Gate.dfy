/**
 * The policy gate. `RuleOutcome` says, rule by rule, what each of the fifteen rules finds; `Decide` is the
 * declarative meaning of an evaluation (the least rule that does not pass decides); `Evaluate` is the
 * early-return code, with its loops and its growing list of checks.
 */
module Gate {
  import opened Basics
  import opened Policy

  const MAX_LINES: nat := 20
  const RULES: nat := 15
  const INR: string := "INR"

  // ---- inputs ------------------------------------------------------------------------------------

  datatype Standing = Active | Revoked

  datatype Mode = Preview | Authoritative | Retry | UnknownMode(name: string)

  datatype Status = NotReady | RequiresReview | Ready | Pending | Completed | Canceled

  datatype GateAgent = GateAgent(id: nat, standing: Standing)

  datatype GateMandate = GateMandate(
    id: nat, currency: string, perTxnCap: int, dailyCap: int, totalCap: int, categories: seq<string>,
    startsAt: int, expiresAt: int, standing: Standing)

  /** What the gate sees of a product. */
  datatype Snap = Snap(title: string, price: int, inStock: bool, category: Option<string>)

  type Catalog = map<string, Snap>

  datatype ItemId = IdStr(s: string) | IdOther

  /** `QtyOther` stands for anything whose type is not exactly int, including a missing key. */
  datatype Quantity = QtyInt(n: int) | QtyOther

  datatype Item = Item(id: ItemId, qty: Quantity) | NotADict

  datatype Items = ItemList(xs: seq<Item>) | NotAList

  datatype GateInput = GateInput(
    agent: Option<GateAgent>, mandate: Option<GateMandate>, policy: Doc, catalog: Catalog, items: Items,
    spentToday: int, spentTotal: int, now: int, status: Option<Status>, mode: Mode, approved: bool)

  // ---- results -----------------------------------------------------------------------------------

  datatype Verdict = ALLOW | DENY | REVIEW

  /** `G(n)` is the n-th entry of RULE_IDS; `Guard` is G99; `Allowed` labels an ALLOW. */
  datatype Rule = G(n: nat) | Guard | Allowed

  /** The data each plain-English detail is rendered from. */
  datatype Detail =
    | NoLines | TooManyLines(count: nat) | BadId(line: nat) | BadQuantity(line: nat, id: string)
    | Duplicate(line: nat, id: string) | WellFormed(count: nat)
    | NotRegistered | AgentStanding(agent: nat, standing: Standing)
    | NoMandate(agent: nat) | MandateStanding(mandate: nat, standing: Standing) | NotYetValid(mandate: nat, at: int)
    | Expired(mandate: nat, at: int) | WrongCurrency(currency: string) | InForce(mandate: nat, at: int)
    | UnknownItem(id: string) | Priced(count: nat, total: int)
    | OutOfStock(id: string, title: string) | AllInStock | StockNotRequired
    | BlockedItem(id: string, title: string) | NoneBlocked
    | Uncategorised(id: string, title: string) | OffCategory(id: string, title: string, named: string, value: Json)
    | CategoriesOk(found: set<string>)
    | OverQuantity(id: string, title: string, quantity: int, limit: int) | QuantitiesOk(limit: int)
    | OrderTotal(total: int, value: Json)
    | OffMandate(id: string, title: string, category: Option<string>, categories: seq<string>)
    | MandateCategories(categories: seq<string>) | NoRestriction
    | PerTxn(total: int, cap: int) | Spend(spent: int, total: int, cap: int)
    | ModeUnknown(name: string) | StateOf(status: Option<Status>, mode: Mode)
    | AboveThreshold(total: int, threshold: int) | ApprovedAbove(total: int, threshold: int)
    | WithinThreshold(total: int, threshold: int) | NoThreshold
    | AllPassed(count: nat) | Internal(error: Error)

  /** What an exception inside a rule carries. */
  datatype Error = BadPrice(id: string) | TypeError(rule: nat)

  datatype Check = Check(rule: Rule, ok: bool, detail: Detail)

  datatype Line = Line(id: string, title: string, quantity: int, unitPrice: int, lineTotal: int, category: Option<string>)

  datatype Decision = Decision(
    verdict: Verdict, rule: Rule, reason: Detail, checks: seq<Check>, lines: seq<Line>, total: int)

  datatype Outcome = Pass(detail: Detail) | Fail(detail: Detail) | Raise(error: Error)

  // ---- G00: the shape of the cart ----------------------------------------------------------------

  predicate HasId(it: Item, s: string) { it.Item? && it.id == IdStr(s) }

  /** The cart has a line with this id, whatever else is wrong with it. */
  predicate Mentions(items: Items, s: string) {
    items.ItemList? && exists i | 0 <= i < |items.xs| :: HasId(items.xs[i], s)
  }

  /** The fault the source reports for line i, given that lines before i had none. */
  function ShapeFault(xs: seq<Item>, i: nat): Option<Detail>
    requires i < |xs|
  {
    var it := xs[i];
    if !it.Item? || !it.id.IdStr? || it.id.s == "" then Some(BadId(i))
    else if !it.qty.QtyInt? || it.qty.n < 1 then Some(BadQuantity(i, it.id.s))
    else if exists j | 0 <= j < i :: HasId(xs[j], it.id.s) then Some(Duplicate(i, it.id.s))
    else None
  }

  function ShapeScan(xs: seq<Item>, i: nat): Option<Detail>
    requires i <= |xs|
    decreases |xs| - i
  {
    if i == |xs| then None
    else if ShapeFault(xs, i).Some? then ShapeFault(xs, i)
    else ShapeScan(xs, i + 1)
  }

  function G00(gi: GateInput): Outcome {
    if gi.items.NotAList? || gi.items.xs == [] then Fail(NoLines)
    else if |gi.items.xs| > MAX_LINES then Fail(TooManyLines(|gi.items.xs|))
    else match ShapeScan(gi.items.xs, 0)
      case Some(d) => Fail(d)
      case None => Pass(WellFormed(|gi.items.xs|))
  }

  // ---- G01, G02: who is buying -------------------------------------------------------------------

  function G01(gi: GateInput): Outcome {
    match gi.agent
    case None => Fail(NotRegistered)
    case Some(a) =>
      if a.standing != Active then Fail(AgentStanding(a.id, a.standing)) else Pass(AgentStanding(a.id, a.standing))
  }

  function G02(gi: GateInput): Outcome {
    match gi.mandate
    case None => Fail(NoMandate(if gi.agent.Some? then gi.agent.value.id else 0))
    case Some(m) =>
      if m.standing != Active then Fail(MandateStanding(m.id, m.standing))
      else if gi.now < m.startsAt then Fail(NotYetValid(m.id, m.startsAt))
      else if gi.now >= m.expiresAt then Fail(Expired(m.id, m.expiresAt))
      else if m.currency != INR then Fail(WrongCurrency(m.currency))
      else Pass(InForce(m.id, m.expiresAt))
  }

  // ---- G03: pricing from the merchant's own catalog ----------------------------------------------

  predicate Priceable(cat: Catalog, it: Item) {
    it.Item? && it.id.IdStr? && it.id.s in cat && it.qty.QtyInt?
  }

  function LineOf(cat: Catalog, it: Item): Line
    requires Priceable(cat, it)
  {
    var p := cat[it.id.s];
    Line(it.id.s, p.title, it.qty.n, p.price, p.price * it.qty.n, p.category)
  }

  function LinesOf(cat: Catalog, xs: seq<Item>): (lines: seq<Line>)
    requires forall i | 0 <= i < |xs| :: Priceable(cat, xs[i])
    ensures |lines| == |xs| && forall i | 0 <= i < |xs| :: lines[i] == LineOf(cat, xs[i])
  {
    if xs == [] then [] else LinesOf(cat, xs[..|xs| - 1]) + [LineOf(cat, xs[|xs| - 1])]
  }

  function TotalOf(lines: seq<Line>): int {
    if lines == [] then 0 else TotalOf(lines[..|lines| - 1]) + lines[|lines| - 1].lineTotal
  }

  predicate AllPriceable(gi: GateInput) {
    gi.items.ItemList? && forall i | 0 <= i < |gi.items.xs| :: Priceable(gi.catalog, gi.items.xs[i])
  }

  /** The priced lines; meaningful once G00 and G03 have passed. */
  function CartLines(gi: GateInput): seq<Line> {
    if AllPriceable(gi) then LinesOf(gi.catalog, gi.items.xs) else []
  }

  function CartTotal(gi: GateInput): int { TotalOf(CartLines(gi)) }

  function PriceFault(cat: Catalog, it: Item): (o: Option<Outcome>)
    ensures o.Some? ==> !o.value.Pass?
  {
    if !it.Item? || !it.id.IdStr? then Some(Fail(UnknownItem("")))
    else if it.id.s !in cat then Some(Fail(UnknownItem(it.id.s)))
    else if cat[it.id.s].price < 0 then Some(Raise(BadPrice(it.id.s)))
    else None
  }

  function PriceScan(cat: Catalog, xs: seq<Item>, i: nat): (o: Option<Outcome>)
    requires i <= |xs|
    ensures o.Some? ==> !o.value.Pass?
    decreases |xs| - i
  {
    if i == |xs| then None
    else if PriceFault(cat, xs[i]).Some? then PriceFault(cat, xs[i])
    else PriceScan(cat, xs, i + 1)
  }

  function G03(gi: GateInput): Outcome {
    if gi.items.NotAList? then Fail(NoLines)
    else match PriceScan(gi.catalog, gi.items.xs, 0)
      case Some(o) => o
      case None => Pass(Priced(|gi.items.xs|, CartTotal(gi)))
  }

  // ---- line by line rules ------------------------------------------------------------------------

  function Scan(gi: GateInput, r: nat, lines: seq<Line>, i: nat): (o: Option<Outcome>)
    requires i <= |lines|
    ensures o.Some? ==> !o.value.Pass?
    decreases |lines| - i
  {
    if i == |lines| then None
    else if LineFault(gi, r, lines[i]).Some? then LineFault(gi, r, lines[i])
    else Scan(gi, r, lines, i + 1)
  }

  lemma {:induction false} ScanFindsAll(gi: GateInput, r: nat, lines: seq<Line>, i: nat)
    requires i <= |lines|
    ensures Scan(gi, r, lines, i).None? <==> forall j | i <= j < |lines| :: LineFault(gi, r, lines[j]).None?
    decreases |lines| - i
  {
    if i < |lines| {
      ScanFindsAll(gi, r, lines, i + 1);
    }
  }

  /** What rule r finds wrong with one line. */
  function LineFault(gi: GateInput, r: nat, l: Line): (o: Option<Outcome>)
    ensures o.Some? ==> !o.value.Pass?
  {
    if r == 4 then StockFault(gi, l)
    else if r == 5 then BlockFault(gi, l)
    else if r == 6 then CategoryFault(gi, l)
    else if r == 7 then QuantityFault(gi, l)
    else if r == 9 then MandateFault(gi, l)
    else None
  }

  function Scanned(gi: GateInput, r: nat, ok: Detail): Outcome {
    match Scan(gi, r, CartLines(gi), 0)
    case Some(o) => o
    case None => Pass(ok)
  }

  // ---- G04..G07: merchant rules per line ---------------------------------------------------------

  predicate Truthy(v: Json) {
    match v
    case JNull => false
    case JBool(b) => b
    case JInt(n) => n != 0
    case JStr(s) => s != ""
    case JList(xs) => xs != []
  }

  predicate StockRequired(p: Doc) { Truthy(Get(p.inStockOnly, JBool(true))) }

  function StockFault(gi: GateInput, l: Line): Option<Outcome> {
    if l.id in gi.catalog && gi.catalog[l.id].inStock then None else Some(Fail(OutOfStock(l.id, l.title)))
  }

  function G04(gi: GateInput): Outcome {
    if StockRequired(gi.policy) then Scanned(gi, 4, AllInStock) else Pass(StockNotRequired)
  }

  /** `set(value)` raises for a value that is not iterable or has an unhashable element. */
  predicate SetRaises(v: Json) {
    match v
    case JStr(_) => false
    case JList(xs) => exists i | 0 <= i < |xs| :: xs[i].JList?
    case _ => true
  }

  /** Membership of a string in `set(value)` or `list(value)`; a string value iterates over its characters. */
  predicate Contains(v: Json, s: string) {
    match v
    case JStr(t) => |s| == 1 && s[0] in t
    case JList(xs) => JStr(s) in xs
    case _ => false
  }

  function BlockFault(gi: GateInput, l: Line): Option<Outcome> {
    if Contains(Get(gi.policy.blockedSkus, JList([])), l.id) then Some(Fail(BlockedItem(l.id, l.title))) else None
  }

  function G05(gi: GateInput): Outcome {
    if SetRaises(Get(gi.policy.blockedSkus, JList([]))) then Raise(TypeError(5)) else Scanned(gi, 5, NoneBlocked)
  }

  predicate ListRaises(v: Json) { !v.JStr? && !v.JList? }

  /** The failing detail joins the allowed names, which raises when one of them is not a string. */
  predicate JoinRaises(v: Json) { v.JList? && exists i | 0 <= i < |v.xs| :: !v.xs[i].JStr? }

  function CategoryFault(gi: GateInput, l: Line): Option<Outcome> {
    var allowed := Get(gi.policy.allowedCategories, JList([]));
    match l.category
    case None => Some(Fail(Uncategorised(l.id, l.title)))
    case Some(c) =>
      if Contains(allowed, c) then None
      else if JoinRaises(allowed) then Some(Raise(TypeError(6)))
      else Some(Fail(OffCategory(l.id, l.title, c, allowed)))
  }

  function Categories(lines: seq<Line>): set<string> {
    set i | 0 <= i < |lines| && lines[i].category.Some? :: lines[i].category.value
  }

  function G06(gi: GateInput): Outcome {
    if ListRaises(Get(gi.policy.allowedCategories, JList([]))) then Raise(TypeError(6))
    else Scanned(gi, 6, CategoriesOk(Categories(CartLines(gi))))
  }

  /** The per-line limit as a number; a boolean counts as 0 or 1 and anything else does not compare. */
  function MaxQty(p: Doc): Option<int> {
    match Get(p.maxQtyPerLine, JInt(MAX_LINES))
    case JInt(n) => Some(n)
    case JBool(b) => Some(if b then 1 else 0)
    case _ => None
  }

  function QuantityFault(gi: GateInput, l: Line): Option<Outcome> {
    match MaxQty(gi.policy)
    case None => Some(Raise(TypeError(7)))
    case Some(limit) =>
      if l.quantity > limit then Some(Fail(OverQuantity(l.id, l.title, l.quantity, limit))) else None
  }

  function G07(gi: GateInput): Outcome {
    Scanned(gi, 7, QuantitiesOk(if MaxQty(gi.policy).Some? then MaxQty(gi.policy).value else 0))
  }

  // ---- G08: order maximum ------------------------------------------------------------------------

  /** Without an integer maximum nothing is limited, but the detail formats the value, and only an int or a
      bool can be formatted: a policy with no maximum ends in the guard. */
  function G08(gi: GateInput): Outcome {
    var v := Get(gi.policy.maxOrder, JNull);
    if v.JInt? && CartTotal(gi) > v.n then Fail(OrderTotal(CartTotal(gi), v))
    else if v.JInt? || v.JBool? then Pass(OrderTotal(CartTotal(gi), v))
    else Raise(TypeError(8))
  }

  // ---- G09..G12: the mandate ---------------------------------------------------------------------

  function MandateFault(gi: GateInput, l: Line): Option<Outcome> {
    match gi.mandate
    case None => None
    case Some(m) =>
      if l.category.Some? && l.category.value in m.categories then None
      else Some(Fail(OffMandate(l.id, l.title, l.category, m.categories)))
  }

  function G09(gi: GateInput): Outcome {
    if gi.mandate.None? || gi.mandate.value.categories == [] then Pass(NoRestriction)
    else Scanned(gi, 9, MandateCategories(gi.mandate.value.categories))
  }

  function Capped(detail: Detail, within: bool): Outcome { if within then Pass(detail) else Fail(detail) }

  function G10(gi: GateInput): Outcome {
    var cap := if gi.mandate.Some? then gi.mandate.value.perTxnCap else 0;
    Capped(PerTxn(CartTotal(gi), cap), CartTotal(gi) <= cap)
  }

  function G11(gi: GateInput): Outcome {
    var cap := if gi.mandate.Some? then gi.mandate.value.dailyCap else 0;
    Capped(Spend(gi.spentToday, CartTotal(gi), cap), gi.spentToday + CartTotal(gi) <= cap)
  }

  function G12(gi: GateInput): Outcome {
    var cap := if gi.mandate.Some? then gi.mandate.value.totalCap else 0;
    Capped(Spend(gi.spentTotal, CartTotal(gi), cap), gi.spentTotal + CartTotal(gi) <= cap)
  }

  // ---- G13, G14 ----------------------------------------------------------------------------------

  predicate ExpectedStatus(mode: Mode, status: Option<Status>) {
    match mode
    case Preview => status.None? || status.value in {NotReady, Ready, RequiresReview}
    case Authoritative => status == Some(Ready)
    case Retry => status == Some(Pending)
    case UnknownMode(_) => false
  }

  function G13(gi: GateInput): Outcome {
    if gi.mode.UnknownMode? then Fail(ModeUnknown(gi.mode.name))
    else Capped(StateOf(gi.status, gi.mode), ExpectedStatus(gi.mode, gi.status))
  }

  /** The review threshold in force, if the merchant set one. */
  function Threshold(p: Doc): Option<int> {
    var v := Get(p.reviewAbove, JInt(0));
    if v.JInt? && v.n > 0 then Some(v.n) else None
  }

  function G14(gi: GateInput): Outcome {
    match Threshold(gi.policy)
    case None => Pass(NoThreshold)
    case Some(t) =>
      if CartTotal(gi) <= t then Pass(WithinThreshold(CartTotal(gi), t))
      else if gi.approved then Pass(ApprovedAbove(CartTotal(gi), t))
      else Fail(AboveThreshold(CartTotal(gi), t))
  }

  // ---- the meaning of an evaluation --------------------------------------------------------------

  function RuleOutcome(gi: GateInput, r: nat): Outcome
    requires r < RULES
  {
    if r == 0 then G00(gi) else if r == 1 then G01(gi) else if r == 2 then G02(gi) else if r == 3 then G03(gi)
    else if r == 4 then G04(gi) else if r == 5 then G05(gi) else if r == 6 then G06(gi) else if r == 7 then G07(gi)
    else if r == 8 then G08(gi) else if r == 9 then G09(gi) else if r == 10 then G10(gi) else if r == 11 then G11(gi)
    else if r == 12 then G12(gi) else if r == 13 then G13(gi) else G14(gi)
  }

  predicate Passes(gi: GateInput, r: nat)
    requires r < RULES
  {
    RuleOutcome(gi, r).Pass?
  }

  /** The least rule from r on that does not pass, or RULES. */
  function FirstStop(gi: GateInput, r: nat): (k: nat)
    requires r <= RULES
    ensures r <= k <= RULES
    ensures forall j | r <= j < k :: Passes(gi, j)
    ensures k < RULES ==> !Passes(gi, k)
    decreases RULES - r
  {
    if r == RULES || !Passes(gi, r) then r else FirstStop(gi, r + 1)
  }

  function PassChecks(gi: GateInput, k: nat): (checks: seq<Check>)
    requires k <= RULES
    ensures |checks| == k
    ensures forall j | 0 <= j < k :: checks[j] == Check(G(j), true, DetailOf(RuleOutcome(gi, j)))
  {
    if k == 0 then [] else PassChecks(gi, k - 1) + [Check(G(k - 1), true, DetailOf(RuleOutcome(gi, k - 1)))]
  }

  function DetailOf(o: Outcome): Detail {
    if o.Raise? then Internal(o.error) else o.detail
  }

  /** The decision when rule k is the first that does not pass (RULES: none). */
  function Conclude(gi: GateInput, k: nat): Decision
    requires k <= RULES
  {
    if k == RULES then
      Decision(ALLOW, Allowed, AllPassed(RULES), PassChecks(gi, RULES), CartLines(gi), CartTotal(gi))
    else
      Stop(k, RuleOutcome(gi, k), PassChecks(gi, k), CartLines(gi), CartTotal(gi))
  }

  function Stop(k: nat, o: Outcome, checks: seq<Check>, lines: seq<Line>, total: int): Decision {
    if o.Raise? then
      Decision(DENY, Guard, DetailOf(o), checks + [Check(Guard, false, DetailOf(o))], [], 0)
    else if k == 14 then
      Decision(REVIEW, G(k), DetailOf(o), checks + [Check(G(k), false, DetailOf(o))], lines, total)
    else if k <= 3 then
      Decision(DENY, G(k), DetailOf(o), checks + [Check(G(k), false, DetailOf(o))], [], 0)
    else
      Decision(DENY, G(k), DetailOf(o), checks + [Check(G(k), false, DetailOf(o))], lines, total)
  }

  function Decide(gi: GateInput): Decision { Conclude(gi, FirstStop(gi, 0)) }

  predicate PassedUpTo(gi: GateInput, k: nat)
    requires k <= RULES
  {
    forall j | 0 <= j < k :: Passes(gi, j)
  }

  /** Two ways to see the same decision: if rules below k pass and rule k does not, rule k decides. */
  lemma {:induction false} DecidedAt(gi: GateInput, r: nat, k: nat)
    requires r <= k <= RULES
    requires forall j | r <= j < k :: Passes(gi, j)
    requires k < RULES ==> !Passes(gi, k)
    ensures FirstStop(gi, r) == k
    decreases k - r
  {
    if r < k {
      assert Passes(gi, r);
      DecidedAt(gi, r + 1, k);
    }
  }

  // ---- the early-return code ---------------------------------------------------------------------

  lemma StopsAt(gi: GateInput, k: nat)
    requires k < RULES && PassedUpTo(gi, k) && !Passes(gi, k)
    ensures Decide(gi) == Stop(k, RuleOutcome(gi, k), PassChecks(gi, k), CartLines(gi), CartTotal(gi))
  {
    DecidedAt(gi, 0, k);
  }

  lemma Advances(gi: GateInput, k: nat)
    requires k < RULES && PassedUpTo(gi, k) && Passes(gi, k)
    ensures PassedUpTo(gi, k + 1)
    ensures PassChecks(gi, k + 1) == PassChecks(gi, k) + [Check(G(k), true, RuleOutcome(gi, k).detail)]
  {
  }

  lemma {:induction false} ShapeScanClean(xs: seq<Item>, i: nat)
    requires i <= |xs| && ShapeScan(xs, i).None?
    ensures forall j | i <= j < |xs| :: ShapeFault(xs, j).None?
    decreases |xs| - i
  {
    if i < |xs| {
      ShapeScanClean(xs, i + 1);
    }
  }

  lemma {:induction false} PriceScanClean(cat: Catalog, xs: seq<Item>, i: nat)
    requires i <= |xs| && PriceScan(cat, xs, i).None?
    ensures forall j | i <= j < |xs| :: PriceFault(cat, xs[j]).None?
    decreases |xs| - i
  {
    if i < |xs| {
      PriceScanClean(cat, xs, i + 1);
    }
  }

  /** Once G00 and G03 pass, every item is priced from the catalog. */
  lemma PricedCart(gi: GateInput)
    requires Passes(gi, 0) && Passes(gi, 3)
    ensures AllPriceable(gi) && CartLines(gi) == LinesOf(gi.catalog, gi.items.xs)
    ensures forall i | 0 <= i < |gi.items.xs| :: gi.items.xs[i].qty.n >= 1 && gi.catalog[gi.items.xs[i].id.s].price >= 0
  {
    ShapeScanClean(gi.items.xs, 0);
    PriceScanClean(gi.catalog, gi.items.xs, 0);
    forall i | 0 <= i < |gi.items.xs|
      ensures Priceable(gi.catalog, gi.items.xs[i])
      ensures gi.items.xs[i].qty.n >= 1 && gi.catalog[gi.items.xs[i].id.s].price >= 0
    {
      assert ShapeFault(gi.items.xs, i).None? && PriceFault(gi.catalog, gi.items.xs[i]).None?;
    }
  }

  method CheckShape(xs: seq<Item>) returns (fault: Option<Detail>)
    ensures fault == ShapeScan(xs, 0)
  {
    var seen: set<string> := {};
    for i := 0 to |xs|
      invariant forall s :: s in seen <==> exists j | 0 <= j < i :: HasId(xs[j], s)
      invariant ShapeScan(xs, 0) == ShapeScan(xs, i)
    {
      var it := xs[i];
      if !it.Item? || !it.id.IdStr? || it.id.s == "" {
        return Some(BadId(i));
      }
      if !it.qty.QtyInt? || it.qty.n < 1 {
        return Some(BadQuantity(i, it.id.s));
      }
      if it.id.s in seen {
        return Some(Duplicate(i, it.id.s));
      }
      seen := seen + {it.id.s};
    }
    return None;
  }

  /** Prices the cart. `bad` is the first item that is unknown or has an unusable price. */
  method PriceItems(cat: Catalog, xs: seq<Item>) returns (bad: Option<Outcome>, lines: seq<Line>, total: int)
    requires forall i | 0 <= i < |xs| :: xs[i].Item? && xs[i].id.IdStr? && xs[i].qty.QtyInt?
    ensures bad == PriceScan(cat, xs, 0)
    ensures bad.None? ==> (forall i | 0 <= i < |xs| :: Priceable(cat, xs[i])) && lines == LinesOf(cat, xs) && total == TotalOf(lines)
  {
    lines, total := [], 0;
    for i := 0 to |xs|
      invariant forall j | 0 <= j < i :: Priceable(cat, xs[j])
      invariant PriceScan(cat, xs, 0) == PriceScan(cat, xs, i)
      invariant lines == LinesOf(cat, xs[..i])
    {
      var it := xs[i];
      if it.id.s !in cat {
        return Some(Fail(UnknownItem(it.id.s))), [], 0;
      }
      if cat[it.id.s].price < 0 {
        return Some(Raise(BadPrice(it.id.s))), [], 0;
      }
      assert xs[..i + 1][..i] == xs[..i];
      lines := lines + [LineOf(cat, it)];
    }
    assert xs[..|xs|] == xs;
    for i := 0 to |lines|
      invariant total == TotalOf(lines[..i])
    {
      assert lines[..i + 1][..i] == lines[..i];
      total := total + lines[i].lineTotal;
    }
    assert lines[..|lines|] == lines;
    return None, lines, total;
  }

  method ScanLines(gi: GateInput, r: nat, lines: seq<Line>) returns (bad: Option<Outcome>)
    ensures bad == Scan(gi, r, lines, 0)
  {
    for i := 0 to |lines|
      invariant Scan(gi, r, lines, 0) == Scan(gi, r, lines, i)
    {
      bad := LineFault(gi, r, lines[i]);
      if bad.Some? {
        return bad;
      }
    }
    return None;
  }

  // Each rule as the code runs it. --------------------------------------------------------------------

  method RunShape(gi: GateInput) returns (o: Outcome)
    ensures o == RuleOutcome(gi, 0)
  {
    if gi.items.NotAList? || gi.items.xs == [] {
      return Fail(NoLines);
    }
    if |gi.items.xs| > MAX_LINES {
      return Fail(TooManyLines(|gi.items.xs|));
    }
    var fault := CheckShape(gi.items.xs);
    return if fault.Some? then Fail(fault.value) else Pass(WellFormed(|gi.items.xs|));
  }

  method RunAgent(gi: GateInput) returns (o: Outcome)
    ensures o == RuleOutcome(gi, 1)
  {
    if gi.agent.None? {
      return Fail(NotRegistered);
    }
    var a := gi.agent.value;
    if a.standing != Active {
      return Fail(AgentStanding(a.id, a.standing));
    }
    return Pass(AgentStanding(a.id, a.standing));
  }

  method RunMandate(gi: GateInput) returns (o: Outcome)
    requires gi.agent.Some?
    ensures o == RuleOutcome(gi, 2)
  {
    if gi.mandate.None? {
      return Fail(NoMandate(gi.agent.value.id));
    }
    var m := gi.mandate.value;
    if m.standing != Active {
      return Fail(MandateStanding(m.id, m.standing));
    }
    if gi.now < m.startsAt {
      return Fail(NotYetValid(m.id, m.startsAt));
    }
    if gi.now >= m.expiresAt {
      return Fail(Expired(m.id, m.expiresAt));
    }
    if m.currency != INR {
      return Fail(WrongCurrency(m.currency));
    }
    return Pass(InForce(m.id, m.expiresAt));
  }

  method RunPricing(gi: GateInput) returns (o: Outcome, lines: seq<Line>, total: int)
    requires Passes(gi, 0)
    ensures o == RuleOutcome(gi, 3)
    ensures o.Pass? ==> lines == CartLines(gi) && total == CartTotal(gi) && lines != []
  {
    PlainAfterShape(gi);
    var bad;
    bad, lines, total := PriceItems(gi.catalog, gi.items.xs);
    PricingOutcome(gi, bad);
    return if bad.Some? then bad.value else Pass(Priced(|lines|, total)), lines, total;
  }

  lemma PlainAfterShape(gi: GateInput)
    requires Passes(gi, 0)
    ensures gi.items.ItemList? && gi.items.xs != []
    ensures forall i | 0 <= i < |gi.items.xs| :: gi.items.xs[i].Item? && gi.items.xs[i].id.IdStr? && gi.items.xs[i].qty.QtyInt?
  {
    ShapeScanClean(gi.items.xs, 0);
    forall i | 0 <= i < |gi.items.xs| ensures gi.items.xs[i].Item? && gi.items.xs[i].id.IdStr? && gi.items.xs[i].qty.QtyInt? {
      assert ShapeFault(gi.items.xs, i).None?;
    }
  }

  lemma PricingOutcome(gi: GateInput, bad: Option<Outcome>)
    requires gi.items.ItemList? && bad == PriceScan(gi.catalog, gi.items.xs, 0)
    ensures RuleOutcome(gi, 3) == if bad.Some? then bad.value else Pass(Priced(|gi.items.xs|, CartTotal(gi)))
  {
  }

  method RunStock(gi: GateInput, lines: seq<Line>) returns (o: Outcome)
    requires lines == CartLines(gi)
    ensures o == RuleOutcome(gi, 4)
  {
    if !StockRequired(gi.policy) {
      return Pass(StockNotRequired);
    }
    var bad := ScanLines(gi, 4, lines);
    return if bad.Some? then bad.value else Pass(AllInStock);
  }

  method RunBlocked(gi: GateInput, lines: seq<Line>) returns (o: Outcome)
    requires lines == CartLines(gi)
    ensures o == RuleOutcome(gi, 5)
  {
    if SetRaises(Get(gi.policy.blockedSkus, JList([]))) {
      return Raise(TypeError(5));
    }
    var bad := ScanLines(gi, 5, lines);
    return if bad.Some? then bad.value else Pass(NoneBlocked);
  }

  method RunCategories(gi: GateInput, lines: seq<Line>) returns (o: Outcome)
    requires lines == CartLines(gi)
    ensures o == RuleOutcome(gi, 6)
  {
    if ListRaises(Get(gi.policy.allowedCategories, JList([]))) {
      return Raise(TypeError(6));
    }
    var bad := ScanLines(gi, 6, lines);
    return if bad.Some? then bad.value else Pass(CategoriesOk(Categories(lines)));
  }

  method RunQuantities(gi: GateInput, lines: seq<Line>) returns (o: Outcome)
    requires lines == CartLines(gi) && lines != []
    ensures o == RuleOutcome(gi, 7)
  {
    var bad := ScanLines(gi, 7, lines);
    if bad.Some? {
      return bad.value;
    }
    ScanFindsAll(gi, 7, lines, 0);
    assert LineFault(gi, 7, lines[0]).None?;
    return Pass(QuantitiesOk(MaxQty(gi.policy).value));
  }

  method RunOrderMax(gi: GateInput, total: int) returns (o: Outcome)
    requires total == CartTotal(gi)
    ensures o == RuleOutcome(gi, 8)
  {
    var maximum := Get(gi.policy.maxOrder, JNull);
    if maximum.JInt? && total > maximum.n {
      return Fail(OrderTotal(total, maximum));
    }
    if !maximum.JInt? && !maximum.JBool? {
      return Raise(TypeError(8));
    }
    return Pass(OrderTotal(total, maximum));
  }

  method RunMandateCategories(gi: GateInput, lines: seq<Line>) returns (o: Outcome)
    requires lines == CartLines(gi) && gi.mandate.Some?
    ensures o == RuleOutcome(gi, 9)
  {
    var m := gi.mandate.value;
    if m.categories == [] {
      return Pass(NoRestriction);
    }
    var bad := ScanLines(gi, 9, lines);
    return if bad.Some? then bad.value else Pass(MandateCategories(m.categories));
  }

  method RunState(gi: GateInput) returns (o: Outcome)
    ensures o == RuleOutcome(gi, 13)
  {
    if gi.mode.UnknownMode? {
      return Fail(ModeUnknown(gi.mode.name));
    }
    if !ExpectedStatus(gi.mode, gi.status) {
      return Fail(StateOf(gi.status, gi.mode));
    }
    return Pass(StateOf(gi.status, gi.mode));
  }

  method RunReview(gi: GateInput, total: int) returns (o: Outcome)
    requires total == CartTotal(gi)
    ensures o == RuleOutcome(gi, 14)
  {
    var threshold := Threshold(gi.policy);
    if threshold.Some? && total > threshold.value {
      if gi.approved {
        return Pass(ApprovedAbove(total, threshold.value));
      }
      return Fail(AboveThreshold(total, threshold.value));
    }
    return if threshold.Some? then Pass(WithinThreshold(total, threshold.value)) else Pass(NoThreshold);
  }

  /** What has been established when every rule below k has passed and been recorded. */
  ghost predicate Reached(gi: GateInput, k: nat, checks: seq<Check>)
    requires k <= RULES
  {
    PassedUpTo(gi, k) && checks == PassChecks(gi, k)
  }

  lemma ReachedNext(gi: GateInput, k: nat, checks: seq<Check>, o: Outcome)
    requires k < RULES && Reached(gi, k, checks) && o == RuleOutcome(gi, k)
    ensures o.Pass? ==> Reached(gi, k + 1, checks + [Check(G(k), true, o.detail)])
    ensures !o.Pass? ==> Decide(gi) == Stop(k, o, checks, CartLines(gi), CartTotal(gi))
  {
    if o.Pass? {
      Advances(gi, k);
    } else {
      StopsAt(gi, k);
    }
  }

  /** The gate itself: rules in order, an early return at the first that does not pass, one check per rule run. */
  method Evaluate(gi: GateInput) returns (d: Decision)
    ensures d == Decide(gi)
  {
    var checks: seq<Check> := [];
    var o := RunShape(gi);
    ReachedNext(gi, 0, checks, o);
    if !o.Pass? {
      return Stop(0, o, checks, [], 0);
    }
    checks := checks + [Check(G(0), true, o.detail)];
    o := RunAgent(gi);
    ReachedNext(gi, 1, checks, o);
    if !o.Pass? {
      return Stop(1, o, checks, [], 0);
    }
    checks := checks + [Check(G(1), true, o.detail)];
    o := RunMandate(gi);
    ReachedNext(gi, 2, checks, o);
    if !o.Pass? {
      return Stop(2, o, checks, [], 0);
    }
    checks := checks + [Check(G(2), true, o.detail)];
    var lines, total;
    assert Passes(gi, 0);
    o, lines, total := RunPricing(gi);
    ReachedNext(gi, 3, checks, o);
    if !o.Pass? {
      return Stop(3, o, checks, [], 0);
    }
    checks := checks + [Check(G(3), true, o.detail)];
    d := EvaluateMerchant(gi, lines, total, checks);
  }

  /** G04 to G08: what the merchant allows any agent to buy. */
  method EvaluateMerchant(gi: GateInput, lines: seq<Line>, total: int, before: seq<Check>) returns (d: Decision)
    requires Reached(gi, 4, before)
    requires lines == CartLines(gi) && total == CartTotal(gi) && lines != []
    ensures d == Decide(gi)
  {
    var checks := before;
    var o := RunStock(gi, lines);
    ReachedNext(gi, 4, checks, o);
    if !o.Pass? {
      return Stop(4, o, checks, lines, total);
    }
    checks := checks + [Check(G(4), true, o.detail)];
    o := RunBlocked(gi, lines);
    ReachedNext(gi, 5, checks, o);
    if !o.Pass? {
      return Stop(5, o, checks, lines, total);
    }
    checks := checks + [Check(G(5), true, o.detail)];
    o := RunCategories(gi, lines);
    ReachedNext(gi, 6, checks, o);
    if !o.Pass? {
      return Stop(6, o, checks, lines, total);
    }
    checks := checks + [Check(G(6), true, o.detail)];
    o := RunQuantities(gi, lines);
    ReachedNext(gi, 7, checks, o);
    if !o.Pass? {
      return Stop(7, o, checks, lines, total);
    }
    checks := checks + [Check(G(7), true, o.detail)];
    o := RunOrderMax(gi, total);
    ReachedNext(gi, 8, checks, o);
    if !o.Pass? {
      return Stop(8, o, checks, lines, total);
    }
    checks := checks + [Check(G(8), true, o.detail)];
    d := EvaluateMandate(gi, lines, total, checks);
  }

  /** G09 to G14: what the mandate allows, the session state, and the review threshold. */
  method EvaluateMandate(gi: GateInput, lines: seq<Line>, total: int, before: seq<Check>) returns (d: Decision)
    requires Reached(gi, 9, before)
    requires lines == CartLines(gi) && total == CartTotal(gi)
    ensures d == Decide(gi)
  {
    var checks := before;
    assert Passes(gi, 2);
    var m := gi.mandate.value;
    var o := RunMandateCategories(gi, lines);
    ReachedNext(gi, 9, checks, o);
    if !o.Pass? {
      return Stop(9, o, checks, lines, total);
    }
    checks := checks + [Check(G(9), true, o.detail)];
    o := if total > m.perTxnCap then Fail(PerTxn(total, m.perTxnCap)) else Pass(PerTxn(total, m.perTxnCap));
    ReachedNext(gi, 10, checks, o);
    if !o.Pass? {
      return Stop(10, o, checks, lines, total);
    }
    checks := checks + [Check(G(10), true, o.detail)];
    var daily := Spend(gi.spentToday, total, m.dailyCap);
    o := if gi.spentToday + total > m.dailyCap then Fail(daily) else Pass(daily);
    ReachedNext(gi, 11, checks, o);
    if !o.Pass? {
      return Stop(11, o, checks, lines, total);
    }
    checks := checks + [Check(G(11), true, o.detail)];
    var overall := Spend(gi.spentTotal, total, m.totalCap);
    o := if gi.spentTotal + total > m.totalCap then Fail(overall) else Pass(overall);
    ReachedNext(gi, 12, checks, o);
    if !o.Pass? {
      return Stop(12, o, checks, lines, total);
    }
    checks := checks + [Check(G(12), true, o.detail)];
    d := EvaluateState(gi, lines, total, checks);
  }

  method EvaluateState(gi: GateInput, lines: seq<Line>, total: int, before: seq<Check>) returns (d: Decision)
    requires Reached(gi, 13, before)
    requires lines == CartLines(gi) && total == CartTotal(gi)
    ensures d == Decide(gi)
  {
    var checks := before;
    var o := RunState(gi);
    ReachedNext(gi, 13, checks, o);
    if !o.Pass? {
      return Stop(13, o, checks, lines, total);
    }
    checks := checks + [Check(G(13), true, o.detail)];
    o := RunReview(gi, total);
    ReachedNext(gi, 14, checks, o);
    if !o.Pass? {
      return Stop(14, o, checks, lines, total);
    }
    checks := checks + [Check(G(14), true, o.detail)];
    DecidedAt(gi, 0, RULES);
    return Decision(ALLOW, Allowed, AllPassed(|checks|), checks, lines, total);
  }
}
