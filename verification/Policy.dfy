/** The merchant policy document: how it is cleaned before it is stored, and how the gate reads it. */
module Policy {
  import opened Basics

  /** JSON values a policy entry can hold. */
  datatype Json = JNull | JBool(b: bool) | JInt(n: int) | JStr(s: string) | JList(xs: seq<Json>)

  /** A JSON object: one field per known key (None = absent) and the names of any other keys. */
  datatype Doc = Doc(
    maxOrder: Option<Json>, allowedCategories: Option<Json>, blockedSkus: Option<Json>, maxQtyPerLine: Option<Json>,
    inStockOnly: Option<Json>, reviewAbove: Option<Json>, refundWindow: Option<Json>, otherKeys: set<string>)

  datatype Key =
    MaxOrder | AllowedCategories | BlockedSkus | MaxQtyPerLine | InStockOnly | ReviewAbove | RefundWindow

  datatype PolicyError = UnknownKeys(names: set<string>) | MissingKeys | BadValue(key: Key)

  function Get(v: Option<Json>, default: Json): Json {
    if v.Some? then v.value else default
  }

  // ---- cleaning a list of names ------------------------------------------------------------------

  predicate IsSpace(c: char) { c == ' ' || '\t' <= c <= '\r' || '\U{1c}' <= c <= '\U{1f}' }

  function StripLeft(s: string): string {
    if s != "" && IsSpace(s[0]) then StripLeft(s[1..]) else s
  }

  function StripRight(s: string): string {
    if s != "" && IsSpace(s[|s| - 1]) then StripRight(s[..|s| - 1]) else s
  }

  function Strip(s: string): string { StripRight(StripLeft(s)) }

  predicate Stripped(s: string) { s == "" || (!IsSpace(s[0]) && !IsSpace(s[|s| - 1])) }

  lemma {:induction false} StripLeftClean(s: string)
    ensures StripLeft(s) == "" || !IsSpace(StripLeft(s)[0])
  {
    if s != "" && IsSpace(s[0]) {
      StripLeftClean(s[1..]);
    }
  }

  lemma {:induction false} StripRightClean(s: string)
    ensures StripRight(s) <= s
    ensures StripRight(s) == "" || !IsSpace(StripRight(s)[|StripRight(s)| - 1])
  {
    if s != "" && IsSpace(s[|s| - 1]) {
      StripRightClean(s[..|s| - 1]);
    }
  }

  lemma StripIsStripped(s: string)
    ensures Stripped(Strip(s))
    ensures Stripped(s) ==> Strip(s) == s
  {
    StripLeftClean(s);
    StripRightClean(StripLeft(s));
  }

  predicate AllNames(xs: seq<Json>) {
    forall i | 0 <= i < |xs| :: xs[i].JStr? && Strip(xs[i].s) != ""
  }

  /** The stripped names, in order. */
  function Strips(xs: seq<Json>): (names: seq<string>)
    requires AllNames(xs)
    ensures |names| == |xs| && forall i | 0 <= i < |xs| :: names[i] == Strip(xs[i].s)
  {
    if xs == [] then [] else Strips(xs[..|xs| - 1]) + [Strip(xs[|xs| - 1].s)]
  }

  predicate Distinct(names: seq<string>) {
    forall i, j | 0 <= i < j < |names| :: names[i] != names[j]
  }

  /** First occurrences, in order. */
  function Dedup(names: seq<string>): (r: seq<string>)
    ensures Distinct(r) && |r| <= |names|
    ensures forall s :: s in r <==> s in names
  {
    if names == [] then []
    else
      var rest := Dedup(names[..|names| - 1]);
      var last := names[|names| - 1];
      assert names == names[..|names| - 1] + [last];
      if last in rest then rest else rest + [last]
  }

  lemma {:induction false} DedupFixpoint(names: seq<string>)
    requires Distinct(names)
    ensures Dedup(names) == names
  {
    if names != [] {
      DedupFixpoint(names[..|names| - 1]);
      assert names == names[..|names| - 1] + [names[|names| - 1]];
    }
  }

  predicate CleanNames(names: seq<string>) {
    && (forall i | 0 <= i < |names| :: names[i] != "" && Stripped(names[i]))
    && Distinct(names)
  }

  function Cleaned(xs: seq<Json>): (names: seq<string>)
    requires AllNames(xs)
    ensures CleanNames(names)
  {
    var raw := Strips(xs);
    var names := Dedup(raw);
    assert forall i | 0 <= i < |names| :: names[i] != "" && Stripped(names[i]) by {
      forall i | 0 <= i < |names| ensures names[i] != "" && Stripped(names[i]) {
        assert names[i] in raw;
        var j :| 0 <= j < |raw| && raw[j] == names[i];
        StripIsStripped(xs[j].s);
      }
    }
    names
  }

  function Quote(names: seq<string>): (xs: seq<Json>)
    ensures |xs| == |names| && forall i | 0 <= i < |names| :: xs[i] == JStr(names[i])
  {
    if names == [] then [] else Quote(names[..|names| - 1]) + [JStr(names[|names| - 1])]
  }

  lemma CleanedFixpoint(names: seq<string>)
    requires CleanNames(names)
    ensures AllNames(Quote(names)) && Cleaned(Quote(names)) == names
  {
    var xs := Quote(names);
    forall i | 0 <= i < |xs| ensures xs[i].JStr? && Strip(xs[i].s) == names[i] {
      StripIsStripped(names[i]);
    }
    assert Strips(xs) == names;
    DedupFixpoint(names);
  }

  function StrList(value: Json): (r: Option<seq<string>>)
    ensures r.Some? ==> CleanNames(r.value)
  {
    if value.JList? && AllNames(value.xs) then Some(Cleaned(value.xs)) else None
  }

  method CleanStrList(value: Json) returns (r: Option<seq<string>>)
    ensures r == StrList(value)
  {
    if !value.JList? {
      return None;
    }
    var xs := value.xs;
    for i := 0 to |xs|
      invariant AllNames(xs[..i])
    {
      if !xs[i].JStr? || Strip(xs[i].s) == "" {
        assert !AllNames(xs);
        return None;
      }
      assert xs[..i + 1] == xs[..i] + [xs[i]];
    }
    assert xs[..|xs|] == xs;
    var out := Fold(xs);
    return Some(out);
  }

  method Fold(xs: seq<Json>) returns (out: seq<string>)
    requires AllNames(xs)
    ensures out == Cleaned(xs)
  {
    ghost var raw := Strips(xs);
    out := [];
    for i := 0 to |xs|
      invariant out == Dedup(raw[..i])
    {
      assert raw[..i + 1][..i] == raw[..i];
      var v := Strip(xs[i].s);
      if v !in out {
        out := out + [v];
      }
    }
    assert raw[..|xs|] == raw;
  }

  // ---- validation --------------------------------------------------------------------------------

  predicate NonNegative(v: Json) { v.JInt? && v.n >= 0 }

  predicate AtLeastOne(v: Json) { v.JInt? && v.n >= 1 }

  /** What every stored policy satisfies. */
  predicate ValidPolicy(doc: Doc) {
    && doc.otherKeys == {}
    && doc.maxOrder.Some? && NonNegative(doc.maxOrder.value)
    && doc.maxQtyPerLine.Some? && AtLeastOne(doc.maxQtyPerLine.value)
    && doc.inStockOnly.Some? && doc.inStockOnly.value.JBool?
    && doc.reviewAbove.Some? && NonNegative(doc.reviewAbove.value)
    && doc.refundWindow.Some? && NonNegative(doc.refundWindow.value)
    && doc.allowedCategories.Some? && IsCleanList(doc.allowedCategories.value)
    && doc.blockedSkus.Some? && IsCleanList(doc.blockedSkus.value)
  }

  function Unquote(xs: seq<Json>): (names: seq<string>)
    requires forall i | 0 <= i < |xs| :: xs[i].JStr?
    ensures |names| == |xs| && forall i | 0 <= i < |xs| :: xs[i] == JStr(names[i])
  {
    if xs == [] then [] else Unquote(xs[..|xs| - 1]) + [xs[|xs| - 1].s]
  }

  predicate IsCleanList(v: Json) {
    && v.JList?
    && (forall i | 0 <= i < |v.xs| :: v.xs[i].JStr? && v.xs[i].s != "" && Stripped(v.xs[i].s))
    && (forall i, j | 0 <= i < j < |v.xs| :: v.xs[i] != v.xs[j])
  }

  predicate HasRequired(doc: Doc) {
    && doc.maxOrder.Some? && doc.allowedCategories.Some? && doc.blockedSkus.Some?
    && doc.maxQtyPerLine.Some? && doc.inStockOnly.Some?
  }

  /** The checks in source order; the first problem is the one reported. */
  function Validate(doc: Doc): (r: Result<Doc, PolicyError>)
    ensures r.Ok? ==> ValidPolicy(r.value)
  {
    var review := Get(doc.reviewAbove, JInt(0));
    var window := Get(doc.refundWindow, JInt(30));
    if doc.otherKeys != {} then Err(UnknownKeys(doc.otherKeys))
    else if !HasRequired(doc) then Err(MissingKeys)
    else if !NonNegative(doc.maxOrder.value) then Err(BadValue(MaxOrder))
    else if !AtLeastOne(doc.maxQtyPerLine.value) then Err(BadValue(MaxQtyPerLine))
    else if !doc.inStockOnly.value.JBool? then Err(BadValue(InStockOnly))
    else if !NonNegative(review) then Err(BadValue(ReviewAbove))
    else if !NonNegative(window) then Err(BadValue(RefundWindow))
    else
      var allowed := StrList(doc.allowedCategories.value);
      var blocked := StrList(doc.blockedSkus.value);
      if allowed.None? then Err(BadValue(AllowedCategories))
      else if blocked.None? then Err(BadValue(BlockedSkus))
      else
        QuoteIsClean(allowed.value);
        QuoteIsClean(blocked.value);
        Ok(doc.(allowedCategories := Some(JList(Quote(allowed.value))),
                blockedSkus := Some(JList(Quote(blocked.value))),
                reviewAbove := Some(review), refundWindow := Some(window)))
  }

  lemma QuoteIsClean(names: seq<string>)
    requires CleanNames(names)
    ensures IsCleanList(JList(Quote(names)))
  {
  }

  lemma CleanListRoundTrip(v: Json)
    requires IsCleanList(v)
    ensures StrList(v).Some? && JList(Quote(StrList(v).value)) == v
  {
    var names := Unquote(v.xs);
    assert Quote(names) == v.xs;
    forall i, j | 0 <= i < j < |names| ensures names[i] != names[j] {
      assert v.xs[i] != v.xs[j];
    }
    CleanedFixpoint(names);
  }

  /** The stored policies are exactly the fixed points of validation: storing a stored policy changes nothing. */
  lemma ValidationFixpoints(doc: Doc)
    ensures Validate(doc) == Ok(doc) <==> ValidPolicy(doc)
  {
    if ValidPolicy(doc) {
      CleanListRoundTrip(doc.allowedCategories.value);
      CleanListRoundTrip(doc.blockedSkus.value);
      assert Validate(doc).Ok? && Validate(doc).value == doc;
    }
  }

  lemma ValidationIdempotent(doc: Doc)
    requires Validate(doc).Ok?
    ensures Validate(Validate(doc).value) == Validate(doc)
  {
    ValidationFixpoints(Validate(doc).value);
  }

  /** What the gate reads before the merchant has stored a policy of its own. */
  const DEFAULT_POLICY: Doc := Doc(
    Some(JInt(500000)), Some(JList([JStr("footwear"), JStr("apparel"), JStr("accessories"), JStr("fitness")])),
    Some(JList([])), Some(JInt(5)), Some(JBool(true)), Some(JInt(0)), Some(JInt(30)), {})

  lemma DefaultPolicyIsValid()
    ensures ValidPolicy(DEFAULT_POLICY)
  {
    var names := ["footwear", "apparel", "accessories", "fitness"];
    assert names[0][0] != names[1][0] && names[0][0] == names[3][0] && names[0][1] != names[3][1];
    assert names[1][1] != names[2][1] && names[1][0] != names[3][0] && names[2][0] != names[3][0];
  }
}
