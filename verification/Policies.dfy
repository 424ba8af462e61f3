/** Which policy documents a merchant can store, and what the stored one then says, with the validation left out of it. */
module Policies {
  import opened Basics
  import opened Policy
  import opened Gate
  import opened PlainGate

  // ---- blank text --------------------------------------------------------------------------------

  const WHITE: set<char> := {' ', '\t', '\n', '\U{b}', '\U{c}', '\r', '\U{1c}', '\U{1d}', '\U{1e}', '\U{1f}'}

  predicate AllWhite(s: string) { forall i | 0 <= i < |s| :: s[i] in WHITE }

  lemma SpaceIsWhite(c: char)
    ensures IsSpace(c) <==> c in WHITE
  {
  }

  lemma {:induction false} LeftStripped(s: string) returns (i: nat)
    ensures i <= |s| && StripLeft(s) == s[i..] && AllWhite(s[..i])
    ensures i < |s| ==> s[i] !in WHITE
  {
    i := 0;
    if s != "" {
      SpaceIsWhite(s[0]);
      if IsSpace(s[0]) {
        var j := LeftStripped(s[1..]);
        i := j + 1;
        assert s[..i] == [s[0]] + s[1..][..j];
      }
    }
  }

  lemma {:induction false} RightStripped(s: string) returns (i: nat)
    ensures i <= |s| && StripRight(s) == s[..i] && AllWhite(s[i..])
    ensures i > 0 ==> s[i - 1] !in WHITE
  {
    i := |s|;
    if s != "" {
      SpaceIsWhite(s[|s| - 1]);
      if IsSpace(s[|s| - 1]) {
        i := RightStripped(s[..|s| - 1]);
        assert s[i..] == s[..|s| - 1][i..] + [s[|s| - 1]];
      }
    }
  }

  /** Stripping takes whitespace off both ends and nothing else; what is left is empty exactly if all of it was white. */
  lemma StripMeans(s: string) returns (i: nat, j: nat)
    ensures i <= j <= |s| && Strip(s) == s[i..j] && AllWhite(s[..i]) && AllWhite(s[j..])
    ensures i < j ==> s[i] !in WHITE && s[j - 1] !in WHITE
    ensures Strip(s) == "" <==> AllWhite(s)
  {
    i := LeftStripped(s);
    var n := RightStripped(s[i..]);
    j := i + n;
    assert s[j..] == s[i..][n..];
    assert s == s[..i] + s[i..j] + s[j..];
  }

  // ---- documents ---------------------------------------------------------------------------------

  predicate AtLeast(v: Option<Json>, n: int) { v.Some? && v.value.JInt? && v.value.n >= n }

  predicate Listed(v: Option<Json>) {
    v.Some? && v.value.JList? && forall i | 0 <= i < |v.value.xs| :: v.value.xs[i].JStr? && !AllWhite(v.value.xs[i].s)
  }

  /** Every required key is there, every value is of its kind, and nothing else is. */
  predicate Storable(doc: Doc) {
    && doc.otherKeys == {}
    && AtLeast(doc.maxOrder, 0) && AtLeast(doc.maxQtyPerLine, 1) && doc.inStockOnly in {Some(JBool(true)), Some(JBool(false))}
    && (doc.reviewAbove.None? || AtLeast(doc.reviewAbove, 0)) && (doc.refundWindow.None? || AtLeast(doc.refundWindow, 0))
    && Listed(doc.allowedCategories) && Listed(doc.blockedSkus)
  }

  lemma ListedMeans(v: Json)
    ensures StrList(v).Some? <==> Listed(Some(v))
  {
    if v.JList? {
      forall i | 0 <= i < |v.xs| && v.xs[i].JStr? ensures Strip(v.xs[i].s) == "" <==> AllWhite(v.xs[i].s) {
        var _, _ := StripMeans(v.xs[i].s);
      }
    }
  }

  /** A document is accepted exactly if it is storable. */
  lemma AcceptedIffStorable(doc: Doc)
    ensures Validate(doc).Ok? <==> Storable(doc)
  {
    if doc.allowedCategories.Some? {
      ListedMeans(doc.allowedCategories.value);
    }
    if doc.blockedSkus.Some? {
      ListedMeans(doc.blockedSkus.value);
    }
  }

  /** The names of a list, each with the whitespace at its ends taken off. */
  predicate SameNames(v: Json, names: seq<string>)
    requires v.JList? && forall i | 0 <= i < |v.xs| :: v.xs[i].JStr?
  {
    && (forall i | 0 <= i < |v.xs| :: Strip(v.xs[i].s) in names)
    && (forall i | 0 <= i < |names| :: exists j :: 0 <= j < |v.xs| && Strip(v.xs[j].s) == names[i])
    && (forall i, j | 0 <= i < j < |names| :: names[i] != names[j])
  }

  lemma CleanedSameNames(v: Json)
    requires StrList(v).Some?
    ensures v.JList? && (forall i | 0 <= i < |v.xs| :: v.xs[i].JStr?) && SameNames(v, StrList(v).value)
  {
    var raw, names := Strips(v.xs), StrList(v).value;
    forall i | 0 <= i < |v.xs| ensures Strip(v.xs[i].s) in names {
      assert raw[i] in raw;
    }
    forall i | 0 <= i < |names| ensures exists j :: 0 <= j < |v.xs| && Strip(v.xs[j].s) == names[i] {
      assert names[i] in raw;
      var j :| 0 <= j < |raw| && raw[j] == names[i];
      assert Strip(v.xs[j].s) == names[i];
    }
  }

  /** What an accepted document says once stored: its own numbers and its own names, stripped and each once; a review
      threshold of 0 and a refund window of 30 days where it says nothing. */
  lemma StoredSaysAsAsked(doc: Doc) returns (t: Terms)
    requires Validate(doc).Ok?
    ensures Says(Validate(doc).value, t)
    ensures doc.maxOrder == Some(JInt(t.maxOrder)) && doc.maxQtyPerLine == Some(JInt(t.maxQty))
    ensures doc.inStockOnly == Some(JBool(t.inStockOnly))
    ensures Number(doc.reviewAbove, t.reviewAbove, 0) && Number(doc.refundWindow, t.refundDays, 30)
    ensures Listed(doc.allowedCategories) && SameNames(doc.allowedCategories.value, t.categories)
    ensures Listed(doc.blockedSkus) && SameNames(doc.blockedSkus.value, t.blocked)
  {
    AcceptedIffStorable(doc);
    CleanedSameNames(doc.allowedCategories.value);
    CleanedSameNames(doc.blockedSkus.value);
    t := Terms(doc.maxOrder.value.n, StrList(doc.allowedCategories.value).value, StrList(doc.blockedSkus.value).value,
               doc.maxQtyPerLine.value.n, doc.inStockOnly.value.b, Validate(doc).value.reviewAbove.value.n,
               Validate(doc).value.refundWindow.value.n);
  }

  // ---- what the gate reads of any document -------------------------------------------------------

  /** The gate's reading of values that no stored policy has: any value that Python takes for false turns stock off, only a
      positive number is a threshold, and a boolean limit counts as 0 or 1. */
  lemma ReadersMean(p: Doc)
    ensures StockRequired(p) <==>
              p.inStockOnly !in {Some(JNull), Some(JBool(false)), Some(JInt(0)), Some(JStr("")), Some(JList([]))}
    ensures forall n :: Threshold(p) == Some(n) <==> p.reviewAbove == Some(JInt(n)) && n > 0
    ensures forall n :: MaxQty(p) == Some(n) <==>
              || p.maxQtyPerLine == Some(JInt(n)) || (p.maxQtyPerLine == None && n == 20)
              || (p.maxQtyPerLine == Some(JBool(true)) && n == 1) || (p.maxQtyPerLine == Some(JBool(false)) && n == 0)
  {
  }
}
