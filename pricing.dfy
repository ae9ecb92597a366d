/** Order totals and priority as the funnel computes them (src/App.tsx).
    Each currency is summed on its own: the package price plus the prices of
    the selected add-ons, with no conversion between dollars and gourdes. */
module Pricing {
  import opened Values
  import opened Catalogue
  import opened Selection

  datatype Currency = USD | HTG

  function AddOnPrice(o: AddOn, c: Currency): int
  {
    match c
    case USD => o.priceUSD
    case HTG => o.priceHTG
  }

  /** `selectedPackage?.priceXXX || 0`. */
  function PackagePrice(p: Option<Package>, c: Currency): int
  {
    match p
    case None => 0
    case Some(pkg) => if c == USD then pkg.priceUSD else pkg.priceHTG
  }

  /** `selectedOptions.reduce((acc, opt) => acc + opt.priceXXX, 0)`, folded from the left. */
  function OptionsSum(sel: seq<AddOn>, c: Currency): int
  {
    if sel == [] then 0 else OptionsSum(sel[..|sel| - 1], c) + AddOnPrice(sel[|sel| - 1], c)
  }

  /** `totalPriceUSD` / `totalPriceHTG`. */
  function Total(p: Option<Package>, sel: seq<AddOn>, c: Currency): int
  {
    PackagePrice(p, c) + OptionsSum(sel, c)
  }

  /** The priority the funnel attaches to a new order: "urgent" when some
      selected add-on has the id "urgent", otherwise "normal". */
  function PriorityOf(sel: seq<AddOn>): (r: string)
    ensures r == "urgent" <==> exists i :: 0 <= i < |sel| && sel[i].id == "urgent"
    ensures r == "urgent" || r == "normal"
  {
    if HasId(sel, "urgent") then "urgent" else "normal"
  }

  /** The sum over a concatenation is the sum of the sums. */
  lemma {:induction false} OptionsSumAppend(a: seq<AddOn>, b: seq<AddOn>, c: Currency)
    ensures OptionsSum(a + b, c) == OptionsSum(a, c) + OptionsSum(b, c)
  {
    if b == [] {
      assert a + b == a;
    } else {
      var b' := b[..|b| - 1];
      assert (a + b)[..|a + b| - 1] == a + b';
      assert (a + b)[|a + b| - 1] == b[|b| - 1];
      OptionsSumAppend(a, b', c);
    }
  }

  /** The sum of one currency reads only that currency's prices: two
      selections that agree on them have the same sum, whatever their
      prices in the other currency. */
  lemma {:induction false} OptionsSumReadsOneCurrency(a: seq<AddOn>, b: seq<AddOn>, c: Currency)
    requires |a| == |b|
    requires forall i :: 0 <= i < |a| ==> AddOnPrice(a[i], c) == AddOnPrice(b[i], c)
    ensures OptionsSum(a, c) == OptionsSum(b, c)
  {
    if a != [] {
      OptionsSumReadsOneCurrency(a[..|a| - 1], b[..|b| - 1], c);
    }
  }

  /** A selection drawn from the catalogue never costs less than nothing. */
  lemma {:induction false} CatalogueSumNonNegative(sel: seq<AddOn>, c: Currency)
    requires forall i :: 0 <= i < |sel| ==> sel[i] in UPSELLS
    ensures OptionsSum(sel, c) >= 0
  {
    PricesPositive();
    if sel != [] {
      CatalogueSumNonNegative(sel[..|sel| - 1], c);
    }
  }

  /** With a catalogue package and catalogue add-ons, both totals are positive
      and at least the package price. */
  lemma CatalogueTotalPositive(p: Package, sel: seq<AddOn>, c: Currency)
    requires p in AllPackages()
    requires forall i :: 0 <= i < |sel| ==> sel[i] in UPSELLS
    ensures Total(Some(p), sel, c) >= PackagePrice(Some(p), c) > 0
  {
    PricesPositive();
    CatalogueSumNonNegative(sel, c);
  }

  /** Selecting an add-on that was not selected raises each total by its price. */
  lemma ToggleOnAddsPrice(p: Option<Package>, sel: seq<AddOn>, opt: AddOn, c: Currency)
    requires !HasId(sel, opt.id)
    ensures Total(p, Toggle(sel, opt), c) == Total(p, sel, c) + AddOnPrice(opt, c)
  {
    ToggleAbsentAppends(sel, opt);
    OptionsSumAppend(sel, [opt], c);
  }

  /** Removing an id held by a single entry leaves the entries around it. */
  lemma RemoveSingleEntry(before: seq<AddOn>, x: AddOn, after: seq<AddOn>)
    requires !HasId(before, x.id) && !HasId(after, x.id)
    ensures RemoveId(before + [x] + after, x.id) == before + after
  {
    var single := [x];
    assert single[1..] == [];
    assert RemoveId(single, x.id) == [];
    RemoveIdAppend(before, single, x.id);
    RemoveAbsentId(before, x.id);
    assert RemoveId(before + single, x.id) == before;
    RemoveIdAppend(before + single, after, x.id);
    RemoveAbsentId(after, x.id);
  }

  /** The sum around one entry. */
  lemma SumAroundEntry(before: seq<AddOn>, x: AddOn, after: seq<AddOn>, c: Currency)
    ensures OptionsSum(before + [x] + after, c) == OptionsSum(before, c) + AddOnPrice(x, c) + OptionsSum(after, c)
    ensures OptionsSum(before + after, c) == OptionsSum(before, c) + OptionsSum(after, c)
  {
    OptionsSumAppend(before + [x], after, c);
    OptionsSumAppend(before, [x], c);
    OptionsSumAppend(before, after, c);
    assert [x][..0] == [];
  }

  /** Removing the only entry with a given id lowers the sum by its price. */
  lemma RemoveOnlyEntry(sel: seq<AddOn>, k: nat, c: Currency)
    requires k < |sel|
    requires forall i :: 0 <= i < |sel| && i != k ==> sel[i].id != sel[k].id
    ensures OptionsSum(RemoveId(sel, sel[k].id), c) == OptionsSum(sel, c) - AddOnPrice(sel[k], c)
  {
    var id := sel[k].id;
    var before, after := sel[..k], sel[k + 1..];
    assert sel == before + [sel[k]] + after;
    assert !HasId(before, id) by {
      forall i | 0 <= i < |before| ensures before[i].id != id { assert before[i] == sel[i]; }
    }
    assert !HasId(after, id) by {
      forall i | 0 <= i < |after| ensures after[i].id != id { assert after[i] == sel[k + 1 + i]; }
    }
    RemoveSingleEntry(before, sel[k], after);
    SumAroundEntry(before, sel[k], after, c);
  }

  /** Deselecting an add-on of a selection with distinct ids lowers each total
      by the price of the entry it removes. */
  lemma ToggleOffSubtractsPrice(p: Option<Package>, sel: seq<AddOn>, k: nat, opt: AddOn, c: Currency)
    requires DistinctIds(sel)
    requires k < |sel| && sel[k].id == opt.id
    ensures Total(p, Toggle(sel, opt), c) == Total(p, sel, c) - AddOnPrice(sel[k], c)
  {
    assert HasId(sel, opt.id);
    RemoveOnlyEntry(sel, k, c);
  }

  /** No selection drawn from the catalogue is ever given priority "urgent":
      the rule looks for the id "urgent" while the express add-on's id is
      "express". */
  lemma CatalogueSelectionIsNormal(sel: seq<AddOn>)
    requires forall i :: 0 <= i < |sel| ==> sel[i] in UPSELLS
    ensures PriorityOf(sel) == "normal"
  {
    NoUpsellIsUrgent();
  }

  /** Selecting "Livraison Express" leaves the priority at "normal". */
  lemma ExpressIsNotUrgent()
    ensures PriorityOf([Express]) == "normal"
  {
    NoUpsellIsUrgent();
  }

  /** Logo Basic with Livraison Express costs 50 USD and 6600 HTG. */
  lemma LogoBasicWithExpress()
    ensures Total(Some(LogoBasic), [Express], USD) == 50
    ensures Total(Some(LogoBasic), [Express], HTG) == 6600
  {
    var sel := [Express];
    assert sel[..|sel| - 1] == [];
    assert OptionsSum(sel, USD) == OptionsSum([], USD) + Express.priceUSD;
    assert OptionsSum(sel, HTG) == OptionsSum([], HTG) + Express.priceHTG;
  }
}
