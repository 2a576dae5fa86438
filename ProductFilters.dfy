/**
 * The filter panel: a price range and two selection lists (categories, brands).
 * Checking a box appends its id, unchecking filters every occurrence out, and each
 * change emits the full filter record to the page that hosts the panel.
 */
module ProductFilters {
  import opened Wrappers

  const DefaultPriceRange: seq<real> := [0.0, 1000.0]

  /** The record passed to the host page on every change. */
  datatype EmittedFilter = EmittedFilter(price: seq<real>, categories: seq<string>, brands: seq<string>)

  /** The fields one change supplies; a missing field is taken from the panel's current state. */
  datatype FilterUpdate = FilterUpdate(price: Option<seq<real>>, categories: Option<seq<string>>, brands: Option<seq<string>>)

  /** Every occurrence of the id filtered out, the other ids kept in order. */
  function Without(selected: seq<string>, id: string): (r: seq<string>)
    ensures id !in r
    ensures forall x :: x in r ==> x in selected
    ensures id !in selected ==> r == selected
    ensures |r| <= |selected|
    decreases |selected|
  {
    if selected == [] then []
    else
      var last := selected[|selected| - 1];
      Without(selected[..|selected| - 1], id) + (if last == id then [] else [last])
  }

  /** Unchecking keeps every other id. */
  lemma {:induction false} WithoutKeepsOthers(selected: seq<string>, id: string, x: string)
    requires x in selected && x != id
    ensures x in Without(selected, id)
    decreases |selected|
  {
    var front, last := selected[..|selected| - 1], selected[|selected| - 1];
    assert selected == front + [last];
    if x != last {
      WithoutKeepsOthers(front, id, x);
    }
  }

  /** Unchecking distributes over concatenation, so the surviving ids keep their order. */
  lemma {:induction false} WithoutDistributes(a: seq<string>, b: seq<string>, id: string)
    ensures Without(a + b, id) == Without(a, id) + Without(b, id)
    decreases |b|
  {
    if b == [] {
      assert a + b == a;
    } else {
      var b' := b[..|b| - 1];
      assert (a + b)[..|a + b| - 1] == a + b';
      WithoutDistributes(a, b', id);
    }
  }

  /** The new selection list for a checkbox change: append on check (no duplicate guard), filter on uncheck. */
  function Toggled(selected: seq<string>, id: string, checked: bool): (r: seq<string>)
    ensures checked ==> |r| == |selected| + 1 && r[..|selected|] == selected && r[|selected|] == id
    ensures !checked ==> id !in r && r == Without(selected, id)
  {
    if checked then selected + [id] else Without(selected, id)
  }

  /** The emitted record: each supplied field, or the current state for the others. */
  function Emit(priceRange: seq<real>, categories: seq<string>, brands: seq<string>, update: FilterUpdate): (r: EmittedFilter)
    ensures update.price.None? ==> r.price == priceRange
    ensures update.categories.None? ==> r.categories == categories
    ensures update.brands.None? ==> r.brands == brands
    ensures update.price.Some? ==> r.price == update.price.value
    ensures update.categories.Some? ==> r.categories == update.categories.value
    ensures update.brands.Some? ==> r.brands == update.brands.value
  {
    EmittedFilter(
      if update.price.Some? then update.price.value else priceRange,
      if update.categories.Some? then update.categories.value else categories,
      if update.brands.Some? then update.brands.value else brands)
  }

  /** The panel's state cells. */
  class FilterPanel {
    var priceRange: seq<real>
    var selectedCategories: seq<string>
    var selectedBrands: seq<string>

    constructor ()
      ensures priceRange == DefaultPriceRange && selectedCategories == [] && selectedBrands == []
    {
      priceRange := DefaultPriceRange;
      selectedCategories := [];
      selectedBrands := [];
    }

    method HandlePriceChange(values: seq<real>) returns (emitted: EmittedFilter)
      modifies this`priceRange
      ensures priceRange == values
      ensures emitted == EmittedFilter(values, selectedCategories, selectedBrands)
    {
      priceRange := values;
      emitted := Emit(priceRange, selectedCategories, selectedBrands, FilterUpdate(Some(values), None, None));
    }

    /** A category change: the list is toggled; the emitted brands and price are the current state. */
    method HandleCategoryChange(categoryId: string, checked: bool) returns (emitted: EmittedFilter)
      modifies this`selectedCategories
      ensures selectedCategories == Toggled(old(selectedCategories), categoryId, checked)
      ensures emitted == EmittedFilter(priceRange, selectedCategories, selectedBrands)
    {
      var newCategories := Toggled(selectedCategories, categoryId, checked);
      emitted := Emit(priceRange, selectedCategories, selectedBrands, FilterUpdate(None, Some(newCategories), None));
      selectedCategories := newCategories;
    }

    /** A brand change obeys the same rules as a category change. */
    method HandleBrandChange(brandId: string, checked: bool) returns (emitted: EmittedFilter)
      modifies this`selectedBrands
      ensures selectedBrands == Toggled(old(selectedBrands), brandId, checked)
      ensures emitted == EmittedFilter(priceRange, selectedCategories, selectedBrands)
    {
      var newBrands := Toggled(selectedBrands, brandId, checked);
      emitted := Emit(priceRange, selectedCategories, selectedBrands, FilterUpdate(None, None, Some(newBrands)));
      selectedBrands := newBrands;
    }

    /** Reset: price [0, 1000] and empty lists, both in state and in the emitted record. */
    method ResetFilters() returns (emitted: EmittedFilter)
      modifies this
      ensures priceRange == DefaultPriceRange && selectedCategories == [] && selectedBrands == []
      ensures emitted == EmittedFilter(DefaultPriceRange, [], [])
    {
      priceRange := DefaultPriceRange;
      selectedCategories := [];
      selectedBrands := [];
      emitted := EmittedFilter(DefaultPriceRange, [], []);
    }
  }
}
