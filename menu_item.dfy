/** The menu item record and what its schema lets a save store. */
module MenuItemModel {
  import opened Wrappers
  import opened Text

  /** A menu item: a priced dish of exactly one canteen with a stock counter. */
  datatype MenuItem = MenuItem(name: string, price: int, availableQuantity: int, canteenId: string)

  /** The schema's constraints: a trimmed non-empty name, stock not below 0, an owning canteen. */
  predicate SchemaValid(m: MenuItem) {
    && m.name != []
    && Trim(m.name) == m.name
    && m.availableQuantity >= 0
    && m.canteenId != []
  }

  /**
   * Assigning the fields of a document and saving it: the name setter trims, and the
   * save fails (None) when a required field is missing, the trimmed name is empty or
   * the stock is below 0. Price has no bound.
   */
  function Saved(name: string, price: Option<int>, availableQuantity: Option<int>, canteenId: string): (r: Option<MenuItem>)
    ensures r.Some? <==>
      Trim(name) != [] && price.Some? && availableQuantity.Some? && availableQuantity.value >= 0 && canteenId != []
    ensures r.Some? ==> SchemaValid(r.value)
    ensures r.Some? ==> r.value == MenuItem(Trim(name), price.value, availableQuantity.value, canteenId)
  {
    TrimIdempotent(name);
    if Trim(name) != [] && price.Some? && availableQuantity.Some? && availableQuantity.value >= 0 && canteenId != [] then
      Some(MenuItem(Trim(name), price.value, availableQuantity.value, canteenId))
    else
      None
  }

  /**
   * A name made only of whitespace (a no-break space or a byte order mark included)
   * trims to nothing, so `required` refuses the save whatever the other fields are.
   */
  lemma WhitespaceNameRefused(name: string, price: Option<int>, availableQuantity: Option<int>, canteenId: string)
    requires forall i :: 0 <= i < |name| ==> IsWhitespace(name[i])
    ensures Saved(name, price, availableQuantity, canteenId).None?
  {
    TrimEmpty(name);
  }
}
