/**
 * The menu handlers: adding, editing, restocking and deleting items, and listing a
 * canteen's menu. They are the only writers of stock besides the order paths, and
 * they overwrite it with an absolute value.
 */
module MenuController {
  import opened Wrappers
  import opened DocumentIds
  import opened Text
  import opened CanteenModel
  import opened MenuItemModel
  import opened Inventory
  import opened StoreModel

  /**
   * The fields updateMenuItem assigns before saving: the name only when the new one
   * is non-empty, price and stock whenever given (0 included); then the save, which
   * trims the name and rejects an empty name or negative stock.
   */
  function Edited(m: MenuItem, name: string, price: Option<int>, availableQuantity: Option<int>): (r: Option<MenuItem>)
    ensures r.Some? ==> r.value.canteenId == m.canteenId
    ensures r.Some? ==> r.value.price == (if price.Some? then price.value else m.price)
    ensures r.Some? ==> r.value.availableQuantity == (if availableQuantity.Some? then availableQuantity.value else m.availableQuantity)
    ensures r.Some? ==> r.value.name == Trim(if name != [] then name else m.name)
    ensures r.Some? ==> MenuItemModel.SchemaValid(r.value)
  {
    Saved(if name != [] then name else m.name,
          Some(if price.Some? then price.value else m.price),
          Some(if availableQuantity.Some? then availableQuantity.value else m.availableQuantity),
          m.canteenId)
  }

  /** An edit that provides nothing saves the item as it was. */
  lemma EmptyEditKeepsItem(m: MenuItem)
    requires MenuItemModel.SchemaValid(m)
    ensures Edited(m, [], None, None) == Some(m)
  {
  }

  /** An edit fails exactly when the name it leaves trims to nothing or the stock it leaves is negative. */
  lemma EditFailure(m: MenuItem, name: string, price: Option<int>, availableQuantity: Option<int>)
    requires MenuItemModel.SchemaValid(m)
    ensures Edited(m, name, price, availableQuantity).None? <==>
      (name != [] && Trim(name) == []) || (availableQuantity.Some? && availableQuantity.value < 0)
  {
  }

  /** The stock overwrite of updateItemQuantity (and of an edit that sets stock). */
  function WithQuantity(items: Stock, id: string, quantity: int): (r: Stock)
    requires id in items
    ensures r.Keys == items.Keys && r[id].availableQuantity == quantity
    ensures r[id].name == items[id].name && r[id].price == items[id].price && r[id].canteenId == items[id].canteenId
    ensures forall k | k in items && k != id :: r[k] == items[k]
  {
    items[id := items[id].(availableQuantity := quantity)]
  }

  /**
   * The overwrite does not compose with reservations: a reservation taken just before
   * it is forgotten, and giving that reservation back afterwards raises stock above
   * the value the administrator set.
   */
  lemma OverwriteForgetsReservation(items: Stock, id: string, taken: int, quantity: int)
    requires id in items
    ensures WithQuantity(Take(items, id, taken), id, quantity) == WithQuantity(items, id, quantity)
    ensures Restock(WithQuantity(Take(items, id, taken), id, quantity), id, taken)[id].availableQuantity == quantity + taken
  {
  }

  /**
   * getCanteenMenu: the items of the canteen, nothing else. The filter casts the route's
   * id, so any spelling of the canteen's id lists its items; an id that does not cast
   * makes the query throw, which is answered 500 (None here).
   */
  function CanteenMenu(items: Stock, canteenId: string): (r: Option<Stock>)
    ensures r.None? <==> !IsObjectIdHex(canteenId)
    ensures r.Some? ==> forall k :: k in r.value <==> k in items && items[k].canteenId == ObjectIdOf(canteenId)
    ensures r.Some? ==> forall k | k in r.value :: r.value[k] == items[k]
  {
    if !IsObjectIdHex(canteenId) then None
    else
      var id := ObjectIdOf(canteenId);
      Some(map k | k in items && items[k].canteenId == id :: items[k])
  }

  /**
   * Two spellings of one canteen id list the same menu, and the menus of two different
   * canteens share no item.
   */
  lemma MenusPartitionStock(items: Stock, c1: string, c2: string)
    requires IsObjectIdHex(c1) && IsObjectIdHex(c2)
    ensures ObjectIdOf(c1) == ObjectIdOf(c2) ==> CanteenMenu(items, c1) == CanteenMenu(items, c2)
    ensures ObjectIdOf(c1) != ObjectIdOf(c2) ==>
      forall k :: !(k in CanteenMenu(items, c1).value && k in CanteenMenu(items, c2).value)
  {
  }

  /**
   * When every stored canteen id is in the form a cast leaves it, the menus together make
   * up the stock: each item is on the menu of the canteen it names.
   */
  lemma MenusCoverStock(items: Stock)
    requires forall k | k in items :: IsObjectIdHex(items[k].canteenId) && ObjectIdOf(items[k].canteenId) == items[k].canteenId
    ensures forall k | k in items :: k in CanteenMenu(items, items[k].canteenId).value
  {
  }

  /**
   * addMenuItem: the canteen of the route must exist and the caller be an admin or its
   * owner; the item saved carries the route's canteen. `key` is the fresh document id.
   * An id that is not 24 hex digits makes the lookup throw, which is answered 500.
   */
  method AddMenuItem(s: Store, user: User, canteenId: string, name: string, price: Option<int>, availableQuantity: Option<int>, key: string)
    returns (code: int)
    requires s.Valid() && key !in s.items
    modifies s
    ensures s.Valid()
    ensures s.canteens == old(s.canteens) && s.orders == old(s.orders) && s.payments == old(s.payments) && s.invalidated == old(s.invalidated)
    ensures code != 201 ==> s.items == old(s.items)
    ensures !IsObjectIdHex(canteenId) ==> code == 500
    ensures IsObjectIdHex(canteenId) ==>
      var id := ObjectIdOf(canteenId);
      && (id !in old(s.canteens) ==> code == 404)
      && (id in old(s.canteens) && !MayManage(user, Some(old(s.canteens)[id])) ==> code == 403)
      && (id in old(s.canteens) && MayManage(user, Some(old(s.canteens)[id])) ==>
            var m := Saved(name, price, availableQuantity, id);
            && (m.None? ==> code == 500)
            && (m.Some? ==> code == 201 && s.items == old(s.items)[key := m.value] && m.value.canteenId == id))
  {
    if !IsObjectIdHex(canteenId) {
      return 500;
    }
    var id := ObjectIdOf(canteenId);
    var canteen := CanteenOf(s.canteens, id);
    if canteen.None? {
      return 404;
    }
    if !MayManage(user, canteen) {
      return 403;
    }
    var m := Saved(name, price, availableQuantity, id);
    if m.None? {
      return 500;
    }
    s.items := s.items[key := m.value];
    code := 201;
  }

  /** updateMenuItem: no ownership check; a malformed id is 500, a missing item 404, a rejected save 500. */
  method UpdateMenuItem(s: Store, itemId: string, name: string, price: Option<int>, availableQuantity: Option<int>)
    returns (code: int)
    requires s.Valid()
    modifies s
    ensures s.Valid()
    ensures s.canteens == old(s.canteens) && s.orders == old(s.orders) && s.payments == old(s.payments) && s.invalidated == old(s.invalidated)
    ensures !IsObjectIdHex(itemId) ==> code == 500 && s.items == old(s.items)
    ensures IsObjectIdHex(itemId) ==>
      var id := ObjectIdOf(itemId);
      && (id !in old(s.items) ==> code == 404 && s.items == old(s.items))
      && (id in old(s.items) ==>
            var m := Edited(old(s.items)[id], name, price, availableQuantity);
            && (m.None? ==> code == 500 && s.items == old(s.items))
            && (m.Some? ==> code == 200 && s.items == old(s.items)[id := m.value]))
  {
    if !IsObjectIdHex(itemId) {
      return 500;
    }
    var id := ObjectIdOf(itemId);
    if id !in s.items {
      return 404;
    }
    var m := Edited(s.items[id], name, price, availableQuantity);
    if m.None? {
      return 500;
    }
    s.items := s.items[id := m.value];
    code := 200;
  }

  /** updateItemQuantity: an absolute overwrite when a quantity is given, else no change; a malformed id is 500. */
  method UpdateItemQuantity(s: Store, itemId: string, quantity: Option<int>) returns (code: int)
    requires s.Valid()
    modifies s
    ensures s.Valid()
    ensures s.canteens == old(s.canteens) && s.orders == old(s.orders) && s.payments == old(s.payments) && s.invalidated == old(s.invalidated)
    ensures !IsObjectIdHex(itemId) ==> code == 500 && s.items == old(s.items)
    ensures IsObjectIdHex(itemId) ==>
      var id := ObjectIdOf(itemId);
      && (id !in old(s.items) ==> code == 404 && s.items == old(s.items))
      && (id in old(s.items) && quantity.None? ==> code == 200 && s.items == old(s.items))
      && (id in old(s.items) && quantity.Some? && quantity.value < 0 ==> code == 500 && s.items == old(s.items))
      && (id in old(s.items) && quantity.Some? && quantity.value >= 0 ==>
            code == 200 && s.items == WithQuantity(old(s.items), id, quantity.value))
  {
    if !IsObjectIdHex(itemId) {
      return 500;
    }
    var id := ObjectIdOf(itemId);
    if id !in s.items {
      return 404;
    }
    if quantity.Some? {
      if quantity.value < 0 {
        return 500;
      }
      s.items := WithQuantity(s.items, id, quantity.value);
    }
    code := 200;
  }

  /** deleteMenuItem: the item is removed; orders that still name it keep their lines; a malformed id is 500. */
  method DeleteMenuItem(s: Store, itemId: string) returns (code: int)
    requires s.Valid()
    modifies s
    ensures s.Valid()
    ensures s.canteens == old(s.canteens) && s.orders == old(s.orders) && s.payments == old(s.payments) && s.invalidated == old(s.invalidated)
    ensures !IsObjectIdHex(itemId) ==> code == 500 && s.items == old(s.items)
    ensures IsObjectIdHex(itemId) ==>
      var id := ObjectIdOf(itemId);
      && (id !in old(s.items) ==> code == 404 && s.items == old(s.items))
      && (id in old(s.items) ==> code == 200 && s.items == old(s.items) - {id})
  {
    if !IsObjectIdHex(itemId) {
      return 500;
    }
    var id := ObjectIdOf(itemId);
    if id !in s.items {
      return 404;
    }
    s.items := s.items - {id};
    code := 200;
  }

  /** Giving back stock of a deleted item changes nothing: the increment matches no document. */
  lemma {:induction false} ReleaseAfterDelete(items: Stock, id: string, rs: seq<Reservation>)
    requires forall i :: 0 <= i < |rs| ==> rs[i].id == id
    ensures ReleaseAll(items - {id}, rs) == items - {id}
  {
    if rs != [] {
      ReleaseAfterDelete(items, id, rs[..|rs| - 1]);
    }
  }
}
