/**
 * One server's inventory: category -> item name -> {price, stock, image}, as the
 * JSON files hold it, and the edits the admin forms make to it between a load
 * and a save.
 */
module Catalog {
  import opened Wrappers

  /** One inventory entry. The bot stores whatever `float()` and `int()` produced, sign included. */
  datatype ItemInfo = ItemInfo(price: real, stock: int, image: string)

  type Items = map<string, ItemInfo>
  type Inventory = map<string, Items>

  /** No category is left without items. */
  predicate NoEmptyCategory(inv: Inventory) {
    forall c :: c in inv ==> inv[c] != map[]
  }

  predicate Has(inv: Inventory, category: string, name: string) {
    category in inv && name in inv[category]
  }

  /** The category's items, or `{}` when it is absent (`inventory.get(category, {})`). */
  function ItemsOf(inv: Inventory, category: string): Items {
    if category in inv then inv[category] else map[]
  }

  /** The write of `AddItemModal.on_submit`: create the category when absent, then set the item. */
  function Upsert(inv: Inventory, category: string, name: string, info: ItemInfo): (r: Inventory)
    ensures Has(r, category, name) && r[category][name] == info
    ensures r.Keys == inv.Keys + {category}
    ensures r[category].Keys == ItemsOf(inv, category).Keys + {name}
    ensures forall c :: c in inv && c != category ==> r[c] == inv[c]
    ensures forall n :: n in ItemsOf(inv, category) && n != name ==> r[category][n] == inv[category][n]
  {
    inv[category := ItemsOf(inv, category)[name := info]]
  }

  /** The delete of `RemoveItemSelect.callback` and `DeleteItemDropdown.callback`: drop the item,
      then the category if that emptied it; `None` when the item is not there. */
  function Remove(inv: Inventory, category: string, name: string): (r: Option<Inventory>)
    ensures r.Some? <==> Has(inv, category, name)
    ensures r.Some? ==> !Has(r.value, category, name)
    ensures r.Some? ==> (category in r.value <==> inv[category].Keys != {name})
    ensures r.Some? && category in r.value ==> r.value[category].Keys == inv[category].Keys - {name}
    ensures r.Some? ==> r.value.Keys <= inv.Keys
    ensures r.Some? ==> forall c :: c in inv && c != category ==> c in r.value && r.value[c] == inv[c]
    ensures r.Some? ==> forall n :: n in inv[category] && n != name ==> r.value[category][n] == inv[category][n]
  {
    if Has(inv, category, name) then
      var rest := inv[category] - {name};
      assert rest.Keys == inv[category].Keys - {name};
      if rest == map[] then
        assert rest.Keys == {};
        assert inv[category].Keys == {name};
        Some(inv - {category})
      else
        assert inv[category].Keys != {name} by {
          var n :| n in rest;
        }
        Some(inv[category := rest])
    else None
  }

  /** The write of `EditItemModal.on_submit`. `None` is the `KeyError` the code raises: at
      ShopBot.py:774 when the name changed and the old entry (or its category) is gone, at :776
      when the category is gone. An unchanged name whose entry is gone is simply written. */
  function Edit(inv: Inventory, category: string, oldName: string, newName: string, info: ItemInfo): (r: Option<Inventory>)
    ensures r.Some? <==> category in inv && (oldName == newName || oldName in inv[category])
    ensures r.Some? ==> Has(r.value, category, newName) && r.value[category][newName] == info
    ensures r.Some? ==> r.value.Keys == inv.Keys
    ensures r.Some? && oldName != newName ==> oldName !in r.value[category]
    ensures r.Some? ==> r.value[category].Keys == (inv[category].Keys - {oldName}) + {newName}
    ensures r.Some? ==> forall c :: c in inv && c != category ==> r.value[c] == inv[c]
    ensures r.Some? ==> forall n :: n in inv[category] && n != oldName && n != newName ==>
      r.value[category][n] == inv[category][n]
  {
    if category !in inv || (oldName != newName && oldName !in inv[category]) then None
    else
      var kept := if oldName != newName then inv[category] - {oldName} else inv[category];
      Some(inv[category := kept[newName := info]])
  }

  /** The browse filter of ShopBot.py:440-443: only items with positive stock are offered. */
  function InStock(items: Items): (r: Items)
    ensures forall n :: n in r <==> n in items && items[n].stock > 0
    ensures forall n :: n in r ==> r[n] == items[n]
  {
    map n | n in items && items[n].stock > 0 :: items[n]
  }

  /** Adding keeps every category non-empty. */
  lemma UpsertKeepsCategories(inv: Inventory, category: string, name: string, info: ItemInfo)
    requires NoEmptyCategory(inv)
    ensures NoEmptyCategory(Upsert(inv, category, name, info))
  {
    var r := Upsert(inv, category, name, info);
    forall c | c in r ensures r[c] != map[] {
      if c == category {
        assert name in r[c];
      } else {
        assert r[c] == inv[c];
      }
    }
  }

  /** Deleting keeps every category non-empty: the emptied category itself is pruned. */
  lemma RemoveKeepsCategories(inv: Inventory, category: string, name: string)
    requires NoEmptyCategory(inv) && Has(inv, category, name)
    ensures NoEmptyCategory(Remove(inv, category, name).value)
  {
    var r := Remove(inv, category, name).value;
    forall c | c in r ensures r[c] != map[] {
      if c == category {
        assert r[c].Keys == inv[c].Keys - {name} && inv[c].Keys != {name};
        var n :| n in inv[c] && n != name;
        assert n in r[c];
      } else {
        assert r[c] == inv[c];
      }
    }
  }

  /** Editing keeps every category non-empty: the edited category holds the new name. */
  lemma EditKeepsCategories(inv: Inventory, category: string, oldName: string, newName: string, info: ItemInfo)
    requires NoEmptyCategory(inv) && Edit(inv, category, oldName, newName, info).Some?
    ensures NoEmptyCategory(Edit(inv, category, oldName, newName, info).value)
  {
    var r := Edit(inv, category, oldName, newName, info).value;
    forall c | c in r ensures r[c] != map[] {
      if c == category {
        assert newName in r[c];
      } else {
        assert r[c] == inv[c];
      }
    }
  }

  /** Deleting a freshly added item restores the inventory, the created category included. */
  lemma RemoveUndoesUpsert(inv: Inventory, category: string, name: string, info: ItemInfo)
    requires NoEmptyCategory(inv) && !Has(inv, category, name)
    ensures Remove(Upsert(inv, category, name, info), category, name) == Some(inv)
  {
    var u := Upsert(inv, category, name, info);
    var r := Remove(u, category, name).value;
    if category in inv {
      assert inv[category] != map[];
      var n :| n in inv[category];
      assert n != name && n in u[category];
      assert category in r;
      assert r[category] == inv[category];
    } else {
      assert u[category].Keys == {name};
      assert category !in r;
    }
    assert r == inv;
  }

  /** Adding back a deleted entry with its old value restores the inventory. */
  lemma UpsertUndoesRemove(inv: Inventory, category: string, name: string)
    requires Has(inv, category, name)
    ensures Upsert(Remove(inv, category, name).value, category, name, inv[category][name]) == inv
  {
    var r := Remove(inv, category, name).value;
    var u := Upsert(r, category, name, inv[category][name]);
    assert u[category] == inv[category];
    assert u == inv;
  }

  /** A rename or overwrite by `EditItemModal` is a delete of the old entry followed by an add of
      the new one, in one load-save cycle. */
  lemma EditIsRemoveThenUpsert(inv: Inventory, category: string, oldName: string, newName: string, info: ItemInfo)
    requires Has(inv, category, oldName)
    ensures Edit(inv, category, oldName, newName, info) == Some(Upsert(Remove(inv, category, oldName).value, category, newName, info))
  {
    var e := Edit(inv, category, oldName, newName, info).value;
    var u := Upsert(Remove(inv, category, oldName).value, category, newName, info);
    assert e[category] == u[category];
    assert e == u;
  }

  /** What the browse view shows of a category after an add depends only on the new stock. */
  lemma UpsertVisibleIffStocked(inv: Inventory, category: string, name: string, info: ItemInfo)
    ensures var shown := InStock(ItemsOf(Upsert(inv, category, name, info), category));
      (name in shown <==> info.stock > 0) &&
      (name in shown ==> shown[name] == info)
  {
  }
}
