/**
 * The catalogue service over the shop tables.  The database is an in-memory
 * value of four tables and three id counters; the service object holds it
 * and changes it in place, one committed write per call.  Whether the
 * database raises during a call is a parameter (`dbFails`): a failing write
 * rolls back and leaves the tables as they were, a failing read answers an
 * empty list, None or the caller's default.
 *
 * Two constraints of the schema are checked by the database itself: the
 * unique category name and, when the database enforces them
 * (`fkEnforced`), the foreign keys of subcategories and products.
 */
module ShopService {
  import opened Wrappers
  import opened ShopModels
  import opened Listing

  datatype Tables = Tables(
    categories: map<int, Category>,
    subcategories: map<int, Subcategory>,
    products: map<int, Product>,
    settings: map<string, Setting>,
    nextCategoryId: int,
    nextSubcategoryId: int,
    nextProductId: int)

  const EmptyTables: Tables := Tables(map[], map[], map[], map[], 1, 1, 1)

  /** The UNIQUE constraint on category names. */
  predicate UniqueCategoryNames(t: Tables) {
    forall a, b :: a in t.categories && b in t.categories && a != b ==> t.categories[a].name != t.categories[b].name
  }

  /** Every subcategory's category and every product's subcategory exists. */
  predicate Integrity(t: Tables) {
    && (forall s :: s in t.subcategories ==> t.subcategories[s].categoryId in t.categories)
    && (forall p :: p in t.products ==> t.products[p].subcategoryId in t.subcategories)
  }

  /** Autoincrement: every id in use is below the next one handed out. */
  predicate IdsBelowNext(t: Tables) {
    && (forall id :: id in t.categories ==> id < t.nextCategoryId)
    && (forall id :: id in t.subcategories ==> id < t.nextSubcategoryId)
    && (forall id :: id in t.products ==> id < t.nextProductId)
  }

  /** Another category than `id` already has this name. */
  predicate NameTaken(t: Tables, name: string, id: int) {
    exists other :: other in t.categories && other != id && t.categories[other].name == name
  }

  // ---------------------------------------------------------------------
  // Deletes
  // ---------------------------------------------------------------------

  /** The subcategories of a category. */
  function SubcategoriesOf(t: Tables, categoryId: int): set<int> {
    set s | s in t.subcategories && t.subcategories[s].categoryId == categoryId
  }

  /** The products in any of the given subcategories. */
  function ProductsOf(t: Tables, subs: set<int>): set<int> {
    set p | p in t.products && t.products[p].subcategoryId in subs
  }

  /** Removing a category with its subcategories and their products, as the schema's cascade says. */
  function CascadeDeleteCategory(t: Tables, id: int): (r: Tables)
    ensures r.categories == t.categories - {id}
    ensures forall s :: s in r.subcategories <==> s in t.subcategories && t.subcategories[s].categoryId != id
    ensures forall p :: p in r.products <==>
      p in t.products && t.products[p].subcategoryId !in SubcategoriesOf(t, id)
    ensures forall s :: s in r.subcategories ==> r.subcategories[s] == t.subcategories[s]
    ensures forall p :: p in r.products ==> r.products[p] == t.products[p]
    ensures r.settings == t.settings
  {
    var subs := SubcategoriesOf(t, id);
    t.(categories := t.categories - {id},
       subcategories := t.subcategories - subs,
       products := t.products - ProductsOf(t, subs))
  }

  /** Removing a subcategory with its products. */
  function CascadeDeleteSubcategory(t: Tables, id: int): (r: Tables)
    ensures r.categories == t.categories
    ensures r.subcategories == t.subcategories - {id}
    ensures forall p :: p in r.products <==> p in t.products && t.products[p].subcategoryId != id
    ensures forall p :: p in r.products ==> r.products[p] == t.products[p]
    ensures r.settings == t.settings
  {
    t.(subcategories := t.subcategories - {id}, products := t.products - ProductsOf(t, {id}))
  }

  /** A cascading delete never leaves a row without its parent. */
  lemma CascadeDeleteCategoryKeepsIntegrity(t: Tables, id: int)
    requires Integrity(t)
    ensures Integrity(CascadeDeleteCategory(t, id))
  {
    var r := CascadeDeleteCategory(t, id);
    forall p | p in r.products
      ensures r.products[p].subcategoryId in r.subcategories
    {
      var s := t.products[p].subcategoryId;
      assert s !in SubcategoriesOf(t, id);
      assert s in t.subcategories;
    }
  }

  lemma CascadeDeleteSubcategoryKeepsIntegrity(t: Tables, id: int)
    requires Integrity(t)
    ensures Integrity(CascadeDeleteSubcategory(t, id))
  {
  }

  /**
   * delete_category as written: one bulk DELETE of the category row.  The
   * schema's cascade belongs to the object layer and does not run for a bulk
   * statement, so the subcategories stay: a database that enforces the
   * foreign key refuses the statement (None), one that does not keeps them
   * as orphans.
   */
  function BulkDeleteCategory(t: Tables, id: int, fkEnforced: bool): (r: Option<Tables>)
    ensures r.None? <==> fkEnforced && SubcategoriesOf(t, id) != {}
    ensures r.Some? ==> r.value == t.(categories := t.categories - {id})
  {
    if fkEnforced && SubcategoriesOf(t, id) != {} then None
    else Some(t.(categories := t.categories - {id}))
  }

  /** delete_subcategory as written: a bulk DELETE of the subcategory row alone. */
  function BulkDeleteSubcategory(t: Tables, id: int, fkEnforced: bool): (r: Option<Tables>)
    ensures r.None? <==> fkEnforced && ProductsOf(t, {id}) != {}
    ensures r.Some? ==> r.value == t.(subcategories := t.subcategories - {id})
  {
    if fkEnforced && ProductsOf(t, {id}) != {} then None
    else Some(t.(subcategories := t.subcategories - {id}))
  }

  /** A catalogue with one category (1) holding one subcategory (10) holding one product (100). */
  function SampleCatalogue(): Tables {
    var c := NewCategory("Schuhe", Some("👟"), Some(""), Some(true), None);
    var s := NewSubcategory(1, "Sneaker", Some("👟"), Some(""), Some(true), None);
    var p := NewProduct(10, "Air", 10.0, ProductOptions(None, None, None, None, None, Some(true), Some(true), None, None));
    EmptyTables.(categories := map[1 := c], subcategories := map[10 := s], products := map[100 := p],
                 nextCategoryId := 2, nextSubcategoryId := 11, nextProductId := 101)
  }

  /**
   * The bulk delete does not cascade: deleting category 1 of the sample
   * either fails on a database that enforces foreign keys or leaves
   * subcategory 10 without its category; the cascading delete removes it.
   */
  lemma BulkDeleteCategoryDoesNotCascade()
    ensures Integrity(SampleCatalogue())
    ensures BulkDeleteCategory(SampleCatalogue(), 1, true).None?
    ensures var r := BulkDeleteCategory(SampleCatalogue(), 1, false);
      r.Some? && 10 in r.value.subcategories && !Integrity(r.value)
    ensures 10 !in CascadeDeleteCategory(SampleCatalogue(), 1).subcategories
  {
    var t := SampleCatalogue();
    assert 10 in SubcategoriesOf(t, 1);
  }

  /** The same for subcategory 10 and its product 100. */
  lemma BulkDeleteSubcategoryDoesNotCascade()
    ensures BulkDeleteSubcategory(SampleCatalogue(), 10, true).None?
    ensures var r := BulkDeleteSubcategory(SampleCatalogue(), 10, false);
      r.Some? && 100 in r.value.products && !Integrity(r.value)
    ensures 100 !in CascadeDeleteSubcategory(SampleCatalogue(), 10).products
  {
    var t := SampleCatalogue();
    assert 100 in ProductsOf(t, {10});
  }

  // ---------------------------------------------------------------------
  // Updates
  // ---------------------------------------------------------------------

  /** The optional arguments of update_product; `None` leaves a column as it is. */
  datatype ProductChanges = ProductChanges(
    name: Option<string>,
    emoji: Option<string>,
    description: Option<string>,
    pricePerUnit: Option<real>,
    unit: Option<string>,
    minQuantity: Option<int>,
    maxQuantity: Option<int>,
    isActive: Option<bool>,
    inStock: Option<bool>)

  predicate NoProductChanges(ch: ProductChanges) {
    ch == ProductChanges(None, None, None, None, None, None, None, None, None)
  }

  /**
   * The row after an UPDATE setting the given columns: each given column
   * takes its new value, every other column keeps its old one.
   */
  function ApplyProductChanges(p: Product, ch: ProductChanges): (q: Product)
    ensures q.subcategoryId == p.subcategoryId && q.stockQuantity == p.stockQuantity && q.sortOrder == p.sortOrder
    ensures q.name == (if ch.name.Some? then ch.name.value else p.name)
    ensures q.emoji == (if ch.emoji.Some? then ch.emoji.value else p.emoji)
    ensures q.description == (if ch.description.Some? then ch.description else p.description)
    ensures q.pricePerUnit == (if ch.pricePerUnit.Some? then ch.pricePerUnit.value else p.pricePerUnit)
    ensures q.unit == (if ch.unit.Some? then ch.unit.value else p.unit)
    ensures q.minQuantity == (if ch.minQuantity.Some? then ch.minQuantity.value else p.minQuantity)
    ensures q.maxQuantity == (if ch.maxQuantity.Some? then ch.maxQuantity.value else p.maxQuantity)
    ensures q.isActive == (if ch.isActive.Some? then ch.isActive.value else p.isActive)
    ensures q.inStock == (if ch.inStock.Some? then ch.inStock.value else p.inStock)
    ensures NoProductChanges(ch) ==> q == p
  {
    p.(name := ch.name.GetOr(p.name), emoji := ch.emoji.GetOr(p.emoji),
       description := if ch.description.Some? then ch.description else p.description,
       pricePerUnit := ch.pricePerUnit.GetOr(p.pricePerUnit), unit := ch.unit.GetOr(p.unit),
       minQuantity := ch.minQuantity.GetOr(p.minQuantity), maxQuantity := ch.maxQuantity.GetOr(p.maxQuantity),
       isActive := ch.isActive.GetOr(p.isActive), inStock := ch.inStock.GetOr(p.inStock))
  }

  // ---------------------------------------------------------------------
  // Settings
  // ---------------------------------------------------------------------

  /** get_setting on a healthy database: the stored value, or the default when there is no row. */
  function SettingValue(settings: map<string, Setting>, key: string, default: Option<string>): Option<string> {
    if key in settings then Some(settings[key].value) else default
  }

  /**
   * set_setting's upsert: an existing row gets the new value, and the new
   * description only when one is given and non-empty; a missing key gets a
   * new row.
   */
  function Upsert(settings: map<string, Setting>, key: string, value: string, description: Option<string>): (r: map<string, Setting>)
    ensures r.Keys == settings.Keys + {key}
    ensures r[key].value == value
    ensures key in settings && (description.None? || description.value == "") ==> r[key].description == settings[key].description
    ensures key in settings && description.Some? && description.value != "" ==> r[key].description == description
    ensures key !in settings ==> r[key].description == description
    ensures forall k :: k in settings && k != key ==> r[k] == settings[k]
  {
    if key in settings then
      var old_ := settings[key];
      var desc := if description.Some? && description.value != "" then description else old_.description;
      settings[key := Setting(value, desc)]
    else settings[key := Setting(value, description)]
  }

  /** After an upsert, reading the key gives the value just written, whatever the default. */
  lemma UpsertThenGet(settings: map<string, Setting>, key: string, value: string, description: Option<string>, default: Option<string>)
    ensures SettingValue(Upsert(settings, key, value, description), key, default) == Some(value)
  {
  }

  /** One default: added, with the description "Default <key>", only when the key is missing. */
  function SeedDefault(settings: map<string, Setting>, kv: (string, string)): map<string, Setting> {
    if kv.0 in settings then settings else settings[kv.0 := Setting(kv.1, Some("Default " + kv.0))]
  }

  /** initialize_default_settings on a healthy database: every default, in order. */
  function InitDefaults(settings: map<string, Setting>, defaults: seq<(string, string)>): map<string, Setting>
    decreases |defaults|
  {
    if defaults == [] then settings
    else SeedDefault(InitDefaults(settings, defaults[..|defaults| - 1]), defaults[|defaults| - 1])
  }

  /** The keys of a list of defaults. */
  function DefaultKeys(defaults: seq<(string, string)>): (ks: set<string>)
    ensures forall i :: 0 <= i < |defaults| ==> defaults[i].0 in ks
    ensures forall k :: k in ks ==> exists i :: 0 <= i < |defaults| && defaults[i].0 == k
    decreases |defaults|
  {
    if defaults == [] then {}
    else
      var front := defaults[..|defaults| - 1];
      assert forall i :: 0 <= i < |front| ==> front[i] == defaults[i];
      DefaultKeys(front) + {defaults[|defaults| - 1].0}
  }

  /** Seeding adds exactly the default keys, and never changes a row that was there. */
  lemma {:induction false} InitDefaultsKeys(settings: map<string, Setting>, defaults: seq<(string, string)>)
    ensures InitDefaults(settings, defaults).Keys == settings.Keys + DefaultKeys(defaults)
    ensures forall k :: k in settings ==> InitDefaults(settings, defaults)[k] == settings[k]
    decreases |defaults|
  {
    if defaults != [] {
      InitDefaultsKeys(settings, defaults[..|defaults| - 1]);
    }
  }

  /** When every default key is present already, seeding changes nothing. */
  lemma {:induction false} InitDefaultsNoop(settings: map<string, Setting>, defaults: seq<(string, string)>)
    requires forall i :: 0 <= i < |defaults| ==> defaults[i].0 in settings
    ensures InitDefaults(settings, defaults) == settings
    decreases |defaults|
  {
    if defaults != [] {
      var front := defaults[..|defaults| - 1];
      assert forall i :: 0 <= i < |front| ==> front[i] == defaults[i];
      InitDefaultsNoop(settings, front);
    }
  }

  /** Seeding twice is seeding once. */
  lemma InitDefaultsIdempotent(settings: map<string, Setting>, defaults: seq<(string, string)>)
    ensures InitDefaults(InitDefaults(settings, defaults), defaults) == InitDefaults(settings, defaults)
  {
    InitDefaultsKeys(settings, defaults);
    InitDefaultsNoop(InitDefaults(settings, defaults), defaults);
  }

  /** A default whose key was missing is stored with its default value. */
  lemma {:induction false} InitDefaultsValue(settings: map<string, Setting>, defaults: seq<(string, string)>, i: int)
    requires 0 <= i < |defaults| && defaults[i].0 !in settings
    requires forall a, b :: 0 <= a < b < |defaults| ==> defaults[a].0 != defaults[b].0
    ensures defaults[i].0 in InitDefaults(settings, defaults)
    ensures InitDefaults(settings, defaults)[defaults[i].0] == Setting(defaults[i].1, Some("Default " + defaults[i].0))
    decreases |defaults|
  {
    var front := defaults[..|defaults| - 1];
    var k := defaults[i].0;
    assert forall j :: 0 <= j < |front| ==> front[j] == defaults[j];
    InitDefaultsKeys(settings, front);
    if i == |defaults| - 1 {
      assert k !in DefaultKeys(front);
    } else {
      assert k != defaults[|defaults| - 1].0;
      InitDefaultsValue(settings, front, i);
    }
  }

  /**
   * One round of initialize_default_settings when `get_setting` may fail
   * (it then answers None, as for a missing row) and `set_setting` may fail
   * (it then rolls back and changes nothing).
   */
  function SeedWith(settings: map<string, Setting>, kv: (string, string), readFails: bool, writeFails: bool): map<string, Setting> {
    var existing := if readFails then None else SettingValue(settings, kv.0, None);
    if existing.Some? || writeFails then settings
    else Upsert(settings, kv.0, kv.1, Some("Default " + kv.0))
  }

  /** The defaults seeded in order, the i-th read and write failing as the flags say. */
  function InitDefaultsWith(settings: map<string, Setting>, defaults: seq<(string, string)>,
                            readFails: seq<bool>, writeFails: seq<bool>): map<string, Setting>
    requires |readFails| == |defaults| && |writeFails| == |defaults|
    decreases |defaults|
  {
    if defaults == [] then settings
    else
      var n := |defaults| - 1;
      SeedWith(InitDefaultsWith(settings, defaults[..n], readFails[..n], writeFails[..n]),
               defaults[n], readFails[n], writeFails[n])
  }

  /** With no failing call, seeding is InitDefaults. */
  lemma {:induction false} InitDefaultsWithHealthy(settings: map<string, Setting>, defaults: seq<(string, string)>,
                                                   readFails: seq<bool>, writeFails: seq<bool>)
    requires |readFails| == |defaults| && |writeFails| == |defaults|
    requires forall i :: 0 <= i < |defaults| ==> !readFails[i] && !writeFails[i]
    ensures InitDefaultsWith(settings, defaults, readFails, writeFails) == InitDefaults(settings, defaults)
    decreases |defaults|
  {
    if defaults != [] {
      var n := |defaults| - 1;
      assert forall i :: 0 <= i < n ==> readFails[..n][i] == readFails[i] && writeFails[..n][i] == writeFails[i];
      InitDefaultsWithHealthy(settings, defaults[..n], readFails[..n], writeFails[..n]);
    }
  }

  /**
   * When every read succeeds, existing rows are left alone and only default
   * keys are added, whichever writes fail.
   */
  lemma {:induction false} InitDefaultsWithKeepsRows(settings: map<string, Setting>, defaults: seq<(string, string)>,
                                                     readFails: seq<bool>, writeFails: seq<bool>)
    requires |readFails| == |defaults| && |writeFails| == |defaults|
    requires forall i :: 0 <= i < |defaults| ==> !readFails[i]
    ensures settings.Keys <= InitDefaultsWith(settings, defaults, readFails, writeFails).Keys <= settings.Keys + DefaultKeys(defaults)
    ensures forall k :: k in settings ==> InitDefaultsWith(settings, defaults, readFails, writeFails)[k] == settings[k]
    decreases |defaults|
  {
    if defaults != [] {
      var n := |defaults| - 1;
      assert forall i :: 0 <= i < n ==> readFails[..n][i] == readFails[i];
      InitDefaultsWithKeepsRows(settings, defaults[..n], readFails[..n], writeFails[..n]);
    }
  }

  /**
   * A failing read of an existing key is taken for a missing row: when the
   * write then succeeds, the stored value is replaced by the default.
   */
  lemma FailedReadOverwrites(settings: map<string, Setting>, key: string, value: string)
    requires key in settings
    ensures InitDefaultsWith(settings, [(key, value)], [true], [false])[key] == Setting(value, Some("Default " + key))
  {
    assert [(key, value)][..0] == [];
    assert [true][..0] == [] && [false][..0] == [];
  }

  // ---------------------------------------------------------------------
  // The service
  // ---------------------------------------------------------------------

  /** Each id of `m` listed once, in (sort_order, name) order. */
  ghost predicate IsListing(ids: seq<int>, m: map<int, Entry>) {
    && (forall id :: id in ids <==> id in m)
    && (forall i, j :: 0 <= i < j < |ids| ==> ids[i] != ids[j])
    && (forall i, j :: 0 <= i < j < |ids| ==> EntryLe(m[ids[i]], m[ids[j]]))
  }

  /** The database's ORDER BY sort_order, name over the selected rows. */
  method ListIds(m: map<int, Entry>) returns (ids: seq<int>)
    requires forall id :: id in m ==> m[id].id == id
    ensures IsListing(ids, m)
  {
    var rows := set id | id in m :: m[id];
    var sorted := SortEntries(rows);
    ids := Ids(sorted);
    forall i | 0 <= i < |ids|
      ensures ids[i] in m && m[ids[i]] == sorted[i]
    {
      assert sorted[i] in rows;
    }
    forall id | id in m
      ensures id in ids
    {
      assert m[id] in rows;
      var i :| 0 <= i < |sorted| && sorted[i] == m[id];
      assert ids[i] == id;
    }
  }

  class Shop {
    var db: Tables
    const fkEnforced: bool

    predicate Valid()
      reads this
    {
      UniqueCategoryNames(db) && IdsBelowNext(db) && (fkEnforced ==> Integrity(db))
    }

    constructor(fkEnforced: bool)
      ensures Valid() && db == EmptyTables && this.fkEnforced == fkEnforced
    {
      db := EmptyTables;
      this.fkEnforced := fkEnforced;
    }

    // ----- categories -----

    /** get_all_categories: the (active) categories in (sort_order, name) order; [] on error. */
    method GetAllCategories(activeOnly: bool, dbFails: bool) returns (ids: seq<int>)
      ensures dbFails ==> ids == []
      ensures !dbFails ==> IsListing(ids, map id | id in db.categories && (!activeOnly || db.categories[id].isActive)
                                          :: Entry(id, db.categories[id].sortOrder, db.categories[id].name))
    {
      if dbFails {
        return [];
      }
      ids := ListIds(map id | id in db.categories && (!activeOnly || db.categories[id].isActive)
                       :: Entry(id, db.categories[id].sortOrder, db.categories[id].name));
    }

    /** get_category_by_id. */
    function GetCategoryById(id: int, dbFails: bool): (r: Option<Category>)
      reads this
      ensures r.Some? <==> !dbFails && id in db.categories
      ensures r.Some? ==> r.value == db.categories[id]
    {
      if !dbFails && id in db.categories then Some(db.categories[id]) else None
    }

    /**
     * create_category: a new active category with sort order 0, or None when
     * the name is taken or the database fails.
     */
    method CreateCategory(name: string, emoji: string, description: string, dbFails: bool) returns (r: Option<int>)
      requires Valid()
      modifies this
      ensures Valid()
      ensures r.None? <==> dbFails || NameTaken(old(db), name, old(db.nextCategoryId))
      ensures r.None? ==> db == old(db)
      ensures r.Some? ==> r.value == old(db.nextCategoryId) && r.value !in old(db.categories)
      ensures r.Some? ==> db == old(db).(
        categories := old(db.categories)[r.value := NewCategory(name, Some(emoji), Some(description), Some(true), None)],
        nextCategoryId := r.value + 1)
    {
      var id := db.nextCategoryId;
      if dbFails || NameTaken(db, name, id) {
        return None;
      }
      db := db.(categories := db.categories[id := NewCategory(name, Some(emoji), Some(description), Some(true), None)],
                nextCategoryId := id + 1);
      r := Some(id);
    }

    /**
     * update_category: only the columns given change.  No columns at all is
     * a success without a statement; a missing row is a success that
     * changes nothing; a taken name or a failing database is False.
     */
    method UpdateCategory(id: int, name: Option<string>, emoji: Option<string>, description: Option<string>,
                          isActive: Option<bool>, dbFails: bool) returns (ok: bool)
      requires Valid()
      modifies this
      ensures Valid()
      ensures var noChanges := name.None? && emoji.None? && description.None? && isActive.None?;
        ok <==> noChanges || (!dbFails && !(id in old(db).categories && name.Some? && NameTaken(old(db), name.value, id)))
      ensures !ok || id !in old(db.categories) ==> db == old(db)
      ensures ok && id in old(db.categories) ==>
        var c := old(db.categories[id]);
        db == old(db).(categories := old(db.categories)[id := Category(
          name.GetOr(c.name), emoji.GetOr(c.emoji),
          if description.Some? then description else c.description,
          isActive.GetOr(c.isActive), c.sortOrder)])
    {
      if name.None? && emoji.None? && description.None? && isActive.None? {
        return true;
      }
      // The unique name index is only consulted when the UPDATE matches a row.
      if dbFails || (id in db.categories && name.Some? && NameTaken(db, name.value, id)) {
        return false;
      }
      if id in db.categories {
        var c := db.categories[id];
        if name.Some? { c := c.(name := name.value); }
        if emoji.Some? { c := c.(emoji := emoji.value); }
        if description.Some? { c := c.(description := description); }
        if isActive.Some? { c := c.(isActive := isActive.value); }
        db := db.(categories := db.categories[id := c]);
      }
      ok := true;
    }

    /**
     * delete_category as written: the bulk DELETE of the category row alone,
     * which fails when the database enforces foreign keys and the category
     * still has subcategories.
     */
    method DeleteCategoryAsWritten(id: int, dbFails: bool) returns (ok: bool)
      requires Valid()
      modifies this
      ensures Valid()
      ensures var r := BulkDeleteCategory(old(db), id, fkEnforced);
        && (ok <==> !dbFails && r.Some?)
        && (ok ==> db == r.value)
      ensures !ok ==> db == old(db)
    {
      var r := BulkDeleteCategory(db, id, fkEnforced);
      if dbFails || r.None? {
        return false;
      }
      if fkEnforced {
        forall s | s in r.value.subcategories
          ensures r.value.subcategories[s].categoryId in r.value.categories
        {
          assert s !in SubcategoriesOf(db, id);
        }
      }
      db := r.value;
      ok := true;
    }

    /** delete_category, removing the category's subcategories and their products with it. */
    method DeleteCategory(id: int, dbFails: bool) returns (ok: bool)
      requires Valid()
      modifies this
      ensures Valid()
      ensures ok == !dbFails
      ensures ok ==> db == CascadeDeleteCategory(old(db), id)
      ensures !ok ==> db == old(db)
    {
      if dbFails {
        return false;
      }
      if fkEnforced {
        CascadeDeleteCategoryKeepsIntegrity(db, id);
      }
      db := CascadeDeleteCategory(db, id);
      ok := true;
    }

    // ----- subcategories -----

    /** get_subcategories_by_category: one category's (active) subcategories, ordered. */
    method GetSubcategoriesByCategory(categoryId: int, activeOnly: bool, dbFails: bool) returns (ids: seq<int>)
      ensures dbFails ==> ids == []
      ensures !dbFails ==> IsListing(ids, map id | id in db.subcategories && db.subcategories[id].categoryId == categoryId
                                                   && (!activeOnly || db.subcategories[id].isActive)
                                          :: Entry(id, db.subcategories[id].sortOrder, db.subcategories[id].name))
    {
      if dbFails {
        return [];
      }
      ids := ListIds(map id | id in db.subcategories && db.subcategories[id].categoryId == categoryId
                              && (!activeOnly || db.subcategories[id].isActive)
                       :: Entry(id, db.subcategories[id].sortOrder, db.subcategories[id].name));
    }

    function GetSubcategoryById(id: int, dbFails: bool): (r: Option<Subcategory>)
      reads this
      ensures r.Some? <==> !dbFails && id in db.subcategories
      ensures r.Some? ==> r.value == db.subcategories[id]
    {
      if !dbFails && id in db.subcategories then Some(db.subcategories[id]) else None
    }

    /** create_subcategory: a new active subcategory, refused for a missing category when foreign keys are enforced. */
    method CreateSubcategory(categoryId: int, name: string, emoji: string, description: string, dbFails: bool)
      returns (r: Option<int>)
      requires Valid()
      modifies this
      ensures Valid()
      ensures r.None? <==> dbFails || (fkEnforced && categoryId !in old(db.categories))
      ensures r.None? ==> db == old(db)
      ensures r.Some? ==> r.value == old(db.nextSubcategoryId) && r.value !in old(db.subcategories)
      ensures r.Some? ==> db == old(db).(
        subcategories := old(db.subcategories)[r.value := NewSubcategory(categoryId, name, Some(emoji), Some(description), Some(true), None)],
        nextSubcategoryId := r.value + 1)
    {
      if dbFails || (fkEnforced && categoryId !in db.categories) {
        return None;
      }
      var id := db.nextSubcategoryId;
      db := db.(subcategories := db.subcategories[id := NewSubcategory(categoryId, name, Some(emoji), Some(description), Some(true), None)],
                nextSubcategoryId := id + 1);
      r := Some(id);
    }

    /** update_subcategory: only the columns given change; no name constraint applies. */
    method UpdateSubcategory(id: int, name: Option<string>, emoji: Option<string>, description: Option<string>,
                             isActive: Option<bool>, dbFails: bool) returns (ok: bool)
      requires Valid()
      modifies this
      ensures Valid()
      ensures ok <==> (name.None? && emoji.None? && description.None? && isActive.None?) || !dbFails
      ensures !ok || id !in old(db.subcategories) ==> db == old(db)
      ensures ok && id in old(db.subcategories) ==>
        var s := old(db.subcategories[id]);
        db == old(db).(subcategories := old(db.subcategories)[id := Subcategory(
          s.categoryId, name.GetOr(s.name), emoji.GetOr(s.emoji),
          if description.Some? then description else s.description,
          isActive.GetOr(s.isActive), s.sortOrder)])
    {
      if name.None? && emoji.None? && description.None? && isActive.None? {
        return true;
      }
      if dbFails {
        return false;
      }
      if id in db.subcategories {
        var s := db.subcategories[id];
        if name.Some? { s := s.(name := name.value); }
        if emoji.Some? { s := s.(emoji := emoji.value); }
        if description.Some? { s := s.(description := description); }
        if isActive.Some? { s := s.(isActive := isActive.value); }
        db := db.(subcategories := db.subcategories[id := s]);
      }
      ok := true;
    }

    /** delete_subcategory as written: the bulk DELETE of the subcategory row alone. */
    method DeleteSubcategoryAsWritten(id: int, dbFails: bool) returns (ok: bool)
      requires Valid()
      modifies this
      ensures Valid()
      ensures var r := BulkDeleteSubcategory(old(db), id, fkEnforced);
        && (ok <==> !dbFails && r.Some?)
        && (ok ==> db == r.value)
      ensures !ok ==> db == old(db)
    {
      var r := BulkDeleteSubcategory(db, id, fkEnforced);
      if dbFails || r.None? {
        return false;
      }
      if fkEnforced {
        forall p | p in r.value.products
          ensures r.value.products[p].subcategoryId in r.value.subcategories
        {
          assert p !in ProductsOf(db, {id});
        }
      }
      db := r.value;
      ok := true;
    }

    /** delete_subcategory, removing its products with it. */
    method DeleteSubcategory(id: int, dbFails: bool) returns (ok: bool)
      requires Valid()
      modifies this
      ensures Valid()
      ensures ok == !dbFails
      ensures ok ==> db == CascadeDeleteSubcategory(old(db), id)
      ensures !ok ==> db == old(db)
    {
      if dbFails {
        return false;
      }
      if fkEnforced {
        CascadeDeleteSubcategoryKeepsIntegrity(db, id);
      }
      db := CascadeDeleteSubcategory(db, id);
      ok := true;
    }

    // ----- products -----

    /** get_products_by_subcategory: one subcategory's (active) products, ordered. */
    method GetProductsBySubcategory(subcategoryId: int, activeOnly: bool, dbFails: bool) returns (ids: seq<int>)
      ensures dbFails ==> ids == []
      ensures !dbFails ==> IsListing(ids, map id | id in db.products && db.products[id].subcategoryId == subcategoryId
                                                   && (!activeOnly || db.products[id].isActive)
                                          :: Entry(id, db.products[id].sortOrder, db.products[id].name))
    {
      if dbFails {
        return [];
      }
      ids := ListIds(map id | id in db.products && db.products[id].subcategoryId == subcategoryId
                              && (!activeOnly || db.products[id].isActive)
                       :: Entry(id, db.products[id].sortOrder, db.products[id].name));
    }

    function GetProductById(id: int, dbFails: bool): (r: Option<Product>)
      reads this
      ensures r.Some? <==> !dbFails && id in db.products
      ensures r.Some? ==> r.value == db.products[id]
    {
      if !dbFails && id in db.products then Some(db.products[id]) else None
    }

    /** create_product: a new active, in-stock product. */
    method CreateProduct(subcategoryId: int, name: string, emoji: string, description: string,
                         pricePerUnit: real, unit: string, minQuantity: int, maxQuantity: int, dbFails: bool)
      returns (r: Option<int>)
      requires Valid()
      modifies this
      ensures Valid()
      ensures r.None? <==> dbFails || (fkEnforced && subcategoryId !in old(db.subcategories))
      ensures r.None? ==> db == old(db)
      ensures r.Some? ==> r.value == old(db.nextProductId) && r.value !in old(db.products)
      ensures r.Some? ==> db == old(db).(
        products := old(db.products)[r.value := NewProduct(subcategoryId, name, pricePerUnit,
          ProductOptions(Some(emoji), Some(description), Some(unit), Some(minQuantity), Some(maxQuantity),
                         Some(true), Some(true), None, None))],
        nextProductId := r.value + 1)
    {
      if dbFails || (fkEnforced && subcategoryId !in db.subcategories) {
        return None;
      }
      var id := db.nextProductId;
      var p := NewProduct(subcategoryId, name, pricePerUnit,
        ProductOptions(Some(emoji), Some(description), Some(unit), Some(minQuantity), Some(maxQuantity),
                       Some(true), Some(true), None, None));
      db := db.(products := db.products[id := p], nextProductId := id + 1);
      r := Some(id);
    }

    /** update_product: only the columns given change. */
    method UpdateProduct(id: int, ch: ProductChanges, dbFails: bool) returns (ok: bool)
      requires Valid()
      modifies this
      ensures Valid()
      ensures ok <==> NoProductChanges(ch) || !dbFails
      ensures !ok || id !in old(db.products) ==> db == old(db)
      ensures ok && id in old(db.products) ==>
        db == old(db).(products := old(db.products)[id := ApplyProductChanges(old(db.products[id]), ch)])
    {
      if NoProductChanges(ch) {
        return true;
      }
      if dbFails {
        return false;
      }
      if id in db.products {
        db := db.(products := db.products[id := ApplyProductChanges(db.products[id], ch)]);
      }
      ok := true;
    }

    /** delete_product. */
    method DeleteProduct(id: int, dbFails: bool) returns (ok: bool)
      requires Valid()
      modifies this
      ensures Valid()
      ensures ok == !dbFails
      ensures ok ==> db == old(db).(products := old(db.products) - {id})
      ensures !ok ==> db == old(db)
    {
      if dbFails {
        return false;
      }
      db := db.(products := db.products - {id});
      ok := true;
    }

    // ----- settings -----

    /** get_setting: the stored value, or `default` when there is no row or the database fails. */
    function GetSetting(key: string, default: Option<string>, dbFails: bool): (r: Option<string>)
      reads this
      ensures !dbFails && key in db.settings ==> r == Some(db.settings[key].value)
      ensures dbFails || key !in db.settings ==> r == default
    {
      if dbFails then default else SettingValue(db.settings, key, default)
    }

    /** set_setting: an upsert; afterwards the key reads back as the value written. */
    method SetSetting(key: string, value: string, description: Option<string>, dbFails: bool) returns (ok: bool)
      requires Valid()
      modifies this
      ensures Valid()
      ensures ok == !dbFails
      ensures ok ==> db == old(db).(settings := Upsert(old(db.settings), key, value, description))
      ensures ok ==> forall d :: GetSetting(key, d, false) == Some(value)
      ensures !ok ==> db == old(db)
    {
      if dbFails {
        return false;
      }
      db := db.(settings := Upsert(db.settings, key, value, description));
      ok := true;
    }

    /**
     * initialize_default_settings: each default key that reads as missing
     * is written with its default.  `readFails[i]` and `writeFails[i]` say
     * whether the i-th `get_setting` and `set_setting` fail; both calls catch
     * their errors, so the method always answers True.
     */
    method InitializeDefaultSettings(readFails: seq<bool>, writeFails: seq<bool>) returns (ok: bool)
      requires Valid()
      requires |readFails| == |DefaultShopSettings| && |writeFails| == |DefaultShopSettings|
      modifies this
      ensures Valid()
      ensures ok
      ensures db == old(db).(settings := InitDefaultsWith(old(db.settings), DefaultShopSettings, readFails, writeFails))
    {
      for i := 0 to |DefaultShopSettings|
        invariant Valid()
        invariant db == old(db).(settings := InitDefaultsWith(old(db.settings), DefaultShopSettings[..i], readFails[..i], writeFails[..i]))
      {
        var (key, value) := DefaultShopSettings[i];
        assert DefaultShopSettings[..i + 1][..i] == DefaultShopSettings[..i];
        assert readFails[..i + 1][..i] == readFails[..i] && writeFails[..i + 1][..i] == writeFails[..i];
        var existing := GetSetting(key, None, readFails[i]);
        if existing.None? {
          var _ := SetSetting(key, value, Some("Default " + key), writeFails[i]);
        }
      }
      assert DefaultShopSettings[..|DefaultShopSettings|] == DefaultShopSettings;
      assert readFails[..|readFails|] == readFails && writeFails[..|writeFails|] == writeFails;
      ok := true;
    }
  }
}
