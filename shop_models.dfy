/**
 * The shop catalogue schema: categories contain subcategories, which contain
 * products, plus a key/value settings table.  Each record type lists its
 * columns (timestamps left out); the row "constructors" apply the column
 * defaults the schema declares for every column that is not given.
 */
module ShopModels {
  import opened Wrappers

  datatype Category = Category(
    name: string,
    emoji: string,
    description: Option<string>,
    isActive: bool,
    sortOrder: int)

  datatype Subcategory = Subcategory(
    categoryId: int,
    name: string,
    emoji: string,
    description: Option<string>,
    isActive: bool,
    sortOrder: int)

  datatype Product = Product(
    subcategoryId: int,
    name: string,
    emoji: string,
    description: Option<string>,
    pricePerUnit: real,
    unit: string,
    minQuantity: int,
    maxQuantity: int,
    isActive: bool,
    inStock: bool,
    stockQuantity: Option<int>,
    sortOrder: int)

  datatype Setting = Setting(value: string, description: Option<string>)

  const DefaultCategoryEmoji: string := "📁"
  const DefaultSubcategoryEmoji: string := "📂"
  const DefaultProductEmoji: string := "📦"
  const DefaultUnit: string := "Stück"
  const DefaultMinQuantity: int := 1
  const DefaultMaxQuantity: int := 2000

  /** A new category row: the given columns, and the schema's default for each column left out. */
  function NewCategory(name: string, emoji: Option<string>, description: Option<string>,
                       isActive: Option<bool>, sortOrder: Option<int>): (c: Category)
    ensures c.name == name && c.description == description
    ensures c.emoji == if emoji.Some? then emoji.value else "📁"
    ensures c.isActive == (isActive.None? || isActive.value)
    ensures c.sortOrder == if sortOrder.Some? then sortOrder.value else 0
  {
    Category(name, emoji.GetOr(DefaultCategoryEmoji), description, isActive.GetOr(true), sortOrder.GetOr(0))
  }

  /** A new subcategory row, with the schema's defaults. */
  function NewSubcategory(categoryId: int, name: string, emoji: Option<string>, description: Option<string>,
                          isActive: Option<bool>, sortOrder: Option<int>): (s: Subcategory)
    ensures s.categoryId == categoryId && s.name == name && s.description == description
    ensures s.emoji == if emoji.Some? then emoji.value else "📂"
    ensures s.isActive == (isActive.None? || isActive.value)
    ensures s.sortOrder == if sortOrder.Some? then sortOrder.value else 0
  {
    Subcategory(categoryId, name, emoji.GetOr(DefaultSubcategoryEmoji), description, isActive.GetOr(true), sortOrder.GetOr(0))
  }

  /** The optional columns of a new product row; `None` takes the schema's default. */
  datatype ProductOptions = ProductOptions(
    emoji: Option<string>,
    description: Option<string>,
    unit: Option<string>,
    minQuantity: Option<int>,
    maxQuantity: Option<int>,
    isActive: Option<bool>,
    inStock: Option<bool>,
    stockQuantity: Option<int>,
    sortOrder: Option<int>)

  /** A new product row, with the schema's defaults. */
  function NewProduct(subcategoryId: int, name: string, pricePerUnit: real, opts: ProductOptions): (p: Product)
    ensures p.subcategoryId == subcategoryId && p.name == name && p.pricePerUnit == pricePerUnit
    ensures p.description == opts.description && p.stockQuantity == opts.stockQuantity
    ensures p.emoji == if opts.emoji.Some? then opts.emoji.value else "📦"
    ensures p.unit == if opts.unit.Some? then opts.unit.value else "Stück"
    ensures p.minQuantity == if opts.minQuantity.Some? then opts.minQuantity.value else 1
    ensures p.maxQuantity == if opts.maxQuantity.Some? then opts.maxQuantity.value else 2000
    ensures p.isActive == (opts.isActive.None? || opts.isActive.value)
    ensures p.inStock == (opts.inStock.None? || opts.inStock.value)
    ensures p.sortOrder == if opts.sortOrder.Some? then opts.sortOrder.value else 0
  {
    Product(subcategoryId, name, opts.emoji.GetOr(DefaultProductEmoji), opts.description, pricePerUnit,
            opts.unit.GetOr(DefaultUnit), opts.minQuantity.GetOr(DefaultMinQuantity),
            opts.maxQuantity.GetOr(DefaultMaxQuantity), opts.isActive.GetOr(true),
            opts.inStock.GetOr(true), opts.stockQuantity, opts.sortOrder.GetOr(0))
  }

  const HausdropCostKey: string := "shipping_hausdrop_cost"
  const HausdropEnabledKey: string := "shipping_hausdrop_enabled"
  const PackstationCostKey: string := "shipping_packstation_cost"
  const PackstationEnabledKey: string := "shipping_packstation_enabled"
  const CurrencyKey: string := "currency"
  const CurrencySymbolKey: string := "currency_symbol"
  const ShopEnabledKey: string := "shop_enabled"
  const MinOrderValueKey: string := "min_order_value"
  const FreeShippingThresholdKey: string := "free_shipping_threshold"

  /** DEFAULT_SHOP_SETTINGS, in declaration order. */
  const DefaultShopSettings: seq<(string, string)> := [
    (HausdropCostKey, "15.00"),
    (HausdropEnabledKey, "true"),
    (PackstationCostKey, "15.00"),
    (PackstationEnabledKey, "true"),
    (CurrencyKey, "EUR"),
    (CurrencySymbolKey, "€"),
    (ShopEnabledKey, "true"),
    (MinOrderValueKey, "0.00"),
    (FreeShippingThresholdKey, "0.00")
  ]

  /** The keys of a list of pairs, in order. */
  function Keys(pairs: seq<(string, string)>): (ks: seq<string>)
    ensures |ks| == |pairs|
    ensures forall i :: 0 <= i < |pairs| ==> ks[i] == pairs[i].0
  {
    if pairs == [] then [] else [pairs[0].0] + Keys(pairs[1..])
  }

  predicate Distinct<T(==)>(s: seq<T>) {
    forall i, j :: 0 <= i < j < |s| ==> s[i] != s[j]
  }

  /** The default settings are nine distinct keys, both shipping methods at 15.00 EUR. */
  lemma DefaultShopSettingsShape()
    ensures |DefaultShopSettings| == 9
    ensures Distinct(Keys(DefaultShopSettings))
    ensures DefaultShopSettings[0] == ("shipping_hausdrop_cost", "15.00")
    ensures DefaultShopSettings[2] == ("shipping_packstation_cost", "15.00")
    ensures DefaultShopSettings[4] == ("currency", "EUR")
  {
    var ks := Keys(DefaultShopSettings);
    // Keys of equal length differ at index 0 or at index 9.
    var sigs := [(22, 's', 'h'), (25, 's', 'h'), (25, 's', 'p'), (28, 's', 'p'), (8, 'c', ' '),
                 (15, 'c', 's'), (12, 's', 'l'), (15, 'm', '_'), (23, 'f', 'p')];
    assert Signature(HausdropCostKey) == sigs[0] && Signature(HausdropEnabledKey) == sigs[1];
    assert Signature(PackstationCostKey) == sigs[2] && Signature(PackstationEnabledKey) == sigs[3];
    assert Signature(CurrencyKey) == sigs[4] && Signature(CurrencySymbolKey) == sigs[5];
    assert Signature(ShopEnabledKey) == sigs[6] && Signature(MinOrderValueKey) == sigs[7];
    assert Signature(FreeShippingThresholdKey) == sigs[8];
    DistinctBySignature(ks, sigs);
  }

  /** A key's length with its first and tenth characters. */
  function Signature(k: string): (int, char, char)
    requires |k| > 0
  {
    (|k|, k[0], if |k| > 9 then k[9] else ' ')
  }

  /** Keys whose signatures are pairwise distinct are pairwise distinct. */
  lemma DistinctBySignature(ks: seq<string>, sigs: seq<(int, char, char)>)
    requires |ks| == |sigs| && Distinct(sigs)
    requires forall i :: 0 <= i < |ks| ==> |ks[i]| > 0 && Signature(ks[i]) == sigs[i]
    ensures Distinct(ks)
  {
  }
}
