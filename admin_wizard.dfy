/**
 * The admin's catalogue wizards: creating a category (name, emoji,
 * description), a subcategory (the same three steps under a chosen category)
 * and a product (name, emoji, price, unit, minimum and maximum quantity,
 * description), and the two-step delete of a category or a subcategory.
 *
 * The bot's per-chat FSM store is the wizard object: its `state` and its
 * `data`, a record with one optional field per key the handlers put into
 * the store.  Each input step validates one message text; a rejected text
 * leaves state and data as they were, an accepted one records the value and
 * moves to the next step; the last step creates the row and clears the
 * store.  Replies sent to the chat are left out.
 */
module AdminWizard {
  import opened Wrappers
  import opened PyStr
  import opened ShopModels
  import opened ShopService

  datatype WizardState =
    | Idle
    | CategoryName | CategoryEmoji | CategoryDescription
    | SubcategoryName | SubcategoryEmoji | SubcategoryDescription
    | ProductName | ProductEmoji | ProductPrice | ProductUnit
    | ProductMinQuantity | ProductMaxQuantity | ProductDescription

  /** The keys the wizards store; `None` is a key not in the store. */
  datatype WizardData = WizardData(
    parentCategoryId: Option<int>,
    parentSubcategoryId: Option<int>,
    categoryName: Option<string>,
    categoryEmoji: Option<string>,
    subcategoryName: Option<string>,
    subcategoryEmoji: Option<string>,
    productName: Option<string>,
    productEmoji: Option<string>,
    productPrice: Option<real>,
    productUnit: Option<string>,
    productMinQuantity: Option<int>,
    productMaxQuantity: Option<int>)

  const NoData: WizardData := WizardData(None, None, None, None, None, None, None, None, None, None, None, None)

  const MaxCategoryNameLength: int := 100
  const MaxProductNameLength: int := 200
  const MaxEmojiLength: int := 10

  // ---------------------------------------------------------------------
  // Validators
  // ---------------------------------------------------------------------

  /** A name step: the stripped text when it is 2 to `maxLen` characters long. */
  function AcceptName(text: string, maxLen: int): (r: Option<string>)
    ensures r.Some? <==> 2 <= |Strip(text)| <= maxLen
    ensures r.Some? ==> r.value == Strip(text)
  {
    var name := Strip(text);
    if |name| < 2 || |name| > maxLen then None else Some(name)
  }

  /** An accepted name is accepted again as itself: the stored name is already stripped. */
  lemma AcceptNameStable(text: string, maxLen: int)
    requires AcceptName(text, maxLen).Some?
    ensures AcceptName(AcceptName(text, maxLen).value, maxLen) == AcceptName(text, maxLen)
  {
    StripIdempotent(text);
  }

  /** Blanks around a name do not matter: the name steps judge and store the stripped text. */
  lemma AcceptNameSurroundingBlanks(pre: string, name: string, post: string, maxLen: int)
    requires AllSpaces(pre) && AllSpaces(post)
    requires name != [] && !IsSpace(name[0]) && !IsSpace(name[|name| - 1])
    ensures AcceptName(pre + name + post, maxLen) == AcceptName(name, maxLen)
  {
    StripSurrounded(pre, name, post);
    StripIdentity(name);
  }

  /** The category and subcategory emoji step: the stripped text, at most 10 characters. */
  function AcceptEmoji(text: string): (r: Option<string>)
    ensures r.Some? <==> |Strip(text)| <= MaxEmojiLength
    ensures r.Some? ==> r.value == Strip(text)
  {
    var emoji := Strip(text);
    if |emoji| > MaxEmojiLength then None else Some(emoji)
  }

  /**
   * An accepted emoji is stored stripped, so sending the stored value again
   * is accepted as itself; a text of at most 10 characters is always accepted.
   */
  lemma AcceptEmojiStable(text: string)
    ensures AcceptEmoji(text).Some? ==> AcceptEmoji(AcceptEmoji(text).value) == AcceptEmoji(text)
    ensures |text| <= MaxEmojiLength ==> AcceptEmoji(text).Some?
  {
    StripIdempotent(text);
  }

  /**
   * The quantity steps: `int(text.strip())` when it parses and is at least
   * 1.  The same check serves the minimum and the maximum.
   */
  function AcceptQuantity(text: string): (r: Option<int>)
    ensures r.Some? ==> r.value >= 1 && ParseInt(Strip(text)) == r
    ensures r.None? ==> ParseInt(Strip(text)).None? || ParseInt(Strip(text)).value < 1
  {
    var q := ParseInt(Strip(text));
    if q.Some? && q.value >= 1 then q else None
  }

  /** A quantity written out in decimal is accepted exactly when it is at least 1. */
  lemma AcceptQuantityOf(n: int)
    ensures n >= 1 ==> AcceptQuantity(IntToString(n)) == Some(n)
    ensures n < 1 ==> AcceptQuantity(IntToString(n)) == None
  {
    var s := IntToString(n);
    if n >= 0 {
      assert IsDigit(s[0]) && IsDigit(s[|s| - 1]);
    } else {
      var d := NatToString(-n);
      assert s[|s| - 1] == d[|d| - 1];
    }
    StripIdentity(s);
    ParseIntToString(n);
  }

  /** The price step, given the value `float()` gives for the text (None when it raises). */
  function AcceptPrice(parsed: Option<real>): (r: Option<real>)
    ensures r.Some? <==> parsed.Some? && parsed.value > 0.0
    ensures r.Some? ==> r == parsed
  {
    if parsed.Some? && parsed.value > 0.0 then parsed else None
  }


  /** The description step: "skip" in any letter case is the empty description, anything else is stripped. */
  function DescriptionInput(text: string): (r: string)
    ensures Lower(text) == "skip" ==> r == ""
    ensures Lower(text) != "skip" ==> r == Strip(text)
  {
    if Lower(text) == "skip" then "" else Strip(text)
  }

  /**
   * A stored description is empty or has no surrounding blanks, and a
   * non-empty one never came from a "skip".
   */
  lemma DescriptionInputStripped(text: string)
    ensures var r := DescriptionInput(text); Strip(r) == r && |r| <= |text|
    ensures DescriptionInput(text) != "" ==> Lower(text) != "skip"
  {
    StripIdempotent(text);
  }

  /**
   * The "skip" test is made on the text before stripping, so "Skip" skips
   * while " skip" is stored as the description "skip".
   */
  lemma SkipIsTestedUnstripped()
    ensures DescriptionInput("Skip") == "" && DescriptionInput("SKIP") == ""
    ensures DescriptionInput(" skip") == "skip"
  {
    assert Lower("Skip") == "skip";
    assert Lower("SKIP") == "skip";
    SpacedSkipKept();
  }

  lemma SpacedSkipKept()
    ensures DescriptionInput(" skip") == "skip"
  {
    assert Lower(" skip")[0] == ' ';
    assert " skip" == " " + "skip" + "";
    StripSurrounded(" ", "skip", "");
  }

  /** A name as the name steps store it: stripped, 2 to `maxLen` characters. */
  predicate StoredName(n: string, maxLen: int) {
    2 <= |n| <= maxLen && !IsSpace(n[0]) && !IsSpace(n[|n| - 1])
  }

  /** Every value in the store passed its step's check. */
  predicate DataChecked(d: WizardData) {
    && (d.categoryName.Some? ==> StoredName(d.categoryName.value, MaxCategoryNameLength))
    && (d.subcategoryName.Some? ==> StoredName(d.subcategoryName.value, MaxCategoryNameLength))
    && (d.productName.Some? ==> StoredName(d.productName.value, MaxProductNameLength))
    && (d.categoryEmoji.Some? ==> |d.categoryEmoji.value| <= MaxEmojiLength)
    && (d.subcategoryEmoji.Some? ==> |d.subcategoryEmoji.value| <= MaxEmojiLength)
    && (d.productPrice.Some? ==> d.productPrice.value > 0.0)
    && (d.productMinQuantity.Some? ==> d.productMinQuantity.value >= 1)
    && (d.productMaxQuantity.Some? ==> d.productMaxQuantity.value >= 1)
  }

  /** The product steps' stored values, step by step. */
  predicate HasProductName(d: WizardData) {
    d.parentSubcategoryId.Some? && d.productName.Some?
  }

  predicate HasProductPrice(d: WizardData) {
    HasProductName(d) && d.productEmoji.Some? && d.productPrice.Some?
  }

  predicate HasProductMinQuantity(d: WizardData) {
    HasProductPrice(d) && d.productUnit.Some? && d.productMinQuantity.Some?
  }

  /** Each step has the values of the steps before it. */
  predicate StepHasData(s: WizardState, d: WizardData) {
    match s
    case Idle => true
    case CategoryName => true
    case CategoryEmoji => d.categoryName.Some?
    case CategoryDescription => d.categoryName.Some? && d.categoryEmoji.Some?
    case SubcategoryName => d.parentCategoryId.Some?
    case SubcategoryEmoji => d.parentCategoryId.Some? && d.subcategoryName.Some?
    case SubcategoryDescription => d.parentCategoryId.Some? && d.subcategoryName.Some? && d.subcategoryEmoji.Some?
    case ProductName => d.parentSubcategoryId.Some?
    case ProductEmoji => HasProductName(d)
    case ProductPrice => HasProductName(d) && d.productEmoji.Some?
    case ProductUnit => HasProductPrice(d)
    case ProductMinQuantity => HasProductPrice(d) && d.productUnit.Some?
    case ProductMaxQuantity => HasProductMinQuantity(d)
    case ProductDescription => HasProductMinQuantity(d) && d.productMaxQuantity.Some?
  }

  /** The product add_product_description creates from the store and the description text. */
  function WizardProduct(d: WizardData, text: string): Product
    requires HasProductMinQuantity(d) && d.productMaxQuantity.Some?
  {
    NewProduct(d.parentSubcategoryId.value, d.productName.value, d.productPrice.value,
      ProductOptions(Some(d.productEmoji.value), Some(DescriptionInput(text)), Some(d.productUnit.value),
                     Some(d.productMinQuantity.value), Some(d.productMaxQuantity.value),
                     Some(true), Some(true), None, None))
  }

  /** A product as the wizard's checks let it through. */
  predicate ProductChecked(p: Product) {
    && StoredName(p.name, MaxProductNameLength)
    && p.pricePerUnit > 0.0
    && p.minQuantity >= 1 && p.maxQuantity >= 1
    && p.isActive && p.inStock
    && p.description.Some? && Strip(p.description.value) == p.description.value
  }

  /**
   * Every product the wizard creates passed all of its checks: a stripped
   * name of 2 to 200 characters, a positive price, quantities of at least 1,
   * a stripped description, and it is active and in stock.  The minimum is
   * never compared with the maximum.
   */
  lemma WizardProductChecked(d: WizardData, text: string)
    requires HasProductMinQuantity(d) && d.productMaxQuantity.Some? && DataChecked(d)
    ensures ProductChecked(WizardProduct(d, text))
  {
    DescriptionInputStripped(text);
  }

  /** What a confirmed or unconfirmed delete button leads to. */
  datatype ViewReply = Listed(ids: seq<int>) | NotFound | Raised
  datatype DeleteReply = Prompt | PromptRaised | Confirmed(success: bool, view: ViewReply)

  class Wizard {
    var state: WizardState
    var data: WizardData
    const shop: Shop

    predicate Valid()
      reads this, shop
    {
      shop.Valid() && StepHasData(state, data) && DataChecked(data)
    }

    constructor(shop: Shop)
      requires shop.Valid()
      ensures Valid() && state == Idle && data == NoData && this.shop == shop
    {
      state := Idle;
      data := NoData;
      this.shop := shop;
    }

    /** "Back"/"cancel" to the shop menu: the store is cleared. */
    method Cancel()
      requires Valid()
      modifies this
      ensures Valid() && state == Idle && data == NoData
    {
      state := Idle;
      data := NoData;
    }

    // ----- category wizard -----

    method StartAddCategory()
      requires Valid()
      modifies this
      ensures Valid() && state == CategoryName && data == old(data)
    {
      state := CategoryName;
    }

    method ProcessCategoryName(text: string)
      requires Valid() && state == CategoryName
      modifies this
      ensures Valid()
      ensures var name := AcceptName(text, MaxCategoryNameLength);
        if name.None? then state == old(state) && data == old(data)
        else state == CategoryEmoji && data == old(data).(categoryName := name)
    {
      var name := AcceptName(text, MaxCategoryNameLength);
      if name.None? {
        return;
      }
      data := data.(categoryName := name);
      state := CategoryEmoji;
    }

    method ProcessCategoryEmoji(text: string)
      requires Valid() && state == CategoryEmoji
      modifies this
      ensures Valid()
      ensures var emoji := AcceptEmoji(text);
        if emoji.None? then state == old(state) && data == old(data)
        else state == CategoryDescription && data == old(data).(categoryEmoji := emoji)
    {
      var emoji := AcceptEmoji(text);
      if emoji.None? {
        return;
      }
      data := data.(categoryEmoji := emoji);
      state := CategoryDescription;
    }

    /** The last step: create the category from the stored name and emoji, then clear the store. */
    method ProcessCategoryDescription(text: string, dbFails: bool) returns (created: Option<int>)
      requires Valid() && state == CategoryDescription
      modifies this, shop
      ensures Valid() && state == Idle && data == NoData
      ensures var name := old(data.categoryName.value);
        created.None? <==> dbFails || NameTaken(old(shop.db), name, old(shop.db.nextCategoryId))
      ensures created.None? ==> shop.db == old(shop.db)
      ensures created.Some? ==> created.value == old(shop.db.nextCategoryId) && shop.db == old(shop.db).(
        categories := old(shop.db.categories)[created.value := NewCategory(
          old(data.categoryName.value), Some(old(data.categoryEmoji.value)), Some(DescriptionInput(text)), Some(true), None)],
        nextCategoryId := created.value + 1)
    {
      var description := DescriptionInput(text);
      created := shop.CreateCategory(data.categoryName.value, data.categoryEmoji.value, description, dbFails);
      state := Idle;
      data := NoData;
    }

    // ----- subcategory wizard -----

    method StartAddSubcategory(categoryId: int)
      requires Valid()
      modifies this
      ensures Valid() && state == SubcategoryName && data == old(data).(parentCategoryId := Some(categoryId))
    {
      data := data.(parentCategoryId := Some(categoryId));
      state := SubcategoryName;
    }

    method ProcessSubcategoryName(text: string)
      requires Valid() && state == SubcategoryName
      modifies this
      ensures Valid()
      ensures var name := AcceptName(text, MaxCategoryNameLength);
        if name.None? then state == old(state) && data == old(data)
        else state == SubcategoryEmoji && data == old(data).(subcategoryName := name)
    {
      var name := AcceptName(text, MaxCategoryNameLength);
      if name.None? {
        return;
      }
      data := data.(subcategoryName := name);
      state := SubcategoryEmoji;
    }

    method ProcessSubcategoryEmoji(text: string)
      requires Valid() && state == SubcategoryEmoji
      modifies this
      ensures Valid()
      ensures var emoji := AcceptEmoji(text);
        if emoji.None? then state == old(state) && data == old(data)
        else state == SubcategoryDescription && data == old(data).(subcategoryEmoji := emoji)
    {
      var emoji := AcceptEmoji(text);
      if emoji.None? {
        return;
      }
      data := data.(subcategoryEmoji := emoji);
      state := SubcategoryDescription;
    }

    method ProcessSubcategoryDescription(text: string, dbFails: bool) returns (created: Option<int>)
      requires Valid() && state == SubcategoryDescription
      modifies this, shop
      ensures Valid() && state == Idle && data == NoData
      ensures var parent := old(data.parentCategoryId.value);
        created.None? <==> dbFails || (shop.fkEnforced && parent !in old(shop.db.categories))
      ensures created.None? ==> shop.db == old(shop.db)
      ensures created.Some? ==> created.value == old(shop.db.nextSubcategoryId) && shop.db == old(shop.db).(
        subcategories := old(shop.db.subcategories)[created.value := NewSubcategory(
          old(data.parentCategoryId.value), old(data.subcategoryName.value), Some(old(data.subcategoryEmoji.value)),
          Some(DescriptionInput(text)), Some(true), None)],
        nextSubcategoryId := created.value + 1)
    {
      var description := DescriptionInput(text);
      created := shop.CreateSubcategory(data.parentCategoryId.value, data.subcategoryName.value,
                                        data.subcategoryEmoji.value, description, dbFails);
      state := Idle;
      data := NoData;
    }

    // ----- product wizard -----

    method StartAddProduct(subcategoryId: int, categoryId: int)
      requires Valid()
      modifies this
      ensures Valid() && state == ProductName
      ensures data == old(data).(parentSubcategoryId := Some(subcategoryId), parentCategoryId := Some(categoryId))
    {
      data := data.(parentSubcategoryId := Some(subcategoryId), parentCategoryId := Some(categoryId));
      state := ProductName;
    }

    method ProcessProductName(text: string)
      requires Valid() && state == ProductName
      modifies this
      ensures Valid()
      ensures var name := AcceptName(text, MaxProductNameLength);
        if name.None? then state == old(state) && data == old(data)
        else state == ProductEmoji && data == old(data).(productName := name)
    {
      var name := AcceptName(text, MaxProductNameLength);
      if name.None? {
        return;
      }
      data := data.(productName := name);
      state := ProductEmoji;
    }

    /** The product emoji is taken as sent, stripped, without a length check. */
    method ProcessProductEmoji(text: string)
      requires Valid() && state == ProductEmoji
      modifies this
      ensures Valid()
      ensures state == ProductPrice && data == old(data).(productEmoji := Some(Strip(text)))
    {
      data := data.(productEmoji := Some(Strip(text)));
      state := ProductPrice;
    }

    method ProcessProductPrice(parsed: Option<real>)
      requires Valid() && state == ProductPrice
      modifies this
      ensures Valid()
      ensures var price := AcceptPrice(parsed);
        if price.None? then state == old(state) && data == old(data)
        else state == ProductUnit && data == old(data).(productPrice := price)
    {
      var price := AcceptPrice(parsed);
      if price.None? {
        return;
      }
      data := data.(productPrice := price);
      state := ProductUnit;
    }

    /** Any unit is accepted, stripped. */
    method ProcessProductUnit(text: string)
      requires Valid() && state == ProductUnit
      modifies this
      ensures Valid()
      ensures state == ProductMinQuantity && data == old(data).(productUnit := Some(Strip(text)))
    {
      data := data.(productUnit := Some(Strip(text)));
      state := ProductMinQuantity;
    }

    method ProcessProductMinQuantity(text: string)
      requires Valid() && state == ProductMinQuantity
      modifies this
      ensures Valid()
      ensures var q := AcceptQuantity(text);
        if q.None? then state == old(state) && data == old(data)
        else state == ProductMaxQuantity && data == old(data).(productMinQuantity := q)
    {
      var q := AcceptQuantity(text);
      if q.None? {
        return;
      }
      data := data.(productMinQuantity := q);
      state := ProductMaxQuantity;
    }

    /** The maximum is checked on its own: it may be below the minimum. */
    method ProcessProductMaxQuantity(text: string)
      requires Valid() && state == ProductMaxQuantity
      modifies this
      ensures Valid()
      ensures var q := AcceptQuantity(text);
        if q.None? then state == old(state) && data == old(data)
        else state == ProductDescription && data == old(data).(productMaxQuantity := q)
    {
      var q := AcceptQuantity(text);
      if q.None? {
        return;
      }
      data := data.(productMaxQuantity := q);
      state := ProductDescription;
    }

    method ProcessProductDescription(text: string, dbFails: bool) returns (created: Option<int>)
      requires Valid() && state == ProductDescription
      modifies this, shop
      ensures Valid() && state == Idle && data == NoData
      ensures var parent := old(data.parentSubcategoryId.value);
        created.None? <==> dbFails || (shop.fkEnforced && parent !in old(shop.db.subcategories))
      ensures created.None? ==> shop.db == old(shop.db)
      ensures created.Some? ==> created.value == old(shop.db.nextProductId) && shop.db == old(shop.db).(
        products := old(shop.db.products)[created.value := WizardProduct(old(data), text)],
        nextProductId := created.value + 1)
      ensures created.Some? ==> ProductChecked(shop.db.products[created.value])
    {
      ghost var d := data;
      var description := DescriptionInput(text);
      created := shop.CreateProduct(data.parentSubcategoryId.value, data.productName.value, data.productEmoji.value,
                                    description, data.productPrice.value, data.productUnit.value,
                                    data.productMinQuantity.value, data.productMaxQuantity.value, dbFails);
      if created.Some? {
        assert shop.db.products[created.value] == WizardProduct(d, text);
        WizardProductChecked(d, text);
      }
      state := Idle;
      data := NoData;
    }

    // ----- views and deletes -----

    /**
     * view_categories, called with the chat's FSM store or, when
     * `stateGiven` is false, with None: its first statement clears the
     * store, which raises on None.
     */
    method ViewCategories(stateGiven: bool, dbFails: bool) returns (v: ViewReply)
      requires Valid()
      modifies this
      ensures Valid()
      ensures !stateGiven ==> v == Raised && state == old(state) && data == old(data)
      ensures stateGiven ==> state == Idle && data == NoData && v.Listed?
      ensures stateGiven && !dbFails ==> forall id :: id in v.ids <==> id in shop.db.categories
    {
      if !stateGiven {
        return Raised;
      }
      state := Idle;
      data := NoData;
      var ids := shop.GetAllCategories(false, dbFails);
      v := Listed(ids);
    }

    /** view_subcategories: clears the store, then lists a category's subcategories if the category exists. */
    method ViewSubcategories(categoryId: int, stateGiven: bool, dbFails: bool) returns (v: ViewReply)
      requires Valid()
      modifies this
      ensures Valid()
      ensures !stateGiven ==> v == Raised && state == old(state) && data == old(data)
      ensures stateGiven ==> state == Idle && data == NoData
      ensures stateGiven ==> v != Raised
      ensures stateGiven ==> (v == NotFound <==> shop.GetCategoryById(categoryId, dbFails).None?)
      ensures stateGiven && v.Listed? ==> forall id :: id in v.ids <==>
        id in shop.db.subcategories && shop.db.subcategories[id].categoryId == categoryId
    {
      if !stateGiven {
        return Raised;
      }
      state := Idle;
      data := NoData;
      if shop.GetCategoryById(categoryId, dbFails).None? {
        return NotFound;
      }
      var ids := shop.GetSubcategoriesByCategory(categoryId, false, dbFails);
      v := Listed(ids);
    }

    /**
     * confirm_delete_category as written: without the confirmation flag it
     * only prompts (raising when the category is gone); with it, it deletes
     * and then redirects to the category list passing None for the store,
     * so the redirect always raises.
     */
    method ConfirmDeleteCategoryAsWritten(categoryId: int, confirmation: bool, dbFails: bool) returns (r: DeleteReply)
      requires Valid()
      modifies this, shop
      ensures Valid() && state == old(state) && data == old(data)
      ensures !confirmation ==> shop.db == old(shop.db)
      ensures !confirmation ==> (r == Prompt <==> old(shop.GetCategoryById(categoryId, dbFails)).Some?)
      ensures !confirmation && r != Prompt ==> r == PromptRaised
      ensures confirmation ==> var bulk := BulkDeleteCategory(old(shop.db), categoryId, shop.fkEnforced);
        && r == Confirmed(!dbFails && bulk.Some?, Raised)
        && (r.success ==> shop.db == bulk.value)
        && (!r.success ==> shop.db == old(shop.db))
    {
      if !confirmation {
        if shop.GetCategoryById(categoryId, dbFails).None? {
          return PromptRaised;
        }
        return Prompt;
      }
      var ok := shop.DeleteCategoryAsWritten(categoryId, dbFails);
      var v := ViewCategories(false, dbFails);
      r := Confirmed(ok, v);
    }

    /**
     * confirm_delete_category with the redirect given the chat's store: the
     * deleted category is gone from the list shown afterwards.
     */
    method ConfirmDeleteCategory(categoryId: int, confirmation: bool, dbFails: bool) returns (r: DeleteReply)
      requires Valid()
      modifies this, shop
      ensures Valid()
      ensures !confirmation ==> shop.db == old(shop.db) && state == old(state) && data == old(data)
      ensures !confirmation ==> (r == Prompt <==> old(shop.GetCategoryById(categoryId, dbFails)).Some?)
      ensures !confirmation && r != Prompt ==> r == PromptRaised
      ensures confirmation ==> r.Confirmed? && r.success == !dbFails && r.view.Listed? && state == Idle && data == NoData
      ensures confirmation && !dbFails ==> shop.db == CascadeDeleteCategory(old(shop.db), categoryId)
      ensures confirmation && !dbFails ==> categoryId !in r.view.ids
    {
      if !confirmation {
        if shop.GetCategoryById(categoryId, dbFails).None? {
          return PromptRaised;
        }
        return Prompt;
      }
      var ok := shop.DeleteCategory(categoryId, dbFails);
      var v := ViewCategories(true, dbFails);
      r := Confirmed(ok, v);
    }

    /** confirm_delete_subcategory as written: the redirect to the subcategory list always raises. */
    method ConfirmDeleteSubcategoryAsWritten(categoryId: int, subcategoryId: int, confirmation: bool, dbFails: bool)
      returns (r: DeleteReply)
      requires Valid()
      modifies this, shop
      ensures Valid() && state == old(state) && data == old(data)
      ensures !confirmation ==> shop.db == old(shop.db)
      ensures !confirmation ==> (r == Prompt <==> old(shop.GetSubcategoryById(subcategoryId, dbFails)).Some?)
      ensures !confirmation && r != Prompt ==> r == PromptRaised
      ensures confirmation ==> var bulk := BulkDeleteSubcategory(old(shop.db), subcategoryId, shop.fkEnforced);
        && r == Confirmed(!dbFails && bulk.Some?, Raised)
        && (r.success ==> shop.db == bulk.value)
        && (!r.success ==> shop.db == old(shop.db))
    {
      if !confirmation {
        if shop.GetSubcategoryById(subcategoryId, dbFails).None? {
          return PromptRaised;
        }
        return Prompt;
      }
      var ok := shop.DeleteSubcategoryAsWritten(subcategoryId, dbFails);
      var v := ViewSubcategories(categoryId, false, dbFails);
      r := Confirmed(ok, v);
    }

    /** confirm_delete_subcategory with the redirect given the chat's store. */
    method ConfirmDeleteSubcategory(categoryId: int, subcategoryId: int, confirmation: bool, dbFails: bool)
      returns (r: DeleteReply)
      requires Valid()
      modifies this, shop
      ensures Valid()
      ensures !confirmation ==> shop.db == old(shop.db) && state == old(state) && data == old(data)
      ensures !confirmation ==> (r == Prompt <==> old(shop.GetSubcategoryById(subcategoryId, dbFails)).Some?)
      ensures !confirmation && r != Prompt ==> r == PromptRaised
      ensures confirmation ==> r.Confirmed? && r.success == !dbFails && r.view != Raised && state == Idle && data == NoData
      ensures confirmation && !dbFails ==> shop.db == CascadeDeleteSubcategory(old(shop.db), subcategoryId)
      ensures confirmation && !dbFails && r.view.Listed? ==> subcategoryId !in r.view.ids
    {
      if !confirmation {
        if shop.GetSubcategoryById(subcategoryId, dbFails).None? {
          return PromptRaised;
        }
        return Prompt;
      }
      var ok := shop.DeleteSubcategory(subcategoryId, dbFails);
      var v := ViewSubcategories(categoryId, true, dbFails);
      r := Confirmed(ok, v);
    }
  }
}
