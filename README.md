# AiogramShopBot core, modelled in Dafny

This project models the rule-bearing core of a Telegram shop and advertising
bot and proves properties of the model:

- **The advertising conversation** (`WerbungHandler`). A user collects text,
  media and buttons, previews the ad, chooses target groups and posting
  settings, and posts one ad row per group. Existing ads can later be moved or
  copied to other groups and given a new minute interval. The handler keeps one
  session record per user, the conversation state per user, the ad table and
  the per-user edit context; each handler is a guarded transition on them.
- **The shop catalogue service** (`ShopService`) and its schema. The store has
  categories, subcategories, products and a settings key–value table, with the
  unique category name, the parent references and the cascade relations of the
  schema. The default settings are seeded idempotently.
- **The admin catalogue wizards.** Category, subcategory and product creation
  step by step, each step validating one message. Deleting a category or
  subcategory takes two steps: a prompt, then the confirmed delete.
- **The throttling middleware.** A per-user bucket with `last_call`,
  `last_reset` and `throttle_count` that never blocks an event.
- **The localisation lookup**, with its missing-key placeholder and currency
  texts.
- **The health endpoint's** uptime split into hours, minutes and seconds.

Files:

| file | contents |
|---|---|
| `wrappers.dfy` | `Option` |
| `pystr.dfy` | Python's `strip`, `lower`, `split`, `int()`, `str(int)`, slicing, `in` |
| `health.dfy` | health and root payloads, uptime text and its reading back |
| `localizator.dfy` | text tables, `get_text`, currency symbol and text |
| `throttling.dfy` | bucket decision, `ThrottleManager`, `ThrottlingMiddleware` |
| `shop_models.dfy` | the four record types with their column defaults; `DEFAULT_SHOP_SETTINGS` |
| `listing.dfy` | the `(sort_order, name)` order of the list queries |
| `shop_service.dfy` | the tables, cascade and bulk deletes, upsert, default seeding, class `Shop` |
| `admin_wizard.dfy` | the validators and class `Wizard` (the per-chat FSM store) |
| `werbung_buttons.dfy` | smart and generic buttons, two-column layout, button merge, Markdown escaping, preview caption |
| `werbung.dfy` | session and ad records, the step functions, posting tally, copies, class `WerbungHandler` |

### Modelling choices

**Effects that become parameters**
- Outside effects are parameters:
  - the clock, as a `real` reading or as day numbers;
  - the result of `strptime` and of `float()`;
  - whether a database or Redis call raises (`dbFails`, `redisFails`);
  - the regular-expression matches and found URLs;
  - the AI generator's result;
  - the active groups;
  - the outcome of each posting attempt.
- Telegram messages sent, edited or deleted are not modelled. The model keeps only the state changes and the values shown where a contract is about them: the preview caption, the posting report and the listed ids.

**Storage**
- The database is an in-memory value of maps, one per table, plus the id counters.
- `WerbungDB` is a map from id to ad row.
- The ORM's per-object cascade does not run for the bulk `DELETE` statements the service issues. The model therefore has both the as-written delete and the cascading one (see "## Findings").

**Conversation state**
- The framework's conversation state is a map from user to step. `End` removes the user from it.
- Each modelled handler requires the state under which `register_handlers` (handlers-1.py:5577) routes to it.

**Integers and floats**
- Python's `int()` on text is `PyStr.ParseInt`: an optional sign, then ASCII digits with single underscores allowed between them.
- `time.time()` is read twice by the health handler; `Health.HealthHandler` takes both readings as parameters.
- `str()` of an int is `PyStr.IntToString`.
- Uptime is computed with `int()` truncation of a `real`.

## Model

| member | source | states |
|---|---|---|
| Health.TruncToInt | health_check.py:20 | `int()` on a float truncates toward zero: the result is within one of the argument on the side of zero |
| Health.SplitUptime | health_check.py:21-23 | hours·3600 + minutes·60 + seconds is the uptime, with minutes and seconds in [0,60) and hours non-negative for a non-negative uptime |
| Health.HealthHandler | health_check.py:15-31 | the status is always "healthy"; the seconds are the truncated difference of the two clock readings; the uptime text reads back as those seconds; the environment falls back to "PROD"; the timestamp is the truncated second clock reading |
| Health.UptimeRoundTrip | health_check.py:27 | the text "<h>h <m>m <s>s" determines the uptime: splitting it on spaces and reading the three numbers gives back the seconds |
| Health.ClockTextRoundTrip | health_check.py:27 | any three numbers printed as "<h>h <m>m <s>s" read back as h·3600 + m·60 + s |
| Health.UptimeMonotone | health_check.py:20 | a later clock reading never reports a smaller uptime |
| Health.ParseUnitOf | health_check.py:27 | a printed number followed by its unit letter reads back as that number |
| Health.UnitTextNoSpace | health_check.py:27 | a printed number with its unit letter contains no space, so the three parts split apart cleanly |
| Health.ParseClockOf | health_check.py:27 | three parts with the h, m and s units read back as h·3600 + m·60 + s |
| Localizator.GetText | utils/localizator.py:33-42 | the entity's section decides the lookup (ADMIN admin, USER user, any other common); a present key gives its text, a missing key "[Missing: key]"; the "[Error: key]" branch is never taken |
| Localizator.MissingTextInjective | utils/localizator.py:36-40 | two missing keys give the same placeholder only if they are the same key |
| Localizator.CurrencyEntry | utils/localizator.py:44-56 | the key is the lower-cased currency code plus "_symbol" or "_text", looked up in the common section; the fallback answers only a failing configuration read |
| Localizator.KnownCurrencies | utils/localizator.py:7-30 | every code that lower-cases to "eur", "usd" or "btc", in any letter case, gives "€"/"EUR", "$"/"USD" or "₿"/"BTC" as its symbol and name |
| Localizator.UnsupportedCurrencyShowsPlaceholder | utils/localizator.py:44-56 | for every currency whose lower-cased code is not usd, eur or btc, the symbol is "[Missing: <code>_symbol]" and the name "[Missing: <code>_text]", never the "$" or "USD" fallback |
| Localizator.UnsupportedKeyMissing | utils/localizator.py:7-30 | the common section has a `_symbol` or `_text` key only for usd, eur and btc |
| Localizator.UnknownCurrencyShowsPlaceholder | utils/localizator.py:44-56 | the example GBP gives "[Missing: gbp_symbol]" and "[Missing: gbp_text]" |
| Throttling.Decide | middleware/throttling_middleware.py:52-90 | an all-absent bucket is written fresh with its expiry; more than 60 s since `last_reset` writes a fresh bucket and refreshes the expiry; a call within `rate` s of `last_call` keeps the bucket; otherwise `last_call` becomes now, the count goes up by one, and `last_reset` and the expiry stay; missing fields default to now and to 0 |
| Throttling.DecideKeepsBucketOk | middleware/throttling_middleware.py:56-90 | every write leaves a complete bucket, with at least one counted call and its last call inside the window, each counted call at least `rate` s after the one before |
| Throttling.CountBounded | middleware/throttling_middleware.py:71-90 | within one window a bucket counts at most 1 + 60/rate calls |
| Throttling.BucketNameInjective | middleware/throttling_middleware.py:30-33 | the bucket name determines both the user and whether the event was a message or a callback (the bucket name is built from it at line 48) |
| Throttling.BucketNameParts | middleware/throttling_middleware.py:30-33 | `throttle:<uid>:<key>` splits on ':' into exactly "throttle", the user id and the key (the bucket name is built from it at line 48) |
| Throttling.NoColonIn | middleware/throttling_middleware.py:48 | a printed user id holds no ':' |
| Throttling.ThrottleManager.constructor | middleware/throttling_middleware.py:40-42 | starts with no buckets and no expiry deadlines |
| Throttling.ThrottleManager.Read | middleware/throttling_middleware.py:52 | a missing bucket reads as all fields absent; a live one reads as stored |
| Throttling.ThrottleManager.Throttle | middleware/throttling_middleware.py:44-96 | a Redis error changes nothing; otherwise the bucket becomes what `Decide` says, with the expiry refreshed exactly on fresh and reset writes; well-formed buckets stay well-formed |
| Throttling.ThrottleManager.ResetBranchNeverTaken | middleware/throttling_middleware.py:63-78 | in the model, where a throttle call reads the clock once and its Redis writes, expiry included, happen together or not at all, a bucket expires 60 s after its reset, so a bucket that still reads back is never old enough for the reset branch |
| Throttling.ThrottlingMiddleware.constructor | middleware/throttling_middleware.py:8-11 | a manager exists exactly when Redis is configured |
| Throttling.ThrottlingMiddleware.Call | middleware/throttling_middleware.py:13-36 | the handler always runs, whether Redis is present or fails; with Redis the bucket of `throttle_message_<id>` or `throttle_callback_<id>` is updated as `Decide` says |
| ShopModels.NewCategory | models/shop.py:13-29 | an unset emoji is "📁", `is_active` defaults to true and `sort_order` to 0 |
| ShopModels.NewSubcategory | models/shop.py:32-50 | it references its category; an unset emoji is "📂", `is_active` defaults to true and `sort_order` to 0 |
| ShopModels.NewProduct | models/shop.py:53-85 | it references its subcategory; the defaults are emoji "📦", unit "Stück", minimum 1, maximum 2000, `is_active` and `in_stock` true, and `sort_order` 0 |
| ShopModels.DefaultShopSettingsShape | models/shop.py:103-113 | nine settings with distinct keys, both shipping costs "15.00" and currency "EUR" |
| Listing.SortEntries | services/shop.py:25 | the rows in `(sort_order, name)` order, each exactly once and nothing else (the same ordering is used at lines 112 and 203 of that file) |
| Listing.InsertSorted | services/shop.py:25 | inserting a row at its place keeps a listing sorted |
| Listing.InsertMembers | services/shop.py:25 | insertion adds exactly the new row and keeps the listing free of repeats |
| Listing.StrLeTotal | services/shop.py:25 | the name order is total |
| Listing.StrLeTrans | services/shop.py:25 | the name order is transitive |
| ShopService.CascadeDeleteCategory | models/shop.py:26 | removes the category, its subcategories and their products, and nothing else (the subcategories' own cascade is line 47) |
| ShopService.CascadeDeleteSubcategory | models/shop.py:47 | removes the subcategory and its products, and nothing else |
| ShopService.CascadeDeleteCategoryKeepsIntegrity | models/shop.py:26 | a cascading delete never leaves a subcategory or product without its parent (the foreign keys are lines 37 and 58) |
| ShopService.CascadeDeleteSubcategoryKeepsIntegrity | models/shop.py:47 | the same for a subcategory (the products' foreign key is line 58) |
| ShopService.BulkDeleteCategory | services/shop.py:90-101 | as written: only the category row goes; with enforced foreign keys the statement fails when subcategories exist |
| ShopService.BulkDeleteSubcategory | services/shop.py:181-192 | as written: only the subcategory row goes; with enforced foreign keys it fails when products exist |
| ShopService.BulkDeleteCategoryDoesNotCascade | services/shop.py:94 | on a sample catalogue the bulk delete either fails or orphans the subcategory, while the cascade removes it |
| ShopService.BulkDeleteSubcategoryDoesNotCascade | services/shop.py:185 | the same for a subcategory and its product |
| ShopService.ApplyProductChanges | services/shop.py:252-288 | every column passed takes its new value, every other column keeps its old one; no changes leave the row as it is |
| ShopService.Upsert | services/shop.py:317-343 | the key is present with the new value; an existing row's description changes only for a non-empty description; a new row gets the one given; other keys are untouched |
| ShopService.UpsertThenGet | services/shop.py:306-343 | after `set_setting`, `get_setting` of the key returns the value written, whatever the default |
| ShopService.DefaultKeys | services/shop.py:350 | exactly the keys of the defaults |
| ShopService.InitDefaultsKeys | services/shop.py:345-356 | seeding adds exactly the default keys and changes no existing row |
| ShopService.InitDefaultsNoop | services/shop.py:345-356 | with every default key present, seeding changes nothing |
| ShopService.InitDefaultsIdempotent | services/shop.py:345-356 | seeding twice equals seeding once |
| ShopService.InitDefaultsValue | services/shop.py:351-353 | a missing default key is stored with its default value and the description "Default <key>" |
| ShopService.InitDefaultsWithHealthy | services/shop.py:345-356 | when no call fails, seeding with failures is the plain seeding: missing default keys are added and nothing else changes |
| ShopService.InitDefaultsWithKeepsRows | services/shop.py:345-356 | when every read succeeds, existing rows are left alone and only default keys are added, whichever writes fail |
| ShopService.FailedReadOverwrites | services/shop.py:313-315 | a failed read of an existing key answers None, so the following write replaces the stored value by the default |
| ShopService.ListIds | services/shop.py:21-32 | the selected rows' ids, each once, in `(sort_order, name)` order |
| ShopService.Shop.constructor | models/shop.py:13-99 | an empty, valid store |
| ShopService.Shop.GetAllCategories | services/shop.py:21-32 | on success, exactly the (active, when asked) categories in `(sort_order, name)` order; on error `[]` |
| ShopService.Shop.GetCategoryById | services/shop.py:34-43 | the row when it exists and the read succeeds, else None |
| ShopService.Shop.CreateCategory | services/shop.py:45-62 | None exactly on an error or a taken name, and then the store is unchanged; otherwise a new active row with the next id |
| ShopService.Shop.UpdateCategory | services/shop.py:64-88 | True with no columns passed; False on an error, or when the row exists and the new name is taken, with the store unchanged; a missing row is True with nothing changed; otherwise only the passed columns of that row change |
| ShopService.Shop.DeleteCategoryAsWritten | services/shop.py:90-101 | as written: the store becomes `BulkDeleteCategory` of itself, which removes the category row alone; False, with the store unchanged, on an error or when enforced foreign keys refuse the statement |
| ShopService.Shop.DeleteCategory | services/shop.py:90-101 | corrected: True on success, removing the category with its subcategories and products; False with the store unchanged |
| ShopService.Shop.GetSubcategoriesByCategory | services/shop.py:105-121 | on success, exactly that category's (active) subcategories, ordered; on error `[]` |
| ShopService.Shop.GetSubcategoryById | services/shop.py:123-132 | the row, or None |
| ShopService.Shop.CreateSubcategory | services/shop.py:134-153 | None on an error or a missing parent (when foreign keys are enforced), with the store unchanged; otherwise a new active row |
| ShopService.Shop.UpdateSubcategory | services/shop.py:155-179 | True with no columns; False on an error, with the store unchanged; otherwise only the passed columns change |
| ShopService.Shop.DeleteSubcategoryAsWritten | services/shop.py:181-192 | as written: the store becomes `BulkDeleteSubcategory` of itself, which removes the subcategory row alone; False, with the store unchanged, on an error or a refused statement |
| ShopService.Shop.DeleteSubcategory | services/shop.py:181-192 | corrected: removes the subcategory and its products, or fails with the store unchanged |
| ShopService.Shop.GetProductsBySubcategory | services/shop.py:196-212 | on success, exactly that subcategory's (active) products, ordered; on error `[]` |
| ShopService.Shop.GetProductById | services/shop.py:214-223 | the row, or None |
| ShopService.Shop.CreateProduct | services/shop.py:225-250 | None on an error or a missing parent, with the store unchanged; otherwise a new active, in-stock row |
| ShopService.Shop.UpdateProduct | services/shop.py:252-288 | True with no columns; False on an error, with the store unchanged; otherwise the row becomes `ApplyProductChanges` of itself |
| ShopService.Shop.DeleteProduct | services/shop.py:290-301 | removes that product only, or fails with the store unchanged |
| ShopService.Shop.GetSetting | services/shop.py:305-315 | the stored value, or the default when there is no row or the read fails |
| ShopService.Shop.SetSetting | services/shop.py:317-343 | an upsert, after which `GetSetting` of the key returns the value; on an error the store is unchanged |
| ShopService.Shop.InitializeDefaultSettings | services/shop.py:345-356 | always True, whatever fails; the settings become the defaults seeded into the old ones, each `get_setting` and `set_setting` failing or not on its own |
| AdminWizard.AcceptName | handlers/admin/admin.py:160-164 | accepted exactly when the stripped text has 2 to `maxLen` characters, and then the stripped text is stored (the same code recurs at lines 354-358 and 562-565 of that file) |
| AdminWizard.AcceptNameStable | handlers/admin/admin.py:160-164 | an accepted name, submitted again, is accepted as itself |
| AdminWizard.AcceptNameSurroundingBlanks | handlers/admin/admin.py:160 | blanks around a name change neither the verdict nor the stored name |
| AdminWizard.AcceptEmoji | handlers/admin/admin.py:186-190 | accepted exactly when the stripped emoji has at most 10 characters (the same code recurs at lines 380-384 of that file) |
| AdminWizard.AcceptEmojiStable | handlers/admin/admin.py:186-190 | an accepted emoji is accepted again as itself, and every text of at most 10 characters is accepted |
| AdminWizard.AcceptQuantity | handlers/admin/admin.py:625-631 | accepted exactly when the stripped text parses as an integer of at least 1 (the same code recurs at lines 645-651 of that file) |
| AdminWizard.AcceptQuantityOf | handlers/admin/admin.py:626-628 | a printed integer is accepted exactly when it is at least 1, as itself |
| AdminWizard.AcceptPrice | handlers/admin/admin.py:592-598 | a parsed price other than NaN is accepted exactly when it is positive (NaN: see "## Left out") |
| AdminWizard.DescriptionInput | handlers/admin/admin.py:212 | "skip" in any letter case gives "", anything else is stored stripped (the same code recurs at lines 406 and 665 of that file) |
| AdminWizard.DescriptionInputStripped | handlers/admin/admin.py:212 | a stored description is its own strip and no longer than the text; a non-empty one never came from a "skip" |
| AdminWizard.SkipIsTestedUnstripped | handlers/admin/admin.py:212 | "Skip" and "SKIP" skip, but " skip" is stored as the description "skip", since the test is made before stripping |
| AdminWizard.SpacedSkipKept | handlers/admin/admin.py:212 | " skip" is not a skip: it is stored stripped, as "skip" |
| AdminWizard.Wizard.constructor | handlers/admin/admin.py:34-36 | an idle wizard with an empty store |
| AdminWizard.Wizard.Cancel | handlers/admin/admin.py:34-36 | "back" to the shop menu clears the state and the data |
| AdminWizard.Wizard.StartAddCategory | handlers/admin/admin.py:135-137 | waits for the category name, with the data kept |
| AdminWizard.Wizard.ProcessCategoryName | handlers/admin/admin.py:158-167 | a rejected name leaves state and data unchanged; an accepted one is stored and the wizard asks for the emoji |
| AdminWizard.Wizard.ProcessCategoryEmoji | handlers/admin/admin.py:184-193 | a rejected emoji changes nothing; an accepted one is stored and the description is next |
| AdminWizard.Wizard.ProcessCategoryDescription | handlers/admin/admin.py:210-221 | creates the category from the stored name and emoji exactly as `CreateCategory` does, then clears the store |
| AdminWizard.Wizard.StartAddSubcategory | handlers/admin/admin.py:330-333 | records the parent category and waits for the name |
| AdminWizard.Wizard.ProcessSubcategoryName | handlers/admin/admin.py:352-361 | a rejected name changes nothing; an accepted one is stored and the emoji is next |
| AdminWizard.Wizard.ProcessSubcategoryEmoji | handlers/admin/admin.py:378-387 | a rejected emoji changes nothing; an accepted one is stored and the description is next |
| AdminWizard.Wizard.ProcessSubcategoryDescription | handlers/admin/admin.py:404-416 | creates the subcategory under the stored parent, then clears the store |
| AdminWizard.Wizard.StartAddProduct | handlers/admin/admin.py:537-543 | records the parent subcategory and category and waits for the name |
| AdminWizard.Wizard.ProcessProductName | handlers/admin/admin.py:561-567 | a name of 2 to 200 stripped characters is stored and the emoji is next; anything else changes nothing |
| AdminWizard.Wizard.ProcessProductEmoji | handlers/admin/admin.py:578-581 | the stripped emoji is taken unchecked and the price is next |
| AdminWizard.Wizard.ProcessProductPrice | handlers/admin/admin.py:591-601 | for a parse other than NaN, a positive price is stored and the unit is next; anything else changes nothing |
| AdminWizard.Wizard.ProcessProductUnit | handlers/admin/admin.py:611-614 | any stripped unit is stored and the minimum is next |
| AdminWizard.Wizard.ProcessProductMinQuantity | handlers/admin/admin.py:624-634 | a quantity of at least 1 is stored and the maximum is next |
| AdminWizard.Wizard.ProcessProductMaxQuantity | handlers/admin/admin.py:644-654 | a quantity of at least 1 is stored without comparing it to the minimum, and the description is next |
| AdminWizard.Wizard.ProcessProductDescription | handlers/admin/admin.py:664-684 | creates the product `WizardProduct` of every stored value, then clears the store; every created product is `ProductChecked`, given that the stored price was not NaN |
| AdminWizard.WizardProductChecked | handlers/admin/admin.py:592-684 | a product built from checked wizard data has a stripped name of 2 to 200 characters, a positive price (for a price parse other than NaN), minimum and maximum of at least 1 (never compared with each other), a stripped description, and is active and in stock |
| AdminWizard.Wizard.ViewCategories | handlers/admin/admin.py:81-86 | without a store it raises before doing anything; with one it clears the store and lists all categories |
| AdminWizard.Wizard.ViewSubcategories | handlers/admin/admin.py:256-268 | without a store it raises; otherwise it clears the store, answers "not found" exactly for a missing category, and otherwise lists that category's subcategories |
| AdminWizard.Wizard.ConfirmDeleteCategoryAsWritten | handlers/admin/admin.py:722-766 | as written: without the flag only a prompt (raising for a missing category); with it, the bulk delete of the category row alone runs (failing under enforced foreign keys while subcategories remain), and the redirect with no store always raises |
| AdminWizard.Wizard.ConfirmDeleteCategory | handlers/admin/admin.py:722-766 | corrected: with the flag the category is deleted with its children and the list shown afterwards no longer holds it |
| AdminWizard.Wizard.ConfirmDeleteSubcategoryAsWritten | handlers/admin/admin.py:773-819 | as written: without the flag only a prompt (raising for a missing subcategory); with it, the bulk delete of the subcategory row alone runs (failing under enforced foreign keys while products remain), and the redirect with no store always raises |
| AdminWizard.Wizard.ConfirmDeleteSubcategory | handlers/admin/admin.py:773-819 | corrected: the subcategory is deleted with its products and the list shown afterwards no longer holds it |
| WerbungButtons.LStripCharShape | handlers-1.py:303 | `lstrip('@')` drops exactly the leading run of the character |
| WerbungButtons.ReplaceCharShape | handlers-1.py:365 | after `replace('+', '')` no '+' is left, and a text without one is unchanged |
| WerbungButtons.SmartButtons | handlers-1.py:273-389 | one button per platform match, in match order |
| WerbungButtons.ExtractSmartButtons | handlers-1.py:273-389 | the loop builds exactly `SmartButtons` of the matches |
| WerbungButtons.SmartButtonCleansHandles | handlers-1.py:303 | a Telegram handle never keeps a leading '@', and a WhatsApp number never keeps a '+' (the same code recurs at line 365 of that file) |
| WerbungButtons.SmartButtonIsPlatformUrl | handlers-1.py:273-445 | every smart button links to a platform, so the generic-link filter never repeats one |
| WerbungButtons.GenericButtons | handlers-1.py:393-445 | exactly the found URLs outside the platforms, each labelled with its domain |
| WerbungButtons.ExtractGenericLinks | handlers-1.py:393-445 | the loop builds exactly `GenericButtons` of the URLs |
| WerbungButtons.DomainIsHost | handlers-1.py:423 | the label of `scheme//host/...` is the host |
| WerbungButtons.OtherHostCountsAsPlatform | handlers-1.py:413 | the substring test also drops hosts such as "gift.menu", which merely contain "t.me" |
| WerbungButtons.CreateButtonLayout | handlers-1.py:449-469 | the loop builds exactly the two-per-row layout |
| WerbungButtons.LayoutFlatten | handlers-1.py:449-469 | joining the rows gives back the buttons, in order |
| WerbungButtons.LayoutShape | handlers-1.py:449-469 | (n+1)/2 rows; every row but the last holds two, and the last holds one exactly when n is odd |
| WerbungButtons.MergeButtons | handlers-1.py:1353-1383 | the list is the detected buttons, then the manual ones, then the generated ones that were added; `added` counts those |
| WerbungButtons.MergeProperties | handlers-1.py:1353-1383 | the existing list stays in front; each appended button is generated and its URL appears nowhere before it; every generated URL ends up in the list |
| WerbungButtons.MergeAddsNoDuplicateUrl | handlers-1.py:1353-1383 | no generated button duplicates a URL already in the list |
| WerbungButtons.ReplaceConcat | handlers-1.py:1409 | `replace` distributes over concatenation |
| WerbungButtons.ReplaceExtendsEscape | handlers-1.py:1409 | each further `replace` escapes one more character |
| WerbungButtons.EscapeSetEmpty | handlers-1.py:1409 | escaping no characters leaves the text as it is |
| WerbungButtons.EscapeMarkdownIsEscapeSet | handlers-1.py:1409-1411 | the chain of four `replace` calls equals one pass escaping `_ * [ \`` |
| WerbungButtons.EscapeSetHead | handlers-1.py:1409 | an escaped text never starts with a bare special character |
| WerbungButtons.UnescapeEscape | handlers-1.py:1409 | escaping loses nothing: unescaping gives back the text |
| WerbungButtons.EscapeMarkdownRoundTrip | handlers-1.py:1409-1411 | the preview's title and content escaping can be undone exactly |
| WerbungButtons.AppendButtonLines | handlers-1.py:1425-1429 | the bullet loop appends one line per shown button |
| WerbungButtons.BuildPreviewText | handlers-1.py:1405-1435 | the text is built exactly as the preview function `PreviewText` describes |
| WerbungButtons.CaptionBounds | handlers-1.py:1439-1449 | for a prefix of at most 980 characters the caption is at most 1000 characters; it starts with the prefix and continues with a beginning of the text; it is untouched when it fits |
| WerbungButtons.MinimizedTitle | handlers-1.py:1265 | the text itself up to 50 characters, else its first 50 characters and "..." |
| Werbung.Advance | handlers-1.py:5725-5805 | the returned state is stored for the user, or the user leaves the conversation on END; other users are untouched |
| Werbung.RemoveFirstShape | handlers-1.py:1847 | `remove` drops the chosen group, keeps every other one and keeps the list free of repeats |
| Werbung.RemoveFirstLast | handlers-1.py:1845-1851 | removing a group just appended gives back the list |
| Werbung.ToggleShape | handlers-1.py:1843-1855 | the group is in the result exactly when it was not before; every other group is kept; no repeats appear |
| Werbung.ToggleTwice | handlers-1.py:1843-1855 | toggling twice gives the same selection, and restores it exactly for a group not yet chosen |
| Werbung.AddInputExtends | handlers-1.py:741-783 | input only appends: earlier text, links and media stay in front, the text grows by the message text and a newline, and nothing else changes |
| Werbung.CollectInput | handlers-1.py:737-827 | the session after one accepted message is `InputStep` of the old one: text, links and media appended, and buttons detected from the platform matches of the whole accumulated text once it is long enough |
| Werbung.InputStepOk | handlers-1.py:741-791 | the handler's session invariant survives any input |
| Werbung.StartDateStep | handlers-1.py:2215-2371 | "leer" clears the start date; an accepted date is not before today; a refused date leaves the session unchanged; nothing but the start date changes |
| Werbung.EndDateStep | handlers-1.py:2439-2623 | as for the start date, and an accepted end date is strictly after a set start date |
| Werbung.StartDateMayPassEndDate | handlers-1.py:2313-2337 | the start date is not checked against an end date already set, so an ad may end before it starts |
| Werbung.MinutesStep | handlers-1.py:2753-2873 | SETTINGS exactly for an integer in [1,1440], which becomes `intervall_hours`; otherwise MINUTES_INPUT with the session unchanged |
| Werbung.IntervalStep | handlers-1.py:2627-2749 | unreadable data raises; the kind is stored; hourly asks for minutes; weekly runs on days 1, 3 and 5 at 12:00 |
| Werbung.Posts | handlers-1.py:3251-3455 | at most one success per group |
| Werbung.Tally | handlers-1.py:3251-3455 | the success count is the number of posted groups; each group is either a success or one failure entry |
| Werbung.TallyAdd | handlers-1.py:3251-3455 | a posted group adds one success, any other one failure entry |
| Werbung.PostedRows | handlers-1.py:3261-3455 | at most one created row per group |
| Werbung.PostedRowsShape | handlers-1.py:3261-3455 | every created row belongs to the poster, targets a chosen group and has the session's minute interval |
| Werbung.PostsAll | handlers-1.py:3465-3541 | the count equals the number of groups exactly when all posted, and is 0 exactly when none posted |
| Werbung.ReportClassification | handlers-1.py:3465-3541 | full success exactly when every group posted (with no failure entries); total failure exactly when none did; a partial report lists one failure per group not posted |
| Werbung.RouteFor | handlers-1.py:5541-5573 | minutes first, then text, then media, else ignored |
| Werbung.Copies | handlers-1.py:4563-4689 | at most one copy per chosen group |
| Werbung.CopiesShape | handlers-1.py:4563-4689 | every copy is the ad, activated, for a chosen group other than the current one; without repeats, the current group is skipped at most once |
| Werbung.WerbungHandler.constructor | handlers-1.py:189-191 | empty stores and the configuration values |
| Werbung.WerbungHandler.StartWerbe | handlers-1.py:567-703 | only a private chat within the rate limit opens a fresh session in WAITING_INPUT; otherwise END |
| Werbung.WerbungHandler.HandleInput | handlers-1.py:707-903 | the menu tile is ignored; without a session END; otherwise the session becomes `InputStep` of itself |
| Werbung.WerbungHandler.AddManualButton | handlers-1.py:907-967 | asks for the label, or ends without a session |
| Werbung.WerbungHandler.HandleManualButtonText | handlers-1.py:971-1071 | a stripped label of at most 30 characters is kept and the link is asked for; a longer one asks again with nothing changed |
| Werbung.WerbungHandler.HandleManualButtonUrl | handlers-1.py:1075-1205 | an http://, https:// or viber:// link appends the manual button, clears the kept label and returns to input; another link asks again |
| Werbung.WerbungHandler.PreviewCaption | handlers-1.py:1401-1449 | the caption is the capped prefix and preview text |
| Werbung.WerbungHandler.SkipAi | handlers-1.py:1209-1279 | the stripped text becomes the content under the title "Werbung", with all collected buttons, and the preview follows |
| Werbung.WerbungHandler.CreateWerbung | handlers-1.py:1283-1397 | a failed generation ends the conversation with the session kept; otherwise the merged buttons go into the result and the preview follows |
| Werbung.WerbungHandler.PostSettings | handlers-1.py:1657-1799 | no active groups ends the conversation; otherwise the active groups become the session's offer and the current choice is kept as it is; nothing else changes |
| Werbung.WerbungHandler.SelectGroup | handlers-1.py:1803-1863 | toggles the group in the callback data; unreadable data changes nothing |
| Werbung.WerbungHandler.ShowSettingsMenu | handlers-1.py:1951-2005 | the menu-only handlers change no data and move to their prompt (the same code recurs at lines 2151-2211, 2375-2435, 2877-2971 and 3035-3081 of that file) |
| Werbung.WerbungHandler.SetInterval | handlers-1.py:2627-2749 | the session and state become `IntervalStep` of the data; unreadable data changes nothing |
| Werbung.WerbungHandler.HandleMinutesInput | handlers-1.py:2753-2873 | the session and state become `MinutesStep` of the text |
| Werbung.WerbungHandler.HandleStartDateInput | handlers-1.py:2215-2371 | the session and state become `StartDateStep` |
| Werbung.WerbungHandler.HandleEndDateInput | handlers-1.py:2439-2623 | the session and state become `EndDateStep` |
| Werbung.WerbungHandler.SetTimerValue | handlers-1.py:2975-3031 | stores the expand timer from the data; unreadable data changes nothing |
| Werbung.WerbungHandler.ToggleFlag | handlers-1.py:3085-3197 | flips the pin or the delete-old flag and nothing else |
| Werbung.WerbungHandler.PostToGroups | handlers-1.py:3251-3455 | the loop's count and failure list are `Tally`; the new rows are `PostedRows`, stored under consecutive new ids; old rows are untouched |
| Werbung.WerbungHandler.ConfirmPost | handlers-1.py:3201-3551 | an empty choice stays in SETTINGS; otherwise it reports as `ReportOf` the tally, deletes the session and ends; the new rows are exactly `PostedRows` of the attempts, in order, under fresh ids from the old counter (each row is `NewAd` of the draft and session for its group, active unless creating or activating the row raised, whether or not the message was then sent); so every new row belongs to the poster and targets a chosen group; old rows are untouched; the two refusals change no row |
| Werbung.WerbungHandler.Cancel | handlers-1.py:3555-3599 | drops the session and ends, from any state |
| Werbung.WerbungHandler.ChangeGroups | handlers-1.py:4265-4393 | starts exactly for the owner of a readable ad id with at least one active group, with an empty choice and the current group remembered |
| Werbung.WerbungHandler.ToggleEditGroup | handlers-1.py:4397-4535 | toggles exactly when the data is readable and the edit has not expired |
| Werbung.WerbungHandler.CopyToGroups | handlers-1.py:4607-4689 | the new rows are exactly `Copies`, under consecutive new ids, with old rows untouched |
| Werbung.WerbungHandler.GroupsConfirm | handlers-1.py:4539-4721 | an expired edit, an empty choice and a non-owner are refused with nothing changed; one group moves the ad (only its target changes); several keep it and add exactly the rows of `Copies` (one `CopyFor` per chosen group other than the original, in choice order) under fresh ids, reporting their number; old rows are untouched; the choice is then cleared |
| Werbung.WerbungHandler.SetEditInterval | handlers-1.py:5273-5397 | for the owner, hourly waits for minutes; daily and weekly get their fixed times; any other kind is stored as given |
| Werbung.WerbungHandler.EditMinutesMessage | handlers-1.py:5401-5537 | `MinutesEdited`: only while waiting; a lost ad id clears the context; [1,1440] makes the ad hourly at that value and ends the wait; anything else asks again |
| Werbung.WerbungHandler.EditTextMessage | handlers-1.py:4793-4883 | `TextEdited`: only while waiting for text; a lost ad id clears the context; a stripped text of at least 10 characters becomes the ad's content and ends the wait; a shorter one asks again with nothing changed |
| Werbung.WerbungHandler.EditMediaMessage | handlers-1.py:4975-5081 | `MediaEdited`: only while waiting for media; a lost ad id clears the context; a photo or a video replaces the ad's media ids by its one file id, with type "photo" or "video", and ends the wait; anything else asks again with nothing changed |
| Werbung.WerbungHandler.RouteEditMessage | handlers-1.py:5541-5573 | the route is `RouteFor` the context: minutes first, then text, then media; each route has exactly the effect of its handler (`MinutesEdited`, `TextEdited`, `MediaEdited`); an ignored message changes nothing |

## Left out

- Telegram I/O is not modelled: sending, editing and deleting messages, inline keyboards, `_send_message_safe`, `_cleanup_messages`, `_safe_answer_callback`, and the bookkeeping of bot message ids. It is all output.
- Texts shown to the user are not modelled, except the preview caption, the failure labels and the report kind; the bodies of the other texts are presentation.
- The regular-expression engine is not modelled (`PLATFORM_PATTERNS`, `re.findall`). The matches and found URLs are inputs.
- `_parse_date`, `strptime` and `datetime.now()` are not modelled. Dates are day numbers, and the parse and "today" are inputs.
- The AI generator and `regenerate`, `WerbungDB` internals, the scheduler and the minimizer are not modelled (`expand`/`minimize`, `post_minimized_ad`). They are foreign modules whose results are inputs. In the posting loop of `confirm_post`, `get_scheduler()` is taken never to raise. It runs after the success is counted and outside the scheduler's own `try`, so a raise there would count one group both as a success and as a failure entry.
- A copy whose `WerbungDB.create` returns no id or raises is not modelled; every copy is taken to be created.
- The buttons `handle_wverwalten_edit_text` and `handle_wverwalten_edit_media`, which only set the waiting flags, and `media_remove`, pause, activate, delete, back and the edit view are not modelled. They lie outside the core named for the ad editor.
- `werbetyp` and the other session fields only displayed are not modelled.
- `_extract_generic_links` and `_create_button_layout` are modelled, even though nothing in the handler calls them.
- The `TIMER_INPUT` and `EDIT_TEXT_INPUT` states are not modelled. No registered handler leads to them.
- The per-chat and per-user keying of the conversation framework is not modelled: the conversation is keyed by user id.
- `IsAdminFilter` and the admin check are not modelled. Every admin handler assumes an admin.
- PyStr.ParseInt: accepts ASCII digits only. Python's `int()` also accepts the other Unicode decimal digits (Arabic-Indic, full-width and so on); text in those scripts is not modelled.
- AdminWizard.AcceptPrice: does not model NaN. `float("nan")` parses, and `nan <= 0` is false, so the text "nan" passes the check at handlers/admin/admin.py:594 and is stored as the price. The parse is an `Option<real>`, which has no NaN, so "accepted exactly when positive" holds only for the other parses.
- AdminWizard.Wizard.ProcessProductPrice: stores a NaN price in the code; the model's "anything else changes nothing" covers only parses other than NaN.
- ProcessProductDescription (AdminWizard.Wizard.ProcessProductDescription): creates a product with a NaN price in the code when one was stored; its promise that every created product has a positive price holds only when the stored price was not NaN.
- AdminWizard.WizardProductChecked: its positive price rests on the model's parse having no NaN.
- The admin wizard's text steps take the message text as a string. A message without text, such as a sticker or a photo, raises at `message.text.strip()` before any change of state or store, which leaves everything as a rejected input does.
- Floating point is not modelled. Prices are `real`, `float()` parsing is an input, and `format_price` is left out. `time.time()` is a `real` reading.
- Concurrency and the async runtime are not modelled. Every call runs to completion before the next.
- `view_products`, `show_settings` and the other menu-only admin screens are not modelled; they only render lists. `view_categories` and `view_subcategories` are modelled for the redirect after a delete.
- Configuration is not modelled: the currency, the expand timer, the minimum text length and the preview emoji are parameters, and `config.py` is not part of this model.
- Throttling.ThrottleManager.ResetBranchNeverTaken: holds only for the model's single clock reading and all-or-nothing Redis call. In the code the expiry is set after `time.time()` was read, so it starts a little later than `last_reset`, and an `expire` that raises after a successful `hset` leaves a bucket with no expiry. Either way a bucket can later take the reset branch.
- Throttling.ThrottleManager.Throttle: the case where the update's `hset` itself fails after part of the bucket was written is not modelled. A Redis error is taken to leave the store as it was.
- ShopService.Shop.CreateCategory: the extra `refresh` read after `commit` is not modelled; a failing refresh is treated as a failing write.
- Werbung.WerbungHandler.ConfirmPost: the bookkeeping of posted message ids and the pinning of the sent message are not modelled. Neither changes the ad rows or the report.

## Findings

| source | as written | input that shows it | evidently intended | confidence | as-written member | corrected member |
|---|---|---|---|---|---|---|
| services/shop.py:90-101 | `delete_category` issues a bulk `DELETE` of the category row; the object-level cascade of models/shop.py:26 does not run for it, and the foreign key has no `ondelete` | a category with one subcategory: the statement fails when foreign keys are enforced, or leaves the subcategory orphaned | the category goes together with its subcategories and their products | not executed | ShopService.BulkDeleteCategoryDoesNotCascade | ShopService.Shop.DeleteCategory |
| services/shop.py:181-192 | `delete_subcategory` deletes the subcategory row alone in the same way | a subcategory with one product | the subcategory goes together with its products | not executed | ShopService.BulkDeleteSubcategoryDoesNotCascade | ShopService.Shop.DeleteSubcategory |
| handlers/admin/admin.py:766 | after a confirmed category delete, the redirect calls `view_categories` with `None` for the FSM store, and its first statement `state.clear()` raises | any confirmed category delete | the redirect shows the category list without the deleted category | not executed | AdminWizard.Wizard.ConfirmDeleteCategoryAsWritten | AdminWizard.Wizard.ConfirmDeleteCategory |
| handlers/admin/admin.py:819 | after a confirmed subcategory delete, `view_subcategories` is called with `None` for the store and raises the same way | any confirmed subcategory delete | the redirect shows the subcategory list without the deleted subcategory | not executed | AdminWizard.Wizard.ConfirmDeleteSubcategoryAsWritten | AdminWizard.Wizard.ConfirmDeleteSubcategory |
