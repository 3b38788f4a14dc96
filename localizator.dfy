/**
 * The bot's hard-coded English texts: three sections of key/text pairs, a
 * lookup that never fails (a missing key yields a visible placeholder), and
 * the currency symbol and name chosen by the configured currency.
 */
module Localizator {
  import opened Wrappers
  import opened PyStr

  /** Who a text is for; every entity other than ADMIN and USER reads the common section. */
  datatype BotEntity = Admin | User | Common

  const AdminTexts: map<string, string> := map[
    "menu" := "🔑 Admin Menu"
  ]

  const UserTexts: map<string, string> := map[
    "all_categories" := "🛍️ All Categories",
    "my_profile" := "👤 My Profile",
    "faq" := "❓ FAQ",
    "help" := "💬 Help",
    "cart" := "🛒 Cart",
    "faq_string" := "Frequently Asked Questions:\n\nHow to buy?\n- Select a category and product\n- Choose quantity\n- Confirm purchase",
    "help_string" := "Need help? Contact our support:",
    "help_button" := "📞 Support"
  ]

  const CommonTexts: map<string, string> := map[
    "start_message" := "👋 Welcome to our shop!\n\nSelect an option from the menu below:",
    "usd_symbol" := "$",
    "usd_text" := "USD",
    "eur_symbol" := "€",
    "eur_text" := "EUR",
    "btc_symbol" := "₿",
    "btc_text" := "BTC"
  ]

  /** The TEXTS table: section name to section. */
  const Texts: map<string, map<string, string>> := map[
    "admin" := AdminTexts,
    "user" := UserTexts,
    "common" := CommonTexts
  ]

  function SectionName(entity: BotEntity): string {
    match entity
    case Admin => "admin"
    case User => "user"
    case Common => "common"
  }

  function MissingText(key: string): string {
    "[Missing: " + key + "]"
  }

  function ErrorText(key: string): string {
    "[Error: " + key + "]"
  }

  /**
   * get_text: the entry of the entity's section, or the "[Missing: key]"
   * placeholder.  The "[Error: key]" answer to a missing section is kept,
   * although every section the lookup asks for exists, so the contract shows
   * that it is never given.
   */
  function GetText(entity: BotEntity, key: string): (r: string)
    ensures var section := Texts[SectionName(entity)];
      (key in section ==> r == section[key]) && (key !in section ==> r == MissingText(key))
  {
    var name := SectionName(entity);
    if name in Texts then
      var section := Texts[name];
      if key in section then section[key] else MissingText(key)
    else ErrorText(key)
  }

  /** Distinct missing keys give distinct placeholders: a placeholder names its key. */
  lemma MissingTextInjective(k1: string, k2: string)
    requires MissingText(k1) == MissingText(k2)
    ensures k1 == k2
  {
    var p := "[Missing: ";
    assert k1 == MissingText(k1)[|p|..|p| + |k1|];
    assert k2 == MissingText(k2)[|p|..|p| + |k2|];
  }

  /**
   * get_currency_symbol / get_currency_text, given the configured currency's
   * value (None when reading the configuration raises).  The suffix is
   * "_symbol" or "_text" and the fallback "$" or "USD".
   */
  function CurrencyEntry(currency: Option<string>, suffix: string, fallback: string): (r: string)
    ensures currency.None? ==> r == fallback
    ensures currency.Some? ==> r == GetText(Common, Lower(currency.value) + suffix)
  {
    match currency
    case None => fallback
    case Some(c) => GetText(Common, Lower(c) + suffix)
  }

  function CurrencySymbol(currency: Option<string>): string {
    CurrencyEntry(currency, "_symbol", "$")
  }

  function CurrencyText(currency: Option<string>): string {
    CurrencyEntry(currency, "_text", "USD")
  }

  /**
   * The three supported currencies, written in any letter case, give their
   * own symbol and name.
   */
  lemma KnownCurrencies(c: string)
    ensures Lower(c) == "eur" ==> CurrencySymbol(Some(c)) == "€" && CurrencyText(Some(c)) == "EUR"
    ensures Lower(c) == "usd" ==> CurrencySymbol(Some(c)) == "$" && CurrencyText(Some(c)) == "USD"
    ensures Lower(c) == "btc" ==> CurrencySymbol(Some(c)) == "₿" && CurrencyText(Some(c)) == "BTC"
  {
    assert "eur" + "_symbol" == "eur_symbol" && "eur" + "_text" == "eur_text";
    assert "usd" + "_symbol" == "usd_symbol" && "usd" + "_text" == "usd_text";
    assert "btc" + "_symbol" == "btc_symbol" && "btc" + "_text" == "btc_text";
  }

  /** The currency codes the common section has entries for. */
  const SupportedCodes: set<string> := {"usd", "eur", "btc"}

  /** A concatenation splits back into its two parts. */
  lemma ConcatParts(l: string, suffix: string)
    ensures (l + suffix)[..|l|] == l && (l + suffix)[|l|..] == suffix
    ensures |l + suffix| == |l| + |suffix|
  {
  }

  /** The only keys of the common section ending in `suffix` are those of the supported codes. */
  lemma UnsupportedKeyMissing(l: string, suffix: string)
    requires l !in SupportedCodes
    requires suffix == "_symbol" || suffix == "_text"
    ensures l + suffix !in CommonTexts
  {
    ConcatParts(l, suffix);
    var k := l + suffix;
    assert k[|k| - 1] == suffix[|suffix| - 1];
    assert "usd_symbol"[..3] == "usd" && "eur_symbol"[..3] == "eur" && "btc_symbol"[..3] == "btc";
    assert "usd_text"[..3] == "usd" && "eur_text"[..3] == "eur" && "btc_text"[..3] == "btc";
  }

  /**
   * Every unsupported currency, whatever its letters, gets the missing-key
   * placeholder for its own key: the lookup succeeds with a placeholder, so
   * the "$" and "USD" fallbacks only answer a failing configuration read.
   */
  lemma UnsupportedCurrencyShowsPlaceholder(c: string)
    requires Lower(c) !in SupportedCodes
    ensures CurrencySymbol(Some(c)) == MissingText(Lower(c) + "_symbol")
    ensures CurrencyText(Some(c)) == MissingText(Lower(c) + "_text")
    ensures CurrencySymbol(Some(c)) != "$" && CurrencyText(Some(c)) != "USD"
  {
    UnsupportedKeyMissing(Lower(c), "_symbol");
    UnsupportedKeyMissing(Lower(c), "_text");
  }

  /** For example GBP, which has no entries. */
  lemma UnknownCurrencyShowsPlaceholder()
    ensures CurrencySymbol(Some("GBP")) == "[Missing: gbp_symbol]"
    ensures CurrencyText(Some("GBP")) == "[Missing: gbp_text]"
  {
    assert Lower("GBP") == "gbp";
    UnsupportedCurrencyShowsPlaceholder("GBP");
    assert "gbp" + "_symbol" == "gbp_symbol";
    assert "gbp" + "_text" == "gbp_text";
  }
}
