/**
 * The button and text helpers of the advertising handler: buttons built from
 * the platform links found in an ad text, buttons for other links, the
 * two-column keyboard layout, the merge of detected, manual and generated
 * buttons, the Markdown escaping and the length cap of the preview caption.
 *
 * Regular-expression matching is not modelled: each helper takes the
 * matches (or the found URLs) as its input, in the order the source visits
 * them.
 */
module WerbungButtons {
  import opened Wrappers
  import opened PyStr

  /** A button as the handler stores it: label, target URL and where it came from. */
  datatype Button = Button(text: string, url: string, platform: string)

  // ---------------------------------------------------------------------
  // Smart buttons from platform links
  // ---------------------------------------------------------------------

  /**
   * One match of a platform pattern, carrying the capture groups the
   * builder reads.  A gateway match has two alternatives; a group that did
   * not take part is the empty string (both are false in Python).
   */
  datatype PlatformMatch =
    | Gateway(group1: string, group2: string, group3: string, group4: string)
    | ShopLink(username: string)
    | TelegramContact(username: string)
    | BotSupport(username: string)
    | Threema(id: string)
    | Signal(phone: string)
    | WhatsApp(phone: string)

  /** `s.lstrip(c)` for one character. */
  function LStripChar(s: string, c: char): string {
    if s != [] && s[0] == c then LStripChar(s[1..], c) else s
  }

  /** lstrip drops exactly the leading run of `c`: what is left is a suffix not starting with `c`. */
  lemma {:induction false} LStripCharShape(s: string, c: char)
    ensures var r := LStripChar(s, c);
      && |r| <= |s| && r == s[|s| - |r|..]
      && (r == [] || r[0] != c)
      && (forall k :: 0 <= k < |s| - |r| ==> s[k] == c)
  {
    if s != [] && s[0] == c {
      LStripCharShape(s[1..], c);
      var r := LStripChar(s, c);
      forall k | 0 <= k < |s| - |r|
        ensures s[k] == c
      {
        if k > 0 {
          assert s[k] == s[1..][k - 1];
        }
      }
    }
  }

  /** `s.replace(c, rep)` for a one-character `c`. */
  function ReplaceChar(s: string, c: char, rep: string): string {
    if s == [] then []
    else (if s[0] == c then rep else [s[0]]) + ReplaceChar(s[1..], c, rep)
  }

  /** After the replacement no `c` is left, unless `rep` brings one in; a text without `c` is unchanged. */
  lemma {:induction false} ReplaceCharShape(s: string, c: char, rep: string)
    ensures c !in rep ==> c !in ReplaceChar(s, c, rep)
    ensures c !in s ==> ReplaceChar(s, c, rep) == s
  {
    if s != [] {
      ReplaceCharShape(s[1..], c, rep);
      if c !in s {
        assert c !in s[1..];
        assert [s[0]] + s[1..] == s;
      }
    }
  }

  /** The button _extract_smart_buttons appends for one match. */
  function SmartButton(m: PlatformMatch): Button {
    match m
    case Gateway(g1, g2, g3, g4) =>
      var name := if g1 != "" then g1 else g3;
      var username := LStripChar(if g1 != "" then g2 else g4, '@');
      Button("📢 " + name, "https://t.me/" + username, "gateway")
    case ShopLink(u) =>
      var username := LStripChar(u, '@');
      Button("🛍️ " + username, "https://t.me/" + username, "shop")
    case TelegramContact(u) =>
      Button("💬 Kontakt", "https://t.me/" + LStripChar(u, '@'), "telegram")
    case BotSupport(u) =>
      Button("🏛️ Support", "https://t.me/" + LStripChar(u, '@'), "bot")
    case Threema(id) =>
      Button("🔐 Threema", "https://threema.id/" + id, "threema")
    case Signal(phone) =>
      Button("📱 Signal", "https://signal.me/#p/" + phone, "signal")
    case WhatsApp(phone) =>
      Button("💚 WhatsApp", "https://wa.me/" + ReplaceChar(phone, '+', ""), "whatsapp")
  }

  /** The buttons of a sequence of matches, one per match. */
  function SmartButtons(matches: seq<PlatformMatch>): (r: seq<Button>)
    ensures |r| == |matches|
    ensures forall i :: 0 <= i < |matches| ==> r[i] == SmartButton(matches[i])
  {
    if matches == [] then [] else SmartButtons(matches[..|matches| - 1]) + [SmartButton(matches[|matches| - 1])]
  }

  /** _extract_smart_buttons: one button per match, in match order. */
  method ExtractSmartButtons(matches: seq<PlatformMatch>) returns (buttons: seq<Button>)
    ensures buttons == SmartButtons(matches)
  {
    buttons := [];
    var i := 0;
    while i < |matches|
      invariant 0 <= i <= |matches|
      invariant buttons == SmartButtons(matches[..i])
    {
      assert matches[..i + 1][..i] == matches[..i];
      buttons := buttons + [SmartButton(matches[i])];
      i := i + 1;
    }
    assert matches[..|matches|] == matches;
  }

  /** A Telegram handle taken from a match never keeps a leading '@', and a WhatsApp number never keeps a '+'. */
  lemma SmartButtonCleansHandles(m: PlatformMatch)
    ensures (m.Gateway? || m.ShopLink? || m.TelegramContact? || m.BotSupport?) ==>
      var u := SmartButton(m).url[13..];
      SmartButton(m).url == "https://t.me/" + u && (u == [] || u[0] != '@')
    ensures m.WhatsApp? ==>
      var p := SmartButton(m).url[14..];
      SmartButton(m).url == "https://wa.me/" + p && '+' !in p
  {
    match m
    case Gateway(g1, g2, g3, g4) => LStripCharShape(if g1 != "" then g2 else g4, '@');
    case ShopLink(u) => LStripCharShape(u, '@');
    case TelegramContact(u) => LStripCharShape(u, '@');
    case BotSupport(u) => LStripCharShape(u, '@');
    case WhatsApp(phone) => ReplaceCharShape(phone, '+', "");
    case _ =>
  }

  // ---------------------------------------------------------------------
  // Generic links
  // ---------------------------------------------------------------------

  /** The substring test of _extract_generic_links for links that belong to a platform. */
  predicate IsPlatformUrl(url: string) {
    || Contains(url, "t.me") || Contains(url, "threema.id") || Contains(url, "signal.me")
    || Contains(url, "viber://") || Contains(url, "wa.me")
  }

  /** `url.split('/')[2]` when there are more than two parts, else "Link". */
  function Domain(url: string): string {
    var parts := Split(url, '/');
    if |parts| > 2 then parts[2] else "Link"
  }

  function GenericButton(url: string): Button {
    Button("🔗 " + Domain(url), url, "generic")
  }

  /** The buttons _extract_generic_links makes from the found URLs, in order. */
  function GenericButtons(urls: seq<string>): (r: seq<Button>)
    ensures forall k :: 0 <= k < |r| ==>
      && r[k].url in urls && !IsPlatformUrl(r[k].url) && r[k] == GenericButton(r[k].url)
    ensures forall u :: u in urls && !IsPlatformUrl(u) ==> GenericButton(u) in r
  {
    if urls == [] then []
    else
      var front := urls[..|urls| - 1];
      var last := urls[|urls| - 1];
      var r := GenericButtons(front) + (if IsPlatformUrl(last) then [] else [GenericButton(last)]);
      assert forall u :: u in urls ==> u in front || u == last;
      r
  }

  /** _extract_generic_links over the found URLs. */
  method ExtractGenericLinks(urls: seq<string>) returns (buttons: seq<Button>)
    ensures buttons == GenericButtons(urls)
  {
    buttons := [];
    var i := 0;
    while i < |urls|
      invariant 0 <= i <= |urls|
      invariant buttons == GenericButtons(urls[..i])
    {
      assert urls[..i + 1][..i] == urls[..i];
      var url := urls[i];
      if !IsPlatformUrl(url) {
        buttons := buttons + [GenericButton(url)];
      }
      i := i + 1;
    }
    assert urls[..|urls|] == urls;
  }

  lemma ContainsIn(pre: string, sub: string, i: int, rest: string)
    requires OccursAt(pre, sub, i)
    ensures Contains(pre + rest, sub)
  {
    assert (pre + rest)[i..i + |sub|] == pre[i..i + |sub|];
    assert OccursAt(pre + rest, sub, i);
  }

  /** Every smart button links to a platform, so the generic-link builder never duplicates one. */
  lemma SmartButtonIsPlatformUrl(m: PlatformMatch)
    ensures IsPlatformUrl(SmartButton(m).url)
  {
    var url := SmartButton(m).url;
    match m
    case Threema(id) =>
      assert "https://threema.id/"[8..18] == "threema.id";
      ContainsIn("https://threema.id/", "threema.id", 8, id);
    case Signal(phone) =>
      assert "https://signal.me/#p/"[8..17] == "signal.me";
      ContainsIn("https://signal.me/#p/", "signal.me", 8, phone);
    case WhatsApp(phone) =>
      assert "https://wa.me/"[8..13] == "wa.me";
      ContainsIn("https://wa.me/", "wa.me", 8, ReplaceChar(phone, '+', ""));
    case _ =>
      assert "https://t.me/"[8..12] == "t.me";
      ContainsIn("https://t.me/", "t.me", 8, url[13..]);
      assert url == "https://t.me/" + url[13..];
  }

  /** For a link `scheme//rest` the button label is the host: the part of `rest` before its first '/'. */
  lemma DomainIsHost(scheme: string, rest: string)
    requires forall k :: 0 <= k < |scheme| ==> scheme[k] != '/'
    ensures Domain(scheme + "//" + rest) == Split(rest, '/')[0]
  {
    assert scheme + "//" + rest == scheme + ['/'] + ([] + ['/'] + rest);
    SplitAfterHead(scheme, '/', [] + ['/'] + rest);
    SplitAfterHead([], '/', rest);
  }

  /** The substring test is broader than the platform domains: any host containing "t.me" is excluded. */
  lemma OtherHostCountsAsPlatform()
    ensures IsPlatformUrl("https://gift.menu/shop")
  {
    assert "https://gift.menu/shop"[11..15] == "t.me";
    ContainsIn("https://gift.menu/shop", "t.me", 11, "");
    assert "https://gift.menu/shop" + "" == "https://gift.menu/shop";
  }

  // ---------------------------------------------------------------------
  // Two-column layout
  // ---------------------------------------------------------------------

  /** Rows of two, the last row holding the odd one out. */
  function Layout<T>(b: seq<T>): seq<seq<T>>
    decreases |b|
  {
    if |b| == 0 then [] else if |b| == 1 then [b] else [b[..2]] + Layout(b[2..])
  }

  function Flatten<T>(rows: seq<seq<T>>): seq<T> {
    if rows == [] then [] else rows[0] + Flatten(rows[1..])
  }

  /** _create_button_layout. */
  method CreateButtonLayout<T>(buttons: seq<T>) returns (rows: seq<seq<T>>)
    ensures rows == Layout(buttons)
  {
    rows := [];
    var i := 0;
    while i < |buttons|
      invariant 0 <= i && i % 2 == 0
      invariant i < |buttons| ==> rows + Layout(buttons[i..]) == Layout(buttons)
      invariant i >= |buttons| ==> rows == Layout(buttons)
      decreases |buttons| - i
    {
      if i + 1 < |buttons| {
        assert buttons[i..][..2] == [buttons[i], buttons[i + 1]];
        assert buttons[i..][2..] == buttons[i + 2..];
        rows := rows + [[buttons[i], buttons[i + 1]]];
      } else {
        assert buttons[i..] == [buttons[i]];
        rows := rows + [[buttons[i]]];
      }
      i := i + 2;
    }
    if |buttons| == 0 {
      assert rows == [];
    }
  }

  /** The layout keeps every button, in order, and nothing else. */
  lemma {:induction false} LayoutFlatten<T>(b: seq<T>)
    ensures Flatten(Layout(b)) == b
    decreases |b|
  {
    if |b| >= 2 {
      LayoutFlatten(b[2..]);
      assert ([b[..2]] + Layout(b[2..]))[1..] == Layout(b[2..]);
      assert b[..2] + b[2..] == b;
    } else if |b| == 1 {
      assert [b][1..] == [];
    }
  }

  /** (n+1)/2 rows; every row but the last holds two buttons, the last one only when n is odd. */
  lemma {:induction false} LayoutShape<T>(b: seq<T>)
    ensures |Layout(b)| == (|b| + 1) / 2
    ensures forall k :: 0 <= k < |Layout(b)| - 1 ==> |Layout(b)[k]| == 2
    ensures |b| > 0 ==> |Layout(b)[|Layout(b)| - 1]| == (if |b| % 2 == 0 then 2 else 1)
    decreases |b|
  {
    if |b| >= 2 {
      LayoutShape(b[2..]);
      var rest := Layout(b[2..]);
      assert Layout(b) == [b[..2]] + rest;
      forall k | 0 <= k < |Layout(b)| - 1
        ensures |Layout(b)[k]| == 2
      {
        if k >= 1 {
          assert Layout(b)[k] == rest[k - 1];
        }
      }
    }
  }

  // ---------------------------------------------------------------------
  // Merging generated buttons
  // ---------------------------------------------------------------------

  /** `any(btn['url'] == url for btn in buttons)`. */
  predicate HasUrl(buttons: seq<Button>, url: string) {
    exists k :: 0 <= k < |buttons| && buttons[k].url == url
  }

  /** One step of the merge: a generated button is appended only when no button so far has its URL. */
  function AddIfNewUrl(all: seq<Button>, b: Button): seq<Button> {
    if HasUrl(all, b.url) then all else all + [b]
  }

  /** The merge of create_werbung, generated buttons taken in order against the growing list. */
  function Merge(all: seq<Button>, generated: seq<Button>): seq<Button>
    decreases |generated|
  {
    if generated == [] then all else Merge(AddIfNewUrl(all, generated[0]), generated[1..])
  }

  /**
   * create_werbung's button list: the detected buttons, the manual ones, then
   * each generated button whose URL is not yet present; `added` counts those.
   */
  method MergeButtons(detected: seq<Button>, manual: seq<Button>, generated: seq<Button>)
    returns (all: seq<Button>, added: nat)
    ensures all == Merge(detected + manual, generated)
    ensures |all| == |detected| + |manual| + added
  {
    all := detected + manual;
    added := 0;
    var i := 0;
    while i < |generated|
      invariant 0 <= i <= |generated|
      invariant Merge(all, generated[i..]) == Merge(detected + manual, generated)
      invariant |all| == |detected| + |manual| + added
    {
      assert generated[i..][1..] == generated[i + 1..];
      var b := generated[i];
      if !HasUrl(all, b.url) {
        all := all + [b];
        added := added + 1;
      }
      i := i + 1;
    }
  }

  /** No button from position `n` on repeats the URL of any button before it. */
  predicate FreshUrlsFrom(s: seq<Button>, n: int) {
    forall i, j :: 0 <= j < i < |s| && n <= i ==> s[j].url != s[i].url
  }

  /**
   * What the merge promises: the existing list stays in front; everything
   * after it is a generated button whose URL appears nowhere before it; and
   * every generated URL ends up in the list, added or already there.
   */
  lemma {:induction false} MergeProperties(all: seq<Button>, generated: seq<Button>, n: int)
    requires 0 <= n <= |all| && FreshUrlsFrom(all, n)
    ensures var r := Merge(all, generated);
      && |r| >= |all| && r[..|all|] == all
      && FreshUrlsFrom(r, n)
      && (forall i :: |all| <= i < |r| ==> r[i] in generated)
      && (forall k :: 0 <= k < |generated| ==> HasUrl(r, generated[k].url))
    decreases |generated|
  {
    if generated != [] {
      var b := generated[0];
      var next := AddIfNewUrl(all, b);
      assert |next| >= |all| && next[..|all|] == all;
      assert FreshUrlsFrom(next, n) by {
        if !HasUrl(all, b.url) {
          forall i, j | 0 <= j < i < |next| && n <= i
            ensures next[j].url != next[i].url
          {
            if i == |all| {
              assert next[j] == all[j];
            } else {
              assert next[i] == all[i] && next[j] == all[j];
            }
          }
        }
      }
      MergeProperties(next, generated[1..], n);
      var r := Merge(next, generated[1..]);
      assert r == Merge(all, generated);
      assert r[..|all|] == all by {
        assert r[..|next|][..|all|] == r[..|all|];
      }
      forall i | |all| <= i < |r|
        ensures r[i] in generated
      {
        if i < |next| {
          assert r[i] == next[i] == b;
        } else {
          assert r[i] in generated[1..];
        }
      }
      forall k | 0 <= k < |generated|
        ensures HasUrl(r, generated[k].url)
      {
        if k == 0 {
          var w :| 0 <= w < |next| && next[w].url == b.url;
          assert r[w] == r[..|next|][w] == next[w];
        } else {
          assert generated[k] == generated[1..][k - 1];
        }
      }
    }
  }

  /** create_werbung never gives two buttons of the final list the same URL through a generated button. */
  lemma MergeAddsNoDuplicateUrl(detected: seq<Button>, manual: seq<Button>, generated: seq<Button>)
    ensures var base := detected + manual; var r := Merge(base, generated);
      && |r| >= |base| && r[..|base|] == base
      && FreshUrlsFrom(r, |base|)
      && (forall i :: |base| <= i < |r| ==> r[i] in generated)
      && (forall k :: 0 <= k < |generated| ==> HasUrl(r, generated[k].url))
  {
    MergeProperties(detected + manual, generated, |detected + manual|);
  }

  // ---------------------------------------------------------------------
  // Markdown escaping
  // ---------------------------------------------------------------------

  /** The title and content escaping of show_preview, in the order of its replace calls. */
  function EscapeMarkdown(s: string): string {
    ReplaceChar(ReplaceChar(ReplaceChar(ReplaceChar(s, '_', "\\_"), '*', "\\*"), '[', "\\["), '`', "\\`")
  }

  /** The button-label escaping of show_preview. */
  function EscapeLabel(s: string): string {
    ReplaceChar(ReplaceChar(s, '_', "\\_"), '*', "\\*")
  }

  /** A backslash in front of every character of `special`, in one pass. */
  function EscapeSet(s: string, special: set<char>): string {
    if s == [] then []
    else (if s[0] in special then ['\\', s[0]] else [s[0]]) + EscapeSet(s[1..], special)
  }

  /** Drops the backslash in front of each escaped special character. */
  function Unescape(t: string, special: set<char>): string
    decreases |t|
  {
    if t == [] then []
    else if |t| >= 2 && t[0] == '\\' && t[1] in special then [t[1]] + Unescape(t[2..], special)
    else [t[0]] + Unescape(t[1..], special)
  }

  lemma {:induction false} ReplaceConcat(a: string, b: string, c: char, rep: string)
    ensures ReplaceChar(a + b, c, rep) == ReplaceChar(a, c, rep) + ReplaceChar(b, c, rep)
    decreases |a|
  {
    if a != [] {
      assert (a + b)[1..] == a[1..] + b;
      ReplaceConcat(a[1..], b, c, rep);
    } else {
      assert a + b == b;
    }
  }

  /** One more replace call escapes one more character. */
  lemma {:induction false} ReplaceExtendsEscape(s: string, special: set<char>, c: char)
    requires c != '\\' && c !in special
    ensures ReplaceChar(EscapeSet(s, special), c, ['\\', c]) == EscapeSet(s, special + {c})
    decreases |s|
  {
    if s != [] {
      var head := if s[0] in special then ['\\', s[0]] else [s[0]];
      ReplaceConcat(head, EscapeSet(s[1..], special), c, ['\\', c]);
      ReplaceExtendsEscape(s[1..], special, c);
      assert ReplaceChar(head, c, ['\\', c]) == (if s[0] in special + {c} then ['\\', s[0]] else [s[0]]) by {
        if s[0] in special {
          assert ReplaceChar(head, c, ['\\', c]) == ['\\'] + ReplaceChar([s[0]], c, ['\\', c]);
          assert head[1..] == [s[0]];
        } else {
          assert head[1..] == [];
        }
      }
    }
  }

  lemma {:induction false} EscapeSetEmpty(s: string)
    ensures EscapeSet(s, {}) == s
    decreases |s|
  {
    if s != [] {
      EscapeSetEmpty(s[1..]);
    }
  }

  /** The four replace calls escape the four Markdown characters in one pass over the text. */
  lemma EscapeMarkdownIsEscapeSet(s: string)
    ensures EscapeMarkdown(s) == EscapeSet(s, {'_', '*', '[', '`'})
  {
    EscapeSetEmpty(s);
    ReplaceExtendsEscape(s, {}, '_');
    assert {} + {'_'} == {'_'};
    ReplaceExtendsEscape(s, {'_'}, '*');
    assert {'_'} + {'*'} == {'_', '*'};
    ReplaceExtendsEscape(s, {'_', '*'}, '[');
    assert {'_', '*'} + {'['} == {'_', '*', '['};
    ReplaceExtendsEscape(s, {'_', '*', '['}, '`');
    assert {'_', '*', '['} + {'`'} == {'_', '*', '[', '`'};
  }

  lemma {:induction false} EscapeSetHead(s: string, special: set<char>)
    requires '\\' !in special
    ensures EscapeSet(s, special) == [] || EscapeSet(s, special)[0] !in special
  {
    if s != [] {
      assert EscapeSet(s, special)[0] == (if s[0] in special then '\\' else s[0]);
    }
  }

  /** Escaping loses nothing: unescaping gives back the text. */
  lemma {:induction false} UnescapeEscape(s: string, special: set<char>)
    requires '\\' !in special
    ensures Unescape(EscapeSet(s, special), special) == s
    decreases |s|
  {
    if s != [] {
      var rest := EscapeSet(s[1..], special);
      UnescapeEscape(s[1..], special);
      if s[0] in special {
        var t := ['\\', s[0]] + rest;
        assert t[2..] == rest;
      } else {
        var t := [s[0]] + rest;
        EscapeSetHead(s[1..], special);
        assert t[1..] == rest;
        assert |t| >= 2 ==> t[1] == rest[0];
      }
    }
  }

  /** The preview's title and content escaping can be undone exactly. */
  lemma EscapeMarkdownRoundTrip(s: string)
    ensures Unescape(EscapeMarkdown(s), {'_', '*', '[', '`'}) == s
  {
    EscapeMarkdownIsEscapeSet(s);
    UnescapeEscape(s, {'_', '*', '[', '`'});
  }

  // ---------------------------------------------------------------------
  // The preview
  // ---------------------------------------------------------------------

  /** The AI result (or its stand-in) the preview shows. */
  datatype Draft = Draft(title: string, content: string, minimizedTitle: string, buttons: seq<Button>)

  /** How many button lines the preview lists. */
  const PreviewButtonLines: nat := 6
  /** The caption cap of show_preview and the slack it leaves below the cap. */
  const MaxCaptionLength: nat := 1000
  const CaptionSlack: nat := 20
  const TruncationMark: string := "\n\n... (gekürzt)"

  /** The bold title, a blank line, then the content, both escaped. */
  function PreviewHead(d: Draft): string {
    "**" + EscapeMarkdown(d.title) + "**\n\n" + EscapeMarkdown(d.content)
  }

  /** The heading of the button list, with the number of buttons. */
  function ButtonsHeading(n: int): string {
    "\n\n**Buttons:** (" + IntToString(n) + ")\n"
  }

  function ButtonLine(b: Button): string {
    "• " + EscapeLabel(b.text) + "\n"
  }

  /** The closing line counting the buttons left unlisted. */
  function MoreLine(hidden: int): string {
    "• ... und " + IntToString(hidden) + " weitere\n"
  }

  /** The lines listing the first buttons, one bullet each. */
  function ButtonLines(bs: seq<Button>): string {
    if bs == [] then "" else ButtonLines(bs[..|bs| - 1]) + ButtonLine(bs[|bs| - 1])
  }

  /** The preview text before the length cap. */
  function PreviewText(d: Draft): string {
    var n := |d.buttons|;
    if n == 0 then PreviewHead(d)
    else
      var shown := if n <= PreviewButtonLines then d.buttons else d.buttons[..PreviewButtonLines];
      PreviewHead(d) + ButtonsHeading(n) + ButtonLines(shown)
      + (if n > PreviewButtonLines then MoreLine(n - PreviewButtonLines) else "")
  }

  /** The bullet loop of show_preview: one line per button, appended to `text`. */
  method AppendButtonLines(text: string, shown: seq<Button>) returns (t: string)
    ensures t == text + ButtonLines(shown)
  {
    t := text;
    var i := 0;
    while i < |shown|
      invariant 0 <= i <= |shown|
      invariant t == text + ButtonLines(shown[..i])
    {
      assert shown[..i + 1][..i] == shown[..i];
      t := t + ButtonLine(shown[i]);
      i := i + 1;
    }
    assert shown[..|shown|] == shown;
  }

  /** show_preview's text, built piece by piece as the source does. */
  method BuildPreviewText(d: Draft) returns (text: string)
    ensures text == PreviewText(d)
  {
    text := PreviewHead(d);
    var n := |d.buttons|;
    if n > 0 {
      text := text + ButtonsHeading(n);
      var shown := if n <= PreviewButtonLines then d.buttons else d.buttons[..PreviewButtonLines];
      text := AppendButtonLines(text, shown);
      if n > PreviewButtonLines {
        text := text + MoreLine(n - PreviewButtonLines);
      }
    }
  }

  /** The caption prefix; the preview emoji comes from a constants module this model does not include. */
  function PreviewPrefix(previewEmoji: string): string {
    previewEmoji + " **Vorschau:**\n\n"
  }

  /** The caption: prefix and text, cut and marked when together they exceed the cap. */
  function Caption(prefix: string, text: string): string {
    if |prefix + text| > MaxCaptionLength then
      prefix + SliceTo(text, MaxCaptionLength - |prefix| - CaptionSlack) + TruncationMark
    else prefix + text
  }

  /**
   * For any prefix of at most 980 characters the caption fits the cap; it
   * always starts with the prefix, continues with a beginning of the text,
   * and is the untouched concatenation when that already fits.
   */
  lemma CaptionBounds(prefix: string, text: string)
    ensures |prefix| <= MaxCaptionLength - CaptionSlack ==> |Caption(prefix, text)| <= MaxCaptionLength
    ensures |prefix + text| <= MaxCaptionLength ==> Caption(prefix, text) == prefix + text
    ensures StartsWith(Caption(prefix, text), prefix)
    ensures var c := Caption(prefix, text); var kept := c[|prefix|..];
      kept == text || (StartsWith(text, kept[..|kept| - |TruncationMark|]) && kept[|kept| - |TruncationMark|..] == TruncationMark)
  {
    var c := Caption(prefix, text);
    assert c[..|prefix|] == prefix;
    if |prefix + text| > MaxCaptionLength {
      var cut := SliceTo(text, MaxCaptionLength - |prefix| - CaptionSlack);
      var kept := c[|prefix|..];
      assert kept == cut + TruncationMark;
      assert kept[..|kept| - |TruncationMark|] == cut;
    }
  }

  /** skip_ai's short title: the first 50 characters and "..." when the text is longer. */
  function MinimizedTitle(text: string): (t: string)
    ensures |text| <= 50 ==> t == text
    ensures |text| > 50 ==> |t| == 53 && StartsWith(text, t[..50]) && t[50..] == "..."
  {
    if |text| > 50 then text[..50] + "..." else text
  }
}
