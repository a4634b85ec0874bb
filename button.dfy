/**
 * The shared button: from its props to the element it renders (a download
 * anchor, a link anchor or a `<button>`), that element's attributes and the
 * children shown inside it.
 *
 * Optional string props are `Option<string>`; like JavaScript, the model
 * treats a missing or empty string as false (`Truthy`). A prop left out
 * takes its default: variant `Primary`, className `""`, isLoading `false`.
 */
module Button {
  import opened Wrappers

  datatype Variant = Primary | Secondary

  /** A caller's click handler, known only by name. */
  datatype Handler = Handler(name: string)

  datatype Props = Props(
    text: string,
    variant: Option<Variant>,
    className: Option<string>,
    link: Option<string>,
    href: Option<string>,
    download: Option<string>,
    isLoading: Option<bool>,
    ariaLabel: Option<string>,
    hasIcon: bool,
    onClick: Option<Handler>)

  /** The attributes every kind of element receives (`commonProps`). */
  datatype Common = Common(
    className: string,
    ariaLabel: string,
    ariaDisabled: bool,
    onClick: Option<Handler>,
    role: string)

  datatype Element =
    | Anchor(common: Common, href: string, download: Option<string>,
             target: Option<string>, rel: Option<string>, tabIndex: int)
    | ButtonElement(common: Common, buttonType: string, disabled: bool)

  /** What is drawn inside the element: a spinner, an icon, and the text. */
  datatype Content = Content(spinner: bool, icon: bool, text: string)

  datatype Rendered = Rendered(element: Element, content: Content)

  const BaseStyles: string :=
    "inline-flex items-center justify-center px-6 py-2 rounded-lg transition-all duration-200 " +
    "whitespace-nowrap text-center focus:outline-none focus:ring-2 focus:ring-offset-2 " +
    "focus:ring-deep-purple disabled:opacity-60 disabled:cursor-not-allowed"

  function VariantStyle(v: Variant): string
  {
    match v
    case Primary =>
      "bg-system-gray hover:bg-cyan-400 text-black shadow-lg hover:shadow-xl " +
      "active:transform active:scale-95 border border-gray-200 hover:border-cyan-400"
    case Secondary =>
      "bg-transparent border border-system-gray hover:border-pale-sage text-gray-300 " +
      "hover:text-pale-sage active:transform active:scale-95"
  }

  /** JavaScript truthiness of an optional string. */
  predicate Truthy(s: Option<string>)
  {
    s.Some? && s.value != ""
  }

  function VariantOf(p: Props): Variant
  {
    if p.variant.Some? then p.variant.value else Primary
  }

  function ExtraClass(p: Props): string
  {
    if p.className.Some? then p.className.value else ""
  }

  predicate Loading(p: Props)
  {
    p.isLoading == Some(true)
  }

  /** `link.startsWith('#') || link.startsWith('/')` */
  predicate IsInternalLink(link: string)
    ensures IsInternalLink(link) <==> |link| > 0 && (link[0] == '#' || link[0] == '/')
  {
    "#" <= link || "/" <= link
  }

  function CommonProps(p: Props): Common
  {
    Common(
      BaseStyles + " " + VariantStyle(VariantOf(p)) + " " + ExtraClass(p),
      if Truthy(p.ariaLabel) then p.ariaLabel.value else p.text,
      Loading(p),
      if !Loading(p) then p.onClick else None,
      "button")
  }

  /** The rendered button, as the decision table of the component promises it. */
  function Render(p: Props): (r: Rendered)
    // The element kind: an anchor exactly when there is a URL to go to.
    ensures r.element.Anchor? <==> Truthy(p.href) || Truthy(p.link)
    // A download URL wins over a link, whatever the link is.
    ensures Truthy(p.href) ==>
      r.element.href == p.href.value && r.element.download == p.download &&
      r.element.target.None? && r.element.rel.None?
    // A link opens in place exactly when it is internal, otherwise in a new tab without opener.
    ensures !Truthy(p.href) && Truthy(p.link) ==>
      r.element.href == p.link.value && r.element.download.None? &&
      (r.element.target == Some("_self") <==> IsInternalLink(p.link.value)) &&
      (r.element.target == Some("_blank") <==> !IsInternalLink(p.link.value)) &&
      (r.element.rel.None? <==> IsInternalLink(p.link.value)) &&
      (r.element.rel.Some? ==> r.element.rel.value == "noopener noreferrer")
    // Anchors leave the tab order exactly while loading.
    ensures r.element.Anchor? ==>
      (r.element.tabIndex == -1 <==> Loading(p)) && (r.element.tabIndex == 0 <==> !Loading(p))
    ensures r.element.ButtonElement? ==>
      r.element.buttonType == "button" && r.element.disabled == Loading(p)
    // Loading withholds the click handler and is announced as disabled.
    ensures r.element.common.ariaDisabled == Loading(p)
    ensures Loading(p) ==> r.element.common.onClick.None?
    ensures !Loading(p) ==> r.element.common.onClick == p.onClick
    ensures r.element.common.role == "button"
    // The accessible name falls back to the text.
    ensures Truthy(p.ariaLabel) ==> r.element.common.ariaLabel == p.ariaLabel.value
    ensures !Truthy(p.ariaLabel) ==> r.element.common.ariaLabel == p.text
    // A spinner while loading, otherwise the icon when there is one; never both.
    ensures r.content.spinner <==> Loading(p)
    ensures r.content.icon <==> !Loading(p) && p.hasIcon
    ensures !(r.content.spinner && r.content.icon) && r.content.text == p.text
  {
    var common := CommonProps(p);
    var content := Content(Loading(p), !Loading(p) && p.hasIcon, p.text);
    var tabIndex := if Loading(p) then -1 else 0;
    if Truthy(p.href) then
      Rendered(Anchor(common, p.href.value, p.download, None, None, tabIndex), content)
    else if Truthy(p.link) then
      var internal := IsInternalLink(p.link.value);
      Rendered(Anchor(common, p.link.value, None,
                      if internal then Some("_self") else Some("_blank"),
                      if internal then None else Some("noopener noreferrer"),
                      tabIndex), content)
    else
      Rendered(ButtonElement(common, "button", Loading(p)), content)
  }

  /** With a download URL, the link prop has no effect on what is rendered. */
  lemma HrefTakesPrecedence(p: Props, link: Option<string>)
    requires Truthy(p.href)
    ensures Render(p.(link := link)) == Render(p)
  {
  }

  // ---------------------------------------------------------------------
  // The class list
  // ---------------------------------------------------------------------

  /** The word being read, as a class list: nothing when it is empty. */
  function Emit(word: string): seq<string>
  {
    if word == "" then [] else [word]
  }

  /**
   * The class names in `word + s`, where `word` is the part of the current
   * word read so far: the space-separated words, empty ones dropped.
   */
  function TokensFrom(s: string, word: string): (names: seq<string>)
    requires ' ' !in word
    ensures forall k :: 0 <= k < |names| ==> names[k] != "" && ' ' !in names[k]
  {
    if s == [] then Emit(word)
    else if s[0] == ' ' then Emit(word) + TokensFrom(s[1..], "")
    else TokensFrom(s[1..], word + [s[0]])
  }

  /** The class names in a `className` string: its space-separated words, empty ones dropped. */
  function Tokens(s: string): seq<string>
  {
    TokensFrom(s, "")
  }

  /** Joining two class strings with a space joins their class lists. */
  lemma {:induction false} TokensFromJoin(a: string, b: string, word: string)
    requires ' ' !in word
    ensures TokensFrom(a + " " + b, word) == TokensFrom(a, word) + Tokens(b)
  {
    var c := a + " " + b;
    if a == [] {
      assert c[0] == ' ' && c[1..] == b;
    } else {
      assert c[0] == a[0] && c[1..] == a[1..] + " " + b;
      if a[0] == ' ' {
        TokensFromJoin(a[1..], b, "");
      } else {
        TokensFromJoin(a[1..], b, word + [a[0]]);
      }
    }
  }

  lemma TokensJoin(a: string, b: string)
    ensures Tokens(a + " " + b) == Tokens(a) + Tokens(b)
  {
    TokensFromJoin(a, b, "");
  }

  /** Joining three class strings with spaces joins their class lists. */
  lemma TokensJoin3(a: string, b: string, c: string)
    ensures Tokens(a + " " + b + " " + c) == Tokens(a) + Tokens(b) + Tokens(c)
  {
    assert a + " " + b + " " + c == a + " " + (b + " " + c);
    TokensJoin(a, b + " " + c);
    TokensJoin(b, c);
  }

  /** The class list is the base classes, then the variant's, then the caller's extra classes. */
  lemma ClassList(p: Props)
    ensures Tokens(Render(p).element.common.className) ==
      Tokens(BaseStyles) + Tokens(VariantStyle(VariantOf(p))) + Tokens(ExtraClass(p))
  {
    assert Render(p).element.common == CommonProps(p);
    TokensJoin3(BaseStyles, VariantStyle(VariantOf(p)), ExtraClass(p));
  }
}
