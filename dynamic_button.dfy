/**
  The reusable button: prop defaults, the size and variant tables, the
  choice between a link and a button element, its content, and the hover
  handlers that write the element's inline style.
 */
module DynamicButton {
  import opened Common

  datatype Variant = Primary | Secondary | Outline | Ghost
  datatype Size = Sm | Md | Lg
  datatype IconPosition = IconLeft | IconRight

  /** An icon element, identified by name. */
  datatype Icon = Icon(name: string)

  /**
    The props as passed. `labelText` is the `label` prop (a Dafny keyword);
    `hasOnClick` says whether an `onClick` handler was given; `children` is
    the text passed between the tags.
   */
  datatype Props = Props(
    labelText: string,
    hasOnClick: bool,
    href: Option<string>,
    variant: Option<Variant>,
    size: Option<Size>,
    icon: Option<Icon>,
    iconPosition: Option<IconPosition>,
    disabled: Option<bool>,
    fullWidth: Option<bool>,
    className: Option<string>,
    children: Option<string>)

  /** The props after destructuring with defaults. */
  datatype Resolved = Resolved(
    variant: Variant,
    size: Size,
    iconPosition: IconPosition,
    disabled: bool,
    fullWidth: bool,
    className: string)

  /**
    Destructuring defaults replace a prop only when it is omitted
    (`undefined`); unlike `||`, a given `false` or `""` is kept.
   */
  function ResolveProps(props: Props): (r: Resolved)
    ensures props.variant.None? ==> r.variant == Primary
    ensures props.size.None? ==> r.size == Md
    ensures props.iconPosition.None? ==> r.iconPosition == IconLeft
    ensures props.disabled.None? ==> !r.disabled
    ensures props.fullWidth.None? ==> !r.fullWidth
    ensures props.className.None? ==> r.className == ""
    ensures props.variant.Some? ==> r.variant == props.variant.value
    ensures props.size.Some? ==> r.size == props.size.value
    ensures props.iconPosition.Some? ==> r.iconPosition == props.iconPosition.value
    ensures props.disabled.Some? ==> r.disabled == props.disabled.value
    ensures props.fullWidth.Some? ==> r.fullWidth == props.fullWidth.value
    ensures props.className.Some? ==> r.className == props.className.value
  {
    Resolved(
      props.variant.GetOr(Primary),
      props.size.GetOr(Md),
      props.iconPosition.GetOr(IconLeft),
      props.disabled.GetOr(false),
      props.fullWidth.GetOr(false),
      props.className.GetOr(""))
  }

  // ---------------------------------------------------------------------
  // The tables

  datatype SizeStyle = SizeStyle(padding: string, fontSize: string)

  /** `sizeConfig`. */
  function SizeConfig(size: Size): (r: SizeStyle)
    ensures size == Sm ==> r == SizeStyle("8px 16px", "0.875rem")
    ensures size == Md ==> r == SizeStyle("12px 24px", "1rem")
    ensures size == Lg ==> r == SizeStyle("16px 32px", "1.125rem")
  {
    match size
    case Sm => SizeStyle("8px 16px", "0.875rem")
    case Md => SizeStyle("12px 24px", "1rem")
    case Lg => SizeStyle("16px 32px", "1.125rem")
  }

  /** A CSS `border` shorthand `<width> <style> <colour>`. */
  datatype Border = Border(width: string, lineStyle: string, color: string) {
    /** The shorthand as written in the table, e.g. "2px solid var(--color-primary)". */
    function Text(): string {
      Join([width, lineStyle, color], ' ')
    }

    predicate WellFormed() {
      ' ' !in width && ' ' !in lineStyle && ' ' !in color
    }
  }

  datatype VariantStyle = VariantStyle(
    backgroundColor: string,
    color: string,
    border: Border,
    hoverBg: string,
    hoverBorder: string)

  /** `variantStyles`. */
  function VariantStyles(variant: Variant): (r: VariantStyle)
    ensures variant == Primary ==> r == VariantStyle("var(--color-primary)", "white",
      Border("2px", "solid", "var(--color-primary)"), "var(--color-primary-dark)", "var(--color-primary-dark)")
    ensures variant == Secondary ==> r == VariantStyle("var(--color-secondary)", "white",
      Border("2px", "solid", "var(--color-secondary)"), "var(--color-secondary-dark)", "var(--color-secondary-dark)")
    ensures variant == Outline ==> r == VariantStyle("transparent", "var(--color-primary)",
      Border("2px", "solid", "var(--color-primary)"), "var(--color-primary-light)", "var(--color-primary)")
    ensures variant == Ghost ==> r == VariantStyle("transparent", "var(--color-text)",
      Border("2px", "solid", "transparent"), "var(--color-bg-secondary)", "transparent")
  {
    match variant
    case Primary => VariantStyle("var(--color-primary)", "white",
      Border("2px", "solid", "var(--color-primary)"), "var(--color-primary-dark)", "var(--color-primary-dark)")
    case Secondary => VariantStyle("var(--color-secondary)", "white",
      Border("2px", "solid", "var(--color-secondary)"), "var(--color-secondary-dark)", "var(--color-secondary-dark)")
    case Outline => VariantStyle("transparent", "var(--color-primary)",
      Border("2px", "solid", "var(--color-primary)"), "var(--color-primary-light)", "var(--color-primary)")
    case Ghost => VariantStyle("transparent", "var(--color-text)",
      Border("2px", "solid", "transparent"), "var(--color-bg-secondary)", "transparent")
  }

  /** Every border in the table has exactly three space-free parts. */
  lemma VariantBordersWellFormed(variant: Variant)
    ensures VariantStyles(variant).border.WellFormed()
  {
    var b := VariantStyles(variant).border;
    assert b.width == "2px" && b.lineStyle == "solid";
    assert b.width == ['2', 'p', 'x'];
    assert b.lineStyle == ['s', 'o', 'l', 'i', 'd'];
    if b.color == "var(--color-primary)" {
      assert forall i :: 0 <= i < |b.color| ==> b.color[i] != ' ';
    } else if b.color == "var(--color-secondary)" {
      assert forall i :: 0 <= i < |b.color| ==> b.color[i] != ' ';
    } else {
      assert b.color == "transparent";
      assert forall i :: 0 <= i < |b.color| ==> b.color[i] != ' ';
    }
  }

  /**
    `border.split(" ")[2]`: the third space-separated token of a shorthand,
    or nothing when there are fewer than three.
   */
  function BorderColorToken(border: string): (r: Option<string>)
    ensures r.Some? ==> ' ' !in r.value
  {
    var tokens := SplitOn(border, ' ');
    if |tokens| > 2 then Some(tokens[2]) else None
  }

  /** Splitting a well-formed shorthand gives back its colour. */
  lemma BorderColorTokenOfShorthand(border: Border)
    requires border.WellFormed()
    ensures BorderColorToken(border.Text()) == Some(border.color)
  {
    SplitOnJoin([border.width, border.lineStyle, border.color], ' ');
  }

  // ---------------------------------------------------------------------
  // The rendered element

  datatype BaseStyle = BaseStyle(
    width: string,
    padding: string,
    fontSize: string,
    backgroundColor: string,
    color: string,
    border: string,
    cursor: string,
    opacity: real)

  /** `baseButtonStyle`, the parts that depend on the props. */
  function BaseButtonStyle(r: Resolved): (s: BaseStyle)
    ensures s.padding == SizeConfig(r.size).padding && s.fontSize == SizeConfig(r.size).fontSize
    ensures s.backgroundColor == VariantStyles(r.variant).backgroundColor
    ensures s.color == VariantStyles(r.variant).color
    ensures s.border == VariantStyles(r.variant).border.Text()
    ensures s.width == (if r.fullWidth then "100%" else "auto")
    ensures r.disabled ==> s.cursor == "not-allowed" && s.opacity == 0.6
    ensures !r.disabled ==> s.cursor == "pointer" && s.opacity == 1.0
  {
    var v, z := VariantStyles(r.variant), SizeConfig(r.size);
    BaseStyle(
      if r.fullWidth then "100%" else "auto",
      z.padding, z.fontSize, v.backgroundColor, v.color, v.border.Text(),
      if r.disabled then "not-allowed" else "pointer",
      if r.disabled then 0.6 else 1.0)
  }

  datatype Part = IconPart(icon: Icon) | TextPart(text: string)

  /**
    `buttonContent`: the icon on its side, when there is one, around the text
    `children || label`.
   */
  function ButtonContent(props: Props): (r: seq<Part>)
    ensures var pos := ResolveProps(props).iconPosition;
      r == (if props.icon.Some? && pos == IconLeft then [IconPart(props.icon.value)] else []) +
           [TextPart(OrDefault(props.children, props.labelText))] +
           (if props.icon.Some? && pos == IconRight then [IconPart(props.icon.value)] else [])
  {
    var pos := ResolveProps(props).iconPosition;
    var text := [TextPart(OrDefault(props.children, props.labelText))];
    if props.icon.None? then text
    else if pos == IconLeft then [IconPart(props.icon.value)] + text
    else text + [IconPart(props.icon.value)]
  }

  /** Exactly one text part; the icon appears once, on its side, or not at all. */
  lemma ButtonContentShape(props: Props)
    ensures var r := ButtonContent(props);
      var pos := ResolveProps(props).iconPosition;
      && |r| == (if props.icon.Some? then 2 else 1)
      && (props.icon.Some? && pos == IconLeft ==> r[0] == IconPart(props.icon.value) && r[1].TextPart?)
      && (props.icon.Some? && pos == IconRight ==> r[0].TextPart? && r[1] == IconPart(props.icon.value))
      && (forall k :: 0 <= k < |r| && r[k].TextPart? ==>
            r[k].text == (if Truthy(props.children) then props.children.value else props.labelText))
  {
  }

  datatype Element =
    | Anchor(href: string, style: BaseStyle, className: string, content: seq<Part>)
    | Button(hasOnClick: bool, disabled: bool, style: BaseStyle, className: string, content: seq<Part>)

  /**
    `DynamicButton()`: a non-empty `href` renders a link, which carries
    neither the click handler nor the `disabled` attribute; otherwise a
    button element.
   */
  function Render(props: Props): (e: Element)
    ensures e.Anchor? <==> Truthy(props.href)
    ensures e.Anchor? ==> e.href == props.href.value
    ensures e.Button? ==> e.hasOnClick == props.hasOnClick && e.disabled == ResolveProps(props).disabled
    ensures e.style == BaseButtonStyle(ResolveProps(props)) && e.content == ButtonContent(props)
    ensures e.className == ResolveProps(props).className
  {
    var r := ResolveProps(props);
    if Truthy(props.href) then
      Anchor(props.href.value, BaseButtonStyle(r), r.className, ButtonContent(props))
    else
      Button(props.hasOnClick, r.disabled, BaseButtonStyle(r), r.className, ButtonContent(props))
  }

  // ---------------------------------------------------------------------
  // Hover handlers

  /** The inline style fields the hover handlers write, on one rendered element. */
  class HoverTarget {
    const style: VariantStyle
    const disabled: bool
    var backgroundColor: string
    var borderColor: string
    var transform: string
    var boxShadow: string

    /**
      The element as first rendered: background and border colour from the
      variant's base style (the `border` shorthand sets the colour), no
      transform or shadow set.
     */
    constructor (r: Resolved)
      ensures style == VariantStyles(r.variant) && disabled == r.disabled
      ensures backgroundColor == style.backgroundColor && borderColor == style.border.color
      ensures transform == "" && boxShadow == ""
    {
      style := VariantStyles(r.variant);
      disabled := r.disabled;
      backgroundColor := VariantStyles(r.variant).backgroundColor;
      borderColor := VariantStyles(r.variant).border.color;
      transform := "";
      boxShadow := "";
    }

    /** `handleMouseEnter`: the hover colours, a lift and a large shadow, unless disabled. */
    method MouseEnter()
      modifies this
      ensures disabled ==>
        && backgroundColor == old(backgroundColor) && borderColor == old(borderColor)
        && transform == old(transform) && boxShadow == old(boxShadow)
      ensures !disabled ==>
        && backgroundColor == style.hoverBg && borderColor == style.hoverBorder
        && transform == "translateY(-2px)" && boxShadow == "var(--shadow-lg)"
    {
      if !disabled {
        backgroundColor := style.hoverBg;
        borderColor := style.hoverBorder;
        transform := "translateY(-2px)";
        boxShadow := "var(--shadow-lg)";
      }
    }

    /**
      `handleMouseLeave`, disabled or not: the base background, the third
      token of the border shorthand as border colour, no lift and a small
      shadow. Were there no third token, the assignment of `undefined` would
      be ignored by the style object and the colour would stay.
     */
    method MouseLeave()
      modifies this
      ensures backgroundColor == style.backgroundColor
      ensures var token := BorderColorToken(style.border.Text());
        borderColor == if token.Some? then token.value else old(borderColor)
      ensures transform == "translateY(0)" && boxShadow == "var(--shadow-sm)"
    {
      backgroundColor := style.backgroundColor;
      var token := BorderColorToken(style.border.Text());
      if token.Some? {
        borderColor := token.value;
      }
      transform := "translateY(0)";
      boxShadow := "var(--shadow-sm)";
    }
  }

  /**
    Hovering in and out leaves the background and border colour the element
    was rendered with, for every variant, disabled or not, whatever colours
    it showed before.
   */
  method HoverInAndOut(target: HoverTarget, variant: Variant)
    requires target.style == VariantStyles(variant)
    modifies target
    ensures target.backgroundColor == target.style.backgroundColor
    ensures target.borderColor == target.style.border.color
  {
    VariantBordersWellFormed(variant);
    BorderColorTokenOfShorthand(target.style.border);
    target.MouseEnter();
    target.MouseLeave();
  }
}
