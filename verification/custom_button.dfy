/** The button's Tailwind class strings, chosen by its background and text variants. */
module CustomButton {
  import opened Wrappers

  const PRIMARY_BG: string := "bg-[#6366f1]"
  const DEFAULT_TEXT: string := "text-neutral-50"
  const CONTAINER_LAYOUT: string :=
    "w-full rounded-full p-3 flex flex-row justify-center items-center shadow-md shadow-neutral-400/70"
  const TEXT_LAYOUT: string := "text-lg font-bold"
  /** `bg-transparent border-neutral-300 border-[0.5px]`, in pieces the verifier can unfold. */
  const OUTLINE_BG: string := "bg-transparent" + " border-neutral-300" + " border-[0.5px]"

  /** A variant prop; `None` is `undefined`. */
  function BgVariantStyle(variant: Option<string>): (r: string)
    ensures |r| > 3 && r[..3] == "bg-"
  {
    match variant
    case Some("secondary") => "bg-neutral-600"
    case Some("danger") => "bg-rose-500"
    case Some("success") => "bg-emerald-500"
    case Some("outline") => OUTLINE_BG
    case _ => assert PRIMARY_BG[..3] == "bg-"; PRIMARY_BG
  }

  function TextVariantStyle(variant: Option<string>): (r: string)
    ensures |r| > 5 && r[..5] == "text-"
  {
    match variant
    case Some("primary") => "text-neutral-900"
    case Some("secondary") => "text-neutral-100"
    case Some("danger") => "text-rose-100"
    case Some("success") => "text-emerald-100"
    case _ => DEFAULT_TEXT
  }

  predicate IsNamedBgVariant(variant: Option<string>) {
    variant == Some("secondary") || variant == Some("danger") || variant == Some("success") || variant == Some("outline")
  }

  predicate IsNamedTextVariant(variant: Option<string>) {
    variant == Some("primary") || variant == Some("secondary") || variant == Some("danger") || variant == Some("success")
  }

  /** The indigo background is the fallback: it is chosen exactly for the variants without a case. */
  lemma BgFallsBackToPrimary(variant: Option<string>)
    ensures BgVariantStyle(variant) == PRIMARY_BG <==> !IsNamedBgVariant(variant)
  {
  }

  /** The near-white text is the fallback: it is chosen exactly for the variants without a case. */
  lemma TextFallsBackToDefault(variant: Option<string>)
    ensures TextVariantStyle(variant) == DEFAULT_TEXT <==> !IsNamedTextVariant(variant)
  {
  }

  /** The class each named background variant selects. */
  lemma KnownBgVariants()
    ensures BgVariantStyle(Some("secondary")) == "bg-neutral-600"
    ensures BgVariantStyle(Some("danger")) == "bg-rose-500"
    ensures BgVariantStyle(Some("success")) == "bg-emerald-500"
    ensures BgVariantStyle(Some("outline")) == "bg-transparent" + " border-neutral-300" + " border-[0.5px]"
    ensures BgVariantStyle(Some("primary")) == "bg-[#6366f1]"
  {
  }

  /** The class each named text variant selects. */
  lemma KnownTextVariants()
    ensures TextVariantStyle(Some("primary")) == "text-neutral-900"
    ensures TextVariantStyle(Some("secondary")) == "text-neutral-100"
    ensures TextVariantStyle(Some("danger")) == "text-rose-100"
    ensures TextVariantStyle(Some("success")) == "text-emerald-100"
    ensures TextVariantStyle(Some("default")) == "text-neutral-50"
  {
  }

  /**
   * A named background variant has a class no other variant selects; with the fallback lemma,
   * the five classes of the switch are pairwise different.
   */
  lemma BgVariantsDistinct(v: Option<string>, w: Option<string>)
    ensures IsNamedBgVariant(v) && BgVariantStyle(v) == BgVariantStyle(w) ==> v == w
  {
  }

  /**
   * A named text variant has a class no other variant selects; with the fallback lemma,
   * the five classes of the switch are pairwise different.
   */
  lemma TextVariantsDistinct(v: Option<string>, w: Option<string>)
    ensures IsNamedTextVariant(v) && TextVariantStyle(v) == TextVariantStyle(w) ==> v == w
  {
  }

  /** The props the styling reads; an absent one is `undefined`. */
  datatype ButtonProps = ButtonProps(bgVariant: Option<string>, textVariant: Option<string>, className: Option<string>)

  /** `${value}` for a string-or-undefined. */
  function Interpolate(value: Option<string>): string {
    value.GetOr("undefined")
  }

  /** The container's classes: layout, then background (default `primary`), then `className`. */
  function ContainerClass(props: ButtonProps): (r: string)
    ensures |r| > |CONTAINER_LAYOUT| + 4 && r[..|CONTAINER_LAYOUT| + 4] == CONTAINER_LAYOUT + " bg-"
  {
    var bg := BgVariantStyle(Some(props.bgVariant.GetOr("primary")));
    var r := CONTAINER_LAYOUT + " " + bg + " " + Interpolate(props.className);
    assert r[..|CONTAINER_LAYOUT| + 4] == CONTAINER_LAYOUT + " " + bg[..3];
    r
  }

  /** The label's classes: layout, then text style (default `default`). */
  function TextClass(props: ButtonProps): (r: string)
    ensures |r| > |TEXT_LAYOUT| + 6 && r[..|TEXT_LAYOUT| + 6] == TEXT_LAYOUT + " text-"
  {
    var style := TextVariantStyle(Some(props.textVariant.GetOr("default")));
    var r := TEXT_LAYOUT + " " + style;
    assert r[..|TEXT_LAYOUT| + 6] == TEXT_LAYOUT + " " + style[..5];
    r
  }

  /** The container string is its three parts, separated by single spaces and nothing else. */
  lemma ContainerClassParts(props: ButtonProps)
    ensures var r, bg, cls := ContainerClass(props), BgVariantStyle(Some(props.bgVariant.GetOr("primary"))), Interpolate(props.className);
      && |r| == |CONTAINER_LAYOUT| + 1 + |bg| + 1 + |cls|
      && r[..|CONTAINER_LAYOUT|] == CONTAINER_LAYOUT
      && r[|CONTAINER_LAYOUT|] == ' '
      && r[|CONTAINER_LAYOUT| + 1..|CONTAINER_LAYOUT| + 1 + |bg|] == bg
      && r[|CONTAINER_LAYOUT| + 1 + |bg|] == ' '
      && r[|r| - |cls|..] == cls
  {
  }

  /** The label string is the text layout and, after a single space, the text variant's class. */
  lemma TextClassParts(props: ButtonProps)
    ensures var r, style := TextClass(props), TextVariantStyle(Some(props.textVariant.GetOr("default")));
      && |r| == |TEXT_LAYOUT| + 1 + |style|
      && r[..|TEXT_LAYOUT|] == TEXT_LAYOUT
      && r[|TEXT_LAYOUT|] == ' '
      && r[|TEXT_LAYOUT| + 1..] == style
  {
  }

  /** With every prop left out the button is indigo with near-white text, and `className` prints as `undefined`. */
  lemma DefaultButton()
    ensures ContainerClass(ButtonProps(None, None, None)) == CONTAINER_LAYOUT + " " + PRIMARY_BG + " undefined"
    ensures TextClass(ButtonProps(None, None, None)) == TEXT_LAYOUT + " " + DEFAULT_TEXT
  {
  }
}
