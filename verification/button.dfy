/** Code generation for a button: `generateButtonCode` in
    src/lib/codegen/button.ts. */
module Button {
  import opened Js
  import opened Text
  import opened Providers
  import opened ButtonStyles

  datatype Config = Config(styles: Styles, variant: Value, size: Value, labelText: Value)

  /** `styles?.padding?.px ?? 4` */
  function Px(s: Styles): (px: Value)
    ensures s.padding == NoPadding ==> px == Num(4)
    ensures s.padding.Pad? && s.padding.px != Undefined && s.padding.px != Null ==> px == s.padding.px
    ensures px != Undefined && px != Null
  {
    if s.padding.Pad? then Coalesce(s.padding.px, Num(4)) else Num(4)
  }

  /** `styles?.padding?.py ?? 1` */
  function Py(s: Styles): (py: Value)
    ensures s.padding == NoPadding ==> py == Num(1)
    ensures s.padding.Pad? && s.padding.py != Undefined && s.padding.py != Null ==> py == s.padding.py
    ensures py != Undefined && py != Null
  {
    if s.padding.Pad? then Coalesce(s.padding.py, Num(1)) else Num(1)
  }

  /** The provider's word for the canonical `size`. */
  function SizeToken(p: Provider, size: Value): string {
    match p
    case Mui => Show(Or(size, Str("medium")))
    case Chakra => BySize(TierOf(size), "sm", "lg", "md")
    case Antd => BySize(TierOf(size), "small", "large", "middle")
    case Shadcn => BySize(TierOf(size), "sm", "lg", "default")
    case _ => ""
  }

  /** mui passes an unset size as 'medium' and any other size verbatim; the
      others map small and large to their own tokens and every other value to
      their middle token. */
  lemma SizeTokens(size: Value)
    ensures SizeToken(Mui, size) == if Truthy(size) then Show(size) else "medium"
    ensures [SizeToken(Chakra, size), SizeToken(Antd, size), SizeToken(Shadcn, size)] ==
      if size == Str("small") then ["sm", "small", "sm"]
      else if size == Str("large") then ["lg", "large", "lg"]
      else ["md", "middle", "default"]
  {
  }

  /** "{py}px {px}px" */
  function PaddingText(s: Styles): string {
    Show(Py(s)) + "px " + Show(Px(s)) + "px"
  }

  // ---------------------------------------------------------------------
  // Style lists

  /** mui's `sx` entries: the overrides alone. */
  function MuiSx(s: Styles): seq<Entry> {
    Overrides([], Normalize(s), true)
  }

  /** The padding entries chakra's list starts with. */
  function ChakraPadding(s: Styles): seq<Entry> {
    [ DoubleQuoted("paddingLeft", Show(Px(s)) + "px"),
      DoubleQuoted("paddingRight", Show(Px(s)) + "px"),
      DoubleQuoted("paddingTop", Show(Py(s)) + "px"),
      DoubleQuoted("paddingBottom", Show(Py(s)) + "px") ]
  }

  /** The entries antd's list starts with. */
  function AntdFixed(s: Styles): seq<Entry> {
    [DoubleQuoted("height", "auto"), DoubleQuoted("padding", PaddingText(s))]
  }

  /** The entries shadcn's list starts with. */
  function ShadcnFixed(s: Styles): seq<Entry> {
    [DoubleQuoted("padding", PaddingText(s)), DoubleQuoted("height", "auto")]
  }

  /** aceternity's padding by size. */
  function AceternityPadding(size: Value, s: Styles): string {
    BySize(TierOf(size), "4px 12px", "12px 32px", PaddingText(s))
  }

  /** aceternity's font size by size. */
  function AceternityFontSize(size: Value): string {
    BySize(TierOf(size), "0.75rem", "1rem", "0.875rem")
  }

  /** The entries aceternity's list starts with. */
  function AceternityFixed(size: Value, s: Styles): seq<Entry> {
    [DoubleQuoted("padding", AceternityPadding(size, s)), DoubleQuoted("fontSize", AceternityFontSize(size))]
  }

  /** The style list each provider's branch builds. */
  function StyleList(p: Provider, c: Config): seq<Entry>
    requires p != Other
  {
    var n := Normalize(c.styles);
    match p
    case Mui => MuiSx(c.styles)
    case Chakra => Overrides(ChakraPadding(c.styles), n, false)
    case Antd => Overrides(AntdFixed(c.styles), n, false)
    case Shadcn => Overrides(ShadcnFixed(c.styles), n, false)
    case Aceternity => ColoursAndBorder(AceternityFixed(c.size, c.styles), n)
  }

  // ---------------------------------------------------------------------
  // Templates

  // The literal text of each template, between its interpolations.
  const MuiSxChunks: seq<string> := [@"
      sx={{
        ", @"
      }}"]
  const MuiChunks: seq<string> := [@"import { Button } from '@mui/material';

export function CustomButton() {
  return (
    <Button 
      variant=""", @"""
      size=""", @"""", @"
    >
      ", @"
    </Button>
  );
}"]
  const ChakraChunks: seq<string> := [@"import { Button } from '@chakra-ui/react';

export function CustomButton() {
  return (
    <Button
      variant=""", @"""
      size=""", @"""
      style={{
        ", @"
      }}
    >
      ", @"
    </Button>
  );
}"]
  const AntdChunks: seq<string> := [@"import { Button } from 'antd';

export function CustomButton() {
  return (
    <Button
      type=""", @"""
      size=""", @"""
      style={{
        ", @"
      }}
    >
      ", @"
    </Button>
  );
}"]
  const ShadcnChunks: seq<string> := [@"import { Button } from '@/components/ui/button';

export function CustomButton() {
  return (
    <Button
      variant=""", @"""
      size=""", @"""
      style={{
        ", @"
      }}
    >
      ", @"
    </Button>
  );
}"]
  const AceternityChunks: seq<string> := [@"export function CustomButton() {
  return (
    <button
      style={{
        ", @"
      }}
      className=""font-semibold transition duration-200 hover:shadow-[0_0_15px_rgba(59,130,246,0.5)]""
    >
      ", @"
    </button>
  );
}"]

  /** mui's `sx` attribute, or nothing when its list is empty. */
  function MuiSxBlock(sx: seq<Entry>): (r: string)
    ensures r == "" <==> sx == []
    ensures sx != [] ==> Contains(r, JoinEntries(sx, StyleSep))
  {
    if |sx| > 0 then
      FillContains(MuiSxChunks, [JoinEntries(sx, StyleSep)], 0);
      Fill(MuiSxChunks, [JoinEntries(sx, StyleSep)])
    else ""
  }

  /** The template of a provider's branch. */
  function Chunks(p: Provider): seq<string>
    requires p != Other
  {
    match p
    case Mui => MuiChunks
    case Chakra => ChakraChunks
    case Antd => AntdChunks
    case Shadcn => ShadcnChunks
    case Aceternity => AceternityChunks
  }

  /** The texts a provider's branch interpolates, in order; the label is
      last, and every branch but aceternity's starts with variant and size. */
  function Args(p: Provider, c: Config): (args: seq<string>)
    requires p != Other
    ensures |args| == |Chunks(p)| - 1 && args[|args| - 1] == Show(c.labelText)
    ensures p != Aceternity ==> args[..2] == [VariantToken(p, c.variant), SizeToken(p, c.size)]
  {
    var es := StyleList(p, c);
    var lbl := Show(c.labelText);
    match p
    case Mui => [VariantToken(p, c.variant), SizeToken(p, c.size), MuiSxBlock(es), lbl]
    case Aceternity => [JoinEntries(es, StyleSep), lbl]
    case _ => [VariantToken(p, c.variant), SizeToken(p, c.size), JoinEntries(es, StyleSep), lbl]
  }

  /** `generateButtonCode(provider, config)` as a value. */
  function Code(p: Provider, c: Config): (code: string)
    ensures p == Other ==> code == CodeNotAvailable
  {
    if p == Other then CodeNotAvailable else Fill(Chunks(p), Args(p, c))
  }

  /** `generateButtonCode`: extracts the style values, fills the provider's
      style list push by push, and fills in the provider's template. */
  method Generate(p: Provider, c: Config) returns (code: string)
    ensures code == Code(p, c)
  {
    var n := Normalize(c.styles);
    var lbl := Show(c.labelText);
    match p {
      case Mui =>
        var sxProps := PushOverrides([], n, true);
        code := Fill(MuiChunks, [VariantToken(p, c.variant), SizeToken(p, c.size), MuiSxBlock(sxProps), lbl]);
      case Chakra =>
        var styleProps := PushOverrides(ChakraPadding(c.styles), n, false);
        code := Fill(ChakraChunks, [VariantToken(p, c.variant), SizeToken(p, c.size), JoinEntries(styleProps, StyleSep), lbl]);
      case Antd =>
        var styleProps := PushOverrides(AntdFixed(c.styles), n, false);
        code := Fill(AntdChunks, [VariantToken(p, c.variant), SizeToken(p, c.size), JoinEntries(styleProps, StyleSep), lbl]);
      case Shadcn =>
        var styleProps := PushOverrides(ShadcnFixed(c.styles), n, false);
        code := Fill(ShadcnChunks, [VariantToken(p, c.variant), SizeToken(p, c.size), JoinEntries(styleProps, StyleSep), lbl]);
      case Aceternity =>
        var styleProps := PushColoursAndBorder(AceternityFixed(c.size, c.styles), n);
        code := Fill(AceternityChunks, [JoinEntries(styleProps, StyleSep), lbl]);
      case Other =>
        code := CodeNotAvailable;
    }
  }

  // ---------------------------------------------------------------------
  // Properties of the generated code

  /** mui: each sx entry is present exactly when its field is set (the
      border style: set to something other than 'solid'), and with none set
      there is no `sx` block at all. */
  lemma MuiSxEntries(s: Styles, k: string)
    ensures Has(MuiSx(s), k) <==>
      || (k == "borderRadius" && s.borderRadius != Undefined)
      || (k == "bgcolor" && s.backgroundColor != Undefined)
      || (k == "color" && s.fontColor != Undefined)
      || (k == "borderColor" && s.borderColor != Undefined)
      || (k == "borderWidth" && s.borderWidth != Undefined)
      || (k == "borderStyle" && Truthy(s.borderStyle) && s.borderStyle != Str("solid"))
    ensures MuiSxBlock(MuiSx(s)) == "" <==>
      && s.borderRadius == Undefined && s.backgroundColor == Undefined
      && s.fontColor == Undefined && s.borderColor == Undefined && s.borderWidth == Undefined
      && (!Truthy(s.borderStyle) || s.borderStyle == Str("solid"))
  {
    var n := Normalize(s);
    OverridesKeys([], n, true, k);
    OverridesNone([], n, true);
  }

  /** chakra always starts with its four padding entries, left, right, top,
      bottom, which hold 4px, 4px, 1px, 1px when padding is unset. */
  lemma ChakraPaddingFirst(s: Styles)
    ensures var es := StyleList(Chakra, Config(s, Undefined, Undefined, Undefined));
      && |es| >= 4
      && Keys(es[..4]) == ["paddingLeft", "paddingRight", "paddingTop", "paddingBottom"]
      && (s.padding == NoPadding ==>
            es[..4] == [DoubleQuoted("paddingLeft", "4px"), DoubleQuoted("paddingRight", "4px"),
                        DoubleQuoted("paddingTop", "1px"), DoubleQuoted("paddingBottom", "1px")])
  {
    var es := StyleList(Chakra, Config(s, Undefined, Undefined, Undefined));
    assert es[..4] == ChakraPadding(s);
    assert Show(Num(4)) + "px" == "4px" && Show(Num(1)) + "px" == "1px";
  }

  /** aceternity padding is '4px 12px' for small, '12px 32px' for large and
      "{py}px {px}px" otherwise, which is "1px 4px" when padding is unset. */
  lemma AceternityPaddingSpec(size: Value, s: Styles)
    ensures AceternityPadding(size, s) ==
      if size == Str("small") then "4px 12px"
      else if size == Str("large") then "12px 32px"
      else Show(Py(s)) + "px " + Show(Px(s)) + "px"
    ensures s.padding == NoPadding && TierOf(size) == Medium ==> AceternityPadding(size, s) == "1px 4px"
  {
    assert Show(Num(4)) == "4" && Show(Num(1)) == "1";
  }

  /** The aceternity list always ends with the border shorthand, and sets
      padding, font size and border always and the radius, background and
      text colour exactly when set. */
  lemma AceternityKeys(size: Value, s: Styles, k: string)
    ensures var es := StyleList(Aceternity, Config(s, Undefined, size, Undefined));
      && es[|es| - 1] == DoubleQuoted("border", Join(BorderParts(Normalize(s)), " "))
      && (Has(es, k) <==>
            || k == "padding" || k == "fontSize" || k == "border"
            || (k == "borderRadius" && s.borderRadius != Undefined)
            || (k == "backgroundColor" && s.backgroundColor != Undefined)
            || (k == "color" && s.fontColor != Undefined))
  {
    var fixed := AceternityFixed(size, s);
    assert StyleList(Aceternity, Config(s, Undefined, size, Undefined)) == ColoursAndBorder(fixed, Normalize(s));
    ColoursAndBorderKeys(fixed, Normalize(s), k);
    HasPair(fixed[0], fixed[1], k);
    assert fixed == [fixed[0], fixed[1]];
  }

  /** In every provider's list a radius entry is present exactly when the
      radius is set, and a numeric radius r is written "r" + "px". */
  lemma RadiusEntry(p: Provider, c: Config)
    requires p != Other
    ensures Has(StyleList(p, c), "borderRadius") <==> c.styles.borderRadius != Undefined
    ensures c.styles.borderRadius.Num? ==>
      Quoted(p == Mui, "borderRadius", IntToString(c.styles.borderRadius.n) + "px") in StyleList(p, c)
  {
    var s := c.styles;
    var n := Normalize(s);
    var k := "borderRadius";
    match p {
      case Mui =>
        OverridesKeys([], n, true, k);
        OverridesRadius([], s, true);
      case Chakra =>
        OverridesKeys(ChakraPadding(s), n, false, k);
        OverridesRadius(ChakraPadding(s), s, false);
        assert !Has(ChakraPadding(s), k);
      case Antd =>
        OverridesKeys(AntdFixed(s), n, false, k);
        OverridesRadius(AntdFixed(s), s, false);
        assert !Has(AntdFixed(s), k);
      case Shadcn =>
        OverridesKeys(ShadcnFixed(s), n, false, k);
        OverridesRadius(ShadcnFixed(s), s, false);
        assert !Has(ShadcnFixed(s), k);
      case Aceternity =>
        AceternityKeys(c.size, s, k);
    }
  }

  /** Every supported provider interpolates the label verbatim. */
  lemma LabelInCode(p: Provider, c: Config)
    requires p != Other
    ensures Contains(Code(p, c), Show(c.labelText))
  {
    FillContains(Chunks(p), Args(p, c), |Args(p, c)| - 1);
  }
}
