/** Code generation for an icon button: `generateIconButtonCode` in
    src/lib/codegen/iconButton.ts. Every branch emits two components, an
    icon-only button and an icon-plus-text button, each with its own style
    list. */
module IconButton {
  import opened Js
  import opened Text
  import opened Providers
  import opened ButtonStyles

  /** The configuration; `styles.padding` is not read by this generator. */
  datatype Config = Config(styles: Styles, variant: Value, size: Value, labelText: Value)

  /** `label || 'Search'` */
  function DisplayLabel(labelText: Value): (r: string)
    ensures !Truthy(labelText) ==> r == "Search"
    ensures Truthy(labelText) ==> r == Show(labelText)
  {
    Show(Or(labelText, Str("Search")))
  }

  /** The provider's word for the canonical `size`: a size token for mui,
      chakra and antd, a Tailwind size class for shadcn, and the side length
      of the icon-only button for aceternity. */
  function SizeToken(p: Provider, size: Value): string {
    var t := TierOf(size);
    match p
    case Mui => BySize(t, "small", "large", "medium")
    case Chakra => BySize(t, "sm", "lg", "md")
    case Antd => BySize(t, "small", "large", "middle")
    case Shadcn => BySize(t, "h-8 w-8", "h-11 w-11", "h-10 w-10")
    case Aceternity => BySize(t, "32px", "48px", "40px")
    case Other => ""
  }

  /** The size maps by tier, provider by provider. */
  lemma SizeTokens(size: Value)
    ensures
      var ts := [SizeToken(Mui, size), SizeToken(Chakra, size), SizeToken(Antd, size),
                 SizeToken(Shadcn, size), SizeToken(Aceternity, size)];
      ts == if size == Str("small") then ["small", "sm", "small", "h-8 w-8", "32px"]
            else if size == Str("large") then ["large", "lg", "large", "h-11 w-11", "48px"]
            else ["medium", "md", "middle", "h-10 w-10", "40px"]
  {
  }

  // ---------------------------------------------------------------------
  // Style lists

  /** The entries chakra's icon-plus-text list starts with. */
  const ChakraTextSeed: seq<Entry> :=
    [SingleQuoted("display", "flex"), SingleQuoted("alignItems", "center"), SingleQuoted("gap", "8px")]

  /** The entries aceternity's icon-only list starts with: a square of side
      `sizePx`, centred. */
  function AceternityIconSeed(sizePx: string): seq<Entry> {
    [ DoubleQuoted("width", sizePx), DoubleQuoted("height", sizePx),
      SingleQuoted("display", "flex"), SingleQuoted("alignItems", "center"),
      SingleQuoted("justifyContent", "center") ]
  }

  /** The entries aceternity's icon-plus-text list starts with. */
  const AceternityTextSeed: seq<Entry> :=
    [ DoubleQuoted("padding", "8px 16px"), SingleQuoted("display", "flex"),
      SingleQuoted("alignItems", "center"), SingleQuoted("gap", "8px") ]

  /** The icon-only button's style list. */
  function IconList(p: Provider, c: Config): seq<Entry>
    requires p != Other
  {
    var n := Normalize(c.styles);
    match p
    case Mui => Overrides([], n, true)
    case Aceternity => ColoursAndBorder(AceternityIconSeed(SizeToken(Aceternity, c.size)), n)
    case _ => Overrides([], n, false)
  }

  /** The icon-plus-text button's style list. */
  function TextList(p: Provider, c: Config): seq<Entry>
    requires p != Other
  {
    var n := Normalize(c.styles);
    match p
    case Mui => Overrides([], n, true)
    case Chakra => Overrides(ChakraTextSeed, n, false)
    case Aceternity => ColoursAndBorder(AceternityTextSeed, n)
    case _ => Overrides([], n, false)
  }

  // ---------------------------------------------------------------------
  // Templates

  // The literal text of the optional `sx` / `style` attribute.
  const SxChunks: seq<string> := [@"
      sx={{
        ", @"
      }}"]
  const StyleChunks: seq<string> := [@"
      style={{
        ", @"
      }}"]

  // The literal text of each provider's template, between its interpolations.
  const MuiChunks: seq<string> := [@"import { IconButton, Button } from '@mui/material';
import SearchIcon from '@mui/icons-material/Search';

// Icon Only Button
export function CustomIconButton() {
  return (
    <IconButton 
      size=""", @"""", @"
    >
      <SearchIcon fontSize=""inherit"" />
    </IconButton>
  );
}

// Icon + Text Button
export function CustomIconTextButton() {
  return (
    <Button 
      variant=""", @"""
      startIcon={<SearchIcon />}", @"
    >
      ", @"
    </Button>
  );
}"]
  const ChakraChunks: seq<string> := [@"import { IconButton, Button } from '@chakra-ui/react';
import { Search } from 'lucide-react';

// Icon Only Button
export function CustomIconButton() {
  return (
    <IconButton
      aria-label=""Search""
      variant=""", @"""
      size=""", @"""", @"
    >
      <Search size={18} />
    </IconButton>
  );
}

// Icon + Text Button
export function CustomIconTextButton() {
  return (
    <Button
      variant=""", @"""
      size=""", @"""
      style={{
        ", @"
      }}
    >
      <Search size={18} />
      ", @"
    </Button>
  );
}"]
  const AntdChunks: seq<string> := [@"import { Button } from 'antd';
import { Search } from 'lucide-react';

// Icon Only Button
export function CustomIconButton() {
  return (
    <Button
      shape=""circle""
      type=""", @"""
      size=""", @"""
      icon={<Search size={16} />}", @"
    />
  );
}

// Icon + Text Button
export function CustomIconTextButton() {
  return (
    <Button
      type=""", @"""
      size=""", @"""
      icon={<Search size={16} />}", @"
    >
      ", @"
    </Button>
  );
}"]
  const ShadcnChunks: seq<string> := [@"import { Button } from '@/components/ui/button';
import { Search } from 'lucide-react';

// Icon Only Button
export function CustomIconButton() {
  return (
    <Button
      variant=""", @"""
      size=""icon""
      className=""", @"""", @"
    >
      <Search size={18} />
    </Button>
  );
}

// Icon + Text Button
export function CustomIconTextButton() {
  return (
    <Button
      variant=""", @"""
      className=""flex items-center gap-2""", @"
    >
      <Search size={18} />
      ", @"
    </Button>
  );
}"]
  const AceternityChunks: seq<string> := [@"import { Search } from 'lucide-react';

// Icon Only Button
export function CustomIconButton() {
  return (
    <button
      style={{
        ", @"
      }}
      className=""transition duration-200 hover:shadow-[0_0_15px_rgba(59,130,246,0.5)]""
    >
      <Search size={18} />
    </button>
  );
}

// Icon + Text Button
export function CustomIconTextButton() {
  return (
    <button
      style={{
        ", @"
      }}
      className=""transition duration-200 hover:shadow-[0_0_15px_rgba(59,130,246,0.5)]""
    >
      <Search size={18} />
      ", @"
    </button>
  );
}"]

  /** `list.length > 0 ? <attribute holding the joined list> : ''` */
  function Block(chunks: seq<string>, es: seq<Entry>): (r: string)
    requires chunks == SxChunks || chunks == StyleChunks
    ensures r == "" <==> es == []
    ensures es != [] ==> Contains(r, JoinEntries(es, StyleSep))
  {
    if |es| > 0 then
      FillContains(chunks, [JoinEntries(es, StyleSep)], 0);
      Fill(chunks, [JoinEntries(es, StyleSep)])
    else ""
  }

  /** The template of a provider's branch. */
  function Chunks(p: Provider): seq<string>
    requires p != Other
  {
    match p
    case Mui => MuiChunks
    case Chakra => ChakraChunks
    case Antd => AntdChunks
    case Shadcn => ShadcnChunks
    case Aceternity => AceternityChunks
  }

  /** The texts a provider's branch interpolates, in order; the display
      label is last. */
  function Args(p: Provider, c: Config): (args: seq<string>)
    requires p != Other
    ensures |args| == |Chunks(p)| - 1 && args[|args| - 1] == DisplayLabel(c.labelText)
  {
    var icon := IconList(p, c);
    var text := TextList(p, c);
    var v := VariantToken(p, c.variant);
    var sz := SizeToken(p, c.size);
    var lbl := DisplayLabel(c.labelText);
    match p
    case Mui => [sz, Block(SxChunks, icon), v, Block(SxChunks, text), lbl]
    case Chakra => [v, sz, Block(StyleChunks, icon), v, sz, JoinEntries(text, StyleSep), lbl]
    case Antd => [v, sz, Block(StyleChunks, icon), v, sz, Block(StyleChunks, text), lbl]
    case Shadcn => [v, sz, Block(StyleChunks, icon), v, Block(StyleChunks, text), lbl]
    case Aceternity => [JoinEntries(icon, StyleSep), JoinEntries(text, StyleSep), lbl]
  }

  /** `generateIconButtonCode(provider, config)` as a value. */
  function Code(p: Provider, c: Config): (code: string)
    ensures p == Other ==> code == CodeNotAvailable
  {
    if p == Other then CodeNotAvailable else Fill(Chunks(p), Args(p, c))
  }

  /** `generateIconButtonCode`: extracts the style values, fills both style
      lists push by push, and fills in the provider's template. */
  method Generate(p: Provider, c: Config) returns (code: string)
    ensures code == Code(p, c)
  {
    var n := Normalize(c.styles);
    var lbl := DisplayLabel(c.labelText);
    var v := VariantToken(p, c.variant);
    var sz := SizeToken(p, c.size);
    match p {
      case Mui =>
        var iconSxProps := PushOverrides([], n, true);
        var textSxProps := PushOverrides([], n, true);
        code := Fill(MuiChunks, [sz, Block(SxChunks, iconSxProps), v, Block(SxChunks, textSxProps), lbl]);
      case Chakra =>
        var iconStyleProps := PushOverrides([], n, false);
        var textStyleProps := PushOverrides(ChakraTextSeed, n, false);
        code := Fill(ChakraChunks, [v, sz, Block(StyleChunks, iconStyleProps), v, sz, JoinEntries(textStyleProps, StyleSep), lbl]);
      case Antd =>
        var iconStyleProps := PushOverrides([], n, false);
        var textStyleProps := PushOverrides([], n, false);
        code := Fill(AntdChunks, [v, sz, Block(StyleChunks, iconStyleProps), v, sz, Block(StyleChunks, textStyleProps), lbl]);
      case Shadcn =>
        var iconStyleProps := PushOverrides([], n, false);
        var textStyleProps := PushOverrides([], n, false);
        code := Fill(ShadcnChunks, [v, sz, Block(StyleChunks, iconStyleProps), v, Block(StyleChunks, textStyleProps), lbl]);
      case Aceternity =>
        var iconStyleProps := PushColoursAndBorder(AceternityIconSeed(sz), n);
        var textStyleProps := PushColoursAndBorder(AceternityTextSeed, n);
        code := Fill(AceternityChunks, [JoinEntries(iconStyleProps, StyleSep), JoinEntries(textStyleProps, StyleSep), lbl]);
      case Other =>
        code := CodeNotAvailable;
    }
  }

  // ---------------------------------------------------------------------
  // Properties of the generated code

  /** Every supported provider shows the display label, which is 'Search'
      when the label is empty or absent. */
  lemma LabelInCode(p: Provider, c: Config)
    requires p != Other
    ensures Contains(Code(p, c), DisplayLabel(c.labelText))
    ensures !Truthy(c.labelText) ==> Contains(Code(p, c), "Search")
  {
    FillContains(Chunks(p), Args(p, c), |Args(p, c)| - 1);
  }

  /** mui: the two buttons carry the same `sx` block, which is absent exactly
      when no field is set and the border style is 'solid'. */
  lemma MuiSxBlocks(c: Config)
    ensures Args(Mui, c)[1] == Args(Mui, c)[3]
    ensures var n := Normalize(c.styles);
      Args(Mui, c)[1] == "" <==>
        && n.borderRadius == Undefined && n.backgroundColor == Undefined && n.fontColor == Undefined
        && n.borderColor == Undefined && n.borderWidth == Undefined && n.borderStyle == Str("solid")
  {
    OverridesNone([], Normalize(c.styles), true);
  }

  /** chakra's icon-plus-text list starts with display, alignItems and gap,
      before any optional entry. */
  lemma ChakraTextFirst(c: Config)
    ensures var es := TextList(Chakra, c);
      |es| >= 3 && Keys(es[..3]) == ["display", "alignItems", "gap"]
  {
    var es := TextList(Chakra, c);
    assert es[..3] == ChakraTextSeed;
  }

  /** aceternity's icon-only button is a square: its list starts with width
      and height, both set to 32px, 48px or 40px by size tier. */
  lemma AceternityIconSquare(c: Config)
    ensures var es := IconList(Aceternity, c);
      var side := if c.size == Str("small") then "32px" else if c.size == Str("large") then "48px" else "40px";
      |es| >= 2 && es[0] == DoubleQuoted("width", side) && es[1] == DoubleQuoted("height", side)
  {
    var es := IconList(Aceternity, c);
    var seed := AceternityIconSeed(SizeToken(Aceternity, c.size));
    assert es[..|seed|] == seed;
    assert es[0] == seed[0] && es[1] == seed[1];
  }

  /** A property outside the seeds is set by the overrides onto the chakra
      text seed exactly when it is set by the overrides alone. */
  lemma ChakraSeedInert(n: Normalized, k: string)
    requires k != "display" && k != "alignItems" && k != "gap"
    ensures Has(Overrides([], n, false), k) <==> Has(Overrides(ChakraTextSeed, n, false), k)
  {
    OverridesKeys([], n, false, k);
    OverridesKeys(ChakraTextSeed, n, false, k);
    HasKeys(ChakraTextSeed, k);
    assert Keys(ChakraTextSeed) == ["display", "alignItems", "gap"];
  }

  /** A property outside both aceternity seeds is set in the icon-only list
      exactly when it is set in the icon-plus-text list. */
  lemma AceternitySeedsInert(n: Normalized, sizePx: string, k: string)
    requires k !in ["display", "alignItems", "gap", "padding", "width", "height", "justifyContent"]
    ensures Has(ColoursAndBorder(AceternityIconSeed(sizePx), n), k) <==> Has(ColoursAndBorder(AceternityTextSeed, n), k)
  {
    var seed := AceternityIconSeed(sizePx);
    ColoursAndBorderKeys(seed, n, k);
    ColoursAndBorderKeys(AceternityTextSeed, n, k);
    HasKeys(seed, k);
    assert Keys(seed) == ["width", "height", "display", "alignItems", "justifyContent"];
    HasKeys(AceternityTextSeed, k);
    assert Keys(AceternityTextSeed) == ["padding", "display", "alignItems", "gap"];
  }

  /** Both buttons of a branch set the same optional properties: outside the
      fixed entries a branch seeds its lists with, a property is set in the
      icon-only list exactly when it is set in the icon-plus-text list. */
  lemma ListsAgree(p: Provider, c: Config, k: string)
    requires p != Other
    requires k !in ["display", "alignItems", "gap", "padding", "width", "height", "justifyContent"]
    ensures Has(IconList(p, c), k) <==> Has(TextList(p, c), k)
  {
    var n := Normalize(c.styles);
    if p == Chakra {
      ChakraSeedInert(n, k);
    } else if p == Aceternity {
      AceternitySeedsInert(n, SizeToken(Aceternity, c.size), k);
    }
  }
}
