/** Code generation for a text input: `generateInputCode` in
    src/lib/codegen/input.ts. Every branch emits three inputs (plain, with a
    start icon, with an end icon); every style entry and every colour
    attribute is emitted only for a truthy value. */
module Input {
  import opened Js
  import opened Text
  import opened Providers

  /** `config.styles`; an absent `styles` is the record whose fields are all unset. */
  datatype InputStyles = InputStyles(
    borderRadius: Value, borderColor: Value, focusColor: Value, backgroundColor: Value, fontColor: Value)

  datatype Config = Config(
    styles: InputStyles, variant: Value, size: Value, labelText: Value, placeholder: Value)

  /** The radius as extracted: a number gains "px", anything else passes
      through. */
  function Radius(st: InputStyles): Value {
    PxOrPass(st.borderRadius)
  }

  /** A radius of 0 is falsy as a number but becomes the truthy "0px", while
      an empty string stays falsy. */
  lemma RadiusTruthiness(st: InputStyles)
    ensures st.borderRadius.Num? ==> Truthy(Radius(st))
    ensures st.borderRadius == Num(0) ==> Radius(st) == Str("0px")
    ensures st.borderRadius == Str("") ==> !Truthy(Radius(st))
  {
    assert IntToString(0) == "0";
  }

  // ---------------------------------------------------------------------
  // Token maps

  /** mui: filled and standard pass through, anything else is outlined. */
  function MuiVariant(variant: Value): string {
    if variant == Str("filled") then "filled" else if variant == Str("standard") then "standard" else "outlined"
  }

  /** chakra: filled passes through, standard is flushed, anything else is outline. */
  function ChakraVariant(variant: Value): string {
    if variant == Str("filled") then "filled" else if variant == Str("standard") then "flushed" else "outline"
  }

  /** antd: filled is borderless, anything else is outlined. */
  function AntdVariant(variant: Value): string {
    if variant == Str("filled") then "borderless" else "outlined"
  }

  /** mui has two sizes only: small, and medium for everything else (large
      included). */
  function MuiSize(size: Value): string {
    if size == Str("small") then "small" else "medium"
  }

  /** The variant maps of the three providers that take a variant. */
  lemma VariantTokens(variant: Value)
    ensures [MuiVariant(variant), ChakraVariant(variant), AntdVariant(variant)] ==
      if variant == Str("filled") then ["filled", "filled", "borderless"]
      else if variant == Str("standard") then ["standard", "flushed", "outlined"]
      else ["outlined", "outline", "outlined"]
  {
  }

  /** The size maps: mui folds large into medium. */
  lemma SizeTokens(size: Value)
    ensures [MuiSize(size), BySize(TierOf(size), "sm", "lg", "md"), BySize(TierOf(size), "small", "large", "middle")] ==
      if size == Str("small") then ["small", "sm", "small"]
      else if size == Str("large") then ["medium", "lg", "large"]
      else ["medium", "md", "middle"]
  {
  }

  // ---------------------------------------------------------------------
  // Style lists

  /** `'selector': { prop: 'value' }` */
  function Nested(selector: string, prop: string, value: string): Entry {
    Entry(selector, "'" + selector + "': { " + prop + ": '" + value + "' }")
  }

  /** `if (v) list.push(`key: '${v}'`)` */
  function PushTruthy(es: seq<Entry>, key: string, v: Value): seq<Entry> {
    PushIf(es, Truthy(v), SingleQuoted(key, Show(v)))
  }

  /** mui's `sx` entries: radius, background, colour, the input's colour, the
      outline colour and the focused outline colour, each for a truthy value. */
  function MuiSx(st: InputStyles): (es: seq<Entry>)
    ensures |es| <= 6
  {
    var es1 := PushTruthy([], "borderRadius", Radius(st));
    var es2 := PushTruthy(es1, "backgroundColor", st.backgroundColor);
    var es3 := PushTruthy(es2, "color", st.fontColor);
    var es4 := PushIf(es3, Truthy(st.fontColor), Nested("& input", "color", Show(st.fontColor)));
    var es5 := PushIf(es4, Truthy(st.borderColor), Nested("& fieldset", "borderColor", Show(st.borderColor)));
    PushIf(es5, Truthy(st.focusColor), Nested("&.Mui-focused fieldset", "borderColor", Show(st.focusColor)))
  }

  /** The style list every other branch builds: radius, border colour,
      background and colour, each for a truthy value. */
  function StyleProps(st: InputStyles): (es: seq<Entry>)
    ensures |es| <= 4
  {
    var es1 := PushTruthy([], "borderRadius", Radius(st));
    var es2 := PushTruthy(es1, "borderColor", st.borderColor);
    var es3 := PushTruthy(es2, "backgroundColor", st.backgroundColor);
    PushTruthy(es3, "color", st.fontColor)
  }

  /** mui's pushes. */
  method PushMuiSx(st: InputStyles) returns (sxProps: seq<Entry>)
    ensures sxProps == MuiSx(st)
  {
    sxProps := [];
    var borderRadius := Radius(st);
    if Truthy(borderRadius) { sxProps := sxProps + [SingleQuoted("borderRadius", Show(borderRadius))]; }
    if Truthy(st.backgroundColor) { sxProps := sxProps + [SingleQuoted("backgroundColor", Show(st.backgroundColor))]; }
    if Truthy(st.fontColor) { sxProps := sxProps + [SingleQuoted("color", Show(st.fontColor))]; }
    if Truthy(st.fontColor) { sxProps := sxProps + [Nested("& input", "color", Show(st.fontColor))]; }
    if Truthy(st.borderColor) { sxProps := sxProps + [Nested("& fieldset", "borderColor", Show(st.borderColor))]; }
    if Truthy(st.focusColor) { sxProps := sxProps + [Nested("&.Mui-focused fieldset", "borderColor", Show(st.focusColor))]; }
  }

  /** The other branches' pushes. */
  method PushStyleProps(st: InputStyles) returns (styleProps: seq<Entry>)
    ensures styleProps == StyleProps(st)
  {
    styleProps := [];
    var borderRadius := Radius(st);
    if Truthy(borderRadius) { styleProps := styleProps + [SingleQuoted("borderRadius", Show(borderRadius))]; }
    if Truthy(st.borderColor) { styleProps := styleProps + [SingleQuoted("borderColor", Show(st.borderColor))]; }
    if Truthy(st.backgroundColor) { styleProps := styleProps + [SingleQuoted("backgroundColor", Show(st.backgroundColor))]; }
    if Truthy(st.fontColor) { styleProps := styleProps + [SingleQuoted("color", Show(st.fontColor))]; }
  }

  // ---------------------------------------------------------------------
  // Fragments

  const SxChunks: seq<string> := [@"sx={{ ", @" }}"]
  const LabelSxChunks: seq<string> := [@"sx={{ color: '", @" !important' }}"]
  const LabelPropsChunks: seq<string> := [@"InputLabelProps={{ ", @" }}"]
  const IconStyleChunks: seq<string> := [@" style={{ color: '", @"' }}"]
  const StyleChunks: seq<string> := [@"style={{ ", @" }}"]
  const ColorAttrChunks: seq<string> := [@" color=""", @""""]
  const FocusChunks: seq<string> := [@" _focus={{ borderColor: '", @"' }}"]
  const LabelColorChunks: seq<string> := [@", color: '", @"'"]
  const LabelStyleChunks: seq<string> := [@"style={{ color: '", @"' }}"]

  /** `sxString` / `styleString`: the attribute holding the list joined by
      ", ", or nothing for an empty list. */
  function StyleAttr(chunks: seq<string>, es: seq<Entry>): (r: string)
    requires chunks == SxChunks || chunks == StyleChunks
    ensures r == "" <==> es == []
    ensures es != [] ==> Contains(r, JoinEntries(es, ", "))
  {
    if |es| > 0 then
      FillContains(chunks, [JoinEntries(es, ", ")], 0);
      Fill(chunks, [JoinEntries(es, ", ")])
    else ""
  }

  /** mui's `labelSx`, and the `InputLabelProps` attribute made of it when
      it is not empty. */
  function LabelProps(fontColor: Value): (r: string)
    ensures r == "" <==> !Truthy(fontColor)
  {
    var labelSx := Gated(LabelSxChunks, fontColor);
    if labelSx != "" then Fill(LabelPropsChunks, [labelSx]) else ""
  }

  /** antd's icon colour: the font colour when set, otherwise grey. */
  function AntdIconColor(fontColor: Value): (r: string)
    ensures Truthy(fontColor) ==> r == Show(fontColor)
    ensures !Truthy(fontColor) ==> r == "#9ca3af"
  {
    Show(Or(fontColor, Str("#9ca3af")))
  }

  // The four inline fragments of the shadcn and aceternity icon inputs'
  // `style` objects, after the padding.
  const RadiusPieceChunks: seq<string> := [@", borderRadius: '", @"'"]
  const BorderColorPieceChunks: seq<string> := [@", borderColor: '", @"'"]
  const BackgroundPieceChunks: seq<string> := [@", backgroundColor: '", @"'"]
  const ColorPieceChunks: seq<string> := [@", color: '", @"'"]

  /** ", key: 'value'" for each truthy value. */
  function InlinePieces(st: InputStyles): seq<string> {
    [ Opt(Truthy(Radius(st)), Fill(RadiusPieceChunks, [Show(Radius(st))])),
      Opt(Truthy(st.borderColor), Fill(BorderColorPieceChunks, [Show(st.borderColor)])),
      Opt(Truthy(st.backgroundColor), Fill(BackgroundPieceChunks, [Show(st.backgroundColor)])),
      Opt(Truthy(st.fontColor), Fill(ColorPieceChunks, [Show(st.fontColor)])) ]
  }

  /** An inline fragment is ", " followed by the style entry for the same key. */
  lemma InlinePiece(chunks: seq<string>, key: string, v: string)
    requires |chunks| == 2 && chunks[0] == ", " + key + ": '" && chunks[1] == "'"
    ensures Fill(chunks, [v]) == ", " + SingleQuoted(key, v).text
  {
  }

  /** Every entry's text, each preceded by ", ". */
  function Prefixed(es: seq<Entry>): string {
    if es == [] then "" else ", " + es[0].text + Prefixed(es[1..])
  }

  lemma PrefixedPush(es: seq<Entry>, c: bool, e: Entry)
    ensures Prefixed(PushIf(es, c, e)) == Prefixed(es) + Opt(c, ", " + e.text)
  {
    if c {
      PrefixedAppend(es, e);
    }
  }

  lemma {:induction false} PrefixedAppend(es: seq<Entry>, e: Entry)
    ensures Prefixed(es + [e]) == Prefixed(es) + ", " + e.text
  {
    if es == [] {
      assert [e][1..] == [];
    } else {
      assert (es + [e])[1..] == es[1..] + [e];
      PrefixedAppend(es[1..], e);
    }
  }

  /** Each inline fragment is ", " followed by the entry the style list
      pushes for the same value, under the same condition. */
  lemma InlinePiecesAreEntries(st: InputStyles)
    ensures InlinePieces(st) ==
      [ Opt(Truthy(Radius(st)), ", " + SingleQuoted("borderRadius", Show(Radius(st))).text),
        Opt(Truthy(st.borderColor), ", " + SingleQuoted("borderColor", Show(st.borderColor)).text),
        Opt(Truthy(st.backgroundColor), ", " + SingleQuoted("backgroundColor", Show(st.backgroundColor)).text),
        Opt(Truthy(st.fontColor), ", " + SingleQuoted("color", Show(st.fontColor)).text) ]
  {
    assert RadiusPieceChunks[0] == ", " + "borderRadius" + ": '";
    assert BorderColorPieceChunks[0] == ", " + "borderColor" + ": '";
    assert BackgroundPieceChunks[0] == ", " + "backgroundColor" + ": '";
    assert ColorPieceChunks[0] == ", " + "color" + ": '";
    InlinePiece(RadiusPieceChunks, "borderRadius", Show(Radius(st)));
    InlinePiece(BorderColorPieceChunks, "borderColor", Show(st.borderColor));
    InlinePiece(BackgroundPieceChunks, "backgroundColor", Show(st.backgroundColor));
    InlinePiece(ColorPieceChunks, "color", Show(st.fontColor));
  }

  /** The inline styles of the icon inputs carry exactly the entries of the
      plain input's style list, in the same order. */
  lemma InlineMatchesList(st: InputStyles)
    ensures var ps := InlinePieces(st);
      ps[0] + ps[1] + ps[2] + ps[3] == Prefixed(StyleProps(st))
  {
    var es1 := PushTruthy([], "borderRadius", Radius(st));
    var es2 := PushTruthy(es1, "borderColor", st.borderColor);
    var es3 := PushTruthy(es2, "backgroundColor", st.backgroundColor);
    PrefixedPush([], Truthy(Radius(st)), SingleQuoted("borderRadius", Show(Radius(st))));
    PrefixedPush(es1, Truthy(st.borderColor), SingleQuoted("borderColor", Show(st.borderColor)));
    PrefixedPush(es2, Truthy(st.backgroundColor), SingleQuoted("backgroundColor", Show(st.backgroundColor)));
    PrefixedPush(es3, Truthy(st.fontColor), SingleQuoted("color", Show(st.fontColor)));
    InlinePiecesAreEntries(st);
    assert Prefixed([]) == "" && "" + InlinePieces(st)[0] == InlinePieces(st)[0];
  }

  // ---------------------------------------------------------------------
  // Templates

  const MuiChunks: seq<string> := [@"import { TextField, InputAdornment } from '@mui/material';
import { Mail, Search } from 'lucide-react';

export function InputDemo() {
  return (
    <div style={{ display: 'flex', flexDirection: 'column', gap: 16 }}>
      {/* Default */}
      <TextField 
        label=""", @""" 
        variant=""", @"""
        size=""", @"""
        fullWidth
        ", @"
        ", @"
      />

      {/* Start Icon */}
      <TextField
        label=""", @"""
        variant=""", @"""
        size=""", @"""
        fullWidth
        ", @"
        ", @"
        InputProps={{
          startAdornment: (
            <InputAdornment position=""start"">
              <Mail size={20}", @" />
            </InputAdornment>
          ),
        }}
      />

      {/* End Icon */}
      <TextField
        label=""", @"""
        variant=""", @"""
        size=""", @"""
        fullWidth
        ", @"
        ", @"
        InputProps={{
          endAdornment: (
            <InputAdornment position=""end"">
              <Search size={20}", @" />
            </InputAdornment>
          ),
        }}
      />
    </div>
  );
}"]
  const ChakraChunks: seq<string> := [@"import { Input, InputGroup, InputLeftElement, InputRightElement, Stack, Text, Box } from '@chakra-ui/react';
import { Mail, Search } from 'lucide-react';

export function InputDemo() {
  return (
    <Stack spacing={4}>
      {/* Default */}
      <Box>
        <Text mb=""8px"" fontWeight=""bold"" fontSize=""sm""", @">", @"</Text>
        <Input placeholder=""", @""" variant=""", @""" size=""", @""" ", "", @" />
      </Box>

      {/* Start Icon */}
      <InputGroup size=""", @""">
        <InputLeftElement pointerEvents='none'>
          <Mail size={18}", @" />
        </InputLeftElement>
        <Input placeholder=""", @""" variant=""", @""" ", "", @" />
      </InputGroup>

      {/* End Icon */}
      <InputGroup size=""", @""">
        <Input placeholder=""", @""" variant=""", @""" ", "", @" />
        <InputRightElement>
          <Search size={18}", @" />
        </InputRightElement>
      </InputGroup>
    </Stack>
  );
}"]
  const AntdChunks: seq<string> := [@"import { Input } from 'antd';
import { Mail, Search } from 'lucide-react';

export function InputDemo() {
  return (
    <div style={{ display: 'flex', flexDirection: 'column', gap: 16 }}>
      {/* Default */}
      <div>
        <label style={{ display: 'block', marginBottom: 4, fontWeight: 'bold', fontSize: 12", @" }}>", @"</label>
        <Input placeholder=""", @""" variant=""", @""" size=""", @""" ", @" />
      </div>

      {/* Start Icon */}
      <Input 
        placeholder=""", @""" 
        prefix={<Mail size={16} color=""", @""" />} 
        variant=""", @""" 
        size=""", @"""
        ", @"
      />

      {/* End Icon */}
      <Input 
        placeholder=""", @""" 
        suffix={<Search size={16} color=""", @""" />} 
        variant=""", @""" 
        size=""", @"""
        ", @"
      />
    </div>
  );
}"]
  const ShadcnChunks: seq<string> := [@"import { Input } from ""@/components/ui/input""
import { Label } from ""@/components/ui/label""
import { Mail, Search } from ""lucide-react""

export function InputDemo() {
  return (
    <div className=""grid w-full items-center gap-4"">
      {/* Default */}
      <div className=""grid w-full items-center gap-1.5"">
        <Label htmlFor=""email"" ", @">", @"</Label>
        <Input type=""email"" id=""email"" placeholder=""", @""" ", @" />
      </div>

      {/* Start Icon */}
      <div className=""relative"">
        <div className=""absolute left-2.5 top-2.5 h-4 w-4 text-muted-foreground""", @">
          <Mail className=""h-4 w-4"" />
        </div>
        <Input 
          type=""email"" 
          placeholder=""", @""" 
          style={{ paddingLeft: '3rem'", "", "", "", @" }}
        />
      </div>

      {/* End Icon */}
      <div className=""relative"">
        <Input 
          type=""email"" 
          placeholder=""", @""" 
          style={{ paddingRight: '3rem'", "", "", "", @" }}
        />
        <div className=""absolute right-2.5 top-2.5 h-4 w-4 text-muted-foreground""", @">
          <Search className=""h-4 w-4"" />
        </div>
      </div>
    </div>
  )
}"]
  const AceternityChunks: seq<string> := [@"import { Mail, Search } from 'lucide-react';

export function InputDemo() {
  return (
    <div className=""space-y-4"">
      {/* Default */}
      <div className=""w-full"">
        <label className=""text-xs font-bold mb-1 block uppercase"" ", @">", @"</label>
        <input 
          type=""text"" 
          placeholder=""", @"""
          ", @"
          className=""flex h-10 w-full rounded-md border border-input bg-background px-3 py-2 text-sm ring-offset-background file:border-0 file:bg-transparent file:text-sm file:font-medium placeholder:text-muted-foreground focus-visible:outline-none focus-visible:ring-2 focus-visible:ring-ring focus-visible:ring-offset-2 disabled:cursor-not-allowed disabled:opacity-50""
        />
      </div>

      {/* Start Icon */}
      <div className=""relative w-full"">
        <div className=""absolute left-3 top-3 text-neutral-400""", @">
           <Mail size={18} />
        </div>
        <input 
          type=""text"" 
          placeholder=""", @"""
          style={{ paddingLeft: '3rem'", "", "", "", @" }}
          className=""flex h-10 w-full rounded-md border border-input bg-background pr-3 py-2 text-sm""
        />
      </div>

      {/* End Icon */}
      <div className=""relative w-full"">
        <input 
          type=""text"" 
          placeholder=""", @"""
          style={{ paddingRight: '3rem'", "", "", "", @" }}
          className=""flex h-10 w-full rounded-md border border-input bg-background pl-3 py-2 text-sm""
        />
        <div className=""absolute right-3 top-3 text-neutral-400""", @">
           <Search size={18} />
        </div>
      </div>
    </div>
  );
}"]

  /** mui's interpolations, given its built `sx` list. */
  function MuiArgs(c: Config, sxProps: seq<Entry>): (args: seq<string>)
    ensures |args| == |MuiChunks| - 1
  {
    var lbl := Show(c.labelText);
    var v := MuiVariant(c.variant);
    var sz := MuiSize(c.size);
    var sx := StyleAttr(SxChunks, sxProps);
    var lp := LabelProps(c.styles.fontColor);
    var icon := Gated(IconStyleChunks, c.styles.fontColor);
    [lbl, v, sz, sx, lp, lbl, v, sz, sx, lp, icon, lbl, v, sz, sx, lp, icon]
  }

  /** chakra's interpolations, given its built style list. */
  function ChakraArgs(c: Config, styleProps: seq<Entry>): (args: seq<string>)
    ensures |args| == |ChakraChunks| - 1
  {
    var ph := Show(c.placeholder);
    var v := ChakraVariant(c.variant);
    var sz := BySize(TierOf(c.size), "sm", "lg", "md");
    var ss := StyleAttr(StyleChunks, styleProps);
    var colour := Gated(ColorAttrChunks, c.styles.fontColor);
    var focus := Gated(FocusChunks, c.styles.focusColor);
    [colour, Show(c.labelText), ph, v, sz, ss, focus, sz, colour, ph, v, ss, focus, sz, ph, v, ss, focus, colour]
  }

  /** antd's interpolations, given its built style list. */
  function AntdArgs(c: Config, styleProps: seq<Entry>): (args: seq<string>)
    ensures |args| == |AntdChunks| - 1
  {
    var ph := Show(c.placeholder);
    var v := AntdVariant(c.variant);
    var sz := BySize(TierOf(c.size), "small", "large", "middle");
    var ss := StyleAttr(StyleChunks, styleProps);
    var ic := AntdIconColor(c.styles.fontColor);
    [Gated(LabelColorChunks, c.styles.fontColor), Show(c.labelText), ph, v, sz, ss, ph, ic, v, sz, ss, ph, ic, v, sz, ss]
  }

  /** The shadcn and aceternity interpolations (their templates differ only
      in literal text), given the built style list. */
  function PlainArgs(c: Config, styleProps: seq<Entry>): (args: seq<string>)
    ensures |args| == |ShadcnChunks| - 1 == |AceternityChunks| - 1
  {
    var ph := Show(c.placeholder);
    var icon := Gated(IconStyleChunks, c.styles.fontColor);
    var pieces := InlinePieces(c.styles);
    [Gated(LabelStyleChunks, c.styles.fontColor), Show(c.labelText), ph, StyleAttr(StyleChunks, styleProps), icon, ph]
      + pieces + [ph] + pieces + [icon]
  }

  /** The template of a provider's branch. */
  function Chunks(p: Provider): seq<string>
    requires p != Other
  {
    match p
    case Mui => MuiChunks
    case Chakra => ChakraChunks
    case Antd => AntdChunks
    case Shadcn => ShadcnChunks
    case Aceternity => AceternityChunks
  }

  /** The texts a provider's branch interpolates, in order. */
  function Args(p: Provider, c: Config): (args: seq<string>)
    requires p != Other
    ensures |args| == |Chunks(p)| - 1
  {
    match p
    case Mui => MuiArgs(c, MuiSx(c.styles))
    case Chakra => ChakraArgs(c, StyleProps(c.styles))
    case Antd => AntdArgs(c, StyleProps(c.styles))
    case _ => PlainArgs(c, StyleProps(c.styles))
  }

  /** `generateInputCode(provider, config)` as a value. */
  function Code(p: Provider, c: Config): (code: string)
    ensures p == Other ==> code == GenerationNotAvailable
  {
    if p == Other then GenerationNotAvailable else Fill(Chunks(p), Args(p, c))
  }

  /** `generateInputCode`: builds the branch's style list push by push and
      fills in its template. */
  method Generate(p: Provider, c: Config) returns (code: string)
    ensures code == Code(p, c)
  {
    match p {
      case Mui =>
        var sxProps := PushMuiSx(c.styles);
        code := Fill(MuiChunks, MuiArgs(c, sxProps));
      case Chakra =>
        var styleProps := PushStyleProps(c.styles);
        code := Fill(ChakraChunks, ChakraArgs(c, styleProps));
      case Antd =>
        var styleProps := PushStyleProps(c.styles);
        code := Fill(AntdChunks, AntdArgs(c, styleProps));
      case Shadcn =>
        var styleProps := PushStyleProps(c.styles);
        code := Fill(ShadcnChunks, PlainArgs(c, styleProps));
      case Aceternity =>
        var styleProps := PushStyleProps(c.styles);
        code := Fill(AceternityChunks, PlainArgs(c, styleProps));
      case Other =>
        code := GenerationNotAvailable;
    }
  }

  // ---------------------------------------------------------------------
  // Properties of the generated code

  /** The shared style list sets a property exactly when its value is
      truthy: an empty colour is omitted, a radius 0 (written "0px") is
      kept. */
  lemma StylePropsKeys(st: InputStyles, k: string)
    ensures Has(StyleProps(st), k) <==>
      || (k == "borderRadius" && Truthy(Radius(st)))
      || (k == "borderColor" && Truthy(st.borderColor))
      || (k == "backgroundColor" && Truthy(st.backgroundColor))
      || (k == "color" && Truthy(st.fontColor))
  {
    var es1 := PushTruthy([], "borderRadius", Radius(st));
    var es2 := PushTruthy(es1, "borderColor", st.borderColor);
    var es3 := PushTruthy(es2, "backgroundColor", st.backgroundColor);
    HasPushIf([], Truthy(Radius(st)), SingleQuoted("borderRadius", Show(Radius(st))), k);
    HasPushIf(es1, Truthy(st.borderColor), SingleQuoted("borderColor", Show(st.borderColor)), k);
    HasPushIf(es2, Truthy(st.backgroundColor), SingleQuoted("backgroundColor", Show(st.backgroundColor)), k);
    HasPushIf(es3, Truthy(st.fontColor), SingleQuoted("color", Show(st.fontColor)), k);
  }

  /** mui's `sx` list sets a property exactly when its value is truthy; the
      font colour sets two of them, `color` and `'& input'`. */
  lemma MuiSxKeys(st: InputStyles, k: string)
    ensures Has(MuiSx(st), k) <==>
      || (k == "borderRadius" && Truthy(Radius(st)))
      || (k == "backgroundColor" && Truthy(st.backgroundColor))
      || ((k == "color" || k == "& input") && Truthy(st.fontColor))
      || (k == "& fieldset" && Truthy(st.borderColor))
      || (k == "&.Mui-focused fieldset" && Truthy(st.focusColor))
  {
    var e1 := SingleQuoted("borderRadius", Show(Radius(st)));
    var e2 := SingleQuoted("backgroundColor", Show(st.backgroundColor));
    var e3 := SingleQuoted("color", Show(st.fontColor));
    var e4 := Nested("& input", "color", Show(st.fontColor));
    var e5 := Nested("& fieldset", "borderColor", Show(st.borderColor));
    var e6 := Nested("&.Mui-focused fieldset", "borderColor", Show(st.focusColor));
    var es1 := PushIf([], Truthy(Radius(st)), e1);
    var es2 := PushIf(es1, Truthy(st.backgroundColor), e2);
    var es3 := PushIf(es2, Truthy(st.fontColor), e3);
    var es4 := PushIf(es3, Truthy(st.fontColor), e4);
    var es5 := PushIf(es4, Truthy(st.borderColor), e5);
    HasPushIf([], Truthy(Radius(st)), e1, k);
    HasPushIf(es1, Truthy(st.backgroundColor), e2, k);
    HasPushIf(es2, Truthy(st.fontColor), e3, k);
    HasPushIf(es3, Truthy(st.fontColor), e4, k);
    HasPushIf(es4, Truthy(st.borderColor), e5, k);
    HasPushIf(es5, Truthy(st.focusColor), e6, k);
  }

  /** mui: the font colour drives the `InputLabelProps` attribute of all
      three inputs; without it the attribute is empty. */
  lemma MuiLabelProps(c: Config)
    ensures var args := Args(Mui, c);
      args[4] == args[9] == args[15] == LabelProps(c.styles.fontColor)
      && (args[4] == "" <==> !Truthy(c.styles.fontColor))
  {
  }

  /** chakra: the `_focus` attribute, on all three inputs, is present exactly
      when the focus colour is truthy, and then carries it. */
  lemma ChakraFocus(c: Config)
    ensures var args := Args(Chakra, c);
      args[6] == args[12] == args[17] == Gated(FocusChunks, c.styles.focusColor)
      && (args[6] == "" <==> !Truthy(c.styles.focusColor))
    ensures Truthy(c.styles.focusColor) ==> Contains(Code(Chakra, c), Show(c.styles.focusColor))
  {
    var args := Args(Chakra, c);
    if Truthy(c.styles.focusColor) {
      FillContains(Chunks(Chakra), args, 6);
      ContainsTrans(Code(Chakra, c), args[6], Show(c.styles.focusColor));
    }
  }

  /** antd: both icons are coloured with the font colour when it is truthy
      and with '#9ca3af' otherwise. */
  lemma AntdIconColors(c: Config)
    ensures var args := Args(Antd, c);
      args[7] == args[12] == (if Truthy(c.styles.fontColor) then Show(c.styles.fontColor) else "#9ca3af")
    ensures Contains(Code(Antd, c), AntdIconColor(c.styles.fontColor))
  {
    FillContains(Chunks(Antd), Args(Antd, c), 7);
  }

  /** Every supported provider shows the label and the placeholder (mui
      shows no placeholder) verbatim. */
  lemma LabelInCode(p: Provider, c: Config)
    requires p != Other
    ensures Contains(Code(p, c), Show(c.labelText))
    ensures p != Mui ==> Contains(Code(p, c), Show(c.placeholder))
  {
    var i := if p == Mui then 0 else 1;
    FillContains(Chunks(p), Args(p, c), i);
    if p != Mui {
      FillContains(Chunks(p), Args(p, c), 2);
    }
  }
}
