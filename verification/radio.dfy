/** Code generation for a radio group: `generateRadioCode` in
    src/lib/codegen/radio.ts. Every branch starts the state at the selected
    value; mui, antd, shadcn and aceternity write one control per option,
    chakra maps over the serialised option list at run time. */
module Radio {
  import opened Js
  import opened Text
  import opened Providers
  import opened Json

  /** `config.styles`; an absent `styles` has an unset colour. */
  datatype RadioStyles = RadioStyles(color: Value)

  /** The options are strings, as the source's `opt: string` declares. */
  datatype Config = Config(options: seq<string>, selectedValue: Value, size: Value, disabled: Value, styles: RadioStyles)

  // ---------------------------------------------------------------------
  // Sizes

  /** mui has only two sizes: small, and medium for everything else. */
  function MuiSize(size: Value): string {
    if size == Str("small") then "small" else "medium"
  }

  /** chakra's radio circle: 14px, 22px, 18px. */
  function ChakraSize(size: Value): string {
    BySize(TierOf(size), "14px", "22px", "18px")
  }

  function ChakraTextSize(size: Value): string {
    BySize(TierOf(size), "sm", "lg", "md")
  }

  function AntdSize(size: Value): string {
    BySize(TierOf(size), "small", "large", "middle")
  }

  /** shadcn's classes: none for the middle tier. */
  function ShadcnSizeClass(size: Value): string {
    BySize(TierOf(size), "h-3 w-3", "h-6 w-6", "")
  }

  function ShadcnTextSize(size: Value): string {
    BySize(TierOf(size), "text-xs", "text-lg", "")
  }

  /** aceternity's classes: a class for every tier. */
  function AceternitySizeClass(size: Value): string {
    BySize(TierOf(size), "h-3 w-3", "h-6 w-6", "h-4 w-4")
  }

  function AceternityTextSize(size: Value): string {
    BySize(TierOf(size), "text-xs", "text-lg", "text-sm")
  }

  // ---------------------------------------------------------------------
  // Per-option fragments

  const MuiSxChunks: seq<string> := [@"sx={{ color: '", @"', '&.Mui-checked': { color: '", @"' } }}"]
  const SxAttrChunks: seq<string> := [@" ", ""]

  /** mui's `sx` attribute: the colour, checked or not, when one is set. */
  function MuiSx(color: Value): string {
    if Truthy(color) then Fill(MuiSxChunks, [Show(color), Show(color)]) else ""
  }

  const MuiOptionChunks: seq<string> := [@"        <FormControlLabel
          value=""", @"""
          control={<Radio size=""", @"""", @" />}
          label=""", @"""
        />"]

  /** One mui `FormControlLabel`. */
  function MuiOption(muiSize: string, sxProps: string, opt: string): string {
    Fill(MuiOptionChunks, [opt, muiSize, Gated(SxAttrChunks, Str(sxProps)), opt])
  }

  const AntdOptionChunks: seq<string> := [@"        <Radio value=""", @""">", @"</Radio>"]

  /** One antd `Radio`. */
  function AntdOption(opt: string): string {
    Fill(AntdOptionChunks, [opt, opt])
  }

  const ShadcnOptionChunks: seq<string> := [@"        <div className=""flex items-center space-x-2"">
          <RadioGroupItem value=""", @""" id=""radio-", @"""", @" />
          <Label htmlFor=""radio-", @"""", @">", @"</Label>
        </div>"]
  const ShadcnItemClassChunks: seq<string> := [@" className=""", @""""]
  const ShadcnLabelClassChunks: seq<string> := [@" className=""", @""""]

  /** One shadcn item and its label; each class attribute only when its
      class is non-empty. */
  function ShadcnOption(sizeClass: string, textSize: string, opt: string): string {
    Fill(ShadcnOptionChunks,
      [opt, opt, Gated(ShadcnItemClassChunks, Str(sizeClass)), opt, Gated(ShadcnLabelClassChunks, Str(textSize)), opt])
  }

  const AceternityOptionChunks: seq<string> := [@"      <label className=""flex items-center space-x-2 cursor-pointer", @""">
        <input
          type=""radio""
          name=""radio-group""
          value=""", @"""
          checked={value === '", @"'}
          onChange={(e) => setValue(e.target.value)}", @"
          className=""", @" rounded-full border-2 appearance-none cursor-pointer checked:border-4 transition-all duration-200""
        />
        <span className=""", @" select-none"">", @"</span>
      </label>"]

  /** One aceternity `label` around a native radio input. */
  function AceternityOption(disabled: bool, sizeClass: string, textSize: string, opt: string): string {
    Fill(AceternityOptionChunks,
      [ Opt(disabled, " opacity-50 cursor-not-allowed"), opt, opt, Opt(disabled, "\n          disabled"),
        sizeClass, textSize, opt ])
  }

  /** The options as JSON strings. */
  function OptionItems(options: seq<string>): (r: seq<Json>)
    ensures |r| == |options| && forall i :: 0 <= i < |options| ==> r[i] == JStr(options[i])
  {
    seq(|options|, i requires 0 <= i < |options| => JStr(options[i]))
  }

  /** `JSON.stringify(options)` */
  function OptionsJson(options: seq<string>): string {
    Stringify(JArr(OptionItems(options)))
  }

  // ---------------------------------------------------------------------
  // Templates

  const MuiChunks: seq<string> := [@"import { Radio, RadioGroup, FormControlLabel, FormControl, FormLabel } from '@mui/material';
import { useState } from 'react';

export function RadioDemo() {
  const [value, setValue] = useState('", @"');

  return (
    <FormControl", @">
      <FormLabel>Choose an option</FormLabel>
      <RadioGroup value={value} onChange={(e) => setValue(e.target.value)}>
", @"
      </RadioGroup>
    </FormControl>
  );
}"]
  const ChakraColorChunks: seq<string> := [@" color=""", @""""]
  const ChakraChunks: seq<string> := [@"import { Box, Stack, Text } from '@chakra-ui/react';
import { useState } from 'react';

export function RadioDemo() {
  const [value, setValue] = useState('", @"');

  return (
    <Stack gap={2}>
      <Text fontWeight=""medium"" fontSize=""sm"" mb={1}>Choose an option</Text>
      {", @".map((option) => (
        <Box
          key={option}
          display=""flex""
          alignItems=""center""
          gap={2}
          cursor={", @" ? 'not-allowed' : 'pointer'}
          opacity={", @" ? 0.5 : 1}
          onClick={() => !", @" && setValue(option)}
        >
          <Box
            width=""", @"""
            height=""", @"""
            borderRadius=""full""
            border=""2px solid""
            borderColor={value === option ? '", @"' : 'gray.300'}
            display=""flex""
            alignItems=""center""
            justifyContent=""center""
            transition=""all 0.2s""
          >
            {value === option && (
              <Box
                width=""60%""
                height=""60%""
                borderRadius=""full""
                bg=""", @"""
              />
            )}
          </Box>
          <Text fontSize=""", @"""", @">
            {option}
          </Text>
        </Box>
      ))}
    </Stack>
  );
}"]
  const AntdChunks: seq<string> := [@"import { Radio } from 'antd';
import { useState } from 'react';

export function RadioDemo() {
  const [value, setValue] = useState('", @"');

  return (
    <Radio.Group 
      value={value} 
      onChange={(e) => setValue(e.target.value)}", @"
      size=""", @"""
    >
      <div style={{ display: 'flex', flexDirection: 'column', gap: '8px' }}>
", @"
      </div>
    </Radio.Group>
  );
}"]
  const ShadcnChunks: seq<string> := [@"import { RadioGroup, RadioGroupItem } from ""@/components/ui/radio-group"";
import { Label } from ""@/components/ui/label"";
import { useState } from 'react';

export function RadioDemo() {
  const [value, setValue] = useState('", @"');

  return (
    <RadioGroup value={value} onValueChange={setValue}", @">
      <div className=""flex flex-col gap-3"">
", @"
      </div>
    </RadioGroup>
  );
}
"]
  const AceternityChunks: seq<string> := [@"import { useState } from 'react';

export function RadioDemo() {
  const [value, setValue] = useState('", @"');

  return (
    <div className=""flex flex-col gap-3"">
", @"
    </div>
  );
}"]

  /** The template of a provider's branch. */
  function Chunks(p: Provider): seq<string>
    requires p != Other
  {
    match p
    case Mui => MuiChunks
    case Chakra => ChakraChunks
    case Antd => AntdChunks
    case Shadcn => ShadcnChunks
    case Aceternity => AceternityChunks
  }

  /** The mui option fragment for a configuration. */
  function MuiItem(c: Config): string -> string {
    (opt: string) => MuiOption(MuiSize(c.size), MuiSx(c.styles.color), opt)
  }

  function ShadcnItem(c: Config): string -> string {
    (opt: string) => ShadcnOption(ShadcnSizeClass(c.size), ShadcnTextSize(c.size), opt)
  }

  function AceternityItem(c: Config): string -> string {
    (opt: string) => AceternityOption(Truthy(c.disabled), AceternitySizeClass(c.size), AceternityTextSize(c.size), opt)
  }

  /** The texts a provider's branch interpolates, in order. */
  function Args(p: Provider, c: Config): (args: seq<string>)
    requires p != Other
    ensures |args| == |Chunks(p)| - 1
  {
    var sel := Show(c.selectedValue);
    var d := Truthy(c.disabled);
    var color := c.styles.color;
    match p
    case Mui => [sel, Opt(d, " disabled"), Join(Each(c.options, MuiItem(c)), "\n")]
    case Chakra =>
      var shown := Show(Or(color, Str("blue.500")));
      [ sel, OptionsJson(c.options), Show(c.disabled), Show(c.disabled), Show(c.disabled),
        ChakraSize(c.size), ChakraSize(c.size), shown, shown, ChakraTextSize(c.size), Gated(ChakraColorChunks, color) ]
    case Antd => [sel, Opt(d, "\n      disabled"), AntdSize(c.size), Join(Each(c.options, AntdOption), "\n")]
    case Shadcn => [sel, Opt(d, " disabled"), Join(Each(c.options, ShadcnItem(c)), "\n")]
    case Aceternity => [sel, Join(Each(c.options, AceternityItem(c)), "\n")]
  }

  /** `generateRadioCode(provider, config)` */
  function Code(p: Provider, c: Config): (code: string)
    ensures p == Other ==> code == GenerationNotAvailable
  {
    if p == Other then GenerationNotAvailable else Fill(Chunks(p), Args(p, c))
  }

  // ---------------------------------------------------------------------
  // Properties

  /** Every provider starts the state at the selected value. */
  lemma SelectedValueInCode(p: Provider, c: Config)
    requires p != Other
    ensures Args(p, c)[0] == Show(c.selectedValue)
    ensures Contains(Code(p, c), Show(c.selectedValue))
  {
    FillContains(Chunks(p), Args(p, c), 0);
  }

  /** mui, antd, shadcn and aceternity write one control per option, in the
      order of the options, separated by newlines: one more option appends
      its control and changes nothing before it. */
  lemma OnePerOption(c: Config, opt: string)
    requires |c.options| > 0
    ensures var c' := c.(options := c.options + [opt]);
      && Args(Mui, c')[2] == Args(Mui, c)[2] + "\n" + MuiItem(c)(opt)
      && Args(Antd, c')[3] == Args(Antd, c)[3] + "\n" + AntdOption(opt)
      && Args(Shadcn, c')[2] == Args(Shadcn, c)[2] + "\n" + ShadcnItem(c)(opt)
      && Args(Aceternity, c')[1] == Args(Aceternity, c)[1] + "\n" + AceternityItem(c)(opt)
  {
    JoinEachAppend(c.options, opt, MuiItem(c), "\n");
    JoinEachAppend(c.options, opt, AntdOption, "\n");
    JoinEachAppend(c.options, opt, ShadcnItem(c), "\n");
    JoinEachAppend(c.options, opt, AceternityItem(c), "\n");
  }

  /** With no options those branches write no control at all. */
  lemma NoOptions(c: Config)
    requires c.options == []
    ensures Args(Mui, c)[2] == "" && Args(Antd, c)[3] == "" && Args(Shadcn, c)[2] == "" && Args(Aceternity, c)[1] == ""
  {
  }

  /** Each control carries its option. */
  lemma OptionShown(c: Config, opt: string)
    ensures Contains(MuiItem(c)(opt), opt) && Contains(AntdOption(opt), opt)
    ensures Contains(ShadcnItem(c)(opt), opt) && Contains(AceternityItem(c)(opt), opt)
  {
    var m := MuiItem(c)(opt);
    assert m == MuiOption(MuiSize(c.size), MuiSx(c.styles.color), opt);
    FillContains(MuiOptionChunks, [opt, MuiSize(c.size), Gated(SxAttrChunks, Str(MuiSx(c.styles.color))), opt], 0);
    FillContains(AntdOptionChunks, [opt, opt], 0);
    var sc := ShadcnSizeClass(c.size);
    var ts := ShadcnTextSize(c.size);
    FillContains(ShadcnOptionChunks, [opt, opt, Gated(ShadcnItemClassChunks, Str(sc)), opt, Gated(ShadcnLabelClassChunks, Str(ts)), opt], 0);
    var d := Truthy(c.disabled);
    FillContains(AceternityOptionChunks,
      [ Opt(d, " opacity-50 cursor-not-allowed"), opt, opt, Opt(d, "\n          disabled"),
        AceternitySizeClass(c.size), AceternityTextSize(c.size), opt ], 1);
  }

  /** chakra writes every option, quoted, inside the serialised list; and
      distinct options are quoted distinctly. */
  lemma ChakraOptions(c: Config, i: int)
    requires 0 <= i < |c.options|
    ensures Contains(Code(Chakra, c), Quote(c.options[i]))
    ensures forall k :: 0 <= k < |c.options| ==> (Quote(c.options[k]) == Quote(c.options[i]) <==> c.options[k] == c.options[i])
  {
    var items := OptionItems(c.options);
    StringifyArrayContains(items, i);
    assert Stringify(items[i]) == Quote(c.options[i]);
    FillContains(ChakraChunks, Args(Chakra, c), 1);
    ContainsTrans(Code(Chakra, c), OptionsJson(c.options), Quote(c.options[i]));
    forall k | 0 <= k < |c.options| {
      QuoteInjective(c.options[k], c.options[i]);
    }
  }

  /** mui's size is small only for 'small'; its `sx` attribute is written
      exactly when a colour is set, and then holds the colour. */
  lemma MuiSizeAndSx(c: Config, opt: string)
    ensures MuiSize(c.size) == "small" <==> c.size == Str("small")
    ensures MuiSx(c.styles.color) == "" <==> !Truthy(c.styles.color)
    ensures Truthy(c.styles.color) ==> Contains(MuiItem(c)(opt), Show(c.styles.color))
  {
    var color := c.styles.color;
    if Truthy(color) {
      var sx := MuiSx(color);
      FillContains(MuiSxChunks, [Show(color), Show(color)], 0);
      var g := Gated(SxAttrChunks, Str(sx));
      FillContains(MuiOptionChunks, [opt, MuiSize(c.size), g, opt], 2);
      ContainsTrans(g, sx, Show(color));
      ContainsTrans(MuiItem(c)(opt), g, Show(color));
    }
  }

  /** The disabled marker of mui, antd and shadcn is written exactly when
      `disabled` is truthy. */
  lemma DisabledMarker(c: Config)
    ensures Args(Mui, c)[1] == (if Truthy(c.disabled) then " disabled" else "")
    ensures Args(Antd, c)[1] == (if Truthy(c.disabled) then "\n      disabled" else "")
    ensures Args(Shadcn, c)[1] == (if Truthy(c.disabled) then " disabled" else "")
    ensures Args(Mui, c)[1] != "" <==> Truthy(c.disabled)
  {
  }

  /** chakra's selected colour defaults to blue.500, and its circle is 14px,
      22px or 18px by size. */
  lemma ChakraColorAndSize(c: Config)
    ensures Args(Chakra, c)[7] == Args(Chakra, c)[8] ==
      if Truthy(c.styles.color) then Show(c.styles.color) else "blue.500"
    ensures Args(Chakra, c)[5] == Args(Chakra, c)[6] ==
      if c.size == Str("small") then "14px" else if c.size == Str("large") then "22px" else "18px"
    ensures Args(Chakra, c)[10] == "" <==> !Truthy(c.styles.color)
  {
  }

  /** shadcn's middle tier has no size or text class, so neither class
      attribute is written; the other tiers write both. */
  lemma ShadcnMediumClasses(c: Config, opt: string)
    ensures var medium := TierOf(c.size) == Medium;
      && (Gated(ShadcnItemClassChunks, Str(ShadcnSizeClass(c.size))) == "" <==> medium)
      && (Gated(ShadcnLabelClassChunks, Str(ShadcnTextSize(c.size))) == "" <==> medium)
  {
  }
}
