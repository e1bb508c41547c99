/** Code generation for a select box: `generateSelectCode` in
    src/lib/codegen/select.ts. The generator is a single expression per
    provider: it normalises the options, picks colours and texts by `||`
    fallbacks and fills one template. */
module Select {
  import opened Js
  import opened Text
  import opened Providers
  import opened Json

  /** `config.styles`; an absent `styles` is the record whose fields are all unset. */
  datatype SelectStyles = SelectStyles(color: Value, borderRadius: Value, borderColor: Value)

  /** The configuration; each option is a JSON value (a string, or an object
      with `value` and `label`). */
  datatype Config = Config(
    options: seq<Json>, value: Value, placeholder: Value, size: Value, disabled: Value,
    labelText: Value, styles: SelectStyles)

  // ---------------------------------------------------------------------
  // Options

  /** `typeof opt === 'string' ? { value: opt, label: opt } : opt` */
  function NormalizeOption(opt: Json): (r: Json)
    ensures opt.JStr? ==> r == JObj([Field("value", opt), Field("label", opt)])
    ensures !opt.JStr? ==> r == opt
  {
    match opt
    case JStr(s) => JObj([Field("value", JStr(s)), Field("label", JStr(s))])
    case _ => opt
  }

  /** `options.map(NormalizeOption)`: same length, same order, each string s
      turned into `{value: s, label: s}` and everything else kept. */
  function NormalizeOptions(options: seq<Json>): (r: seq<Json>)
    ensures |r| == |options|
    ensures forall i :: 0 <= i < |options| && options[i].JStr? ==>
      r[i] == JObj([Field("value", options[i]), Field("label", options[i])])
    ensures forall i :: 0 <= i < |options| && !options[i].JStr? ==> r[i] == options[i]
  {
    if options == [] then [] else [NormalizeOption(options[0])] + NormalizeOptions(options[1..])
  }

  /** Normalising twice is normalising once: every normalised option is an
      object already. */
  lemma {:induction false} NormalizeOptionsIdempotent(options: seq<Json>)
    ensures NormalizeOptions(NormalizeOptions(options)) == NormalizeOptions(options)
  {
    var r := NormalizeOptions(options);
    var rr := NormalizeOptions(r);
    forall i | 0 <= i < |r|
      ensures rr[i] == r[i]
    {
      assert !r[i].JStr?;
    }
  }

  /** `JSON.stringify(normalizedOptions)` */
  function OptionsJson(options: seq<Json>): string {
    Stringify(JArr(NormalizeOptions(options)))
  }

  // ---------------------------------------------------------------------
  // Extracted values

  /** `styles?.borderRadius || 8`: every falsy radius, 0 included, becomes 8. */
  function Radius(st: SelectStyles): Value {
    Or(st.borderRadius, Num(8))
  }

  /** The radius as interpolated in front of "px": a truthy radius verbatim,
      every falsy one (unset, 0, the empty string) as "8". */
  lemma RadiusText(st: SelectStyles)
    ensures !Truthy(st.borderRadius) ==> Show(Radius(st)) == "8"
    ensures st.borderRadius.Num? && st.borderRadius.n != 0 ==> Show(Radius(st)) == IntToString(st.borderRadius.n)
    ensures st.borderRadius.Str? && st.borderRadius.s != "" ==> Show(Radius(st)) == st.borderRadius.s
  {
    assert IntToString(8) == "8";
  }

  /** `borderColor || color || fallback` */
  function BorderColor(st: SelectStyles, fallback: string): (r: string)
    ensures Truthy(st.borderColor) ==> r == Show(st.borderColor)
    ensures !Truthy(st.borderColor) && Truthy(st.color) ==> r == Show(st.color)
    ensures !Truthy(st.borderColor) && !Truthy(st.color) ==> r == fallback
  {
    Show(Or(Or(st.borderColor, st.color), Str(fallback)))
  }

  /** The fallback border colour of each provider. */
  function BorderFallback(p: Provider): string {
    match p
    case Mui => "#ccc"
    case Chakra => "#E2E8F0"
    case Antd => "#d9d9d9"
    case Shadcn => "#e2e8f0"
    case _ => "#3b82f6"
  }

  /** `color || fallback` */
  function ColorOr(st: SelectStyles, fallback: string): (r: string)
    ensures Truthy(st.color) ==> r == Show(st.color)
    ensures !Truthy(st.color) ==> r == fallback
  {
    Show(Or(st.color, Str(fallback)))
  }

  /** `placeholder || 'Select an option'` */
  function PlaceholderText(placeholder: Value): (r: string)
    ensures !Truthy(placeholder) ==> r == "Select an option"
    ensures Truthy(placeholder) ==> r == Show(placeholder)
  {
    Show(Or(placeholder, Str("Select an option")))
  }

  /** mui: small, and medium for everything else. */
  function MuiSize(size: Value): string {
    if size == Str("small") then "small" else "medium"
  }

  /** The size maps: mui has no large size; antd has three. */
  lemma SizeTokens(size: Value)
    ensures [MuiSize(size), BySize(TierOf(size), "small", "large", "middle")] ==
      if size == Str("small") then ["small", "small"]
      else if size == Str("large") then ["medium", "large"]
      else ["medium", "middle"]
  {
  }

  // ---------------------------------------------------------------------
  // Templates

  const MuiLabelChunks: seq<string> := [@"<InputLabel id=""select-label"">", @"</InputLabel>"]
  const MuiLabelAttrChunks: seq<string> := [@"label=""", @""""]
  const MuiColorChunks: seq<string> := [@"color: '", @"', "]
  const ChakraLabelChunks: seq<string> := [@"<Text mb={1} fontSize=""sm"" fontWeight=""medium"">", @"</Text>"]
  const AntdLabelChunks: seq<string> := [@"<div style={{ marginBottom: 4 }}>", @"</div>"]
  const ShadcnLabelChunks: seq<string> := [@"<label className=""text-sm font-medium"">", @"</label>"]
  const AceternityLabelChunks: seq<string> := [@"<label className=""block text-sm font-semibold mb-1 opacity-80"">", @"</label>"]

  const MuiChunks: seq<string> := [@"import { Select, MenuItem, FormControl, InputLabel } from '@mui/material';
import { useState } from 'react';

export function SelectDemo() {
  const [val, setVal] = useState('", @"');

  return (
    <FormControl fullWidth size=""", @""" disabled={", @"}>
      ", @"
      <Select
        labelId=""select-label""
        value={val}
        ", @"
        onChange={(e) => setVal(e.target.value)}
        sx={{ 
          ", @"
          '.MuiOutlinedInput-notchedOutline': { 
            borderColor: '", @"',
            borderRadius: '", @"px'
          } 
        }}
      >
        {", @".map((opt) => (
          <MenuItem key={opt.value} value={opt.value}>
            {opt.label}
          </MenuItem>
        ))}
      </Select>
    </FormControl>
  );
}"]
  const ChakraChunks: seq<string> := [@"import { Box, Text, VStack, HStack } from '@chakra-ui/react';
import { ChevronDown, Check } from 'lucide-react';
import { useState } from 'react';

export function SelectDemo() {
  const [val, setVal] = useState('", @"');
  const [isOpen, setIsOpen] = useState(false);
  const options = ", @";
  const selected = options.find(o => o.value === val);

  return (
    <Box position=""relative"" width=""full"">
      ", @"
      <Box
        as=""button""
        onClick={() => !", @" && setIsOpen(!isOpen)}
        width=""full""
        display=""flex""
        alignItems=""center""
        justifyContent=""space-between""
        px={4}
        py={2}
        borderRadius=""", @"px""
        border=""1px solid""
        borderColor=""", @"""
        bg=""transparent""
        opacity={", @" ? 0.5 : 1}
        cursor={", @" ? ""not-allowed"" : ""pointer""}
      >
        <Text color={val ? """, @""" : ""gray.400""}>
          {selected?.label || """, @"""}
        </Text>
        <ChevronDown size={16} />
      </Box>
      
      {isOpen && (
        <VStack
          position=""absolute""
          top=""100%""
          left={0}
          right={0}
          mt={1}
          zIndex={10}
          bg=""white""
          border=""1px solid #E2E8F0""
          borderRadius=""md""
          boxShadow=""lg""
          align=""stretch""
          py={1}
        >
          {options.map((opt) => (
            <HStack
              key={opt.value}
              px={4}
              py={2}
              cursor=""pointer""
              _hover={{ bg: ""gray.50"" }}
              onClick={() => {
                setVal(opt.value);
                setIsOpen(false);
              }}
              justifyContent=""space-between""
            >
              <Text color={opt.value === val ? """, @""" : ""inherit""}>
                {opt.label}
              </Text>
              {opt.value === val && <Check size={14} color=""", @""" />}
            </HStack>
          ))}
        </VStack>
      )}
    </Box>
  );
}"]
  const AntdChunks: seq<string> := [@"import { Select } from 'antd';
import { useState } from 'react';

export function SelectDemo() {
  const [val, setVal] = useState('", @"');

  return (
    <div style={{ width: '100%' }}>
      ", @"
      <Select
        value={val}
        onChange={setVal}
        disabled={", @"}
        placeholder=""", @"""
        size=""", @"""
        style={{ 
          width: '100%',
          borderColor: '", @"',
          borderRadius: '", @"px'
        }}
        options={", @"}
      />
    </div>
  );
}"]
  const ShadcnChunks: seq<string> := [@"import {
  Select,
  SelectContent,
  SelectItem,
  SelectTrigger,
  SelectValue,
} from ""@/components/ui/select"";
import { useState } from 'react';

export function SelectDemo() {
  const [val, setVal] = useState('", @"');

  return (
    <div className=""w-full space-y-1"">
      ", @"
      <Select value={val} onValueChange={setVal} disabled={", @"}>
        <SelectTrigger 
          className=""w-full""
          style={{ 
            borderColor: '", @"', 
            color: '", @"',
            borderRadius: '", @"px'
          }}
        >
          <SelectValue placeholder=""", @""" />
        </SelectTrigger>
        <SelectContent>
          {", @".map((opt) => (
            <SelectItem key={opt.value} value={opt.value}>
              {opt.label}
            </SelectItem>
          ))}
        </SelectContent>
      </Select>
    </div>
  );
}"]
  const AceternityChunks: seq<string> := [@"import { useState, useRef, useEffect } from 'react';
import { ChevronDown, Check } from 'lucide-react';

export function SelectDemo() {
  const [val, setVal] = useState('", @"');
  const [isOpen, setIsOpen] = useState(false);
  const options = ", @";
  const selected = options.find(o => o.value === val);

  return (
    <div className=""w-full relative"">
      ", @"
      <button
        onClick={() => !", @" && setIsOpen(!isOpen)}
        className=""w-full flex items-center justify-between px-4 py-2 rounded-xl transition-all border-2 bg-white""
        style={{ 
          borderColor: '", @"',
          borderRadius: '", @"px'
        }}
      >
        <span className=""text-sm font-medium"" style={{ color: '", @"' }}>
          {selected?.label || """, @"""}
        </span>
        <ChevronDown className={`w-4 h-4 transition-transform ${isOpen ? 'rotate-180' : ''}`} />
      </button>

      {isOpen && (
        <div className=""absolute z-50 top-full left-0 right-0 mt-2 rounded-2xl border bg-white shadow-2xl p-2"">
          {options.map((opt) => (
            <div
              key={opt.value}
              onClick={() => {
                setVal(opt.value);
                setIsOpen(false);
              }}
              className=""flex items-center justify-between px-3 py-2 rounded-lg cursor-pointer hover:bg-gray-50""
            >
              <span className=""text-sm font-medium"">
                {opt.label}
              </span>
              {opt.value === val && <Check size={14} style={{ color: '", @"' }} />}
            </div>
          ))}
        </div>
      )}
    </div>
  );
}"]

  /** The template of a provider's branch. */
  function Chunks(p: Provider): seq<string>
    requires p != Other
  {
    match p
    case Mui => MuiChunks
    case Chakra => ChakraChunks
    case Antd => AntdChunks
    case Shadcn => ShadcnChunks
    case Aceternity => AceternityChunks
  }

  /** The texts a provider's branch interpolates, in order; the initial value
      comes first. */
  function Args(p: Provider, c: Config): (args: seq<string>)
    requires p != Other
    ensures |args| == |Chunks(p)| - 1 && args[0] == Show(c.value)
  {
    var st := c.styles;
    var v := Show(c.value);
    var d := Show(c.disabled);
    var r := Show(Radius(st));
    var bc := BorderColor(st, BorderFallback(p));
    var json := OptionsJson(c.options);
    var ph := PlaceholderText(c.placeholder);
    match p
    case Mui =>
      [v, MuiSize(c.size), d, Gated(MuiLabelChunks, c.labelText), Gated(MuiLabelAttrChunks, c.labelText),
       Gated(MuiColorChunks, st.color), bc, r, json]
    case Chakra =>
      [v, json, Gated(ChakraLabelChunks, c.labelText), d, r, bc, d, d, ColorOr(st, "inherit"), ph,
       ColorOr(st, "#3182ce"), ColorOr(st, "#3182ce")]
    case Antd =>
      [v, Gated(AntdLabelChunks, c.labelText), d, ph, BySize(TierOf(c.size), "small", "large", "middle"), bc, r, json]
    case Shadcn =>
      [v, Gated(ShadcnLabelChunks, c.labelText), d, bc, ColorOr(st, "inherit"), r, ph, json]
    case Aceternity =>
      [v, json, Gated(AceternityLabelChunks, c.labelText), d, bc, r, ColorOr(st, "inherit"), ph,
       ColorOr(st, "#3b82f6")]
  }

  /** `generateSelectCode(provider, config)` */
  function Code(p: Provider, c: Config): (code: string)
    ensures p == Other ==> code == NotSupported
  {
    if p == Other then NotSupported else Fill(Chunks(p), Args(p, c))
  }

  // ---------------------------------------------------------------------
  // Properties of the generated code

  /** Where each branch interpolates the border colour, the radius and the
      serialised options. */
  function BorderColorIndex(p: Provider): nat
    requires p != Other
  {
    match p
    case Mui => 6
    case Chakra => 5
    case Antd => 5
    case Shadcn => 3
    case Aceternity => 4
  }

  function RadiusIndex(p: Provider): nat
    requires p != Other
  {
    match p
    case Mui => 7
    case Chakra => 4
    case Antd => 6
    case Shadcn => 5
    case Aceternity => 5
  }

  /** Every branch interpolates the radius in the slot its template closes
      with "px", so a radius is always emitted: the configured one when
      truthy, 8 otherwise (0 included). */
  lemma RadiusInCode(p: Provider, c: Config)
    requires p != Other
    ensures Args(p, c)[RadiusIndex(p)] == Show(Radius(c.styles))
    ensures !Truthy(c.styles.borderRadius) ==> Args(p, c)[RadiusIndex(p)] == "8"
    ensures Contains(Code(p, c), Show(Radius(c.styles)))
  {
    FillContains(Chunks(p), Args(p, c), RadiusIndex(p));
    RadiusText(c.styles);
  }

  /** Every branch writes the border colour: the configured border colour,
      else the text colour, else its own fallback. */
  lemma BorderColorInCode(p: Provider, c: Config)
    requires p != Other
    ensures Contains(Code(p, c), BorderColor(c.styles, BorderFallback(p)))
    ensures !Truthy(c.styles.borderColor) && !Truthy(c.styles.color) ==> Contains(Code(p, c), BorderFallback(p))
  {
    FillContains(Chunks(p), Args(p, c), BorderColorIndex(p));
  }

  /** The fallback border colours: #ccc, #E2E8F0, #d9d9d9, #e2e8f0, #3b82f6. */
  lemma BorderFallbacks()
    ensures [BorderFallback(Mui), BorderFallback(Chakra), BorderFallback(Antd), BorderFallback(Shadcn), BorderFallback(Aceternity)]
      == ["#ccc", "#E2E8F0", "#d9d9d9", "#e2e8f0", "#3b82f6"]
  {
  }

  /** Every branch writes the serialised normalised options. */
  lemma OptionsInCode(p: Provider, c: Config)
    requires p != Other
    ensures Contains(Code(p, c), OptionsJson(c.options))
  {
    var i := if p == Mui then 8 else if p == Antd || p == Shadcn then 7 else 1;
    FillContains(Chunks(p), Args(p, c), i);
  }

  /** The placeholder, 'Select an option' when empty, is written by every
      branch but mui's. */
  lemma PlaceholderInCode(p: Provider, c: Config)
    requires p != Other && p != Mui
    ensures Contains(Code(p, c), PlaceholderText(c.placeholder))
    ensures !Truthy(c.placeholder) ==> Contains(Code(p, c), "Select an option")
  {
    var i := match p case Chakra => 9 case Antd => 3 case Shadcn => 6 case _ => 7;
    FillContains(Chunks(p), Args(p, c), i);
  }

  /** mui: the `InputLabel` element and the `label=` attribute are both
      present exactly when the label is truthy, and then show it. */
  lemma MuiLabel(c: Config)
    ensures var args := Args(Mui, c);
      && (args[3] == "" <==> !Truthy(c.labelText))
      && (args[4] == "" <==> !Truthy(c.labelText))
    ensures Truthy(c.labelText) ==> Contains(Code(Mui, c), Show(c.labelText))
  {
    var args := Args(Mui, c);
    if Truthy(c.labelText) {
      FillContains(MuiChunks, args, 3);
      ContainsTrans(Code(Mui, c), args[3], Show(c.labelText));
    }
  }
}
