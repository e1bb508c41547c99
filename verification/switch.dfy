/** Code generation for a switch: `generateSwitchCode` in
    src/lib/codegen/switch.ts. Every branch starts the state at `checked`
    and labels the switch with the label or 'Toggle'. */
module Switch {
  import opened Js
  import opened Text
  import opened Providers

  /** `config.styles`; an absent `styles` has an unset colour. */
  datatype SwitchStyles = SwitchStyles(color: Value)

  datatype Config = Config(checked: Value, size: Value, disabled: Value, labelText: Value, styles: SwitchStyles)

  /** `label || 'Toggle'` */
  function LabelOf(c: Config): string {
    Show(Or(c.labelText, Str("Toggle")))
  }

  // ---------------------------------------------------------------------
  // Sizes

  function MuiSize(size: Value): string {
    if size == Str("small") then "small" else "medium"
  }

  function ChakraSize(size: Value): string {
    BySize(TierOf(size), "sm", "lg", "md")
  }

  /** antd's size: 'small', unset for large, 'default' otherwise. */
  function AntdSize(size: Value): Value {
    BySize(TierOf(size), Str("small"), Undefined, Str("default"))
  }

  function ShadcnSizeClass(size: Value): string {
    BySize(TierOf(size), "h-5 w-9", "h-7 w-14", "")
  }

  function ShadcnTextSize(size: Value): string {
    BySize(TierOf(size), "text-xs", "text-lg", "")
  }

  function AceternitySizeClass(size: Value): string {
    BySize(TierOf(size), "w-9 h-5", "w-14 h-7", "w-11 h-6")
  }

  function ThumbSize(size: Value): string {
    BySize(TierOf(size), "h-4 w-4", "h-6 w-6", "h-5 w-5")
  }

  /** How far the thumb moves when on. */
  function Translate(size: Value): string {
    BySize(TierOf(size), "translate-x-4", "translate-x-7", "translate-x-5")
  }

  function AceternityTextSize(size: Value): string {
    BySize(TierOf(size), "text-xs", "text-lg", "text-sm")
  }

  // ---------------------------------------------------------------------
  // Fragments

  const MuiSxChunks: seq<string> := [@"sx={{ '&.Mui-checked': { color: '", @"' }, '& .MuiSwitch-switchBase.Mui-checked + .MuiSwitch-track': { backgroundColor: '", @"' } }}"]
  const MuiSxAttrChunks: seq<string> := [@"
          ", ""]

  /** mui's `sx`: the checked thumb and track in the colour, when one is set. */
  function MuiSx(color: Value): string {
    if Truthy(color) then Fill(MuiSxChunks, [Show(color), Show(color)]) else ""
  }

  /** chakra's colour scheme: blue unless a colour is set. */
  function ColorScheme(color: Value): string {
    if Truthy(color) then "" else " colorScheme=\"blue\""
  }

  const AntdSizeAttrChunks: seq<string> := [@"
        size=""", @""""]
  const ShadcnClassChunks: seq<string> := [@"
        className=""", @""""]
  const ShadcnLabelClassChunks: seq<string> := [@" className=""", @""""]

  // ---------------------------------------------------------------------
  // Templates

  const MuiChunks: seq<string> := [@"import { Switch, FormControlLabel } from '@mui/material';
import { useState } from 'react';

export function SwitchDemo() {
  const [checked, setChecked] = useState(", @");

  return (
    <FormControlLabel
      control={
        <Switch
          checked={checked}
          onChange={(e) => setChecked(e.target.checked)}
          size=""", @"""", "", @"
        />
      }
      label=""", @"""
    />
  );
}"]
  const ChakraChunks: seq<string> := [@"import { Switch, FormControl, FormLabel } from '@chakra-ui/react';
import { useState } from 'react';

export function SwitchDemo() {
  const [checked, setChecked] = useState(", @");

  return (
    <FormControl display=""flex"" alignItems=""center"">
      <FormLabel htmlFor=""switch"" mb=""0"" mr={3}>
        ", @"
      </FormLabel>
      <Switch
        id=""switch""
        isChecked={checked}
        onChange={(e) => setChecked(e.target.checked)}
        size=""", @"""", "", @"
      />
    </FormControl>
  );
}"]
  const AntdChunks: seq<string> := [@"import { Switch } from 'antd';
import { useState } from 'react';

export function SwitchDemo() {
  const [checked, setChecked] = useState(", @");

  return (
    <div style={{ display: 'flex', alignItems: 'center', gap: '8px' }}>
      <Switch
        checked={checked}
        onChange={setChecked}", "", @"
      />
      <span>", @"</span>
    </div>
  );
}"]
  const ShadcnChunks: seq<string> := [@"import { Switch } from ""@/components/ui/switch"";
import { Label } from ""@/components/ui/label"";
import { useState } from 'react';

export function SwitchDemo() {
  const [checked, setChecked] = useState(", @");

  return (
    <div className=""flex items-center space-x-2"">
      <Switch
        id=""switch""
        checked={checked}
        onCheckedChange={setChecked}", "", @"
      />
      <Label htmlFor=""switch""", @">
        ", @"
      </Label>
    </div>
  );
}"]
  const AceternityChunks: seq<string> := [@"import { useState } from 'react';

export function SwitchDemo() {
  const [checked, setChecked] = useState(", @");

  return (
    <div className=""flex items-center space-x-2"">
      <button
        type=""button""
        role=""switch""
        aria-checked={checked}", @"
        onClick={() => setChecked(!checked)}
        className=""", @" relative inline-flex items-center rounded-full transition-colors duration-200 focus:outline-none focus:ring-2 focus:ring-offset-2", @"""
        style={{ backgroundColor: checked ? '", @"' : '#d1d5db' }}
      >
        <span className=""", @" inline-block transform rounded-full bg-white transition-transform duration-200 ${checked ? '", @"' : 'translate-x-0.5'}"" />
      </button>
      <span className=""", @" select-none"">", @"</span>
    </div>
  );
}"]

  function Chunks(p: Provider): seq<string>
    requires p != Other
  {
    match p
    case Mui => MuiChunks
    case Chakra => ChakraChunks
    case Antd => AntdChunks
    case Shadcn => ShadcnChunks
    case Aceternity => AceternityChunks
  }

  /** The texts a provider's branch interpolates, in order. */
  function Args(p: Provider, c: Config): (args: seq<string>)
    requires p != Other
    ensures |args| == |Chunks(p)| - 1
  {
    var checked := Show(c.checked);
    var d := Truthy(c.disabled);
    var color := c.styles.color;
    match p
    case Mui =>
      [ checked, MuiSize(c.size), Opt(d, "\n          disabled"), Gated(MuiSxAttrChunks, Str(MuiSx(color))), LabelOf(c) ]
    case Chakra => [checked, LabelOf(c), ChakraSize(c.size), Opt(d, "\n        isDisabled"), ColorScheme(color)]
    case Antd => [checked, Gated(AntdSizeAttrChunks, AntdSize(c.size)), Opt(d, "\n        disabled"), LabelOf(c)]
    case Shadcn =>
      [ checked, Opt(d, "\n        disabled"), Gated(ShadcnClassChunks, Str(ShadcnSizeClass(c.size))),
        Gated(ShadcnLabelClassChunks, Str(ShadcnTextSize(c.size))), LabelOf(c) ]
    case Aceternity =>
      [ checked, Opt(d, "\n        disabled"), AceternitySizeClass(c.size),
        if d then " opacity-50 cursor-not-allowed" else " cursor-pointer", Show(Or(color, Str("#3b82f6"))),
        ThumbSize(c.size), Translate(c.size), AceternityTextSize(c.size), LabelOf(c) ]
  }

  /** `generateSwitchCode(provider, config)` */
  function Code(p: Provider, c: Config): (code: string)
    ensures p == Other ==> code == GenerationNotAvailable
  {
    if p == Other then GenerationNotAvailable else Fill(Chunks(p), Args(p, c))
  }

  // ---------------------------------------------------------------------
  // Properties

  /** Every provider labels the switch with the label, or 'Toggle' when the
      label is unset or empty, and starts the state at `checked`. */
  lemma LabelAndCheckedInCode(p: Provider, c: Config)
    requires p != Other
    ensures LabelOf(c) == if Truthy(c.labelText) then Show(c.labelText) else "Toggle"
    ensures Contains(Code(p, c), LabelOf(c))
    ensures Args(p, c)[0] == Show(c.checked) && Contains(Code(p, c), Show(c.checked))
  {
    var args := Args(p, c);
    FillContains(Chunks(p), args, 0);
    FillContains(Chunks(p), args, if p == Chakra then 1 else |args| - 1);
  }

  /** mui's `sx` attribute is written exactly when a colour is set, and
      then holds the colour. */
  lemma MuiSxIffColor(c: Config)
    ensures Args(Mui, c)[3] == "" <==> !Truthy(c.styles.color)
    ensures Truthy(c.styles.color) ==> Contains(Code(Mui, c), Show(c.styles.color))
  {
    var color := c.styles.color;
    if Truthy(color) {
      var sx := MuiSx(color);
      var args := Args(Mui, c);
      FillContains(MuiSxChunks, [Show(color), Show(color)], 0);
      ContainsTrans(args[3], sx, Show(color));
      FillContains(MuiChunks, args, 3);
      ContainsTrans(Code(Mui, c), args[3], Show(color));
    }
  }

  /** chakra writes `colorScheme="blue"` exactly when no colour is set. */
  lemma ChakraColorScheme(c: Config)
    ensures Args(Chakra, c)[4] == (if Truthy(c.styles.color) then "" else " colorScheme=\"blue\"")
    ensures Args(Chakra, c)[4] != "" <==> !Truthy(c.styles.color)
  {
  }

  /** antd's size attribute is 'small' for small, omitted for large, and
      'default' for every other size. */
  lemma AntdSizeAttribute(c: Config)
    ensures Args(Antd, c)[1] == "" <==> c.size == Str("large")
    ensures c.size != Str("large") ==> Contains(Args(Antd, c)[1], if c.size == Str("small") then "small" else "default")
  {
  }

  /** aceternity's "on" background is the colour, or #3b82f6 when none is
      set; its thumb travel grows with the size. */
  lemma AceternityColorAndTravel(c: Config)
    ensures Args(Aceternity, c)[4] == if Truthy(c.styles.color) then Show(c.styles.color) else "#3b82f6"
    ensures Args(Aceternity, c)[6] ==
      if c.size == Str("small") then "translate-x-4" else if c.size == Str("large") then "translate-x-7" else "translate-x-5"
  {
  }

  /** shadcn's middle tier writes neither class attribute. */
  lemma ShadcnMediumClasses(c: Config)
    ensures Args(Shadcn, c)[2] == "" <==> TierOf(c.size) == Medium
    ensures Args(Shadcn, c)[3] == "" <==> TierOf(c.size) == Medium
  {
  }

  /** The disabled marker is written exactly when `disabled` is truthy, in
      every branch. */
  lemma DisabledMarker(p: Provider, c: Config)
    requires p != Other
    ensures var i := match p case Mui => 2 case Chakra => 3 case Antd => 2 case _ => 1;
      Truthy(c.disabled) <==> Contains(Args(p, c)[i], "disabled") || Contains(Args(p, c)[i], "isDisabled")
  {
    var i := match p case Mui => 2 case Chakra => 3 case Antd => 2 case _ => 1;
    var a := Args(p, c)[i];
    if Truthy(c.disabled) {
      var word := if p == Chakra then "isDisabled" else "disabled";
      assert a == a[..|a| - |word|] + word;
      ContainsSelf(word);
      ContainsRight(a[..|a| - |word|], word, word);
    } else {
      assert a == "";
    }
  }
}
