/** Code generation for a linear progress bar: `generateProgressCode` in
    src/lib/codegen/progress.ts. The value, maximum, height and radius have
    defaults; the style lists start with the height and the radius and gain
    colour entries by conditional pushes. There is no aceternity branch. */
module Progress {
  import opened Js
  import opened Text
  import opened Providers

  /** `config.styles`; an absent `styles` is the record whose fields are all unset. */
  datatype ProgressStyles = ProgressStyles(indicatorColor: Value, trackColor: Value, height: Value, borderRadius: Value)

  datatype Config = Config(styles: ProgressStyles, size: Value, value: Value, max: Value, labelText: Value)

  // ---------------------------------------------------------------------
  // Defaults

  /** `value = 60`: the default replaces only an unset value. */
  function ValueOf(c: Config): Value {
    if c.value == Undefined then Num(60) else c.value
  }

  /** `max = 100` */
  function MaxOf(c: Config): Value {
    if c.max == Undefined then Num(100) else c.max
  }

  /** The height: the style's height when truthy, else 4, 12 or 8 by size. */
  function HeightOf(c: Config): Value {
    Or(c.styles.height, Num(BySize(TierOf(c.size), 4, 12, 8)))
  }

  /** The radius: a number gains "px", a set non-number passes through, and
      an unset radius is 999px. */
  function RadiusOf(st: ProgressStyles): Value {
    if st.borderRadius == Undefined then Str("999px") else PxOrPass(st.borderRadius)
  }

  // ---------------------------------------------------------------------
  // Style lists

  /** mui's `sx`: height, radius, and the track colour. */
  function MuiSx(c: Config): seq<Entry> {
    PushIf([Entry("height", "height: " + Show(HeightOf(c))), SingleQuoted("borderRadius", Show(RadiusOf(c.styles)))],
      Truthy(c.styles.trackColor), SingleQuoted("bgcolor", Show(c.styles.trackColor)))
  }

  /** The root style of chakra and shadcn: height in px, radius, and the
      track colour. */
  function RootStyle(c: Config): seq<Entry> {
    PushIf([DoubleQuoted("height", Show(HeightOf(c)) + "px"), DoubleQuoted("borderRadius", Show(RadiusOf(c.styles)))],
      Truthy(c.styles.trackColor), DoubleQuoted("backgroundColor", Show(c.styles.trackColor)))
  }

  /** The indicator style of chakra and shadcn: only the indicator colour. */
  function IndicatorStyle(st: ProgressStyles): seq<Entry> {
    PushIf([], Truthy(st.indicatorColor), DoubleQuoted("backgroundColor", Show(st.indicatorColor)))
  }

  method PushMuiSx(c: Config) returns (sxProps: seq<Entry>)
    ensures sxProps == MuiSx(c)
  {
    sxProps := [Entry("height", "height: " + Show(HeightOf(c))), SingleQuoted("borderRadius", Show(RadiusOf(c.styles)))];
    if Truthy(c.styles.trackColor) { sxProps := sxProps + [SingleQuoted("bgcolor", Show(c.styles.trackColor))]; }
  }

  method PushStyles(c: Config) returns (rootStyle: seq<Entry>, indicatorStyle: seq<Entry>)
    ensures rootStyle == RootStyle(c) && indicatorStyle == IndicatorStyle(c.styles)
  {
    rootStyle := [DoubleQuoted("height", Show(HeightOf(c)) + "px"), DoubleQuoted("borderRadius", Show(RadiusOf(c.styles)))];
    if Truthy(c.styles.trackColor) { rootStyle := rootStyle + [DoubleQuoted("backgroundColor", Show(c.styles.trackColor))]; }
    indicatorStyle := [];
    if Truthy(c.styles.indicatorColor) {
      indicatorStyle := indicatorStyle + [DoubleQuoted("backgroundColor", Show(c.styles.indicatorColor))];
    }
  }

  // ---------------------------------------------------------------------
  // Fragments

  const BarSxChunks: seq<string> := [@", '& .MuiLinearProgress-bar': { bgcolor: '", @"' }"]
  const MuiLabelChunks: seq<string> := [@"<Typography variant=""body2"" sx={{ mb: 1, fontWeight: 500 }}>", @"</Typography>"]
  const ChakraLabelChunks: seq<string> := [@"<ProgressLabel mb=""2"" fontWeight=""500"">", @"</ProgressLabel>"]
  const StrokeColorChunks: seq<string> := [@"strokeColor=""", @""""]
  const RailColorChunks: seq<string> := [@"railColor=""", @""""]
  const AntdLabelChunks: seq<string> := [@"<div style={{ marginBottom: 8 }}><Text strong>", @"</Text></div>"]
  const ShadcnLabelChunks: seq<string> := [@"<Label className=""text-sm font-medium"">", @"</Label>"]

  /** `${Math.round((value / max) * 100)}` */
  function Percent(c: Config): string {
    PercentText(ToNumber(ValueOf(c)), ToNumber(MaxOf(c)))
  }

  // ---------------------------------------------------------------------
  // Templates

  const MuiChunks: seq<string> := [@"import { Box, LinearProgress, Typography } from '@mui/material';

export function CustomProgress() {
  return (
    <Box sx={{ width: '100%' }}>
      ", @"
      <LinearProgress 
        variant=""determinate"" 
        value={", @"} 
        sx={{ 
          ", "", @"
        }} 
      />
    </Box>
  );
}"]
  const ChakraChunks: seq<string> := [@"import { ProgressRoot, ProgressRange, ProgressLabel, ProgressValueText } from '@chakra-ui/react';

export function CustomProgress() {
  return (
    <ProgressRoot value={", @"} max={", @"} width=""100%"" style={{ ", @" }}>
      ", @"
      <ProgressRange style={{ ", @" }} />
    </ProgressRoot>
  );
}"]
  const AntdChunks: seq<string> := [@"import { Progress, Typography } from 'antd';

const { Text } = Typography;

export function CustomProgress() {
  return (
    <div style={{ width: '100%' }}>
      ", @"
      <Progress 
        percent={", @"} 
        strokeWidth={", @"}
        ", @"
        ", @"
        showInfo={false}
        style={{ borderRadius: '", @"' }}
      />
    </div>
  );
}"]
  const ShadcnChunks: seq<string> := [@"import { Progress } from ""@/components/ui/progress"";
import { Label } from ""@/components/ui/label"";

export function CustomProgress() {
  return (
    <div className=""w-full space-y-2"">
      ", @"
      <Progress 
        value={", @"} 
        max={", @"}
        style={{ ", @" }}
        indicatorStyle={{ ", @" }}
      />
    </div>
  );
}"]

  function MuiArgs(c: Config, sxProps: seq<Entry>): (args: seq<string>)
    ensures |args| == |MuiChunks| - 1
  {
    [ Gated(MuiLabelChunks, c.labelText), Show(ValueOf(c)), JoinEntries(sxProps, ",\n          "),
      Gated(BarSxChunks, c.styles.indicatorColor) ]
  }

  function ChakraArgs(c: Config, rootStyle: seq<Entry>, indicatorStyle: seq<Entry>): (args: seq<string>)
    ensures |args| == |ChakraChunks| - 1
  {
    [ Show(ValueOf(c)), Show(MaxOf(c)), JoinEntries(rootStyle, ", "), Gated(ChakraLabelChunks, c.labelText),
      JoinEntries(indicatorStyle, ", ") ]
  }

  function AntdArgs(c: Config): (args: seq<string>)
    ensures |args| == |AntdChunks| - 1
  {
    [ Gated(AntdLabelChunks, c.labelText), Percent(c), Show(HeightOf(c)),
      Gated(StrokeColorChunks, c.styles.indicatorColor), Gated(RailColorChunks, c.styles.trackColor),
      Show(RadiusOf(c.styles)) ]
  }

  function ShadcnArgs(c: Config, rootStyle: seq<Entry>, indicatorStyle: seq<Entry>): (args: seq<string>)
    ensures |args| == |ShadcnChunks| - 1
  {
    [ Gated(ShadcnLabelChunks, c.labelText), Show(ValueOf(c)), Show(MaxOf(c)), JoinEntries(rootStyle, ", "),
      JoinEntries(indicatorStyle, ", ") ]
  }

  predicate Supported(p: Provider) {
    p == Mui || p == Chakra || p == Antd || p == Shadcn
  }

  function Chunks(p: Provider): seq<string>
    requires Supported(p)
  {
    match p
    case Mui => MuiChunks
    case Chakra => ChakraChunks
    case Antd => AntdChunks
    case Shadcn => ShadcnChunks
  }

  /** The texts a provider's branch interpolates, in order. */
  function Args(p: Provider, c: Config): (args: seq<string>)
    requires Supported(p)
    ensures |args| == |Chunks(p)| - 1
  {
    match p
    case Mui => MuiArgs(c, MuiSx(c))
    case Chakra => ChakraArgs(c, RootStyle(c), IndicatorStyle(c.styles))
    case Antd => AntdArgs(c)
    case Shadcn => ShadcnArgs(c, RootStyle(c), IndicatorStyle(c.styles))
  }

  /** `generateProgressCode(provider, config)` as a value. */
  function Code(p: Provider, c: Config): (code: string)
    ensures !Supported(p) ==> code == GeneratedNotAvailable
  {
    if Supported(p) then Fill(Chunks(p), Args(p, c)) else GeneratedNotAvailable
  }

  /** `generateProgressCode`: builds the branch's style lists push by push
      and fills in its template. */
  method Generate(p: Provider, c: Config) returns (code: string)
    ensures code == Code(p, c)
  {
    match p {
      case Mui =>
        var sxProps := PushMuiSx(c);
        code := Fill(MuiChunks, MuiArgs(c, sxProps));
      case Chakra =>
        var rootStyle, indicatorStyle := PushStyles(c);
        code := Fill(ChakraChunks, ChakraArgs(c, rootStyle, indicatorStyle));
      case Antd =>
        code := Fill(AntdChunks, AntdArgs(c));
      case Shadcn =>
        var rootStyle, indicatorStyle := PushStyles(c);
        code := Fill(ShadcnChunks, ShadcnArgs(c, rootStyle, indicatorStyle));
      case _ =>
        code := GeneratedNotAvailable;
    }
  }

  // ---------------------------------------------------------------------
  // Properties

  /** `${60}`, `${100}`, `${12}` */
  lemma DefaultTexts()
    ensures IntToString(60) == "60" && IntToString(100) == "100" && IntToString(12) == "12"
  {
    assert NatToString(60) == NatToString(6) + [DigitChar(0)];
    assert NatToString(10) == NatToString(1) + [DigitChar(0)];
    assert NatToString(100) == NatToString(10) + [DigitChar(0)];
    assert NatToString(12) == NatToString(1) + [DigitChar(2)];
  }

  /** An unset value is written 60 and an unset maximum 100 in every branch
      that writes them, and together they give antd 60 percent. */
  lemma Defaults(c: Config)
    ensures c.value == Undefined ==> Args(Mui, c)[1] == Args(Chakra, c)[0] == Args(Shadcn, c)[1] == "60"
    ensures c.max == Undefined ==> Args(Chakra, c)[1] == Args(Shadcn, c)[2] == "100"
    ensures c.value == Undefined && c.max == Undefined ==> Args(Antd, c)[1] == "60"
  {
    DefaultTexts();
    if c.value == Undefined && c.max == Undefined {
      UnsetMaxPercent(c.(value := Num(60)));
      assert Percent(c) == Percent(c.(value := Num(60)));
    }
  }

  /** With the maximum unset, antd's percentage is the value itself. */
  lemma UnsetMaxPercent(c: Config)
    requires c.max == Undefined && c.value.Num?
    ensures Percent(c) == IntToString(c.value.n)
    ensures Args(Antd, c)[1] == IntToString(c.value.n)
  {
    var v := c.value.n;
    var r := RoundDiv(100 * v, 100);
    assert 200 * r - 100 <= 200 * v < 200 * r + 100;
    assert r == v;
  }

  /** antd's stroke width is the style's height when truthy, and otherwise
      4, 12 or 8 by size. */
  lemma HeightShown(c: Config)
    ensures !Truthy(c.styles.height) ==>
      Args(Antd, c)[2] == if c.size == Str("small") then "4" else if c.size == Str("large") then "12" else "8"
    ensures Truthy(c.styles.height) ==> Args(Antd, c)[2] == Show(c.styles.height)
  {
    DefaultTexts();
  }

  /** A numeric radius n is "npx", a set string passes through, and an
      unset radius is 999px. */
  lemma RadiusDefault(st: ProgressStyles)
    ensures st.borderRadius.Num? ==> RadiusOf(st) == Str(IntToString(st.borderRadius.n) + "px")
    ensures st.borderRadius.Str? ==> RadiusOf(st) == st.borderRadius
    ensures st.borderRadius == Undefined ==> RadiusOf(st) == Str("999px")
    ensures RadiusOf(st) != Undefined
  {
  }

  /** mui's `sx` begins with the height and then the radius, and has a
      bgcolor entry exactly when a track colour is set; the bar's `sx` is
      written exactly when an indicator colour is set. */
  lemma MuiSxShape(c: Config, k: string)
    ensures MuiSx(c)[0].key == "height" && MuiSx(c)[1].key == "borderRadius"
    ensures Has(MuiSx(c), k) <==> k == "height" || k == "borderRadius" || (k == "bgcolor" && Truthy(c.styles.trackColor))
    ensures Args(Mui, c)[3] == "" <==> !Truthy(c.styles.indicatorColor)
  {
    var seed := [Entry("height", "height: " + Show(HeightOf(c))), SingleQuoted("borderRadius", Show(RadiusOf(c.styles)))];
    HasPair(seed[0], seed[1], k);
    assert seed == [seed[0], seed[1]];
    HasPushIf(seed, Truthy(c.styles.trackColor), SingleQuoted("bgcolor", Show(c.styles.trackColor)), k);
  }

  /** chakra's and shadcn's root style begins with the height in px and the
      radius and gains a background exactly for a track colour; the
      indicator style is empty unless an indicator colour is set. */
  lemma RootAndIndicator(c: Config)
    ensures RootStyle(c)[0] == DoubleQuoted("height", Show(HeightOf(c)) + "px")
    ensures RootStyle(c)[1] == DoubleQuoted("borderRadius", Show(RadiusOf(c.styles)))
    ensures |RootStyle(c)| == 3 <==> Truthy(c.styles.trackColor)
    ensures IndicatorStyle(c.styles) == [] <==> !Truthy(c.styles.indicatorColor)
  {
  }

  /** antd's `strokeColor` and `railColor` attributes are empty unless their
      colour is set, and then name it. */
  lemma AntdColorAttributes(c: Config)
    ensures Args(Antd, c)[3] == "" <==> !Truthy(c.styles.indicatorColor)
    ensures Args(Antd, c)[4] == "" <==> !Truthy(c.styles.trackColor)
    ensures Truthy(c.styles.indicatorColor) ==> Contains(Code(Antd, c), Show(c.styles.indicatorColor))
    ensures Truthy(c.styles.trackColor) ==> Contains(Code(Antd, c), Show(c.styles.trackColor))
  {
    var args := Args(Antd, c);
    if Truthy(c.styles.indicatorColor) {
      FillContains(AntdChunks, args, 3);
      ContainsTrans(Code(Antd, c), args[3], Show(c.styles.indicatorColor));
    }
    if Truthy(c.styles.trackColor) {
      FillContains(AntdChunks, args, 4);
      ContainsTrans(Code(Antd, c), args[4], Show(c.styles.trackColor));
    }
  }

  /** antd's percentage of a numeric value between 0 and a positive
      maximum lies between 0 and 100. */
  lemma AntdPercentInRange(c: Config)
    requires ValueOf(c).Num? && MaxOf(c).Num?
    requires 0 <= ValueOf(c).n <= MaxOf(c).n && MaxOf(c).n > 0
    ensures exists r :: 0 <= r <= 100 && Args(Antd, c)[1] == IntToString(r)
  {
    var r := RoundDiv(100 * ValueOf(c).n, MaxOf(c).n);
    PercentInRange(ValueOf(c).n, MaxOf(c).n);
    assert Args(Antd, c)[1] == IntToString(r);
  }

  /** The label element is written exactly when the label is truthy, and
      then holds the label. */
  lemma LabelIffTruthy(p: Provider, c: Config)
    requires Supported(p)
    ensures var i := if p == Chakra then 3 else 0;
      && (Args(p, c)[i] == "" <==> !Truthy(c.labelText))
      && (Truthy(c.labelText) ==> Contains(Code(p, c), Show(c.labelText)))
  {
    var i := if p == Chakra then 3 else 0;
    var args := Args(p, c);
    if Truthy(c.labelText) {
      FillContains(Chunks(p), args, i);
      ContainsTrans(Code(p, c), args[i], Show(c.labelText));
    }
  }
}
