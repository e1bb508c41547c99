/** Code generation for an accordion: `generateAccordionCode` in
    src/lib/codegen/accordion.ts. Padding and font sizes come from the size
    tier; each branch seeds its style lists with fixed or defaulted entries
    and extends them by conditional pushes. There is no aceternity branch. */
module Accordion {
  import opened Js
  import opened Text
  import opened Providers

  /** `config.styles`; an absent `styles` is the record whose fields are all unset. */
  datatype AccordionStyles = AccordionStyles(
    borderRadius: Value, backgroundColor: Value, titleColor: Value, answerColor: Value, borderColor: Value)

  datatype Config = Config(styles: AccordionStyles, size: Value, title: Value, content: Value)

  /** The radius as extracted: a number gains "px", anything else passes
      through. */
  function Radius(st: AccordionStyles): Value {
    PxOrPass(st.borderRadius)
  }

  // ---------------------------------------------------------------------
  // Size tiers

  /** The padding of a size: 8px, 24px, 16px. */
  function PaddingOf(size: Value): string {
    BySize(TierOf(size), "8px", "24px", "16px")
  }

  /** The title font size of a size: 0.875rem, 1.125rem, 1rem. */
  function TitleSizeOf(size: Value): string {
    BySize(TierOf(size), "0.875rem", "1.125rem", "1rem")
  }

  /** The content font size of a size: 0.75rem, 1rem, 0.875rem. */
  function ContentSizeOf(size: Value): string {
    BySize(TierOf(size), "0.75rem", "1rem", "0.875rem")
  }

  /** A font size of the tables in sixteenths of a rem (0 for any other
      text). */
  function RemSixteenths(rem: string): nat {
    if rem == "0.75rem" then 12
    else if rem == "0.875rem" then 14
    else if rem == "1rem" then 16
    else if rem == "1.125rem" then 18
    else 0
  }

  /** The three size tables, and the content font always 0.125rem smaller
      than the title font: 'small' is the small tier, 'large' the large one, and
      every other size (unset included) the middle one. */
  lemma SizeTable(size: Value)
    ensures [PaddingOf(size), TitleSizeOf(size), ContentSizeOf(size)] ==
      if size == Str("small") then ["8px", "0.875rem", "0.75rem"]
      else if size == Str("large") then ["24px", "1.125rem", "1rem"]
      else ["16px", "1rem", "0.875rem"]
    ensures RemSixteenths(ContentSizeOf(size)) == RemSixteenths(TitleSizeOf(size)) - 2
    ensures RemSixteenths(ContentSizeOf(size)) > 0
  {
  }

  // ---------------------------------------------------------------------
  // Style lists

  /** The radius and border every branch but mui's starts with: the radius
      defaults to 8px and the border colour to rgba(0,0,0,0.1). */
  function Frame(st: AccordionStyles): seq<Entry> {
    [ DoubleQuoted("borderRadius", Show(Or(Radius(st), Str("8px")))),
      DoubleQuoted("border", "1px solid " + Show(Or(st.borderColor, Str("rgba(0,0,0,0.1)")))) ]
  }

  /** mui's `sx`: background unless it is 'transparent', border colour, and
      the radius when truthy. */
  function MuiSx(st: AccordionStyles): seq<Entry> {
    var es1 := PushIf([], Truthy(st.backgroundColor) && st.backgroundColor != Str("transparent"),
      SingleQuoted("bgcolor", Show(st.backgroundColor)));
    var es2 := PushIf(es1, Truthy(st.borderColor), SingleQuoted("borderColor", Show(st.borderColor)));
    PushIf(es2, Truthy(Radius(st)), SingleQuoted("borderRadius", Show(Radius(st))))
  }

  /** mui's content `sx`: the content font size, then the answer colour. */
  function MuiContentSx(c: Config): seq<Entry> {
    PushIf([SingleQuoted("fontSize", ContentSizeOf(c.size))], Truthy(c.styles.answerColor),
      SingleQuoted("color", Show(c.styles.answerColor)))
  }

  /** chakra's container: the frame, `overflow: "hidden"`, and the background. */
  function ContainerStyle(st: AccordionStyles): seq<Entry> {
    PushIf(Frame(st) + [DoubleQuoted("overflow", "hidden")], Truthy(st.backgroundColor),
      DoubleQuoted("backgroundColor", Show(st.backgroundColor)))
  }

  /** The trigger style of chakra and shadcn: padding, title font size, and
      the title colour. */
  function TriggerStyle(c: Config): seq<Entry> {
    PushIf([DoubleQuoted("padding", PaddingOf(c.size)), DoubleQuoted("fontSize", TitleSizeOf(c.size))],
      Truthy(c.styles.titleColor), DoubleQuoted("color", Show(c.styles.titleColor)))
  }

  /** The content style of chakra and shadcn: the padding on three sides,
      none on top, the content font size, and the answer colour. */
  function ContentStyle(c: Config): seq<Entry> {
    var p := PaddingOf(c.size);
    PushIf(
      [ DoubleQuoted("paddingLeft", p), DoubleQuoted("paddingRight", p), DoubleQuoted("paddingBottom", p),
        Entry("paddingTop", "paddingTop: 0"), DoubleQuoted("fontSize", ContentSizeOf(c.size)) ],
      Truthy(c.styles.answerColor), DoubleQuoted("color", Show(c.styles.answerColor)))
  }

  /** antd's collapse style: the frame, then the background or else
      "transparent". */
  function CollapseStyle(st: AccordionStyles): seq<Entry> {
    Frame(st) + [DoubleQuoted("background", if Truthy(st.backgroundColor) then Show(st.backgroundColor) else "transparent")]
  }

  /** shadcn's root style: the frame and the background. */
  function ShadcnStyle(st: AccordionStyles): seq<Entry> {
    PushIf(Frame(st), Truthy(st.backgroundColor), DoubleQuoted("backgroundColor", Show(st.backgroundColor)))
  }

  /** The frame entries as the source pushes them. */
  method NewFrame(st: AccordionStyles) returns (es: seq<Entry>)
    ensures es == Frame(st)
  {
    var borderRadius := Radius(st);
    var r := if Truthy(borderRadius) then Show(borderRadius) else "8px";
    var bc := if Truthy(st.borderColor) then Show(st.borderColor) else "rgba(0,0,0,0.1)";
    es := [DoubleQuoted("borderRadius", r), DoubleQuoted("border", "1px solid " + bc)];
  }

  method PushMuiLists(c: Config) returns (sxProps: seq<Entry>, contentSx: seq<Entry>)
    ensures sxProps == MuiSx(c.styles) && contentSx == MuiContentSx(c)
  {
    var st := c.styles;
    var borderRadius := Radius(st);
    sxProps := [];
    if Truthy(st.backgroundColor) && st.backgroundColor != Str("transparent") {
      sxProps := sxProps + [SingleQuoted("bgcolor", Show(st.backgroundColor))];
    }
    if Truthy(st.borderColor) { sxProps := sxProps + [SingleQuoted("borderColor", Show(st.borderColor))]; }
    if Truthy(borderRadius) { sxProps := sxProps + [SingleQuoted("borderRadius", Show(borderRadius))]; }
    contentSx := [SingleQuoted("fontSize", ContentSizeOf(c.size))];
    if Truthy(st.answerColor) { contentSx := contentSx + [SingleQuoted("color", Show(st.answerColor))]; }
  }

  /** The trigger and content lists of chakra and shadcn. */
  method PushTriggerAndContent(c: Config) returns (triggerStyle: seq<Entry>, contentStyle: seq<Entry>)
    ensures triggerStyle == TriggerStyle(c) && contentStyle == ContentStyle(c)
  {
    var padding := PaddingOf(c.size);
    triggerStyle := [DoubleQuoted("padding", padding), DoubleQuoted("fontSize", TitleSizeOf(c.size))];
    if Truthy(c.styles.titleColor) { triggerStyle := triggerStyle + [DoubleQuoted("color", Show(c.styles.titleColor))]; }
    contentStyle := [ DoubleQuoted("paddingLeft", padding), DoubleQuoted("paddingRight", padding),
      DoubleQuoted("paddingBottom", padding), Entry("paddingTop", "paddingTop: 0"),
      DoubleQuoted("fontSize", ContentSizeOf(c.size)) ];
    if Truthy(c.styles.answerColor) { contentStyle := contentStyle + [DoubleQuoted("color", Show(c.styles.answerColor))]; }
  }

  method PushContainerStyle(st: AccordionStyles) returns (containerStyle: seq<Entry>)
    ensures containerStyle == ContainerStyle(st)
  {
    containerStyle := NewFrame(st);
    containerStyle := containerStyle + [DoubleQuoted("overflow", "hidden")];
    if Truthy(st.backgroundColor) { containerStyle := containerStyle + [DoubleQuoted("backgroundColor", Show(st.backgroundColor))]; }
  }

  method PushCollapseStyle(st: AccordionStyles) returns (collapseStyle: seq<Entry>)
    ensures collapseStyle == CollapseStyle(st)
  {
    collapseStyle := NewFrame(st);
    if Truthy(st.backgroundColor) {
      collapseStyle := collapseStyle + [DoubleQuoted("background", Show(st.backgroundColor))];
    } else {
      collapseStyle := collapseStyle + [DoubleQuoted("background", "transparent")];
    }
  }

  method PushShadcnStyle(st: AccordionStyles) returns (shadcnStyle: seq<Entry>)
    ensures shadcnStyle == ShadcnStyle(st)
  {
    shadcnStyle := NewFrame(st);
    if Truthy(st.backgroundColor) { shadcnStyle := shadcnStyle + [DoubleQuoted("backgroundColor", Show(st.backgroundColor))]; }
  }

  // ---------------------------------------------------------------------
  // Fragments

  const TitleSxColorChunks: seq<string> := [@"sx={{ color: '", @"', fontSize: '", @"', fontWeight: 600 }}"]
  const TitleSxPlainChunks: seq<string> := [@"sx={{ fontSize: '", @"', fontWeight: 600 }}"]
  const ExpandIconChunks: seq<string> := [@"sx={{ color: '", @"' }}"]

  /** mui's title `sx`: the title colour when set, the title font size and
      weight always. */
  function TitleSx(c: Config): string {
    if Truthy(c.styles.titleColor) then Fill(TitleSxColorChunks, [Show(c.styles.titleColor), TitleSizeOf(c.size)])
    else Fill(TitleSxPlainChunks, [TitleSizeOf(c.size)])
  }

  /** mui's summary padding: 0.5 for small, 1 otherwise. */
  function SummaryPy(size: Value): string {
    if size == Str("small") then "0.5" else "1"
  }

  const AntdSpanChunks: seq<string> := [@"<span style={{ fontSize: '", @"', fontWeight: 600, color: '", @"' }}>", @"</span>"]
  const AntdContentChunks: seq<string> := [@"<div style={{ fontSize: '", @"', color: '", @"' }}>", @"</div>"]

  /** antd's label: a styled span for a truthy title colour, else the bare
      title. */
  function LabelNode(c: Config): string {
    if Truthy(c.styles.titleColor) then Fill(AntdSpanChunks, [TitleSizeOf(c.size), Show(c.styles.titleColor), Show(c.title)])
    else Show(c.title)
  }

  /** antd's content: the content font size, the answer colour or 'inherit',
      and the content. */
  function ContentNodeArgs(c: Config): seq<string> {
    [ContentSizeOf(c.size), Show(Or(c.styles.answerColor, Str("inherit"))), Show(c.content)]
  }

  /** `backgroundColor === 'transparent' || !backgroundColor` */
  function Ghost(st: AccordionStyles): bool {
    st.backgroundColor == Str("transparent") || !Truthy(st.backgroundColor)
  }

  const TriggerClass := "hover:no-underline hover:bg-muted/50 transition-all data-[state=open]:bg-muted/50"

  // ---------------------------------------------------------------------
  // Templates

  const MuiChunks: seq<string> := [@"import { Accordion, AccordionSummary, AccordionDetails, Typography } from '@mui/material';
import ExpandMoreIcon from '@mui/icons-material/ExpandMore';

export function CustomAccordion() {
  return (
    <Accordion 
      elevation={0}
      sx={{ 
        border: '1px solid',
        overflow: 'hidden',
        ", @"
      }}
    >
      <AccordionSummary 
        expandIcon={<ExpandMoreIcon ", @" />}
        sx={{ minHeight: 'auto', py: ", @" }}
      >
        <Typography ", @">
          ", @"
        </Typography>
      </AccordionSummary>
      <AccordionDetails sx={{ paddingLeft: '", @"', paddingRight: '", @"', paddingBottom: '", @"', paddingTop: 0 }}>
        <Typography variant=""body2"" sx={{ ", @" }}>
          ", @"
        </Typography>
      </AccordionDetails>
    </Accordion>
  );
}"]
  const ChakraChunks: seq<string> := [@"import {
  Accordion as Container,
  AccordionItem,
  AccordionItemTrigger, // Or AccordionButton + AccordionIcon in v2
  AccordionItemContent, // Or AccordionPanel in v2
} from '@chakra-ui/react';

export function CustomAccordion() {
  return (
    <Container collapsible width=""100%"" style={{ ", @" }}>
      <AccordionItem value=""item-1"" className=""border-none"">
        <AccordionItemTrigger style={{ ", @" }}>
          ", @"
        </AccordionItemTrigger>
        <AccordionItemContent style={{ ", @" }}>
          ", @"
        </AccordionItemContent>
      </AccordionItem>
    </Container>
  );
}"]
  const AntdChunks: seq<string> := [@"import { Collapse } from 'antd';

export function CustomAccordion() {
  const items = [{
    key: '1',
    label: ", @",
    children: ", @",
  }];

  return (
    <Collapse 
      items={items} 
      ghost={", @"}
      style={{ 
        width: '100%',
        ", @"
      }} 
    />
  );
}"]
  const ShadcnChunks: seq<string> := [@"import {
  Accordion,
  AccordionContent,
  AccordionItem,
  AccordionTrigger,
} from ""@/components/ui/accordion"";

export function CustomAccordion() {
  return (
    <Accordion type=""single"" collapsible className=""w-full"" style={{ ", @" }}>
      <AccordionItem value=""item-1"" className=""border-none"">
        <AccordionTrigger 
          className=""", @"""
          style={{ ", @" }}
        >
          ", @"
        </AccordionTrigger>
        <AccordionContent style={{ ", @" }}>
          ", @"
        </AccordionContent>
      </AccordionItem>
    </Accordion>
  );
}"]

  function MuiArgs(c: Config, sxProps: seq<Entry>, contentSx: seq<Entry>): (args: seq<string>)
    ensures |args| == |MuiChunks| - 1
  {
    var p := PaddingOf(c.size);
    [ JoinEntries(sxProps, ",\n        "), Gated(ExpandIconChunks, c.styles.titleColor), SummaryPy(c.size),
      TitleSx(c), Show(c.title), p, p, p, JoinEntries(contentSx, ", "), Show(c.content) ]
  }

  function ChakraArgs(c: Config, containerStyle: seq<Entry>, triggerStyle: seq<Entry>, contentStyle: seq<Entry>): (args: seq<string>)
    ensures |args| == |ChakraChunks| - 1
  {
    [ JoinEntries(containerStyle, ", "), JoinEntries(triggerStyle, ", "), Show(c.title),
      JoinEntries(contentStyle, ", "), Show(c.content) ]
  }

  function AntdArgs(c: Config, collapseStyle: seq<Entry>): (args: seq<string>)
    ensures |args| == |AntdChunks| - 1
  {
    [ LabelNode(c), Fill(AntdContentChunks, ContentNodeArgs(c)),
      if Ghost(c.styles) then "true" else "false", JoinEntries(collapseStyle, ",\n        ") ]
  }

  function ShadcnArgs(c: Config, shadcnStyle: seq<Entry>, triggerStyle: seq<Entry>, contentStyle: seq<Entry>): (args: seq<string>)
    ensures |args| == |ShadcnChunks| - 1
  {
    [ JoinEntries(shadcnStyle, ", "), TriggerClass, JoinEntries(triggerStyle, ", "), Show(c.title),
      JoinEntries(contentStyle, ", "), Show(c.content) ]
  }

  /** The providers with a branch: not aceternity. */
  predicate Supported(p: Provider) {
    p == Mui || p == Chakra || p == Antd || p == Shadcn
  }

  /** The template of a provider's branch. */
  function Chunks(p: Provider): seq<string>
    requires Supported(p)
  {
    match p
    case Mui => MuiChunks
    case Chakra => ChakraChunks
    case Antd => AntdChunks
    case Shadcn => ShadcnChunks
  }

  /** The texts a provider's branch interpolates, in order. */
  function Args(p: Provider, c: Config): (args: seq<string>)
    requires Supported(p)
    ensures |args| == |Chunks(p)| - 1
  {
    var st := c.styles;
    match p
    case Mui => MuiArgs(c, MuiSx(st), MuiContentSx(c))
    case Chakra => ChakraArgs(c, ContainerStyle(st), TriggerStyle(c), ContentStyle(c))
    case Antd => AntdArgs(c, CollapseStyle(st))
    case Shadcn => ShadcnArgs(c, ShadcnStyle(st), TriggerStyle(c), ContentStyle(c))
  }

  /** `generateAccordionCode(provider, config)` as a value. */
  function Code(p: Provider, c: Config): (code: string)
    ensures !Supported(p) ==> code == GeneratedNotAvailable
  {
    if Supported(p) then Fill(Chunks(p), Args(p, c)) else GeneratedNotAvailable
  }

  /** `generateAccordionCode`: builds the branch's style lists push by push
      and fills in its template. */
  method Generate(p: Provider, c: Config) returns (code: string)
    ensures code == Code(p, c)
  {
    match p {
      case Mui =>
        var sxProps, contentSx := PushMuiLists(c);
        code := Fill(MuiChunks, MuiArgs(c, sxProps, contentSx));
      case Chakra =>
        var containerStyle := PushContainerStyle(c.styles);
        var triggerStyle, contentStyle := PushTriggerAndContent(c);
        code := Fill(ChakraChunks, ChakraArgs(c, containerStyle, triggerStyle, contentStyle));
      case Antd =>
        var collapseStyle := PushCollapseStyle(c.styles);
        code := Fill(AntdChunks, AntdArgs(c, collapseStyle));
      case Shadcn =>
        var shadcnStyle := PushShadcnStyle(c.styles);
        var triggerStyle, contentStyle := PushTriggerAndContent(c);
        code := Fill(ShadcnChunks, ShadcnArgs(c, shadcnStyle, triggerStyle, contentStyle));
      case _ =>
        code := GeneratedNotAvailable;
    }
  }

  // ---------------------------------------------------------------------
  // Properties

  /** mui's `sx` sets bgcolor for a truthy background other than
      'transparent', borderColor for a truthy border colour, and borderRadius
      for a truthy radius after normalisation, which every numeric radius
      is, 0 included (written "0px"). */
  lemma MuiSxKeys(st: AccordionStyles, k: string)
    ensures Has(MuiSx(st), k) <==>
      || (k == "bgcolor" && Truthy(st.backgroundColor) && st.backgroundColor != Str("transparent"))
      || (k == "borderColor" && Truthy(st.borderColor))
      || (k == "borderRadius" && Truthy(Radius(st)))
    ensures st.borderRadius.Num? ==> Truthy(Radius(st))
    ensures st.borderRadius == Num(0) ==> SingleQuoted("borderRadius", "0px") in MuiSx(st)
  {
    var e1 := SingleQuoted("bgcolor", Show(st.backgroundColor));
    var e2 := SingleQuoted("borderColor", Show(st.borderColor));
    var e3 := SingleQuoted("borderRadius", Show(Radius(st)));
    var c1 := Truthy(st.backgroundColor) && st.backgroundColor != Str("transparent");
    var es1 := PushIf([], c1, e1);
    var es2 := PushIf(es1, Truthy(st.borderColor), e2);
    HasPushIf([], c1, e1, k);
    HasPushIf(es1, Truthy(st.borderColor), e2, k);
    HasPushIf(es2, Truthy(Radius(st)), e3, k);
    if st.borderRadius == Num(0) {
      assert IntToString(0) == "0";
      assert Radius(st) == Str("0px");
      assert e3 == SingleQuoted("borderRadius", "0px");
      assert MuiSx(st) == es2 + [e3];
      assert MuiSx(st)[|es2|] == e3;
    }
  }

  /** chakra, antd and shadcn start their root style with the frame. */
  lemma FrameFirst(st: AccordionStyles)
    ensures ContainerStyle(st)[..2] == Frame(st) && CollapseStyle(st)[..2] == Frame(st) && ShadcnStyle(st)[..2] == Frame(st)
  {
    var f := Frame(st);
    var b := Truthy(st.backgroundColor);
    var bg := DoubleQuoted("backgroundColor", Show(st.backgroundColor));
    assert (f + [DoubleQuoted("overflow", "hidden")])[..2] == f;
    assert PushIf(f + [DoubleQuoted("overflow", "hidden")], b, bg)[..2] == f;
    assert PushIf(f, b, bg)[..2] == f;
  }

  /** The frame's radius defaults to 8px and its border colour to
      rgba(0,0,0,0.1); set values are written as given. */
  lemma FrameDefaults(st: AccordionStyles)
    ensures Frame(st)[0] == DoubleQuoted("borderRadius", if Truthy(Radius(st)) then Show(Radius(st)) else "8px")
    ensures Frame(st)[1] == DoubleQuoted("border", "1px solid " + if Truthy(st.borderColor) then Show(st.borderColor) else "rgba(0,0,0,0.1)")
  {
  }

  /** antd's collapse is a ghost exactly when the background is unset (or
      falsy) or 'transparent'; its background entry falls back to
      "transparent". */
  lemma AntdGhost(c: Config)
    ensures Args(Antd, c)[2] == "true" <==> !Truthy(c.styles.backgroundColor) || c.styles.backgroundColor == Str("transparent")
    ensures Args(Antd, c)[2] == "false" <==> Truthy(c.styles.backgroundColor) && c.styles.backgroundColor != Str("transparent")
    ensures var es := CollapseStyle(c.styles);
      |es| == 3 && es[2] == DoubleQuoted("background", if Truthy(c.styles.backgroundColor) then Show(c.styles.backgroundColor) else "transparent")
  {
  }

  /** antd's label is a styled span holding the title colour and the title
      when a title colour is set, and the bare title otherwise; the content
      colour falls back to 'inherit'; title and content both reach the code. */
  lemma AntdLabelAndContent(c: Config)
    ensures !Truthy(c.styles.titleColor) ==> Args(Antd, c)[0] == Show(c.title)
    ensures Truthy(c.styles.titleColor) ==>
      Contains(Args(Antd, c)[0], Show(c.styles.titleColor)) && Contains(Args(Antd, c)[0], Show(c.title))
    ensures ContentNodeArgs(c)[1] == if Truthy(c.styles.answerColor) then Show(c.styles.answerColor) else "inherit"
    ensures Contains(Code(Antd, c), Show(c.title)) && Contains(Code(Antd, c), Show(c.content))
  {
    var args := Args(Antd, c);
    FillContains(AntdContentChunks, ContentNodeArgs(c), 2);
    FillContains(AntdChunks, args, 1);
    ContainsTrans(Code(Antd, c), args[1], Show(c.content));
    if Truthy(c.styles.titleColor) {
      var inner := [TitleSizeOf(c.size), Show(c.styles.titleColor), Show(c.title)];
      FillContains(AntdSpanChunks, inner, 1);
      FillContains(AntdSpanChunks, inner, 2);
      FillContains(AntdChunks, args, 0);
      ContainsTrans(Code(Antd, c), args[0], Show(c.title));
    } else {
      FillContains(AntdChunks, args, 0);
    }
  }

  /** mui's summary `py` is 0.5 for small and 1 for every other size, and
      its details padding is the size's padding on three sides. */
  lemma MuiSizing(c: Config)
    ensures Args(Mui, c)[2] == if c.size == Str("small") then "0.5" else "1"
    ensures Args(Mui, c)[5] == Args(Mui, c)[6] == Args(Mui, c)[7] == PaddingOf(c.size)
  {
  }

  /** The trigger and content styles of chakra and shadcn carry the size's
      padding and font sizes, and a colour entry exactly for a truthy
      colour. */
  lemma TriggerAndContentSizes(c: Config)
    ensures TriggerStyle(c)[..2] == [DoubleQuoted("padding", PaddingOf(c.size)), DoubleQuoted("fontSize", TitleSizeOf(c.size))]
    ensures |TriggerStyle(c)| == 3 <==> Truthy(c.styles.titleColor)
    ensures ContentStyle(c)[4] == DoubleQuoted("fontSize", ContentSizeOf(c.size))
    ensures |ContentStyle(c)| == 6 <==> Truthy(c.styles.answerColor)
  {
  }

  /** Every supported provider writes the title and the content verbatim
      (antd inside its label and content nodes). */
  lemma TextsInCode(p: Provider, c: Config)
    requires Supported(p) && p != Antd
    ensures Contains(Code(p, c), Show(c.title)) && Contains(Code(p, c), Show(c.content))
  {
    var args := Args(p, c);
    var t := match p case Mui => 4 case Chakra => 2 case _ => 3;
    var n := |Chunks(p)| - 1;
    assert args[t] == Show(c.title) && args[n - 1] == Show(c.content);
    FillContains(Chunks(p), args, t);
    FillContains(Chunks(p), args, n - 1);
  }
}
