/** Code generation for a card: `generateCardCode` in src/lib/codegen/card.ts.
    Every branch but shadcn's seeds a style list with a fixed entry (none for
    shadcn and aceternity) and extends it by conditional pushes; the image,
    padding and colour fragments are ternaries inside the template. */
module Card {
  import opened Js
  import opened Text
  import opened Providers

  /** `config.styles`; an absent `styles` is the record whose fields are all unset. */
  datatype CardStyles = CardStyles(
    backgroundColor: Value, borderColor: Value, borderWidth: Value, borderRadius: Value,
    titleColor: Value, fontColor: Value, padding: Padding, shadow: Value)

  datatype Config = Config(title: Value, description: Value, image: Value, styles: CardStyles)

  /** The picture every branch but aceternity's shows, and aceternity's
      background when no background colour is set. */
  const ImageUrl := "https://images.unsplash.com/photo-1555041469-a586c61ea9bc?ixlib=rb-4.0.3&auto=format&fit=crop&w=800&q=80"

  // ---------------------------------------------------------------------
  // Extracted values

  /** `styles?.borderWidth ?? 1`: only an unset or null width defaults to 1;
      0 and the empty string are kept. */
  function BorderWidth(st: CardStyles): (w: Value)
    ensures st.borderWidth == Undefined || st.borderWidth == Null ==> w == Num(1)
    ensures st.borderWidth != Undefined && st.borderWidth != Null ==> w == st.borderWidth
  {
    Coalesce(st.borderWidth, Num(1))
  }

  /** `${v}px` */
  function Px(v: Value): string {
    Show(v) + "px"
  }

  /** The border shorthand `${borderWidth}px solid ${borderColor}`. */
  function BorderShorthand(st: CardStyles): string {
    Px(BorderWidth(st)) + " solid " + Show(st.borderColor)
  }

  /** An unset width is written as 1px; a width of 0 as 0px. */
  lemma BorderShorthandDefault(st: CardStyles)
    ensures st.borderWidth == Undefined || st.borderWidth == Null ==>
      BorderShorthand(st) == "1px solid " + Show(st.borderColor)
    ensures st.borderWidth == Num(0) ==> BorderShorthand(st) == "0px solid " + Show(st.borderColor)
  {
    assert IntToString(1) == "1";
    assert IntToString(0) == "0";
  }

  /** mui's shadow: 'none' stays 'none', every other shadow becomes one fixed
      shadow. */
  function MuiShadow(shadow: Value): (r: string)
    ensures r == "none" <==> shadow == Str("none")
  {
    if shadow == Str("none") then "none" else "0 4px 6px rgba(0,0,0,0.1)"
  }

  /** `image !== false`: only the boolean false hides the picture. */
  predicate ShowsImage(c: Config) {
    c.image != Bool(false)
  }

  /** `${py}px ${px}px` */
  function PaddingText(pad: Padding): string
    requires pad.Pad?
  {
    Px(pad.py) + " " + Px(pad.px)
  }

  // ---------------------------------------------------------------------
  // Style lists

  /** The entries of a list pushed under one condition: all of them or none. */
  function When(c: bool, es: seq<Entry>): seq<Entry> {
    if c then es else []
  }

  /** The entries pushed for a truthy border colour, shared by shadcn and
      antd: the colour, antd's `borderStyle: 'solid'`, and the width. */
  function BorderEntries(st: CardStyles, withStyle: bool): seq<Entry> {
    [SingleQuoted("borderColor", Show(st.borderColor))]
      + (if withStyle then [SingleQuoted("borderStyle", "solid")] else [])
      + [SingleQuoted("borderWidth", Px(BorderWidth(st)))]
  }

  /** mui's `sx` list: maxWidth first, then background, border shorthand,
      radius and shadow. */
  function MuiSx(st: CardStyles): seq<Entry> {
    var es0 := [Entry("maxWidth", "maxWidth: 345")];
    var es1 := PushIf(es0, Truthy(st.backgroundColor), SingleQuoted("bgcolor", Show(st.backgroundColor)));
    var es2 := PushIf(es1, Truthy(st.borderColor), SingleQuoted("border", BorderShorthand(st)));
    var es3 := PushIf(es2, st.borderRadius != Undefined, SingleQuoted("borderRadius", Px(st.borderRadius)));
    PushIf(es3, Truthy(st.shadow), SingleQuoted("boxShadow", MuiShadow(st.shadow)))
  }

  /** chakra's props: maxW first, then background, border colour and width,
      radius and shadow. */
  function ChakraProps(st: CardStyles): seq<Entry> {
    var es0 := [Attr("maxW", "sm")];
    var es1 := PushIf(es0, Truthy(st.backgroundColor), Attr("bg", Show(st.backgroundColor)));
    var es2 := PushIf(es1, Truthy(st.borderColor), Attr("borderColor", Show(st.borderColor)));
    var es3 := PushIf(es2, Truthy(st.borderColor), Attr("borderWidth", Px(BorderWidth(st))));
    var es4 := PushIf(es3, st.borderRadius != Undefined, Attr("borderRadius", Px(st.borderRadius)));
    PushIf(es4, Truthy(st.shadow), Attr("boxShadow", Show(st.shadow)))
  }

  /** antd's card style: width first, then background, the three border
      entries and radius. */
  function AntdStyle(st: CardStyles): seq<Entry> {
    var es0 := [Entry("width", "width: 300")];
    var es1 := PushIf(es0, Truthy(st.backgroundColor), SingleQuoted("backgroundColor", Show(st.backgroundColor)));
    var es2 := PushIf(es1, Truthy(st.borderColor), SingleQuoted("borderColor", Show(st.borderColor)));
    var es3 := PushIf(es2, Truthy(st.borderColor), SingleQuoted("borderStyle", "solid"));
    var es4 := PushIf(es3, Truthy(st.borderColor), SingleQuoted("borderWidth", Px(BorderWidth(st))));
    PushIf(es4, st.borderRadius != Undefined, SingleQuoted("borderRadius", Px(st.borderRadius)))
  }

  /** antd's body style: the padding, when there is one. */
  function AntdBody(st: CardStyles): seq<Entry> {
    PushIf([], st.padding.Pad?, SingleQuoted("padding", if st.padding.Pad? then PaddingText(st.padding) else ""))
  }

  /** shadcn's style list: background, border colour and width, radius. */
  function ShadcnStyle(st: CardStyles): seq<Entry> {
    var es1 := PushIf([], Truthy(st.backgroundColor), SingleQuoted("backgroundColor", Show(st.backgroundColor)));
    var es2 := PushIf(es1, Truthy(st.borderColor), SingleQuoted("borderColor", Show(st.borderColor)));
    var es3 := PushIf(es2, Truthy(st.borderColor), SingleQuoted("borderWidth", Px(BorderWidth(st))));
    PushIf(es3, st.borderRadius != Undefined, SingleQuoted("borderRadius", Px(st.borderRadius)))
  }

  /** The two entries aceternity shows the picture with when no background
      colour is set. */
  const BackgroundImage := [SingleQuoted("backgroundImage", "url(" + ImageUrl + ")"), SingleQuoted("backgroundSize", "cover")]

  /** aceternity's container style: the background colour or else the
      picture, then the border shorthand and the radius. */
  function AceternityStyle(st: CardStyles): seq<Entry> {
    var es1 := if Truthy(st.backgroundColor) then [SingleQuoted("backgroundColor", Show(st.backgroundColor))] else BackgroundImage;
    var es2 := PushIf(es1, Truthy(st.borderColor), SingleQuoted("border", BorderShorthand(st)));
    PushIf(es2, st.borderRadius != Undefined, SingleQuoted("borderRadius", Px(st.borderRadius)))
  }

  method PushMuiSx(st: CardStyles) returns (sxProps: seq<Entry>)
    ensures sxProps == MuiSx(st)
  {
    sxProps := [Entry("maxWidth", "maxWidth: 345")];
    if Truthy(st.backgroundColor) { sxProps := sxProps + [SingleQuoted("bgcolor", Show(st.backgroundColor))]; }
    if Truthy(st.borderColor) { sxProps := sxProps + [SingleQuoted("border", BorderShorthand(st))]; }
    if st.borderRadius != Undefined { sxProps := sxProps + [SingleQuoted("borderRadius", Px(st.borderRadius))]; }
    if Truthy(st.shadow) { sxProps := sxProps + [SingleQuoted("boxShadow", MuiShadow(st.shadow))]; }
  }

  method PushChakraProps(st: CardStyles) returns (props: seq<Entry>)
    ensures props == ChakraProps(st)
  {
    props := [Attr("maxW", "sm")];
    if Truthy(st.backgroundColor) { props := props + [Attr("bg", Show(st.backgroundColor))]; }
    if Truthy(st.borderColor) {
      props := props + [Attr("borderColor", Show(st.borderColor))];
      props := props + [Attr("borderWidth", Px(BorderWidth(st)))];
    }
    if st.borderRadius != Undefined { props := props + [Attr("borderRadius", Px(st.borderRadius))]; }
    if Truthy(st.shadow) { props := props + [Attr("boxShadow", Show(st.shadow))]; }
  }

  method PushAntdStyle(st: CardStyles) returns (styleProps: seq<Entry>, bodyStyles: seq<Entry>)
    ensures styleProps == AntdStyle(st) && bodyStyles == AntdBody(st)
  {
    styleProps := [Entry("width", "width: 300")];
    if Truthy(st.backgroundColor) { styleProps := styleProps + [SingleQuoted("backgroundColor", Show(st.backgroundColor))]; }
    if Truthy(st.borderColor) {
      styleProps := styleProps + [SingleQuoted("borderColor", Show(st.borderColor))];
      styleProps := styleProps + [SingleQuoted("borderStyle", "solid")];
      styleProps := styleProps + [SingleQuoted("borderWidth", Px(BorderWidth(st)))];
    }
    if st.borderRadius != Undefined { styleProps := styleProps + [SingleQuoted("borderRadius", Px(st.borderRadius))]; }
    bodyStyles := [];
    if st.padding.Pad? { bodyStyles := bodyStyles + [SingleQuoted("padding", PaddingText(st.padding))]; }
  }

  method PushShadcnStyle(st: CardStyles) returns (styleProps: seq<Entry>)
    ensures styleProps == ShadcnStyle(st)
  {
    styleProps := [];
    if Truthy(st.backgroundColor) { styleProps := styleProps + [SingleQuoted("backgroundColor", Show(st.backgroundColor))]; }
    if Truthy(st.borderColor) {
      styleProps := styleProps + [SingleQuoted("borderColor", Show(st.borderColor))];
      styleProps := styleProps + [SingleQuoted("borderWidth", Px(BorderWidth(st)))];
    }
    if st.borderRadius != Undefined { styleProps := styleProps + [SingleQuoted("borderRadius", Px(st.borderRadius))]; }
  }

  method PushAceternityStyle(st: CardStyles) returns (containerStyles: seq<Entry>)
    ensures containerStyles == AceternityStyle(st)
  {
    containerStyles := [];
    if Truthy(st.backgroundColor) {
      containerStyles := containerStyles + [SingleQuoted("backgroundColor", Show(st.backgroundColor))];
    } else {
      containerStyles := containerStyles + [SingleQuoted("backgroundImage", "url(" + ImageUrl + ")")];
      containerStyles := containerStyles + [SingleQuoted("backgroundSize", "cover")];
    }
    if Truthy(st.borderColor) { containerStyles := containerStyles + [SingleQuoted("border", BorderShorthand(st))]; }
    if st.borderRadius != Undefined { containerStyles := containerStyles + [SingleQuoted("borderRadius", Px(st.borderRadius))]; }
  }

  // ---------------------------------------------------------------------
  // Fragments

  const MuiMediaChunks: seq<string> := [@"<CardMedia
        sx={{ height: 140 }}
        image=""", @"""
        title=""", @"""
      />"]
  const MuiPaddingChunks: seq<string> := [@" sx={{ padding: '", @"px ", @"px' }}"]
  const MuiTitleColorChunks: seq<string> := [@" sx={{ color: '", @"' }}"]
  const MuiFontColorChunks: seq<string> := [@" sx={{ color: '", @"' }}"]
  const ChakraImageChunks: seq<string> := [@"<CardBody p={0}>
        <Image
          src=""", @"""
          alt=""", @"""
          borderTopRadius=""", @"""
          objectFit=""cover""
          h=""140px""
          w=""100%""
        />
      </CardBody>"]
  const ChakraPaddingChunks: seq<string> := [@" p=""", @"px ", @"px"""]
  const ChakraTitleColorChunks: seq<string> := [@" color=""", @""""]
  const ChakraFontColorChunks: seq<string> := [@" color=""", @""""]
  const AntdCoverChunks: seq<string> := [@"cover={<img alt=""", @""" src=""", @""" style={{ height: 140, objectFit: 'cover' }} />}"]
  const AntdBodyChunks: seq<string> := [@"styles={{ body: { ", @" } }}"]
  const AntdTitleColorChunks: seq<string> := [@" style={{ color: '", @"' }}"]
  const AntdFontColorChunks: seq<string> := [@" style={{ color: '", @"' }}"]
  const ShadcnShadowChunks: seq<string> := [@" shadow-", ""]
  const ShadcnImageChunks: seq<string> := [@"<div className=""w-full h-[140px] overflow-hidden rounded-t-[inherit]"">
         <img src=""", @""" alt=""", @""" className=""w-full h-full object-cover"" />
      </div>"]
  const ShadcnTitleColorChunks: seq<string> := [@" style={{ color: '", @"' }}"]
  const ShadcnFontColorChunks: seq<string> := [@" style={{ color: '", @"' }}"]
  const AceternityTitleColorChunks: seq<string> := [@" style={{ color: '", @"' }}"]
  const AceternityFontColorChunks: seq<string> := [@" style={{ color: '", @"' }}"]

  /** `padding ? `...${py}px ${px}px...` : ''` */
  function PaddingAttr(chunks: seq<string>, pad: Padding): (r: string)
    requires |chunks| == 3
    ensures pad.NoPadding? ==> r == ""
    ensures pad.Pad? ==> Contains(r, Show(pad.py)) && Contains(r, Show(pad.px))
  {
    if pad.Pad? then
      FillContains(chunks, [Show(pad.py), Show(pad.px)], 0);
      FillContains(chunks, [Show(pad.py), Show(pad.px)], 1);
      Fill(chunks, [Show(pad.py), Show(pad.px)])
    else ""
  }

  /** chakra's image corner radius: the card's radius when set, else 'md'. */
  function TopRadius(st: CardStyles): string {
    if st.borderRadius != Undefined then Px(st.borderRadius) else "md"
  }

  /** antd's `styles` attribute: present exactly when the body style list is
      not empty. */
  function BodyAttr(bodyStyles: seq<Entry>): (r: string)
    ensures r == "" <==> bodyStyles == []
    ensures bodyStyles != [] ==> Contains(r, JoinEntries(bodyStyles, ", "))
  {
    if |bodyStyles| > 0 then
      FillContains(AntdBodyChunks, [JoinEntries(bodyStyles, ", ")], 0);
      Fill(AntdBodyChunks, [JoinEntries(bodyStyles, ", ")])
    else ""
  }

  // ---------------------------------------------------------------------
  // Templates

  const MuiChunks: seq<string> := [@"import { Card, CardContent, CardMedia, Typography } from '@mui/material';

export function CustomCard() {
  return (
    <Card sx={{
      ", @"
    }}>
      ", @"
      <CardContent", @">
        <Typography gutterBottom variant=""h5"" component=""div""", @">
          ", @"
        </Typography>
        <Typography variant=""body2"" color=""text.secondary""", @">
          ", @"
        </Typography>
      </CardContent>
    </Card>
  );
}"]
  const ChakraChunks: seq<string> := [@"import { Card, CardBody, Image, Stack, Heading, Text } from '@chakra-ui/react';

export function CustomCard() {
  return (
    <Card 
      ", @"
    >
      ", @"
      <CardBody", @">
        <Heading size=""md"" mb={2}", @">", @"</Heading>
        <Text", @">
          ", @"
        </Text>
      </CardBody>
    </Card>
  );
}"]
  const AntdChunks: seq<string> := [@"import { Card } from 'antd';
const { Meta } = Card;

export function CustomCard() {
  return (
    <Card
      hoverable
      style={{
        ", @"
      }}
      ", @"
      ", @"
    >
      <Meta 
        title={<span", @">", @"</span>} 
        description={<span", @">", @"</span>} 
      />
    </Card>
  );
}"]
  const ShadcnChunks: seq<string> := [@"import {
  Card,
  CardContent,
  CardDescription,
  CardFooter,
  CardHeader,
  CardTitle,
} from ""@/components/ui/card""

export function CustomCard() {
  return (
    <Card className=""w-[350px]", @""" style={{
      ", @"
    }}>
      ", @"
      <CardHeader>
        <CardTitle", @">", @"</CardTitle>
      </CardHeader>
      <CardContent>
        <CardDescription", @">
          ", @"
        </CardDescription>
      </CardContent>
    </Card>
  )
}"]
  const AceternityChunks: seq<string> := [@"import { cn } from ""@/lib/utils"";

export function CustomCard() {
  return (
    <div className=""max-w-xs w-full group/card"">
      <div 
        className={cn(
          ""cursor-pointer overflow-hidden relative card h-96 rounded-xl shadow-xl max-w-sm mx-auto flex flex-col justify-between p-4"",
          ""transition-all duration-300 hover:shadow-2xl""
        )}
        style={{
          ", @"
        }}
      >
        <div className=""absolute w-full h-full top-0 left-0 transition duration-300 group-hover/card:bg-black opacity-60""></div>
        <div className=""flex flex-row items-center space-x-4 z-10""></div>
        <div className=""text content z-10"">
          <h1 className=""font-bold text-xl md:text-2xl text-gray-50 relative z-10""", @">
            ", @"
          </h1>
          <p className=""font-normal text-sm text-gray-50 relative z-10 my-4""", @">
            ", @"
          </p>
        </div>
      </div>
    </div>
  );
}"]

  function MuiArgs(c: Config, sxProps: seq<Entry>): (args: seq<string>)
    ensures |args| == |MuiChunks| - 1
  {
    var st := c.styles;
    [ JoinEntries(sxProps, ",\n      "),
      Opt(ShowsImage(c), Fill(MuiMediaChunks, [ImageUrl, Show(c.title)])),
      PaddingAttr(MuiPaddingChunks, st.padding),
      Gated(MuiTitleColorChunks, st.titleColor), Show(c.title),
      Gated(MuiFontColorChunks, st.fontColor), Show(c.description) ]
  }

  function ChakraArgs(c: Config, props: seq<Entry>): (args: seq<string>)
    ensures |args| == |ChakraChunks| - 1
  {
    var st := c.styles;
    [ JoinEntries(props, "\n      "),
      Opt(ShowsImage(c), Fill(ChakraImageChunks, [ImageUrl, Show(c.title), TopRadius(st)])),
      PaddingAttr(ChakraPaddingChunks, st.padding),
      Gated(ChakraTitleColorChunks, st.titleColor), Show(c.title),
      Gated(ChakraFontColorChunks, st.fontColor), Show(c.description) ]
  }

  function AntdArgs(c: Config, styleProps: seq<Entry>, bodyStyles: seq<Entry>): (args: seq<string>)
    ensures |args| == |AntdChunks| - 1
  {
    var st := c.styles;
    [ JoinEntries(styleProps, ",\n        "),
      Opt(ShowsImage(c), Fill(AntdCoverChunks, [Show(c.title), ImageUrl])),
      BodyAttr(bodyStyles),
      Gated(AntdTitleColorChunks, st.titleColor), Show(c.title),
      Gated(AntdFontColorChunks, st.fontColor), Show(c.description) ]
  }

  function ShadcnArgs(c: Config, styleProps: seq<Entry>): (args: seq<string>)
    ensures |args| == |ShadcnChunks| - 1
  {
    var st := c.styles;
    [ Gated(ShadcnShadowChunks, st.shadow),
      JoinEntries(styleProps, ",\n      "),
      Opt(ShowsImage(c), Fill(ShadcnImageChunks, [ImageUrl, Show(c.title)])),
      Gated(ShadcnTitleColorChunks, st.titleColor), Show(c.title),
      Gated(ShadcnFontColorChunks, st.fontColor), Show(c.description) ]
  }

  function AceternityArgs(c: Config, containerStyles: seq<Entry>): (args: seq<string>)
    ensures |args| == |AceternityChunks| - 1
  {
    var st := c.styles;
    [ JoinEntries(containerStyles, ",\n          "),
      Gated(AceternityTitleColorChunks, st.titleColor), Show(c.title),
      Gated(AceternityFontColorChunks, st.fontColor), Show(c.description) ]
  }

  /** The template of a provider's branch. */
  function Chunks(p: Provider): seq<string>
    requires p != Other
  {
    match p
    case Mui => MuiChunks
    case Chakra => ChakraChunks
    case Antd => AntdChunks
    case Shadcn => ShadcnChunks
    case Aceternity => AceternityChunks
  }

  /** The texts a provider's branch interpolates, in order. */
  function Args(p: Provider, c: Config): (args: seq<string>)
    requires p != Other
    ensures |args| == |Chunks(p)| - 1
  {
    match p
    case Mui => MuiArgs(c, MuiSx(c.styles))
    case Chakra => ChakraArgs(c, ChakraProps(c.styles))
    case Antd => AntdArgs(c, AntdStyle(c.styles), AntdBody(c.styles))
    case Shadcn => ShadcnArgs(c, ShadcnStyle(c.styles))
    case Aceternity => AceternityArgs(c, AceternityStyle(c.styles))
  }

  /** `generateCardCode(provider, config)` as a value. */
  function Code(p: Provider, c: Config): (code: string)
    ensures p == Other ==> code == CodeNotAvailable
  {
    if p == Other then CodeNotAvailable else Fill(Chunks(p), Args(p, c))
  }

  /** `generateCardCode`: builds the branch's style lists push by push and
      fills in its template. */
  method Generate(p: Provider, c: Config) returns (code: string)
    ensures code == Code(p, c)
  {
    match p {
      case Mui =>
        var sxProps := PushMuiSx(c.styles);
        code := Fill(MuiChunks, MuiArgs(c, sxProps));
      case Chakra =>
        var props := PushChakraProps(c.styles);
        code := Fill(ChakraChunks, ChakraArgs(c, props));
      case Antd =>
        var styleProps, bodyStyles := PushAntdStyle(c.styles);
        code := Fill(AntdChunks, AntdArgs(c, styleProps, bodyStyles));
      case Shadcn =>
        var styleProps := PushShadcnStyle(c.styles);
        code := Fill(ShadcnChunks, ShadcnArgs(c, styleProps));
      case Aceternity =>
        var containerStyles := PushAceternityStyle(c.styles);
        code := Fill(AceternityChunks, AceternityArgs(c, containerStyles));
      case Other =>
        code := CodeNotAvailable;
    }
  }

  // ---------------------------------------------------------------------
  // Properties of the style lists

  /** A conditional push appends the one-entry group or nothing. */
  lemma PushIfWhen(es: seq<Entry>, c: bool, e: Entry)
    ensures PushIf(es, c, e) == es + When(c, [e])
  {
  }

  /** mui's list as one concatenation: the seed, then each conditional
      entry in order. */
  lemma MuiSxGroups(st: CardStyles)
    ensures MuiSx(st) == [Entry("maxWidth", "maxWidth: 345")]
      + When(Truthy(st.backgroundColor), [SingleQuoted("bgcolor", Show(st.backgroundColor))])
      + When(Truthy(st.borderColor), [SingleQuoted("border", BorderShorthand(st))])
      + When(st.borderRadius != Undefined, [SingleQuoted("borderRadius", Px(st.borderRadius))])
      + When(Truthy(st.shadow), [SingleQuoted("boxShadow", MuiShadow(st.shadow))])
  {
    var es0 := [Entry("maxWidth", "maxWidth: 345")];
    var es1 := PushIf(es0, Truthy(st.backgroundColor), SingleQuoted("bgcolor", Show(st.backgroundColor)));
    var es2 := PushIf(es1, Truthy(st.borderColor), SingleQuoted("border", BorderShorthand(st)));
    var es3 := PushIf(es2, st.borderRadius != Undefined, SingleQuoted("borderRadius", Px(st.borderRadius)));
    PushIfWhen(es0, Truthy(st.backgroundColor), SingleQuoted("bgcolor", Show(st.backgroundColor)));
    PushIfWhen(es1, Truthy(st.borderColor), SingleQuoted("border", BorderShorthand(st)));
    PushIfWhen(es2, st.borderRadius != Undefined, SingleQuoted("borderRadius", Px(st.borderRadius)));
    PushIfWhen(es3, Truthy(st.shadow), SingleQuoted("boxShadow", MuiShadow(st.shadow)));
  }

  /** Three pushes under one condition append the three entries or nothing. */
  lemma PushIfThree(es: seq<Entry>, c: bool, a: Entry, b: Entry, d: Entry)
    ensures PushIf(PushIf(PushIf(es, c, a), c, b), c, d) == es + When(c, [a, b, d])
  {
    if c {
      assert es + [a] + [b] + [d] == es + [a, b, d];
    }
  }

  /** Two pushes under one condition append the two entries or nothing. */
  lemma PushIfTwo(es: seq<Entry>, c: bool, a: Entry, b: Entry)
    ensures PushIf(PushIf(es, c, a), c, b) == es + When(c, [a, b])
  {
    if c {
      assert es + [a] + [b] == es + [a, b];
    }
  }

  /** antd's list as one concatenation: a truthy border colour adds exactly
      three entries, in the order colour, style 'solid', width. */
  lemma AntdStyleGroups(st: CardStyles)
    ensures AntdStyle(st) == [Entry("width", "width: 300")]
      + When(Truthy(st.backgroundColor), [SingleQuoted("backgroundColor", Show(st.backgroundColor))])
      + When(Truthy(st.borderColor), BorderEntries(st, true))
      + When(st.borderRadius != Undefined, [SingleQuoted("borderRadius", Px(st.borderRadius))])
  {
    var es0 := [Entry("width", "width: 300")];
    var es1 := PushIf(es0, Truthy(st.backgroundColor), SingleQuoted("backgroundColor", Show(st.backgroundColor)));
    var es4 := es1 + When(Truthy(st.borderColor), BorderEntries(st, true));
    PushIfWhen(es0, Truthy(st.backgroundColor), SingleQuoted("backgroundColor", Show(st.backgroundColor)));
    PushIfThree(es1, Truthy(st.borderColor), SingleQuoted("borderColor", Show(st.borderColor)),
      SingleQuoted("borderStyle", "solid"), SingleQuoted("borderWidth", Px(BorderWidth(st))));
    PushIfWhen(es4, st.borderRadius != Undefined, SingleQuoted("borderRadius", Px(st.borderRadius)));
  }

  /** shadcn's list as one concatenation: a truthy border colour adds the
      colour and the width. */
  lemma ShadcnStyleGroups(st: CardStyles)
    ensures ShadcnStyle(st) ==
      When(Truthy(st.backgroundColor), [SingleQuoted("backgroundColor", Show(st.backgroundColor))])
      + When(Truthy(st.borderColor), BorderEntries(st, false))
      + When(st.borderRadius != Undefined, [SingleQuoted("borderRadius", Px(st.borderRadius))])
  {
    var es1 := PushIf([], Truthy(st.backgroundColor), SingleQuoted("backgroundColor", Show(st.backgroundColor)));
    var es3 := es1 + When(Truthy(st.borderColor), BorderEntries(st, false));
    PushIfWhen([], Truthy(st.backgroundColor), SingleQuoted("backgroundColor", Show(st.backgroundColor)));
    PushIfTwo(es1, Truthy(st.borderColor), SingleQuoted("borderColor", Show(st.borderColor)),
      SingleQuoted("borderWidth", Px(BorderWidth(st))));
    PushIfWhen(es3, st.borderRadius != Undefined, SingleQuoted("borderRadius", Px(st.borderRadius)));
  }

  /** aceternity's list as one concatenation: the background colour or else
      the two picture entries, then the border and the radius. */
  lemma AceternityStyleGroups(st: CardStyles)
    ensures AceternityStyle(st) ==
      (if Truthy(st.backgroundColor) then [SingleQuoted("backgroundColor", Show(st.backgroundColor))] else BackgroundImage)
      + When(Truthy(st.borderColor), [SingleQuoted("border", BorderShorthand(st))])
      + When(st.borderRadius != Undefined, [SingleQuoted("borderRadius", Px(st.borderRadius))])
  {
    var es1 := if Truthy(st.backgroundColor) then [SingleQuoted("backgroundColor", Show(st.backgroundColor))] else BackgroundImage;
    var es2 := PushIf(es1, Truthy(st.borderColor), SingleQuoted("border", BorderShorthand(st)));
    PushIfWhen(es1, Truthy(st.borderColor), SingleQuoted("border", BorderShorthand(st)));
    PushIfWhen(es2, st.borderRadius != Undefined, SingleQuoted("borderRadius", Px(st.borderRadius)));
  }

  /** The seeds stay first: mui's list starts with `maxWidth: 345`, chakra's
      with `maxW="sm"`, antd's with `width: 300`. */
  lemma SeedsFirst(st: CardStyles)
    ensures MuiSx(st)[0] == Entry("maxWidth", "maxWidth: 345")
    ensures ChakraProps(st)[0] == Attr("maxW", "sm")
    ensures AntdStyle(st)[0] == Entry("width", "width: 300")
  {
    MuiSxGroups(st);
    AntdStyleGroups(st);
  }

  /** A joined list's entries occur in the template slot it fills. */
  lemma EntryInCode(code: string, chunks: seq<string>, args: seq<string>, i: nat, es: seq<Entry>, sep: string, e: Entry)
    requires |chunks| == |args| + 1 && i < |args| && code == Fill(chunks, args)
    requires args[i] == JoinEntries(es, sep) && e in es
    ensures Contains(code, e.text)
  {
    JoinEntriesContains(es, sep, e);
    FillContains(chunks, args, i);
    ContainsTrans(code, args[i], e.text);
  }

  /** The generated code shows each seed: `maxWidth: 345` for mui... */
  lemma MuiSeedInCode(c: Config)
    ensures Contains(Code(Mui, c), "maxWidth: 345")
  {
    var st := c.styles;
    SeedsFirst(st);
    assert Args(Mui, c)[0] == JoinEntries(MuiSx(st), ",\n      ");
    EntryInCode(Code(Mui, c), MuiChunks, Args(Mui, c), 0, MuiSx(st), ",\n      ", MuiSx(st)[0]);
  }

  /** ...`maxW="sm"` for chakra... */
  lemma ChakraSeedInCode(c: Config)
    ensures Contains(Code(Chakra, c), "maxW=\"sm\"")
  {
    var st := c.styles;
    SeedsFirst(st);
    var args := Args(Chakra, c);
    assert args[0] == JoinEntries(ChakraProps(st), "\n      ");
    assert Attr("maxW", "sm").text == "maxW=\"sm\"";
    EntryInCode(Fill(ChakraChunks, args), ChakraChunks, args, 0, ChakraProps(st), "\n      ", Attr("maxW", "sm"));
  }

  /** ...and `width: 300` for antd. */
  lemma AntdSeedInCode(c: Config)
    ensures Contains(Code(Antd, c), "width: 300")
  {
    var st := c.styles;
    SeedsFirst(st);
    assert Args(Antd, c)[0] == JoinEntries(AntdStyle(st), ",\n        ");
    EntryInCode(Code(Antd, c), AntdChunks, Args(Antd, c), 0, AntdStyle(st), ",\n        ", AntdStyle(st)[0]);
  }

  /** mui's `sx` sets: maxWidth always; bgcolor, border and boxShadow exactly
      for a truthy value; borderRadius exactly when the radius is not
      undefined, so a radius 0 is written. */
  lemma MuiSxKeys(st: CardStyles, k: string)
    ensures Has(MuiSx(st), k) <==>
      || k == "maxWidth"
      || (k == "bgcolor" && Truthy(st.backgroundColor))
      || (k == "border" && Truthy(st.borderColor))
      || (k == "borderRadius" && st.borderRadius != Undefined)
      || (k == "boxShadow" && Truthy(st.shadow))
  {
    var es0 := [Entry("maxWidth", "maxWidth: 345")];
    var e1 := SingleQuoted("bgcolor", Show(st.backgroundColor));
    var e2 := SingleQuoted("border", BorderShorthand(st));
    var e3 := SingleQuoted("borderRadius", Px(st.borderRadius));
    var e4 := SingleQuoted("boxShadow", MuiShadow(st.shadow));
    var es1 := PushIf(es0, Truthy(st.backgroundColor), e1);
    var es2 := PushIf(es1, Truthy(st.borderColor), e2);
    var es3 := PushIf(es2, st.borderRadius != Undefined, e3);
    assert Has(es0, k) <==> k == "maxWidth" by {
      if k == "maxWidth" { assert es0[0] in es0; }
    }
    HasPushIf(es0, Truthy(st.backgroundColor), e1, k);
    HasPushIf(es1, Truthy(st.borderColor), e2, k);
    HasPushIf(es2, st.borderRadius != Undefined, e3, k);
    HasPushIf(es3, Truthy(st.shadow), e4, k);
  }

  /** chakra's props set: maxW always; bg and boxShadow for a truthy value;
      borderColor and borderWidth together, for a truthy border colour;
      borderRadius exactly when the radius is not undefined. */
  lemma ChakraPropsKeys(st: CardStyles, k: string)
    ensures Has(ChakraProps(st), k) <==>
      || k == "maxW"
      || (k == "bg" && Truthy(st.backgroundColor))
      || ((k == "borderColor" || k == "borderWidth") && Truthy(st.borderColor))
      || (k == "borderRadius" && st.borderRadius != Undefined)
      || (k == "boxShadow" && Truthy(st.shadow))
  {
    var es0 := [Attr("maxW", "sm")];
    var e1 := Attr("bg", Show(st.backgroundColor));
    var e2 := Attr("borderColor", Show(st.borderColor));
    var e3 := Attr("borderWidth", Px(BorderWidth(st)));
    var e4 := Attr("borderRadius", Px(st.borderRadius));
    var e5 := Attr("boxShadow", Show(st.shadow));
    var es1 := PushIf(es0, Truthy(st.backgroundColor), e1);
    var es2 := PushIf(es1, Truthy(st.borderColor), e2);
    var es3 := PushIf(es2, Truthy(st.borderColor), e3);
    var es4 := PushIf(es3, st.borderRadius != Undefined, e4);
    assert Has(es0, k) <==> k == "maxW" by {
      if k == "maxW" { assert es0[0] in es0; }
    }
    HasPushIf(es0, Truthy(st.backgroundColor), e1, k);
    HasPushIf(es1, Truthy(st.borderColor), e2, k);
    HasPushIf(es2, Truthy(st.borderColor), e3, k);
    HasPushIf(es3, st.borderRadius != Undefined, e4, k);
    HasPushIf(es4, Truthy(st.shadow), e5, k);
  }

  /** aceternity's container sets backgroundColor exactly when the colour is
      truthy, and otherwise backgroundImage and backgroundSize; border for a
      truthy border colour; borderRadius when the radius is not undefined. */
  lemma AceternityStyleKeys(st: CardStyles, k: string)
    ensures Has(AceternityStyle(st), k) <==>
      || (k == "backgroundColor" && Truthy(st.backgroundColor))
      || ((k == "backgroundImage" || k == "backgroundSize") && !Truthy(st.backgroundColor))
      || (k == "border" && Truthy(st.borderColor))
      || (k == "borderRadius" && st.borderRadius != Undefined)
  {
    var es1 := if Truthy(st.backgroundColor) then [SingleQuoted("backgroundColor", Show(st.backgroundColor))] else BackgroundImage;
    var e2 := SingleQuoted("border", BorderShorthand(st));
    var e3 := SingleQuoted("borderRadius", Px(st.borderRadius));
    var es2 := PushIf(es1, Truthy(st.borderColor), e2);
    if Truthy(st.backgroundColor) {
      assert Has(es1, k) <==> k == "backgroundColor" by {
        if k == "backgroundColor" { assert es1[0] in es1; }
      }
    } else {
      HasPair(BackgroundImage[0], BackgroundImage[1], k);
    }
    HasPushIf(es1, Truthy(st.borderColor), e2, k);
    HasPushIf(es2, st.borderRadius != Undefined, e3, k);
  }

  /** A truthy border colour gives a border entry of "{width}px solid
      {colour}" in mui's and aceternity's lists, and the width defaults to
      1 only for an unset or null width. */
  lemma BorderEntry(st: CardStyles)
    requires Truthy(st.borderColor)
    ensures SingleQuoted("border", BorderShorthand(st)) in MuiSx(st)
    ensures SingleQuoted("border", BorderShorthand(st)) in AceternityStyle(st)
    ensures BorderShorthand(st) == Show(Coalesce(st.borderWidth, Num(1))) + "px solid " + Show(st.borderColor)
  {
    MuiSxGroups(st);
    AceternityStyleGroups(st);
  }

  /** mui's shadow entry: none stays none, any other truthy shadow becomes
      the fixed shadow, and an unset one is left out. */
  lemma MuiShadowEntry(st: CardStyles)
    ensures st.shadow == Str("none") ==> SingleQuoted("boxShadow", "none") in MuiSx(st)
    ensures Truthy(st.shadow) && st.shadow != Str("none") ==>
      SingleQuoted("boxShadow", "0 4px 6px rgba(0,0,0,0.1)") in MuiSx(st)
    ensures !Truthy(st.shadow) ==> !Has(MuiSx(st), "boxShadow")
  {
    MuiSxGroups(st);
    MuiSxKeys(st, "boxShadow");
  }

  // ---------------------------------------------------------------------
  // Properties of the generated code

  /** Where each branch interpolates the picture. */
  function ImageIndex(p: Provider): nat
    requires p != Other && p != Aceternity
  {
    if p == Shadcn then 2 else 1
  }

  /** Every branch but aceternity's shows the picture unless `image` is the
      boolean false; an unset `image` shows it. */
  lemma ImageInCode(p: Provider, c: Config)
    requires p != Other && p != Aceternity
    ensures Args(p, c)[ImageIndex(p)] == "" <==> !ShowsImage(c)
    ensures ShowsImage(c) ==> Contains(Code(p, c), ImageUrl)
  {
    var args := Args(p, c);
    var i := ImageIndex(p);
    if ShowsImage(c) {
      var fragment :=
        match p
        case Mui => (MuiMediaChunks, [ImageUrl, Show(c.title)])
        case Chakra => (ChakraImageChunks, [ImageUrl, Show(c.title), TopRadius(c.styles)])
        case Antd => (AntdCoverChunks, [Show(c.title), ImageUrl])
        case _ => (ShadcnImageChunks, [ImageUrl, Show(c.title)]);
      var chunks, inner := fragment.0, fragment.1;
      assert args[i] == Fill(chunks, inner);
      var j := if p == Antd then 1 else 0;
      FillContains(chunks, inner, j);
      FillContains(Chunks(p), args, i);
      ContainsTrans(Code(p, c), args[i], ImageUrl);
    }
  }

  /** The picture entry carries the picture's address. */
  lemma BackgroundImageUrl()
    ensures Contains(BackgroundImage[0].text, ImageUrl)
  {
    var t := BackgroundImage[0].text;
    assert t == "backgroundImage: 'url(" + ImageUrl + ")'";
    assert t[22..22 + |ImageUrl|] == ImageUrl;
    assert OccursAt(t, ImageUrl, 22);
  }

  /** aceternity shows the picture as the container's background exactly
      when no background colour is set. */
  lemma AceternityBackground(c: Config)
    ensures !Truthy(c.styles.backgroundColor) ==> AceternityStyle(c.styles)[..2] == BackgroundImage
    ensures !Truthy(c.styles.backgroundColor) ==> Contains(Code(Aceternity, c), ImageUrl)
    ensures Truthy(c.styles.backgroundColor) ==>
      AceternityStyle(c.styles)[0] == SingleQuoted("backgroundColor", Show(c.styles.backgroundColor))
  {
    var st := c.styles;
    AceternityStyleGroups(st);
    if !Truthy(st.backgroundColor) {
      var es := AceternityStyle(st);
      assert es[0] == BackgroundImage[0];
      EntryInCode(Code(Aceternity, c), AceternityChunks, Args(Aceternity, c), 0, es, ",\n          ", es[0]);
      BackgroundImageUrl();
      ContainsTrans(Code(Aceternity, c), BackgroundImage[0].text, ImageUrl);
    }
  }

  /** mui and chakra write the padding attribute exactly when a padding
      object is set, with both of its values. */
  lemma PaddingInCode(p: Provider, c: Config)
    requires p == Mui || p == Chakra
    ensures Args(p, c)[2] == "" <==> c.styles.padding.NoPadding?
    ensures c.styles.padding.Pad? ==>
      Contains(Code(p, c), Show(c.styles.padding.py)) && Contains(Code(p, c), Show(c.styles.padding.px))
  {
    var args := Args(p, c);
    var pad := c.styles.padding;
    if pad.Pad? {
      var chunks := if p == Mui then MuiPaddingChunks else ChakraPaddingChunks;
      assert args[2] == PaddingAttr(chunks, pad);
      PaddingNonEmpty(chunks, pad);
      FillContains(Chunks(p), args, 2);
      ContainsTrans(Code(p, c), args[2], Show(pad.py));
      ContainsTrans(Code(p, c), args[2], Show(pad.px));
    }
  }

  lemma PaddingNonEmpty(chunks: seq<string>, pad: Padding)
    requires |chunks| == 3 && chunks[1] != "" && pad.Pad?
    ensures PaddingAttr(chunks, pad) != ""
  {
    FillContainsChunk(chunks, [Show(pad.py), Show(pad.px)], 1);
  }

  /** The padding entry `padding: '{py}px {px}px'` shows both values. */
  lemma PaddingEntryValues(pad: Padding)
    requires pad.Pad?
    ensures Contains(SingleQuoted("padding", PaddingText(pad)).text, Show(pad.py))
    ensures Contains(SingleQuoted("padding", PaddingText(pad)).text, Show(pad.px))
  {
    var t := SingleQuoted("padding", PaddingText(pad)).text;
    assert t == "padding: '" + Show(pad.py) + "px " + Show(pad.px) + "px'";
    assert t[10..10 + |Show(pad.py)|] == Show(pad.py);
    assert OccursAt(t, Show(pad.py), 10);
    var k := 10 + |Show(pad.py)| + 3;
    assert t[k..k + |Show(pad.px)|] == Show(pad.px);
    assert OccursAt(t, Show(pad.px), k);
  }

  /** antd writes its body style attribute exactly when a padding object is
      set, holding the padding entry. */
  lemma AntdPaddingInCode(c: Config)
    ensures Args(Antd, c)[2] == "" <==> c.styles.padding.NoPadding?
    ensures c.styles.padding.Pad? ==>
      Contains(Code(Antd, c), Show(c.styles.padding.py)) && Contains(Code(Antd, c), Show(c.styles.padding.px))
  {
    var args := Args(Antd, c);
    var pad := c.styles.padding;
    if pad.Pad? {
      var es := AntdBody(c.styles);
      var e := SingleQuoted("padding", PaddingText(pad));
      assert es == [e];
      JoinEntriesContains(es, ", ", e);
      ContainsTrans(args[2], JoinEntries(es, ", "), e.text);
      FillContains(AntdChunks, args, 2);
      ContainsTrans(Code(Antd, c), args[2], e.text);
      PaddingEntryValues(pad);
      ContainsTrans(Code(Antd, c), e.text, Show(pad.py));
      ContainsTrans(Code(Antd, c), e.text, Show(pad.px));
    }
  }

  /** Every supported provider shows the title and the description verbatim. */
  lemma TextsInCode(p: Provider, c: Config)
    requires p != Other
    ensures Contains(Code(p, c), Show(c.title))
    ensures Contains(Code(p, c), Show(c.description))
  {
    var n := |Args(p, c)|;
    FillContains(Chunks(p), Args(p, c), n - 1);
    FillContains(Chunks(p), Args(p, c), n - 3);
  }
}
