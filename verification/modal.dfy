/** Code generation for a modal dialog: `generateModalCode` in
    src/lib/codegen/modal.ts. mui, chakra and shadcn collect the dialog's
    styles in lists filled by conditional pushes; antd and aceternity build
    them as nested conditional template fragments. */
module Modal {
  import opened Js
  import opened Text
  import opened Providers

  /** `config.styles`; an absent `styles` is the record whose fields are all unset. */
  datatype ModalStyles = ModalStyles(
    backgroundColor: Value, borderColor: Value, borderRadius: Value,
    titleColor: Value, textColor: Value, overlayColor: Value)

  datatype Config = Config(title: Value, content: Value, styles: ModalStyles)

  /** `1px solid ${borderColor}`: the border width is fixed at 1px. */
  function Border(st: ModalStyles): string {
    "1px solid " + Show(st.borderColor)
  }

  /** `${borderRadius}px` */
  function RadiusPx(st: ModalStyles): string {
    Show(st.borderRadius) + "px"
  }

  // ---------------------------------------------------------------------
  // Style lists

  /** mui's paper `sx`: background, radius (whenever it is not undefined)
      and border. */
  function PaperSx(st: ModalStyles): seq<Entry> {
    var es1 := PushIf([], Truthy(st.backgroundColor), SingleQuoted("bgcolor", Show(st.backgroundColor)));
    var es2 := PushIf(es1, st.borderRadius != Undefined, SingleQuoted("borderRadius", RadiusPx(st)));
    PushIf(es2, Truthy(st.borderColor), SingleQuoted("border", Border(st)))
  }

  /** A one-entry `color` list, for a truthy colour. */
  function ColorSx(colour: Value): seq<Entry> {
    PushIf([], Truthy(colour), SingleQuoted("color", Show(colour)))
  }

  /** chakra's content props: background, radius, and border colour with a
      fixed 1px width. */
  function ContentProps(st: ModalStyles): seq<Entry> {
    var es1 := PushIf([], Truthy(st.backgroundColor), Attr("bg", Show(st.backgroundColor)));
    var es2 := PushIf(es1, st.borderRadius != Undefined, Attr("borderRadius", RadiusPx(st)));
    var es3 := PushIf(es2, Truthy(st.borderColor), Attr("borderColor", Show(st.borderColor)));
    PushIf(es3, Truthy(st.borderColor), Attr("borderWidth", "1px"))
  }

  /** shadcn's content style: background, radius, and border colour with a
      fixed 1px width. */
  function ContentStyles(st: ModalStyles): seq<Entry> {
    var es1 := PushIf([], Truthy(st.backgroundColor), SingleQuoted("backgroundColor", Show(st.backgroundColor)));
    var es2 := PushIf(es1, st.borderRadius != Undefined, SingleQuoted("borderRadius", RadiusPx(st)));
    var es3 := PushIf(es2, Truthy(st.borderColor), SingleQuoted("borderColor", Show(st.borderColor)));
    PushIf(es3, Truthy(st.borderColor), SingleQuoted("borderWidth", "1px"))
  }

  method PushMuiLists(st: ModalStyles) returns (paperSx: seq<Entry>, titleSx: seq<Entry>, contentSx: seq<Entry>)
    ensures paperSx == PaperSx(st) && titleSx == ColorSx(st.titleColor) && contentSx == ColorSx(st.textColor)
  {
    paperSx := [];
    if Truthy(st.backgroundColor) { paperSx := paperSx + [SingleQuoted("bgcolor", Show(st.backgroundColor))]; }
    if st.borderRadius != Undefined { paperSx := paperSx + [SingleQuoted("borderRadius", RadiusPx(st))]; }
    if Truthy(st.borderColor) { paperSx := paperSx + [SingleQuoted("border", Border(st))]; }
    titleSx := [];
    if Truthy(st.titleColor) { titleSx := titleSx + [SingleQuoted("color", Show(st.titleColor))]; }
    contentSx := [];
    if Truthy(st.textColor) { contentSx := contentSx + [SingleQuoted("color", Show(st.textColor))]; }
  }

  method PushContentProps(st: ModalStyles) returns (contentProps: seq<Entry>)
    ensures contentProps == ContentProps(st)
  {
    contentProps := [];
    if Truthy(st.backgroundColor) { contentProps := contentProps + [Attr("bg", Show(st.backgroundColor))]; }
    if st.borderRadius != Undefined { contentProps := contentProps + [Attr("borderRadius", RadiusPx(st))]; }
    if Truthy(st.borderColor) {
      contentProps := contentProps + [Attr("borderColor", Show(st.borderColor))];
      contentProps := contentProps + [Attr("borderWidth", "1px")];
    }
  }

  method PushContentStyles(st: ModalStyles) returns (contentStyles: seq<Entry>)
    ensures contentStyles == ContentStyles(st)
  {
    contentStyles := [];
    if Truthy(st.backgroundColor) { contentStyles := contentStyles + [SingleQuoted("backgroundColor", Show(st.backgroundColor))]; }
    if st.borderRadius != Undefined { contentStyles := contentStyles + [SingleQuoted("borderRadius", RadiusPx(st))]; }
    if Truthy(st.borderColor) {
      contentStyles := contentStyles + [SingleQuoted("borderColor", Show(st.borderColor))];
      contentStyles := contentStyles + [SingleQuoted("borderWidth", "1px")];
    }
  }

  // ---------------------------------------------------------------------
  // Fragments

  const PaperPropsChunks: seq<string> := [@"
      PaperProps={{
        sx: {
          ", @"
        }
      }}"]
  const MuiTitleSxChunks: seq<string> := [@" sx={{ ", @" }}"]
  const MuiContentSxChunks: seq<string> := [@" sx={{ ", @" }}"]

  /** mui's `PaperProps` attribute: present exactly when the paper list is
      not empty. */
  function PaperProps(st: ModalStyles): string {
    ListFill(PaperPropsChunks, PaperSx(st), ",\n          ")
  }

  const BackdropChunks: seq<string> := [@"bg=""", @""" "]
  const ChakraTitleColorChunks: seq<string> := [@" color=""", @""""]
  const ChakraTextColorChunks: seq<string> := [@" color=""", @""""]

  /** chakra's content props, each on its own line after a line break, or
      nothing for an empty list. */
  function ContentPropsText(es: seq<Entry>): (r: string)
    ensures r == "" <==> es == []
    ensures es != [] ==> Contains(r, JoinEntries(es, "\n          "))
  {
    if |es| > 0 then
      ContainsSelf(JoinEntries(es, "\n          "));
      ContainsRight("\n          ", JoinEntries(es, "\n          "), JoinEntries(es, "\n          "));
      "\n          " + JoinEntries(es, "\n          ")
    else ""
  }

  const AntdBackgroundChunks: seq<string> := [@"backgroundColor: '", @"',"]
  const AntdRadiusChunks: seq<string> := [@"borderRadius: '", @"px',"]
  const AntdBorderChunks: seq<string> := [@"border: '1px solid ", @"',"]
  const AntdBodyChunks: seq<string> := [@"body: { 
          ", @"
          ", @"
          ", @"
        },"]
  const AntdMaskChunks: seq<string> := [@"mask: { backgroundColor: '", @"' },"]
  const AntdHeaderChunks: seq<string> := [@"header: { color: '", @"', background: 'transparent' },"]
  const StylesPropChunks: seq<string> := [@"styles={{
        ", @"
        ", @"
        ", @"
      }}"]
  const AntdTitleColorChunks: seq<string> := [@" style={{ color: '", @"' }}"]
  const AntdTextColorChunks: seq<string> := [@" style={{ color: '", @"' }}"]

  /** `borderRadius !== undefined ? `...${borderRadius}px...` : ''` */
  function RadiusPiece(chunks: seq<string>, st: ModalStyles): (r: string)
    requires |chunks| == 2 && chunks[0] != ""
    ensures r == "" <==> st.borderRadius == Undefined
  {
    if st.borderRadius != Undefined then Fill(chunks, [Show(st.borderRadius)]) else ""
  }

  /** antd's `body` block: emitted only when a background colour or a radius
      is set, holding the background, radius and border pieces. */
  function AntdBody(st: ModalStyles): string {
    if Truthy(st.backgroundColor) || st.borderRadius != Undefined then
      Fill(AntdBodyChunks, AntdBodyPieces(st))
    else ""
  }

  /** The three pieces of antd's `body` block. */
  function AntdBodyPieces(st: ModalStyles): seq<string> {
    [Gated(AntdBackgroundChunks, st.backgroundColor), RadiusPiece(AntdRadiusChunks, st), Gated(AntdBorderChunks, st.borderColor)]
  }

  /** antd's `styles` attribute: the body block, the mask for a truthy
      overlay colour and the header for a truthy title colour. */
  function StylesProp(st: ModalStyles): string {
    Fill(StylesPropChunks, [AntdBody(st), Gated(AntdMaskChunks, st.overlayColor), Gated(AntdHeaderChunks, st.titleColor)])
  }

  const ShadcnTitleColorChunks: seq<string> := [@" style={{ color: '", @"' }}"]
  const ShadcnTextColorChunks: seq<string> := [@" style={{ color: '", @"' }}"]

  const AceternityOverlayChunks: seq<string> := [@"backgroundColor: '", @"'"]
  const AceternityBackgroundChunks: seq<string> := [@"backgroundColor: '", @"',"]
  const AceternityRadiusChunks: seq<string> := [@"borderRadius: '", @"px',"]
  const AceternityBorderChunks: seq<string> := [@"border: '1px solid ", @"',"]
  const AceternityTitleColorChunks: seq<string> := [@"color: '", @"'"]
  const AceternityTextColorChunks: seq<string> := [@"color: '", @"'"]

  // ---------------------------------------------------------------------
  // Templates

  const MuiChunks: seq<string> := [@"import React from 'react';
import { 
  Button, 
  Dialog, 
  DialogTitle, 
  DialogContent, 
  DialogContentText, 
  DialogActions 
} from '@mui/material';

export function CustomModal() {
  const [open, setOpen] = React.useState(false);

  return (
    <>
      <Button variant=""outlined"" onClick={() => setOpen(true)}>
        Open Modal
      </Button>
      <Dialog
        open={open}
        onClose={() => setOpen(false)}", @"
      >
        <DialogTitle", @">
          ", @"
        </DialogTitle>
        <DialogContent>
          <DialogContentText", @">
            ", @"
          </DialogContentText>
        </DialogContent>
        <DialogActions>
          <Button onClick={() => setOpen(false)}>Close</Button>
        </DialogActions>
      </Dialog>
    </>
  );
}"]
  const ChakraChunks: seq<string> := [@"import {
  Dialog,
  Button,
  Text
} from '@chakra-ui/react';
import { useState } from 'react';

export function CustomModal() {
  const [open, setOpen] = useState(false);

  return (
    <Dialog.Root open={open} onOpenChange={(e) => setOpen(e.open)}>
      <Dialog.Trigger asChild>
        <Button variant=""outline"">Open Modal</Button>
      </Dialog.Trigger>
      <Dialog.Backdrop ", @"/>
      <Dialog.Positioner>
        <Dialog.Content", @">
          <Dialog.Header", @">
            <Dialog.Title>", @"</Dialog.Title>
            <Dialog.CloseTrigger />
          </Dialog.Header>
          <Dialog.Body>
            <Text", @">", @"</Text>
          </Dialog.Body>

          <Dialog.Footer>
            <Button onClick={() => setOpen(false)}>
              Close
            </Button>
          </Dialog.Footer>
        </Dialog.Content>
      </Dialog.Positioner>
    </Dialog.Root>
  );
}"]
  const AntdChunks: seq<string> := [@"import React, { useState } from 'react';
import { Button, Modal } from 'antd';

export function CustomModal() {
  const [isModalOpen, setIsModalOpen] = useState(false);

  const showModal = () => {
    setIsModalOpen(true);
  };

  const handleOk = () => {
    setIsModalOpen(false);
  };

  const handleCancel = () => {
    setIsModalOpen(false);
  };

  return (
    <>
      <Button type=""primary"" onClick={showModal}>
        Open Modal
      </Button>
      <Modal 
        title={<span", @">", @"</span>}
        open={isModalOpen} 
        onOk={handleOk} 
        onCancel={handleCancel}
        ", @"
      >
        <p", @">", @"</p>
      </Modal>
    </>
  );
}"]
  const ShadcnChunks: seq<string> := [@"import {
  Dialog,
  DialogContent,
  DialogDescription,
  DialogHeader,
  DialogTitle,
  DialogTrigger,
  DialogFooter,
} from ""@/components/ui/dialog""
import { Button } from ""@/components/ui/button""

export function CustomModal() {
  return (
    <Dialog>
      <DialogTrigger asChild>
        <Button variant=""outline"">Open Modal</Button>
      </DialogTrigger>
      <DialogContent style={{
        ", @"
      }}>
        <DialogHeader>
          <DialogTitle", @">", @"</DialogTitle>
          <DialogDescription", @">
            ", @"
          </DialogDescription>
        </DialogHeader>
        <DialogFooter>
          <Button type=""submit"">Confirm</Button>
        </DialogFooter>
      </DialogContent>
    </Dialog>
  )
}"]
  const AceternityChunks: seq<string> := [@"import React from ""react"";
import { AnimatePresence, motion } from ""framer-motion"";

export function CustomModal() {
  const [isOpen, setIsOpen] = React.useState(false);
  return (
    <div className=""flex items-center justify-center"">
      <button 
        onClick={() => setIsOpen(true)}
        className=""px-4 py-2 rounded-md border border-neutral-600 text-neutral-600 bg-white hover:bg-gray-100 transition duration-200""
      >
        Open Modal
      </button>

      <AnimatePresence>
        {isOpen && (
          <div className=""fixed inset-0 z-50 flex items-center justify-center overflow-x-hidden overflow-y-auto outline-none focus:outline-none"">
            <motion.div
              initial={{ opacity: 0 }}
              animate={{ opacity: 1 }}
              exit={{ opacity: 0 }}
              className=""fixed inset-0 bg-black/50 backdrop-blur-sm""
              style={{ ", @" }}
              onClick={() => setIsOpen(false)}
            />
            <motion.div
              initial={{ scale: 0.95, opacity: 0 }}
              animate={{ scale: 1, opacity: 1 }}
              exit={{ scale: 0.95, opacity: 0 }}
              className=""relative w-auto max-w-3xl mx-auto my-6 z-50 p-6 bg-white rounded-lg shadow-lg""
              style={{
                ", @"
                ", @"
                ", @"
              }}
            >
              <h3 className=""text-2xl font-semibold mb-4"" style={{ ", @" }}>
                ", @"
              </h3>
              <p className=""relative text-gray-600 text-lg leading-relaxed"" style={{ ", @" }}>
                ", @"
              </p>
              <div className=""flex items-center justify-end mt-6"">
                <button
                  className=""text-red-500 background-transparent font-bold uppercase px-6 py-2 text-sm outline-none focus:outline-none mr-1 mb-1 ease-linear transition-all duration-150""
                  type=""button""
                  onClick={() => setIsOpen(false)}
                >
                  Close
                </button>
              </div>
            </motion.div>
          </div>
        )}
      </AnimatePresence>
    </div>
  );
}"]

  function MuiArgs(c: Config, paperSx: seq<Entry>, titleSx: seq<Entry>, contentSx: seq<Entry>): (args: seq<string>)
    ensures |args| == |MuiChunks| - 1
  {
    [ ListFill(PaperPropsChunks, paperSx, ",\n          "),
      ListFill(MuiTitleSxChunks, titleSx, ", "), Show(c.title),
      ListFill(MuiContentSxChunks, contentSx, ", "), Show(c.content) ]
  }

  function ChakraArgs(c: Config, contentProps: seq<Entry>): (args: seq<string>)
    ensures |args| == |ChakraChunks| - 1
  {
    var st := c.styles;
    [ Gated(BackdropChunks, st.overlayColor), ContentPropsText(contentProps),
      Gated(ChakraTitleColorChunks, st.titleColor), Show(c.title),
      Gated(ChakraTextColorChunks, st.textColor), Show(c.content) ]
  }

  function ShadcnArgs(c: Config, contentStyles: seq<Entry>): (args: seq<string>)
    ensures |args| == |ShadcnChunks| - 1
  {
    var st := c.styles;
    [ JoinEntries(contentStyles, ",\n        "),
      Gated(ShadcnTitleColorChunks, st.titleColor), Show(c.title),
      Gated(ShadcnTextColorChunks, st.textColor), Show(c.content) ]
  }

  /** The template of a provider's branch. */
  function Chunks(p: Provider): seq<string>
    requires p != Other
  {
    match p
    case Mui => MuiChunks
    case Chakra => ChakraChunks
    case Antd => AntdChunks
    case Shadcn => ShadcnChunks
    case Aceternity => AceternityChunks
  }

  /** The texts a provider's branch interpolates, in order. */
  function Args(p: Provider, c: Config): (args: seq<string>)
    requires p != Other
    ensures |args| == |Chunks(p)| - 1
  {
    var st := c.styles;
    match p
    case Mui => MuiArgs(c, PaperSx(st), ColorSx(st.titleColor), ColorSx(st.textColor))
    case Chakra => ChakraArgs(c, ContentProps(st))
    case Antd =>
      [ Gated(AntdTitleColorChunks, st.titleColor), Show(c.title), StylesProp(st),
        Gated(AntdTextColorChunks, st.textColor), Show(c.content) ]
    case Shadcn => ShadcnArgs(c, ContentStyles(st))
    case Aceternity =>
      [ Gated(AceternityOverlayChunks, st.overlayColor), Gated(AceternityBackgroundChunks, st.backgroundColor),
        RadiusPiece(AceternityRadiusChunks, st), Gated(AceternityBorderChunks, st.borderColor),
        Gated(AceternityTitleColorChunks, st.titleColor), Show(c.title),
        Gated(AceternityTextColorChunks, st.textColor), Show(c.content) ]
  }

  /** `generateModalCode(provider, config)` as a value. */
  function Code(p: Provider, c: Config): (code: string)
    ensures p == Other ==> code == CodeNotAvailable
  {
    if p == Other then CodeNotAvailable else Fill(Chunks(p), Args(p, c))
  }

  /** `generateModalCode`: builds the branch's style lists push by push and
      fills in its template. */
  method Generate(p: Provider, c: Config) returns (code: string)
    ensures code == Code(p, c)
  {
    match p {
      case Mui =>
        var paperSx, titleSx, contentSx := PushMuiLists(c.styles);
        code := Fill(MuiChunks, MuiArgs(c, paperSx, titleSx, contentSx));
      case Chakra =>
        var contentProps := PushContentProps(c.styles);
        code := Fill(ChakraChunks, ChakraArgs(c, contentProps));
      case Shadcn =>
        var contentStyles := PushContentStyles(c.styles);
        code := Fill(ShadcnChunks, ShadcnArgs(c, contentStyles));
      case Other =>
        code := CodeNotAvailable;
      case _ =>
        code := Fill(Chunks(p), Args(p, c));
    }
  }

  // ---------------------------------------------------------------------
  // Properties

  /** mui's paper list sets bgcolor for a truthy background, borderRadius
      whenever the radius is not undefined (0 included), and border for a
      truthy border colour, and nothing else. */
  lemma PaperSxKeys(st: ModalStyles, k: string)
    ensures Has(PaperSx(st), k) <==>
      || (k == "bgcolor" && Truthy(st.backgroundColor))
      || (k == "borderRadius" && st.borderRadius != Undefined)
      || (k == "border" && Truthy(st.borderColor))
  {
    var e1 := SingleQuoted("bgcolor", Show(st.backgroundColor));
    var e2 := SingleQuoted("borderRadius", RadiusPx(st));
    var e3 := SingleQuoted("border", Border(st));
    var es1 := PushIf([], Truthy(st.backgroundColor), e1);
    var es2 := PushIf(es1, st.borderRadius != Undefined, e2);
    HasPushIf([], Truthy(st.backgroundColor), e1, k);
    HasPushIf(es1, st.borderRadius != Undefined, e2, k);
    HasPushIf(es2, Truthy(st.borderColor), e3, k);
  }

  /** mui writes `PaperProps` exactly when at least one of the background
      colour, the radius (not undefined) or the border colour gives an
      entry. */
  lemma MuiPaperProps(c: Config)
    ensures var st := c.styles;
      Args(Mui, c)[0] == "" <==> !Truthy(st.backgroundColor) && st.borderRadius == Undefined && !Truthy(st.borderColor)
  {
    var st := c.styles;
    var es := PaperSx(st);
    assert Args(Mui, c)[0] == ListFill(PaperPropsChunks, es, ",\n          ");
    PaperSxKeys(st, "bgcolor");
    PaperSxKeys(st, "borderRadius");
    PaperSxKeys(st, "border");
    if es == [] {
      assert !Has(es, "bgcolor") && !Has(es, "borderRadius") && !Has(es, "border");
    }
  }

  /** A truthy border colour gives mui's paper list the entry
      `border: '1px solid {colour}'`. */
  lemma PaperBorder(st: ModalStyles)
    requires Truthy(st.borderColor)
    ensures SingleQuoted("border", Border(st)) in PaperSx(st)
    ensures SingleQuoted("border", Border(st)).text == "border: '1px solid " + Show(st.borderColor) + "'"
  {
    var es1 := PushIf([], Truthy(st.backgroundColor), SingleQuoted("bgcolor", Show(st.backgroundColor)));
    var es2 := PushIf(es1, st.borderRadius != Undefined, SingleQuoted("borderRadius", RadiusPx(st)));
    assert PaperSx(st) == es2 + [SingleQuoted("border", Border(st))];
  }

  /** mui writes a truthy border colour as the entry
      `border: '1px solid {colour}'`. */
  lemma MuiBorder(c: Config)
    requires Truthy(c.styles.borderColor)
    ensures Contains(Code(Mui, c), "border: '1px solid " + Show(c.styles.borderColor) + "'")
  {
    var st := c.styles;
    var args := Args(Mui, c);
    PaperBorder(st);
    assert args[0] == ListFill(PaperPropsChunks, PaperSx(st), ",\n          ");
    EntryInFill(MuiChunks, args, 0, PaperSx(st), ",\n          ", SingleQuoted("border", Border(st)));
  }

  /** chakra's content props set the border colour and the 1px width
      together, for a truthy border colour. */
  lemma ContentPropsKeys(st: ModalStyles, k: string)
    ensures Has(ContentProps(st), k) <==>
      || (k == "bg" && Truthy(st.backgroundColor))
      || (k == "borderRadius" && st.borderRadius != Undefined)
      || ((k == "borderColor" || k == "borderWidth") && Truthy(st.borderColor))
    ensures Truthy(st.borderColor) ==>
      ContentProps(st)[|ContentProps(st)| - 2..] == [Attr("borderColor", Show(st.borderColor)), Attr("borderWidth", "1px")]
  {
    var e1 := Attr("bg", Show(st.backgroundColor));
    var e2 := Attr("borderRadius", RadiusPx(st));
    var e3 := Attr("borderColor", Show(st.borderColor));
    var e4 := Attr("borderWidth", "1px");
    var es1 := PushIf([], Truthy(st.backgroundColor), e1);
    var es2 := PushIf(es1, st.borderRadius != Undefined, e2);
    var es3 := PushIf(es2, Truthy(st.borderColor), e3);
    HasPushIf([], Truthy(st.backgroundColor), e1, k);
    HasPushIf(es1, st.borderRadius != Undefined, e2, k);
    HasPushIf(es2, Truthy(st.borderColor), e3, k);
    HasPushIf(es3, Truthy(st.borderColor), e4, k);
  }

  /** shadcn's content style sets the same properties as chakra's content
      props, in the same order, under the names of a style object. */
  lemma ContentStylesKeys(st: ModalStyles)
    ensures Keys(ContentStyles(st)) ==
      (if Truthy(st.backgroundColor) then ["backgroundColor"] else [])
      + (if st.borderRadius != Undefined then ["borderRadius"] else [])
      + (if Truthy(st.borderColor) then ["borderColor", "borderWidth"] else [])
    ensures |ContentStyles(st)| == |ContentProps(st)|
  {
    var es1 := PushIf([], Truthy(st.backgroundColor), SingleQuoted("backgroundColor", Show(st.backgroundColor)));
    var es2 := PushIf(es1, st.borderRadius != Undefined, SingleQuoted("borderRadius", RadiusPx(st)));
    var ks1 := if Truthy(st.backgroundColor) then ["backgroundColor"] else [];
    var ks2 := ks1 + (if st.borderRadius != Undefined then ["borderRadius"] else []);
    assert Keys(es1) == ks1;
    assert Keys(es2) == ks2;
  }

  /** The chakra backdrop carries a `bg` attribute exactly when the overlay
      colour is truthy. */
  lemma ChakraBackdrop(c: Config)
    ensures Args(Chakra, c)[0] == "" <==> !Truthy(c.styles.overlayColor)
    ensures Truthy(c.styles.overlayColor) ==> Contains(Code(Chakra, c), Show(c.styles.overlayColor))
  {
    if Truthy(c.styles.overlayColor) {
      FillContains(ChakraChunks, Args(Chakra, c), 0);
      ContainsTrans(Code(Chakra, c), Args(Chakra, c)[0], Show(c.styles.overlayColor));
    }
  }

  /** antd's `body` block is written only when a background colour or a
      radius is set, so a border colour alone is not written; inside it,
      each piece is present exactly when its value is. */
  lemma AntdBodyBlock(st: ModalStyles)
    ensures AntdBody(st) == "" <==> !Truthy(st.backgroundColor) && st.borderRadius == Undefined
    ensures var ps := AntdBodyPieces(st);
      && (ps[0] == "" <==> !Truthy(st.backgroundColor))
      && (ps[1] == "" <==> st.borderRadius == Undefined)
      && (ps[2] == "" <==> !Truthy(st.borderColor))
    ensures (Truthy(st.backgroundColor) || st.borderRadius != Undefined) && Truthy(st.borderColor) ==>
      Contains(AntdBody(st), Show(st.borderColor))
  {
    var ps := AntdBodyPieces(st);
    if Truthy(st.backgroundColor) || st.borderRadius != Undefined {
      FillContainsChunk(AntdBodyChunks, ps, 0);
      var i :| OccursAt(AntdBody(st), AntdBodyChunks[0], i);
      if Truthy(st.borderColor) {
        FillContains(AntdBodyChunks, ps, 2);
        ContainsTrans(AntdBody(st), ps[2], Show(st.borderColor));
      }
    }
  }

  /** antd's `mask` and `header` entries are present exactly when the overlay
      colour and the title colour are truthy, and carry them. */
  lemma AntdMaskAndHeader(c: Config)
    ensures var st := c.styles;
      && (Truthy(st.overlayColor) ==> Contains(Code(Antd, c), Show(st.overlayColor)))
      && (Truthy(st.titleColor) ==> Contains(StylesProp(st), Show(st.titleColor)) && Contains(Code(Antd, c), Show(st.titleColor)))
      && (Gated(AntdMaskChunks, st.overlayColor) == "" <==> !Truthy(st.overlayColor))
      && (Gated(AntdHeaderChunks, st.titleColor) == "" <==> !Truthy(st.titleColor))
  {
    var st := c.styles;
    var parts := [AntdBody(st), Gated(AntdMaskChunks, st.overlayColor), Gated(AntdHeaderChunks, st.titleColor)];
    if Truthy(st.overlayColor) {
      FillContains(StylesPropChunks, parts, 1);
      ContainsTrans(StylesProp(st), parts[1], Show(st.overlayColor));
      FillContains(AntdChunks, Args(Antd, c), 2);
      ContainsTrans(Code(Antd, c), StylesProp(st), Show(st.overlayColor));
    }
    if Truthy(st.titleColor) {
      FillContains(StylesPropChunks, parts, 2);
      ContainsTrans(StylesProp(st), parts[2], Show(st.titleColor));
      FillContains(AntdChunks, Args(Antd, c), 2);
      ContainsTrans(Code(Antd, c), StylesProp(st), Show(st.titleColor));
    }
  }

  /** Every supported provider writes the title and the content verbatim. */
  lemma TextsInCode(p: Provider, c: Config)
    requires p != Other
    ensures Contains(Code(p, c), Show(c.title))
    ensures Contains(Code(p, c), Show(c.content))
  {
    var args := Args(p, c);
    var t := match p case Mui => 2 case Chakra => 3 case Antd => 1 case Shadcn => 2 case _ => 5;
    var n := |Chunks(p)| - 1;
    assert args[t] == Show(c.title) && args[n - 1] == Show(c.content);
    FillContains(Chunks(p), args, t);
    FillContains(Chunks(p), args, n - 1);
  }
}
