/** The style handling `generateButtonCode` (src/lib/codegen/button.ts) and
    `generateIconButtonCode` (src/lib/codegen/iconButton.ts) have in common:
    both extract the same style values with the same defaults, map the
    variant the same way, make the same six conditional pushes onto their
    style lists, and build aceternity's border shorthand the same way. */
module ButtonStyles {
  import opened Js
  import opened Text
  import opened Providers

  /** `config.styles`; an absent `styles` is the record whose fields are all unset. */
  datatype Styles = Styles(
    borderRadius: Value, backgroundColor: Value, fontColor: Value, borderColor: Value,
    borderStyle: Value, borderWidth: Value, padding: Padding)

  /** The style values once extracted and defaulted. */
  datatype Normalized = Normalized(
    borderRadius: Value, backgroundColor: Value, fontColor: Value, borderColor: Value,
    borderStyle: Value, borderWidth: Value)

  /** `w !== undefined ? `${w}px` : undefined` */
  function WidthPx(w: Value): Value {
    if w != Undefined then Str(Show(w) + "px") else Undefined
  }

  /** Extraction of the style values (button.ts lines 5-10, iconButton.ts
      lines 5-10): a numeric radius gains "px" and any other radius passes
      through; the border style is 'solid' unless set to a truthy value, so
      it is never falsy; a set width gains "px"; the colours are taken as
      they are. */
  function Normalize(s: Styles): (n: Normalized)
    ensures s.borderRadius.Num? ==> n.borderRadius == Str(IntToString(s.borderRadius.n) + "px")
    ensures !s.borderRadius.Num? ==> n.borderRadius == s.borderRadius
    ensures Truthy(n.borderStyle)
    ensures n.borderStyle == (if Truthy(s.borderStyle) then s.borderStyle else Str("solid"))
    ensures s.borderWidth == Undefined <==> n.borderWidth == Undefined
    ensures s.borderWidth.Num? ==> n.borderWidth == Str(IntToString(s.borderWidth.n) + "px")
    ensures n.backgroundColor == s.backgroundColor && n.fontColor == s.fontColor && n.borderColor == s.borderColor
  {
    Normalized(
      PxOrPass(s.borderRadius), s.backgroundColor, s.fontColor, s.borderColor,
      Or(s.borderStyle, Str("solid")),
      WidthPx(s.borderWidth))
  }

  /** Unlike the radius normaliser, the width normaliser is not idempotent:
      applying it to its own output appends a second "px". */
  lemma WidthPxNotIdempotent()
    ensures WidthPx(Num(2)) == Str("2px")
    ensures WidthPx(WidthPx(Num(2))) == Str("2pxpx")
  {
  }

  /** The provider's word for the canonical `variant`. */
  function VariantToken(p: Provider, variant: Value): string {
    var contained := variant == Str("contained");
    match p
    case Mui => if contained then "contained" else "outlined"
    case Chakra => if contained then "solid" else "outline"
    case Antd => if contained then "primary" else "default"
    case Shadcn => if contained then "default" else "outline"
    case _ => ""
  }

  /** `contained` maps to contained / solid / primary / default and every
      other variant to outlined / outline / default / outline. */
  lemma VariantTokens(variant: Value)
    ensures variant == Str("contained") ==>
      [VariantToken(Mui, variant), VariantToken(Chakra, variant), VariantToken(Antd, variant), VariantToken(Shadcn, variant)]
      == ["contained", "solid", "primary", "default"]
    ensures variant != Str("contained") ==>
      [VariantToken(Mui, variant), VariantToken(Chakra, variant), VariantToken(Antd, variant), VariantToken(Shadcn, variant)]
      == ["outlined", "outline", "default", "outline"]
  {
  }

  // ---------------------------------------------------------------------
  // The six conditional pushes

  /** An entry quoted as mui's `sx` quotes it (single quotes) or as a
      `style` object does (double quotes). */
  function Quoted(single: bool, key: string, value: string): Entry {
    if single then SingleQuoted(key, value) else DoubleQuoted(key, value)
  }

  /** The key the background colour is set under: `bgcolor` in mui's `sx`,
      `backgroundColor` in a `style` object. */
  function BgKey(single: bool): string {
    if single then "bgcolor" else "backgroundColor"
  }

  /** The six conditional pushes every provider but aceternity makes onto a
      list, in source order: radius, background, colour, border colour and
      width when set, border style when it is not 'solid'. */
  function Overrides(seed: seq<Entry>, n: Normalized, single: bool): (es: seq<Entry>)
    ensures |seed| <= |es| <= |seed| + 6 && es[..|seed|] == seed
  {
    var es1 := PushIf(seed, n.borderRadius != Undefined, Quoted(single, "borderRadius", Show(n.borderRadius)));
    var es2 := PushIf(es1, n.backgroundColor != Undefined, Quoted(single, BgKey(single), Show(n.backgroundColor)));
    var es3 := PushIf(es2, n.fontColor != Undefined, Quoted(single, "color", Show(n.fontColor)));
    var es4 := PushIf(es3, n.borderColor != Undefined, Quoted(single, "borderColor", Show(n.borderColor)));
    var es5 := PushIf(es4, n.borderWidth != Undefined, Quoted(single, "borderWidth", Show(n.borderWidth)));
    PushIf(es5, n.borderStyle != Str("solid"), Quoted(single, "borderStyle", Show(n.borderStyle)))
  }

  /** After the overrides the list sets property k exactly when the seed did,
      or k is one of the six override properties and the field behind it is
      set (the border style: differs from 'solid'); nothing else is added. */
  lemma OverridesKeys(seed: seq<Entry>, n: Normalized, single: bool, k: string)
    ensures Has(Overrides(seed, n, single), k) <==>
      || Has(seed, k)
      || (k == "borderRadius" && n.borderRadius != Undefined)
      || (k == BgKey(single) && n.backgroundColor != Undefined)
      || (k == "color" && n.fontColor != Undefined)
      || (k == "borderColor" && n.borderColor != Undefined)
      || (k == "borderWidth" && n.borderWidth != Undefined)
      || (k == "borderStyle" && n.borderStyle != Str("solid"))
  {
    var e1 := Quoted(single, "borderRadius", Show(n.borderRadius));
    var e2 := Quoted(single, BgKey(single), Show(n.backgroundColor));
    var e3 := Quoted(single, "color", Show(n.fontColor));
    var e4 := Quoted(single, "borderColor", Show(n.borderColor));
    var e5 := Quoted(single, "borderWidth", Show(n.borderWidth));
    var e6 := Quoted(single, "borderStyle", Show(n.borderStyle));
    var es1 := PushIf(seed, n.borderRadius != Undefined, e1);
    var es2 := PushIf(es1, n.backgroundColor != Undefined, e2);
    var es3 := PushIf(es2, n.fontColor != Undefined, e3);
    var es4 := PushIf(es3, n.borderColor != Undefined, e4);
    var es5 := PushIf(es4, n.borderWidth != Undefined, e5);
    HasPushIf(seed, n.borderRadius != Undefined, e1, k);
    HasPushIf(es1, n.backgroundColor != Undefined, e2, k);
    HasPushIf(es2, n.fontColor != Undefined, e3, k);
    HasPushIf(es3, n.borderColor != Undefined, e4, k);
    HasPushIf(es4, n.borderWidth != Undefined, e5, k);
    HasPushIf(es5, n.borderStyle != Str("solid"), e6, k);
  }

  /** The overrides add nothing exactly when no field is set and the border
      style is 'solid'. */
  lemma OverridesNone(seed: seq<Entry>, n: Normalized, single: bool)
    ensures |Overrides(seed, n, single)| == |seed| <==>
      && n.borderRadius == Undefined && n.backgroundColor == Undefined && n.fontColor == Undefined
      && n.borderColor == Undefined && n.borderWidth == Undefined && n.borderStyle == Str("solid")
  {
  }

  /** A set radius is pushed with its normalised text, so a numeric radius r
      is written "r" + "px". */
  lemma OverridesRadius(seed: seq<Entry>, s: Styles, single: bool)
    ensures s.borderRadius.Num? ==>
      Quoted(single, "borderRadius", IntToString(s.borderRadius.n) + "px") in Overrides(seed, Normalize(s), single)
  {
  }

  /** The six pushes onto a list that already holds `fixed`. */
  method PushOverrides(fixed: seq<Entry>, n: Normalized, single: bool) returns (styleProps: seq<Entry>)
    ensures styleProps == Overrides(fixed, n, single)
  {
    styleProps := fixed;
    if n.borderRadius != Undefined {
      styleProps := styleProps + [Quoted(single, "borderRadius", Show(n.borderRadius))];
    }
    if n.backgroundColor != Undefined {
      styleProps := styleProps + [Quoted(single, BgKey(single), Show(n.backgroundColor))];
    }
    if n.fontColor != Undefined {
      styleProps := styleProps + [Quoted(single, "color", Show(n.fontColor))];
    }
    if n.borderColor != Undefined {
      styleProps := styleProps + [Quoted(single, "borderColor", Show(n.borderColor))];
    }
    if n.borderWidth != Undefined {
      styleProps := styleProps + [Quoted(single, "borderWidth", Show(n.borderWidth))];
    }
    if n.borderStyle != Str("solid") {
      styleProps := styleProps + [Quoted(single, "borderStyle", Show(n.borderStyle))];
    }
  }

  // ---------------------------------------------------------------------
  // aceternity: colours and the border shorthand

  /** The parts of the aceternity `border` shorthand, as the texts `join`
      makes of them: the width or '1px', the style if truthy, the colour if
      set. */
  function BorderParts(n: Normalized): seq<string> {
    [if n.borderWidth != Undefined then JoinText(n.borderWidth) else "1px"]
    + (if Truthy(n.borderStyle) then [JoinText(n.borderStyle)] else [])
    + (if n.borderColor != Undefined then [JoinText(n.borderColor)] else [])
  }

  /** The aceternity border is the width (default "1px"), then the style
      (default 'solid'), then the colour only if set, joined by single spaces. */
  lemma BorderText(s: Styles)
    ensures var n := Normalize(s);
      var w := if s.borderWidth != Undefined then Show(s.borderWidth) + "px" else "1px";
      var st := Show(n.borderStyle);
      Join(BorderParts(n), " ") ==
        if s.borderColor != Undefined then w + " " + st + " " + JoinText(s.borderColor) else w + " " + st
  {
    var n := Normalize(s);
    var bp := BorderParts(n);
    assert Truthy(n.borderStyle);
    if n.borderColor != Undefined {
      assert bp[1..][1..] == [bp[2]];
      assert Join(bp[1..], " ") == bp[1] + " " + bp[2];
    } else {
      assert bp == [bp[0], bp[1]];
      assert Join(bp, " ") == bp[0] + " " + bp[1];
    }
  }

  /** aceternity's pushes after its fixed entries: radius, background and
      colour when set, then the border shorthand whenever it has a part. */
  function ColoursAndBorder(seed: seq<Entry>, n: Normalized): (es: seq<Entry>)
    ensures |es| > |seed| && es[..|seed|] == seed
    ensures es[|es| - 1] == DoubleQuoted("border", Join(BorderParts(n), " "))
  {
    var es1 := PushIf(seed, n.borderRadius != Undefined, DoubleQuoted("borderRadius", Show(n.borderRadius)));
    var es2 := PushIf(es1, n.backgroundColor != Undefined, DoubleQuoted("backgroundColor", Show(n.backgroundColor)));
    var es3 := PushIf(es2, n.fontColor != Undefined, DoubleQuoted("color", Show(n.fontColor)));
    PushIf(es3, |BorderParts(n)| > 0, DoubleQuoted("border", Join(BorderParts(n), " ")))
  }

  /** The aceternity list sets property k exactly when the seed does, or k is
      the border (always), or the radius, background or colour and that field
      is set; border colour, width and style are never separate entries. */
  lemma ColoursAndBorderKeys(seed: seq<Entry>, n: Normalized, k: string)
    ensures Has(ColoursAndBorder(seed, n), k) <==>
      || Has(seed, k) || k == "border"
      || (k == "borderRadius" && n.borderRadius != Undefined)
      || (k == "backgroundColor" && n.backgroundColor != Undefined)
      || (k == "color" && n.fontColor != Undefined)
  {
    var e1 := DoubleQuoted("borderRadius", Show(n.borderRadius));
    var e2 := DoubleQuoted("backgroundColor", Show(n.backgroundColor));
    var e3 := DoubleQuoted("color", Show(n.fontColor));
    var e4 := DoubleQuoted("border", Join(BorderParts(n), " "));
    var es1 := PushIf(seed, n.borderRadius != Undefined, e1);
    var es2 := PushIf(es1, n.backgroundColor != Undefined, e2);
    var es3 := PushIf(es2, n.fontColor != Undefined, e3);
    HasPushIf(seed, n.borderRadius != Undefined, e1, k);
    HasPushIf(es1, n.backgroundColor != Undefined, e2, k);
    HasPushIf(es2, n.fontColor != Undefined, e3, k);
    HasPushIf(es3, |BorderParts(n)| > 0, e4, k);
  }

  /** aceternity's pushes, border parts included, onto a list that already
      holds `fixed`. */
  method PushColoursAndBorder(fixed: seq<Entry>, n: Normalized) returns (styleProps: seq<Entry>)
    ensures styleProps == ColoursAndBorder(fixed, n)
  {
    styleProps := fixed;
    if n.borderRadius != Undefined { styleProps := styleProps + [DoubleQuoted("borderRadius", Show(n.borderRadius))]; }
    if n.backgroundColor != Undefined { styleProps := styleProps + [DoubleQuoted("backgroundColor", Show(n.backgroundColor))]; }
    if n.fontColor != Undefined { styleProps := styleProps + [DoubleQuoted("color", Show(n.fontColor))]; }
    var borderParts: seq<string> := [];
    if n.borderWidth != Undefined {
      borderParts := borderParts + [JoinText(n.borderWidth)];
    } else {
      borderParts := borderParts + ["1px"];
    }
    if Truthy(n.borderStyle) { borderParts := borderParts + [JoinText(n.borderStyle)]; }
    if n.borderColor != Undefined { borderParts := borderParts + [JoinText(n.borderColor)]; }
    assert borderParts == BorderParts(n);
    if |borderParts| > 0 { styleProps := styleProps + [DoubleQuoted("border", Join(borderParts, " "))]; }
  }

  /** The separator the style lists are joined with. */
  const StyleSep := ",\n        "
}
