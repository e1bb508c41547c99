# UI component code generators, modelled in Dafny

The repository is a gallery of UI widgets (button, icon button, input,
select, card, modal, tabs, accordion, radio group, switch, progress bar)
that can be rendered with five component libraries ("providers"): MUI,
Chakra UI, Ant Design, shadcn/ui and Aceternity UI. For every widget a
generator `generateXCode(provider, config)` in `src/lib/codegen/` returns
the source code a user would paste to get the same widget from the chosen
library. This project models those generators and proves what they promise
about the text they emit.

Every generator does the same four things, and the model follows them:

1. it extracts and normalises the style values of the configuration (a
   numeric radius becomes "Npx", an unset value stays unset or takes a
   default);
2. it maps the canonical variant and size tokens to the provider's own
   vocabulary;
3. it builds lists of style entries by conditional `push`, and joins them;
4. it fills a template literal, or returns a fixed comment for a provider
   it has no branch for.

## Layout

- `js.dfy` (module `Js`): the JavaScript values a configuration holds and
  the operations the generators apply to them: `String(v)` as template
  interpolation renders it, truthiness, `||`, `??`, the radius normaliser,
  decimal rendering of integers, and the two places where arithmetic turns
  a value into numeric text (`padding * 0.25` and
  `Math.round((value / max) * 100)`).
- `text.dfy` (module `Text`): template literals (`Fill`: literal chunks
  with the interpolated texts between them), `Array.prototype.map` and
  `join`, style entries and conditional pushes, and substring containment.
- `json.dfy` (module `Json`): `JSON.stringify` for the option lists the
  select and radio generators serialise, with a decoder for string bodies
  that proves escaping loses nothing.
- `providers.dfy` (module `Providers`): the provider tags, the size tiers
  and the comments returned for an unsupported provider.
- `button_styles.dfy`, `button.dfy`, `icon_button.dfy`, `input.dfy`,
  `select.dfy`, `card.dfy`, `modal.dfy`, `tabs.dfy`, `accordion.dfy`,
  `radio.dfy`, `switch.dfy`, `progress.dfy`: one module per generator.
  Each has a pure specification `Code(p, c)`. Where the source builds
  style lists by successive `push`es (button, icon button, input, card,
  modal, tabs, accordion, progress), a method `Generate(p, c)` performs
  those pushes and is proved to return `Code(p, c)`; select, radio and
  switch only compute expressions and stay functions. The literal text of
  every template is kept verbatim as a constant list of chunks.

A configuration field is a `Js.Value`; an absent `styles` object is the
style record whose fields are all `Undefined` (`styles?.x` is then
`undefined` for every `x`). Each generator's properties are stated about
`Code`, and so hold of `Generate` too.

## Model

| member | source | states |
|---|---|---|
| Providers.ProviderOf | src/lib/codegen/button.ts:14-186 | a provider string selects a branch by exact comparison; every string other than the five tags falls to `default` |
| Providers.TagRoundTrip | src/lib/codegen/button.ts:14-147 | each of the five providers is selected by exactly its own tag |
| Providers.TierOf | src/lib/codegen/button.ts:48 | the size ternaries select small exactly for 'small', large exactly for 'large', and the middle tier for everything else |
| Js.PxOrPassSpec | src/lib/codegen/button.ts:5 | a normalised radius is never a number: a number n becomes a string ending in "px" whose digits read back as n; unset stays unset; normalising twice equals normalising once |
| Js.NatToString | src/lib/codegen/button.ts:5 | a natural number is interpolated as a non-empty string of decimal digits with no leading zero |
| Js.IntToStringRoundTrip | src/lib/codegen/button.ts:5 | the decimal text an integer is interpolated as reads back as that integer |
| Js.IntToStringInjective | src/lib/codegen/button.ts:5 | distinct integers are interpolated as distinct texts |
| Js.QuarterText | src/lib/codegen/tabs.ts:15 | `padding * 0.25` is written "NaN" for a non-number, as the plain quotient for a multiple of 4, and otherwise with a fraction ending in 5 |
| Js.RoundDiv | src/lib/codegen/progress.ts:69 | `Math.round(a / b)` is the integer nearest to a / b, halves rounded up |
| Js.PercentText | src/lib/codegen/progress.ts:69 | the percentage is "NaN" when either operand is not a number, and "Infinity", "-Infinity" or "NaN" for a zero maximum |
| Js.PercentInRange | src/lib/codegen/progress.ts:69 | a value between 0 and a positive maximum gives a percentage between 0 and 100 |
| Text.FillContains | src/lib/codegen/button.ts:32-43 | every interpolated text occurs verbatim in a filled template |
| Text.FillContainsFollowed | src/lib/codegen/button.ts:32-43 | every interpolated text occurs in a filled template followed by the literal chunk after it |
| Text.FillContainsChunk | src/lib/codegen/button.ts:32-43 | every literal chunk of a template occurs verbatim in the filled template |
| Text.Each | src/lib/codegen/radio.ts:20-24 | `list.map(f)` has one fragment per element, the i-th being f of the i-th element |
| Text.JoinEachAppend | src/lib/codegen/radio.ts:20-24 | mapping and joining a list with one more element appends a separator and that element's fragment and changes nothing before it |
| Text.JoinContains | src/lib/codegen/button.ts:72 | every element of a joined list occurs verbatim in the joined text |
| Text.JoinAppend | src/lib/codegen/button.ts:72 | joining a list with one more element appends a separator and the element to the joined text |
| Text.JoinLength | src/lib/codegen/button.ts:72 | joining n entries adds exactly n - 1 separators |
| Text.Gated | src/lib/codegen/radio.ts:22 | a `v ? \`...${v}...\` : ''` fragment is empty exactly when v is falsy, and otherwise holds v |
| Text.HasPushIf | src/lib/codegen/button.ts:21 | after `if (c) list.push(e)` the list sets a property exactly when it did before or the push happened with an entry for it |
| Text.JoinEntriesContains | src/lib/codegen/button.ts:72 | every entry of a style list occurs verbatim in the joined list |
| Text.ListFill | src/lib/codegen/tabs.ts:123 | a `list.length > 0 ? \`...${list.join(sep)}...\` : ''` fragment is empty exactly when the list is, and otherwise holds the joined list |
| Text.EntryInFill | src/lib/codegen/card.ts:26-55 | an entry of a list whose join is interpolated occurs verbatim in the filled template |
| Json.EscapeChar | src/lib/codegen/radio.ts:44 | a character is written with a leading backslash exactly when it is a quote, a backslash or a control character, and as itself otherwise |
| Json.UnescapeOneEscapeChar | src/lib/codegen/radio.ts:44 | reading back an escaped character yields that character and consumes exactly its escape |
| Json.UnescapeEscapeString | src/lib/codegen/radio.ts:44 | `JSON.stringify` loses nothing of a string: decoding its escaped body gives the string back |
| Json.QuoteInjective | src/lib/codegen/radio.ts:44 | two strings are written as the same JSON string exactly when they are equal |
| Json.StringifyItemsContains | src/lib/codegen/radio.ts:44 | every element of an array is written, whole, between the array's commas |
| Json.StringifyArrayContains | src/lib/codegen/radio.ts:44 | every element of an array occurs, whole, in the array's JSON text |
| ButtonStyles.Normalize | src/lib/codegen/button.ts:5-10 | a numeric radius gains "px" and other radii pass through; the border style is 'solid' unless truthy, so never falsy; a set width gains "px"; the colours are taken as they are |
| ButtonStyles.WidthPxNotIdempotent | src/lib/codegen/button.ts:10 | the width normaliser is not idempotent: 2 becomes "2px" and "2px" becomes "2pxpx" |
| ButtonStyles.VariantTokens | src/lib/codegen/button.ts:16-115 | `contained` maps to contained / solid / primary / default, any other variant to outlined / outline / default / outline |
| ButtonStyles.Overrides | src/lib/codegen/button.ts:57-62 | the conditional pushes only append: the seeded entries stay first, and at most six are added |
| ButtonStyles.OverridesKeys | src/lib/codegen/button.ts:57-62 | the list sets a property exactly when the seed does, or it is one of the six overrides and its field is set (the border style: not 'solid') |
| ButtonStyles.OverridesNone | src/lib/codegen/button.ts:21-26 | the overrides add nothing exactly when no field is set and the border style is 'solid' |
| ButtonStyles.OverridesRadius | src/lib/codegen/button.ts:21 | a numeric radius r is pushed as "r" + "px" |
| ButtonStyles.PushOverrides | src/lib/codegen/button.ts:90-95 | the six pushes build exactly the override list of the specification |
| ButtonStyles.BorderText | src/lib/codegen/button.ts:160-169 | the aceternity border is the width (default 1px), the style (default 'solid'), and the colour only if set, joined by single spaces |
| ButtonStyles.ColoursAndBorder | src/lib/codegen/button.ts:156-169 | aceternity's pushes only append, and the last entry is always the border shorthand |
| ButtonStyles.ColoursAndBorderKeys | src/lib/codegen/button.ts:156-169 | aceternity's list sets the border always, radius, background and colour exactly when set, and never separate border colour, width or style entries |
| ButtonStyles.PushColoursAndBorder | src/lib/codegen/button.ts:156-169 | aceternity's pushes, border parts included, build exactly its specified list |
| Button.Px | src/lib/codegen/button.ts:11 | the horizontal padding is the configured px unless null or unset, and 4 without padding; it is never null or unset |
| Button.Py | src/lib/codegen/button.ts:12 | the vertical padding is the configured py unless null or unset, and 1 without padding; it is never null or unset |
| Button.SizeTokens | src/lib/codegen/button.ts:38-116 | mui passes the size verbatim, or 'medium' when unset; chakra, antd and shadcn map small and large to their tokens and everything else to md / middle / default |
| Button.MuiSxBlock | src/lib/codegen/button.ts:28-30 | the `sx` attribute is empty exactly when the sx list is, and otherwise holds the joined list |
| Button.Args | src/lib/codegen/button.ts:64-78 | every branch interpolates the label last, and every branch but aceternity's starts with its variant and size tokens |
| Button.Code | src/lib/codegen/button.ts:185-186 | an unknown provider returns exactly "// Provider code not available" |
| Button.Generate | src/lib/codegen/button.ts:1-188 | the pushes and the template give exactly the specified code for every provider and configuration |
| Button.MuiSxEntries | src/lib/codegen/button.ts:19-30 | mui: each sx entry is present exactly when its field is set, and the `sx` block is absent exactly when no field is set |
| Button.ChakraPaddingFirst | src/lib/codegen/button.ts:50-55 | chakra's list starts with paddingLeft, paddingRight, paddingTop, paddingBottom, which are 4px, 4px, 1px, 1px when padding is unset |
| Button.AceternityPaddingSpec | src/lib/codegen/button.ts:148 | aceternity padding is '4px 12px' for small, '12px 32px' for large and "{py}px {px}px" otherwise (1px 4px when unset) |
| Button.AceternityKeys | src/lib/codegen/button.ts:151-169 | the aceternity list ends with the border shorthand and sets padding, font size and border always, and radius, background and colour exactly when set |
| Button.RadiusEntry | src/lib/codegen/button.ts:5-156 | in every provider's list a radius entry is present exactly when the radius is set, and a numeric radius n is written "n" + "px" |
| Button.LabelInCode | src/lib/codegen/button.ts:32-182 | every supported provider interpolates the label verbatim |
| IconButton.DisplayLabel | src/lib/codegen/iconButton.ts:11 | the display label is the label when truthy and 'Search' otherwise |
| IconButton.SizeTokens | src/lib/codegen/iconButton.ts:42-240 | the size maps of mui, chakra, antd, shadcn and aceternity, tier by tier |
| IconButton.Block | src/lib/codegen/iconButton.ts:42-45 | a style attribute is empty exactly when its list is, and otherwise holds the joined list |
| IconButton.Args | src/lib/codegen/iconButton.ts:35-66 | every branch interpolates the display label last |
| IconButton.Code | src/lib/codegen/iconButton.ts:311-312 | an unknown provider returns exactly "// Provider code not available" |
| IconButton.Generate | src/lib/codegen/iconButton.ts:1-314 | the pushes onto both lists and the template give exactly the specified code for every provider and configuration |
| IconButton.LabelInCode | src/lib/codegen/iconButton.ts:11-305 | every supported provider shows the display label, which is 'Search' when the label is empty or absent |
| IconButton.MuiSxBlocks | src/lib/codegen/iconButton.ts:18-60 | mui's two buttons carry the same `sx` block, absent exactly when no field is set and the border style is 'solid' |
| IconButton.ChakraTextFirst | src/lib/codegen/iconButton.ts:80-84 | chakra's icon-plus-text list starts with display, alignItems and gap |
| IconButton.AceternityIconSquare | src/lib/codegen/iconButton.ts:240-248 | aceternity's icon-only button starts with width and height, both 32px, 48px or 40px by size |
| IconButton.ChakraSeedInert | src/lib/codegen/iconButton.ts:80-90 | a property outside the chakra text seed is set onto that seed exactly when the overrides alone set it |
| IconButton.AceternitySeedsInert | src/lib/codegen/iconButton.ts:242-277 | outside their seeds, aceternity's two lists set the same properties |
| IconButton.ListsAgree | src/lib/codegen/iconButton.ts:18-277 | in every branch both buttons set the same optional properties: outside the seeds, a property is in the icon-only list exactly when it is in the icon-plus-text list |
| Input.RadiusTruthiness | src/lib/codegen/input.ts:4-16 | a numeric radius, 0 included, becomes a truthy text ("0px" for 0), while an empty string radius stays falsy and is not pushed |
| Input.VariantTokens | src/lib/codegen/input.ts:12-124 | filled maps to filled / filled / borderless, standard to standard / flushed / outlined, anything else to outlined / outline / outlined |
| Input.SizeTokens | src/lib/codegen/input.ts:13-125 | mui has small and medium only (large folds into medium); chakra and antd map the three tiers |
| Input.MuiSx | src/lib/codegen/input.ts:15-21 | mui's conditional pushes add at most six entries |
| Input.StyleProps | src/lib/codegen/input.ts:84-88 | the shared style list has at most four entries |
| Input.PushMuiSx | src/lib/codegen/input.ts:15-21 | mui's six pushes build exactly its specified `sx` list |
| Input.PushStyleProps | src/lib/codegen/input.ts:127-131 | the four pushes of chakra, antd, shadcn and aceternity build exactly the specified style list |
| Input.StyleAttr | src/lib/codegen/input.ts:23 | the `sx` / `style` attribute is empty exactly when its list is, and otherwise holds the list joined by ", " |
| Input.LabelProps | src/lib/codegen/input.ts:24-39 | the `InputLabelProps` attribute is empty exactly when the font colour is falsy |
| Input.AntdIconColor | src/lib/codegen/input.ts:149 | antd's icons take the font colour when set and '#9ca3af' otherwise |
| Input.InlinePiecesAreEntries | src/lib/codegen/input.ts:198 | each inline style fragment of shadcn's icon inputs is ", " followed by the entry the style list pushes for the same value, under the same condition |
| Input.InlineMatchesList | src/lib/codegen/input.ts:169-207 | the inline styles of shadcn's icon inputs carry exactly the entries of its plain input's style list, in the same order |
| Input.Code | src/lib/codegen/input.ts:273-274 | an unknown provider returns exactly "// Code generation not available for this provider" |
| Input.Generate | src/lib/codegen/input.ts:1-276 | the pushes and the template give exactly the specified code for every provider and configuration |
| Input.StylePropsKeys | src/lib/codegen/input.ts:169-173 | the shared style list sets a property exactly when its value is truthy (a radius 0, written "0px", is kept) |
| Input.MuiSxKeys | src/lib/codegen/input.ts:16-21 | mui's `sx` sets a property exactly when its value is truthy; the font colour sets both `color` and `'& input'` |
| Input.MuiLabelProps | src/lib/codegen/input.ts:24-66 | the font colour drives the `InputLabelProps` attribute of all three mui inputs, which is empty without it |
| Input.ChakraFocus | src/lib/codegen/input.ts:100-113 | chakra's `_focus` attribute, on all three inputs, is present exactly when the focus colour is truthy, and then carries it |
| Input.AntdIconColors | src/lib/codegen/input.ts:149-158 | both antd icons are coloured with the font colour when truthy and '#9ca3af' otherwise |
| Input.LabelInCode | src/lib/codegen/input.ts:34-260 | every supported provider shows the label, and every one but mui the placeholder, verbatim |
| Select.NormalizeOption | src/lib/codegen/select.ts:7 | a string option s becomes `{value: s, label: s}`; any other option is kept as it is |
| Select.NormalizeOptions | src/lib/codegen/select.ts:6-8 | normalising keeps the number and order of the options, turning each string into its object and keeping everything else |
| Select.NormalizeOptionsIdempotent | src/lib/codegen/select.ts:6-8 | normalising twice is normalising once |
| Select.RadiusText | src/lib/codegen/select.ts:4 | the radius written before "px" is the configured one when truthy, and 8 for every falsy radius, 0 included |
| Select.BorderColor | src/lib/codegen/select.ts:29 | the border colour is the border colour when set, else the text colour, else the provider's fallback |
| Select.ColorOr | src/lib/codegen/select.ts:172 | `color \|\| fallback` is the colour when truthy and the fallback otherwise |
| Select.PlaceholderText | src/lib/codegen/select.ts:137 | the placeholder is 'Select an option' when empty or unset, and the placeholder otherwise |
| Select.SizeTokens | src/lib/codegen/select.ts:19-138 | mui has small and medium only; antd maps the three tiers to small / large / middle |
| Select.Args | src/lib/codegen/select.ts:16-196 | every branch starts its state at the configured value |
| Select.Code | src/lib/codegen/select.ts:242-243 | an unknown provider returns exactly "// Provider not supported" |
| Select.RadiusInCode | src/lib/codegen/select.ts:4-30 | every branch writes the radius: the configured one when truthy, 8 otherwise |
| Select.BorderColorInCode | src/lib/codegen/select.ts:29-208 | every branch writes the border colour, the text colour, or its own fallback, in that order of preference |
| Select.BorderFallbacks | src/lib/codegen/select.ts:29-208 | the fallback border colours are #ccc, #E2E8F0, #d9d9d9, #e2e8f0 and #3b82f6 |
| Select.OptionsInCode | src/lib/codegen/select.ts:34-198 | every branch writes the serialised normalised options |
| Select.PlaceholderInCode | src/lib/codegen/select.ts:77-213 | every branch but mui's writes the placeholder, or 'Select an option' when it is empty |
| Select.MuiLabel | src/lib/codegen/select.ts:20-24 | mui's `InputLabel` element and `label=` attribute are present exactly when the label is truthy, and then show it |
| Card.BorderWidth | src/lib/codegen/card.ts:6 | only an unset or null border width defaults to 1; 0 and the empty string are kept |
| Card.BorderShorthandDefault | src/lib/codegen/card.ts:6-22 | the border shorthand writes an unset width as 1px and a width of 0 as 0px |
| Card.MuiShadow | src/lib/codegen/card.ts:24 | mui writes the shadow 'none' exactly when the shadow is 'none', and one fixed shadow for any other |
| Card.PushMuiSx | src/lib/codegen/card.ts:19-24 | mui's pushes build exactly its specified `sx` list |
| Card.PushChakraProps | src/lib/codegen/card.ts:52-59 | chakra's pushes build exactly its specified prop list |
| Card.PushAntdStyle | src/lib/codegen/card.ts:90-100 | antd's pushes build exactly its specified card and body style lists |
| Card.PushShadcnStyle | src/lib/codegen/card.ts:125-131 | shadcn's pushes build exactly its specified style list |
| Card.PushAceternityStyle | src/lib/codegen/card.ts:164-175 | aceternity's pushes, in both arms of the background choice, build exactly its specified container list |
| Card.PaddingAttr | src/lib/codegen/card.ts:38 | the padding attribute is empty without a padding object, and otherwise holds both py and px |
| Card.BodyAttr | src/lib/codegen/card.ts:113-114 | antd's `styles` attribute is empty exactly when the body style list is, and otherwise holds the joined list |
| Card.Code | src/lib/codegen/card.ts:208-209 | an unknown provider returns exactly "// Provider code not available" |
| Card.Generate | src/lib/codegen/card.ts:1-211 | the pushes and the template give exactly the specified code for every provider and configuration |
| Card.MuiSxGroups | src/lib/codegen/card.ts:19-24 | mui's list is the maxWidth seed followed by each conditional entry, in source order |
| Card.AntdStyleGroups | src/lib/codegen/card.ts:90-97 | antd's list is the width seed, the background, then for a truthy border colour exactly three entries (colour, style 'solid', width), then the radius |
| Card.ShadcnStyleGroups | src/lib/codegen/card.ts:125-131 | shadcn's list is the background, then for a truthy border colour the colour and the width, then the radius |
| Card.AceternityStyleGroups | src/lib/codegen/card.ts:164-175 | aceternity's list is the background colour or else the two picture entries, then the border and the radius |
| Card.SeedsFirst | src/lib/codegen/card.ts:19-90 | the seeds stay first: `maxWidth: 345` for mui, `maxW="sm"` for chakra, `width: 300` for antd |
| Card.MuiSeedInCode | src/lib/codegen/card.ts:19 | mui's code always contains `maxWidth: 345` |
| Card.ChakraSeedInCode | src/lib/codegen/card.ts:52 | chakra's code always contains `maxW="sm"` |
| Card.AntdSeedInCode | src/lib/codegen/card.ts:90 | antd's code always contains `width: 300` |
| Card.MuiSxKeys | src/lib/codegen/card.ts:19-24 | mui's `sx` sets maxWidth always, bgcolor, border and boxShadow for a truthy value, and borderRadius whenever the radius is not undefined (0 included) |
| Card.ChakraPropsKeys | src/lib/codegen/card.ts:52-59 | chakra sets maxW always, bg and boxShadow for a truthy value, borderColor and borderWidth together for a truthy border colour, and borderRadius whenever the radius is not undefined |
| Card.AceternityStyleKeys | src/lib/codegen/card.ts:164-175 | aceternity sets backgroundColor exactly for a truthy colour and otherwise backgroundImage and backgroundSize; border for a truthy border colour; borderRadius when the radius is not undefined |
| Card.BorderEntry | src/lib/codegen/card.ts:22 | a truthy border colour gives mui and aceternity a border entry "{width}px solid {colour}", the width defaulting to 1 only when unset or null |
| Card.MuiShadowEntry | src/lib/codegen/card.ts:24 | mui's shadow entry: 'none' stays 'none', any other truthy shadow becomes the fixed shadow, and a falsy one is left out |
| Card.ImageInCode | src/lib/codegen/card.ts:33-35 | every branch but aceternity's shows the picture unless `image` is the boolean false (an unset `image` shows it) |
| Card.BackgroundImageUrl | src/lib/codegen/card.ts:168 | aceternity's background-image entry carries the picture's address |
| Card.AceternityBackground | src/lib/codegen/card.ts:165-169 | aceternity shows the picture as its background exactly when no background colour is set, and the colour first otherwise |
| Card.PaddingInCode | src/lib/codegen/card.ts:38-78 | mui and chakra write the padding attribute exactly when a padding object is set, with both of its values |
| Card.PaddingEntryValues | src/lib/codegen/card.ts:100 | the padding entry `padding: '{py}px {px}px'` shows both values |
| Card.AntdPaddingInCode | src/lib/codegen/card.ts:99-114 | antd writes its body style attribute exactly when a padding object is set, holding both values |
| Card.TextsInCode | src/lib/codegen/card.ts:36-199 | every supported provider shows the title and the description verbatim |
| Modal.PushMuiLists | src/lib/codegen/modal.ts:13-22 | mui's pushes build exactly its paper, title and content `sx` lists |
| Modal.PushContentProps | src/lib/codegen/modal.ts:68-74 | chakra's pushes build exactly its content prop list |
| Modal.PushContentStyles | src/lib/codegen/modal.ts:169-176 | shadcn's pushes build exactly its content style list |
| Modal.Code | src/lib/codegen/modal.ts:276-277 | an unknown provider returns exactly "// Provider code not available" |
| Modal.Generate | src/lib/codegen/modal.ts:1-279 | the pushes and the template give exactly the specified code for every provider and configuration |
| Modal.PaperSxKeys | src/lib/codegen/modal.ts:13-16 | mui's paper list sets bgcolor for a truthy background, borderRadius whenever the radius is not undefined (0 included), border for a truthy border colour, and nothing else |
| Modal.MuiPaperProps | src/lib/codegen/modal.ts:24-26 | mui writes `PaperProps` exactly when at least one paper entry is present |
| Modal.PaperBorder | src/lib/codegen/modal.ts:16 | a truthy border colour gives the paper entry `border: '1px solid {colour}'`: the width is fixed at 1px |
| Modal.MuiBorder | src/lib/codegen/modal.ts:16-25 | mui's code holds `border: '1px solid {colour}'` for a truthy border colour |
| Modal.ContentPropsKeys | src/lib/codegen/modal.ts:68-74 | chakra's content props set bg, borderRadius (not undefined) and, together and last, borderColor and a 1px borderWidth for a truthy border colour, and nothing else |
| Modal.ContentStylesKeys | src/lib/codegen/modal.ts:169-176 | shadcn's content style sets the same properties as chakra's, in the same order, under style-object names |
| Modal.ChakraBackdrop | src/lib/codegen/modal.ts:91 | chakra's backdrop carries a `bg` attribute exactly when the overlay colour is truthy, holding it |
| Modal.AntdBodyBlock | src/lib/codegen/modal.ts:120-125 | antd's `body` block is written only for a background colour or a radius, so a border colour alone is dropped; each of its pieces is present exactly when its value is |
| Modal.AntdMaskAndHeader | src/lib/codegen/modal.ts:126-127 | antd's `mask` and `header` entries are present exactly when the overlay and title colours are truthy, and both colours then reach the code |
| Modal.TextsInCode | src/lib/codegen/modal.ts:51-256 | every supported provider shows the title and the content verbatim |
| Tabs.PushMuiLists | src/lib/codegen/tabs.ts:12-19 | mui's pushes build exactly its root and per-tab `sx` lists |
| Tabs.PushChakraLists | src/lib/codegen/tabs.ts:87-100 | chakra's pushes build exactly its root, list and trigger prop lists |
| Tabs.PushTabBarStyle | src/lib/codegen/tabs.ts:129-133 | antd's pushes build exactly its tab bar style list |
| Tabs.PushListStyles | src/lib/codegen/tabs.ts:169-173 | shadcn's pushes build exactly its list style list |
| Tabs.Code | src/lib/codegen/tabs.ts:200-205 | aceternity returns its fixed note and an unknown provider "// Provider code not available" |
| Tabs.Generate | src/lib/codegen/tabs.ts:1-207 | the pushes, the per-tab maps and the template give exactly the specified code for every provider and configuration |
| Tabs.MuiOnePerTab | src/lib/codegen/tabs.ts:69-80 | mui writes one `<Tab>` and one panel per tab, in order; one more tab appends exactly its own fragment to each |
| Tabs.MuiTabShows | src/lib/codegen/tabs.ts:69-80 | each mui tab shows its label and value, and each panel its value and content |
| Tabs.MuiDefaults | src/lib/codegen/tabs.ts:56-61 | mui's indicator colour is the active colour or "primary.main", and the orientation defaults to horizontal |
| Tabs.MuiPaddingUnits | src/lib/codegen/tabs.ts:15 | mui writes the padding in spacing units of 4px: a padding of 4n is written `p: n` |
| Tabs.TabsPropsOrder | src/lib/codegen/tabs.ts:87-91 | chakra's root props are, in order, orientation when set, `fitted` unless vertical, `variant="enclosed"` always, and a colour scheme for an active colour |
| Tabs.TabBarPaddingTwice | src/lib/codegen/tabs.ts:132-133 | with a padding set antd's tab bar ends with the same padding entry twice; without one it has none |
| Tabs.AntdItems | src/lib/codegen/tabs.ts:123-127 | antd's items are one entry per tab, in order; one more tab appends exactly its own entry; each shows the tab's value, label and content |
| Tabs.ShadcnGrid | src/lib/codegen/tabs.ts:164-173 | a horizontal shadcn list is a grid with one column per tab, in its class and its style; a vertical list has neither |
| Tabs.DefaultValueInCode | src/lib/codegen/tabs.ts:49-184 | every branch with a template writes the default value |
| Accordion.SizeTable | src/lib/codegen/accordion.ts:11-13 | 'small' and 'large' pick their padding and font sizes and every other size the middle tier; in every tier the content font is 0.125rem smaller than the title font |
| Accordion.NewFrame | src/lib/codegen/accordion.ts:58 | the seed radius and border entries are exactly the frame |
| Accordion.PushMuiLists | src/lib/codegen/accordion.ts:17-24 | mui's pushes build exactly its `sx` and content `sx` lists |
| Accordion.PushTriggerAndContent | src/lib/codegen/accordion.ts:61-65 | the trigger and content lists (chakra and shadcn) are exactly the specified lists |
| Accordion.PushContainerStyle | src/lib/codegen/accordion.ts:58-59 | chakra's container list is exactly the frame, `overflow`, and the background when set |
| Accordion.PushCollapseStyle | src/lib/codegen/accordion.ts:91-93 | antd's collapse list is exactly the frame and the background or "transparent" |
| Accordion.PushShadcnStyle | src/lib/codegen/accordion.ts:124-125 | shadcn's root list is exactly the frame and the background when set |
| Accordion.Code | src/lib/codegen/accordion.ts:160-161 | an unknown provider returns exactly "// Generated code not available for this provider" |
| Accordion.Generate | src/lib/codegen/accordion.ts:1-163 | the pushes and the template give exactly the specified code for every provider and configuration |
| Accordion.MuiSxKeys | src/lib/codegen/accordion.ts:4-20 | mui's `sx` sets bgcolor for a truthy background other than 'transparent', borderColor for a truthy border colour, and borderRadius for a truthy normalised radius, which every number is (0 is written "0px") |
| Accordion.FrameFirst | src/lib/codegen/accordion.ts:58-124 | chakra, antd and shadcn start their root list with the frame |
| Accordion.FrameDefaults | src/lib/codegen/accordion.ts:58 | the frame's radius defaults to 8px and its border colour to rgba(0,0,0,0.1); set values are kept |
| Accordion.AntdGhost | src/lib/codegen/accordion.ts:91-113 | antd's collapse is a ghost exactly when the background is falsy or 'transparent', and its background entry falls back to "transparent" |
| Accordion.AntdLabelAndContent | src/lib/codegen/accordion.ts:95-107 | antd's label is a styled span with the title colour for a truthy title colour and the bare title otherwise; the answer colour falls back to 'inherit'; title and content reach the code |
| Accordion.MuiSizing | src/lib/codegen/accordion.ts:41-47 | mui's summary `py` is 0.5 for small and 1 otherwise, and its details padding is the size's padding on three sides |
| Accordion.TriggerAndContentSizes | src/lib/codegen/accordion.ts:61-65 | chakra and shadcn's trigger and content lists carry the size's padding and font sizes, and a colour entry exactly for a truthy colour |
| Accordion.TextsInCode | src/lib/codegen/accordion.ts:44-152 | mui, chakra and shadcn show the title and the content verbatim |
| Radio.OptionItems | src/lib/codegen/radio.ts:44 | the serialised list holds one JSON string per option, in order |
| Radio.Code | src/lib/codegen/radio.ts:159-160 | an unknown provider returns exactly "// Code generation not available for this provider" |
| Radio.SelectedValueInCode | src/lib/codegen/radio.ts:14-139 | every provider starts the state at the selected value |
| Radio.OnePerOption | src/lib/codegen/radio.ts:20-143 | mui, antd, shadcn and aceternity write one control per option, in order, joined by newlines: one more option appends exactly its control |
| Radio.NoOptions | src/lib/codegen/radio.ts:20-143 | with no options those branches write no control at all |
| Radio.OptionShown | src/lib/codegen/radio.ts:20-152 | each control carries its option |
| Radio.ChakraOptions | src/lib/codegen/radio.ts:44 | chakra writes every option, JSON-quoted, inside the serialised list, and distinct options are quoted distinctly |
| Radio.MuiSizeAndSx | src/lib/codegen/radio.ts:7-22 | mui's size is small only for 'small'; its `sx` attribute is written exactly when a colour is set, and then holds it |
| Radio.DisabledMarker | src/lib/codegen/radio.ts:17-119 | mui, antd and shadcn write the disabled marker exactly when `disabled` is truthy |
| Radio.ChakraColorAndSize | src/lib/codegen/radio.ts:32-74 | chakra's selected colour defaults to blue.500, its circle is 14px, 22px or 18px by size, and the label colour is written exactly for a truthy colour |
| Radio.ShadcnMediumClasses | src/lib/codegen/radio.ts:108-123 | shadcn's middle tier writes neither class attribute; the other tiers write both |
| Switch.Code | src/lib/codegen/switch.ts:133-134 | an unknown provider returns exactly "// Code generation not available for this provider" |
| Switch.LabelAndCheckedInCode | src/lib/codegen/switch.ts:14-127 | every provider labels the switch with the label, or 'Toggle' when it is falsy, and starts the state at `checked` |
| Switch.MuiSxIffColor | src/lib/codegen/switch.ts:8-22 | mui's `sx` attribute is written exactly when a colour is set, and then holds it |
| Switch.ChakraColorScheme | src/lib/codegen/switch.ts:33-50 | chakra writes `colorScheme="blue"` exactly when no colour is set |
| Switch.AntdSizeAttribute | src/lib/codegen/switch.ts:58-70 | antd's size attribute is 'small' for small, left out for large, and 'default' for every other size |
| Switch.AceternityColorAndTravel | src/lib/codegen/switch.ts:105-125 | aceternity's "on" background is the colour or #3b82f6, and its thumb travel is translate-x-4, -7 or -5 by size |
| Switch.ShadcnMediumClasses | src/lib/codegen/switch.ts:79-96 | shadcn's middle tier writes neither class attribute, the other tiers both |
| Switch.DisabledMarker | src/lib/codegen/switch.ts:22-120 | every branch writes its disabled marker exactly when `disabled` is truthy |
| Progress.PushMuiSx | src/lib/codegen/progress.ts:11-15 | mui's seed and push build exactly its `sx` list |
| Progress.PushStyles | src/lib/codegen/progress.ts:38-42 | chakra's (and shadcn's) seeds and pushes build exactly the root and indicator lists |
| Progress.Code | src/lib/codegen/progress.ts:106-107 | an unknown provider returns exactly "// Generated code not available for this provider" |
| Progress.Generate | src/lib/codegen/progress.ts:1-109 | the pushes and the template give exactly the specified code for every provider and configuration |
| Progress.Defaults | src/lib/codegen/progress.ts:2-97 | an unset value is written 60 and an unset maximum 100 in every branch that writes them, and together they give antd 60 percent |
| Progress.UnsetMaxPercent | src/lib/codegen/progress.ts:2-69 | with the maximum unset, antd's percentage is exactly the numeric value |
| Progress.HeightShown | src/lib/codegen/progress.ts:6-70 | antd's stroke width is the style's height when truthy, and otherwise 4, 12 or 8 by size |
| Progress.RadiusDefault | src/lib/codegen/progress.ts:7 | a numeric radius n is "npx", a set string passes through, and an unset radius is 999px |
| Progress.MuiSxShape | src/lib/codegen/progress.ts:11-17 | mui's `sx` begins with height and radius, has bgcolor exactly for a truthy track colour, and the bar `sx` exactly for a truthy indicator colour |
| Progress.RootAndIndicator | src/lib/codegen/progress.ts:38-42 | the root style starts with the height in px and the radius and gains a background exactly for a track colour; the indicator style is empty unless an indicator colour is set |
| Progress.AntdColorAttributes | src/lib/codegen/progress.ts:57-72 | antd's `strokeColor` and `railColor` are written exactly when their colour is truthy, and name it |
| Progress.AntdPercentInRange | src/lib/codegen/progress.ts:69 | antd's rounded percentage of a value between 0 and a positive maximum lies between 0 and 100 |
| Progress.LabelIffTruthy | src/lib/codegen/progress.ts:24-94 | the label element is written exactly when the label is truthy, and then holds it |

## Left out

- Floating-point numbers: configuration numbers are integers. `padding * 0.25` (tabs) and `Math.round((value / max) * 100)` (progress) are computed exactly on integers, with the NaN and Infinity cases written out; rounding of floating-point intermediates is not modelled.
- Js.ToNumber: only integer decimal strings are read as numbers when a string meets `/` or `*`; other numeric strings ("1.5", "1e3", hexadecimal, surrounding blanks) give NaN in the model.
- Json.Stringify: strings are escaped as `JSON.stringify` does for well-formed text; lone surrogates, object key reordering (integer-like keys first) and `undefined` or function values inside objects are not modelled.
- Select.NormalizeOptions: `options` is assumed to be an array (the source would throw on anything else); its elements are JSON values.
- Tabs: `tabs` is assumed to be an array of tab objects. The source calls `tabs.map` and reads `tabs.length`, so it throws a TypeError when `tabs` is absent, null or not an array, or when an element is null; the model's `seq<Tab>` has no such inputs.
- Radio: options are strings, as the source's `opt: string` annotation declares; chakra writes `${disabled}` raw, so an unset flag prints "undefined" there, which the model keeps.
- Values computed and never used are not modelled: `chakraSize` in the select generator, `modalStyles` in antd's modal branch and `contentClasses` in shadcn's modal branch.
- Button.WidthPxNotIdempotent: the width normaliser appends "px" unconditionally, so it is not idempotent; the model keeps that behaviour rather than correcting it.
- Character-level facts about the long literal chunks (for example that a template never contains a given word) are not stated; properties are stated per interpolated slot instead.
- The React wrappers, pages, preview components, theming and network code of the repository are not part of this model.
- Syntactic validity of the emitted JSX/TSX is not stated: the model fixes the exact text, not that it parses.
