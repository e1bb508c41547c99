/** Code generation for tabs: `generateTabsCode` in src/lib/codegen/tabs.ts.
    Each branch fills its style lists by conditional pushes and renders the
    tabs by mapping every tab to a fragment and joining the fragments. */
module Tabs {
  import opened Js
  import opened Text
  import opened Providers

  /** One tab of `config.tabs`. */
  datatype Tab = Tab(labelText: Value, value: Value, content: Value)

  /** `config.styles`; an absent `styles` is the record whose fields are all
      unset. `padding` is a number of pixels (mui: of spacing quarters). */
  datatype TabsStyles = TabsStyles(
    activeColor: Value, inactiveColor: Value, backgroundColor: Value, borderRadius: Value, padding: Value)

  datatype Config = Config(tabs: seq<Tab>, defaultValue: Value, orientation: Value, styles: TabsStyles)

  /** What the aceternity branch returns instead of code. */
  const AceternityNote := "// Aceternity UI does not include a standard Tabs component."

  /** `' ' + list.join(' ')` for a non-empty list, else nothing. */
  function SpaceJoined(es: seq<Entry>): (r: string)
    ensures r == "" <==> es == []
    ensures es != [] ==> r == " " + JoinEntries(es, " ")
  {
    if |es| > 0 then " " + JoinEntries(es, " ") else ""
  }

  /** `orientation === 'vertical'` */
  predicate IsVertical(c: Config) {
    c.orientation == Str("vertical")
  }

  // ---------------------------------------------------------------------
  // Style lists

  /** mui's `sx`: background, radius, and the padding as `p` in spacing
      units of 4px, `padding * 0.25`. */
  function MuiSx(st: TabsStyles): seq<Entry> {
    var es1 := PushIf([], Truthy(st.backgroundColor), SingleQuoted("bgcolor", Show(st.backgroundColor)));
    var es2 := PushIf(es1, st.borderRadius != Undefined, SingleQuoted("borderRadius", Show(st.borderRadius) + "px"));
    PushIf(es2, st.padding != Undefined, Entry("p", "p: " + QuarterText(ToNumber(st.padding))))
  }

  /** mui's per-tab `sx`: the selected colour and the colour. */
  function TabSx(st: TabsStyles): seq<Entry> {
    var es1 := PushIf([], Truthy(st.activeColor), Entry("&.Mui-selected", "'&.Mui-selected': { color: '" + Show(st.activeColor) + "' }"));
    PushIf(es1, Truthy(st.inactiveColor), SingleQuoted("color", Show(st.inactiveColor)))
  }

  /** chakra's root props: orientation when set, `fitted` unless vertical,
      `variant="enclosed"` always, and a colour scheme for an active colour. */
  function TabsProps(c: Config): seq<Entry> {
    var es1 := PushIf([], Truthy(c.orientation), Attr("orientation", Show(c.orientation)));
    var es2 := PushIf(es1, !IsVertical(c), Entry("fitted", "fitted"));
    var es3 := es2 + [Attr("variant", "enclosed")];
    PushIf(es3, Truthy(c.styles.activeColor), Attr("colorScheme", "blue"))
  }

  /** chakra's list props: background, radius, padding. */
  function ListProps(st: TabsStyles): seq<Entry> {
    var es1 := PushIf([], Truthy(st.backgroundColor), Attr("bg", Show(st.backgroundColor)));
    var es2 := PushIf(es1, st.borderRadius != Undefined, Attr("borderRadius", Show(st.borderRadius) + "px"));
    PushIf(es2, st.padding != Undefined, Entry("p", "p={" + Show(st.padding) + "}"))
  }

  /** chakra's trigger props: the selected colour, and the colour. */
  function TabProps(st: TabsStyles): seq<Entry> {
    var a := Show(st.activeColor);
    var es1 := PushIf([], Truthy(st.activeColor), Entry("_selected", "_selected={{ color: '" + a + "', borderColor: '" + a + "' }}"));
    PushIf(es1, Truthy(st.inactiveColor), Attr("color", Show(st.inactiveColor)))
  }

  /** antd's tab bar style: background, radius, and the padding pushed twice. */
  function TabBarStyle(st: TabsStyles): seq<Entry> {
    var es1 := PushIf([], Truthy(st.backgroundColor), SingleQuoted("backgroundColor", Show(st.backgroundColor)));
    var es2 := PushIf(es1, st.borderRadius != Undefined, SingleQuoted("borderRadius", Show(st.borderRadius) + "px"));
    var es3 := PushIf(es2, st.padding != Undefined, SingleQuoted("padding", Show(st.padding) + "px"));
    PushIf(es3, st.padding != Undefined, SingleQuoted("padding", Show(st.padding) + "px"))
  }

  /** shadcn's list style: background, radius, padding, and for a horizontal
      list one grid column per tab. */
  function ListStyles(c: Config): seq<Entry> {
    var st := c.styles;
    var es1 := PushIf([], Truthy(st.backgroundColor), SingleQuoted("backgroundColor", Show(st.backgroundColor)));
    var es2 := PushIf(es1, st.borderRadius != Undefined, SingleQuoted("borderRadius", Show(st.borderRadius) + "px"));
    var es3 := PushIf(es2, st.padding != Undefined, SingleQuoted("padding", Show(st.padding) + "px"));
    PushIf(es3, !IsVertical(c), SingleQuoted("gridTemplateColumns", "repeat(" + IntToString(|c.tabs|) + ", minmax(0, 1fr))"))
  }

  method PushMuiLists(st: TabsStyles) returns (sxProps: seq<Entry>, tabSx: seq<Entry>)
    ensures sxProps == MuiSx(st) && tabSx == TabSx(st)
  {
    sxProps := [];
    if Truthy(st.backgroundColor) { sxProps := sxProps + [SingleQuoted("bgcolor", Show(st.backgroundColor))]; }
    if st.borderRadius != Undefined { sxProps := sxProps + [SingleQuoted("borderRadius", Show(st.borderRadius) + "px")]; }
    if st.padding != Undefined { sxProps := sxProps + [Entry("p", "p: " + QuarterText(ToNumber(st.padding)))]; }
    tabSx := [];
    if Truthy(st.activeColor) { tabSx := tabSx + [Entry("&.Mui-selected", "'&.Mui-selected': { color: '" + Show(st.activeColor) + "' }")]; }
    if Truthy(st.inactiveColor) { tabSx := tabSx + [SingleQuoted("color", Show(st.inactiveColor))]; }
  }

  method PushChakraLists(c: Config) returns (tabsProps: seq<Entry>, listProps: seq<Entry>, tabProps: seq<Entry>)
    ensures tabsProps == TabsProps(c) && listProps == ListProps(c.styles) && tabProps == TabProps(c.styles)
  {
    var st := c.styles;
    tabsProps := [];
    if Truthy(c.orientation) { tabsProps := tabsProps + [Attr("orientation", Show(c.orientation))]; }
    if c.orientation != Str("vertical") { tabsProps := tabsProps + [Entry("fitted", "fitted")]; }
    tabsProps := tabsProps + [Attr("variant", "enclosed")];
    if Truthy(st.activeColor) { tabsProps := tabsProps + [Attr("colorScheme", "blue")]; }
    listProps := [];
    if Truthy(st.backgroundColor) { listProps := listProps + [Attr("bg", Show(st.backgroundColor))]; }
    if st.borderRadius != Undefined { listProps := listProps + [Attr("borderRadius", Show(st.borderRadius) + "px")]; }
    if st.padding != Undefined { listProps := listProps + [Entry("p", "p={" + Show(st.padding) + "}")]; }
    tabProps := [];
    var a := Show(st.activeColor);
    if Truthy(st.activeColor) { tabProps := tabProps + [Entry("_selected", "_selected={{ color: '" + a + "', borderColor: '" + a + "' }}")]; }
    if Truthy(st.inactiveColor) { tabProps := tabProps + [Attr("color", Show(st.inactiveColor))]; }
  }

  method PushTabBarStyle(st: TabsStyles) returns (tabBarStyle: seq<Entry>)
    ensures tabBarStyle == TabBarStyle(st)
  {
    tabBarStyle := [];
    if Truthy(st.backgroundColor) { tabBarStyle := tabBarStyle + [SingleQuoted("backgroundColor", Show(st.backgroundColor))]; }
    if st.borderRadius != Undefined { tabBarStyle := tabBarStyle + [SingleQuoted("borderRadius", Show(st.borderRadius) + "px")]; }
    if st.padding != Undefined { tabBarStyle := tabBarStyle + [SingleQuoted("padding", Show(st.padding) + "px")]; }
    if st.padding != Undefined { tabBarStyle := tabBarStyle + [SingleQuoted("padding", Show(st.padding) + "px")]; }
  }

  method PushListStyles(c: Config) returns (listStyles: seq<Entry>)
    ensures listStyles == ListStyles(c)
  {
    var st := c.styles;
    var isVertical := c.orientation == Str("vertical");
    listStyles := [];
    if Truthy(st.backgroundColor) { listStyles := listStyles + [SingleQuoted("backgroundColor", Show(st.backgroundColor))]; }
    if st.borderRadius != Undefined { listStyles := listStyles + [SingleQuoted("borderRadius", Show(st.borderRadius) + "px")]; }
    if st.padding != Undefined { listStyles := listStyles + [SingleQuoted("padding", Show(st.padding) + "px")]; }
    if !isVertical {
      listStyles := listStyles + [SingleQuoted("gridTemplateColumns", "repeat(" + IntToString(|c.tabs|) + ", minmax(0, 1fr))")];
    }
  }

  // ---------------------------------------------------------------------
  // Per-tab fragments

  const MuiSxChunks: seq<string> := [@"
          sx={{
            ", @"
          }}"]
  const MuiTabSxChunks: seq<string> := [@"
            sx={{
              ", @"
            }}"]
  const MuiTabChunks: seq<string> := [@"<Tab 
            label=""", @""" 
            value=""", @"""", @" 
          />"]
  const MuiPanelChunks: seq<string> := [@"<CustomTabPanel value={value} index=""", @""">
        ", @"
      </CustomTabPanel>"]

  function MuiTab(tabSx: seq<Entry>, t: Tab): string {
    Fill(MuiTabChunks, [Show(t.labelText), Show(t.value), ListFill(MuiTabSxChunks, tabSx, ",\n              ")])
  }

  function MuiPanel(t: Tab): string {
    Fill(MuiPanelChunks, [Show(t.value), Show(t.content)])
  }

  const ChakraTriggerChunks: seq<string> := [@"<Tabs.Trigger value=""", @"""", @">", @"</Tabs.Trigger>"]
  const ChakraContentChunks: seq<string> := [@"<Tabs.Content value=""", @""">
          <p>", @"</p>
        </Tabs.Content>"]

  function ChakraTrigger(tabProps: seq<Entry>, t: Tab): string {
    Fill(ChakraTriggerChunks, [Show(t.value), SpaceJoined(tabProps), Show(t.labelText)])
  }

  function ChakraContent(t: Tab): string {
    Fill(ChakraContentChunks, [Show(t.value), Show(t.content)])
  }

  const AntdItemChunks: seq<string> := [@"    {
      key: '", @"',
      label: '", @"',
      children: '", @"',
    }"]
  const AntdTabBarChunks: seq<string> := [@"tabBarStyle={{
        ", @"
      }}"]

  /** One of antd's `items`: key (the tab's value), label and children. */
  function AntdItem(t: Tab): string {
    Fill(AntdItemChunks, [Show(t.value), Show(t.labelText), Show(t.content)])
  }

  const GridColsChunks: seq<string> := [@"grid w-full grid-cols-", ""]
  const ShadcnListStyleChunks: seq<string> := [@" style={{ ", @" }}"]
  const ShadcnTriggerChunks: seq<string> := [@"<TabsTrigger value=""", @"""", @">
          ", @"
        </TabsTrigger>"]
  const ShadcnContentChunks: seq<string> := [@"<TabsContent value=""", @""" className=""", @""">
        <div style={{ wordBreak: 'break-word', whiteSpace: 'normal', maxWidth: '100%' }}>
          ", @"
        </div>
      </TabsContent>"]

  /** shadcn's list classes: a column for a vertical list, otherwise a grid
      of one column per tab. */
  function ListClasses(c: Config): string {
    if IsVertical(c) then "flex flex-col h-auto w-48 justify-start" else Fill(GridColsChunks, [IntToString(|c.tabs|)])
  }

  function ShadcnTrigger(vertical: bool, t: Tab): string {
    Fill(ShadcnTriggerChunks, [Show(t.value), if vertical then " className=\"w-full justify-start\"" else "", Show(t.labelText)])
  }

  function ShadcnContent(vertical: bool, t: Tab): string {
    Fill(ShadcnContentChunks, [Show(t.value), if vertical then "mt-0 flex-1" else "mt-2 flex-1", Show(t.content)])
  }

  // ---------------------------------------------------------------------
  // Templates

  const MuiChunks: seq<string> := [@"import React from 'react';
import { Tabs, Tab, Box, Typography } from '@mui/material';

interface TabPanelProps {
  children?: React.ReactNode;
  index: string;
  value: string;
}

function CustomTabPanel(props: TabPanelProps) {
  const { children, value, index, ...other } = props;

  return (
    <div
      role=""tabpanel""
      hidden={value !== index}
      {...other}
    >
      {value === index && (
        <Box sx={{ p: 3 }}>
          <Typography>{children}</Typography>
        </Box>
      )}
    </div>
  );
}

export function CustomTabs() {
  const [value, setValue] = React.useState('", @"');

  const handleChange = (event: React.SyntheticEvent, newValue: string) => {
    setValue(newValue);
  };

  return (
    <Box sx={{ width: '100%' }}>
      <Box sx={{ borderBottom: 1, borderColor: 'divider' }}>
        <Tabs 
          value={value} 
          onChange={handleChange} 
          orientation=""", @"""", @"
          TabIndicatorProps={{
            style: { backgroundColor: '", @"' }
          }}
        >
          ", @"
        </Tabs>
      </Box>
      ", @"
    </Box>
  );
}"]
  const ChakraChunks: seq<string> := [@"import { Tabs } from '@chakra-ui/react';

export function CustomTabs() {
  return (
    <Tabs.Root defaultValue=""", @"""", @">
      <Tabs.List", @">
        ", @"
      </Tabs.List>

      <Tabs.ContentGroup>
        ", @"
      </Tabs.ContentGroup>
    </Tabs.Root>
  );
}"]
  const AntdChunks: seq<string> := [@"import React from 'react';
import { Tabs } from 'antd';
import type { TabsProps } from 'antd';

const items: TabsProps['items'] = [
", @"
];

export function CustomTabs() {
  const onChange = (key: string) => {
    console.log(key);
  };

  return (
    <Tabs 
      defaultActiveKey=""", @""" 
      items={items} 
      onChange={onChange}
      tabPlacement=""", @"""
      ", @"
    />
  );
}"]
  const ShadcnChunks: seq<string> := [@"import {
  Tabs,
  TabsContent,
  TabsList,
  TabsTrigger,
} from ""@/components/ui/tabs""

export function CustomTabs() {
  return (
    <Tabs defaultValue=""", @""" className=""", @""" orientation=""", @""">
      <TabsList className=""", @"""", @">
        ", @"
      </TabsList>
      ", @"
    </Tabs>
  )
}"]

  function MuiArgs(c: Config, sxProps: seq<Entry>, tabSx: seq<Entry>): (args: seq<string>)
    ensures |args| == |MuiChunks| - 1
  {
    [ Show(c.defaultValue), Show(Or(c.orientation, Str("horizontal"))),
      ListFill(MuiSxChunks, sxProps, ",\n            "),
      Show(Or(c.styles.activeColor, Str("primary.main"))),
      Join(Each(c.tabs, t => MuiTab(tabSx, t)), "\n          "),
      Join(Each(c.tabs, MuiPanel), "\n      ") ]
  }

  function ChakraArgs(c: Config, tabsProps: seq<Entry>, listProps: seq<Entry>, tabProps: seq<Entry>): (args: seq<string>)
    ensures |args| == |ChakraChunks| - 1
  {
    [ Show(c.defaultValue), SpaceJoined(tabsProps), SpaceJoined(listProps),
      Join(Each(c.tabs, t => ChakraTrigger(tabProps, t)), "\n        "),
      Join(Each(c.tabs, ChakraContent), "\n        ") ]
  }

  function AntdArgs(c: Config, tabBarStyle: seq<Entry>): (args: seq<string>)
    ensures |args| == |AntdChunks| - 1
  {
    [ Join(Each(c.tabs, AntdItem), ",\n"), Show(c.defaultValue),
      if IsVertical(c) then "left" else "top",
      ListFill(AntdTabBarChunks, tabBarStyle, ",\n        ") ]
  }

  function ShadcnArgs(c: Config, listStyles: seq<Entry>): (args: seq<string>)
    ensures |args| == |ShadcnChunks| - 1
  {
    var vertical := IsVertical(c);
    [ Show(c.defaultValue), if vertical then "flex gap-6 w-full" else "w-full",
      Show(Or(c.orientation, Str("horizontal"))), ListClasses(c),
      ListFill(ShadcnListStyleChunks, listStyles, ", "),
      Join(Each(c.tabs, t => ShadcnTrigger(vertical, t)), "\n        "),
      Join(Each(c.tabs, t => ShadcnContent(vertical, t)), "\n      ") ]
  }

  /** The template of a provider's branch (aceternity has none). */
  function Chunks(p: Provider): seq<string>
    requires p != Other && p != Aceternity
  {
    match p
    case Mui => MuiChunks
    case Chakra => ChakraChunks
    case Antd => AntdChunks
    case Shadcn => ShadcnChunks
  }

  /** The texts a provider's branch interpolates, in order. */
  function Args(p: Provider, c: Config): (args: seq<string>)
    requires p != Other && p != Aceternity
    ensures |args| == |Chunks(p)| - 1
  {
    var st := c.styles;
    match p
    case Mui => MuiArgs(c, MuiSx(st), TabSx(st))
    case Chakra => ChakraArgs(c, TabsProps(c), ListProps(st), TabProps(st))
    case Antd => AntdArgs(c, TabBarStyle(st))
    case Shadcn => ShadcnArgs(c, ListStyles(c))
  }

  /** `generateTabsCode(provider, config)` as a value. */
  function Code(p: Provider, c: Config): (code: string)
    ensures p == Aceternity ==> code == AceternityNote
    ensures p == Other ==> code == CodeNotAvailable
  {
    if p == Other then CodeNotAvailable
    else if p == Aceternity then AceternityNote
    else Fill(Chunks(p), Args(p, c))
  }

  /** `generateTabsCode`: builds the branch's style lists push by push and
      fills in its template. */
  method Generate(p: Provider, c: Config) returns (code: string)
    ensures code == Code(p, c)
  {
    match p {
      case Mui =>
        var sxProps, tabSx := PushMuiLists(c.styles);
        code := Fill(MuiChunks, MuiArgs(c, sxProps, tabSx));
      case Chakra =>
        var tabsProps, listProps, tabProps := PushChakraLists(c);
        code := Fill(ChakraChunks, ChakraArgs(c, tabsProps, listProps, tabProps));
      case Antd =>
        var tabBarStyle := PushTabBarStyle(c.styles);
        code := Fill(AntdChunks, AntdArgs(c, tabBarStyle));
      case Shadcn =>
        var listStyles := PushListStyles(c);
        code := Fill(ShadcnChunks, ShadcnArgs(c, listStyles));
      case Aceternity =>
        code := AceternityNote;
      case Other =>
        code := CodeNotAvailable;
    }
  }

  // ---------------------------------------------------------------------
  // Properties

  /** mui renders one `<Tab>` and one `<CustomTabPanel>` per tab, in the
      order of the tabs: the two slots are the joined per-tab fragments, and
      one more tab appends exactly its own fragment to each. */
  lemma MuiOnePerTab(c: Config, t: Tab)
    requires |c.tabs| > 0
    ensures var f := (u: Tab) => MuiTab(TabSx(c.styles), u);
      && Args(Mui, c)[4] == Join(Each(c.tabs, f), "\n          ")
      && Args(Mui, c)[5] == Join(Each(c.tabs, MuiPanel), "\n      ")
      && Args(Mui, c.(tabs := c.tabs + [t]))[4] == Args(Mui, c)[4] + "\n          " + MuiTab(TabSx(c.styles), t)
      && Args(Mui, c.(tabs := c.tabs + [t]))[5] == Args(Mui, c)[5] + "\n      " + MuiPanel(t)
  {
    var f := (u: Tab) => MuiTab(TabSx(c.styles), u);
    JoinEachAppend(c.tabs, t, f, "\n          ");
    JoinEachAppend(c.tabs, t, MuiPanel, "\n      ");
  }

  /** Each mui tab shows its label and value, and each panel its value and
      content. */
  lemma MuiTabShows(tabSx: seq<Entry>, t: Tab)
    ensures Contains(MuiTab(tabSx, t), Show(t.labelText)) && Contains(MuiTab(tabSx, t), Show(t.value))
    ensures Contains(MuiPanel(t), Show(t.value)) && Contains(MuiPanel(t), Show(t.content))
  {
    var args := [Show(t.labelText), Show(t.value), ListFill(MuiTabSxChunks, tabSx, ",\n              ")];
    FillContains(MuiTabChunks, args, 0);
    FillContains(MuiTabChunks, args, 1);
    FillContains(MuiPanelChunks, [Show(t.value), Show(t.content)], 0);
    FillContains(MuiPanelChunks, [Show(t.value), Show(t.content)], 1);
  }

  /** mui's indicator colour is the active colour when set and
      "primary.main" otherwise; the orientation defaults to horizontal. */
  lemma MuiDefaults(c: Config)
    ensures Args(Mui, c)[1] == if Truthy(c.orientation) then Show(c.orientation) else "horizontal"
    ensures Args(Mui, c)[3] == if Truthy(c.styles.activeColor) then Show(c.styles.activeColor) else "primary.main"
  {
  }

  /** mui's padding is given in spacing units of 4px: a padding of 4n is
      written as n. */
  lemma MuiPaddingUnits(st: TabsStyles, n: int)
    requires st.padding == Num(4 * n)
    ensures Entry("p", "p: " + IntToString(n)) in MuiSx(st)
  {
    assert (4 * n) / 4 == n;
    var es1 := PushIf([], Truthy(st.backgroundColor), SingleQuoted("bgcolor", Show(st.backgroundColor)));
    var es2 := PushIf(es1, st.borderRadius != Undefined, SingleQuoted("borderRadius", Show(st.borderRadius) + "px"));
    assert MuiSx(st) == es2 + [Entry("p", "p: " + IntToString(n))];
  }

  /** chakra's root props are, in order: the orientation only when set,
      `fitted` unless vertical, `variant="enclosed"` always, and the colour
      scheme for an active colour. */
  lemma TabsPropsOrder(c: Config)
    ensures Keys(TabsProps(c)) ==
      (if Truthy(c.orientation) then ["orientation"] else [])
      + (if !IsVertical(c) then ["fitted"] else [])
      + ["variant"]
      + (if Truthy(c.styles.activeColor) then ["colorScheme"] else [])
    ensures Attr("variant", "enclosed") in TabsProps(c)
  {
    var es1 := PushIf([], Truthy(c.orientation), Attr("orientation", Show(c.orientation)));
    var es2 := PushIf(es1, !IsVertical(c), Entry("fitted", "fitted"));
    var es3 := es2 + [Attr("variant", "enclosed")];
    var ks1 := if Truthy(c.orientation) then ["orientation"] else [];
    var ks2 := ks1 + (if !IsVertical(c) then ["fitted"] else []);
    assert Keys(es1) == ks1;
    assert Keys(es2) == ks2;
    assert Keys(es3) == ks2 + ["variant"];
    assert es3[|es3| - 1] == Attr("variant", "enclosed");
  }

  /** With a padding set, antd's tab bar style ends with the same padding
      entry twice; without one it has no padding entry. */
  lemma TabBarPaddingTwice(st: TabsStyles)
    ensures var es := TabBarStyle(st);
      st.padding != Undefined ==>
        |es| >= 2 && es[|es| - 2] == es[|es| - 1] == SingleQuoted("padding", Show(st.padding) + "px")
    ensures st.padding == Undefined ==> !Has(TabBarStyle(st), "padding")
  {
    var e1 := SingleQuoted("backgroundColor", Show(st.backgroundColor));
    var e2 := SingleQuoted("borderRadius", Show(st.borderRadius) + "px");
    var e3 := SingleQuoted("padding", Show(st.padding) + "px");
    var es1 := PushIf([], Truthy(st.backgroundColor), e1);
    var es2 := PushIf(es1, st.borderRadius != Undefined, e2);
    var es3 := PushIf(es2, st.padding != Undefined, e3);
    HasPushIf([], Truthy(st.backgroundColor), e1, "padding");
    HasPushIf(es1, st.borderRadius != Undefined, e2, "padding");
    HasPushIf(es2, st.padding != Undefined, e3, "padding");
    HasPushIf(es3, st.padding != Undefined, e3, "padding");
  }

  /** antd's items are one entry per tab, in order, joined by ",\n"; each
      shows the tab's value (as the key), label and content. */
  lemma AntdItems(c: Config, t: Tab)
    requires |c.tabs| > 0
    ensures Args(Antd, c)[0] == Join(Each(c.tabs, AntdItem), ",\n")
    ensures Args(Antd, c.(tabs := c.tabs + [t]))[0] == Args(Antd, c)[0] + ",\n" + AntdItem(t)
    ensures Contains(AntdItem(t), Show(t.value)) && Contains(AntdItem(t), Show(t.labelText))
      && Contains(AntdItem(t), Show(t.content))
  {
    JoinEachAppend(c.tabs, t, AntdItem, ",\n");
    var args := [Show(t.value), Show(t.labelText), Show(t.content)];
    FillContains(AntdItemChunks, args, 0);
    FillContains(AntdItemChunks, args, 1);
    FillContains(AntdItemChunks, args, 2);
  }

  /** A horizontal shadcn list is a grid with one column per tab, in its
      class and in a `gridTemplateColumns` entry; a vertical list has
      neither. */
  lemma ShadcnGrid(c: Config)
    ensures !IsVertical(c) ==>
      && Contains(ListClasses(c), IntToString(|c.tabs|))
      && SingleQuoted("gridTemplateColumns", "repeat(" + IntToString(|c.tabs|) + ", minmax(0, 1fr))") in ListStyles(c)
    ensures IsVertical(c) ==>
      && ListClasses(c) == "flex flex-col h-auto w-48 justify-start"
      && !Has(ListStyles(c), "gridTemplateColumns")
  {
    var st := c.styles;
    var e1 := SingleQuoted("backgroundColor", Show(st.backgroundColor));
    var e2 := SingleQuoted("borderRadius", Show(st.borderRadius) + "px");
    var e3 := SingleQuoted("padding", Show(st.padding) + "px");
    var e4 := SingleQuoted("gridTemplateColumns", "repeat(" + IntToString(|c.tabs|) + ", minmax(0, 1fr))");
    var es1 := PushIf([], Truthy(st.backgroundColor), e1);
    var es2 := PushIf(es1, st.borderRadius != Undefined, e2);
    var es3 := PushIf(es2, st.padding != Undefined, e3);
    if IsVertical(c) {
      HasPushIf([], Truthy(st.backgroundColor), e1, "gridTemplateColumns");
      HasPushIf(es1, st.borderRadius != Undefined, e2, "gridTemplateColumns");
      HasPushIf(es2, st.padding != Undefined, e3, "gridTemplateColumns");
      HasPushIf(es3, false, e4, "gridTemplateColumns");
    } else {
      FillContains(GridColsChunks, [IntToString(|c.tabs|)], 0);
      assert ListStyles(c) == es3 + [e4];
    }
  }

  /** Every branch with a template writes the default value. */
  lemma DefaultValueInCode(p: Provider, c: Config)
    requires p != Other && p != Aceternity
    ensures Contains(Code(p, c), Show(c.defaultValue))
  {
    var i := if p == Antd then 1 else 0;
    FillContains(Chunks(p), Args(p, c), i);
  }
}
