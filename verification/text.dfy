/** Text assembly as the code generators do it: template literals, the
    `string[]` style lists they fill by `push` and `Array.prototype.join`. */
module Text {
  import opened Js

  /** A template literal: its literal chunks with the interpolated texts
      between them, `chunks[0] + args[0] + chunks[1] + ... + chunks[n]`. */
  function Fill(chunks: seq<string>, args: seq<string>): string
    requires |chunks| == |args| + 1
  {
    if args == [] then chunks[0] else chunks[0] + args[0] + Fill(chunks[1..], args[1..])
  }

  /** `t` occurs in `s` as a contiguous piece. */
  ghost predicate Contains(s: string, t: string) {
    exists i :: OccursAt(s, t, i)
  }

  /** `t` occurs in `s` starting at index i. */
  predicate OccursAt(s: string, t: string, i: int) {
    0 <= i <= |s| - |t| && s[i..i + |t|] == t
  }

  lemma ContainsLeft(s: string, u: string, t: string)
    requires Contains(s, t)
    ensures Contains(s + u, t)
  {
    var i :| OccursAt(s, t, i);
    assert (s + u)[i..i + |t|] == s[i..i + |t|];
    assert OccursAt(s + u, t, i);
  }

  lemma ContainsRight(u: string, s: string, t: string)
    requires Contains(s, t)
    ensures Contains(u + s, t)
  {
    var i :| OccursAt(s, t, i);
    assert (u + s)[|u| + i..|u| + i + |t|] == s[i..i + |t|];
    assert OccursAt(u + s, t, |u| + i);
  }

  lemma ContainsSelf(t: string)
    ensures Contains(t, t)
  {
    assert t[0..|t|] == t;
    assert OccursAt(t, t, 0);
  }

  /** A piece of a piece of s is a piece of s. */
  lemma ContainsTrans(s: string, t: string, u: string)
    requires Contains(s, t) && Contains(t, u)
    ensures Contains(s, u)
  {
    var i :| OccursAt(s, t, i);
    var j :| OccursAt(t, u, j);
    forall k | 0 <= k < |u|
      ensures s[i + j + k] == u[k]
    {
      assert u[k] == t[j + k] == s[i..i + |t|][j + k];
    }
    assert s[i + j..i + j + |u|] == u;
    assert OccursAt(s, u, i + j);
  }

  /** A text followed by the start of the next piece occurs wherever the
      text and the whole next piece do. */
  lemma ContainsFollowedPrefix(s: string, a: string, b: string, k: nat)
    requires Contains(s, a + b) && k <= |b|
    ensures Contains(s, a + b[..k])
  {
    var i :| OccursAt(s, a + b, i);
    assert (a + b)[..|a| + k] == a + b[..k];
    assert s[i..i + |a| + k] == s[i..i + |a + b|][..|a| + k];
    assert OccursAt(s, a + b[..k], i);
  }

  /** Every interpolated text occurs verbatim in the filled template. */
  lemma {:induction false} FillContains(chunks: seq<string>, args: seq<string>, i: int)
    requires |chunks| == |args| + 1 && 0 <= i < |args|
    ensures Contains(Fill(chunks, args), args[i])
  {
    var rest := Fill(chunks[1..], args[1..]);
    assert Fill(chunks, args) == chunks[0] + args[0] + rest;
    if i == 0 {
      ContainsSelf(args[0]);
      ContainsRight(chunks[0], args[0], args[0]);
      ContainsLeft(chunks[0] + args[0], rest, args[0]);
    } else {
      FillContains(chunks[1..], args[1..], i - 1);
      ContainsRight(chunks[0] + args[0], rest, args[i]);
    }
  }

  /** A filled template starts with its first chunk. */
  lemma {:induction false} FillStarts(chunks: seq<string>, args: seq<string>)
    requires |chunks| == |args| + 1
    ensures |Fill(chunks, args)| >= |chunks[0]| && Fill(chunks, args)[..|chunks[0]|] == chunks[0]
  {
  }

  /** Every interpolated text occurs verbatim in the filled template together
      with the literal chunk that follows it. */
  lemma {:induction false} FillContainsFollowed(chunks: seq<string>, args: seq<string>, i: int)
    requires |chunks| == |args| + 1 && 0 <= i < |args|
    ensures Contains(Fill(chunks, args), args[i] + chunks[i + 1])
  {
    var rest := Fill(chunks[1..], args[1..]);
    assert Fill(chunks, args) == chunks[0] + args[0] + rest;
    if i == 0 {
      FillStarts(chunks[1..], args[1..]);
      var tail := rest[|chunks[1]|..];
      assert rest == chunks[1] + tail;
      assert Fill(chunks, args) == chunks[0] + (args[0] + chunks[1]) + tail;
      ContainsSelf(args[0] + chunks[1]);
      ContainsRight(chunks[0], args[0] + chunks[1], args[0] + chunks[1]);
      ContainsLeft(chunks[0] + (args[0] + chunks[1]), tail, args[0] + chunks[1]);
    } else {
      FillContainsFollowed(chunks[1..], args[1..], i - 1);
      ContainsRight(chunks[0] + args[0], rest, args[i] + chunks[i + 1]);
    }
  }

  /** Every literal chunk occurs verbatim in the filled template. */
  lemma {:induction false} FillContainsChunk(chunks: seq<string>, args: seq<string>, i: int)
    requires |chunks| == |args| + 1 && 0 <= i < |chunks|
    ensures Contains(Fill(chunks, args), chunks[i])
  {
    if args == [] {
      ContainsSelf(chunks[0]);
    } else {
      var rest := Fill(chunks[1..], args[1..]);
      assert Fill(chunks, args) == chunks[0] + (args[0] + rest);
      if i == 0 {
        ContainsSelf(chunks[0]);
        ContainsLeft(chunks[0], args[0] + rest, chunks[0]);
      } else {
        FillContainsChunk(chunks[1..], args[1..], i - 1);
        ContainsRight(args[0], rest, chunks[i]);
        ContainsRight(chunks[0], args[0] + rest, chunks[i]);
      }
    }
  }

  /** `xs.join(sep)` */
  function Join(xs: seq<string>, sep: string): string {
    if |xs| == 0 then "" else if |xs| == 1 then xs[0] else xs[0] + sep + Join(xs[1..], sep)
  }

  /** `xs.map(f)` */
  function Each<T>(xs: seq<T>, f: T -> string): (r: seq<string>)
    ensures |r| == |xs|
    ensures forall i :: 0 <= i < |xs| ==> r[i] == f(xs[i])
  {
    seq(|xs|, i requires 0 <= i < |xs| => f(xs[i]))
  }

  /** Mapping a list with one more element gives one more fragment, at the
      end. */
  lemma EachAppend<T>(xs: seq<T>, x: T, f: T -> string)
    ensures Each(xs + [x], f) == Each(xs, f) + [f(x)]
  {
  }

  /** The fragments of a list in order, joined: one more element adds its
      fragment after a separator, and nothing else changes. */
  lemma JoinEachAppend<T>(xs: seq<T>, x: T, f: T -> string, sep: string)
    requires |xs| > 0
    ensures Join(Each(xs + [x], f), sep) == Join(Each(xs, f), sep) + sep + f(x)
  {
    EachAppend(xs, x, f);
    JoinAppend(Each(xs, f), f(x), sep);
  }

  /** Every element of a joined list occurs verbatim in the joined text. */
  lemma {:induction false} JoinContains(xs: seq<string>, sep: string, t: string)
    requires t in xs
    ensures Contains(Join(xs, sep), t)
  {
    if |xs| == 1 {
      ContainsSelf(t);
    } else if xs[0] == t {
      ContainsSelf(t);
      ContainsLeft(t, sep + Join(xs[1..], sep), t);
      assert t + sep + Join(xs[1..], sep) == t + (sep + Join(xs[1..], sep));
    } else {
      JoinContains(xs[1..], sep, t);
      ContainsRight(xs[0] + sep, Join(xs[1..], sep), t);
    }
  }

  /** Appending an element to a non-empty list appends a separator and the
      element to its join: a joined list is its elements in order. */
  lemma {:induction false} JoinAppend(xs: seq<string>, x: string, sep: string)
    requires |xs| > 0
    ensures Join(xs + [x], sep) == Join(xs, sep) + sep + x
  {
    if |xs| == 1 {
      assert (xs + [x])[1..] == [x];
    } else {
      assert (xs + [x])[1..] == xs[1..] + [x];
      JoinAppend(xs[1..], x, sep);
    }
  }

  /** Joining n entries puts n - 1 separators between them: the joined text is
      as long as the entries plus the separators, with none left dangling. */
  lemma {:induction false} JoinLength(xs: seq<string>, sep: string)
    requires |xs| > 0
    ensures |Join(xs, sep)| == TotalLength(xs) + (|xs| - 1) * |sep|
  {
    if |xs| > 1 {
      JoinLength(xs[1..], sep);
    }
  }

  function TotalLength(xs: seq<string>): nat {
    if xs == [] then 0 else |xs[0]| + TotalLength(xs[1..])
  }

  /** `c ? text : ''` */
  function Opt(c: bool, text: string): string {
    if c then text else ""
  }

  /** `v ? `...${v}...` : ''`: a one-interpolation template emitted only for
      a truthy value. */
  function Gated(chunks: seq<string>, v: Value): (r: string)
    requires |chunks| == 2 && chunks[0] != ""
    ensures r == "" <==> !Truthy(v)
    ensures Truthy(v) ==> Contains(r, Show(v))
  {
    if Truthy(v) then
      FillContains(chunks, [Show(v)], 0);
      Fill(chunks, [Show(v)])
    else ""
  }

  // ---------------------------------------------------------------------
  // Style lists

  /** One pushed style entry: the property it sets and its text. */
  datatype Entry = Entry(key: string, text: string)

  /** `if (c) list.push(e)` */
  function PushIf(es: seq<Entry>, c: bool, e: Entry): seq<Entry> {
    if c then es + [e] else es
  }

  /** Some entry of the list sets the property `key`. */
  predicate Has(es: seq<Entry>, key: string) {
    exists e :: e in es && e.key == key
  }

  /** After a conditional push a list sets a property exactly when it did
      before, or the push happened and its entry sets that property. */
  lemma HasPushIf(es: seq<Entry>, c: bool, e: Entry, key: string)
    ensures Has(PushIf(es, c, e), key) <==> Has(es, key) || (c && e.key == key)
  {
    if c && Has(es, key) {
      var d :| d in es && d.key == key;
      assert d in es + [e];
    }
    if c && e.key == key {
      assert e in es + [e];
    }
  }

  /** A two-entry list sets exactly the properties of its two entries. */
  lemma HasPair(a: Entry, b: Entry, key: string)
    ensures Has([a, b], key) <==> a.key == key || b.key == key
  {
    if a.key == key {
      assert a in [a, b];
    } else if b.key == key {
      assert b in [a, b];
    }
  }

  /** The properties a list sets, in order. */
  function Keys(es: seq<Entry>): (ks: seq<string>)
    ensures |ks| == |es|
    ensures forall i :: 0 <= i < |es| ==> ks[i] == es[i].key
  {
    if es == [] then [] else [es[0].key] + Keys(es[1..])
  }

  /** The texts of a list's entries, in order: the `string[]` the source joins. */
  function Texts(es: seq<Entry>): (ts: seq<string>)
    ensures |ts| == |es|
    ensures forall i :: 0 <= i < |es| ==> ts[i] == es[i].text
  {
    if es == [] then [] else [es[0].text] + Texts(es[1..])
  }

  /** A list sets exactly the properties among its keys. */
  lemma HasKeys(es: seq<Entry>, key: string)
    ensures Has(es, key) <==> key in Keys(es)
  {
    if Has(es, key) {
      var e :| e in es && e.key == key;
      var i :| 0 <= i < |es| && es[i] == e;
      assert Keys(es)[i] == key;
    }
    if key in Keys(es) {
      var i :| 0 <= i < |es| && Keys(es)[i] == key;
      assert es[i] in es;
    }
  }

  /** `list.join(sep)` for a style list. */
  function JoinEntries(es: seq<Entry>, sep: string): string {
    Join(Texts(es), sep)
  }

  /** Every entry's text occurs verbatim in the joined list. */
  lemma JoinEntriesContains(es: seq<Entry>, sep: string, e: Entry)
    requires e in es
    ensures Contains(JoinEntries(es, sep), e.text)
  {
    var i :| 0 <= i < |es| && es[i] == e;
    JoinContains(Texts(es), sep, e.text);
  }

  /** `list.length > 0 ? `...${list.join(sep)}...` : ''`: a fragment holding
      the joined list, emitted only for a non-empty list. */
  function ListFill(chunks: seq<string>, es: seq<Entry>, sep: string): (r: string)
    requires |chunks| == 2 && chunks[0] != ""
    ensures r == "" <==> es == []
    ensures es != [] ==> Contains(r, JoinEntries(es, sep))
  {
    if |es| > 0 then
      FillContains(chunks, [JoinEntries(es, sep)], 0);
      Fill(chunks, [JoinEntries(es, sep)])
    else ""
  }

  /** An entry of a list whose joined text lies in a template slot occurs in
      the filled template. */
  lemma EntryInFill(chunks: seq<string>, args: seq<string>, i: int, es: seq<Entry>, sep: string, e: Entry)
    requires |chunks| == |args| + 1 && 0 <= i < |args|
    requires Contains(args[i], JoinEntries(es, sep)) && e in es
    ensures Contains(Fill(chunks, args), e.text)
  {
    JoinEntriesContains(es, sep, e);
    ContainsTrans(args[i], JoinEntries(es, sep), e.text);
    FillContains(chunks, args, i);
    ContainsTrans(Fill(chunks, args), args[i], e.text);
  }

  /** `key: 'value'` */
  function SingleQuoted(key: string, value: string): Entry {
    Entry(key, key + ": '" + value + "'")
  }

  /** `key: "value"` */
  function DoubleQuoted(key: string, value: string): Entry {
    Entry(key, key + ": \"" + value + "\"")
  }

  /** `key="value"` (a JSX attribute) */
  function Attr(key: string, value: string): Entry {
    Entry(key, key + "=\"" + value + "\"")
  }
}
