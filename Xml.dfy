/**
  Just enough XML to state that the exporter's output is well nested: an
  element tree and its serialisation, a scanner that reads the tags back out
  of the characters, and a stack check over the tags read.
 */
module Xml {
  import opened Php

  datatype Node =
    | Element(name: string, attrs: string, children: seq<Node>)
    | EmptyElement(name: string, attrs: string)
    | Text(content: string)

  /** The serialisation the exporter writes: `<name attrs>children</name>`, `<name attrs/>`, or the text. */
  function Render(n: Node): string
    decreases n
  {
    match n
    case Element(name, attrs, children) => ("<" + name + attrs + ">") + RenderAll(children) + ("</" + name + ">")
    case EmptyElement(name, attrs) => "<" + name + attrs + "/>"
    case Text(content) => content
  }

  function RenderAll(ns: seq<Node>): string
    decreases ns
  {
    if ns == [] then [] else RenderAll(ns[..|ns| - 1]) + Render(ns[|ns| - 1])
  }

  lemma {:induction false} RenderAllAppend(ns: seq<Node>, n: Node)
    ensures RenderAll(ns + [n]) == RenderAll(ns) + Render(n)
  {
    assert (ns + [n])[..|ns|] == ns;
  }

  /** Appending the serialisation of the next child extends the serialised prefix by one child. */
  lemma RenderPrefixStep(start: string, ns: seq<Node>, i: nat)
    requires i < |ns|
    ensures start + RenderAll(ns[..i]) + Render(ns[i]) == start + RenderAll(ns[..i + 1])
  {
    assert ns[..i + 1] == ns[..i] + [ns[i]];
    RenderAllAppend(ns[..i], ns[i]);
    ConcatAssoc(start, RenderAll(ns[..i]), Render(ns[i]));
  }

  /** An element appended after `prefix`: its start tag, its children, its end tag. */
  lemma RenderElementAfter(prefix: string, name: string, attrs: string, children: seq<Node>)
    ensures prefix + Render(Element(name, attrs, children))
            == prefix + ("<" + name + attrs + ">") + RenderAll(children) + ("</" + name + ">")
  {
  }

  /** An element written piece by piece: start tag, two runs of children, end tag. */
  lemma ElementPieces(prefix: string, name: string, attrs: string, head: seq<Node>, body: seq<Node>)
    ensures prefix + ("<" + name) + attrs + ">" + RenderAll(head) + RenderAll(body) + ("</" + name + ">")
            == prefix + Render(Element(name, attrs, head + body))
  {
    RenderAllConcat(head, body);
    var o, c, h, b := "<" + name, "</" + name + ">", RenderAll(head), RenderAll(body);
    calc {
      prefix + o + attrs + ">" + h + b + c;
      prefix + ((o + attrs + ">") + (h + b) + c);
    }
  }

  lemma {:induction false} RenderAllConcat(ns: seq<Node>, ms: seq<Node>)
    ensures RenderAll(ns + ms) == RenderAll(ns) + RenderAll(ms)
    decreases |ms|
  {
    if ms == [] {
      assert ns + ms == ns;
    } else {
      var init, last := ms[..|ms| - 1], ms[|ms| - 1];
      assert ns + ms == (ns + init) + [last];
      RenderAllAppend(ns + init, last);
      RenderAllConcat(ns, init);
      RenderAllAppend(init, last);
      assert init + [last] == ms;
    }
  }

  lemma RenderElement(name: string, attrs: string, children: seq<Node>)
    ensures Render(Element(name, attrs, children)) == ("<" + name + attrs + ">") + RenderAll(children) + ("</" + name + ">")
  {
  }

  lemma RenderAllPair(a: Node, b: Node)
    ensures RenderAll([a]) == Render(a)
    ensures RenderAll([a, b]) == Render(a) + Render(b)
  {
    assert [a, b][..1] == [a];
    assert [a][..0] == [];
  }

  // ---------------------------------------------------------------------
  // Reading the tags back
  // ---------------------------------------------------------------------

  /** A tag as scanned: the text between `<` and the next `>`, or a `<` that is never closed. */
  datatype Tag = Tag(body: string) | Unterminated

  /** The tags of `s`, in order. */
  function Tags(s: string): seq<Tag>
    decreases |s|
  {
    match FirstIndex(s, '<')
    case None => []
    case Some(i) => TagsFrom(s[i + 1..])
  }

  /** The tags of what follows a `<`: the tag it opens, then the tags after its `>`. */
  function TagsFrom(rest: string): seq<Tag>
    decreases |rest|
  {
    match FirstIndex(rest, '>')
    case None => [Unterminated]
    case Some(j) => [Tag(rest[..j])] + Tags(rest[j + 1..])
  }

  lemma TagsNone(s: string)
    requires '<' !in s
    ensures Tags(s) == []
  {
  }

  lemma TagsSkip(p: string, q: string)
    requires '<' !in p
    ensures Tags(p + ['<'] + q) == TagsFrom(q)
  {
    FirstIndexAt(p, '<', q);
    assert (p + ['<'] + q)[|p| + 1..] == q;
  }

  /** The name an opening tag opens: its body up to the first space. */
  function ElementName(body: string): (r: string)
    ensures HasPrefix(body, r)
  {
    match FirstIndex(body, ' ')
    case None => body
    case Some(i) => body[..i]
  }

  /**
    The stack check: a closing tag `/name` must close the innermost open
    element, `?...` and `.../` tags open nothing, any other tag opens the
    element it names; at the end nothing may be left open.
   */
  function Nest(tags: seq<Tag>, open: seq<string>): bool
    decreases |tags|
  {
    if tags == [] then open == []
    else match tags[0]
      case Unterminated => false
      case Tag(b) =>
        if HasPrefix(b, "/") then
          open != [] && open[|open| - 1] == b[1..] && Nest(tags[1..], open[..|open| - 1])
        else if HasPrefix(b, "?") || (b != [] && b[|b| - 1] == '/') then
          Nest(tags[1..], open)
        else
          Nest(tags[1..], open + [ElementName(b)])
  }

  predicate WellNested(s: string) {
    Nest(Tags(s), [])
  }

  // ---------------------------------------------------------------------
  // Trees whose serialisation reads back as their own structure
  // ---------------------------------------------------------------------

  predicate NoAngle(s: string) {
    '<' !in s && '>' !in s
  }

  /** An element name: non-empty, with no space, angle bracket, slash or question mark. */
  predicate ValidName(name: string) {
    name != [] && NoAngle(name) && ' ' !in name && '/' !in name && '?' !in name
  }

  /** Attributes: empty or starting with a space, no angle bracket, not ending in a slash. */
  predicate ValidAttrs(attrs: string) {
    NoAngle(attrs) && (attrs == [] || (attrs[0] == ' ' && attrs[|attrs| - 1] != '/'))
  }

  predicate WellFormed(n: Node)
    decreases n
  {
    match n
    case Element(name, attrs, children) => ValidName(name) && ValidAttrs(attrs) && WellFormedAll(children)
    case EmptyElement(name, attrs) => ValidName(name) && ValidAttrs(attrs)
    case Text(content) => '<' !in content
  }

  predicate WellFormedAll(ns: seq<Node>)
    decreases ns
  {
    ns != [] ==> WellFormedAll(ns[..|ns| - 1]) && WellFormed(ns[|ns| - 1])
  }

  lemma {:induction false} WellFormedAllAppend(ns: seq<Node>, n: Node)
    requires WellFormedAll(ns) && WellFormed(n)
    ensures WellFormedAll(ns + [n])
  {
    assert (ns + [n])[..|ns|] == ns;
  }

  /** The tags a tree's serialisation holds. */
  function Events(n: Node): seq<Tag>
    decreases n
  {
    match n
    case Element(name, attrs, children) => [Tag(name + attrs)] + EventsAll(children) + [Tag("/" + name)]
    case EmptyElement(name, attrs) => [Tag(name + attrs + "/")]
    case Text(_) => []
  }

  function EventsAll(ns: seq<Node>): seq<Tag>
    decreases ns
  {
    if ns == [] then [] else EventsAll(ns[..|ns| - 1]) + Events(ns[|ns| - 1])
  }

  lemma {:induction false} TagsAfterText(t: string, s: string)
    requires '<' !in t
    ensures Tags(t + s) == Tags(s)
  {
    match FirstIndex(s, '<')
    case None =>
      NoneInConcat(t, s, '<');
      TagsNone(t + s);
      TagsNone(s);
    case Some(i) =>
      var p, q := s[..i], s[i + 1..];
      assert s == p + ['<'] + q;
      NoneInConcat(t, p, '<');
      assert t + s == (t + p) + ['<'] + q;
      TagsSkip(p, q);
      TagsSkip(t + p, q);
  }

  lemma NoneInConcat(a: string, b: string, c: char)
    requires c !in a && c !in b
    ensures c !in a + b
  {
    forall k | 0 <= k < |a + b| ensures (a + b)[k] != c {
      if k >= |a| { assert (a + b)[k] == b[k - |a|]; }
    }
  }

  lemma {:induction false} TagsAfterTag(b: string, s: string)
    requires NoAngle(b)
    ensures Tags("<" + b + ">" + s) == [Tag(b)] + Tags(s)
  {
    ConcatAssoc4("<", b, ">", s);
    ConcatAssoc(b, ">", s);
    assert "<" + (b + ['>'] + s) == [] + ['<'] + (b + ['>'] + s);
    TagsSkip([], b + ['>'] + s);
    FirstIndexAt(b, '>', s);
    assert (b + ['>'] + s)[..|b|] == b && (b + ['>'] + s)[|b| + 1..] == s;
  }

  lemma TagAngles(name: string, attrs: string)
    requires ValidName(name) && ValidAttrs(attrs)
    ensures NoAngle(name + attrs) && NoAngle(name + attrs + "/")
  {
    NoneInConcat(name, attrs, '<');
    NoneInConcat(name, attrs, '>');
    NoneInConcat(name + attrs, "/", '<');
    NoneInConcat(name + attrs, "/", '>');
  }

  lemma OpenTags(name: string, attrs: string, rest: string)
    requires ValidName(name) && ValidAttrs(attrs)
    ensures Tags("<" + name + attrs + ">" + rest) == [Tag(name + attrs)] + Tags(rest)
  {
    TagAngles(name, attrs);
    assert "<" + name + attrs + ">" + rest == "<" + (name + attrs) + ">" + rest;
    TagsAfterTag(name + attrs, rest);
  }

  lemma CloseTags(name: string, s: string)
    requires ValidName(name)
    ensures Tags("</" + name + ">" + s) == [Tag("/" + name)] + Tags(s)
  {
    NoneInConcat("/", name, '<');
    NoneInConcat("/", name, '>');
    assert "</" + name + ">" + s == "<" + ("/" + name) + ">" + s;
    TagsAfterTag("/" + name, s);
  }

  /** The tags of an element's serialisation followed by `s`, given the tags of its content. */
  lemma ElementTags(name: string, attrs: string, inner: string, innerTags: seq<Tag>, s: string)
    requires ValidName(name) && ValidAttrs(attrs)
    requires Tags(inner + ("</" + name + ">" + s)) == innerTags + Tags("</" + name + ">" + s)
    ensures Tags(("<" + name + attrs + ">") + inner + ("</" + name + ">") + s)
            == [Tag(name + attrs)] + innerTags + [Tag("/" + name)] + Tags(s)
  {
    var open, close := "<" + name + attrs + ">", "</" + name + ">";
    ConcatAssoc4(open, inner, close, s);
    OpenTags(name, attrs, inner + (close + s));
    CloseTags(name, s);
    ConcatAssoc4([Tag(name + attrs)], innerTags, [Tag("/" + name)], Tags(s));
  }

  /** Serialising a well-formed tree and scanning it back gives the tree's tags. */
  lemma {:induction false} TagsRender(n: Node, s: string)
    requires WellFormed(n)
    ensures Tags(Render(n) + s) == Events(n) + Tags(s)
    decreases n, 1
  {
    match n
    case Element(name, attrs, children) =>
      TagsRenderAll(children, "</" + name + ">" + s);
      ElementTags(name, attrs, RenderAll(children), EventsAll(children), s);
    case EmptyElement(name, attrs) =>
      TagAngles(name, attrs);
      assert Render(n) + s == "<" + (name + attrs + "/") + ">" + s;
      TagsAfterTag(name + attrs + "/", s);
    case Text(content) =>
      TagsAfterText(content, s);
  }

  lemma {:induction false} TagsRenderAll(ns: seq<Node>, s: string)
    requires WellFormedAll(ns)
    ensures Tags(RenderAll(ns) + s) == EventsAll(ns) + Tags(s)
    decreases ns, 0
  {
    if ns != [] {
      var init, last := ns[..|ns| - 1], ns[|ns| - 1];
      assert RenderAll(ns) + s == RenderAll(init) + (Render(last) + s);
      TagsRenderAll(init, Render(last) + s);
      TagsRender(last, s);
    }
  }

  /** What the stack check makes of an element's opening tag. */
  lemma OpenTagBody(name: string, attrs: string)
    requires ValidName(name) && ValidAttrs(attrs)
    ensures var b := name + attrs;
      !HasPrefix(b, "/") && !HasPrefix(b, "?") && b != [] && b[|b| - 1] != '/' && ElementName(b) == name
  {
    var b := name + attrs;
    assert b[0] == name[0];
    if attrs == [] {
      assert b == name;
    } else {
      assert b[|b| - 1] == attrs[|attrs| - 1];
      assert b == name + [' '] + attrs[1..];
      FirstIndexAt(name, ' ', attrs[1..]);
    }
  }

  lemma NestOpen(b: string, rest: seq<Tag>, open: seq<string>)
    requires !HasPrefix(b, "/") && !HasPrefix(b, "?") && (b == [] || b[|b| - 1] != '/')
    ensures Nest([Tag(b)] + rest, open) == Nest(rest, open + [ElementName(b)])
  {
    assert ([Tag(b)] + rest)[1..] == rest;
  }

  lemma NestClose(name: string, rest: seq<Tag>, open: seq<string>)
    ensures Nest([Tag("/" + name)] + rest, open + [name]) == Nest(rest, open)
  {
    assert ([Tag("/" + name)] + rest)[1..] == rest;
    assert (open + [name])[..|open|] == open;
    assert ("/" + name)[1..] == name;
  }

  lemma NestSelfClosing(b: string, rest: seq<Tag>, open: seq<string>)
    requires !HasPrefix(b, "/") && b != [] && b[|b| - 1] == '/'
    ensures Nest([Tag(b)] + rest, open) == Nest(rest, open)
  {
    assert ([Tag(b)] + rest)[1..] == rest;
  }

  /** The tags of a well-formed tree close everything they open. */
  lemma {:induction false} NestEvents(n: Node, rest: seq<Tag>, open: seq<string>)
    requires WellFormed(n)
    ensures Nest(Events(n) + rest, open) == Nest(rest, open)
    decreases n, 1
  {
    match n
    case Element(name, attrs, children) =>
      var closing := [Tag("/" + name)] + rest;
      calc {
        Nest(Events(n) + rest, open);
        { assert Events(n) + rest == [Tag(name + attrs)] + (EventsAll(children) + closing); }
        Nest([Tag(name + attrs)] + (EventsAll(children) + closing), open);
        { OpenTagBody(name, attrs); NestOpen(name + attrs, EventsAll(children) + closing, open); }
        Nest(EventsAll(children) + closing, open + [name]);
        { NestEventsAll(children, closing, open + [name]); }
        Nest(closing, open + [name]);
        { NestClose(name, rest, open); }
        Nest(rest, open);
      }
    case EmptyElement(name, attrs) =>
      var b := name + attrs + "/";
      assert Events(n) + rest == [Tag(b)] + rest;
      assert b[0] == name[0];
      NestSelfClosing(b, rest, open);
    case Text(_) =>
      assert Events(n) + rest == rest;
  }

  lemma {:induction false} NestEventsAll(ns: seq<Node>, rest: seq<Tag>, open: seq<string>)
    requires WellFormedAll(ns)
    ensures Nest(EventsAll(ns) + rest, open) == Nest(rest, open)
    decreases ns, 0
  {
    if ns != [] {
      var init, last := ns[..|ns| - 1], ns[|ns| - 1];
      calc {
        Nest(EventsAll(ns) + rest, open);
        { assert EventsAll(ns) + rest == EventsAll(init) + (Events(last) + rest); }
        Nest(EventsAll(init) + (Events(last) + rest), open);
        { NestEventsAll(init, Events(last) + rest, open); }
        Nest(Events(last) + rest, open);
        { NestEvents(last, rest, open); }
        Nest(rest, open);
      }
    } else {
      assert EventsAll(ns) + rest == rest;
    }
  }

  /** A string is free of angle brackets when each of its characters is. */
  lemma NoAngleOf(s: string)
    requires forall i :: 0 <= i < |s| ==> s[i] != '<' && s[i] != '>'
    ensures NoAngle(s)
  {
  }

  /** A name is valid when none of its characters is an angle bracket, a space, a slash or a question mark. */
  lemma NameOf(s: string)
    requires s != []
    requires forall i :: 0 <= i < |s| ==> s[i] != '<' && s[i] != '>' && s[i] != ' ' && s[i] != '/' && s[i] != '?'
    ensures ValidName(s)
  {
  }

  lemma NoAngleConcat(a: string, b: string)
    requires NoAngle(a) && NoAngle(b)
    ensures NoAngle(a + b)
  {
    NoneInConcat(a, b, '<');
    NoneInConcat(a, b, '>');
  }

  lemma {:induction false} WellFormedAllOf(ns: seq<Node>)
    requires forall i :: 0 <= i < |ns| ==> WellFormed(ns[i])
    ensures WellFormedAll(ns)
    decreases |ns|
  {
    if ns != [] {
      WellFormedAllOf(ns[..|ns| - 1]);
    }
  }

  lemma WellFormedSingle(n: Node)
    requires WellFormed(n)
    ensures WellFormedAll([n])
  {
    WellFormedAllAppend([], n);
    assert [] + [n] == [n];
  }

  /** An attribute as written into a start tag: a space, the name, `=` and the quoted value. */
  function Attr(name: string, value: string): (r: string)
    ensures r != [] && r[0] == ' ' && r[|r| - 1] == '"'
  {
    " " + name + "=\"" + value + "\""
  }

  lemma AttrValid(name: string, value: string)
    requires NoAngle(name) && NoAngle(value)
    ensures ValidAttrs(Attr(name, value))
  {
    NoAngleConcat(" " + name + "=\"", value);
    NoAngleConcat(" " + name + "=\"" + value, "\"");
  }

  lemma TwoAttrsValid(n1: string, v1: string, n2: string, v2: string)
    requires NoAngle(n1) && NoAngle(v1) && NoAngle(n2) && NoAngle(v2)
    ensures ValidAttrs(Attr(n1, v1) + Attr(n2, v2))
  {
    AttrValid(n1, v1);
    AttrValid(n2, v2);
    AttrsConcatValid(Attr(n1, v1), Attr(n2, v2));
  }

  lemma ThreeAttrsValid(n1: string, v1: string, n2: string, v2: string, n3: string, v3: string)
    requires NoAngle(n1) && NoAngle(v1) && NoAngle(n2) && NoAngle(v2) && NoAngle(n3) && NoAngle(v3)
    ensures ValidAttrs(Attr(n1, v1) + Attr(n2, v2) + Attr(n3, v3))
  {
    TwoAttrsValid(n1, v1, n2, v2);
    AttrValid(n3, v3);
    AttrsConcatValid(Attr(n1, v1) + Attr(n2, v2), Attr(n3, v3));
  }

  lemma FourAttrsValid(n1: string, v1: string, n2: string, v2: string, n3: string, v3: string, n4: string, v4: string)
    requires NoAngle(n1) && NoAngle(v1) && NoAngle(n2) && NoAngle(v2) && NoAngle(n3) && NoAngle(v3)
    requires NoAngle(n4) && NoAngle(v4)
    ensures ValidAttrs(Attr(n1, v1) + Attr(n2, v2) + Attr(n3, v3) + Attr(n4, v4))
  {
    ThreeAttrsValid(n1, v1, n2, v2, n3, v3);
    AttrValid(n4, v4);
    AttrsConcatValid(Attr(n1, v1) + Attr(n2, v2) + Attr(n3, v3), Attr(n4, v4));
  }

  lemma AttrsConcatValid(a: string, b: string)
    requires ValidAttrs(a) && ValidAttrs(b) && b != []
    ensures ValidAttrs(a + b)
  {
    NoAngleConcat(a, b);
    if a != [] { assert (a + b)[0] == a[0]; }
    assert (a + b)[|a + b| - 1] == b[|b| - 1];
  }

  lemma WellFormedConcat(ns: seq<Node>, ms: seq<Node>)
    requires forall i :: 0 <= i < |ns| ==> WellFormed(ns[i])
    requires forall i :: 0 <= i < |ms| ==> WellFormed(ms[i])
    ensures forall i :: 0 <= i < |ns + ms| ==> WellFormed((ns + ms)[i])
  {
    forall i | 0 <= i < |ns + ms| ensures WellFormed((ns + ms)[i]) {
      if i >= |ns| {
        assert (ns + ms)[i] == ms[i - |ns|];
      }
    }
  }

  lemma SixWellFormed(a: Node, b: Node, c: Node, d: Node, e: Node, f: Node)
    requires WellFormed(a) && WellFormed(b) && WellFormed(c) && WellFormed(d) && WellFormed(e) && WellFormed(f)
    ensures WellFormedAll([a, b, c, d, e, f])
  {
    var ns := [a, b, c, d, e, f];
    assert forall i :: 0 <= i < |ns| ==> WellFormed(ns[i]);
    WellFormedAllOf(ns);
  }

  lemma ElementWellFormed(name: string, attrs: string, children: seq<Node>)
    requires ValidName(name) && ValidAttrs(attrs)
    requires forall i :: 0 <= i < |children| ==> WellFormed(children[i])
    ensures WellFormed(Element(name, attrs, children))
  {
    WellFormedAllOf(children);
  }

  /** A processing instruction such as an XML declaration opens nothing. */
  lemma DeclarationNested(b: string, s: string)
    requires NoAngle(b) && HasPrefix(b, "?")
    ensures WellNested("<" + b + ">" + s) == WellNested(s)
  {
    TagsAfterTag(b, s);
    assert ([Tag(b)] + Tags(s))[1..] == Tags(s);
  }

  /** The serialisation of a well-formed tree is well nested. */
  lemma RenderWellNested(n: Node)
    requires WellFormed(n)
    ensures WellNested(Render(n))
  {
    TagsRender(n, "");
    assert Render(n) + "" == Render(n);
    assert Tags("") == [];
    NestEvents(n, [], []);
    assert Events(n) + [] == Events(n);
    assert Nest([], []);
  }
}
