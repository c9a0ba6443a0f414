/** Function-call code generation of the app-uts template compiler (Kotlin
    target): a template tree becomes nested `createElementVNode` /
    `createVNode` calls, and in function mode the call is wrapped in a Kotlin
    render function preceded by one import per easycom component and one
    declaration per distinct component tag. The parser and the component
    resolvers are outside the model: the tree arrives with its component
    elements already told apart, and the resolvers are a parameter. */
module UtsCodegen {
  import opened Wrappers
  import opened Strings

  // ---------------------------------------------------------------------
  // Input tree

  /** A static attribute `name="value"`. */
  datatype Attr = Attr(name: string, value: string)

  /** A template node: a native element with static attributes and
      children, a component element (its tag recognised by a component
      resolver), or a `{{expr}}` interpolation. */
  datatype Node =
    | Element(tag: string, attrs: seq<Attr>, children: seq<Node>)
    | Component(tag: string)
    | Interpolation(expr: string)

  /** Where a component tag comes from: a UTS component (a Kotlin class in a
      plugin namespace) or an easycom component file. */
  datatype ComponentSource =
    | UtsComponent(namespace: string, className: string)
    | Easycom(path: string)

  /** Plain expression output, or a Kotlin render function. */
  datatype Mode = Default | Function

  // ---------------------------------------------------------------------
  // Expressions

  function Quote(s: string): string {
    "\"" + s + "\""
  }

  /** `2 * level` spaces. */
  function Indent(level: nat): (r: string)
    ensures |r| == 2 * level
  {
    if level == 0 then "" else "  " + Indent(level - 1)
  }

  /** The indentation is made of spaces only. */
  lemma {:induction false} IndentSpaces(level: nat, i: nat)
    requires i < 2 * level
    ensures Indent(level)[i] == ' '
  {
    if i >= 2 {
      IndentSpaces(level - 1, i - 2);
    }
  }

  function OrNull(arg: Option<string>): string {
    if arg.Some? then arg.value else "null"
  }

  /** The argument list of a call whose optional arguments may be absent:
      absent arguments at the end are dropped, absent ones before a present
      one are written `null`. */
  function NullableArgs(args: seq<Option<string>>): (r: seq<string>)
    ensures |r| <= |args|
    ensures forall i :: 0 <= i < |r| ==> r[i] == OrNull(args[i])
    ensures r != [] ==> args[|r| - 1].Some?
    ensures forall i :: |r| <= i < |args| ==> args[i].None?
  {
    if args == [] then []
    else if args[|args| - 1].None? then NullableArgs(args[..|args| - 1])
    else seq(|args|, i requires 0 <= i < |args| => OrNull(args[i]))
  }

  /** `["name", "value"]`. */
  function AttrEntry(a: Attr): string {
    "[" + Quote(a.name) + ", " + Quote(a.value) + "]"
  }

  /** The props argument: a Kotlin `Map` literal of the static attributes. */
  function MapLiteral(attrs: seq<Attr>): (r: string)
    ensures |r| >= 3 && r[..3] == "new"
  {
    var prefix := "new Map<string, any | null>([";
    var r := prefix + Join(seq(|attrs|, i requires 0 <= i < |attrs| => AttrEntry(attrs[i])), ", ") + "])";
    assert r[..3] == prefix[..3];
    r
  }

  /** The props argument is present exactly when there are attributes. */
  function PropsArg(attrs: seq<Attr>): (r: Option<string>)
    ensures r.Some? <==> attrs != []
    ensures r.Some? ==> r.value != "null"
  {
    if attrs == [] then None else Some(MapLiteral(attrs))
  }

  /** `toDisplayString(_ctx.expr)`. */
  function DisplayCall(expr: string): string {
    "toDisplayString(_ctx." + expr + ")"
  }

  /** The patch flag of dynamic text content. */
  const TextFlag := "1 /* TEXT */"

  /** The children are one interpolation, passed as text content. */
  predicate IsTextContent(children: seq<Node>) {
    |children| == 1 && children[0].Interpolation?
  }

  /** The patch flag: TEXT exactly when the content is an interpolation. */
  function PatchFlagArg(children: seq<Node>): (r: Option<string>)
    ensures r.Some? <==> IsTextContent(children)
  {
    if IsTextContent(children) then Some(TextFlag) else None
  }

  /** `_component_` followed by the tag with every `-` turned into `_`. */
  function ComponentIdent(tag: string): string {
    "_component_" + MapChar(tag, '-', '_')
  }

  /** `_easycom_` followed by the tag with every `-` turned into `_`. */
  function EasycomIdent(tag: string): string {
    "_easycom_" + MapChar(tag, '-', '_')
  }

  /** `createVNode(_component_tag)`: a use of a declared component. */
  function ComponentCall(tag: string): string {
    "createVNode(" + ComponentIdent(tag) + ")"
  }

  /** The code of a node at indentation `level`. */
  function GenNode(n: Node, level: nat): string
    decreases n, 3
  {
    match n
    case Interpolation(e) => DisplayCall(e)
    case Component(t) => ComponentCall(t)
    case Element(_, _, _) => "createElementVNode(" + Join(ElementArgs(n, level), ", ") + ")"
  }

  /** The arguments of `createElementVNode`: the quoted tag, then props,
      children and patch flag, each only when needed. */
  function ElementArgs(n: Node, level: nat): seq<string>
    requires n.Element?
    decreases n, 2
  {
    NullableArgs([Some(Quote(n.tag)), PropsArg(n.attrs), ChildrenArg(n, level), PatchFlagArg(n.children)])
  }

  /** The children argument: none for no children, the display call for a
      single interpolation, otherwise an array literal with one child per
      line one level deeper. */
  function ChildrenArg(n: Node, level: nat): (r: Option<string>)
    requires n.Element?
    ensures r.Some? <==> n.children != []
    ensures r.Some? ==> r.value != "null"
    decreases n, 1
  {
    var cs := n.children;
    if cs == [] then None
    else if IsTextContent(cs) then Some(DisplayCall(cs[0].expr))
    else
      var r := "[\n" + Join(ChildLines(n, level + 1), ",\n") + "\n" + Indent(level) + "]";
      assert r[0] == '[';
      Some(r)
  }

  /** The children of an element, one line each at `level`. */
  function ChildLines(n: Node, level: nat): (r: seq<string>)
    requires n.Element?
    ensures |r| == |n.children|
    ensures forall i :: 0 <= i < |r| ==> r[i] == ChildLine(n.children[i], level)
    decreases n, 0
  {
    seq(|n.children|, i requires 0 <= i < |n.children| => ChildLine(n.children[i], level))
  }

  /** A child on its own line: indentation, then its code. */
  function ChildLine(c: Node, level: nat): string
    decreases c, 4
  {
    Indent(level) + GenNode(c, level)
  }

  /** `createElementVNode` takes one argument for a bare element, two for an
      element with attributes only, three for element children and four for
      interpolated text; its props argument is `null` exactly when the element
      has children but no attributes, and its last argument is the TEXT flag
      exactly for interpolated text. */
  lemma ElementArity(n: Node, level: nat)
    requires n.Element?
    ensures var args := ElementArgs(n, level);
      |args| >= 1 && args[0] == Quote(n.tag) &&
      (|args| == 1 <==> n.attrs == [] && n.children == []) &&
      (|args| == 2 <==> n.attrs != [] && n.children == []) &&
      (|args| == 3 <==> n.children != [] && !IsTextContent(n.children)) &&
      (|args| == 4 <==> IsTextContent(n.children)) &&
      (|args| >= 2 ==> (args[1] == "null" <==> n.attrs == [])) &&
      (|args| == 4 ==> args[2] == DisplayCall(n.children[0].expr) && args[3] == TextFlag)
  {
    var raw := [Some(Quote(n.tag)), PropsArg(n.attrs), ChildrenArg(n, level), PatchFlagArg(n.children)];
    var args := ElementArgs(n, level);
    assert raw[0].Some?;
    if IsTextContent(n.children) {
      assert raw[3].Some?;
    } else if n.children != [] {
      assert raw[2].Some? && raw[3].None?;
    } else if n.attrs != [] {
      assert raw[1].Some? && raw[2].None? && raw[3].None?;
    } else {
      assert raw[1].None? && raw[2].None? && raw[3].None?;
    }
  }

  // ---------------------------------------------------------------------
  // Components

  function Flatten(ss: seq<seq<string>>): (r: seq<string>)
    ensures forall x :: x in r <==> exists i :: 0 <= i < |ss| && x in ss[i]
  {
    if ss == [] then []
    else
      var r := ss[0] + Flatten(ss[1..]);
      assert forall i :: 1 <= i < |ss| ==> ss[i] == ss[1..][i - 1];
      r
  }

  /** The component tags of a tree in document order, one entry per use. */
  function ComponentTags(n: Node): (r: seq<string>)
    ensures n.Component? ==> r == [n.tag]
    ensures n.Interpolation? ==> r == []
    ensures n.Element? ==> forall t :: t in r <==> exists i :: 0 <= i < |n.children| && t in ComponentTags(n.children[i])
  {
    match n
    case Component(t) => [t]
    case Interpolation(_) => []
    case Element(_, _, cs) =>
      var parts := seq(|cs|, i requires 0 <= i < |cs| => ComponentTags(cs[i]));
      assert forall i :: 0 <= i < |cs| ==> parts[i] == ComponentTags(cs[i]);
      Flatten(parts)
  }

  /** The declared components: each distinct tag once, in the order of its
      first use. */
  function DeclaredTags(root: Node): seq<string> {
    Dedup(ComponentTags(root))
  }

  /** Every component used is declared, and nothing else is. */
  lemma DeclaredIffUsed(root: Node, t: string)
    ensures t in DeclaredTags(root) <==> t in ComponentTags(root)
  {
  }

  /** Each component is declared once, however often it is used. */
  lemma DeclaredOnce(root: Node)
    ensures NoDuplicates(DeclaredTags(root))
  {
    DedupNoDuplicates(ComponentTags(root));
  }

  /** Declarations follow the order of first use. */
  lemma DeclaredInFirstUseOrder(root: Node, i: nat, j: nat)
    requires i < j < |DeclaredTags(root)|
    ensures IndexOf(ComponentTags(root), DeclaredTags(root)[i]) < IndexOf(ComponentTags(root), DeclaredTags(root)[j])
  {
    DedupFirstOccurrenceOrder(ComponentTags(root), i, j);
  }

  /** Tags without `_` get distinct identifiers, so no two declarations
      clash. */
  lemma ComponentIdentInjective(a: string, b: string)
    requires '_' !in a && '_' !in b
    requires ComponentIdent(a) == ComponentIdent(b)
    ensures a == b
  {
    var p := "_component_";
    var ma, mb := MapChar(a, '-', '_'), MapChar(b, '-', '_');
    assert ma == ComponentIdent(a)[|p|..] == ComponentIdent(b)[|p|..] == mb;
    forall i | 0 <= i < |a|
      ensures a[i] == b[i]
    {
      assert a[i] in a && b[i] in b;
      MapCharAt(a, '-', '_', i);
      MapCharAt(b, '-', '_', i);
    }
  }

  /** The tags among `tags` that resolve to easycom components, in order. */
  function EasycomTags(tags: seq<string>, resolve: string -> ComponentSource): (r: seq<string>)
    ensures forall t :: t in r <==> t in tags && resolve(t).Easycom?
  {
    if tags == [] then []
    else
      var rest := EasycomTags(tags[1..], resolve);
      assert forall t :: t in tags <==> t == tags[0] || t in tags[1..];
      if resolve(tags[0]).Easycom? then [tags[0]] + rest else rest
  }

  /** The easycom tags keep the relative order they have in `tags`. */
  lemma {:induction false} EasycomTagsKeepOrder(tags: seq<string>, resolve: string -> ComponentSource, i: nat, j: nat)
    requires NoDuplicates(tags)
    requires i < j < |EasycomTags(tags, resolve)|
    ensures IndexOf(tags, EasycomTags(tags, resolve)[i]) < IndexOf(tags, EasycomTags(tags, resolve)[j])
  {
    var r := EasycomTags(tags, resolve);
    var rest := EasycomTags(tags[1..], resolve);
    var x, y := r[i], r[j];
    assert tags == [tags[0]] + tags[1..];
    assert y in tags[1..] by {
      if resolve(tags[0]).Easycom? {
        assert y == rest[j - 1];
        assert y in rest;
      } else {
        assert y in rest;
      }
    }
    assert y != tags[0] by {
      var k :| 0 <= k < |tags[1..]| && tags[1..][k] == y;
      assert tags[k + 1] == y;
    }
    if resolve(tags[0]).Easycom? && i == 0 {
      assert x == tags[0];
      assert IndexOf(tags, x) == 0;
      assert IndexOf(tags, y) != 0;
    } else {
      var d := if resolve(tags[0]).Easycom? then 1 else 0;
      var i', j' := i - d, j - d;
      assert x == rest[i'] && y == rest[j'];
      assert x in rest;
      assert x != tags[0] by {
        var k :| 0 <= k < |tags[1..]| && tags[1..][k] == x;
        assert tags[k + 1] == x;
      }
      assert NoDuplicates(tags[1..]) by {
        forall a, b | 0 <= a < b < |tags[1..]| ensures tags[1..][a] != tags[1..][b] {
          assert tags[1..][a] == tags[a + 1] && tags[1..][b] == tags[b + 1];
        }
      }
      EasycomTagsKeepOrder(tags[1..], resolve, i', j');
      IndexOfTail(tags, x);
      IndexOfTail(tags, y);
    }
  }

  /** Past a first element that differs, the first index is one more than in
      the tail. */
  lemma IndexOfTail(s: seq<string>, x: string)
    requires s != [] && x != s[0] && x in s
    ensures IndexOf(s, x) == IndexOf(s[1..], x) + 1
  {
    var k := IndexOf(s, x);
    var k' := IndexOf(s[1..], x);
    assert s[1..][k - 1] == x;
    assert k' <= k - 1;
    assert s[k' + 1] == x;
  }

  // ---------------------------------------------------------------------
  // Kotlin render function

  /** Each line followed by a newline. */
  function Lines(ls: seq<string>): (r: string)
    ensures ls == [] ==> r == ""
    ensures |ls| == 1 ==> r == ls[0] + "\n"
  {
    if ls == [] then "" else ls[0] + "\n" + Lines(ls[1..])
  }

  /** The lines joined by newlines, with a newline after the last one. */
  lemma {:induction false} LinesJoin(ls: seq<string>)
    requires ls != []
    ensures Lines(ls) == Join(ls, "\n") + "\n"
  {
    if |ls| > 1 {
      LinesJoin(ls[1..]);
    }
  }

  /** `import _easycom_tag from 'path'`, the path being the one the
      resolver gives for the tag. */
  function ImportLine(tag: string, resolve: string -> ComponentSource): string
    requires resolve(tag).Easycom?
  {
    "import " + EasycomIdent(tag) + " from '" + resolve(tag).path + "'"
  }

  /** `const _component_tag = …`: a UTS component names its class, an easycom
      component is resolved against its import. */
  function DeclarationLine(tag: string, resolve: string -> ComponentSource): string {
    "const " + ComponentIdent(tag) + " = " +
    match resolve(tag)
    case UtsComponent(ns, cls) => ns + "." + cls + ".name"
    case Easycom(_) => "resolveEasyComponent(" + Quote(tag) + "," + EasycomIdent(tag) + ")"
  }

  /** The import lines of easycom tags. */
  function ImportLines(ts: seq<string>, resolve: string -> ComponentSource): (r: seq<string>)
    requires forall i :: 0 <= i < |ts| ==> resolve(ts[i]).Easycom?
    ensures |r| == |ts|
    ensures forall i :: 0 <= i < |ts| ==> r[i] == ImportLine(ts[i], resolve)
  {
    seq(|ts|, i requires 0 <= i < |ts| => ImportLine(ts[i], resolve))
  }

  /** The declaration lines of component tags. */
  function DeclarationLines(ts: seq<string>, resolve: string -> ComponentSource): (r: seq<string>)
    ensures |r| == |ts|
    ensures forall i :: 0 <= i < |ts| ==> r[i] == DeclarationLine(ts[i], resolve)
  {
    seq(|ts|, i requires 0 <= i < |ts| => DeclarationLine(ts[i], resolve))
  }

  /** One import per declared easycom component, in declaration order. */
  function Imports(root: Node, resolve: string -> ComponentSource): string {
    var ts := EasycomTags(DeclaredTags(root), resolve);
    assert forall i :: 0 <= i < |ts| ==> resolve(ts[i]).Easycom? by {
      forall i | 0 <= i < |ts| ensures resolve(ts[i]).Easycom? {
        assert ts[i] in ts;
      }
    }
    Lines(ImportLines(ts, resolve))
  }

  /** One declaration per declared component, followed by a blank line when
      there is any. */
  function Declarations(root: Node, resolve: string -> ComponentSource): string {
    var ts := DeclaredTags(root);
    if ts == [] then "" else Lines(DeclarationLines(ts, resolve)) + "\n"
  }

  /** The opening line of the render function of the page class `className`. */
  function FunctionHeader(className: string): string {
    "@Suppress(\"UNUSED_PARAMETER\") function " + className + "Render(_ctx: " + className + "): VNode | null {\n"
  }

  /** The compiled template: the root's call expression, or in function mode
      that expression returned from the render function, after the imports
      and declarations of its components. */
  function Compile(root: Node, mode: Mode, className: string, resolve: string -> ComponentSource): string {
    match mode
    case Default => GenNode(root, 0)
    case Function =>
      Imports(root, resolve) + FunctionHeader(className) + Declarations(root, resolve) +
      "  return " + GenNode(root, 1) + "\n}"
  }

  /** A template without components compiles in function mode to the header,
      the return statement and the closing brace: no imports, no
      declarations. */
  lemma NoComponentsNoPreamble(root: Node, className: string, resolve: string -> ComponentSource)
    requires ComponentTags(root) == []
    ensures Compile(root, Function, className, resolve) ==
      FunctionHeader(className) + "  return " + GenNode(root, 1) + "\n}"
  {
    assert DeclaredTags(root) == [];
    assert EasycomTags(DeclaredTags(root), resolve) == [];
    assert ImportLines([], resolve) == [];
    var h := FunctionHeader(className);
    assert Imports(root, resolve) == "" && Declarations(root, resolve) == "";
    assert "" + h + "" == h;
  }

  /** Only easycom components are imported: without them there are no
      imports. */
  lemma NoEasycomNoImports(root: Node, resolve: string -> ComponentSource)
    requires forall t :: t in ComponentTags(root) ==> resolve(t).UtsComponent?
    ensures Imports(root, resolve) == ""
  {
  }

  /** The imported easycom components are exactly the used ones resolved to
      easycom files, each once, in the order of first use. */
  lemma ImportedEasycoms(root: Node, resolve: string -> ComponentSource)
    ensures forall t :: t in EasycomTags(DeclaredTags(root), resolve) <==> t in ComponentTags(root) && resolve(t).Easycom?
    ensures forall i, j :: 0 <= i < j < |EasycomTags(DeclaredTags(root), resolve)| ==>
      IndexOf(ComponentTags(root), EasycomTags(DeclaredTags(root), resolve)[i]) <
      IndexOf(ComponentTags(root), EasycomTags(DeclaredTags(root), resolve)[j])
  {
    var d := DeclaredTags(root);
    var e := EasycomTags(d, resolve);
    DeclaredOnce(root);
    forall i, j | 0 <= i < j < |e|
      ensures IndexOf(ComponentTags(root), e[i]) < IndexOf(ComponentTags(root), e[j])
    {
      EasycomTagsKeepOrder(d, resolve, i, j);
      var i', j' := IndexOf(d, e[i]), IndexOf(d, e[j]);
      DeclaredInFirstUseOrder(root, i', j');
    }
  }
}
