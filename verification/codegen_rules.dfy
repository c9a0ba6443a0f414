/** The outputs the app-uts codegen suite pins, derived from the printer
    (`packages/uni-app-uts/__tests__/codegen.spec.ts`). Each expected text is
    written as the concatenation of the pieces the printer produces; the
    pieces are established one per helper lemma. */
module UtsCodegenRules {
  import opened Wrappers
  import opened Strings
  import opened UtsCodegen

  // ---------------------------------------------------------------------
  // Generic unfoldings

  lemma Join2(a: string, b: string, sep: string)
    ensures Join([a, b], sep) == a + sep + b
  {
    assert [a, b][1..] == [b];
  }

  lemma Join3(a: string, b: string, c: string, sep: string)
    ensures Join([a, b, c], sep) == a + sep + (b + sep + c)
  {
    assert [a, b, c][1..] == [b, c];
    Join2(b, c, sep);
  }

  lemma Join4(a: string, b: string, c: string, d: string, sep: string)
    ensures Join([a, b, c, d], sep) == a + sep + (b + sep + (c + sep + d))
  {
    assert [a, b, c, d][1..] == [b, c, d];
    Join3(b, c, d, sep);
  }

  lemma Lines2(a: string, b: string)
    ensures Lines([a, b]) == a + "\n" + (b + "\n")
  {
    assert [a, b][1..] == [b];
  }

  lemma Indent1()
    ensures Indent(1) == "  "
  {
    assert Indent(0) == "";
  }

  lemma Indent2()
    ensures Indent(2) == "    "
  {
    Indent1();
  }

  /** Whatever resolver is given; the plain-mode tests use none. */
  function NoResolver(): string -> ComponentSource {
    t => Easycom("")
  }

  /** A bare element: the tag is the only argument. */
  lemma BareElement(tag: string, level: nat)
    ensures GenNode(Element(tag, [], []), level) == "createElementVNode(" + Quote(tag) + ")"
  {
    ElementArity(Element(tag, [], []), level);
  }

  /** An element without attributes whose children form an array: `null`
      props and the array. */
  lemma ArrayElement(n: Node, level: nat)
    requires n.Element? && n.attrs == [] && n.children != [] && !IsTextContent(n.children)
    ensures GenNode(n, level) == "createElementVNode(" + (Quote(n.tag) + ", " + ("null" + ", " + ChildrenArg(n, level).value)) + ")"
  {
    ElementArity(n, level);
    var args := ElementArgs(n, level);
    assert args == [args[0], args[1], args[2]];
    Join3(args[0], args[1], args[2], ", ");
  }

  /** The array of two children. */
  lemma ArrayOfTwo(n: Node, level: nat)
    requires n.Element? && |n.children| == 2
    ensures ChildrenArg(n, level).value ==
      "[\n" + (ChildLine(n.children[0], level + 1) + ",\n" + ChildLine(n.children[1], level + 1)) + "\n" + Indent(level) + "]"
  {
    var ls := ChildLines(n, level + 1);
    assert ls == [ls[0], ls[1]];
    Join2(ls[0], ls[1], ",\n");
  }

  /** The array of three children. */
  lemma ArrayOfThree(n: Node, level: nat)
    requires n.Element? && |n.children| == 3
    ensures ChildrenArg(n, level).value ==
      "[\n" + (ChildLine(n.children[0], level + 1) + ",\n" +
               (ChildLine(n.children[1], level + 1) + ",\n" + ChildLine(n.children[2], level + 1))) +
      "\n" + Indent(level) + "]"
  {
    var ls := ChildLines(n, level + 1);
    assert ls == [ls[0], ls[1], ls[2]];
    Join3(ls[0], ls[1], ls[2], ",\n");
  }

  /** The declarations of a tree declaring one component. */
  lemma OneDeclaration(root: Node, r: string -> ComponentSource, a: string)
    requires DeclaredTags(root) == [a]
    ensures Declarations(root, r) == DeclarationLine(a, r) + "\n" + "\n"
  {
    var ls := DeclarationLines([a], r);
    assert ls == [ls[0]];
  }

  /** The declarations of a tree declaring two components. */
  lemma TwoDeclarations(root: Node, r: string -> ComponentSource, a: string, b: string)
    requires DeclaredTags(root) == [a, b]
    ensures Declarations(root, r) == DeclarationLine(a, r) + "\n" + (DeclarationLine(b, r) + "\n") + "\n"
  {
    var ls := DeclarationLines([a, b], r);
    assert ls == [ls[0], ls[1]];
    Lines2(ls[0], ls[1]);
  }

  /** The imports of a tree with two easycom components. */
  lemma TwoImports(root: Node, r: string -> ComponentSource, a: string, b: string)
    requires EasycomTags(DeclaredTags(root), r) == [a, b]
    ensures r(a).Easycom? && r(b).Easycom?
    ensures Imports(root, r) == ImportLine(a, r) + "\n" + (ImportLine(b, r) + "\n")
  {
    assert a in [a, b] && b in [a, b];
    var ls := ImportLines([a, b], r);
    assert ls == [ls[0], ls[1]];
    Lines2(ls[0], ls[1]);
  }

  /** A tree whose root holds only components lists their tags in order. */
  lemma ComponentTagsOfComponents(tag: string, ts: seq<string>)
    ensures ComponentTags(Element(tag, [], seq(|ts|, i requires 0 <= i < |ts| => Component(ts[i])))) == ts
  {
    var cs := seq(|ts|, i requires 0 <= i < |ts| => Component(ts[i]));
    var parts := seq(|cs|, i requires 0 <= i < |cs| => ComponentTags(cs[i]));
    assert parts == seq(|ts|, i requires 0 <= i < |ts| => [ts[i]]);
    FlattenSingletons(ts);
  }

  lemma {:induction false} FlattenSingletons(ts: seq<string>)
    ensures Flatten(seq(|ts|, i requires 0 <= i < |ts| => [ts[i]])) == ts
  {
    var ss := seq(|ts|, i requires 0 <= i < |ts| => [ts[i]]);
    if ts != [] {
      assert ss[1..] == seq(|ts[1..]|, i requires 0 <= i < |ts[1..]| => [ts[1..][i]]);
      FlattenSingletons(ts[1..]);
      assert ts == [ts[0]] + ts[1..];
    }
  }

  // ---------------------------------------------------------------------
  // Quoted names

  lemma QuoteView()
    ensures Quote("view") == "\"view\""
  {
  }

  lemma QuoteText()
    ensures Quote("text") == "\"text\""
  {
  }

  lemma QuoteStyle()
    ensures Quote("style") == "\"style\""
  {
  }

  lemma QuoteStyleValue()
    ensures Quote("width:100px;height:100px;") == "\"width:100px;height:100px;\""
  {
  }

  lemma QuoteCustom()
    ensures Quote("custom") == "\"custom\""
  {
  }

  lemma QuoteCustom1()
    ensures Quote("custom1") == "\"custom1\""
  {
  }

  // ---------------------------------------------------------------------
  // default (codegen.spec.ts lines 4-14)

  /** `<view/>` gives `createElementVNode("view")`. */
  lemma BareView()
    ensures Compile(Element("view", [], []), Default, "", NoResolver()) == "createElementVNode(" + "\"view\"" + ")"
  {
    BareElement("view", 0);
    QuoteView();
  }

  /** A one-attribute `Map` literal. */
  lemma MapLiteralOne(a: Attr)
    ensures MapLiteral([a]) == "new Map<string, any | null>([" + AttrEntry(a) + "])"
  {
    assert seq(1, i requires 0 <= i < 1 => AttrEntry([a][i])) == [AttrEntry(a)];
  }

  function StyleAttrs(): seq<Attr> {
    [Attr("style", "width:100px;height:100px;")]
  }

  lemma StyleEntry()
    ensures MapLiteral(StyleAttrs()) ==
      "new Map<string, any | null>([" + ("[" + "\"style\"" + ", " + "\"width:100px;height:100px;\"" + "]") + "])"
  {
    MapLiteralOne(StyleAttrs()[0]);
    QuoteStyle();
    QuoteStyleValue();
  }

  /** An element with attributes only: the tag and the `Map` literal. */
  lemma AttributedElement(tag: string, attrs: seq<Attr>, level: nat)
    requires attrs != []
    ensures GenNode(Element(tag, attrs, []), level) == "createElementVNode(" + (Quote(tag) + ", " + MapLiteral(attrs)) + ")"
  {
    var n := Element(tag, attrs, []);
    ElementArity(n, level);
    var args := ElementArgs(n, level);
    assert args == [args[0], args[1]];
    Join2(args[0], args[1], ", ");
  }

  /** A static `style` attribute becomes a second argument holding a `Map`
      literal. */
  lemma StyledView()
    ensures Compile(Element("view", StyleAttrs(), []), Default, "", NoResolver()) ==
      "createElementVNode(" + ("\"view\"" + ", " +
      ("new Map<string, any | null>([" + ("[" + "\"style\"" + ", " + "\"width:100px;height:100px;\"" + "]") + "])")) + ")"
  {
    AttributedElement("view", StyleAttrs(), 0);
    StyleEntry();
    QuoteView();
  }

  /** An element whose only child is an interpolation. */
  lemma TextElement(tag: string, expr: string, level: nat)
    ensures GenNode(Element(tag, [], [Interpolation(expr)]), level) ==
      "createElementVNode(" + (Quote(tag) + ", " + ("null" + ", " + (DisplayCall(expr) + ", " + TextFlag))) + ")"
  {
    var n := Element(tag, [], [Interpolation(expr)]);
    ElementArity(n, level);
    var args := ElementArgs(n, level);
    assert args == [args[0], args[1], args[2], args[3]];
    Join4(args[0], args[1], args[2], args[3], ", ");
  }

  /** `<text>{{msg}}</text>`: `null` props, the display call as content and
      the TEXT flag. */
  lemma InterpolatedText()
    ensures Compile(Element("text", [], [Interpolation("msg")]), Default, "", NoResolver()) ==
      "createElementVNode(" + ("\"text\"" + ", " + ("null" + ", " +
      ("toDisplayString(_ctx." + "msg" + ")" + ", " + "1 /* TEXT */"))) + ")"
  {
    TextElement("text", "msg", 0);
    QuoteText();
  }

  // ---------------------------------------------------------------------
  // function:kotlin (codegen.spec.ts lines 15-24)

  /** In function mode `<view/>` is returned from the render function of the
      page class. */
  lemma KotlinRenderFunction()
    ensures Compile(Element("view", [], []), Function, "PagesIndexIndex", NoResolver()) ==
      "@Suppress(\"UNUSED_PARAMETER\") function " + "PagesIndexIndex" + "Render(_ctx: " + "PagesIndexIndex" +
      "): VNode | null {\n" + "  return " + ("createElementVNode(" + "\"view\"" + ")") + "\n}"
  {
    var root := Element("view", [], []);
    assert ComponentTags(root) == [];
    NoComponentsNoPreamble(root, "PagesIndexIndex", NoResolver());
    BareElement("view", 1);
    QuoteView();
  }

  // ---------------------------------------------------------------------
  // UTSComponents:kotlin (codegen.spec.ts lines 25-43)

  function UtsHello(): string -> ComponentSource {
    t => UtsComponent("uts.sdk.modules.utsHello", "UtsHelloComponent")
  }

  function TwoHellos(): Node {
    Element("view", [], [Component("uts-hello"), Component("uts-hello")])
  }

  lemma UtsHelloIdent()
    ensures ComponentIdent("uts-hello") == "_component_" + "uts_hello"
  {
    var r := MapChar("uts-hello", '-', '_');
    forall i | 0 <= i < 9
      ensures r[i] == "uts_hello"[i]
    {
      MapCharAt("uts-hello", '-', '_', i);
    }
    assert r == "uts_hello";
  }

  lemma TwoHellosTags()
    ensures ComponentTags(TwoHellos()) == ["uts-hello", "uts-hello"]
  {
    var ts := ["uts-hello", "uts-hello"];
    assert TwoHellos() == Element("view", [], seq(|ts|, i requires 0 <= i < |ts| => Component(ts[i])));
    ComponentTagsOfComponents("view", ts);
  }

  lemma TwoHellosDeclared()
    ensures DeclaredTags(TwoHellos()) == ["uts-hello"]
  {
    TwoHellosTags();
    var ts := ["uts-hello", "uts-hello"];
    assert ts[..1] == ["uts-hello"];
    assert Dedup(["uts-hello"]) == ["uts-hello"] by {
      assert ["uts-hello"][..0] == [];
    }
  }

  lemma HelloLine(level: nat)
    requires level == 2
    ensures ChildLine(Component("uts-hello"), level) == "    " + ("createVNode(" + ("_component_" + "uts_hello") + ")")
  {
    UtsHelloIdent();
    Indent2();
  }

  lemma UtsHelloDeclarationLine()
    ensures DeclarationLine("uts-hello", UtsHello()) ==
      "const " + ("_component_" + "uts_hello") + " = " + ("uts.sdk.modules.utsHello" + "." + "UtsHelloComponent" + ".name")
  {
    UtsHelloIdent();
  }

  lemma UtsHelloDeclaration()
    ensures Declarations(TwoHellos(), UtsHello()) ==
      "const " + ("_component_" + "uts_hello") + " = " + ("uts.sdk.modules.utsHello" + "." + "UtsHelloComponent" + ".name") + "\n" + "\n"
  {
    TwoHellosDeclared();
    OneDeclaration(TwoHellos(), UtsHello(), "uts-hello");
    UtsHelloDeclarationLine();
  }

  // The level is a parameter so that the call is not evaluated on constants.
  lemma TwoHellosShape(level: nat)
    requires level == 1
    ensures GenNode(TwoHellos(), level) ==
      "createElementVNode(" + (Quote("view") + ", " + ("null" + ", " +
      ("[\n" + (ChildLine(Component("uts-hello"), level + 1) + ",\n" + ChildLine(Component("uts-hello"), level + 1)) +
       "\n" + Indent(level) + "]"))) + ")"
  {
    ArrayElement(TwoHellos(), level);
    ArrayOfTwo(TwoHellos(), level);
  }

  lemma TwoHellosCall(level: nat)
    requires level == 1
    ensures GenNode(TwoHellos(), level) ==
      "createElementVNode(" + ("\"view\"" + ", " + ("null" + ", " +
      ("[\n" + (("    " + ("createVNode(" + ("_component_" + "uts_hello") + ")")) + ",\n" +
                ("    " + ("createVNode(" + ("_component_" + "uts_hello") + ")"))) +
       "\n" + "  " + "]"))) + ")"
  {
    TwoHellosShape(level);
    HelloLine(level + 1);
    QuoteView();
    Indent1();
  }

  /** Each distinct UTS component is declared once before the return
      statement, and each use becomes a `createVNode` of its declaration. */
  lemma UtsComponentsDeclaredOnce()
    ensures Compile(TwoHellos(), Function, "PagesIndexIndex", UtsHello()) ==
      "@Suppress(\"UNUSED_PARAMETER\") function " + "PagesIndexIndex" + "Render(_ctx: " + "PagesIndexIndex" + "): VNode | null {\n" +
      ("const " + ("_component_" + "uts_hello") + " = " + ("uts.sdk.modules.utsHello" + "." + "UtsHelloComponent" + ".name") + "\n" + "\n") +
      "  return " +
      ("createElementVNode(" + ("\"view\"" + ", " + ("null" + ", " +
      ("[\n" + (("    " + ("createVNode(" + ("_component_" + "uts_hello") + ")")) + ",\n" +
                ("    " + ("createVNode(" + ("_component_" + "uts_hello") + ")"))) +
       "\n" + "  " + "]"))) + ")") +
      "\n}"
  {
    TwoHellosTags();
    NoEasycomNoImports(TwoHellos(), UtsHello());
    UtsHelloDeclaration();
    TwoHellosCall(1);
    var h := FunctionHeader("PagesIndexIndex");
    assert Imports(TwoHellos(), UtsHello()) + h == h;
  }

  // ---------------------------------------------------------------------
  // easycom (codegen.spec.ts lines 44-58)

  function CustomEasycom(): string -> ComponentSource {
    t => Easycom("@/components/" + t + "/" + t + ".vue")
  }

  function Customs(): Node {
    Element("view", [], [Component("custom"), Component("custom"), Component("custom1")])
  }

  /** A tag without `-` keeps its spelling in identifiers. */
  lemma {:induction false} NoDashUnchanged(s: string)
    requires '-' !in s
    ensures MapChar(s, '-', '_') == s
  {
    forall i | 0 <= i < |s|
      ensures MapChar(s, '-', '_')[i] == s[i]
    {
      MapCharAt(s, '-', '_', i);
      assert s[i] in s;
    }
  }

  lemma CustomIdent()
    ensures MapChar("custom", '-', '_') == "custom"
  {
    NoDashUnchanged("custom");
  }

  lemma Custom1Ident()
    ensures MapChar("custom1", '-', '_') == "custom1"
  {
    NoDashUnchanged("custom1");
  }

  lemma CustomsTags()
    ensures ComponentTags(Customs()) == ["custom", "custom", "custom1"]
  {
    var ts := ["custom", "custom", "custom1"];
    assert Customs() == Element("view", [], seq(|ts|, i requires 0 <= i < |ts| => Component(ts[i])));
    ComponentTagsOfComponents("view", ts);
  }

  lemma CustomsDeclared()
    ensures DeclaredTags(Customs()) == ["custom", "custom1"]
  {
    CustomsTags();
    var ts := ["custom", "custom", "custom1"];
    assert ts[..2] == ["custom", "custom"];
    assert ["custom", "custom"][..1] == ["custom"];
    assert ["custom"][..0] == [];
    assert "custom1" != "custom";
  }

  lemma CustomsImported()
    ensures EasycomTags(DeclaredTags(Customs()), CustomEasycom()) == ["custom", "custom1"]
  {
    CustomsDeclared();
    var ts := ["custom", "custom1"];
    assert ts[1..] == ["custom1"];
    assert ["custom1"][1..] == [];
  }

  lemma CustomImportLine()
    ensures ImportLine("custom", CustomEasycom()) ==
      "import " + ("_easycom_" + "custom") + " from '" + ("@/components/" + "custom" + "/" + "custom" + ".vue") + "'"
  {
    CustomIdent();
  }

  lemma Custom1ImportLine()
    ensures ImportLine("custom1", CustomEasycom()) ==
      "import " + ("_easycom_" + "custom1") + " from '" + ("@/components/" + "custom1" + "/" + "custom1" + ".vue") + "'"
  {
    Custom1Ident();
  }

  lemma CustomsImports()
    ensures Imports(Customs(), CustomEasycom()) ==
      ("import " + ("_easycom_" + "custom") + " from '" + ("@/components/" + "custom" + "/" + "custom" + ".vue") + "'") + "\n" +
      (("import " + ("_easycom_" + "custom1") + " from '" + ("@/components/" + "custom1" + "/" + "custom1" + ".vue") + "'") + "\n")
  {
    CustomsImported();
    TwoImports(Customs(), CustomEasycom(), "custom", "custom1");
    CustomImportLine();
    Custom1ImportLine();
  }

  lemma CustomDeclarationLine()
    ensures DeclarationLine("custom", CustomEasycom()) ==
      "const " + ("_component_" + "custom") + " = " + ("resolveEasyComponent(" + "\"custom\"" + "," + ("_easycom_" + "custom") + ")")
  {
    CustomIdent();
    QuoteCustom();
  }

  lemma Custom1DeclarationLine()
    ensures DeclarationLine("custom1", CustomEasycom()) ==
      "const " + ("_component_" + "custom1") + " = " + ("resolveEasyComponent(" + "\"custom1\"" + "," + ("_easycom_" + "custom1") + ")")
  {
    Custom1Ident();
    QuoteCustom1();
  }

  lemma CustomsDeclarations()
    ensures Declarations(Customs(), CustomEasycom()) ==
      ("const " + ("_component_" + "custom") + " = " + ("resolveEasyComponent(" + "\"custom\"" + "," + ("_easycom_" + "custom") + ")")) + "\n" +
      (("const " + ("_component_" + "custom1") + " = " + ("resolveEasyComponent(" + "\"custom1\"" + "," + ("_easycom_" + "custom1") + ")")) + "\n") +
      "\n"
  {
    CustomsDeclared();
    TwoDeclarations(Customs(), CustomEasycom(), "custom", "custom1");
    CustomDeclarationLine();
    Custom1DeclarationLine();
  }

  lemma CustomLine(level: nat)
    requires level == 2
    ensures ChildLine(Component("custom"), level) == "    " + ("createVNode(" + ("_component_" + "custom") + ")")
  {
    CustomIdent();
    Indent2();
  }

  lemma Custom1Line(level: nat)
    requires level == 2
    ensures ChildLine(Component("custom1"), level) == "    " + ("createVNode(" + ("_component_" + "custom1") + ")")
  {
    Custom1Ident();
    Indent2();
  }

  lemma CustomsShape(level: nat)
    requires level == 1
    ensures GenNode(Customs(), level) ==
      "createElementVNode(" + (Quote("view") + ", " + ("null" + ", " +
      ("[\n" + (ChildLine(Component("custom"), level + 1) + ",\n" +
               (ChildLine(Component("custom"), level + 1) + ",\n" + ChildLine(Component("custom1"), level + 1))) +
       "\n" + Indent(level) + "]"))) + ")"
  {
    ArrayElement(Customs(), level);
    ArrayOfThree(Customs(), level);
  }

  lemma CustomsCall(level: nat)
    requires level == 1
    ensures GenNode(Customs(), level) ==
      "createElementVNode(" + ("\"view\"" + ", " + ("null" + ", " +
      ("[\n" + (("    " + ("createVNode(" + ("_component_" + "custom") + ")")) + ",\n" +
               (("    " + ("createVNode(" + ("_component_" + "custom") + ")")) + ",\n" +
                ("    " + ("createVNode(" + ("_component_" + "custom1") + ")")))) +
       "\n" + "  " + "]"))) + ")"
  {
    CustomsShape(level);
    CustomLine(level + 1);
    Custom1Line(level + 1);
    QuoteView();
    Indent1();
  }

  /** Easycom components: one import and one `resolveEasyComponent`
      declaration per distinct tag, in first-use order; the three uses become
      an array of `createVNode` calls behind `null` props. */
  lemma EasycomImportsAndDeclarations()
    ensures Compile(Customs(), Function, "PagesIndexIndex", CustomEasycom()) ==
      (("import " + ("_easycom_" + "custom") + " from '" + ("@/components/" + "custom" + "/" + "custom" + ".vue") + "'") + "\n" +
       (("import " + ("_easycom_" + "custom1") + " from '" + ("@/components/" + "custom1" + "/" + "custom1" + ".vue") + "'") + "\n")) +
      ("@Suppress(\"UNUSED_PARAMETER\") function " + "PagesIndexIndex" + "Render(_ctx: " + "PagesIndexIndex" + "): VNode | null {\n") +
      (("const " + ("_component_" + "custom") + " = " + ("resolveEasyComponent(" + "\"custom\"" + "," + ("_easycom_" + "custom") + ")")) + "\n" +
       (("const " + ("_component_" + "custom1") + " = " + ("resolveEasyComponent(" + "\"custom1\"" + "," + ("_easycom_" + "custom1") + ")")) + "\n") +
       "\n") +
      "  return " +
      ("createElementVNode(" + ("\"view\"" + ", " + ("null" + ", " +
      ("[\n" + (("    " + ("createVNode(" + ("_component_" + "custom") + ")")) + ",\n" +
               (("    " + ("createVNode(" + ("_component_" + "custom") + ")")) + ",\n" +
                ("    " + ("createVNode(" + ("_component_" + "custom1") + ")")))) +
       "\n" + "  " + "]"))) + ")") +
      "\n}"
  {
    CustomsImports();
    CustomsDeclarations();
    CustomsCall(1);
  }
}
