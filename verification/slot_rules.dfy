/** What the compiler emits for the templates of the slot rules
    (`packages/uni-mp-compiler/__tests__/slot.spec.ts`), derived from the
    model in `MpSlot`. Each outcome is assembled from small printed pieces,
    each proved on its own. */
module MpSlotRules {
  import opened Wrappers
  import opened Strings
  import opened MpSlot

  // ---------------------------------------------------------------------
  // Printed pieces

  lemma KeysAB()
    ensures KeyName(0) == "a" && KeyName(1) == "b"
  {
  }

  lemma ButtonTags()
    ensures OpenTags([Element("button")]) == "<button>" && CloseTags([Element("button")]) == "</button>"
  {
  }

  lemma EmptyRenderFunction()
    ensures RenderFunction(Rec(0, Nil)) == "(_ctx, _cache) => {\n  return {}\n}"
  {
  }

  lemma PrintRecord1(v: BExpr)
    ensures Print(Rec(0, Cons(v, Nil))) == "{ a: " + Print(v) + " }"
  {
    KeysAB();
  }

  lemma PrintFields2(v: BExpr, w: BExpr)
    ensures PrintFields(0, Cons(v, Cons(w, Nil))) == KeyName(0) + ": " + Print(v) + ", " + (KeyName(1) + ": " + Print(w))
  {
  }

  lemma PrintRecord2(v: BExpr, w: BExpr)
    ensures Print(Rec(0, Cons(v, Cons(w, Nil)))) == "{ a: " + Print(v) + ", b: " + Print(w) + " }"
  {
    KeysAB();
    PrintFields2(v, w);
  }

  lemma PrintArgs3(u: BExpr, v: BExpr, w: BExpr)
    ensures PrintArgs(Cons(u, Cons(v, Cons(w, Nil)))) == Print(u) + ", " + (Print(v) + ", " + Print(w))
  {
    assert PrintArgs(Cons(w, Nil)) == Print(w);
    assert PrintArgs(Cons(v, Cons(w, Nil))) == Print(v) + ", " + Print(w);
  }

  // ---------------------------------------------------------------------
  // Slots inside plain elements

  lemma PlainCompile(tags: seq<Tag>, s: Slot)
    requires Covered(Plain(tags, s))
    ensures Compile(Plain(tags, s)) ==
      (OpenTags(tags) + SlotMarkup(s, "", KeyName(0)) + CloseTags(tags), RenderFunction(SlotBinding(s)))
  {
  }

  /** `<button><slot/></button>`, with or without `name="default"`. */
  lemma BasicSlot()
    ensures Compile(Plain([Element("button")], Slot(NoName, None, true))) ==
      ("<button>" + "<slot/>" + "</button>", "(_ctx, _cache) => {\n  return {}\n}")
    ensures Compile(Plain([Element("button")], Slot(StaticName("default"), None, true))) ==
      ("<button>" + "<slot/>" + "</button>", "(_ctx, _cache) => {\n  return {}\n}")
  {
    ButtonTags();
    EmptyRenderFunction();
    PlainCompile([Element("button")], Slot(NoName, None, true));
    assert SlotMarkup(Slot(NoName, None, true), "", KeyName(0)) == "<slot/>";
    DefaultNameNormalised([Element("button")], None, true);
  }

  lemma DynamicSlotPieces()
    ensures SlotMarkup(Slot(BoundName(CtxPath("name")), None, true), "", KeyName(0)) == "<slot name=\"{{a}}\"/>"
    ensures Print(Display(CtxPath("name"))) == "_d(_ctx.name)"
  {
    KeysAB();
  }

  /** `<button><slot :name="name"/></button>`: the bound name is displayed
      under key `a`. */
  lemma DynamicSlot()
    ensures Compile(Plain([Element("button")], Slot(BoundName(CtxPath("name")), None, true))) ==
      ("<button>" + "<slot name=\"{{a}}\"/>" + "</button>",
       "(_ctx, _cache) => {\n  return " + "{ a: _d(_ctx.name) }" + "\n}")
  {
    var s := Slot(BoundName(CtxPath("name")), None, true);
    ButtonTags();
    DynamicSlotPieces();
    PrintRecord1(Display(CtxPath("name")));
    PlainCompile([Element("button")], s);
    assert SlotBinding(s) == Rec(0, Cons(Display(CtxPath("name")), Nil));
    assert Print(SlotBinding(s)) == "{ a: _d(_ctx.name) }";
  }

  lemma OutletBlocks()
    ensures OutletBlock(Default) == "<block wx:if=\"{{$slots.d}}\"><slot></slot></block>"
  {
  }

  lemma TextOutletBlock()
    ensures OutletBlock(Named("text")) == "<block wx:if=\"{{$slots.text}}\"><slot name=\"text\"></slot></block>"
  {
  }

  lemma SubmitBlock()
    ensures ElseBlock("Submit") == "<block wx:else>Submit</block>"
  {
  }

  /** `<button><slot>Submit</slot></button>`, `<slot name="text"/>` and
      `<slot name="text">Submit</slot>`: fallback content is shown when the
      parent does not fill the slot; static names need no binding. */
  lemma FallbackSlots()
    ensures Compile(Plain([Element("button")], Slot(NoName, Some("Submit"), false))) ==
      ("<button>" + ("<block wx:if=\"{{$slots.d}}\"><slot></slot></block>" + "<block wx:else>Submit</block>") + "</button>",
       "(_ctx, _cache) => {\n  return {}\n}")
    ensures Compile(Plain([Element("button")], Slot(StaticName("text"), None, true))) ==
      ("<button>" + "<slot name=\"text\"/>" + "</button>", "(_ctx, _cache) => {\n  return {}\n}")
    ensures Compile(Plain([Element("button")], Slot(StaticName("text"), Some("Submit"), false))) ==
      ("<button>" +
       ("<block wx:if=\"{{$slots.text}}\"><slot name=\"text\"></slot></block>" + "<block wx:else>Submit</block>") +
       "</button>",
       "(_ctx, _cache) => {\n  return {}\n}")
  {
    ButtonTags();
    EmptyRenderFunction();
    OutletBlocks();
    TextOutletBlock();
    SubmitBlock();
    var s1 := Slot(NoName, Some("Submit"), false);
    var s2 := Slot(StaticName("text"), None, true);
    var s3 := Slot(StaticName("text"), Some("Submit"), false);
    PlainCompile([Element("button")], s1);
    PlainCompile([Element("button")], s2);
    PlainCompile([Element("button")], s3);
    assert SlotMarkup(s1, "", KeyName(0)) == OutletBlock(Default) + ElseBlock("Submit");
    assert SlotMarkup(s2, "", KeyName(0)) == "<slot name=\"text\"/>";
    assert SlotMarkup(s3, "", KeyName(0)) == OutletBlock(Named("text")) + ElseBlock("Submit");
  }

  lemma ViewOpenTag()
    ensures OpenTag(Element("view")) == "<view>"
  {
  }

  lemma OpenTagsTwo(a: Tag, b: Tag)
    ensures OpenTags([a, b]) == OpenTag(a) + OpenTag(b)
  {
    assert [a, b][1..] == [b];
    assert [b][1..] == [];
    assert OpenTags([b]) == OpenTag(b) + "";
    assert OpenTag(b) + "" == OpenTag(b);
  }

  lemma ViewCustomOpen(instance: string)
    ensures OpenTags([Element("view"), Component("custom", instance)]) ==
      "<view>" + ("<custom" + ComponentAttrs(instance) + ">")
  {
    OpenTagsTwo(Element("view"), Component("custom", instance));
    ViewOpenTag();
  }

  lemma ViewCustomClose(instance: string)
    ensures CloseTags([Element("view"), Component("custom", instance)]) == "</custom>" + "</view>"
  {
    var tags := [Element("view"), Component("custom", instance)];
    assert tags[1..] == [Component("custom", instance)];
    assert CloseTag("view") == "</view>";
    assert CloseTag("custom") == "</custom>";
    assert CloseTags(tags[1..]) == CloseTag("custom");
  }

  lemma ViewFallbackBlock()
    ensures ElseBlock("<view>fallback</view>") == "<block wx:else><view>fallback</view></block>"
  {
  }

  /** `<view><custom><slot><view>fallback</view></slot></custom></view>`: a
      slot given to a component as its default content; the component
      instance lists the slot `d` it receives. */
  lemma SlotInComponent(instance: string)
    ensures var t := Plain([Element("view"), Component("custom", instance)],
                           Slot(NoName, Some("<view>fallback</view>"), false));
      Covered(t) && Compile(t) ==
      ("<view>" + ("<custom" + (" u-s=\"{{['d']}}\" u-i=\"" + instance + "\"") + ">") +
       ("<block wx:if=\"{{$slots.d}}\"><slot></slot></block>" + "<block wx:else><view>fallback</view></block>") +
       ("</custom>" + "</view>"),
       "(_ctx, _cache) => {\n  return {}\n}")
  {
    var s := Slot(NoName, Some("<view>fallback</view>"), false);
    PlainCompile([Element("view"), Component("custom", instance)], s);
    ViewCustomOpen(instance);
    ViewCustomClose(instance);
    EmptyRenderFunction();
    OutletBlocks();
    ViewFallbackBlock();
    assert SlotMarkup(s, "", KeyName(0)) == OutletBlock(Default) + ElseBlock("<view>fallback</view>");
  }

  // ---------------------------------------------------------------------
  // Chains of slots

  /** The binding of any chain of statically named slots over the conditions
      `header` and `body`: both conditions under keys `a` and `b`, merged
      with the selector of the (empty) branch records. */
  lemma HeaderBodyChainTree(bs: seq<(Expr, Slot)>, other: Option<Slot>)
    requires Covered(IfChain(bs, other))
    requires Conds(bs) == [CtxPath("header"), CtxPath("body")]
    ensures var e := Rec(0, Nil);
      Binding(IfChain(bs, other)) ==
      Extend(Cons(Rec(0, Cons(Ref(CtxPath("header")), Nil)),
             Cons(Cond(CtxPath("header"), e, Cond(CtxPath("body"), e, e)),
             Cons(Rec(1, Cons(Ref(CtxPath("body")), Nil)), Nil))))
  {
    var conds := Conds(bs);
    var e := Rec(0, Nil);
    var records := seq(|bs|, k => e);
    assert records == [e, e];
    assert Selector(conds[1..], records[1..], e) == Cond(CtxPath("body"), e, e);
    assert CondRecords(conds, 2) == Nil;
  }

  lemma HeaderRecord()
    ensures Print(Rec(0, Cons(Ref(CtxPath("header")), Nil))) == "{ a: _ctx.header }"
  {
  }

  lemma BodyRecord()
    ensures Print(Rec(1, Cons(Ref(CtxPath("body")), Nil))) == "{ b: _ctx.body }"
  {
  }

  lemma HeaderBodySelector()
    ensures Print(Cond(CtxPath("header"), Rec(0, Nil), Cond(CtxPath("body"), Rec(0, Nil), Rec(0, Nil)))) ==
      "_ctx.header ? {} : _ctx.body ? {} : {}"
  {
  }

  lemma HeaderBodyChainBinding(bs: seq<(Expr, Slot)>, other: Option<Slot>)
    requires Covered(IfChain(bs, other))
    requires Conds(bs) == [CtxPath("header"), CtxPath("body")]
    ensures RenderFunction(Binding(IfChain(bs, other))) ==
      "(_ctx, _cache) => {\n  return " +
      ("_e(" + ("{ a: _ctx.header }" + ", " + ("_ctx.header ? {} : _ctx.body ? {} : {}" + ", " + "{ b: _ctx.body }")) + ")") +
      "\n}"
  {
    var e := Rec(0, Nil);
    HeaderBodyChainTree(bs, other);
    HeaderRecord();
    BodyRecord();
    HeaderBodySelector();
    PrintArgs3(Rec(0, Cons(Ref(CtxPath("header")), Nil)),
               Cond(CtxPath("header"), e, Cond(CtxPath("body"), e, e)),
               Rec(1, Cons(Ref(CtxPath("body")), Nil)));
  }

  /** The markup of a two-condition chain with a `v-else` branch. */
  lemma ChainMarkup2(bs: seq<(Expr, Slot)>, other: Slot)
    requires |bs| == 2 && Covered(IfChain(bs, Some(other)))
    ensures Markup(IfChain(bs, Some(other))) ==
      SlotMarkup(bs[0].1, Directive(0, 2), "") +
      (SlotMarkup(bs[1].1, Directive(1, 2), "") + SlotMarkup(other, Directive(2, 2), ""))
  {
    assert ChainMarkup(bs, Some(other), 2) == SlotMarkup(other, Directive(2, 2), "");
    assert ChainMarkup(bs, Some(other), 1) ==
      SlotMarkup(bs[1].1, Directive(1, 2), "") + SlotMarkup(other, Directive(2, 2), "");
  }

  lemma IfDirective()
    ensures Directive(0, 2) == " wx:if=\"{{a}}\""
  {
    KeysAB();
  }

  lemma ElifDirective()
    ensures Directive(1, 2) == " wx:elif=\"{{b}}\""
  {
    KeysAB();
  }

  lemma HeaderSlot(attrs: string)
    ensures SlotMarkup(Slot(StaticName("header"), None, true), attrs, "") == "<slot" + attrs + " name=\"header\"" + "/>"
  {
  }

  lemma BodySlot(attrs: string)
    ensures SlotMarkup(Slot(StaticName("body"), None, true), attrs, "") == "<slot" + attrs + " name=\"body\"" + "/>"
  {
  }

  lemma FooterSlot(attrs: string)
    ensures SlotMarkup(Slot(StaticName("footer"), None, true), attrs, "") == "<slot" + attrs + " name=\"footer\"" + "/>"
  {
  }

  /** `<slot v-if="header" name="header"/>`, `v-else-if="body"`, `v-else`:
      the chain becomes `wx:if`/`wx:elif`/`wx:else` on the slots, its
      conditions bound under `a` and `b`. */
  lemma ChainOfSlots()
    ensures var t := IfChain([(CtxPath("header"), Slot(StaticName("header"), None, true)),
                              (CtxPath("body"), Slot(StaticName("body"), None, true))],
                             Some(Slot(StaticName("footer"), None, true)));
      Covered(t) && Compile(t) ==
      ("<slot" + " wx:if=\"{{a}}\"" + " name=\"header\"" + "/>" +
       (("<slot" + " wx:elif=\"{{b}}\"" + " name=\"body\"" + "/>") +
        ("<slot" + " wx:else" + " name=\"footer\"" + "/>")),
       "(_ctx, _cache) => {\n  return " +
       ("_e(" + ("{ a: _ctx.header }" + ", " + ("_ctx.header ? {} : _ctx.body ? {} : {}" + ", " + "{ b: _ctx.body }")) + ")") +
       "\n}")
  {
    var bs := [(CtxPath("header"), Slot(StaticName("header"), None, true)),
               (CtxPath("body"), Slot(StaticName("body"), None, true))];
    var other := Slot(StaticName("footer"), None, true);
    ChainMarkup2(bs, other);
    IfDirective();
    ElifDirective();
    HeaderSlot(Directive(0, 2));
    BodySlot(Directive(1, 2));
    FooterSlot(Directive(2, 2));
    assert Conds(bs) == [CtxPath("header"), CtxPath("body")];
    HeaderBodyChainBinding(bs, Some(other));
  }

  lemma IfBlock()
    ensures "<block" + Directive(0, 2) + ">" == "<block wx:if=\"{{a}}\">"
  {
    IfDirective();
  }

  lemma ElifBlock()
    ensures "<block" + Directive(1, 2) + ">" == "<block wx:elif=\"{{b}}\">"
  {
    ElifDirective();
  }

  lemma ElseBlockOpening()
    ensures "<block" + Directive(2, 2) + ">" == "<block wx:else>"
  {
  }

  lemma HeaderOutletBlock()
    ensures OutletBlock(Named("header")) ==
      "<block wx:if=\"{{$slots.header}}\">" + "<slot name=\"header\"></slot>" + "</block>"
  {
    assert SlotPair(Named("header")) == "<slot name=\"header\"></slot>";
  }

  lemma BodyOutletBlock()
    ensures OutletBlock(Named("body")) ==
      "<block wx:if=\"{{$slots.body}}\">" + "<slot name=\"body\"></slot>" + "</block>"
  {
    assert SlotPair(Named("body")) == "<slot name=\"body\"></slot>";
  }

  lemma FooterOutletBlock()
    ensures OutletBlock(Named("footer")) ==
      "<block wx:if=\"{{$slots.footer}}\">" + "<slot name=\"footer\"></slot>" + "</block>"
  {
    assert SlotPair(Named("footer")) == "<slot name=\"footer\"></slot>";
  }

  lemma HeaderElseBlock()
    ensures ElseBlock("<view>header</view>") == "<block wx:else><view>header</view></block>"
  {
  }

  lemma BodyElseBlock()
    ensures ElseBlock("<view>body</view>") == "<block wx:else><view>body</view></block>"
  {
  }

  lemma FooterElseBlock()
    ensures ElseBlock("<view>footer</view>") == "<block wx:else><view>footer</view></block>"
  {
  }

  /** A slot with fallback content in a chain: the directive goes on a
      `<block>` around the two fallback blocks. */
  lemma ChainedFallbackSlot(name: string, fallback: string, attrs: string)
    requires name != "default" && attrs != ""
    ensures SlotMarkup(Slot(StaticName(name), Some(fallback), false), attrs, "") ==
      "<block" + attrs + ">" + (OutletBlock(Named(name)) + ElseBlock(fallback)) + "</block>"
  {
  }

  /** The same chain with fallback content in every slot. */
  lemma ChainOfFallbackSlots()
    ensures var t := IfChain([(CtxPath("header"), Slot(StaticName("header"), Some("<view>header</view>"), false)),
                              (CtxPath("body"), Slot(StaticName("body"), Some("<view>body</view>"), false))],
                             Some(Slot(StaticName("footer"), Some("<view>footer</view>"), false)));
      Covered(t) && Compile(t) ==
      ("<block wx:if=\"{{a}}\">" +
         ("<block wx:if=\"{{$slots.header}}\">" + "<slot name=\"header\"></slot>" + "</block>" +
          "<block wx:else><view>header</view></block>") + "</block>" +
       ("<block wx:elif=\"{{b}}\">" +
          ("<block wx:if=\"{{$slots.body}}\">" + "<slot name=\"body\"></slot>" + "</block>" +
           "<block wx:else><view>body</view></block>") + "</block>" +
        ("<block wx:else>" +
           ("<block wx:if=\"{{$slots.footer}}\">" + "<slot name=\"footer\"></slot>" + "</block>" +
            "<block wx:else><view>footer</view></block>") + "</block>")),
       "(_ctx, _cache) => {\n  return " +
       ("_e(" + ("{ a: _ctx.header }" + ", " + ("_ctx.header ? {} : _ctx.body ? {} : {}" + ", " + "{ b: _ctx.body }")) + ")") +
       "\n}")
  {
    var bs := [(CtxPath("header"), Slot(StaticName("header"), Some("<view>header</view>"), false)),
               (CtxPath("body"), Slot(StaticName("body"), Some("<view>body</view>"), false))];
    var other := Slot(StaticName("footer"), Some("<view>footer</view>"), false);
    ChainMarkup2(bs, other);
    ChainedFallbackSlot("header", "<view>header</view>", Directive(0, 2));
    ChainedFallbackSlot("body", "<view>body</view>", Directive(1, 2));
    ChainedFallbackSlot("footer", "<view>footer</view>", Directive(2, 2));
    IfBlock();
    ElifBlock();
    ElseBlockOpening();
    HeaderOutletBlock();
    BodyOutletBlock();
    FooterOutletBlock();
    HeaderElseBlock();
    BodyElseBlock();
    FooterElseBlock();
    assert Conds(bs) == [CtxPath("header"), CtxPath("body")];
    HeaderBodyChainBinding(bs, Some(other));
  }

  // ---------------------------------------------------------------------
  // Slots under v-for

  lemma ItemsLoopAttrs(loops: seq<Loop>)
    requires |loops| >= 1 && loops[0].item == "item"
    ensures LoopAttrs(loops, 0) == " wx:for=\"{{a}}\"" + " wx:for-item=\"item\""
  {
    KeysAB();
  }

  lemma ItemOutletName()
    ensures OutletNameAttr("item") == " name=\"{{item.a}}\""
  {
    KeysAB();
  }

  lemma I0()
    ensures IndexVarName(0) == "i0"
  {
  }

  lemma I1()
    ensures IndexVarName(1) == "i1"
  {
  }

  lemma ItemsLoopParams()
    ensures LoopParams("item", "index", 0) == "(item, index, i0)"
  {
    I0();
  }

  lemma ItemsLoopHead()
    ensures LoopHead(CtxPath("items"), "item", "index", 0) == "_f(_ctx.items, " + "(item, index, i0)" + " => { return "
  {
    ItemsLoopParams();
  }

  /** The binding of a slot with its own `v-for="(item, index) in items"`
      keyed by `index`: one loop over `_ctx.items` whose record holds the
      outlet name and the rendered slot. */
  lemma SingleLoop(s: Slot)
    requires Covered(ForSlot([], Loop(CtxPath("items"), "item", "index", LocalPath("index")), s))
    ensures var t := ForSlot([], Loop(CtxPath("items"), "item", "index", LocalPath("index")), s);
      var base := SlotKey(ResolveName(s.name));
      Binding(t) ==
        Rec(0, Cons(ForEach(CtxPath("items"), "item", "index", 0,
                            Rec(0, Cons(OutletTerm(base, 1),
                                   Cons(RenderSlot(base, LocalPath("index"), SuffixTerm(1)), Nil)))),
                    Nil)) &&
      Markup(t) == LoopOutlet([t.loop], s.selfClosing)
  {
    var t := ForSlot([], Loop(CtxPath("items"), "item", "index", LocalPath("index")), s);
    assert Loops(t) == [t.loop];
  }

  lemma SingleLoopPrinted(base: string, body: BExpr)
    requires body == Rec(0, Cons(OutletTerm(base, 1), Cons(RenderSlot(base, LocalPath("index"), SuffixTerm(1)), Nil)))
    ensures RenderFunction(Rec(0, Cons(ForEach(CtxPath("items"), "item", "index", 0, body), Nil))) ==
      "(_ctx, _cache) => {\n  return " +
      ("{ a: " + ("_f(_ctx.items, " + "(item, index, i0)" + " => { return " +
                  ("{ a: " + Print(OutletTerm(base, 1)) + ", b: " +
                   Print(RenderSlot(base, LocalPath("index"), SuffixTerm(1))) + " }") +
                  "; })") + " }") +
      "\n}"
  {
    PrintRecord2(OutletTerm(base, 1), RenderSlot(base, LocalPath("index"), SuffixTerm(1)));
    ItemsLoopHead();
    PrintRecord1(ForEach(CtxPath("items"), "item", "index", 0, body));
  }

  lemma DefaultLoopLeaves()
    ensures Print(OutletTerm("d", 1)) == "\"d-\" + i0"
    ensures Print(RenderSlot("d", LocalPath("index"), SuffixTerm(1))) == "_r(\"d\", { key: index }, i0)"
  {
  }

  lemma TestLoopLeaves()
    ensures Print(OutletTerm("test", 1)) == "\"test-\" + i0"
    ensures Print(RenderSlot("test", LocalPath("index"), SuffixTerm(1))) == "_r(\"test\", { key: index }, i0)"
  {
  }

  /** `<slot v-for="(item, index) in items" :key="index"></slot>`, unnamed
      and named `test`: the outlet of iteration `i0` is `d-<i0>`
      (`test-<i0>`), bound under `a` of the loop scope. */
  lemma LoopedSlots()
    ensures var t := ForSlot([], Loop(CtxPath("items"), "item", "index", LocalPath("index")), Slot(NoName, None, false));
      Covered(t) && Compile(t) ==
      ("<slot" + (" wx:for=\"{{a}}\"" + " wx:for-item=\"item\"") + " name=\"{{item.a}}\"" + "></slot>",
       "(_ctx, _cache) => {\n  return " +
       ("{ a: " + ("_f(_ctx.items, " + "(item, index, i0)" + " => { return " +
                   ("{ a: " + "\"d-\" + i0" + ", b: " + "_r(\"d\", { key: index }, i0)" + " }") +
                   "; })") + " }") +
       "\n}")
    ensures var t := ForSlot([], Loop(CtxPath("items"), "item", "index", LocalPath("index")), Slot(StaticName("test"), None, false));
      Covered(t) && Compile(t) ==
      ("<slot" + (" wx:for=\"{{a}}\"" + " wx:for-item=\"item\"") + " name=\"{{item.a}}\"" + "></slot>",
       "(_ctx, _cache) => {\n  return " +
       ("{ a: " + ("_f(_ctx.items, " + "(item, index, i0)" + " => { return " +
                   ("{ a: " + "\"test-\" + i0" + ", b: " + "_r(\"test\", { key: index }, i0)" + " }") +
                   "; })") + " }") +
       "\n}")
  {
    var l := Loop(CtxPath("items"), "item", "index", LocalPath("index"));
    ItemsLoopAttrs([l]);
    ItemOutletName();
    var s1, s2 := Slot(NoName, None, false), Slot(StaticName("test"), None, false);
    SingleLoop(s1);
    SingleLoop(s2);
    DefaultLoopLeaves();
    TestLoopLeaves();
    SingleLoopPrinted("d", Rec(0, Cons(OutletTerm("d", 1), Cons(RenderSlot("d", LocalPath("index"), SuffixTerm(1)), Nil))));
    SingleLoopPrinted("test", Rec(0, Cons(OutletTerm("test", 1), Cons(RenderSlot("test", LocalPath("index"), SuffixTerm(1)), Nil))));
  }

  lemma ViewWrapperOpen(loops: seq<Loop>)
    requires |loops| >= 1 && loops[0].item == "item"
    ensures WrapperOpen("view", loops, 0) ==
      "<view" + (" wx:for=\"{{a}}\"" + " wx:for-item=\"item\"") + " wx:key=\"b\"" + ">"
  {
    ItemsLoopAttrs(loops);
    KeysAB();
  }

  lemma Item1LoopAttrs(loops: seq<Loop>)
    requires |loops| == 2 && loops[0].item == "item" && loops[1].item == "item1"
    ensures LoopAttrs(loops, 1) == " wx:for=\"{{item.a}}\"" + " wx:for-item=\"item1\""
  {
    KeysAB();
  }

  lemma Item1OutletName()
    ensures OutletNameAttr("item1") == " name=\"{{item1.a}}\""
  {
    KeysAB();
  }

  lemma ListLoopParams()
    ensures LoopParams("item1", "index1", 1) == "(item1, index1, i1)"
  {
    I1();
  }

  lemma ListLoopHead()
    ensures LoopHead(LocalPath("item.list"), "item1", "index1", 1) == "_f(item.list, " + "(item1, index1, i1)" + " => { return "
  {
    ListLoopParams();
  }

  lemma NestedOutletTerm()
    ensures Print(OutletTerm("d", 2)) == "\"d-\" + i0 + '-' + i1"
  {
  }

  lemma NestedRenderSlot()
    ensures Print(RenderSlot("d", LocalPath("index1"), SuffixTerm(2))) == "_r(\"d\", { key: index1 }, i0 + '-' + i1)"
  {
  }

  /** `<view v-for="(item, index) in items" :key="index"><slot v-for="(item1,
      index1) in item.list" :key="index1"></slot></view>`: the inner loop
      iterates over binding `a` of the outer scope, the outer element is
      keyed by `b`, and the outlet of iteration (i0, i1) is `d-<i0>-<i1>`. */
  lemma NestedLoopedSlot()
    ensures var t := ForSlot([("view", Loop(CtxPath("items"), "item", "index", LocalPath("index")))],
                             Loop(LocalPath("item.list"), "item1", "index1", LocalPath("index1")),
                             Slot(NoName, None, false));
      Covered(t) && Compile(t) ==
      ("<view" + (" wx:for=\"{{a}}\"" + " wx:for-item=\"item\"") + " wx:key=\"b\"" + ">" +
       ("<slot" + (" wx:for=\"{{item.a}}\"" + " wx:for-item=\"item1\"") + " name=\"{{item1.a}}\"" + "></slot>") +
       "</view>",
       "(_ctx, _cache) => {\n  return " +
       ("{ a: " + ("_f(_ctx.items, " + "(item, index, i0)" + " => { return " +
         ("{ a: " + ("_f(item.list, " + "(item1, index1, i1)" + " => { return " +
                     ("{ a: " + "\"d-\" + i0 + '-' + i1" + ", b: " + "_r(\"d\", { key: index1 }, i0 + '-' + i1)" + " }") +
                     "; })") +
          ", b: " + "index" + " }") +
         "; })") + " }") +
       "\n}")
  {
    var outer := Loop(CtxPath("items"), "item", "index", LocalPath("index"));
    var l := Loop(LocalPath("item.list"), "item1", "index1", LocalPath("index1"));
    var ws := [("view", outer)];
    var t := ForSlot(ws, l, Slot(NoName, None, false));
    var loops := [outer, l];
    assert Loops(t) == loops;
    var inner := LoopOutlet(loops, false);
    assert WrapperMarkup(ws, loops, 1, inner) == inner;
    ViewWrapperOpen(loops);
    Item1LoopAttrs(loops);
    Item1OutletName();
    assert CloseTag("view") == "</view>";
    var sr1 := Rec(0, Cons(OutletTerm("d", 2), Cons(RenderSlot("d", LocalPath("index1"), SuffixTerm(2)), Nil)));
    var fe1 := ForEach(LocalPath("item.list"), "item1", "index1", 1, sr1);
    var sr0 := Rec(0, Cons(fe1, Cons(Ref(LocalPath("index")), Nil)));
    var fe0 := ForEach(CtxPath("items"), "item", "index", 0, sr0);
    assert ScopeRecord(loops, "d", 1) == sr1;
    assert ScopeRecord(loops, "d", 0) == sr0;
    assert Binding(t) == Rec(0, Cons(fe0, Nil));
    NestedOutletTerm();
    NestedRenderSlot();
    PrintRecord2(OutletTerm("d", 2), RenderSlot("d", LocalPath("index1"), SuffixTerm(2)));
    ListLoopHead();
    PrintRecord2(fe1, Ref(LocalPath("index")));
    ItemsLoopHead();
    PrintRecord1(fe0);
  }
}
