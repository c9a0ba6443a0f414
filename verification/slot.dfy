/** The rules the mini-program compiler follows for `<slot>` outlets
    (`packages/uni-mp-compiler/__tests__/slot.spec.ts`): the WXML markup it
    emits and the render function that computes the template's bindings.

    A template is one of the shapes those rules cover: a slot inside plain
    elements, a `v-if`/`v-else-if`/`v-else` chain of slots, and a slot under
    one or more `v-for` loops. The result is the markup text together with
    the binding expression, an AST whose printing gives the render function. */
module MpSlot {
  import opened Wrappers
  import opened Strings

  // ---------------------------------------------------------------------
  // Template side

  /** A template expression: a property path read from the component
      (`_ctx.name`) or from a loop variable in scope (`item.list`, `index`). */
  datatype Expr = CtxPath(path: string) | LocalPath(path: string)

  function ExprText(e: Expr): (t: string)
    ensures e.CtxPath? ==> t == "_ctx." + e.path
    ensures e.LocalPath? ==> t == e.path
  {
    match e
    case CtxPath(p) => "_ctx." + p
    case LocalPath(p) => p
  }

  /** The `name` attribute as written: absent, a static `name="…"`, or a
      bound `:name="…"`. */
  datatype NameAttr = NoName | StaticName(name: string) | BoundName(expr: Expr)

  /** The slot a `<slot>` outlet stands for. */
  datatype SlotName = Default | Named(name: string) | Dynamic(expr: Expr)

  /** An absent name and the name `default` both denote the default slot. */
  function ResolveName(a: NameAttr): (n: SlotName)
    ensures n.Default? <==> a.NoName? || a == StaticName("default")
    ensures n.Named? <==> a.StaticName? && a.name != "default"
    ensures n.Named? ==> n.name == a.name
    ensures n.Dynamic? <==> a.BoundName?
    ensures n.Dynamic? ==> n.expr == a.expr
  {
    match a
    case NoName => Default
    case StaticName(s) => if s == "default" then Default else Named(s)
    case BoundName(e) => Dynamic(e)
  }

  /** A `<slot>` element: its name, its fallback content (the compiled markup
      of its children, when it has any) and whether it was written
      self-closing. */
  datatype Slot = Slot(name: NameAttr, fallback: Option<string>, selfClosing: bool)

  /** The key of a static slot in `$slots` and in `_r(…)`: `d` for the
      default slot, its own name otherwise. */
  function SlotKey(n: SlotName): (k: string)
    requires !n.Dynamic?
    ensures n.Default? ==> k == "d"
    ensures n.Named? ==> k == n.name
  {
    if n.Default? then "d" else n.name
  }

  // ---------------------------------------------------------------------
  // Binding keys

  function Letter(i: nat): (c: char)
    requires i < 26
    ensures 'a' <= c <= 'z' && c as int - 'a' as int == i
  {
    ('a' as int + i) as char
  }

  /** The i-th binding key of a scope: `a` … `z`, then `aa`, `ab`, … */
  function KeyName(i: nat): (k: string)
    ensures |k| >= 1
    ensures i < 26 <==> |k| == 1
    ensures 'a' <= k[|k| - 1] <= 'z' && k[|k| - 1] as int - 'a' as int == i % 26
  {
    if i < 26 then [Letter(i)] else KeyName(i / 26 - 1) + [Letter(i % 26)]
  }

  /** Distinct positions get distinct keys, so no binding of a scope
      overwrites another. */
  lemma {:induction false} KeyNameInjective(i: nat, j: nat)
    requires KeyName(i) == KeyName(j)
    ensures i == j
  {
    var ki, kj := KeyName(i), KeyName(j);
    assert i % 26 == j % 26;
    if i >= 26 && j >= 26 {
      assert ki[..|ki| - 1] == KeyName(i / 26 - 1);
      assert kj[..|kj| - 1] == KeyName(j / 26 - 1);
      KeyNameInjective(i / 26 - 1, j / 26 - 1);
    }
  }

  // ---------------------------------------------------------------------
  // The binding expression of the render function

  /** The expressions the render function is built from. */
  datatype BExpr =
    | Ref(e: Expr)                                      // e
    | Display(e: Expr)                                  // _d(e)
    | Rec(first: nat, fields: BList)                    // { <key first>: …, <key first+1>: … }
    | Cond(c: Expr, t: BExpr, f: BExpr)                 // c ? t : f
    | Extend(args: BList)                               // _e(…)
    | ForEach(src: Expr, item: string, index: string, depth: nat, body: BExpr)
                                                        // _f(src, (item, index, i<depth>) => { return body; })
    | DoubleQuoted(s: string)                           // "s"
    | SingleQuoted(s: string)                           // 's'
    | IndexVar(k: nat)                                  // i<k>
    | Plus(l: BExpr, r: BExpr)                          // l + r
    | RenderSlot(base: string, key: Expr, suffix: BExpr)
                                                        // _r("base", { key: key }, suffix)

  datatype BList = Nil | Cons(head: BExpr, tail: BList)

  function IndexVarName(k: nat): string {
    "i" + NatToString(k)
  }

  function Print(b: BExpr): string
    decreases b
  {
    match b
    case Ref(e) => ExprText(e)
    case Display(e) => "_d(" + ExprText(e) + ")"
    case Rec(first, fs) => if fs.Nil? then "{}" else "{ " + PrintFields(first, fs) + " }"
    case Cond(c, t, f) => ExprText(c) + " ? " + Print(t) + " : " + Print(f)
    case Extend(args) => "_e(" + PrintArgs(args) + ")"
    case ForEach(src, item, index, depth, body) =>
      LoopHead(src, item, index, depth) + Print(body) + "; })"
    case DoubleQuoted(s) => "\"" + s + "\""
    case SingleQuoted(s) => "'" + s + "'"
    case IndexVar(k) => IndexVarName(k)
    case Plus(l, r) => Print(l) + " + " + Print(r)
    case RenderSlot(base, key, suffix) =>
      "_r(\"" + base + "\", { key: " + ExprText(key) + " }, " + Print(suffix) + ")"
  }

  /** `_f(src, (item, index, i<depth>) => { return `. */
  function LoopHead(src: Expr, item: string, index: string, depth: nat): string {
    "_f(" + ExprText(src) + ", " + LoopParams(item, index, depth) + " => { return "
  }

  /** `(item, index, i<depth>)`. */
  function LoopParams(item: string, index: string, depth: nat): string {
    "(" + item + ", " + index + ", " + IndexVarName(depth) + ")"
  }

  /** `k: v, …` with keys counted from `k`. */
  function PrintFields(k: nat, fs: BList): string
    decreases fs
  {
    match fs
    case Nil => ""
    case Cons(v, Nil) => KeyName(k) + ": " + Print(v)
    case Cons(v, rest) => KeyName(k) + ": " + Print(v) + ", " + PrintFields(k + 1, rest)
  }

  function PrintArgs(args: BList): string
    decreases args
  {
    match args
    case Nil => ""
    case Cons(v, Nil) => Print(v)
    case Cons(v, rest) => Print(v) + ", " + PrintArgs(rest)
  }

  /** The render function around a binding expression. */
  function RenderFunction(b: BExpr): string {
    "(_ctx, _cache) => {\n  return " + Print(b) + "\n}"
  }

  // ---------------------------------------------------------------------
  // Single slots

  /** The `name` attribute of the emitted `<slot>`: none for the default
      slot, the static name, or a reference to binding `key`. */
  function NameAttrText(n: SlotName, key: string): (t: string)
    ensures n.Default? ==> t == ""
  {
    match n
    case Default => ""
    case Named(s) => " name=\"" + s + "\""
    case Dynamic(_) => " name=\"{{" + key + "}}\""
  }

  /** Fallback content is shown through two blocks: the outlet when the
      parent supplied the slot (`$slots.<key>`), the fallback otherwise. */
  function FallbackWrapper(n: SlotName, fallback: string): string
    requires !n.Dynamic?
  {
    OutletBlock(n) + ElseBlock(fallback)
  }

  function OutletBlock(n: SlotName): string
    requires !n.Dynamic?
  {
    "<block wx:if=\"{{$slots." + SlotKey(n) + "}}\">" + SlotPair(n) + "</block>"
  }

  /** The outlet inside the first fallback block, never self-closing. */
  function SlotPair(n: SlotName): string {
    "<slot" + NameAttrText(n, "") + "></slot>"
  }

  function ElseBlock(content: string): string {
    "<block wx:else>" + content + "</block>"
  }

  /** The markup of one slot; `attrs` are directive attributes placed on it
      (on an enclosing `<block>` when there is fallback content), `key` the
      binding key of a bound name. Fallback content with a bound name is not
      among the rules covered here. */
  function SlotMarkup(s: Slot, attrs: string, key: string): (m: string)
    requires !(ResolveName(s.name).Dynamic? && s.fallback.Some?)
  {
    var n := ResolveName(s.name);
    match s.fallback
    case None => "<slot" + attrs + NameAttrText(n, key) + (if s.selfClosing then "/>" else "></slot>")
    case Some(fb) =>
      if attrs == "" then FallbackWrapper(n, fb)
      else "<block" + attrs + ">" + FallbackWrapper(n, fb) + "</block>"
  }

  /** The binding record of a slot outside any directive: a bound name is
      displayed under key `a`; otherwise the record is empty. */
  function SlotBinding(s: Slot): (b: BExpr)
    ensures b.Rec? && b.first == 0
    ensures !s.name.BoundName? ==> Print(b) == "{}"
    ensures s.name.BoundName? ==> Print(b) == "{ a: _d(" + ExprText(s.name.expr) + ") }"
  {
    match ResolveName(s.name)
    case Dynamic(e) =>
      var b := Rec(0, Cons(Display(e), Nil));
      assert KeyName(0) == "a";
      assert PrintFields(0, b.fields) == "a: _d(" + ExprText(e) + ")";
      b
    case _ => Rec(0, Nil)
  }

  /** An element around the slot: a plain element, or a component whose
      children are its default slot content. A component instance carries
      the slots it is given (`u-s`) and its instance id (`u-i`, derived from
      a hash of the file, here a parameter). */
  datatype Tag = Element(name: string) | Component(name: string, instance: string)

  function OpenTag(t: Tag): string {
    match t
    case Element(n) => "<" + n + ">"
    case Component(n, id) => "<" + n + ComponentAttrs(id) + ">"
  }

  function ComponentAttrs(instance: string): string {
    " u-s=\"{{['d']}}\" u-i=\"" + instance + "\""
  }

  function OpenTags(tags: seq<Tag>): string {
    if tags == [] then "" else OpenTag(tags[0]) + OpenTags(tags[1..])
  }

  function CloseTags(tags: seq<Tag>): string {
    if tags == [] then "" else CloseTags(tags[1..]) + CloseTag(tags[0].name)
  }

  // ---------------------------------------------------------------------
  // v-if / v-else-if / v-else chains

  /** The directive attribute of branch i of a chain of `count` conditions:
      `wx:if` on the first, `wx:elif` on the others, `wx:else` past them;
      condition i is bound under key i. */
  function Directive(i: nat, count: nat): string {
    if i == 0 && count > 0 then " wx:if=\"{{" + KeyName(0) + "}}\""
    else if i < count then " wx:elif=\"{{" + KeyName(i) + "}}\""
    else " wx:else"
  }

  /** `conds[0] ? records[0] : conds[1] ? records[1] : … : otherwise`. */
  function Selector(conds: seq<Expr>, records: seq<BExpr>, otherwise: BExpr): BExpr
    requires |records| == |conds|
  {
    if conds == [] then otherwise
    else Cond(conds[0], records[0], Selector(conds[1..], records[1..], otherwise))
  }

  /** The condition records `{ <key i>: cond i }` for conditions from `i` on. */
  function CondRecords(conds: seq<Expr>, i: nat): BList
    decreases |conds| - i
  {
    if i >= |conds| then Nil else Cons(Rec(i, Cons(Ref(conds[i]), Nil)), CondRecords(conds, i + 1))
  }

  /** A chain's value at run time, given the truth of each condition: which
      branch its `wx:if`/`wx:elif`/`wx:else` markup renders (index |conds|
      is the `v-else` branch). */
  function Active(conds: seq<Expr>, env: Expr -> bool, hasElse: bool): (j: Option<nat>)
    ensures j.Some? ==> j.value <= |conds|
    ensures j.Some? ==> forall k :: 0 <= k < j.value && k < |conds| ==> !env(conds[k])
    ensures j.Some? && j.value < |conds| ==> env(conds[j.value])
    ensures j.Some? && j.value == |conds| ==> hasElse
    ensures j.None? ==> !hasElse && forall k :: 0 <= k < |conds| ==> !env(conds[k])
  {
    if conds == [] then (if hasElse then Some(0) else None)
    else if env(conds[0]) then Some(0)
    else
      match Active(conds[1..], env, hasElse)
      case None => None
      case Some(j) => Some(j + 1)
  }

  /** Branch j is rendered: its condition holds and none before it does, or
      it is the `v-else` branch and no condition holds. */
  predicate Rendered(conds: seq<Expr>, env: Expr -> bool, hasElse: bool, j: nat) {
    (j < |conds| && env(conds[j]) && forall k :: 0 <= k < j ==> !env(conds[k])) ||
    (hasElse && j == |conds| && forall k :: 0 <= k < |conds| ==> !env(conds[k]))
  }

  /** The markup renders exactly the branch `Active` names, and with a
      `v-else` branch some branch is always rendered. */
  lemma RenderedIsActive(conds: seq<Expr>, env: Expr -> bool, hasElse: bool, j: nat)
    ensures Rendered(conds, env, hasElse, j) <==> Active(conds, env, hasElse) == Some(j)
    ensures hasElse ==> Active(conds, env, hasElse).Some?
  {
  }

  /** What a selector evaluates to once its conditions are known. */
  function EvalSelect(b: BExpr, env: Expr -> bool): BExpr {
    match b
    case Cond(c, t, f) => if env(c) then EvalSelect(t, env) else EvalSelect(f, env)
    case _ => b
  }

  /** The selector of a chain picks the record of the branch the markup
      renders, and the `otherwise` record when none is. */
  lemma {:induction false} SelectorPicksRendered(conds: seq<Expr>, records: seq<BExpr>, otherwise: BExpr,
                                                 env: Expr -> bool, hasElse: bool)
    requires |records| == |conds|
    ensures var a := Active(conds, env, hasElse);
      EvalSelect(Selector(conds, records, otherwise), env) ==
        if a.Some? && a.value < |conds| then EvalSelect(records[a.value], env)
        else EvalSelect(otherwise, env)
  {
    if conds != [] {
      var sel := Selector(conds, records, otherwise);
      assert sel == Cond(conds[0], records[0], Selector(conds[1..], records[1..], otherwise));
      if env(conds[0]) {
        assert Active(conds, env, hasElse) == Some(0);
      } else {
        var rest := Active(conds[1..], env, hasElse);
        assert Active(conds, env, hasElse) == if rest.None? then None else Some(rest.value + 1);
        SelectorPicksRendered(conds[1..], records[1..], otherwise, env, hasElse);
      }
    }
  }

  // ---------------------------------------------------------------------
  // Slots under v-for

  /** A `v-for="(item, index) in source" :key="key"`. */
  datatype Loop = Loop(source: Expr, item: string, index: string, key: Expr)

  /** `"<base>-" + i0 + '-' + i1 …` over the first `depth` loop indices. */
  function OutletTerm(base: string, depth: nat): BExpr
    requires depth >= 1
  {
    if depth == 1 then Plus(DoubleQuoted(base + "-"), IndexVar(0))
    else Plus(Plus(OutletTerm(base, depth - 1), SingleQuoted("-")), IndexVar(depth - 1))
  }

  /** `i0 + '-' + i1 …` over the first `depth` loop indices. */
  function SuffixTerm(depth: nat): BExpr
    requires depth >= 1
  {
    if depth == 1 then IndexVar(0)
    else Plus(Plus(SuffixTerm(depth - 1), SingleQuoted("-")), IndexVar(depth - 1))
  }

  /** The value of a string expression built from literals and loop indices
      when loop k is at index path[k] (`+` with a number prints it). */
  function EvalStr(b: BExpr, path: seq<nat>): Option<string> {
    match b
    case DoubleQuoted(s) => Some(s)
    case SingleQuoted(s) => Some(s)
    case IndexVar(k) => if k < |path| then Some(NatToString(path[k])) else None
    case Plus(l, r) =>
      var x, y := EvalStr(l, path), EvalStr(r, path);
      if x.Some? && y.Some? then Some(x.value + y.value) else None
    case _ => None
  }

  /** The indices of a path, printed and joined with `-`. */
  function IndexPath(path: seq<nat>): string {
    Join(Decimals(path), "-")
  }

  function Decimals(path: seq<nat>): (ds: seq<string>)
    ensures |ds| == |path| && forall k :: 0 <= k < |path| ==> ds[k] == NatToString(path[k])
  {
    seq(|path|, k requires 0 <= k < |path| => NatToString(path[k]))
  }

  /** The name of the outlet a slot under loops gets at index path `path`. */
  function OutletName(base: string, path: seq<nat>): string {
    base + "-" + IndexPath(path)
  }

  lemma {:induction false} JoinSnoc(parts: seq<string>, sep: string, last: string)
    requires |parts| >= 1
    ensures Join(parts + [last], sep) == Join(parts, sep) + sep + last
  {
    if |parts| > 1 {
      assert (parts + [last])[1..] == parts[1..] + [last];
      JoinSnoc(parts[1..], sep, last);
    }
  }

  /** The index-suffix expression evaluates to the joined index path. */
  lemma {:induction false} SuffixTermValue(path: seq<nat>)
    requires |path| >= 1
    ensures EvalStr(SuffixTerm(|path|), path) == Some(IndexPath(path))
  {
    if |path| > 1 {
      var init, last := path[..|path| - 1], NatToString(path[|path| - 1]);
      SuffixTermValue(init);
      EvalStrPrefix(SuffixTerm(|init|), init, path);
      EvalDashIndex(SuffixTerm(|init|), path, IndexPath(init), |init|);
      assert Decimals(path) == Decimals(init) + [last];
      JoinSnoc(Decimals(init), "-", last);
    }
  }

  /** The outlet-name expression evaluates to the outlet name. */
  lemma {:induction false} OutletTermValue(base: string, path: seq<nat>)
    requires |path| >= 1
    ensures EvalStr(OutletTerm(base, |path|), path) == Some(OutletName(base, path))
  {
    if |path| > 1 {
      var init, last := path[..|path| - 1], NatToString(path[|path| - 1]);
      OutletTermValue(base, init);
      EvalStrPrefix(OutletTerm(base, |init|), init, path);
      EvalDashIndex(OutletTerm(base, |init|), path, OutletName(base, init), |init|);
      assert Decimals(path) == Decimals(init) + [last];
      JoinSnoc(Decimals(init), "-", last);
      assert OutletName(base, path) == OutletName(base, init) + "-" + last;
    }
  }

  /** Appending `+ '-' + i<k>` appends a dash and the k-th index. */
  lemma EvalDashIndex(b: BExpr, path: seq<nat>, x: string, k: nat)
    requires k < |path| && EvalStr(b, path) == Some(x)
    ensures EvalStr(Plus(Plus(b, SingleQuoted("-")), IndexVar(k)), path) == Some(x + "-" + NatToString(path[k]))
  {
    var d := Plus(b, SingleQuoted("-"));
    assert EvalStr(SingleQuoted("-"), path) == Some("-");
    assert EvalStr(d, path) == Some(x + "-");
    assert EvalStr(IndexVar(k), path) == Some(NatToString(path[k]));
  }

  /** An expression that evaluates over a path prefix has the same value
      over the whole path. */
  lemma {:induction false} EvalStrPrefix(b: BExpr, init: seq<nat>, path: seq<nat>)
    requires init <= path && EvalStr(b, init).Some?
    ensures EvalStr(b, path) == EvalStr(b, init)
  {
    match b
    case Plus(l, r) =>
      EvalStrPrefix(l, init, path);
      EvalStrPrefix(r, init, path);
    case IndexVar(k) =>
      assert path[k] == init[k];
    case _ =>
  }

  /** The outlet the markup declares (`name="{{item.a}}"`, key `a` of the
      innermost scope) is the slot `_r(base, …, suffix)` renders into. */
  lemma OutletMatchesRender(base: string, path: seq<nat>)
    requires |path| >= 1
    ensures EvalStr(OutletTerm(base, |path|), path).Some? && EvalStr(SuffixTerm(|path|), path).Some?
    ensures EvalStr(OutletTerm(base, |path|), path).value ==
            base + "-" + EvalStr(SuffixTerm(|path|), path).value
  {
    OutletTermValue(base, path);
    SuffixTermValue(path);
  }

  /** Outlet names are unique per iteration: distinct index paths give
      distinct names for the same slot. */
  lemma OutletNameInjective(base: string, p: seq<nat>, q: seq<nat>)
    requires |p| >= 1 && |q| >= 1
    requires OutletName(base, p) == OutletName(base, q)
    ensures p == q
  {
    var x, y := base + "-", IndexPath(p);
    assert IndexPath(p) == OutletName(base, p)[|x|..];
    assert IndexPath(q) == OutletName(base, q)[|x|..];
    NoDashInDecimals(p);
    NoDashInDecimals(q);
    SplitJoin(Decimals(p), '-');
    SplitJoin(Decimals(q), '-');
    assert Decimals(p) == Decimals(q);
    forall k | 0 <= k < |p|
      ensures p[k] == q[k]
    {
      NatToStringInjective(p[k], q[k]);
    }
  }

  lemma NoDashInDecimals(path: seq<nat>)
    ensures forall k :: 0 <= k < |path| ==> '-' !in Decimals(path)[k]
  {
    forall k | 0 <= k < |path|
      ensures '-' !in Decimals(path)[k]
    {
      var s := NatToString(path[k]);
      assert forall c :: c in s ==> IsDigit(c);
    }
  }

  /** The markup attributes of loop level `level`: it iterates over key `a`
      of the enclosing scope (`item.a` under an outer loop). */
  function LoopAttrs(loops: seq<Loop>, level: nat): string
    requires level < |loops|
  {
    var source := if level == 0 then KeyName(0) else loops[level - 1].item + "." + KeyName(0);
    (" wx:for=\"{{" + source + "}}\"") + (" wx:for-item=\"" + loops[level].item + "\"")
  }

  /** The record of scope `level`: an inner loop under key `a` and this
      loop's key under `b`; at the slot's own loop, the outlet name under
      `a` and the rendered content under `b`. Keys start at `a` in every scope. */
  function ScopeRecord(loops: seq<Loop>, base: string, level: nat): (b: BExpr)
    requires level < |loops|
    ensures b.Rec? && b.first == 0
    decreases |loops| - level
  {
    if level == |loops| - 1 then
      Rec(0, Cons(OutletTerm(base, |loops|),
             Cons(RenderSlot(base, loops[level].key, SuffixTerm(|loops|)), Nil)))
    else
      var inner := loops[level + 1];
      Rec(0, Cons(ForEach(inner.source, inner.item, inner.index, level + 1, ScopeRecord(loops, base, level + 1)),
             Cons(Ref(loops[level].key), Nil)))
  }

  // ---------------------------------------------------------------------
  // Templates

  datatype Template =
    | Plain(tags: seq<Tag>, slot: Slot)
      // the slot inside plain elements, outermost first
    | IfChain(branches: seq<(Expr, Slot)>, otherwise: Option<Slot>)
      // `v-if`, then `v-else-if`s, then an optional `v-else`
    | ForSlot(wrappers: seq<(string, Loop)>, loop: Loop, slot: Slot)
      // a slot with its own `v-for` inside elements with `v-for`s, outermost first

  /** The shapes whose compilation the rules fix. */
  predicate Covered(t: Template) {
    match t
    case Plain(_, s) => !(s.name.BoundName? && s.fallback.Some?)
    case IfChain(bs, other) =>
      |bs| >= 1 &&
      (forall i :: 0 <= i < |bs| ==> !bs[i].1.name.BoundName?) &&
      (other.Some? ==> !other.value.name.BoundName?)
    case ForSlot(_, _, s) => !s.name.BoundName? && s.fallback.None?
  }

  function Loops(t: Template): (ls: seq<Loop>)
    requires t.ForSlot?
    ensures |ls| == |t.wrappers| + 1 && ls[|ls| - 1] == t.loop
    ensures forall k :: 0 <= k < |t.wrappers| ==> ls[k] == t.wrappers[k].1
  {
    seq(|t.wrappers|, k requires 0 <= k < |t.wrappers| => t.wrappers[k].1) + [t.loop]
  }

  function ChainMarkup(bs: seq<(Expr, Slot)>, other: Option<Slot>, i: nat): string
    requires forall k :: 0 <= k < |bs| ==> !bs[k].1.name.BoundName?
    requires other.Some? ==> !other.value.name.BoundName?
    decreases |bs| - i
  {
    if i < |bs| then SlotMarkup(bs[i].1, Directive(i, |bs|), "") + ChainMarkup(bs, other, i + 1)
    else if other.Some? then SlotMarkup(other.value, Directive(|bs|, |bs|), "")
    else ""
  }

  /** An element with `v-for` around the slot: it iterates at `level` and
      is keyed by binding `b` of the enclosing scope. */
  function WrapperMarkup(ws: seq<(string, Loop)>, loops: seq<Loop>, level: nat, inner: string): string
    requires |loops| == |ws| + 1 && level <= |ws|
    decreases |ws| - level
  {
    if level == |ws| then inner
    else WrapperOpen(ws[level].0, loops, level) + WrapperMarkup(ws, loops, level + 1, inner) + CloseTag(ws[level].0)
  }

  function WrapperOpen(tag: string, loops: seq<Loop>, level: nat): string
    requires level < |loops|
  {
    "<" + tag + LoopAttrs(loops, level) + (" wx:key=\"" + KeyName(1) + "\"") + ">"
  }

  function CloseTag(tag: string): string {
    "</" + tag + ">"
  }

  /** The slot under its own loop: it names its outlet after binding `a` of
      the loop's scope (`{{item.a}}`). */
  function LoopOutlet(loops: seq<Loop>, selfClosing: bool): string
    requires |loops| >= 1
  {
    "<slot" + LoopAttrs(loops, |loops| - 1) + OutletNameAttr(loops[|loops| - 1].item) +
    (if selfClosing then "/>" else "></slot>")
  }

  function OutletNameAttr(item: string): string {
    " name=\"{{" + item + "." + KeyName(0) + "}}\""
  }

  /** The markup the compiler emits for a template. */
  function Markup(t: Template): string
    requires Covered(t)
  {
    match t
    case Plain(tags, s) => OpenTags(tags) + SlotMarkup(s, "", KeyName(0)) + CloseTags(tags)
    case IfChain(bs, other) => ChainMarkup(bs, other, 0)
    case ForSlot(ws, l, s) =>
      var loops := Loops(t);
      WrapperMarkup(ws, loops, 0, LoopOutlet(loops, s.selfClosing))
  }

  function Conds(bs: seq<(Expr, Slot)>): (cs: seq<Expr>)
    ensures |cs| == |bs| && forall k :: 0 <= k < |bs| ==> cs[k] == bs[k].0
  {
    seq(|bs|, k requires 0 <= k < |bs| => bs[k].0)
  }

  /** The binding expression of the render function. A chain binds its
      conditions under keys `a`, `b`, … in document order and merges them
      with the selector of the branch records in one `_e(…)`. */
  function Binding(t: Template): (b: BExpr)
    requires Covered(t)
  {
    match t
    case Plain(_, s) => SlotBinding(s)
    case IfChain(bs, other) =>
      var conds := Conds(bs);
      var records := seq(|bs|, k => Rec(0, Nil));
      Extend(Cons(Rec(0, Cons(Ref(conds[0]), Nil)),
             Cons(Selector(conds, records, Rec(0, Nil)), CondRecords(conds, 1))))
    case ForSlot(_, l, s) =>
      var loops := Loops(t);
      var base := SlotKey(ResolveName(s.name));
      Rec(0, Cons(ForEach(loops[0].source, loops[0].item, loops[0].index, 0, ScopeRecord(loops, base, 0)), Nil))
  }

  /** What the compiler emits: the markup and the render function. */
  function Compile(t: Template): (r: (string, string))
    requires Covered(t)
  {
    (Markup(t), RenderFunction(Binding(t)))
  }

  // ---------------------------------------------------------------------
  // Properties

  /** `name="default"` and no name at all compile alike: the default slot
      is emitted without a name. */
  lemma DefaultNameNormalised(tags: seq<Tag>, fallback: Option<string>, selfClosing: bool)
    ensures var bare := Plain(tags, Slot(NoName, fallback, selfClosing));
            var named := Plain(tags, Slot(StaticName("default"), fallback, selfClosing));
            Covered(bare) && Covered(named) && Compile(bare) == Compile(named)
  {
  }

  /** A slot without bound expressions needs no bindings: the render
      function returns the empty record. */
  lemma StaticSlotBindsNothing(tags: seq<Tag>, s: Slot)
    requires !s.name.BoundName?
    ensures Covered(Plain(tags, s))
    ensures Compile(Plain(tags, s)).1 == "(_ctx, _cache) => {\n  return {}\n}"
  {
  }

  /** Field `k` of the record `{ <key first>: f0, <key first+1>: f1, … }`. */
  function RecLookup(first: nat, fs: BList, k: nat): Option<BExpr>
    decreases fs
  {
    match fs
    case Nil => None
    case Cons(h, t) => if k == first then Some(h) else RecLookup(first + 1, t, k)
  }

  /** Field `k` of `_e(args…)` once the conditions are known: the arguments
      are merged into one object, a later argument overriding an earlier
      one; a selector contributes the record it evaluates to. */
  function ArgsLookup(args: BList, k: nat, env: Expr -> bool): Option<BExpr>
    decreases args
  {
    match args
    case Nil => None
    case Cons(h, t) =>
      var later := ArgsLookup(t, k, env);
      if later.Some? then later
      else
        match EvalSelect(h, env)
        case Rec(first, fs) => RecLookup(first, fs, k)
        case _ => None
  }

  /** The condition records from `i` on bind key j to condition j for every
      j from `i` on, and nothing below `i`. */
  lemma {:induction false} CondRecordsLookup(conds: seq<Expr>, i: nat, j: nat, env: Expr -> bool)
    ensures ArgsLookup(CondRecords(conds, i), j, env) ==
      if i <= j < |conds| then Some(Ref(conds[j])) else None
    decreases |conds| - i
  {
    if i < |conds| {
      CondRecordsLookup(conds, i + 1, j, env);
      var r := Rec(i, Cons(Ref(conds[i]), Nil));
      assert CondRecords(conds, i) == Cons(r, CondRecords(conds, i + 1));
      assert RecLookup(i, r.fields, j) == if j == i then Some(Ref(conds[i])) else RecLookup(i + 1, Nil, j);
    }
  }

  /** A chain of slots with static names: whichever conditions hold, the
      merged record of the render function binds the key that branch j's
      `wx:if`/`wx:elif` reads to condition j itself (the selector of the
      branch records never overrides it), and the last branch is the
      `wx:else`. */
  lemma ChainBindsConditions(bs: seq<(Expr, Slot)>, other: Option<Slot>, env: Expr -> bool)
    requires Covered(IfChain(bs, other))
    ensures Directive(0, |bs|) == " wx:if=\"{{" + KeyName(0) + "}}\""
    ensures forall j :: 0 < j < |bs| ==> Directive(j, |bs|) == " wx:elif=\"{{" + KeyName(j) + "}}\""
    ensures Directive(|bs|, |bs|) == " wx:else"
    ensures forall j :: 0 <= j < |bs| ==>
      ArgsLookup(Binding(IfChain(bs, other)).args, j, env) == Some(Ref(bs[j].0))
  {
    var conds := Conds(bs);
    var records := seq(|bs|, k => Rec(0, Nil));
    SelectorPicksRendered(conds, records, Rec(0, Nil), env, other.Some?);
    var a := Active(conds, env, other.Some?);
    assert EvalSelect(Selector(conds, records, Rec(0, Nil)), env) == Rec(0, Nil) by {
      if a.Some? && a.value < |conds| {
        assert records[a.value] == Rec(0, Nil);
      }
    }
    forall j | 0 <= j < |bs|
      ensures ArgsLookup(Binding(IfChain(bs, other)).args, j, env) == Some(Ref(bs[j].0))
    {
      CondRecordsLookup(conds, 1, j, env);
    }
  }
}
