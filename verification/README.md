# uni-app core rules in Dafny

This project models four pieces of the uni-app tool chain and proves properties of each:

- **`<swiper>` component** (`packages/uni-components/src/components/swiper/index.tsx`).
  - `useState` turns the props into initial state.
  - The closure state of `useLayout` is the class `Swiper.Layout`, with one method per handler. It covers slide index normalisation, circular re-layout, the unwrapping loops of `animateViewport`, autoplay, the current/currentItemId watcher, `resetLayout` and the dot click.
  - The indicator-dot predicate of the render function.
  - The swiper-item context registry kept by `setup`, as the class `Swiper.Registry`.
- **Mini-program slot compilation** (`packages/uni-mp-compiler/__tests__/slot.spec.ts`).
  - A slot template becomes WXML markup plus a render function that returns the binding record. This covers default-name normalisation, fallback wrappers, binding keys `a`, `b`, … and `v-if` chains merged into one `_e(…)` record.
  - Slots under `v-for` get per-iteration outlet names `base-i0-i1…`.
  - Module `MpSlot` holds the rules; module `MpSlotRules` derives every expected output of the suite from them.
- **Function-call code generation for the app-uts Kotlin target** (`packages/uni-app-uts/__tests__/codegen.spec.ts`).
  - `createElementVNode` calls take nullable trailing arguments: a `Map` literal for the props, children and the TEXT flag.
  - Each component is declared once, in first-use order.
  - Easycom components are imported.
  - Function mode wraps the result in a Kotlin render function.
  - Module `UtsCodegen` holds the printer; module `UtsCodegenRules` derives the expected outputs of the suite.
- **Kotlin tool-chain helpers** (`packages/uni-uts-v1/src/kotlin.ts`).
  - The package name, the class path, the jar path, the `kotlinc` and `d8` argument vectors, and how the replies of the dependency and resource checks are handled.

Shared modules:

- `Wrappers` provides `Option` and `Result`.
- `Strings` provides `IndexOf`, `Join`/`Split`, decimal printing, `ReplaceFirst`, `MapChar` and the first-occurrence filter `Dedup`.

JavaScript's semantics are written out wherever they matter:

- the truncating `%` (`Swiper.JsRem`);
- `Math.round(x) || 0` (`Swiper.RoundOrZero`);
- `NaN` props (`Swiper.Num.NaN`);
- `String.prototype.replace` with a string pattern, which replaces only the first occurrence (`Strings.ReplaceFirst`).

## Model

| member | source | states |
|---|---|---|
| Swiper.RoundOrZero | packages/uni-components/src/components/swiper/index.tsx:129 | `Math.round(x) \|\| 0` is 0 for NaN and the integer itself otherwise |
| Swiper.UseState | packages/uni-components/src/components/swiper/index.tsx:112-134 | NaN props fall back to 5000 ms, 500 ms and one item per screen; other values are kept; `current` is the rounded prop, or 0 for NaN; the user is not tracking |
| Swiper.Upx2pxStr | packages/uni-components/src/components/swiper/index.tsx:95-102 | the margin string comes back unchanged, because the result of `replace` is discarded |
| Swiper.JsRem | packages/uni-components/src/components/swiper/index.tsx:242 | JavaScript's `%` takes the sign of the dividend: it lies in [0, b) for a >= 0 and in (-b, 0] for a < 0, and differs from the dividend by a multiple of b |
| Swiper.WrapIsModulo | packages/uni-components/src/components/swiper/index.tsx:242 | `((c % len) + len) % len` with JavaScript's `%` is the mathematical modulus, for every integer c |
| Swiper.NormalizeCurrentValue | packages/uni-components/src/components/swiper/index.tsx:237-251 | -1 without slides; with wrap-around, c mod len; without wrap-around, min(c mod len, len - displayMultipleItems) |
| Swiper.NormalizedInRange | packages/uni-components/src/components/swiper/index.tsx:237-251 | with at least one slide and displayMultipleItems <= len (negative values included), the normalised index is a valid slide index in both modes |
| Swiper.Cost | packages/uni-components/src/components/swiper/index.tsx:183-185 | the distance of a position outside the viewport window [index-1, index+displayMultipleItems] is never negative, is 0 inside the window, and is the distance to the nearer edge outside it |
| Swiper.CircularPosition | packages/uni-components/src/components/swiper/index.tsx:169-191 | slide r goes to one of s, s+n and s-n with the least cost; a tie goes to the first in that order; the position is congruent to r mod n |
| Swiper.CircularPositionsDistinct | packages/uni-components/src/components/swiper/index.tsx:169-191 | two different slides never get the same circular position |
| Swiper.CircularLayout | packages/uni-components/src/components/swiper/index.tsx:171-189 | the layout has one position per slide, namely that slide's `CircularPosition` |
| Swiper.Place | packages/uni-components/src/components/swiper/index.tsx:188 | after `updatePosition` calls for slides 0..k-1, those slides hold their new positions, the other slides keep theirs, and no other slide appears |
| Swiper.PlaceOverwrite | packages/uni-components/src/components/swiper/index.tsx:352-358 | placing a complete layout erases any earlier layout of the same length |
| Swiper.UnwrapPosition | packages/uni-components/src/components/swiper/index.tsx:292-318 | with len > 0 the loops end. The position is a multiple of len away from the start. It lies in [t, t+len] for n < 0 and in [t-len, t] for n > 0. For n = 0 it lies within one lap of t and moving one lap up would not bring it nearer |
| Swiper.AnimateViewportAsWrittenHangs | packages/uni-components/src/components/swiper/index.tsx:292-318 | with no slides and displayMultipleItems = -1, `circularEnabled` holds and the autoplay step targets -1; the loop at 301-303 then stays at position 0 > -1 after any number of rounds |
| Swiper.StepAsWrittenStuck | packages/uni-components/src/components/swiper/index.tsx:301-303 | with a slide count of 0, `position -= length` leaves the position where it was after any number of rounds |
| Swiper.MountOneItem | packages/uni-components/src/components/swiper/index.tsx:388-423 | a circular autoplaying swiper with displayMultipleItems -1 and `current` 0 that gets one swiper-item keeps index 0 (the index watcher runs before `resetLayout`), has a valid layout with the viewport at 0 and a pending timer |
| Swiper.RemoveOnlyItem | packages/uni-components/src/components/swiper/index.tsx:388-423 | removing that only swiper-item leaves no slide, yet the layout stays valid, the viewport at 0 and the timer pending |
| Swiper.AutoplayHangReachable | packages/uni-components/src/components/swiper/index.tsx:334-345 | after mounting, adding and removing one swiper-item, the next autoplay tick targets -1 from viewport 0 with no slides, where the as-written loop never ends |
| Swiper.AutoplayStaysInRange | packages/uni-components/src/components/swiper/index.tsx:337-343 | without wrap-around, an index in [0, len - displayMultipleItems] stays there: the step goes forward by one or back to 0 |
| Swiper.AutoplayWraps | packages/uni-components/src/components/swiper/index.tsx:337-339 | with wrap-around, the autoplay step is the successor modulo the slide count |
| Swiper.ResolveCurrent | packages/uni-components/src/components/swiper/index.tsx:394-413 | the first slide whose item id is a non-empty `currentItemId`; otherwise the rounded `current` prop; never negative |
| Swiper.FindItemIndex | packages/uni-components/src/components/swiper/index.tsx:397-404 | the search loop returns the first index holding the id, or -1 when there is none |
| Swiper.DotActiveIsWindow | packages/uni-components/src/components/swiper/index.tsx:724-731 | for a dot index and a current index both in [0, len), a dot is active exactly when (index - current) mod len < displayMultipleItems, that is, for the slides shown from `current` on, wrapping past the end |
| Swiper.DotBackground | packages/uni-components/src/components/swiper/index.tsx:732-736 | only the dot of the current slide gets the active colour |
| Swiper.ChangeDirection | packages/uni-components/src/components/swiper/index.tsx:438-447 | `currentChanged` animates in direction 0 or 1; for 0 < current < len it chooses 1 exactly when wrap-around is on and current - history < len/2; for current 0 exactly when wrap-around is on and history > len/2 |
| Swiper.Layout.constructor | packages/uni-components/src/components/swiper/index.tsx:150-163 | `useLayout` starts with no timer, an invalid layout, the viewport at 0, no animation and no change source |
| Swiper.Layout.CancelSchedule | packages/uni-components/src/components/swiper/index.tsx:144-149 | no timer is pending afterwards |
| Swiper.Layout.CheckCircularLayout | packages/uni-components/src/components/swiper/index.tsx:169-191 | an invalid layout changes nothing; otherwise every slide moves to its circular position |
| Swiper.Layout.PlaceAll | packages/uni-components/src/components/swiper/index.tsx:171-189 | the per-slide loop leaves exactly the `Place` of the given layout |
| Swiper.Layout.UpdateViewport | packages/uni-components/src/components/swiper/index.tsx:192-230 | the viewport is at the index; the slides are re-laid out only when the viewport moved, wrap-around is on and the layout is valid |
| Swiper.Layout.EndViewportAnimation | packages/uni-components/src/components/swiper/index.tsx:231-236 | a running animation jumps to its target and is cleared; without one nothing changes |
| Swiper.Layout.AnimateViewport | packages/uni-components/src/components/swiper/index.tsx:287-330 | the new animation has the given target and source and starts from the unwrapped viewport position |
| Swiper.Layout.ScheduleAutoplay | packages/uni-components/src/components/swiper/index.tsx:331-351 | a timer is pending exactly when the layout is valid and there are more slides than displayMultipleItems |
| Swiper.Layout.AutoplayTick | packages/uni-components/src/components/swiper/index.tsx:334-345 | the change source becomes `autoplay`; the index takes the autoplay step; an animation towards it starts (forwards with wrap-around); the timer is set again |
| Swiper.Layout.ClearLayout | packages/uni-components/src/components/swiper/index.tsx:353-358 | the timer and the animation are stopped, and every slide is put back at its own index |
| Swiper.Layout.Reposition | packages/uni-components/src/components/swiper/index.tsx:369-386 | `Placed`: the layout is valid exactly when current >= 0. A user drag keeps its offset; otherwise the viewport shows `current` and autoplay restarts when enabled. Without a current slide the viewport goes to -displayMultipleItems-1 |
| Swiper.Layout.ResetLayout | packages/uni-components/src/components/swiper/index.tsx:352-387 | `LaidOut`: the animation is finished, every slide is put back at its own index, then the layout is placed as `Reposition` states, from the animation's target or the old viewport |
| Swiper.Layout.SyncCurrent | packages/uni-components/src/components/swiper/index.tsx:388-414 | the index becomes `ResolveCurrent`; the change source is cleared only when the index changed |
| Swiper.Layout.CurrentChanged | packages/uni-components/src/components/swiper/index.tsx:433-457 | a change with no source is animated in direction `ChangeDirection`, a change with a source is not; `currentItemId` follows the new slide's id when there is a slide |
| Swiper.Layout.DotClick | packages/uni-components/src/components/swiper/index.tsx:601-607 | the index is the clicked dot, the source is `click`, and an animation towards the dot starts |
| Swiper.Layout.IntervalChanged | packages/uni-components/src/components/swiper/index.tsx:424-432 | a pending timer is restarted and a missing one is not created |
| Swiper.Layout.InitAutoplay | packages/uni-components/src/components/swiper/index.tsx:471-477 | a timer is pending exactly when the given `enable` holds, the layout is valid and there are more slides than shown |
| Swiper.Layout.AutoplayChanged | packages/uni-components/src/components/swiper/index.tsx:478-479 | a new `autoplay` prop is recorded, so later `resetLayout` calls read it; when `autoplay && !userTracking` changes, a timer is pending exactly when the new value holds, the layout is valid and there are more slides than shown; otherwise the timer is left as it was |
| Swiper.Layout.SetSlides | packages/uni-components/src/components/swiper/index.tsx:388-423 | a new slide list triggers both watchers in registration order: the index becomes `ResolveCurrent` of the new list (the change source cleared only on a change), and then `resetLayout` leaves the whole state `LaidOut` from the old one around that index |
| Swiper.Layout.LayoutPropsChanged | packages/uni-components/src/components/swiper/index.tsx:414-423 | a change of `circular` or `displayMultipleItems` (and so of `circularEnabled`) triggers the same `resetLayout`: the props take their new values and the state is `LaidOut` from the old one |
| Swiper.ContextFor | packages/uni-components/src/components/swiper/index.tsx:662-664 | `find` returns a registered context whose root is the element, and returns none exactly when no context has that root |
| Swiper.ContextForFirst | packages/uni-components/src/components/swiper/index.tsx:662-664 | the context found is the first registered one with that root |
| Swiper.ContextSlides | packages/uni-components/src/components/swiper/index.tsx:658-670 | the indices of the slides that have a context, strictly increasing, and all of them |
| Swiper.ResolveSound | packages/uni-components/src/components/swiper/index.tsx:658-670 | the collected list has one entry per slide with a context; its i-th entry is the first context found for the i-th such slide, so entries are registered, in slide order and at most one per slide |
| Swiper.ResolveInSlideOrder | packages/uni-components/src/components/swiper/index.tsx:658-670 | when every slide has a context, the list holds one per slide, in slide order |
| Swiper.Registry.constructor | packages/uni-components/src/components/swiper/index.tsx:655-657 | the registry, the rendered items and the contexts start empty |
| Swiper.Registry.Render | packages/uni-components/src/components/swiper/index.tsx:697 | the rendered items are the flattened default slot |
| Swiper.Registry.UpdateSwiperContexts | packages/uni-components/src/components/swiper/index.tsx:658-670 | the loop collects exactly `Resolve(items, origin)` |
| Swiper.Registry.AddSwiperContext | packages/uni-components/src/components/swiper/index.tsx:671-674 | the context is appended to the registry and the contexts are collected again |
| Swiper.Registry.RemoveSwiperContext | packages/uni-components/src/components/swiper/index.tsx:676-682 | the first registration is removed and the contexts are collected again; an unregistered context changes nothing |
| Kotlin.ResolveTypeReferenceName | packages/uni-uts-v1/src/kotlin.ts:44-49 | the resolver is the identity on type names |
| Kotlin.ParseKotlinPackage | packages/uni-uts-v1/src/kotlin.ts:51-59 | empty when no package resolves; otherwise `uts.sdk.`, then `modules.` for uni_modules plugins, then the name |
| Kotlin.ClassPathSeparator | packages/uni-uts-v1/src/kotlin.ts:341 | the separator is `;` exactly on win32 and `:` everywhere else |
| Kotlin.ClassPathRoundTrip | packages/uni-uts-v1/src/kotlin.ts:340-342 | splitting the class path at the separator gives back the jars, in order |
| Kotlin.ResolveJarPathAsWritten | packages/uni-uts-v1/src/kotlin.ts:336-338 | as written: when the extension first occurs at the end, the result is the stem followed by `.jar` |
| Kotlin.ResolveJarPathAsWrittenMisplaced | packages/uni-uts-v1/src/kotlin.ts:336-338 | `/src/a.kt/index.kt` becomes `/src/a.jar/index.kt`: the directory is renamed, not the file |
| Kotlin.ResolveJarPathAsWrittenPrefixes | packages/uni-uts-v1/src/kotlin.ts:336-338 | a file without extension gets `.jar` in front of its path |
| Kotlin.ResolveJarPath | packages/uni-uts-v1/src/kotlin.ts:336-338 | corrected: the file name with its final extension replaced by `.jar` |
| Kotlin.ResolveJarPathAgrees | packages/uni-uts-v1/src/kotlin.ts:336-338 | the corrected and as-written versions agree whenever the extension text occurs only at the end |
| Kotlin.ResolveKotlincArgs | packages/uni-uts-v1/src/kotlin.ts:272-282 | exactly `[file, -cp, classpath, -d, jar, -kotlin-home, kotlinc]`, the jar being the as-written replacement, which is the corrected jar path whenever the extension text occurs only at the end |
| Kotlin.ResolveDexPath | packages/uni-uts-v1/src/kotlin.ts:332-334 | `path.dirname` (POSIX): `.`, `/` or `//`, or a proper prefix of the path that ends just before a separator |
| Kotlin.ResolveDexPathOfJoin | packages/uni-uts-v1/src/kotlin.ts:332-334 | the directory of `d/b` is `d`, and that of a bare file name is `.` |
| Kotlin.ResolveD8Args | packages/uni-uts-v1/src/kotlin.ts:284-293 | exactly `[file, --no-desugaring, --min-api, 19, --output, dirname(file)]` |
| Kotlin.CheckDeps | packages/uni-uts-v1/src/kotlin.ts:162-178 | no config or no dependencies gives no jars; a non-zero code fails with the message; otherwise the result is the server's jars |
| Kotlin.CheckRes | packages/uni-uts-v1/src/kotlin.ts:189-207 | no `res` directory gives no jars; a non-zero code fails with the message; otherwise the result is the one generated jar |
| Kotlin.DevCompileArgs | packages/uni-uts-v1/src/kotlin.ts:122-132 | `kotlinc` writes the as-written jar of the source file; `d8` dexes that jar into its directory; the class path joins default jars, libs, dependency jars and resource jars |
| Kotlin.JarBesideSource | packages/uni-uts-v1/src/kotlin.ts:336-338 | for `d/b` whose extension occurs only at the end, the jar is `d/<stem>.jar` |
| Kotlin.DevOutputsBesideSource | packages/uni-uts-v1/src/kotlin.ts:122-132 | for such a source file `d/b`, `kotlinc` writes `d/<stem>.jar` and `d8` writes into `d` |
| Kotlin.DevClassPathOrder | packages/uni-uts-v1/src/kotlin.ts:126-130 | the development class path lists the default jars, then the libs, then the dependency jars, then the resource jars |
| MpSlot.ExprText | packages/uni-mp-compiler/__tests__/slot.spec.ts:20-28 | component expressions are read from `_ctx.`, loop-local ones as they are |
| MpSlot.ResolveName | packages/uni-mp-compiler/__tests__/slot.spec.ts:4-19 | no name and `name="default"` both give the default slot; other static names are kept; `:name` is dynamic |
| MpSlot.SlotKey | packages/uni-mp-compiler/__tests__/slot.spec.ts:29-55 | the `$slots` key is `d` for the default slot and the name otherwise |
| MpSlot.KeyName | packages/uni-mp-compiler/__tests__/slot.spec.ts:65-72 | binding keys are non-empty and end in the letter of the index mod 26, so the first 26 are `a`…`z` |
| MpSlot.KeyNameInjective | packages/uni-mp-compiler/__tests__/slot.spec.ts:65-72 | distinct positions get distinct binding keys |
| MpSlot.SlotBinding | packages/uni-mp-compiler/__tests__/slot.spec.ts:20-28 | a static name binds nothing (`{}`); a bound name is displayed under `a` |
| MpSlot.Active | packages/uni-mp-compiler/__tests__/slot.spec.ts:65-79 | the branch rendered is the first whose condition holds, else the `v-else` branch if there is one, else none |
| MpSlot.RenderedIsActive | packages/uni-mp-compiler/__tests__/slot.spec.ts:65-79 | exactly one branch renders; with a `v-else`, some branch always renders |
| MpSlot.SelectorPicksRendered | packages/uni-mp-compiler/__tests__/slot.spec.ts:70 | the nested conditional inside `_e(…)` evaluates to the record of the branch the markup renders |
| MpSlot.SuffixTermValue | packages/uni-mp-compiler/__tests__/slot.spec.ts:97-104 | the suffix expression `i0 + '-' + i1…` evaluates to the loop indices joined by `-`, outermost first |
| MpSlot.OutletTermValue | packages/uni-mp-compiler/__tests__/slot.spec.ts:81-104 | the outlet expression `"base-" + i0 …` evaluates to `base-i0-i1…` |
| MpSlot.OutletMatchesRender | packages/uni-mp-compiler/__tests__/slot.spec.ts:81-104 | the outlet the markup names is the slot `_r(base, …, suffix)` renders into, in every iteration |
| MpSlot.OutletNameInjective | packages/uni-mp-compiler/__tests__/slot.spec.ts:97-104 | distinct index paths give distinct outlet names for the same slot |
| MpSlot.ScopeRecord | packages/uni-mp-compiler/__tests__/slot.spec.ts:102 | every loop scope has its own record whose keys start again at `a` |
| MpSlot.DefaultNameNormalised | packages/uni-mp-compiler/__tests__/slot.spec.ts:4-19 | `name="default"` compiles exactly like no name, in any element context and with or without fallback |
| MpSlot.StaticSlotBindsNothing | packages/uni-mp-compiler/__tests__/slot.spec.ts:29-55 | a slot without bound expressions has the render function `return {}` |
| MpSlot.ChainBindsConditions | packages/uni-mp-compiler/__tests__/slot.spec.ts:65-79 | for a chain of statically named slots, branch j's `wx:if`/`wx:elif` reads key j, the last branch is `wx:else`, and under every valuation of the conditions the merged `_e(…)` record binds key j to condition j |
| MpSlotRules.BasicSlot | packages/uni-mp-compiler/__tests__/slot.spec.ts:4-19 | `<button><slot/></button>` and `name="default"` both compile to `<button><slot/></button>` with `return {}` |
| MpSlotRules.DynamicSlot | packages/uni-mp-compiler/__tests__/slot.spec.ts:20-28 | `:name="name"` gives `name="{{a}}"` and `{ a: _d(_ctx.name) }` |
| MpSlotRules.FallbackSlots | packages/uni-mp-compiler/__tests__/slot.spec.ts:29-55 | fallback content gives the `$slots.d` / `$slots.text` wrapper blocks; a named slot without fallback keeps its name; all bind `{}` |
| MpSlotRules.SlotInComponent | packages/uni-mp-compiler/__tests__/slot.spec.ts:56-64 | a slot inside a component: the component gets `u-s="{{['d']}}"` and its instance id, and the slot gets the fallback wrapper |
| MpSlotRules.HeaderBodyChainBinding | packages/uni-mp-compiler/__tests__/slot.spec.ts:70 | any header/body chain has the render function `_e({ a: _ctx.header }, _ctx.header ? {} : _ctx.body ? {} : {}, { b: _ctx.body })` |
| MpSlotRules.ChainOfSlots | packages/uni-mp-compiler/__tests__/slot.spec.ts:65-72 | the `v-if` chain gives `wx:if="{{a}}"`, `wx:elif="{{b}}"` and `wx:else`, with the merged `_e` record |
| MpSlotRules.ChainOfFallbackSlots | packages/uni-mp-compiler/__tests__/slot.spec.ts:73-79 | the same chain with fallbacks puts each branch's wrapper inside a `wx:if` / `wx:elif` / `wx:else` block, with the same record |
| MpSlotRules.SingleLoopPrinted | packages/uni-mp-compiler/__tests__/slot.spec.ts:86 | the render function of a slot under one loop is `{ a: _f(_ctx.items, (item, index, i0) => { return {…}; }) }` |
| MpSlotRules.LoopedSlots | packages/uni-mp-compiler/__tests__/slot.spec.ts:81-96 | an unnamed slot under `v-for` has outlet `"d-" + i0` and content `_r("d", { key: index }, i0)`; the slot named `test` uses `test` |
| MpSlotRules.NestedLoopedSlot | packages/uni-mp-compiler/__tests__/slot.spec.ts:97-105 | under two loops, the inner loop iterates `item.a`, the outer element is keyed by `b`, and the outlet is `"d-" + i0 + '-' + i1` |
| UtsCodegen.NullableArgs | packages/uni-app-uts/__tests__/codegen.spec.ts:5-13 | absent trailing arguments are dropped; every argument kept is written as is or as `null`; the last one kept is present |
| UtsCodegen.IndentSpaces | packages/uni-app-uts/__tests__/codegen.spec.ts:28 | the indentation before a child line is made of spaces only (two per level) |
| UtsCodegen.LinesJoin | packages/uni-app-uts/__tests__/codegen.spec.ts:47 | the import and declaration lines are joined by newlines with a newline after the last |
| UtsCodegen.ElementArity | packages/uni-app-uts/__tests__/codegen.spec.ts:5-13 | `createElementVNode` has 1 argument for a bare element, 2 with attributes only, 3 with element children and 4 with interpolated text; props are `null` exactly without attributes; the 4-argument form ends in the display call and the TEXT flag |
| UtsCodegen.ComponentTags | packages/uni-app-uts/__tests__/codegen.spec.ts:25-58 | the tags used by a tree are exactly those of its component nodes |
| UtsCodegen.DeclaredIffUsed | packages/uni-app-uts/__tests__/codegen.spec.ts:25-58 | a component is declared exactly when it is used |
| UtsCodegen.DeclaredOnce | packages/uni-app-uts/__tests__/codegen.spec.ts:25-43 | no component is declared twice, however often it is used |
| UtsCodegen.DeclaredInFirstUseOrder | packages/uni-app-uts/__tests__/codegen.spec.ts:44-58 | declarations follow the order of first use |
| UtsCodegen.ComponentIdentInjective | packages/uni-app-uts/__tests__/codegen.spec.ts:28 | tags without `_` get distinct `_component_` identifiers |
| UtsCodegen.EasycomTags | packages/uni-app-uts/__tests__/codegen.spec.ts:44-58 | the imported tags are exactly those resolved to easycom files |
| UtsCodegen.EasycomTagsKeepOrder | packages/uni-app-uts/__tests__/codegen.spec.ts:44-58 | the easycom tags keep their relative order |
| UtsCodegen.NoComponentsNoPreamble | packages/uni-app-uts/__tests__/codegen.spec.ts:15-24 | without components, function mode is the header, `return` and the closing brace, with no imports and no declarations |
| UtsCodegen.NoEasycomNoImports | packages/uni-app-uts/__tests__/codegen.spec.ts:25-43 | UTS components are never imported |
| UtsCodegen.ImportedEasycoms | packages/uni-app-uts/__tests__/codegen.spec.ts:44-58 | the imports are exactly the used easycom components, one each, in first-use order |
| UtsCodegenRules.BareView | packages/uni-app-uts/__tests__/codegen.spec.ts:5 | `<view/>` gives `createElementVNode("view")` |
| UtsCodegenRules.StyledView | packages/uni-app-uts/__tests__/codegen.spec.ts:6-9 | a static `style` gives the `new Map<string, any \| null>([["style", "…"]])` argument |
| UtsCodegenRules.InterpolatedText | packages/uni-app-uts/__tests__/codegen.spec.ts:10-13 | `<text>{{msg}}</text>` gives `null`, `toDisplayString(_ctx.msg)` and `1 /* TEXT */` |
| UtsCodegenRules.KotlinRenderFunction | packages/uni-app-uts/__tests__/codegen.spec.ts:15-24 | function mode wraps the call in `@Suppress("UNUSED_PARAMETER") function PagesIndexIndexRender(_ctx: PagesIndexIndex): VNode \| null { return … }` |
| UtsCodegenRules.UtsComponentsDeclaredOnce | packages/uni-app-uts/__tests__/codegen.spec.ts:25-43 | two uses of `uts-hello` give one `const _component_uts_hello = …UtsHelloComponent.name` and two `createVNode` children in an array |
| UtsCodegenRules.EasycomImportsAndDeclarations | packages/uni-app-uts/__tests__/codegen.spec.ts:44-58 | `custom`, `custom`, `custom1` give two imports and two `resolveEasyComponent` declarations, in first-use order, and three children |

## Left out

- Swiper rendering and motion are not modelled. This covers:
  - the CSS transforms of `updateViewport`;
  - `transitionStart` and the transition offsets;
  - `viewportMoveRatio`;
  - `cancelViewportAnimation`, `animateFrameFuncProto` and its acceleration;
  - `Date.now`, `requestAnimationFrame` and `setTimeout`, beyond whether a timer is pending;
  - the touch handlers with their speed and elastic drag;
  - percentage styles;
  - the `change`/`transition`/`animationfinish` events and `update:` emits;
  - the Vue `watch`/`computed` wiring (each watcher is a method the caller invokes).
- Swiper positions are integers: a fractional drag position or viewport is out of scope.
- `Swiper.Layout.AnimateViewport`: unwraps the start position only when there is at least one slide. The source's loops do not end in the circular case with no slides (see Findings).
- `Swiper.Upx2pxStr`: the external `upx2px` conversion is not modelled, because its result is discarded.
- `Swiper.DotActiveIsWindow`: states the window only for a current index in [0, len). The source never clamps `state.current` to the slide count (the index watcher keeps any non-negative rounded `current` prop), and then the second test `index < current + displayMultipleItems - len` lights dots outside any window: with 3 slides, one item per screen and `current` 7, every dot is active. The model states nothing about that case.
- `Swiper.NormalizedInRange`: requires displayMultipleItems <= len. A larger value caps the index at len - displayMultipleItems < 0 without wrap-around, outside the slides (for instance, one slide and 3 items per screen give -2).
- `Swiper.Layout.LayoutPropsChanged`: a change of the `vertical` prop also triggers `resetLayout`. It only changes the axis of the transforms, which are not modelled, so that trigger is not modelled.
- The root element of a `Swiper.SwiperContext` is fixed when it is registered. In the source `rootRef` is a ref whose value can change later (when the item mounts or re-renders); such a change is seen only at the next `updateSwiperContexts` call, which the model does not capture.
- `Swiper.Registry.Render`: the flattening of the default slot's VNodes (`flatVNode`) is not modelled. Slides are given as their root elements.
- The slot compiler and the app-uts compiler themselves (parser, transforms, whitespace handling) are not part of this model. The rules cover the template shapes the test suites fix:
  - slots inside plain elements and components;
  - `v-if`/`v-else-if`/`v-else` chains of statically named slots;
  - slots with their own `v-for` inside elements with `v-for`.
- `MpSlot.Covered`: accepts chains of one condition and of more than two. The tests fix only chains of two conditions and a `v-else`; the other lengths are an extrapolation of the same rule.
- `MpSlot.KeyName`: keys beyond `z` are an assumption (the model continues `aa`, `ab`, …). Only the first 26 are fixed by the tests.
- A chain without `v-else` yields `{}` as the final alternative of the selector. This is an extrapolation: the tests only show chains with `v-else`.
- The slot-name collision policy and bound names combined with fallback content are not modelled.
- The component instance id `u-i` is a hash of the file; it is a parameter.
- `UtsCodegen.ComponentIdentInjective`: requires tags without `_`. `a-b` and `a_b` share the identifier `_component_a_b`, and the generated code does not guard against that clash.
- `UtsCodegen.ComponentIdent`: turns only `-` into `_`. The compiler rewrites every character that is not valid in an identifier; only tags made of letters, digits, `-` and `_` are modelled.
- Component nodes of `UtsCodegen.Node` carry no attributes and no children, as in the tests.
- UtsCodegen does not model the following:
  - components no resolver recognises (`resolveComponent`);
  - plain text nodes;
  - children that mix text and elements;
  - dynamic attributes.
- The separator between several static attributes in the `Map` literal is `, `, as in the single-attribute test. Only one attribute is pinned.
- The resolvers (`parseUTSComponent`, `matchEasyCom`) are one total parameter function. The `source` field of a UTS component is unused in the output.
- The page class name (`PagesIndexIndex`) is a parameter; deriving it from the file path is not part of this model.
- Default mode prints the bare call expression. No preamble is modelled for it.
- Kotlin's I/O is not modelled:
  - `runKotlinProd`/`runKotlinDev` around the argument vectors, `compile`, `resolveLibs`, `hasDeps`, `resolveDexFile`, and deleting the jar;
  - file-system checks, `process.env` and the compiler server.

  Instead, `path.extname`, `os.platform`, `resolvePackage`, the existence of `config.json`/`res`, and the server replies are parameters.
- `Kotlin.ResolveDexPath`: models the POSIX `path.dirname`. Windows paths (drive letters, `\` separators) are not modelled.
- `Kotlin.ResolveJarPath`: requires that `extname` is a suffix of the file name, which is what `path.extname` returns.
- `Kotlin.ClassPathRoundTrip`: requires at least one jar and no jar path containing the separator. Otherwise the joined class path cannot be split back.
- Asynchrony is left out: `checkDeps`/`checkRes` return a `Result` instead of a rejected promise.

## Findings

| source | as written | input that shows it | evidently intended | confidence | as-written member | corrected member |
|---|---|---|---|---|---|---|
| packages/uni-components/src/components/swiper/index.tsx:292-318 | `circularEnabled` is `circular && length > displayMultipleItems`, and the unwrapping loops step by `length` | `circular` and `autoplay` on, `displayMultipleItems` -1, `current` 0: one swiper-item is added and removed again, so `resetLayout` runs with no slide and the layout stays valid with a timer; the next tick targets -1 and `for (; position > current; ) position -= length` never ends with length 0 | unwrap only when there is at least one slide, so the loops end | medium, not executed | Swiper.AutoplayHangReachable | Swiper.UnwrapPosition |
| packages/uni-uts-v1/src/kotlin.ts:336-338 | `filename.replace(path.extname(filename), '.jar')` replaces the first occurrence of the extension text | `/src/a.kt/index.kt` gives `/src/a.jar/index.kt`; `/src/Makefile` gives `.jar/src/Makefile` | replace the extension at the end of the file name | medium, not executed | Kotlin.ResolveJarPathAsWrittenMisplaced | Kotlin.ResolveJarPath |
