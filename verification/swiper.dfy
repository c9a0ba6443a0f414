/** The slide-index logic of the `<swiper>` component
    (`packages/uni-components/src/components/swiper/index.tsx`) with the DOM,
    CSS, timers' clock and animation frames taken away: what `useState`
    derives from the props, the closure state of `useLayout` as a class whose
    methods are its handlers, the dot predicate of the render function, and
    the registry of swiper-item contexts kept by `setup`.

    Numbers the component passes through `Math.round` are integers here; a
    prop that is not a number is `NaN`. */
module Swiper {
  import opened Wrappers
  import opened Strings

  // ---------------------------------------------------------------------
  // Props and state

  /** A numeric prop after `Number(…)` or `Math.round(…)`. */
  datatype Num = Int(value: int) | NaN

  datatype Props = Props(interval: Num, duration: Num, displayMultipleItems: Num,
                         current: Num, currentItemId: string)

  datatype State = State(interval: int, duration: int, displayMultipleItems: int,
                         current: int, currentItemId: string, userTracking: bool)

  /** `Math.round(x) || 0`: NaN (and 0) give 0, any other integer itself. */
  function RoundOrZero(x: Num): (r: int)
    ensures x.NaN? ==> r == 0
    ensures x.Int? ==> r == x.value
  {
    if x.NaN? || x.value == 0 then 0 else x.value
  }

  /** `useState`: NaN falls back to an interval of 5000 ms, a duration of
      500 ms and one item per screen; the current index starts from the
      rounded prop (0 for NaN); the user is not tracking. */
  function UseState(p: Props): (s: State)
    ensures p.interval.NaN? ==> s.interval == 5000
    ensures p.duration.NaN? ==> s.duration == 500
    ensures p.displayMultipleItems.NaN? ==> s.displayMultipleItems == 1
    ensures p.interval.Int? ==> s.interval == p.interval.value
    ensures p.duration.Int? ==> s.duration == p.duration.value
    ensures p.displayMultipleItems.Int? ==> s.displayMultipleItems == p.displayMultipleItems.value
    ensures s.current == RoundOrZero(p.current)
    ensures s.currentItemId == p.currentItemId && !s.userTracking
  {
    State(if p.interval.NaN? then 5000 else p.interval.value,
          if p.duration.NaN? then 500 else p.duration.value,
          if p.displayMultipleItems.NaN? then 1 else p.displayMultipleItems.value,
          RoundOrZero(p.current), p.currentItemId, false)
  }

  /** `upx2pxStr`: the result of `replace` is thrown away, so the margin
      string comes back as it was given (`val || ''` is `val` for strings). */
  function Upx2pxStr(val: string): (r: string)
    ensures r == val
  {
    if val == "" then "" else val
  }

  // ---------------------------------------------------------------------
  // Index arithmetic

  /** JavaScript's `a % b` for b > 0: the remainder takes the sign of `a`
      and differs from `a` by a multiple of `b`. */
  function JsRem(a: int, b: int): (r: int)
    requires b > 0
    ensures a >= 0 ==> 0 <= r < b
    ensures a < 0 ==> -b < r <= 0
    ensures (a - r) % b == 0
  {
    if a >= 0 then
      ModUnique(a - a % b, b, a / b, 0);
      a % b
    else
      ModUnique(a + (-a) % b, b, -((-a) / b), 0);
      -((-a) % b)
  }

  /** `circularEnabled`: wrap-around is on when `circular` is set and there
      are more slides than are shown at once. */
  predicate CircularEnabled(circular: bool, length: int, displayMultipleItems: int) {
    circular && length > displayMultipleItems
  }

  /** `normalizeCurrentValue`: -1 without slides; otherwise the index wrapped
      into [0, length), which in non-circular mode is capped at
      length - displayMultipleItems so the last screen stays full. */
  function NormalizeCurrentValue(current: int, length: nat, circular: bool, displayMultipleItems: int): (r: int)
    ensures length == 0 ==> r == -1
    ensures length > 0 && CircularEnabled(circular, length, displayMultipleItems) ==>
      0 <= r < length && r == current % length
    ensures length > 0 && !CircularEnabled(circular, length, displayMultipleItems) ==>
      r == Min(current % length, length - displayMultipleItems)
  {
    if length == 0 then -1
    else
      var index := JsRem(JsRem(current, length) + length, length);
      WrapIsModulo(current, length);
      if CircularEnabled(circular, length, displayMultipleItems) then
        if length <= displayMultipleItems then 0 else index
      else if index > length - displayMultipleItems then length - displayMultipleItems
      else index
  }

  function Min(a: int, b: int): int {
    if a <= b then a else b
  }

  /** `((x % n) + n) % n` with JavaScript's remainder is the mathematical
      modulus. */
  lemma WrapIsModulo(x: int, n: int)
    requires n > 0
    ensures JsRem(JsRem(x, n) + n, n) == x % n
  {
    if x >= 0 {
      var m := x % n;
      ModUnique(m + n, n, 1, m);
    } else {
      var q, m := (-x) / n, (-x) % n;
      if m == 0 {
        ModUnique(x, n, -q, 0);
        ModUnique(n, n, 1, 0);
      } else {
        assert x == (-q - 1) * n + (n - m);
        ModUnique(x, n, -q - 1, n - m);
        ModUnique(n - m, n, 0, n - m);
      }
    }
  }

  /** Quotient and remainder are unique: whoever writes x as q * n + r with
      0 <= r < n has found x / n and x % n. */
  lemma ModUnique(x: int, n: int, q: int, r: int)
    requires n > 0 && 0 <= r < n && x == q * n + r
    ensures x % n == r && x / n == q
  {
    var q', r' := x / n, x % n;
    MulSign(q - q', n);
    assert (q - q') * n == r' - r;
  }

  lemma MulSign(d: int, n: int)
    requires n > 0
    ensures d >= 1 ==> d * n >= n
    ensures d <= -1 ==> d * n <= -n
  {
  }

  /** Unless more items are shown at once than there are slides, the
      normalized index is a valid slide index, whether or not wrap-around is
      on (a negative count never caps the index). */
  lemma NormalizedInRange(current: int, length: nat, circular: bool, displayMultipleItems: int)
    requires length > 0
    requires displayMultipleItems <= length
    ensures 0 <= NormalizeCurrentValue(current, length, circular, displayMultipleItems) < length
  {
  }

  /** How far `position` lies outside the viewport window
      [index - 1, index + displayMultipleItems] (`checkCircularLayout`'s u, d, h). */
  function Cost(index: int, displayMultipleItems: int, position: int): (c: int)
    ensures c >= 0
    ensures index - 1 <= position <= index + displayMultipleItems ==> c == 0
    ensures displayMultipleItems >= -1 && position < index - 1 ==> c == index - 1 - position
    ensures displayMultipleItems >= -1 && position > index + displayMultipleItems ==>
      c == position - index - displayMultipleItems
  {
    Max3(index - (position + 1), position - (index + displayMultipleItems), 0)
  }

  function Max3(a: int, b: int, c: int): int {
    if a >= b && a >= c then a else if b >= c then b else c
  }

  function Min3(a: int, b: int, c: int): int {
    if a <= b && a <= c then a else if b <= c then b else c
  }

  /** Where `checkCircularLayout` puts slide r (0 <= r < n) when the viewport
      shows `index`: of the copies s = floor(index / n) * n + r, s + n and
      s - n, the one with the smallest cost, the earliest of them in that
      order on a tie (`[s, l, c][[u, d, h].indexOf(p)]`). */
  function CircularPosition(index: int, n: int, displayMultipleItems: int, r: int): (p: int)
    requires 0 <= r < n
    ensures var s := (index / n) * n + r;
      (p == s || p == s + n || p == s - n) &&
      Cost(index, displayMultipleItems, p) <= Cost(index, displayMultipleItems, s) &&
      Cost(index, displayMultipleItems, p) <= Cost(index, displayMultipleItems, s + n) &&
      Cost(index, displayMultipleItems, p) <= Cost(index, displayMultipleItems, s - n) &&
      (p == s + n ==> Cost(index, displayMultipleItems, s + n) < Cost(index, displayMultipleItems, s)) &&
      (p == s - n ==> Cost(index, displayMultipleItems, s - n) < Cost(index, displayMultipleItems, s) &&
                      Cost(index, displayMultipleItems, s - n) < Cost(index, displayMultipleItems, s + n))
    ensures p % n == r
  {
    var s := (index / n) * n + r;
    var l := s + n;
    var c := s - n;
    var u := Cost(index, displayMultipleItems, s);
    var d := Cost(index, displayMultipleItems, l);
    var h := Cost(index, displayMultipleItems, c);
    var m := Min3(u, d, h);
    var q := index / n;
    ModUnique(s, n, q, r);
    LapUp(q, n);
    ModUnique(s + n, n, q + 1, r);
    LapUp(q - 1, n);
    ModUnique(s - n, n, q - 1, r);
    if u == m then s else if d == m then l else c
  }

  /** Two different slides never share a position. */
  lemma CircularPositionsDistinct(index: int, n: int, displayMultipleItems: int, r1: int, r2: int)
    requires 0 <= r1 < n && 0 <= r2 < n && r1 != r2
    ensures CircularPosition(index, n, displayMultipleItems, r1) != CircularPosition(index, n, displayMultipleItems, r2)
  {
    var p1 := CircularPosition(index, n, displayMultipleItems, r1);
    var p2 := CircularPosition(index, n, displayMultipleItems, r2);
    assert p1 % n == r1 && p2 % n == r2;
  }

  /** The positions of all slides for a viewport at `index`. */
  function CircularLayout(index: int, n: nat, displayMultipleItems: int): (ps: seq<int>)
    ensures |ps| == n
    ensures forall r :: 0 <= r < n ==> ps[r] == CircularPosition(index, n, displayMultipleItems, r)
  {
    seq(n, r requires 0 <= r < n => CircularPosition(index, n, displayMultipleItems, r))
  }

  /** The identity layout `resetLayout` gives: slide i at position i. */
  function Iota(n: nat): (ps: seq<int>)
    ensures |ps| == n && forall i :: 0 <= i < n ==> ps[i] == i
  {
    seq(n, i => i)
  }

  /** The positions recorded per slide after slides 0 .. |ps|-1 have been
      given the positions `ps` (`item.updatePosition(…)`). */
  function Place(m: map<nat, int>, ps: seq<int>): (r: map<nat, int>)
    ensures forall k :: 0 <= k < |ps| ==> k in r && r[k] == ps[k]
    ensures forall k :: k in m && k >= |ps| ==> k in r && r[k] == m[k]
    ensures forall k :: k in r ==> k in m || k < |ps|
  {
    m + map k: nat | k < |ps| :: ps[k]
  }

  lemma PlaceSnoc(m: map<nat, int>, ps: seq<int>, x: int)
    ensures Place(m, ps + [x]) == Place(m, ps)[|ps| := x]
  {
    var a, b := Place(m, ps + [x]), Place(m, ps)[|ps| := x];
    assert forall k :: k in a <==> k in b;
    assert forall k :: k in a ==> a[k] == b[k];
  }

  /** Placing a whole layout over an earlier one of the same length erases it. */
  lemma PlaceOverwrite(m: map<nat, int>, a: seq<int>, b: seq<int>)
    requires |a| == |b|
    ensures Place(Place(m, a), b) == Place(m, b)
  {
    var x, y := Place(Place(m, a), b), Place(m, b);
    assert forall k :: k in x <==> k in y;
    assert forall k :: k in x ==> x[k] == y[k];
  }

  // ---------------------------------------------------------------------
  // animateViewport's unwrapping of the start position

  /** What the unwrapping loops of `animateViewport` promise for a start
      `start`, a target `target`, `length` slides and a direction `n`: the
      position is a copy of the start (a multiple of `length` away), and lies
      behind the target for n < 0, before it for n > 0, and within one lap of
      it for n = 0, where moving one lap up would not bring it strictly nearer. */
  predicate Unwrapped(start: int, target: int, length: int, n: int, p: int)
    requires length > 0
  {
    (p - start) % length == 0 &&
    (n < 0 ==> target <= p <= target + length) &&
    (n > 0 ==> target - length <= p <= target) &&
    (n == 0 ==> target - length <= p <= target + length && !(p + length - target < target - p))
  }

  /** The loops of `animateViewport` (lines for n < 0, n > 0 and n = 0). */
  method UnwrapPosition(start: int, target: int, length: int, n: int) returns (p: int)
    requires length > 0
    ensures Unwrapped(start, target, length, n, p)
  {
    p := start;
    ghost var laps := 0;
    if n < 0 {
      while p < target
        invariant p == start + laps * length
        decreases target - p
      {
        LapUp(laps, length);
        p, laps := p + length, laps + 1;
      }
      while p - length > target
        invariant p == start + laps * length && p >= target
        decreases p - target
      {
        LapUp(laps - 1, length);
        p, laps := p - length, laps - 1;
      }
    } else if n > 0 {
      while p > target
        invariant p == start + laps * length
        decreases p - target
      {
        LapUp(laps - 1, length);
        p, laps := p - length, laps - 1;
      }
      while p + length < target
        invariant p == start + laps * length && p <= target
        decreases target - p
      {
        LapUp(laps, length);
        p, laps := p + length, laps + 1;
      }
    } else {
      while p + length < target
        invariant p == start + laps * length
        decreases target - p
      {
        LapUp(laps, length);
        p, laps := p + length, laps + 1;
      }
      while p - length > target
        invariant p == start + laps * length && p + length >= target
        decreases p - target
      {
        LapUp(laps - 1, length);
        p, laps := p - length, laps - 1;
      }
      if p + length - target < target - p {
        LapUp(laps, length);
        p, laps := p + length, laps + 1;
      }
    }
    ModUnique(p - start, length, laps, 0);
  }

  /** One more lap moves a copy up by `length`. */
  lemma LapUp(laps: int, length: int)
    ensures (laps + 1) * length == laps * length + length
  {
  }

  /** The position after k rounds of the as-written loop
      `for (; position > current; ) position -= length`. */
  function StepAsWritten(p: int, length: int, k: nat): int {
    if k == 0 then p else StepAsWritten(p, length, k - 1) - length
  }

  /** With no slides the loop's step is 0: the position never moves. */
  lemma {:induction false} StepAsWrittenStuck(p: int, k: nat)
    ensures StepAsWritten(p, 0, k) == p
  {
    if k > 0 {
      StepAsWrittenStuck(p, k - 1);
    }
  }

  /** The discrepancy: `circularEnabled` holds with NO slides once
      displayMultipleItems is negative (here -1). An autoplay tick then
      normalizes the index to -1 and `animateViewport(-1, 'autoplay', 1)`
      starts from position 0: `for (; position > current; ) position -= length`
      keeps position at 0 > -1 after any number of rounds, so it never ends. */
  lemma AnimateViewportAsWrittenHangs(k: nat)
    ensures CircularEnabled(true, 0, -1)
    ensures AutoplayNext(0, 0, true, -1) == -1
    ensures StepAsWritten(0, 0, k) > AutoplayNext(0, 0, true, -1)
  {
    StepAsWrittenStuck(0, k);
  }

  // ---------------------------------------------------------------------
  // Autoplay, the current-slide watcher and the dots

  /** The next index an autoplay tick moves to. */
  function AutoplayNext(current: int, length: nat, circular: bool, displayMultipleItems: int): int {
    if CircularEnabled(circular, length, displayMultipleItems) then
      NormalizeCurrentValue(current + 1, length, circular, displayMultipleItems)
    else if current + displayMultipleItems < length then current + 1
    else 0
  }

  /** Without wrap-around, autoplay keeps the index among the starts of full
      screens, [0, length - displayMultipleItems]: it steps forward until the
      last full screen, then jumps back to 0. */
  lemma {:induction false} AutoplayStaysInRange(current: int, length: nat, circular: bool, displayMultipleItems: int)
    requires !CircularEnabled(circular, length, displayMultipleItems)
    requires 0 <= current <= length - displayMultipleItems
    ensures 0 <= AutoplayNext(current, length, circular, displayMultipleItems) <= length - displayMultipleItems
    ensures AutoplayNext(current, length, circular, displayMultipleItems) == current + 1 ||
            AutoplayNext(current, length, circular, displayMultipleItems) == 0
  {
  }

  /** With wrap-around, autoplay is the successor modulo the slide count. */
  lemma AutoplayWraps(current: int, length: nat, circular: bool, displayMultipleItems: int)
    requires CircularEnabled(circular, length, displayMultipleItems) && length > 0
    ensures AutoplayNext(current, length, circular, displayMultipleItems) == (current + 1) % length
  {
  }

  /** The index the `current`/`currentItemId` watcher settles on: the first
      slide whose item id is `currentItemId` (when that is non-empty), else the
      rounded `current` prop, and never below 0. */
  function ResolveCurrent(itemIds: seq<string>, currentItemId: string, current: Num): (c: int)
    ensures c >= 0
    ensures currentItemId != "" && currentItemId in itemIds ==>
      c == IndexOf(itemIds, currentItemId) && itemIds[c] == currentItemId &&
      forall j :: 0 <= j < c ==> itemIds[j] != currentItemId
    ensures !(currentItemId != "" && currentItemId in itemIds) ==>
      c == if RoundOrZero(current) < 0 then 0 else RoundOrZero(current)
  {
    var found := if currentItemId != "" then IndexOf(itemIds, currentItemId) else -1;
    var c := if found < 0 then RoundOrZero(current) else found;
    assert found >= 0 ==> forall j :: 0 <= j < found ==> itemIds[j] == itemIds[..found][j];
    if c < 0 then 0 else c
  }

  /** The search loop of the watcher: the first slide whose item id is `id`, or -1. */
  method FindItemIndex(itemIds: seq<string>, id: string) returns (index: int)
    ensures index == IndexOf(itemIds, id)
  {
    index := -1;
    var i := 0;
    while i < |itemIds|
      invariant 0 <= i <= |itemIds|
      invariant id !in itemIds[..i]
    {
      if itemIds[i] == id {
        index := i;
        return;
      }
      assert itemIds[..i + 1] == itemIds[..i] + [itemIds[i]];
      i := i + 1;
    }
    assert itemIds[..i] == itemIds;
  }

  /** The `uni-swiper-dot-active` class of dot `index`. */
  predicate DotActive(index: int, current: int, displayMultipleItems: int, length: int) {
    (index < current + displayMultipleItems && index >= current) ||
    index < current + displayMultipleItems - length
  }

  /** A dot is active exactly when it is one of the displayMultipleItems
      slides shown from `current` on, counting past the last slide back to 0. */
  lemma DotActiveIsWindow(index: int, current: int, displayMultipleItems: int, length: int)
    requires 0 <= index < length && 0 <= current < length
    ensures DotActive(index, current, displayMultipleItems, length) <==>
            (index - current) % length < displayMultipleItems
  {
    var d := index - current;
    if d >= 0 {
      ModUnique(d, length, 0, d);
    } else {
      ModUnique(d, length, -1, d + length);
    }
  }

  /** The dot's background: the active colour for the current slide only. */
  function DotBackground(index: int, current: int, activeColor: string, color: string): (bg: string)
    ensures index == current ==> bg == activeColor
    ensures index != current ==> bg == color
  {
    if index == current then activeColor else color
  }

  /** Whether `currentChanged` animates forwards (1) or the short way (0):
      forwards when wrap-around is on and history + ((length - current) % length)
      exceeds half the slide count (`% length` is NaN without slides, so 0). */
  function ChangeDirection(history: int, current: int, length: nat, circular: bool, displayMultipleItems: int): (n: int)
    ensures n == 0 || n == 1
    ensures n == 1 ==> CircularEnabled(circular, length, displayMultipleItems) && length > 0
    ensures 0 < current < length ==>
      (n == 1 <==> CircularEnabled(circular, length, displayMultipleItems) && 2 * (current - history) < length)
    ensures current == 0 < length ==>
      (n == 1 <==> CircularEnabled(circular, length, displayMultipleItems) && 2 * history > length)
  {
    assert 0 < current < length ==> JsRem(length - current, length) == length - current by {
      if 0 < current < length {
        ModUnique(length - current, length, 0, length - current);
      }
    }
    assert current == 0 < length ==> JsRem(length - current, length) == 0 by {
      if current == 0 < length {
        ModUnique(length, length, 1, 0);
      }
    }
    if CircularEnabled(circular, length, displayMultipleItems) && length > 0 &&
       2 * (history + JsRem(length - current, length)) > length
    then 1 else 0
  }

  // ---------------------------------------------------------------------
  // useLayout

  /** A running viewport animation: its target, the (unwrapped) position it
      starts from, and the source reported when it finishes. */
  datatype Animation = Animation(toPos: int, fromPos: int, source: string)

  /** The state `useLayout` keeps in its closure, together with the parts of
      the component state it writes (`current`, `currentItemId`). */
  class Layout {
    var circular: bool
    var displayMultipleItems: int
    var autoplay: bool
    /** `getItemId()` of each swiper context, in slide order. */
    var slides: seq<string>
    /** The last position handed to `updatePosition` of each slide. */
    var positions: map<nat, int>
    var current: int
    var currentItemId: string
    var userTracking: bool
    /** Whether an autoplay timer is pending (`timer !== null`). */
    var scheduled: bool
    var invalid: bool
    var viewportPosition: int
    var contentTrackViewport: int
    var animating: Option<Animation>
    var currentChangeSource: string

    /** An autoplay timer is only ever pending for a valid layout with more
        slides than fit on one screen. */
    ghost predicate Valid()
      reads this
    {
      scheduled ==> !invalid && |slides| > displayMultipleItems
    }

    predicate Circular()
      reads this
    {
      CircularEnabled(circular, |slides|, displayMultipleItems)
    }

    /** What `updateViewport(to)` does to the slide positions when the
        viewport was at `from`: a circular re-layout when it moves, wrap-around
        is on and the layout is valid. */
    function Relayout(m: map<nat, int>, from: int, to: int): map<nat, int>
      reads this
    {
      if from != to && Circular() && !invalid
      then Place(m, CircularLayout(to, |slides|, displayMultipleItems))
      else m
    }

    /** Where an animation towards `target` in direction `n` starts when the
        viewport is at `start`. */
    predicate AnimationFrom(start: int, target: int, n: int, from: int)
      reads this
    {
      if Circular() && |slides| > 0
      then Unwrapped(start, target, |slides|, n, from)
      else from == start
    }

    /** `useLayout(…)` up to its return: nothing scheduled, layout invalid. */
    constructor (state: State, circular: bool, autoplay: bool)
      ensures Valid()
      ensures this.circular == circular && this.autoplay == autoplay
      ensures displayMultipleItems == state.displayMultipleItems
      ensures current == state.current && currentItemId == state.currentItemId
      ensures userTracking == state.userTracking
      ensures slides == [] && positions == map[]
      ensures !scheduled && invalid && viewportPosition == 0 && contentTrackViewport == 0
      ensures animating == None && currentChangeSource == ""
    {
      this.circular := circular;
      displayMultipleItems := state.displayMultipleItems;
      this.autoplay := autoplay;
      slides := [];
      positions := map[];
      current := state.current;
      currentItemId := state.currentItemId;
      userTracking := state.userTracking;
      scheduled := false;
      invalid := true;
      viewportPosition := 0;
      contentTrackViewport := 0;
      animating := None;
      currentChangeSource := "";
    }

    method CancelSchedule()
      modifies this`scheduled
      ensures !scheduled
    {
      scheduled := false;
    }

    /** `checkCircularLayout(index)`: unless the layout is invalid, every slide
        is moved to its circular position. */
    method CheckCircularLayout(index: int)
      modifies this`positions
      ensures positions == if invalid then old(positions)
                           else Place(old(positions), CircularLayout(index, |slides|, displayMultipleItems))
    {
      if !invalid {
        PlaceAll(CircularLayout(index, |slides|, displayMultipleItems));
      }
    }

    /** Hand slide r the position ps[r], for r from 0 up (`updatePosition`). */
    method PlaceAll(ps: seq<int>)
      modifies this`positions
      ensures positions == Place(old(positions), ps)
    {
      var r := 0;
      while r < |ps|
        invariant 0 <= r <= |ps|
        invariant positions == Place(old(positions), ps[..r])
      {
        PlaceSnoc(old(positions), ps[..r], ps[r]);
        assert ps[..r + 1] == ps[..r] + [ps[r]];
        positions := positions[r := ps[r]];
        r := r + 1;
      }
      assert ps[..r] == ps;
    }

    /** `updateViewport(index)` for an integer index: re-layout when the
        viewport moves, then record the new viewport position. */
    method UpdateViewport(index: int)
      modifies this`positions, this`viewportPosition
      ensures viewportPosition == index
      ensures positions == Relayout(old(positions), old(viewportPosition), index)
    {
      if viewportPosition != index && Circular() {
        CheckCircularLayout(index);
      }
      viewportPosition := index;
    }

    /** `endViewportAnimation`: jump to the running animation's target. */
    method EndViewportAnimation()
      modifies this`positions, this`viewportPosition, this`animating
      ensures animating == None
      ensures old(animating).None? ==> positions == old(positions) && viewportPosition == old(viewportPosition)
      ensures old(animating).Some? ==>
        viewportPosition == old(animating).value.toPos &&
        positions == Relayout(old(positions), old(viewportPosition), old(animating).value.toPos)
    {
      if animating.Some? {
        UpdateViewport(animating.value.toPos);
        animating := None;
      }
    }

    /** `animateViewport(current, source, n)`: start an animation towards
        `target` from the viewport position, unwrapped next to the target
        when wrap-around is on (only with at least one slide: see the
        finding on the as-written loops). */
    method AnimateViewport(target: int, source: string, n: int)
      modifies this`animating
      ensures animating.Some? && animating.value.toPos == target && animating.value.source == source
      ensures AnimationFrom(viewportPosition, target, n, animating.value.fromPos)
    {
      animating := None;
      var position := viewportPosition;
      if Circular() && |slides| > 0 {
        position := UnwrapPosition(viewportPosition, target, |slides|, n);
      }
      animating := Some(Animation(target, position, source));
    }

    /** `scheduleAutoplay`: a timer is set only for a valid layout with more
        slides than shown at once. */
    method ScheduleAutoplay()
      modifies this`scheduled
      ensures scheduled == (!invalid && |slides| > displayMultipleItems)
      ensures Valid()
    {
      CancelSchedule();
      if !(invalid || |slides| <= displayMultipleItems) {
        scheduled := true;
      }
    }

    /** The autoplay timer's callback: advance the index, animate forwards
        (with wrap-around) or the short way, and set the next timer. */
    method AutoplayTick()
      requires Valid() && scheduled
      modifies this`scheduled, this`currentChangeSource, this`current, this`animating
      ensures Valid() && scheduled
      ensures currentChangeSource == "autoplay"
      ensures current == AutoplayNext(old(current), |slides|, circular, displayMultipleItems)
      ensures animating.Some? && animating.value.toPos == current && animating.value.source == "autoplay"
      ensures AnimationFrom(viewportPosition, current, if Circular() then 1 else 0, animating.value.fromPos)
    {
      scheduled := false;
      currentChangeSource := "autoplay";
      if Circular() {
        current := NormalizeCurrentValue(current + 1, |slides|, circular, displayMultipleItems);
      } else {
        current := if current + displayMultipleItems < |slides| then current + 1 else 0;
      }
      AnimateViewport(current, "autoplay", if Circular() then 1 else 0);
      scheduled := true;
    }

    /** The start of `resetLayout`: stop autoplay, finish a running
        animation and put every slide back at its own index. */
    method ClearLayout()
      modifies this`scheduled, this`animating, this`positions, this`viewportPosition
      ensures !scheduled && animating == None
      ensures viewportPosition == if old(animating).Some? then old(animating).value.toPos else old(viewportPosition)
      ensures positions == Place(old(positions), Iota(|slides|))
    {
      CancelSchedule();
      ghost var before := positions;
      EndViewportAnimation();
      ghost var afterEnd := positions;
      PlaceAll(Iota(|slides|));
      if afterEnd != before {
        PlaceOverwrite(before, CircularLayout(old(animating).value.toPos, |slides|, displayMultipleItems), Iota(|slides|));
      }
    }

    /** The state `resetLayout` leaves behind, given the positions, the
        animation, the viewport and the drag offset it started from: the
        animation is finished and every slide was put back at its own index
        before the layout was placed. */
    ghost predicate LaidOut(p0: map<nat, int>, a0: Option<Animation>, v0: int, t0: int)
      reads this
    {
      animating == None &&
      Placed(Place(p0, Iota(|slides|)), if a0.Some? then a0.value.toPos else v0, t0)
    }

    /** The state the end of `resetLayout` leaves behind, given the
        positions, the viewport and the drag offset it started from: the
        layout is valid exactly when there is a current slide; then the
        viewport shows it (keeping a user drag's offset), re-laid out
        circularly, and autoplay runs when enabled; otherwise the viewport
        waits before the first slide. */
    ghost predicate Placed(p1: map<nat, int>, position: int, t0: int)
      reads this
    {
      Valid() &&
      (invalid <==> current < 0) &&
      (scheduled <==> current >= 0 && !userTracking && autoplay && |slides| > displayMultipleItems) &&
      (current < 0 ==>
        viewportPosition == -displayMultipleItems - 1 && positions == p1 && contentTrackViewport == t0) &&
      (current >= 0 && !userTracking ==>
        viewportPosition == current && positions == Relayout(p1, -2, current) && contentTrackViewport == t0) &&
      (current >= 0 && userTracking ==>
        viewportPosition == position + current - t0 &&
        positions == Relayout(p1, -2, position + current - t0) &&
        contentTrackViewport == current)
    }

    /** `resetLayout`: finish any animation, put every slide at its own
        index, then validate the layout when the current index is known
        (and show it, possibly re-laid out circularly, and restart autoplay)
        or invalidate it and park the viewport before the first slide. */
    method ResetLayout()
      requires Valid()
      modifies this`scheduled, this`animating, this`positions, this`viewportPosition,
               this`invalid, this`contentTrackViewport
      ensures LaidOut(old(positions), old(animating), old(viewportPosition), old(contentTrackViewport))
    {
      ClearLayout();
      Reposition();
    }

    /** The end of `resetLayout`: from a viewport marked as unplaced (-2),
        move to the current slide, keeping a user drag's offset, and restart
        autoplay; without a current slide the layout is invalid and the
        viewport goes before the first slide. */
    method Reposition()
      requires !scheduled
      modifies this`scheduled, this`positions, this`viewportPosition, this`invalid, this`contentTrackViewport
      ensures Placed(old(positions), old(viewportPosition), old(contentTrackViewport))
    {
      ghost var p1, t0 := positions, contentTrackViewport;
      var position := viewportPosition;
      viewportPosition := -2;
      if current >= 0 {
        invalid := false;
        if userTracking {
          UpdateViewport(position + current - contentTrackViewport);
          contentTrackViewport := current;
          assert !scheduled;
        } else {
          UpdateViewport(current);
          if autoplay {
            ScheduleAutoplay();
          }
          assert contentTrackViewport == t0;
        }
      } else {
        invalid := true;
        UpdateViewport(-displayMultipleItems - 1);
        assert positions == p1 && !scheduled;
      }
    }

    /** The watcher on the `current` and `currentItemId` props and the slide
        list: settle on `ResolveCurrent`, and only when that differs from the
        state write it and clear the change source. */
    method SyncCurrent(propCurrent: Num, propCurrentItemId: string)
      modifies this`current, this`currentChangeSource
      ensures current == ResolveCurrent(slides, propCurrentItemId, propCurrent)
      ensures current == old(current) ==> currentChangeSource == old(currentChangeSource)
      ensures current != old(current) ==> currentChangeSource == ""
    {
      var c := -1;
      if propCurrentItemId != "" {
        c := FindItemIndex(slides, propCurrentItemId);
      }
      if c < 0 {
        c := RoundOrZero(propCurrent);
      }
      c := if c < 0 then 0 else c;
      if current != c {
        currentChangeSource := "";
        current := c;
      }
    }

    /** `currentChanged(current, history)`, run when the state index changes:
        a change with no recorded source (a prop change) is animated here; the
        item id of the new slide, if there is one, becomes `currentItemId`. */
    method CurrentChanged(history: int)
      modifies this`currentChangeSource, this`animating, this`currentItemId
      ensures currentChangeSource == ""
      ensures old(currentChangeSource) == "" ==>
        animating.Some? && animating.value.toPos == current && animating.value.source == "" &&
        AnimationFrom(viewportPosition, current,
                      ChangeDirection(history, current, |slides|, circular, displayMultipleItems),
                      animating.value.fromPos)
      ensures old(currentChangeSource) != "" ==> animating == old(animating)
      ensures 0 <= current < |slides| ==> currentItemId == slides[current]
      ensures !(0 <= current < |slides|) ==> currentItemId == old(currentItemId)
    {
      var source := currentChangeSource;
      currentChangeSource := "";
      if source == "" {
        AnimateViewport(current, "", ChangeDirection(history, current, |slides|, circular, displayMultipleItems));
      }
      if 0 <= current < |slides| {
        currentItemId := slides[current];
      }
    }

    /** `onSwiperDotClick(index)`. */
    method DotClick(index: int)
      modifies this`current, this`currentChangeSource, this`animating
      ensures current == index && currentChangeSource == "click"
      ensures animating.Some? && animating.value.toPos == index && animating.value.source == "click"
      ensures AnimationFrom(viewportPosition, index, if Circular() then 1 else 0, animating.value.fromPos)
    {
      current := index;
      currentChangeSource := "click";
      AnimateViewport(index, "click", if Circular() then 1 else 0);
    }

    /** The watcher on the interval: a pending timer is restarted. */
    method IntervalChanged()
      requires Valid()
      modifies this`scheduled
      ensures Valid() && scheduled == old(scheduled)
    {
      if scheduled {
        CancelSchedule();
        ScheduleAutoplay();
      }
    }

    /** `inintAutoplay(enable)`, with enable = autoplay && !userTracking. */
    method InitAutoplay(enable: bool)
      modifies this`scheduled
      ensures Valid()
      ensures scheduled == (enable && !invalid && |slides| > displayMultipleItems)
    {
      if enable {
        ScheduleAutoplay();
      } else {
        CancelSchedule();
      }
    }

    /** The watcher on `props.autoplay && !state.userTracking`, answering a
        new `autoplay` prop: the prop is recorded, so every later
        `resetLayout` reads it, and when the watched value changes
        `inintAutoplay` starts or stops the timer with it. */
    method AutoplayChanged(newAutoplay: bool)
      requires Valid()
      modifies this`autoplay, this`scheduled
      ensures autoplay == newAutoplay && Valid()
      ensures (newAutoplay && !userTracking) != (old(autoplay) && !userTracking) ==>
        scheduled == (newAutoplay && !userTracking && !invalid && |slides| > displayMultipleItems)
      ensures (newAutoplay && !userTracking) == (old(autoplay) && !userTracking) ==>
        scheduled == old(scheduled)
    {
      var before := autoplay && !userTracking;
      autoplay := newAutoplay;
      if (autoplay && !userTracking) != before {
        InitAutoplay(autoplay && !userTracking);
      }
    }

    /** A new slide list (`swiperContexts.value = contexts`) and the two
        watchers it triggers, in the order they were registered: first the
        index is resolved against the new slides (`SyncCurrent`), then
        `resetLayout` lays the slides out around that index. The
        `state.current` watcher a changed index triggers runs after both
        (`CurrentChanged`). */
    method SetSlides(itemIds: seq<string>, propCurrent: Num, propCurrentItemId: string)
      requires Valid()
      modifies this`slides, this`current, this`currentChangeSource, this`scheduled, this`animating,
               this`positions, this`viewportPosition, this`invalid, this`contentTrackViewport
      ensures slides == itemIds
      ensures current == ResolveCurrent(itemIds, propCurrentItemId, propCurrent)
      ensures current == old(current) ==> currentChangeSource == old(currentChangeSource)
      ensures current != old(current) ==> currentChangeSource == ""
      ensures LaidOut(old(positions), old(animating), old(viewportPosition), old(contentTrackViewport))
    {
      CancelSchedule();
      slides := itemIds;
      SyncCurrent(propCurrent, propCurrentItemId);
      ResetLayout();
    }

    /** The same watcher answering a change of `circular` or of
        `displayMultipleItems` (which also changes `circularEnabled`). */
    method LayoutPropsChanged(newCircular: bool, newDisplayMultipleItems: int)
      requires Valid()
      modifies this`circular, this`displayMultipleItems, this`scheduled, this`animating, this`positions,
               this`viewportPosition, this`invalid, this`contentTrackViewport
      ensures circular == newCircular && displayMultipleItems == newDisplayMultipleItems
      ensures LaidOut(old(positions), old(animating), old(viewportPosition), old(contentTrackViewport))
    {
      CancelSchedule();
      circular, displayMultipleItems := newCircular, newDisplayMultipleItems;
      ResetLayout();
    }
  }

  /** A circular autoplaying swiper with `displayMultipleItems` -1 and
      `current` 0 is mounted and gets one swiper-item: the index watcher
      keeps 0, then `resetLayout` validates the layout and schedules
      autoplay (the index did not change, so `currentChanged` does not run). */
  method MountOneItem() returns (l: Layout)
    ensures fresh(l)
    ensures l.Valid() && |l.slides| == 1 && !l.invalid && l.scheduled
    ensures l.circular && l.autoplay && l.displayMultipleItems == -1 && !l.userTracking
    ensures l.viewportPosition == 0 && l.current == 0
  {
    var props := Props(Int(5000), Int(500), Int(-1), Int(0), "");
    var state := UseState(props);
    assert state.current == 0 && !state.userTracking && state.displayMultipleItems == -1;
    l := new Layout(state, true, true);
    l.SetSlides(["item"], props.current, props.currentItemId);
    assert l.current == 0;
  }

  /** The one swiper-item of `MountOneItem` is removed again. The same
      watchers run in the same order: no slide is left, yet the index watcher
      keeps 0, so `resetLayout` keeps the layout valid with autoplay
      scheduled. */
  method RemoveOnlyItem(l: Layout)
    requires l.Valid() && l.circular && l.autoplay && l.displayMultipleItems == -1
    requires !l.userTracking && l.current == 0
    modifies l
    ensures l.Valid() && |l.slides| == 0 && !l.invalid && l.scheduled
    ensures l.circular && l.displayMultipleItems == -1
    ensures l.viewportPosition == 0 && l.current == 0
  {
    l.SetSlides([], Int(0), "");
    assert l.current == 0;
  }

  /** The discrepancy reached from mounting: after `MountOneItem` and
      `RemoveOnlyItem` the next autoplay tick targets -1 from viewport
      position 0 with a slide count of 0, and the as-written loop
      `for (; position > current; ) position -= length` never leaves 0. */
  method AutoplayHangReachable() returns (l: Layout)
    ensures |l.slides| == 0 && l.Circular() && !l.invalid && l.scheduled
    ensures l.viewportPosition == 0 && l.current == -1
    ensures l.animating.Some? && l.animating.value.toPos == -1
    ensures forall k: nat :: StepAsWritten(l.viewportPosition, |l.slides|, k) > l.current
  {
    l := MountOneItem();
    RemoveOnlyItem(l);
    AnimateViewportAsWrittenHangs(0);
    l.AutoplayTick();
    forall k: nat ensures StepAsWritten(l.viewportPosition, |l.slides|, k) > l.current {
      AnimateViewportAsWrittenHangs(k);
    }
  }

  // ---------------------------------------------------------------------
  // The registry of swiper-item contexts kept by setup

  /** A registered swiper-item: its identity, the element its root ref
      points at (None before mounting) and its item id. */
  datatype SwiperContext = SwiperContext(id: nat, root: Option<nat>, itemId: string)

  /** Index `k` holds the first registered context whose root is `el`. */
  predicate FirstRootAt(origin: seq<SwiperContext>, el: Option<nat>, k: int) {
    0 <= k < |origin| && origin[k].root == el && forall j :: 0 <= j < k ==> origin[j].root != el
  }

  /** `originSwiperContexts.find(context => el === context.rootRef.value)`. */
  function ContextFor(origin: seq<SwiperContext>, el: Option<nat>): (c: Option<SwiperContext>)
    ensures c.Some? ==> c.value in origin && c.value.root == el
    ensures c.None? <==> forall k :: 0 <= k < |origin| ==> origin[k].root != el
  {
    if origin == [] then None
    else if origin[0].root == el then Some(origin[0])
    else
      var c := ContextFor(origin[1..], el);
      assert forall k :: 1 <= k < |origin| ==> origin[k] == origin[1..][k - 1];
      c
  }

  /** The context found is the FIRST registered one whose root is `el`. */
  lemma {:induction false} ContextForFirst(origin: seq<SwiperContext>, el: Option<nat>, k: int)
    requires FirstRootAt(origin, el, k)
    ensures ContextFor(origin, el) == Some(origin[k])
  {
    if origin[0].root != el {
      assert FirstRootAt(origin[1..], el, k - 1) by {
        forall j | 0 <= j < k - 1 ensures origin[1..][j].root != el {
          assert origin[1..][j] == origin[j + 1];
        }
      }
      ContextForFirst(origin[1..], el, k - 1);
    }
  }

  /** The slides, by index and in increasing order, whose element has a
      registered context. */
  function ContextSlides(items: seq<Option<nat>>, origin: seq<SwiperContext>): (ks: seq<nat>)
    ensures forall i :: 0 <= i < |ks| ==> ks[i] < |items| && ContextFor(origin, items[ks[i]]).Some?
    ensures forall i, j :: 0 <= i < j < |ks| ==> ks[i] < ks[j]
    ensures forall k :: 0 <= k < |items| && ContextFor(origin, items[k]).Some? ==> k in ks
  {
    if items == [] then []
    else
      var init := ContextSlides(items[..|items| - 1], origin);
      assert forall k :: 0 <= k < |items| - 1 ==> items[..|items| - 1][k] == items[k];
      if ContextFor(origin, items[|items| - 1]).Some? then init + [|items| - 1] else init
  }

  /** What `updateSwiperContexts` collects: slide by slide, the context
      found for the slide's element, skipping slides with none. */
  function Resolve(items: seq<Option<nat>>, origin: seq<SwiperContext>): seq<SwiperContext>
  {
    if items == [] then []
    else
      var init := Resolve(items[..|items| - 1], origin);
      match ContextFor(origin, items[|items| - 1])
      case Some(c) => init + [c]
      case None => init
  }

  /** The collected list holds, in slide order, exactly the first matching
      context of each slide that has one: its i-th entry belongs to the
      i-th such slide. So every entry is registered and belongs to a slide,
      and there is at most one per slide. */
  lemma {:induction false} ResolveSound(items: seq<Option<nat>>, origin: seq<SwiperContext>)
    ensures |Resolve(items, origin)| == |ContextSlides(items, origin)| <= |items|
    ensures forall i :: 0 <= i < |Resolve(items, origin)| ==>
      Resolve(items, origin)[i] == ContextFor(origin, items[ContextSlides(items, origin)[i]]).value
    ensures forall c :: c in Resolve(items, origin) ==> c in origin && c.root in items
  {
    if items != [] {
      var init := items[..|items| - 1];
      ResolveSound(init, origin);
      assert forall k :: 0 <= k < |init| ==> init[k] == items[k];
      assert forall e :: e in init ==> e in items;
      SortedBounded(ContextSlides(items, origin), |items|);
    }
  }

  /** A strictly increasing list of indices below `n` has at most `n` entries. */
  lemma {:induction false} SortedBounded(ks: seq<nat>, n: nat)
    requires forall i :: 0 <= i < |ks| ==> ks[i] < n
    requires forall i, j :: 0 <= i < j < |ks| ==> ks[i] < ks[j]
    ensures |ks| <= n
  {
    if ks != [] {
      var init := ks[..|ks| - 1];
      assert forall i :: 0 <= i < |init| ==> init[i] < ks[|ks| - 1];
      SortedBounded(init, ks[|ks| - 1]);
    }
  }

  /** When every slide has a registered context, the collected list has one
      per slide, in slide order. */
  lemma {:induction false} ResolveInSlideOrder(items: seq<Option<nat>>, origin: seq<SwiperContext>)
    requires forall k :: 0 <= k < |items| ==> ContextFor(origin, items[k]).Some?
    ensures |Resolve(items, origin)| == |items|
    ensures forall k :: 0 <= k < |items| ==>
      Resolve(items, origin)[k] == ContextFor(origin, items[k]).value &&
      Resolve(items, origin)[k].root == items[k]
  {
    if items != [] {
      var init := items[..|items| - 1];
      forall k | 0 <= k < |init| ensures ContextFor(origin, init[k]).Some? {
        assert init[k] == items[k];
      }
      ResolveInSlideOrder(init, origin);
      var last := ContextFor(origin, items[|items| - 1]);
      assert Resolve(items, origin) == Resolve(init, origin) + [last.value];
      forall k | 0 <= k < |items|
        ensures Resolve(items, origin)[k] == ContextFor(origin, items[k]).value
      {
        if k < |init| { assert init[k] == items[k]; }
      }
    }
  }

  /** The registry `setup` keeps: the registered contexts in registration
      order, the elements of the rendered slides and the contexts in slide
      order handed to `useLayout`. */
  class Registry {
    var origin: seq<SwiperContext>
    var items: seq<Option<nat>>
    var contexts: seq<SwiperContext>

    constructor ()
      ensures origin == [] && items == [] && contexts == []
    {
      origin := [];
      items := [];
      contexts := [];
    }

    /** The render function flattens the default slot into `swiperItems`. */
    method Render(els: seq<Option<nat>>)
      modifies this`items
      ensures items == els
    {
      items := els;
    }

    /** `updateSwiperContexts`. */
    method UpdateSwiperContexts()
      modifies this`contexts
      ensures contexts == Resolve(items, origin)
    {
      var collected: seq<SwiperContext> := [];
      var index := 0;
      while index < |items|
        invariant 0 <= index <= |items|
        invariant collected == Resolve(items[..index], origin)
      {
        assert items[..index + 1][..index] == items[..index];
        var found := ContextFor(origin, items[index]);
        if found.Some? {
          collected := collected + [found.value];
        }
        index := index + 1;
      }
      assert items[..index] == items;
      contexts := collected;
    }

    /** `addSwiperContext`: register at the end, then recollect. */
    method AddSwiperContext(c: SwiperContext)
      modifies this`origin, this`contexts
      ensures origin == old(origin) + [c]
      ensures contexts == Resolve(items, origin)
    {
      origin := origin + [c];
      UpdateSwiperContexts();
    }

    /** `removeSwiperContext`: drop the first registration of `c` and
        recollect; a context that is not registered changes nothing. */
    method RemoveSwiperContext(c: SwiperContext)
      modifies this`origin, this`contexts
      ensures c !in old(origin) ==> origin == old(origin) && contexts == old(contexts)
      ensures c in old(origin) ==>
        origin == RemoveAt(old(origin), IndexOf(old(origin), c)) &&
        contexts == Resolve(items, origin)
    {
      var index := IndexOf(origin, c);
      if index >= 0 {
        origin := RemoveAt(origin, index);
        UpdateSwiperContexts();
      }
    }
  }
}
