/**
 The scroll-driven card stack of the "Our Ecosystem" section.

 The section is three viewport heights tall; while it scrolls past the top of the
 viewport, a progress value in [0, 1] selects which of three stacked cards is active.
 The progress sampler, the threshold selector and the per-card style lookup are pure
 functions; the scroll handler with its `ticking` coalescer and its animation-frame
 callback is the class `ScrollSection`.
 */
module CardStack {

  /** Index of the active card: only 0, 1 and 2 are ever assigned. */
  type Index = i: int | 0 <= i <= 2

  /** Lower bounds (inclusive) of the progress that activates the second and the third card. */
  const SecondCardThreshold: real := 0.35
  const ThirdCardThreshold: real := 0.7

  function Abs(x: real): (r: real)
    ensures r >= 0.0 && (r == x || r == -x)
  {
    if x < 0.0 then -x else x
  }

  /** Math.min(1, Math.max(0, x)). */
  function Clamp01(x: real): (r: real)
    ensures 0.0 <= r <= 1.0
    ensures 0.0 <= x <= 1.0 ==> r == x
    ensures x >= 1.0 ==> r == 1.0
  {
    if x < 0.0 then 0.0 else if x > 1.0 then 1.0 else x
  }

  /**
   Scroll progress of the section, from the top of its bounding rectangle relative to
   the viewport (`top`, negative once the section has passed the viewport top) and the
   viewport height. The scroll-through distance is twice the viewport height.

   With a viewport height of 0 the division in the source yields Infinity for a
   negative `top` (so the clamp gives 1) and NaN for `top == 0`; NaN passes neither
   threshold test, which selects the first card exactly as progress 0 does.
   */
  function Progress(top: real, viewportHeight: nat): (p: real)
    ensures 0.0 <= p <= 1.0
    ensures top > 0.0 ==> p == 0.0
  {
    if top <= 0.0 then
      if viewportHeight == 0 then (if top < 0.0 then 1.0 else 0.0)
      else Clamp01(Abs(top) / (2.0 * viewportHeight as real))
    else 0.0
  }

  /** Before the scroll-through distance is used up, progress times that distance is the scroll depth. */
  lemma ProgressMeasuresDepth(top: real, viewportHeight: nat)
    requires viewportHeight > 0
    requires -2.0 * viewportHeight as real <= top <= 0.0
    ensures Progress(top, viewportHeight) * (2.0 * viewportHeight as real) == -top
  {
    var d := 2.0 * viewportHeight as real;
    assert -top / d <= 1.0 by {
      assert -top / d * d == -top;
    }
    assert Progress(top, viewportHeight) == -top / d;
  }

  /** Progress reaches 1 exactly when the section has scrolled at least twice the viewport height. */
  lemma ProgressSaturates(top: real, viewportHeight: nat)
    requires viewportHeight > 0
    ensures Progress(top, viewportHeight) == 1.0 <==> top <= -2.0 * viewportHeight as real
  {
    var d := 2.0 * viewportHeight as real;
    if top <= 0.0 {
      if -top < d {
        assert -top / d * d == -top;
        assert -top / d < 1.0;
      } else {
        assert -top / d * d == -top;
        assert -top / d >= 1.0;
      }
    }
  }

  /** Scrolling further down (a smaller `top`) never lowers the progress. */
  lemma ProgressMonotone(top1: real, top2: real, viewportHeight: nat)
    requires top2 <= top1
    ensures Progress(top1, viewportHeight) <= Progress(top2, viewportHeight)
  {
    if top1 <= 0.0 && viewportHeight > 0 {
      var d := 2.0 * viewportHeight as real;
      assert -top2 / d - -top1 / d == (top1 - top2) / d;
      assert (top1 - top2) / d >= 0.0;
    }
  }

  /** Card selection: the boundary values belong to the higher index. */
  function CardIndex(progress: real): (i: Index)
    ensures i == 2 <==> progress >= ThirdCardThreshold
    ensures i == 1 <==> SecondCardThreshold <= progress < ThirdCardThreshold
    ensures i == 0 <==> progress < SecondCardThreshold
  {
    if progress >= ThirdCardThreshold then 2
    else if progress >= SecondCardThreshold then 1
    else 0
  }

  /** Number of thresholds in `ts` that `progress` has reached. */
  function Reached(ts: seq<real>, progress: real): (n: nat)
    ensures n <= |ts|
  {
    if ts == [] then 0
    else (if ts[0] <= progress then 1 else 0) + Reached(ts[1..], progress)
  }

  /** The selected index counts the thresholds passed, so it is stateless: no hysteresis. */
  lemma CardIndexCountsThresholds(progress: real)
    ensures CardIndex(progress) == Reached([SecondCardThreshold, ThirdCardThreshold], progress)
  {
    var ts := [SecondCardThreshold, ThirdCardThreshold];
    assert ts[1..] == [ThirdCardThreshold];
    assert ts[1..][1..] == [];
  }

  lemma CardIndexMonotone(p: real, q: real)
    requires p <= q
    ensures CardIndex(p) <= CardIndex(q)
  {
  }

  /** For a fraction `t` of the scroll-through distance, progress reaches `t` exactly when the section has scrolled that far. */
  lemma ProgressReaches(top: real, viewportHeight: nat, t: real)
    requires viewportHeight > 0
    requires 0.0 < t <= 1.0
    ensures Progress(top, viewportHeight) >= t <==> top <= -2.0 * t * viewportHeight as real
  {
    var d := 2.0 * viewportHeight as real;
    if top <= 0.0 {
      assert -top / d * d == -top;
      if -top / d >= t {
        assert -top >= t * d;
      } else {
        assert -top < t * d;
      }
    }
  }

  /**
   The index a completed animation frame assigns for the given geometry: the second
   card once the section has scrolled 0.7 viewport heights, the third once it has
   scrolled 1.4.
   */
  function FrameIndex(top: real, viewportHeight: nat): (i: Index)
    ensures top > 0.0 ==> i == 0
    ensures viewportHeight > 0 ==> (i >= 1 <==> top <= -0.7 * viewportHeight as real)
    ensures viewportHeight > 0 ==> (i == 2 <==> top <= -1.4 * viewportHeight as real)
    ensures viewportHeight == 0 ==> (i == 2 <==> top < 0.0) && (i == 0 <==> top == 0.0 || top > 0.0)
  {
    if viewportHeight > 0 then
      ProgressReaches(top, viewportHeight, SecondCardThreshold);
      ProgressReaches(top, viewportHeight, ThirdCardThreshold);
      CardIndex(Progress(top, viewportHeight))
    else
      CardIndex(Progress(top, viewportHeight))
  }

  /** The index never decreases as the section scrolls further down. */
  lemma FrameIndexMonotone(top1: real, top2: real, viewportHeight: nat)
    requires top2 <= top1
    ensures FrameIndex(top1, viewportHeight) <= FrameIndex(top2, viewportHeight)
  {
    ProgressMonotone(top1, top2, viewportHeight);
    CardIndexMonotone(Progress(top1, viewportHeight), Progress(top2, viewportHeight));
  }

  lemma ProgressExamples()
    ensures Progress(0.0, 800) == 0.0
    ensures Progress(-800.0, 800) == 0.5
    ensures Progress(-1600.0, 800) == 1.0
    ensures Progress(100.0, 800) == 0.0
  {
  }

  /** The indices assigned by successive frames, one per sampled `top`. */
  function IndexSequence(tops: seq<real>, viewportHeight: nat): (r: seq<Index>)
    ensures |r| == |tops|
    ensures forall k :: 0 <= k < |tops| ==> r[k] == FrameIndex(tops[k], viewportHeight)
  {
    if tops == [] then [] else [FrameIndex(tops[0], viewportHeight)] + IndexSequence(tops[1..], viewportHeight)
  }

  /** Scrolling steadily down yields a non-decreasing sequence of indices. */
  lemma {:induction false} IndexSequenceMonotone(tops: seq<real>, viewportHeight: nat)
    requires forall k :: 0 < k < |tops| ==> tops[k] <= tops[k - 1]
    ensures forall j, k :: 0 <= j <= k < |tops| ==>
      IndexSequence(tops, viewportHeight)[j] <= IndexSequence(tops, viewportHeight)[k]
  {
    var r := IndexSequence(tops, viewportHeight);
    forall j, k | 0 <= j <= k < |tops| ensures r[j] <= r[k] {
      DownwardTops(tops, j, k);
      FrameIndexMonotone(tops[j], tops[k], viewportHeight);
    }
  }

  lemma {:induction false} DownwardTops(tops: seq<real>, j: nat, k: nat)
    requires forall i :: 0 < i < |tops| ==> tops[i] <= tops[i - 1]
    requires j <= k < |tops|
    ensures tops[k] <= tops[j]
    decreases k - j
  {
    if j < k {
      DownwardTops(tops, j, k - 1);
    }
  }

  /**
   Scrolling from top 0 to top -1600 in steps of 200 over an 800px viewport. At top
   -1000 the progress is 0.625, still below the third threshold.
   */
  lemma ScrollThroughScenario()
    ensures IndexSequence([0.0, -200.0, -400.0, -600.0, -800.0, -1000.0, -1200.0, -1400.0, -1600.0], 800)
      == [0, 0, 0, 1, 1, 1, 2, 2, 2]
  {
    var r := IndexSequence([0.0, -200.0, -400.0, -600.0, -800.0, -1000.0, -1200.0, -1400.0, -1600.0], 800);
    assert r[0] == CardIndex(0.0) && r[1] == CardIndex(0.125) && r[2] == CardIndex(0.25);
    assert r[3] == CardIndex(0.375) && r[4] == CardIndex(0.5) && r[5] == CardIndex(0.625);
    assert r[6] == CardIndex(0.75) && r[7] == CardIndex(0.875) && r[8] == CardIndex(1.0);
    var expected: seq<Index> := [0, 0, 0, 1, 1, 1, 2, 2, 2];
    assert forall k :: 0 <= k < 9 ==> r[k] == expected[k];
  }

  datatype Card = First | Second | Third

  /**
   The first card follows the in-view flag alone; the others follow the active index:
   at index 0 only the first card can show, at index 2 both upper cards show.
   */
  predicate Visible(card: Card, index: Index, inView: bool)
    ensures Visible(card, index, inView) && card != First ==> index >= 1
    ensures index == 0 ==> (Visible(card, index, inView) <==> card == First && inView)
    ensures index == 2 ==> (Visible(card, index, inView) <==> card != First || inView)
  {
    match card
    case First => inView
    case Second => index >= 1
    case Third => index >= 2
  }

  /** The CSS pointer-events value: not set, 'auto', or 'none'. */
  datatype PointerEvents = Unset | Auto | NoHits

  /** The behaviour-relevant part of a card's inline style: visibility, translateY in px, opacity, pointer-events. */
  datatype CardStyle = CardStyle(visible: bool, translateY: nat, opacity: real, pointerEvents: PointerEvents)

  function Style(card: Card, index: Index, inView: bool): (s: CardStyle)
    ensures s.visible == Visible(card, index, inView)
  {
    var v := Visible(card, index, inView);
    match card
    case First =>
      CardStyle(v, if v then 90 else 200, if v then 0.9 else 0.0, Unset)
    case Second =>
      CardStyle(v, if v then (if index == 1 then 55 else 45) else 200, if v then 1.0 else 0.0,
                if v then Auto else NoHits)
    case Third =>
      CardStyle(v, if v then (if index == 2 then 15 else 0) else 200, if v then 1.0 else 0.0,
                if v then Auto else NoHits)
  }

  /** The third card is never visible without the second. */
  lemma VisibilityNested(index: Index, inView: bool)
    ensures Visible(Third, index, inView) ==> Visible(Second, index, inView)
    ensures Visible(Second, index, inView) <==> index >= 1
    ensures Visible(Third, index, inView) <==> index >= 2
  {
  }

  /** Whether the first card shows does not depend on the active index. */
  lemma FirstCardIgnoresIndex(i: Index, j: Index, inView: bool)
    ensures Style(First, i, inView) == Style(First, j, inView)
    ensures Style(First, i, inView).visible == inView
    ensures Style(First, i, inView).pointerEvents == Unset
  {
  }

  /** Hidden upper cards are transparent and ignore the pointer; visible ones are opaque and take it. */
  lemma UpperCardsInertWhenHidden(card: Card, index: Index, inView: bool)
    requires card != First
    ensures var s := Style(card, index, inView);
      (!s.visible ==> s.opacity == 0.0 && s.pointerEvents == NoHits)
      && (s.visible ==> s.opacity == 1.0 && s.pointerEvents == Auto)
  {
  }

  /** Vertical offsets of the upper cards for each reachable index; the third card never sits at 0. */
  lemma UpperCardOffsets(index: Index, inView: bool)
    ensures Style(Second, index, inView).translateY == (if index == 0 then 200 else if index == 1 then 55 else 45)
    ensures Style(Third, index, inView).translateY == (if index == 2 then 15 else 200)
    ensures Style(Third, index, inView).translateY != 0
  {
  }

  /** Card visibility in terms of the sampled progress. */
  lemma VisibleForProgress(progress: real, inView: bool)
    ensures Visible(Second, CardIndex(progress), inView) <==> progress >= SecondCardThreshold
    ensures Visible(Third, CardIndex(progress), inView) <==> progress >= ThirdCardThreshold
  {
  }

  /**
   The section's scroll handler state. A scroll event requests an animation frame only
   while `ticking` is false; the frame callback samples the geometry, assigns the active
   index and clears `ticking`. `pendingFrames` stands for the browser's queue of
   requested frame callbacks.
   */
  class ScrollSection {
    var activeCardIndex: Index
    var isIntersecting: bool
    var ticking: bool
    var lastScrollY: real
    var pendingFrames: nat

    /** At most one frame callback is pending, and only while `ticking` is set. */
    ghost predicate Valid()
      reads this
    {
      pendingFrames <= 1 && (pendingFrames == 1 ==> ticking)
    }

    /** `ticking` is set but no frame will ever clear it: scroll events are ignored for good. */
    predicate Stalled()
      reads this
    {
      ticking && pendingFrames == 0
    }

    constructor ()
      ensures Valid()
      ensures activeCardIndex == 0 && !isIntersecting && !ticking && lastScrollY == 0.0 && pendingFrames == 0
    {
      activeCardIndex := 0;
      isIntersecting := false;
      ticking := false;
      lastScrollY := 0.0;
      pendingFrames := 0;
    }

    /** The scroll listener (also run once when the section mounts). */
    method Scroll(scrollY: real) returns (scheduled: bool)
      requires Valid()
      modifies this
      ensures Valid()
      ensures scheduled == !old(ticking)
      ensures ticking
      ensures scheduled ==> pendingFrames == 1 && lastScrollY == scrollY
      ensures !scheduled ==> pendingFrames == old(pendingFrames) && lastScrollY == old(lastScrollY)
      ensures old(Stalled()) ==> Stalled()
      ensures activeCardIndex == old(activeCardIndex) && isIntersecting == old(isIntersecting)
    {
      scheduled := !ticking;
      if scheduled {
        lastScrollY := scrollY;
        pendingFrames := pendingFrames + 1;
        ticking := true;
      }
    }

    /**
     The browser runs the pending frame callback, if any. `present` says whether the
     section element is still mounted; when it is not, the callback returns before it
     clears `ticking`.
     */
    method FireFrame(top: real, viewportHeight: nat, present: bool)
      requires Valid()
      modifies this
      ensures Valid()
      ensures pendingFrames == 0
      ensures old(pendingFrames) == 0 ==> unchanged(this)
      ensures old(pendingFrames) == 1 && present ==>
        activeCardIndex == FrameIndex(top, viewportHeight) && !ticking
      ensures old(pendingFrames) == 1 && !present ==>
        activeCardIndex == old(activeCardIndex) && ticking && Stalled()
      ensures isIntersecting == old(isIntersecting) && lastScrollY == old(lastScrollY)
    {
      if pendingFrames == 0 {
        return;
      }
      pendingFrames := 0;
      if !present {
        return;
      }
      var progress := Progress(top, viewportHeight);
      if progress >= ThirdCardThreshold {
        activeCardIndex := 2;
      } else if progress >= SecondCardThreshold {
        activeCardIndex := 1;
      } else {
        activeCardIndex := 0;
      }
      ticking := false;
    }

    /** The intersection observer callback. */
    method Intersect(entryIsIntersecting: bool)
      modifies this
      ensures isIntersecting == entryIsIntersecting
      ensures activeCardIndex == old(activeCardIndex) && ticking == old(ticking)
      ensures lastScrollY == old(lastScrollY) && pendingFrames == old(pendingFrames)
    {
      isIntersecting := entryIsIntersecting;
    }

    /** The current style of one card. */
    function CardStyleOf(card: Card): (s: CardStyle)
      reads this
      ensures s.visible == Visible(card, activeCardIndex, isIntersecting)
    {
      Style(card, activeCardIndex, isIntersecting)
    }
  }

  /**
   The stall: a frame fires after the section element is gone, so `ticking` is never
   cleared. A later scroll then schedules nothing, and a frame fired afterwards, for any
   geometry, leaves the first card active.
   */
  method SectionRemovedScenario(top: real, viewportHeight: nat) returns (laterScheduled: bool, index: Index)
    ensures !laterScheduled
    ensures index == 0
  {
    var s := new ScrollSection();
    var scheduled := s.Scroll(0.0);
    assert scheduled;
    s.FireFrame(-1600.0, 800, false);
    assert s.Stalled() && s.activeCardIndex == 0;
    laterScheduled := s.Scroll(1600.0);
    s.FireFrame(top, viewportHeight, true);
    index := s.activeCardIndex;
  }
}
