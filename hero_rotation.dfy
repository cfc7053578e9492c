/**
 * The landing page's hero section keeps two looping indices: `bgIndex`
 * chooses the background slide and `feedIndex` the "Kitchen Live" card.
 * Each is advanced by its own interval timer and torn down when the
 * section unmounts. Time is modelled as whole milliseconds since mount;
 * a timer callback is modelled by the tick methods, and `Elapse` delivers
 * every callback that falls due in a stretch of time.
 */
module HeroRotation {

  /** Interval of the background slideshow, in milliseconds. */
  const MAIN_SLIDE_DURATION: nat := 6000
  /** Interval of the kitchen feed, in milliseconds. */
  const KITCHEN_FEED_DURATION: nat := 8000

  datatype Slide = Slide(id: nat, src: string, alt: string, labelText: string)

  datatype KitchenUpdate = KitchenUpdate(id: string, src: string, status: string, dish: string, time: string)

  const HERO_SLIDES: seq<Slide> := [
    Slide(1, "/landing/landing-1.jpg", "Dark textural restaurant interior", "The Dining Room"),
    Slide(2, "/landing/landing-2.jpg", "Smoked ribs on dark plate", "Smoked Ribs & Ash"),
    Slide(3, "/landing/landing-3.jpg", "Cocktail with smoke", "The Old Fashioned")
  ]

  const KITCHEN_UPDATES: seq<KitchenUpdate> := [
    KitchenUpdate("k1", "/landing/food-1.jpg", "Plating Service", "Wild Mushroom Risotto", "Now"),
    KitchenUpdate("k2", "/landing/food-2.jpg", "Resting", "Wagyu A5 Strip", "2m ago"),
    KitchenUpdate("k3", "/landing/food-3.jpg", "Prep Station", "Hand-rolled Agnolotti", "5m ago")
  ]

  /** The index that follows `prev` on a looping track of `length` items. */
  function Next(prev: nat, length: nat): (r: nat)
    requires length > 0
    ensures r < length
    ensures prev < length ==> r == if prev + 1 == length then 0 else prev + 1
  {
    (prev + 1) % length
  }

  /** The index reached from `i` after `n` advances. */
  function Iterate(i: nat, n: nat, length: nat): nat
    requires length > 0
  {
    if n == 0 then i else Next(Iterate(i, n - 1, length), length)
  }

  /** How many times an interval of `period` ms, started at time 0 and still
      running, fires in the half-open stretch (from, to]. */
  function Fired(running: bool, period: nat, from: nat, to: nat): nat
    requires period > 0 && from <= to
  {
    DivMonotone(from, to, period);
    if running then to / period - from / period else 0
  }

  lemma MulMonotone(x: nat, y: nat, d: nat)
    requires x <= y
    ensures x * d <= y * d
  {
  }

  lemma MulSucc(x: nat, d: nat)
    ensures (x + 1) * d == x * d + d
  {
  }

  lemma DivMonotone(a: nat, b: nat, d: nat)
    requires d > 0 && a <= b
    ensures a / d <= b / d
  {
    if a / d > b / d {
      MulSucc(b / d, d);
      MulMonotone(b / d + 1, a / d, d);
      assert false;
    }
  }

  /** Quotient and remainder are determined by `x == q * d + r`, `r < d`. */
  lemma DivModUnique(x: nat, q: nat, r: nat, d: nat)
    requires d > 0 && r < d && x == q * d + r
    ensures x / d == q && x % d == r
  {
    if x / d < q {
      MulSucc(x / d, d);
      MulMonotone(x / d + 1, q, d);
      assert false;
    } else if x / d > q {
      MulSucc(q, d);
      MulMonotone(q + 1, x / d, d);
      assert false;
    }
  }

  /** One advance from a reduced index agrees with reducing after adding one. */
  lemma NextOfMod(a: nat, length: nat)
    requires length > 0
    ensures Next(a % length, length) == (a + 1) % length
  {
    var q, r := a / length, a % length;
    if r + 1 < length {
      DivModUnique(a + 1, q, r + 1, length);
    } else {
      MulSucc(q, length);
      DivModUnique(a + 1, q + 1, 0, length);
    }
  }

  /** Advancing `n` times from a start index lands `n` places further round
      the loop. */
  lemma {:induction false} IterateIsShift(a: nat, n: nat, length: nat)
    requires length > 0
    ensures Iterate(a % length, n, length) == (a + n) % length
  {
    if n > 0 {
      IterateIsShift(a, n - 1, length);
      NextOfMod(a + n - 1, length);
    }
  }

  /** A running track that was on schedule at `from` is on schedule at `to`
      once the callbacks due in between have been delivered. */
  lemma StaysOnSchedule(index: nat, from: nat, to: nat, period: nat, length: nat)
    requires period > 0 && length > 0 && from <= to
    requires index == (from / period) % length
    ensures (index + Fired(true, period, from, to)) % length == (to / period) % length
  {
    var q, q' := from / period, to / period;
    DivMonotone(from, to, period);
    var k := q' - q;
    assert Fired(true, period, from, to) == k;
    DivModUnique(index, 0, index, length);
    IterateIsShift(index, k, length);
    IterateIsShift(q, k, length);
    assert q + k == q';
  }

  /** A track's index after the stretch (from, to]: the callbacks due in it
      have each advanced the index once, and a track that was on schedule at
      `from` is on schedule at `to`. */
  function Advance(index: nat, running: bool, period: nat, from: nat, to: nat, length: nat): (r: nat)
    requires period > 0 && length > 0 && from <= to && index < length
    ensures r < length
    ensures r == Iterate(index, Fired(running, period, from, to), length)
    ensures !running ==> r == index
    ensures running && index == (from / period) % length ==> r == (to / period) % length
  {
    var k := Fired(running, period, from, to);
    DivModUnique(index, 0, index, length);
    IterateIsShift(index, k, length);
    if running && index == (from / period) % length then
      StaysOnSchedule(index, from, to, period, length);
      (index + k) % length
    else
      (index + k) % length
  }

  /** The hero section's rotation state. */
  class Hero {
    var bgIndex: nat
    var feedIndex: nat
    /** Whether the background interval is still registered. */
    var bgTimerLive: bool
    /** Whether the kitchen-feed interval is still registered. */
    var feedTimerLive: bool
    /** Milliseconds since the section mounted. */
    var now: nat
    /** When the background interval was cleared (meaningful once it is). */
    ghost var bgStoppedAt: nat
    /** When the kitchen-feed interval was cleared (meaningful once it is). */
    ghost var feedStoppedAt: nat

    /** Both indices subscript their three-item arrays in bounds. */
    ghost predicate Valid()
      reads this
    {
      bgIndex < |HERO_SLIDES| && feedIndex < |KITCHEN_UPDATES|
    }

    /** How long the background interval has been running. */
    ghost function BgRunTime(): nat
      reads this
    {
      if bgTimerLive then now else bgStoppedAt
    }

    /** How long the kitchen-feed interval has been running. */
    ghost function FeedRunTime(): nat
      reads this
    {
      if feedTimerLive then now else feedStoppedAt
    }

    /** Each index has advanced once per full period its interval ran. */
    ghost predicate OnSchedule()
      reads this
    {
      && Valid()
      && bgStoppedAt <= now && feedStoppedAt <= now
      && bgIndex == (BgRunTime() / MAIN_SLIDE_DURATION) % |HERO_SLIDES|
      && feedIndex == (FeedRunTime() / KITCHEN_FEED_DURATION) % |KITCHEN_UPDATES|
    }

    /** Mounting: both indices start at 0 and both intervals are registered. */
    constructor ()
      ensures bgIndex == 0 && feedIndex == 0
      ensures bgTimerLive && feedTimerLive && now == 0
      ensures OnSchedule()
    {
      bgIndex, feedIndex := 0, 0;
      bgTimerLive, feedTimerLive := true, true;
      now := 0;
      bgStoppedAt, feedStoppedAt := 0, 0;
    }

    /** The background interval's callback. */
    method BgTick()
      requires Valid()
      modifies this`bgIndex
      ensures Valid()
      ensures bgIndex == Next(old(bgIndex), |HERO_SLIDES|)
      ensures feedIndex == old(feedIndex)
    {
      bgIndex := (bgIndex + 1) % |HERO_SLIDES|;
    }

    /** The kitchen-feed interval's callback. */
    method FeedTick()
      requires Valid()
      modifies this`feedIndex
      ensures Valid()
      ensures feedIndex == Next(old(feedIndex), |KITCHEN_UPDATES|)
      ensures bgIndex == old(bgIndex)
    {
      feedIndex := (feedIndex + 1) % |KITCHEN_UPDATES|;
    }

    /** Clearing the background interval; clearing it again changes nothing. */
    method StopBg()
      modifies this`bgTimerLive, this`bgStoppedAt
      ensures !bgTimerLive
      ensures bgStoppedAt == if old(bgTimerLive) then now else old(bgStoppedAt)
      ensures old(OnSchedule()) ==> OnSchedule()
    {
      if bgTimerLive {
        bgStoppedAt := now;
      }
      bgTimerLive := false;
    }

    /** Clearing the kitchen-feed interval; clearing it again changes nothing. */
    method StopFeed()
      modifies this`feedTimerLive, this`feedStoppedAt
      ensures !feedTimerLive
      ensures feedStoppedAt == if old(feedTimerLive) then now else old(feedStoppedAt)
      ensures old(OnSchedule()) ==> OnSchedule()
    {
      if feedTimerLive {
        feedStoppedAt := now;
      }
      feedTimerLive := false;
    }

    /** `ms` milliseconds pass: each live interval delivers its callback once
        for every multiple of its period crossed; a cleared one delivers none. */
    method Elapse(ms: nat)
      requires Valid()
      modifies this`bgIndex, this`feedIndex, this`now
      ensures Valid()
      ensures now == old(now) + ms
      ensures bgIndex == Iterate(old(bgIndex), Fired(bgTimerLive, MAIN_SLIDE_DURATION, old(now), now), |HERO_SLIDES|)
      ensures feedIndex == Iterate(old(feedIndex), Fired(feedTimerLive, KITCHEN_FEED_DURATION, old(now), now), |KITCHEN_UPDATES|)
      ensures !bgTimerLive ==> bgIndex == old(bgIndex)
      ensures !feedTimerLive ==> feedIndex == old(feedIndex)
      ensures old(OnSchedule()) ==> OnSchedule()
    {
      bgIndex := Advance(bgIndex, bgTimerLive, MAIN_SLIDE_DURATION, now, now + ms, |HERO_SLIDES|);
      feedIndex := Advance(feedIndex, feedTimerLive, KITCHEN_FEED_DURATION, now, now + ms, |KITCHEN_UPDATES|);
      now := now + ms;
    }

    /** The background slide on display. */
    function CurrentSlide(): (s: Slide)
      reads this
      requires Valid()
      ensures s in HERO_SLIDES && s.id == bgIndex + 1
    {
      HERO_SLIDES[bgIndex]
    }

    /** The kitchen card on display. */
    function CurrentUpdate(): (u: KitchenUpdate)
      reads this
      requires Valid()
      ensures u in KITCHEN_UPDATES && u.id == "k" + [('1' as int + feedIndex) as char]
    {
      KITCHEN_UPDATES[feedIndex]
    }

    /** The slide number shown in the "Ambience" indicator. */
    function SlideNumber(): (n: nat)
      reads this
      requires Valid()
      ensures 1 <= n <= |HERO_SLIDES|
      ensures HERO_SLIDES[n - 1] == CurrentSlide()
    {
      bgIndex + 1
    }

    /** The "Ambience" caption: a zero-padded slide number, a dash and the
        slide's label. */
    function Caption(): (c: string)
      reads this
      requires Valid()
      ensures |c| > 2 && c[0] == '0' && '1' <= c[1] <= '3'
      ensures c[1] as int - '0' as int == SlideNumber()
      ensures c[2..] == " — " + CurrentSlide().labelText
    {
      "0" + [('0' as int + SlideNumber()) as char] + " — " + CurrentSlide().labelText
    }
  }

  /** Mount the section and let `t` ms pass: each track has advanced once per
      full period, independently of the other. */
  method RunFor(t: nat) returns (bg: nat, feed: nat)
    ensures bg == (t / MAIN_SLIDE_DURATION) % |HERO_SLIDES|
    ensures feed == (t / KITCHEN_FEED_DURATION) % |KITCHEN_UPDATES|
  {
    var hero := new Hero();
    hero.Elapse(t);
    bg, feed := hero.bgIndex, hero.feedIndex;
  }

  /** Mount, let `s` ms pass, clear the background interval (twice), and let
      `t` more ms pass: the background index is frozen at its value at `s`
      while the kitchen feed keeps advancing. On the page both intervals are
      cleared together when the section unmounts; this exercises stopping one
      track at a time, which the model allows, to show the tracks do not
      depend on each other. */
  method StopBackgroundAfter(s: nat, t: nat) returns (bg: nat, feed: nat)
    ensures bg == (s / MAIN_SLIDE_DURATION) % |HERO_SLIDES|
    ensures feed == ((s + t) / KITCHEN_FEED_DURATION) % |KITCHEN_UPDATES|
  {
    var hero := new Hero();
    hero.Elapse(s);
    hero.StopBg();
    hero.StopBg();
    hero.Elapse(t);
    bg, feed := hero.bgIndex, hero.feedIndex;
  }
}
