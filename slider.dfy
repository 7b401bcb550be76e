/**
 * The navigation state machine of the bluewolf slider: a fixed number of slides,
 * a current and a previous index, the `bw-current` marker in each slide's class
 * list, and the shared auto-rotation timer.
 */
module BluewolfSlider {
  import opened Wrappers
  import opened JsValues

  // ---------------------------------------------------------------------------
  // Constants
  // ---------------------------------------------------------------------------

  /** Class every slide gets when the slider is built (CLASSNAMES.SLIDE). */
  const SLIDE := "bw-slide-item"
  /** Class that marks the displayed slide (CLASSNAMES.CURRENT). */
  const CURRENT := "bw-current"

  /** The keys of DEFAULTS, in the order `Object.keys` lists them. */
  const DefaultKeys: seq<string> := ["AUTO", "INTERVAL", "SPEED"]
  /** DEFAULTS: auto-play on, interval and speed of 2000 ms. */
  const Defaults: map<string, JsValue> :=
    map["AUTO" := Bool(true), "INTERVAL" := Num(2000.0), "SPEED" := Num(2000.0)]

  /** The exceptions the slider throws. */
  datatype SliderError =
    | MissingSelector    // the selector argument is falsy
    | InvalidContainer   // the selector matches no element
    | MissingArrows      // fewer than two slides: no arrows exist when events are attached
    | InvalidSlideIndex  // moveTo was given a target outside its accepted range

  // ---------------------------------------------------------------------------
  // Index arithmetic
  // ---------------------------------------------------------------------------

  /** The index `next` moves to: the first slide after the last, else one further. */
  function NextIndex(current: int, slides: int): (r: int)
    ensures 0 <= current < slides ==> 0 <= r < slides && r == (current + 1) % slides
  {
    if current >= slides - 1 then 0 else current + 1
  }

  /** The index `prev` moves to: the last slide before the first, else one back. */
  function PrevIndex(current: int, slides: int): (r: int)
    ensures 0 <= current < slides ==> 0 <= r < slides && r == (current - 1) % slides
    ensures 0 <= current < slides ==> NextIndex(r, slides) == current
  {
    if current - 1 < 0 then slides - 1 else current - 1
  }

  /** `prev` undoes `next`. */
  lemma PrevUndoesNext(current: int, slides: int)
    requires 0 <= current < slides
    ensures PrevIndex(NextIndex(current, slides), slides) == current
  {
  }

  /** The index reached from `current` by `k` consecutive calls of `next`. */
  function NextTimes(current: int, slides: int, k: nat): int {
    if k == 0 then current else NextIndex(NextTimes(current, slides, k - 1), slides)
  }

  /** The index reached from `current` by `k` consecutive calls of `prev`. */
  function PrevTimes(current: int, slides: int, k: nat): int {
    if k == 0 then current else PrevIndex(PrevTimes(current, slides, k - 1), slides)
  }

  /** A positive multiple of a positive number is at least that number. */
  lemma MulAtLeast(d: int, n: int)
    requires n > 0 && d >= 1
    ensures d * n >= n
  {
  }

  /** The remainder modulo `n` is the unique `r` in [0, n) with `x == q * n + r`. */
  lemma ModUnique(x: int, n: int, q: int, r: int)
    requires n > 0 && 0 <= r < n && x == q * n + r
    ensures x % n == r
  {
    var q0, r0 := x / n, x % n;
    assert x == q0 * n + r0;
    var d := q - q0;
    assert d * n == q * n - q0 * n;
    assert d * n == r0 - r;
    if d >= 1 {
      MulAtLeast(d, n);
    } else if d <= -1 {
      MulAtLeast(-d, n);
    }
  }

  /** Reducing modulo `n` before adding `d` gives the same remainder as reducing after. */
  lemma ModStep(a: int, n: int, d: int)
    requires n > 0
    ensures (a % n + d) % n == (a + d) % n
  {
    var q, r := (a % n + d) / n, (a % n + d) % n;
    assert a % n + d == q * n + r;
    assert a == (a / n) * n + a % n;
    assert a + d == (a / n + q) * n + r;
    ModUnique(a + d, n, a / n + q, r);
  }

  /** Adding or subtracting the modulus does not change the remainder. */
  lemma ModPeriod(x: int, n: int)
    requires n > 0
    ensures (x + n) % n == x % n && (x - n) % n == x % n
  {
    ModUnique(x + n, n, x / n + 1, x % n);
    ModUnique(x - n, n, x / n - 1, x % n);
  }

  /** `k` calls of `next` advance the index by `k` around the ring of slides. */
  lemma {:induction false} NextTimesAdvances(current: int, slides: int, k: nat)
    requires 0 <= current < slides
    ensures NextTimes(current, slides, k) == (current + k) % slides
  {
    if k > 0 {
      NextTimesAdvances(current, slides, k - 1);
      ModStep(current + k - 1, slides, 1);
    }
  }

  /** `k` calls of `prev` move the index back by `k` around the ring of slides. */
  lemma {:induction false} PrevTimesRetreats(current: int, slides: int, k: nat)
    requires 0 <= current < slides
    ensures PrevTimes(current, slides, k) == (current - k) % slides
  {
    if k > 0 {
      PrevTimesRetreats(current, slides, k - 1);
      ModStep(current - (k - 1), slides, -1);
    }
  }

  /** Starting from the first slide, `next` visits 0, 1, ..., slides - 1 in turn. */
  lemma NextVisitsInOrder(slides: int, k: nat)
    requires k < slides
    ensures NextTimes(0, slides, k) == k
  {
    NextTimesAdvances(0, slides, k);
  }

  /** From any slide, `slides` calls of `next`, or of `prev`, come back to where they began. */
  lemma FullCycleReturns(current: int, slides: int)
    requires 0 <= current < slides
    ensures NextTimes(current, slides, slides) == current
    ensures PrevTimes(current, slides, slides) == current
  {
    NextTimesAdvances(current, slides, slides);
    PrevTimesRetreats(current, slides, slides);
    ModPeriod(current, slides);
    ModUnique(current, slides, 0, current);
  }

  /** The check `moveTo` applies before it moves: index 0 is refused, the last index is not. */
  predicate RejectsTarget(index: int, slides: int) {
    index <= 0 || index >= slides
  }

  // ---------------------------------------------------------------------------
  // Slide class lists
  // ---------------------------------------------------------------------------

  /** Exactly the slide at index `k` carries the `bw-current` class. */
  predicate MarkedOnlyAt(classes: seq<set<string>>, k: int) {
    forall i :: 0 <= i < |classes| ==> (CURRENT in classes[i] <==> i == k)
  }

  /** The set of class names listed in `names`. */
  function NameSet(names: seq<string>): set<string> {
    set i | 0 <= i < |names| :: names[i]
  }

  /** One more name in the list adds that name to the set. */
  lemma NameSetExtend(names: seq<string>, i: int)
    requires 0 <= i < |names|
    ensures NameSet(names[..i + 1]) == NameSet(names[..i]) + {names[i]}
  {
    var longer := names[..i + 1];
    assert forall j :: 0 <= j < i ==> longer[j] == names[..i][j];
    assert longer[i] == names[i];
  }

  /**
   * The class lists after the animation of a move from `prev` to `current`:
   * `bw-current` is removed from slide `prev`, then added to slide `current`.
   */
  function Animated(classes: seq<set<string>>, prev: int, current: int): (r: seq<set<string>>)
    requires 0 <= prev < |classes| && 0 <= current < |classes|
    ensures |r| == |classes|
    ensures MarkedOnlyAt(classes, prev) ==> MarkedOnlyAt(r, current)
    ensures CURRENT in r[current]
    ensures prev != current ==> CURRENT !in r[prev]
    ensures forall i :: 0 <= i < |r| && i != prev && i != current ==> r[i] == classes[i]
    ensures forall i :: 0 <= i < |r| ==> r[i] - {CURRENT} == classes[i] - {CURRENT}
  {
    var cleared := classes[prev := classes[prev] - {CURRENT}];
    cleared[current := cleared[current] + {CURRENT}]
  }

  /**
   * The class lists `buildSlider` leaves: every slide's classes are replaced by
   * `bw-slide-item`, and the slide at `current` gets `bw-current` as well.
   */
  function BuiltClasses(count: nat, current: int): (r: seq<set<string>>)
    ensures |r| == count
    ensures MarkedOnlyAt(r, current)
    ensures forall i :: 0 <= i < count ==> r[i] - {CURRENT} == {SLIDE}
  {
    seq(count, i => if i == current then {SLIDE, CURRENT} else {SLIDE})
  }

  // ---------------------------------------------------------------------------
  // Options
  // ---------------------------------------------------------------------------

  /**
   * What `setOptions` stores: the defaults for an argument whose `typeof` is not
   * 'object', and otherwise the argument itself (an object or null).
   */
  function ResolvedOptions(arg: JsValue): JsValue {
    if TypeofIsObject(arg) then arg else Obj(Defaults)
  }

  // ---------------------------------------------------------------------------
  // State
  // ---------------------------------------------------------------------------

  /** The module-level `_interval`, shared by every slider: whether a handle is held. */
  class IntervalTimer {
    var running: bool

    constructor ()
      ensures !running
    {
      running := false;
    }
  }

  /** One slider instance. */
  class Slider {
    /** Number of slides, fixed at construction. */
    const slides: nat
    /** The class list of each slide, in document order. */
    const slideClasses: array<set<string>>
    /** The auto-rotation timer, shared with every other slider. */
    const timer: IntervalTimer
    /** `index.current`. */
    var current: int
    /** `index.prev`; None until the first transition. */
    var prev: Option<int>
    /** The stored options. */
    var options: JsValue

    /** The slider's invariant: indices in range, and only the current slide marked. */
    ghost predicate Valid()
      reads this, slideClasses
    {
      slideClasses.Length == slides >= 2 &&
      0 <= current < slides &&
      (prev.Some? ==> 0 <= prev.value < slides) &&
      MarkedOnlyAt(slideClasses[..], current) &&
      forall i :: 0 <= i < slides ==> SLIDE in slideClasses[i]
    }

    /**
     * The part of construction that succeeds: resolve options, then build the slides
     * from the container's children, whose own classes are discarded.
     */
    constructor (children: seq<set<string>>, optionsArg: JsValue, timer: IntervalTimer)
      requires |children| >= 2
      ensures Valid() && fresh(slideClasses)
      ensures slides == |children| && this.timer == timer
      ensures current == 0 && prev == None
      ensures options == ResolvedOptions(optionsArg)
      ensures slideClasses[..] == BuiltClasses(|children|, 0)
    {
      slides := |children|;
      slideClasses := new set<string>[|children|](i requires 0 <= i < |children| => children[i]);
      this.timer := timer;
      current := 0;
      prev := None;
      options := Undefined;
      new;
      SetOptions(optionsArg);
      BuildSlider();
    }

    /**
     * Construction as a whole: the two selector checks, the build, the failure
     * to attach events when fewer than two slides give no arrows, and auto-play.
     * `found` is what the selector lookup returns: the class lists of the
     * container's children, or None when nothing matches.
     */
    static method Create(selector: JsValue, found: Option<seq<set<string>>>, optionsArg: JsValue,
                         timer: IntervalTimer)
      returns (r: Result<Slider, SliderError>)
      modifies timer
      ensures !Truthy(selector) ==> r == Failure(MissingSelector)
      ensures Truthy(selector) && found.None? ==> r == Failure(InvalidContainer)
      ensures Truthy(selector) && found.Some? && |found.value| < 2 ==> r == Failure(MissingArrows)
      ensures r.Success? <==> Truthy(selector) && found.Some? && |found.value| >= 2
      ensures r.Failure? ==> unchanged(timer)
      ensures r.Success? ==>
        fresh(r.value) && fresh(r.value.slideClasses) && r.value.Valid() &&
        r.value.timer == timer && timer.running &&
        r.value.slides == |found.value| && r.value.current == 0 && r.value.prev == None &&
        r.value.options == ResolvedOptions(optionsArg) &&
        r.value.slideClasses[..] == BuiltClasses(|found.value|, 0)
    {
      if !Truthy(selector) {
        return Failure(MissingSelector);
      }
      if found.None? {
        return Failure(InvalidContainer);
      }
      var children := found.value;
      if |children| <= 1 {
        // buildControls leaves `arrows` unset, and attaching events reads it
        return Failure(MissingArrows);
      }
      var s := new Slider(children, optionsArg, timer);
      if Truthy(Defaults["AUTO"]) {
        s.Play();
      }
      return Success(s);
    }

    /** `setOptions`: the back-fill only writes keys whose default is undefined, and none is. */
    method SetOptions(arg: JsValue)
      modifies this`options
      ensures options == ResolvedOptions(arg)
    {
      if !TypeofIsObject(arg) && arg != Null {
        options := Obj(Defaults);
        return;
      }
      var o := arg;
      var i := 0;
      while i < |DefaultKeys|
        invariant 0 <= i <= |DefaultKeys|
        invariant o == arg
      {
        var k := DefaultKeys[i];
        var d := Defaults[k];
        // No default is undefined, so the back-fill below never writes.
        assert d != Undefined;
        if d == Undefined {
          match o
          case Obj(fields) => o := Obj(fields[k := d]);
          case _ =>  // on null the write would throw
        }
        i := i + 1;
      }
      options := o;
    }

    /** `buildSlider`, restricted to the class lists: reset each slide, mark the current one. */
    method BuildSlider()
      requires slideClasses.Length == slides
      modifies slideClasses
      ensures slideClasses[..] == BuiltClasses(slides, current)
    {
      var i := 0;
      while i < slideClasses.Length
        invariant 0 <= i <= slideClasses.Length
        invariant forall j :: 0 <= j < i ==> slideClasses[j] == BuiltClasses(slides, current)[j]
      {
        slideClasses[i] := {SLIDE};
        if i == current {
          slideClasses[i] := slideClasses[i] + {CURRENT};
        }
        i := i + 1;
      }
    }

    /** `index.get`: the current index, which is in range and marked. */
    function Get(): (r: int)
      reads this, slideClasses
      requires Valid()
      ensures 0 <= r < slides && CURRENT in slideClasses[r]
      ensures forall i :: 0 <= i < slides && i != r ==> CURRENT !in slideClasses[i]
    {
      current
    }

    /** `index.getPrev`: the index before the last transition, if any, which is in range. */
    function GetPrev(): (r: Option<int>)
      reads this, slideClasses
      requires Valid()
      ensures r.Some? ==> 0 <= r.value < slides
    {
      prev
    }

    /** `_addClass` on slide `k`: every name in `names` is added to its class list. */
    method AddClasses(names: seq<string>, k: int)
      requires 0 <= k < slideClasses.Length
      modifies slideClasses
      ensures slideClasses[k] == old(slideClasses[k]) + NameSet(names)
      ensures forall j :: 0 <= j < slideClasses.Length && j != k ==> slideClasses[j] == old(slideClasses[j])
    {
      var i := 0;
      while i < |names|
        invariant 0 <= i <= |names|
        invariant slideClasses[k] == old(slideClasses[k]) + NameSet(names[..i])
        invariant forall j :: 0 <= j < slideClasses.Length && j != k ==> slideClasses[j] == old(slideClasses[j])
      {
        NameSetExtend(names, i);
        slideClasses[k] := slideClasses[k] + {names[i]};
        i := i + 1;
      }
      assert names[..i] == names;
    }

    /** `_removeClass` on slide `k`: every name in `names` is removed from its class list. */
    method RemoveClasses(names: seq<string>, k: int)
      requires 0 <= k < slideClasses.Length
      modifies slideClasses
      ensures slideClasses[k] == old(slideClasses[k]) - NameSet(names)
      ensures forall j :: 0 <= j < slideClasses.Length && j != k ==> slideClasses[j] == old(slideClasses[j])
    {
      var i := 0;
      while i < |names|
        invariant 0 <= i <= |names|
        invariant slideClasses[k] == old(slideClasses[k]) - NameSet(names[..i])
        invariant forall j :: 0 <= j < slideClasses.Length && j != k ==> slideClasses[j] == old(slideClasses[j])
      {
        NameSetExtend(names, i);
        slideClasses[k] := slideClasses[k] - {names[i]};
        i := i + 1;
      }
      assert names[..i] == names;
    }

    /** `_animation`: take the marker off slide `prev`, then put it on slide `current`. */
    method Animation()
      requires slideClasses.Length == slides
      requires prev.Some? && 0 <= prev.value < slides && 0 <= current < slides
      modifies slideClasses
      ensures slideClasses[..] == Animated(old(slideClasses[..]), prev.value, current)
    {
      var classList := [CURRENT];
      assert classList[0] == CURRENT;
      assert NameSet(classList) == {CURRENT};
      RemoveClasses(classList, prev.value);
      AddClasses(classList, current);
    }

    /** `index.set`: remember the old index as `prev`, move to `index`, animate. */
    method SetIndex(index: int)
      requires Valid()
      requires 0 <= index < slides
      modifies this`current, this`prev, slideClasses
      ensures Valid()
      ensures prev == Some(old(current)) && current == index
      ensures slideClasses[..] == Animated(old(slideClasses[..]), old(current), index)
    {
      prev := Some(current);
      current := index;
      Animation();
      assert forall i :: 0 <= i < slides ==> slideClasses[..][i] == slideClasses[i];
    }

    /** `moveTo`: stop the timer, then refuse a target outside 1 .. slides - 1 or move to it. */
    method MoveTo(index: int) returns (r: Outcome<SliderError>)
      requires Valid()
      modifies this`current, this`prev, slideClasses, timer
      ensures Valid() && !timer.running
      ensures r.Fail? <==> RejectsTarget(index, slides)
      ensures r.Fail? ==>
        r.error == InvalidSlideIndex &&
        current == old(current) && prev == old(prev) && slideClasses[..] == old(slideClasses[..])
      ensures r.Pass? ==>
        current == index && prev == Some(old(current)) &&
        slideClasses[..] == Animated(old(slideClasses[..]), old(current), index)
    {
      Pause();
      if index <= 0 || index >= slides {
        return Fail(InvalidSlideIndex);
      }
      SetIndex(index);
      return Pass;
    }

    /** `prev`: optionally stop the timer, then step back one slide with wraparound. */
    method Prev(pause: bool)
      requires Valid()
      modifies this`current, this`prev, slideClasses, timer
      ensures Valid()
      ensures current == PrevIndex(old(current), slides) && prev == Some(old(current))
      ensures slideClasses[..] == Animated(old(slideClasses[..]), old(current), current)
      ensures timer.running == (old(timer.running) && !pause)
    {
      if pause {
        Pause();
      }
      if Get() - 1 < 0 {
        SetIndex(slides - 1);
        return;
      }
      SetIndex(Get() - 1);
    }

    /** `next`: optionally stop the timer, then step on one slide with wraparound. */
    method Next(pause: bool)
      requires Valid()
      modifies this`current, this`prev, slideClasses, timer
      ensures Valid()
      ensures current == NextIndex(old(current), slides) && prev == Some(old(current))
      ensures slideClasses[..] == Animated(old(slideClasses[..]), old(current), current)
      ensures timer.running == (old(timer.running) && !pause)
    {
      if pause {
        Pause();
      }
      if Get() >= slides - 1 {
        SetIndex(0);
        return;
      }
      SetIndex(Get() + 1);
    }

    /** `pause`: drop the timer handle if one is held; without one, nothing changes. */
    method Pause()
      modifies timer
      ensures !timer.running
      ensures !old(timer.running) ==> unchanged(timer)
    {
      if timer.running {
        timer.running := false;
      }
    }

    /** `play`: start the timer unless one is already held, which is then left as it is. */
    method Play()
      modifies timer
      ensures timer.running
      ensures old(timer.running) ==> unchanged(timer)
    {
      if !timer.running {
        timer.running := true;
      }
    }
  }
}
