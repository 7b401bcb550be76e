# bluewolf-slider: the navigation state machine

`bluewolf-slider.js` turns a container's children into a carousel. This project
models the part of it that holds state and changes it step by step:

- the slide count, fixed when the slider is built;
- `index.current` and `index.prev`;
- each slide's class list, where `bw-current` marks the displayed slide;
- the module-level `_interval`, which every slider shares.

The model is the class `BluewolfSlider.Slider`. Its methods mirror the prototype
functions `moveTo`, `prev`, `next`, `pause`, `play`, `setOptions` and
`buildSlider`, the `index.set/get/getPrev` closure, and the private helpers
`_animation`, `_addClass` and `_removeClass`. Slides are an `array<set<string>>` of
class lists, not DOM nodes. `_interval` is an `IntervalTimer` object with one
boolean field, `running`, which says whether a handle is held. The factory
`Slider.Create` receives the timer, so two sliders built with the same timer share
it, as two instances do in the source.

Construction is `Slider.Create`. The container lookup is its `found` parameter. It fails when:

- the selector is falsy;
- the selector matches no element;
- fewer than two slides, because `buildControls` then leaves `arrows` unset and
  `_attachEvents` reads `arrows.left`.

A slider built from one child therefore does not exist in this model. Otherwise
`Create` resolves the options and resets every slide's classes to `bw-slide-item`,
with `bw-current` on slide 0. It then starts the timer if none is held. This
happens because `DEFAULTS.AUTO` is true; the stored options are never consulted.

The slider's invariant is `Slider.Valid`:

- `current` is a slide index;
- `prev`, once set, is a slide index;
- exactly the slide at `current` carries `bw-current`;
- every slide carries `bw-slide-item`.

Every transition goes through `SetIndex`, which is `index.set`. It stores the old
index in `prev`, sets the new one and runs `_animation`. The spec function
`Animated` says what `_animation` does to the class lists. The functions
`NextIndex` and `PrevIndex` give the wraparound steps. They are related to
arithmetic modulo the slide count by `NextTimesAdvances` and `PrevTimesRetreats`,
and `FullCycleReturns` follows from those two.

`moveTo` is modelled as written at line 135. It refuses targets `<= 0` and
`>= slides`. So slide 0 cannot be reached with `moveTo`, and the last slide can.
Some descriptions of this widget say the last index is refused too. The code
accepts it, and the model follows the code. `moveTo` calls `pause` before the
check, so a refused target still stops the timer.

A timer tick is `next` called with no argument, which is `Next(false)` here.

## Model

| member | source | states |
|---|---|---|
| `BluewolfSlider.NextIndex` | bluewolf-slider.js:159-163 | from an index in range, `next` lands in range, on `(current + 1) mod slides`: 0 after the last slide, else one further |
| `BluewolfSlider.PrevIndex` | bluewolf-slider.js:147-151 | from an index in range, `prev` lands in range, on `(current - 1) mod slides`: the last slide before the first, else one back; `next` from there returns to the start |
| `BluewolfSlider.PrevUndoesNext` | bluewolf-slider.js:147-163 | `prev` after `next` returns to the index it started from |
| `BluewolfSlider.NextTimesAdvances` | bluewolf-slider.js:154-164 | `k` consecutive `next` calls move the index to `(current + k) mod slides` |
| `BluewolfSlider.PrevTimesRetreats` | bluewolf-slider.js:142-152 | `k` consecutive `prev` calls move the index to `(current - k) mod slides` |
| `BluewolfSlider.NextVisitsInOrder` | bluewolf-slider.js:159-163 | from slide 0, the `k`-th `next` call (for `k < slides`) lands on slide `k`, so the order is 0, 1, ..., slides - 1 |
| `BluewolfSlider.FullCycleReturns` | bluewolf-slider.js:142-164 | `slides` consecutive `next` calls, or `slides` consecutive `prev` calls, return `current` to its starting value |
| `BluewolfSlider.Animated` | bluewolf-slider.js:190-207 | taking `bw-current` off slide `prev` and then putting it on slide `current` leaves exactly slide `current` marked when exactly slide `prev` was marked, also when `prev == current`; `prev` loses the marker when it differs; no other class changes on any slide, and slides other than the two are untouched |
| `BluewolfSlider.BuiltClasses` | bluewolf-slider.js:91-102 | after the build, slide `i` carries `bw-current` iff `i` is the current index, and every slide's classes are exactly `bw-slide-item` besides that marker, whatever it had before |
| `BluewolfSlider.IntervalTimer.constructor` | bluewolf-slider.js:30 | the shared timer starts with no handle |
| `BluewolfSlider.Slider.constructor` | bluewolf-slider.js:45-66 | a slider over two or more children starts valid, at index 0 with no previous index, with the resolved options and the built class lists |
| `BluewolfSlider.Slider.Create` | bluewolf-slider.js:32-73 | fails with the missing-selector error iff the selector is falsy, with the invalid-container error iff nothing matches, and with the missing-arrows failure iff fewer than two slides exist; a failure leaves the timer alone; a success is a fresh valid slider at slide 0 with the timer running |
| `BluewolfSlider.Slider.SetOptions` | bluewolf-slider.js:75-85 | a value whose `typeof` is not 'object' is replaced by DEFAULTS; any object, and `null`, is stored unchanged, because no default is undefined and the back-fill never writes |
| `BluewolfSlider.Slider.BuildSlider` | bluewolf-slider.js:87-102 | every slide's class list becomes the built one: reset to `bw-slide-item`, plus `bw-current` on the current slide |
| `BluewolfSlider.Slider.Get` | bluewolf-slider.js:57-59 | the current index is a slide index, that slide carries `bw-current`, and no other slide does |
| `BluewolfSlider.Slider.GetPrev` | bluewolf-slider.js:60-62 | the previous index, when there is one, is a slide index |
| `BluewolfSlider.Slider.AddClasses` | bluewolf-slider.js:197-201 | slide `k` gains exactly the listed names and every other slide is unchanged |
| `BluewolfSlider.Slider.RemoveClasses` | bluewolf-slider.js:203-207 | slide `k` loses exactly the listed names and every other slide is unchanged |
| `BluewolfSlider.Slider.Animation` | bluewolf-slider.js:190-195 | the class lists become `Animated` of the old ones, from `prev` to `current` |
| `BluewolfSlider.Slider.SetIndex` | bluewolf-slider.js:52-56 | `prev` becomes the old `current` and `current` the target; the marker moves as `Animated` says; options and the timer do not change; the invariant is kept |
| `BluewolfSlider.Slider.MoveTo` | bluewolf-slider.js:132-140 | the timer is stopped in every case; the call fails iff the target is `<= 0` or `>= slides`, and then nothing else changes; otherwise the slider moves to the target through `SetIndex`; the invariant is kept |
| `BluewolfSlider.Slider.Prev` | bluewolf-slider.js:142-152 | `current` becomes `PrevIndex` of the old one and `prev` the old one; the marker moves with it; the timer stops iff `pause` is set and is otherwise unchanged; the invariant is kept |
| `BluewolfSlider.Slider.Next` | bluewolf-slider.js:154-164 | `current` becomes `NextIndex` of the old one and `prev` the old one; the marker moves with it; the timer stops iff `pause` is set and is otherwise unchanged; the invariant is kept |
| `BluewolfSlider.Slider.Pause` | bluewolf-slider.js:166-170 | afterwards no handle is held; with none held before, nothing changes |
| `BluewolfSlider.Slider.Play` | bluewolf-slider.js:172-176 | afterwards a handle is held; with one held before, it is left as it is |

## Left out

- `Slider.Create`: the selector lookup is the `found` parameter, so the SyntaxError that `querySelector` throws for a truthy but invalid selector (such as `5` or `"#"`, line 37) is not represented.
- Class lists are sets: the order of tokens in a class list, which `className` shows (`"bw-slide-item bw-current"`), is not kept. Nothing in the navigation depends on it.
- Building the DOM is not modelled: the inner wrapper, `appendChild`, the arrow elements and their classes (bluewolf-slider.js:88-89, 99, 104-129). Slides are their class lists only.
- `buildControls` is folded into `Slider.Create`, which models only its consequence: no arrows with fewer than two slides. In the source, the DOM has already been rewritten when that failure is thrown; the model does not capture this.
- `Slider.BuildSlider` assumes the slide list is the container's children. The source queries `.bw-slide-item` again (line 105), which would also pick up nested elements carrying that class.
- Event wiring in `_attachEvents`/`_detachEvents` (lines 209-217) is browser plumbing. `_detachEvents` passes unbound functions and so never removes the listeners it added.
- Real timing is left out: `setInterval`/`clearInterval` and the 2000 ms interval (lines 168, 174).
- `Slider.Play`: models only whether a handle is held, not which slider's `next` the interval calls. With a shared timer, a second slider's `play` does nothing, and its `pause` stops the first slider's rotation.
- `destroy` (lines 178-185) removes DOM nodes and deletes properties; that is the JavaScript object model, not navigation state. It does not stop the shared timer.
- The constructor-or-factory call at line 43 is left out; `Slider.Create` is the single entry point.
- The `Element.prototype.remove` polyfill (lines 220-235) is environment glue.
- Indices are mathematical integers. `moveTo` with a non-integer or NaN argument, which JavaScript would accept, is not modelled.
- `Slider.SetIndex` and `Slider.Animation` require the target to be a slide index. A non-integer or NaN target such as `moveTo(1.5)` passes the check at line 135 and reaches `index.set`. There `prev` and `current` are overwritten (lines 53-54) and `bw-current` is taken off the old slide (line 193). Then `_addClass` throws on `slides[1.5]`, which is undefined (line 194). The source is left with `current == 1.5` and no marked slide, which breaks the one-marker invariant; the model does not represent this.
- `Slider.SetOptions`: does not model the write into the caller's object that the back-fill would make, because with the current DEFAULTS that write cannot happen (the model proves the branch dead).
- `JsValue` numbers are reals without NaN, so a NaN selector is not represented.
