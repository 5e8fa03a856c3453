# Falling petals and month lookup: a Dafny model

This project models the parts of a small commemorative web site that carry
behaviour:

- **The petal particle engine.** The home page (`new/js/main.js`) and every
  month page (`new/js/month-page.js`) each hold a copy of `initPetals`. Each
  copy scales a canvas to the viewport. It fills a fixed pool of petals and,
  on every animation frame, moves each petal and applies a boundary policy:
  a petal that falls out of the bottom is recycled, and one that leaves at a
  side wraps to the other side.
- **The month lookup.** `slugify`, `getMonthData` and the empty branch of
  `renderPhotos` from `new/js/month-page.js`.

The two copies of the engine differ only in their constants. They are
modelled as one engine, `PetalEngine`, over a `Config` datatype:

- `HomePetals.HOME` is the home preset: 40 petals, size 3 + 4r, speedY 22 + 22r, speedX (r - 0.5)·12, sway (r - 0.5)·0.3.
- `MonthPetals.MONTH` is the month preset: 35 petals, size 3 + 3.5r, speedY 20 + 20r, speedX (r - 0.5)·10, sway (r - 0.5)·0.25.

Both presets draw spin as (r - 0.5)·0.02 and rotation as r·π.

Conventions of the model:

- Coordinates are `real`.
- Each value `Math.random()` returns is injected as a field of a `Draws` record, a number in [0, 1).
- `Math.sin` is a parameter `sin: real -> real`. Only the lemma that bounds the sway assumes it lies in [-1, 1].
- The viewport size (`innerWidth`, `innerHeight`) is a `nat`.
- `devicePixelRatio` is an `Option<real>`, where `None` stands for `undefined`.
- The closure state of `initPetals` is the class `PetalEngine.PetalField`. It holds `width`, `height`, `scale`, the canvas backing size and the pool. The pool is an `array<Petal>` that `Update` changes in place, petal by petal.
- Each imperative method is proved against a pure function: `ResetPetal` against `Recycled`, `Update` against `Step`, and `Populate` against `MakePetal`. The properties are proved about those functions.

Two points where the code behaves differently from what a reader might expect. The model follows the code in both:

- One might expect a recycled petal to restart at y = -(new size), just above the top edge at its new size. In `resetPetal`, `p.y = -p.size` runs before `p.size` is redrawn (`new/js/main.js:92-93`, `new/js/month-page.js:85-86`). The recycled y is therefore minus the size the petal had *before* the reset. `Recycled`, `ResetPetal` and `HomePetals.FallScenario` keep that order.
- A petal at x = -3 with size 5 might look as if it has left at the left edge. But -3 is not below -5, so the code does not wrap it. `HomePetals.WrapScenario` uses x = -6, which does wrap, to x = 205.

A zero-width viewport is an edge case of `makePetal` and `resetPetal`. There `Math.random() * width` is 0, so x lies in [0, width) only when width > 0. The contracts state both cases. The same holds for y in [-height, 0) with height.

## Model

| member | source | states |
|---|---|---|
| PetalEngine.Scale | new/js/main.js:69 | The scale never exceeds 1.5 or the pixel ratio. A missing or zero ratio gives 1. A ratio below 1.5 is used as is, otherwise the scale is 1.5. The scale is positive whenever the ratio is missing or non-negative. |
| PetalEngine.Backing | new/js/main.js:72-73 | The backing size is the floor of logical size × scale: b ≤ size·scale < b + 1. It is non-negative, and at most size·1.5 when the scale is in [0, 1.5]. |
| PetalEngine.PetalField.Resize | new/js/main.js:68-75 | Sets width, height, scale = Scale(dpr) and both floored backing sizes from the arguments alone, so repeating the call with the same arguments yields the same state. It leaves the pool untouched and keeps the pool invariant. |
| PetalEngine.Spread | new/js/main.js:81-82 | `min + Math.random() * span` lies in [min, min + span) for a positive span, and in [min, min + span] for span ≥ 0. |
| PetalEngine.Centered | new/js/main.js:83 | `(Math.random() - 0.5) * span` lies in [-span/2, span/2). |
| PetalEngine.MakePetal | new/js/main.js:77-88 | For draws in [0,1), size, speedY, speedX, spin and sway lie in the preset's ranges and rotation in [0, π). x is in [0, width], and below width when width > 0. y is in [-height, 0], and below 0 when height > 0. |
| PetalEngine.Recycled | new/js/main.js:90-99 | The new y is minus the size the petal had before the reset. x and every other attribute are redrawn from the same ranges as in `makePetal`. |
| PetalEngine.PetalField.ResetPetal | new/js/main.js:90-99 | Overwrites the fields of one pooled petal one by one in the source's order (x, y from the old size, then size and the rest). The result equals `Recycled` of the old petal, every other petal is unchanged, and the pool invariant is kept. |
| PetalEngine.AdvanceMotion | new/js/main.js:122-125 | About `Advance`, the motion step. It changes only x, y and rotation. y grows by speedY·delta/1000 and rotation by spin·delta. x grows by speedX·delta/1000 + sin(y′·0.01)·sway, where y′ is the already-advanced y. When sin is bounded by [-1,1], x therefore departs from its linear drift by at most \|sway\|. |
| PetalEngine.AdvanceFalls | new/js/main.js:122 | For a petal in range and delta ≥ 0, y never decreases, and it strictly increases when delta > 0. |
| PetalEngine.BoundaryOrder | new/js/main.js:127-133 | About `Boundary`, the boundary policy. A bottom exit (y - size > height) recycles the petal whatever its x is. Otherwise only x may change: it changes exactly when the petal is outside [-size, width+size]. A left exit goes to width+size and a right exit to -size. |
| PetalEngine.BoundaryInView | new/js/main.js:127-133 | Whatever the petal's position was, after the boundary policy -size ≤ x ≤ width+size and y - size ≤ height. |
| PetalEngine.StepKeepsInvariant | new/js/main.js:121-134 | About `Step`, which is `Boundary` after `Advance`. One frame of one petal keeps its attributes in range (kept or redrawn) and leaves it in view, for every delta and every sin. |
| PetalEngine.RunKeepsInvariant | new/js/main.js:119-137 | About `Run`, which applies `Step` once per frame. After any number of frames in a fixed viewport, the attributes are in range. After at least one frame, or from a petal already in view, the petal is in view. |
| PetalEngine.PetalField.Update | new/js/main.js:119-137 | Every petal of the fixed-size pool becomes `Step` of its own old state, its own draws, delta and the viewport. No petal is added or removed. Afterwards every petal is in view and every attribute is in range. |
| PetalEngine.PetalField.Populate | new/js/main.js:149-151 | Fills slot i of the pool with `MakePetal` of draw i, for every slot. Every petal ends in range and in view. |
| PetalEngine.PetalField.constructor | new/js/main.js:61-66 | Starts from a 0 × 0 viewport at scale 1, resizes, then builds a pool of exactly `count` petals made by `makePetal` under the new viewport (the `resize` and push loop at lines 147-151). The pool invariant holds and every petal is in view. |
| HomePetals.InitPetals | new/js/main.js:56-65 | Without a canvas there is no field. Otherwise the field has exactly 40 petals, the home preset, scale = Scale(dpr) and backing sizes floor(size·scale). Every petal is in range and in view. |
| HomePetals.MakePetalRanges | new/js/main.js:77-88 | Home `makePetal` ranges: size in [3,7), speedY in [22,44), speedX in [-6,6), rotation in [0,π), spin in [-0.01,0.01), sway in [-0.15,0.15). x is in [0,width) and y in [-height,0) (closed at the empty viewport). |
| HomePetals.ResetPetalRanges | new/js/main.js:90-99 | Home `resetPetal`: y = -(old size), and the other fields lie in the same ranges as for `makePetal`. |
| HomePetals.ResizeExample | new/js/main.js:68-75 | An 800 × 600 viewport at pixel ratio 3 gets a 1200 × 900 backing surface, and a missing ratio gives scale 1. |
| HomePetals.FallScenario | new/js/main.js:119-133 | A size-5 petal at y = -5 falling at 30 px/s in a 200 × 100 viewport, with one-second frames, is at y = 25 after one frame and y = 85 after three. The fourth frame recycles it, to y = -5 whatever new size is drawn. |
| HomePetals.WrapScenario | new/js/main.js:129-130 | A petal at x = -6 with size 5 in a 200-wide viewport wraps to x = 205, with every other field kept. |
| MonthPetals.InitPetals | new/js/month-page.js:49-68 | Without a canvas there is no field. Otherwise the field has exactly 35 petals and the month preset. Its `resize` copy gives scale = Scale(dpr) ≤ 1.5 and backing sizes floor(size·scale). Every petal is in range and in view. |
| MonthPetals.MakePetalRanges | new/js/month-page.js:70-81 | Month `makePetal` ranges: size in [3,6.5), speedY in [20,40), speedX in [-5,5), rotation in [0,π), spin in [-0.01,0.01), sway in [-0.125,0.125). x and y are in the same viewport ranges as on the home page. |
| MonthPetals.ResetPetalRanges | new/js/month-page.js:83-92 | Month `resetPetal`: y = -(old size), and the other fields lie in the month ranges. |
| MonthPetals.FramesKeepInView | new/js/month-page.js:112-130 | A petal drawn from the month preset is in view after any positive number of frames, with size in [3,6.5) and sway in [-0.125,0.125). The order of the month copy's boundary policy is the engine's, stated by `PetalEngine.BoundaryOrder`. |
| MonthPage.LowerChar | new/js/month-page.js:4 | The result is never a Latin capital A–Z. Such a capital maps to its lower-case letter, and every other character is kept (unlike `toLowerCase` for non-ASCII capitals; see Left out). |
| MonthPage.Slugify | new/js/month-page.js:3-5 | The slug has the name's length. Each character is the name's character lower-cased, and no capital remains. |
| MonthPage.SlugifyIdempotent | new/js/month-page.js:3-5 | Slugifying a slug changes nothing. |
| MonthPage.FirstMatch | new/js/month-page.js:8 | Returns the position of the first month whose slug matches: every earlier month differs, and the position is \|months\| when none matches. |
| MonthPage.GetMonthData | new/js/month-page.js:7-9 | Returns nothing exactly when no month's slug equals the target's slug. Otherwise it returns the first month, in list order, whose slug equals the target's slug. |
| MonthPage.GetMonthDataIgnoresCase | new/js/month-page.js:7-9 | Looking up a target or its lower-cased form gives the same result. |
| MonthPage.GetMonthDataFindsOwnName | new/js/month-page.js:7-9 | Looking up any month's own name finds a month with the same slug. |
| MonthPage.RenderPhotos | new/js/month-page.js:11-14 | A missing list defaults to the empty one. The result is only the "No photos yet" placeholder exactly when the list is missing or empty. Otherwise it is a gallery of exactly the given photos. |

## Left out

- `drawPetal` (`new/js/main.js:101-117`, `new/js/month-page.js:94-110`): canvas path, gradient and alpha calls with nothing to check. `ctx.clearRect` and `ctx.setTransform` are canvas side effects too. The model keeps `scale` but does not record the installed transform separately.
- The `requestAnimationFrame` loop, `performance.now` and the `resize` event listener: these are scheduling and clock I/O. `delta` is a parameter of `Update`, and `Resize` may be called between any two updates. A resize that shrinks the viewport can leave petals out of view until the next `Update`, so `Settled` is not part of the class invariant.
- `Math.random`: each petal gets its own `Draws` record per frame, in place of one shared stream. The order in which petals consume the stream is therefore not modelled. Every value in [0,1) is allowed, so no reachable state is lost. `resetPetal` draws no y and ignores that field of its record.
- `Math.sin` is a parameter. Floating-point rounding, NaN and infinities are not modelled: coordinates are reals.
- A `devicePixelRatio` of NaN is not modelled. A negative ratio passes through `Math.min` into the scale, as in the code. The model then gives a negative backing size (`Backing(800, Scale(Some(-2.0)))` is -1600), where `canvas.width` is an unsigned long and could not hold it; browsers never report a negative ratio, so this conversion is not modelled.
- MonthPage.Slugify: lower-cases only the Latin capitals A–Z, because JavaScript's full Unicode case mapping (including characters whose lower case is longer) is not modelled.
- MonthPage.LowerChar: maps only the Latin capitals A–Z and keeps every other character, so a non-ASCII capital such as 'Ä' stays unchanged where `toLowerCase` would lower it; the reason is the one given for Slugify.
- MonthPage.RenderPhotos: returns which view is shown and the photos it shows, not the HTML text of the non-empty branch. That text is markup glue. A `null` list, on which the code would throw, is not modelled.
- `renderHighlights`, `renderMonths` and the DOM writes of `renderMonthPage`: text-to-markup glue.
- The letter overlay and its `localStorage` flag (`new/js/main.js:156-199`): DOM class toggles and browser storage.
- The month list `new/js/data/months.js` is not part of this model. `GetMonthData` takes the list as a parameter.
