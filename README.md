# Red Light Rejuve: the Spin-to-Win wheel, modelled in Dafny

The landing page of the Red Light Rejuve LED-mask shop shows a "Spin-to-Win"
pop-up once the visitor has scrolled half a screen. The wheel has eight slices:
free spin, 10% off, 20% off and 30% off, twice each. The spin is rigged. It only
ever lands on a free spin (35% of first spins) or on 20% off, and a second free
spin is never granted while the page stays loaded; a reload before the done flag
is written starts the wheel over. When the wheel settles on 20% off, or when the pop-up is
closed, a flag in local storage makes sure it is never offered again.

The model has five modules:

- `JsNumber` (`js_number.dfy`): JavaScript's `Math.floor` and its remainder
  `x % 360`, on exact reals. JavaScript's `%` truncates toward zero, so its
  result can be negative. `Residue` is the floored residue in [0, 360). It is
  the reference the remainder is measured against. `DoubleRemIsResidue` proves
  that the double remainder `((a % 360) + 360) % 360` equals that residue.
- `Wheel` (`wheel.dfy`): the slice table and the pure arithmetic of one spin.
  That covers the rigged target choice, the face-up angle, the jitter, the turn
  count, the forward delta and the next rotation. It also has `SegmentAt`, the
  slice under the pointer for a given rotation. It is read off the drawing: the
  conic gradient starts at 337.5 degrees, slice `i` is drawn at `i * 45`
  degrees, and the face turns clockwise by `rotation`. The lemmas prove that a
  spin always comes to rest with the chosen slice under the pointer. So the
  visible outcome is always a free spin or 20% off.
- `SpinWheelComponent` (`spin_wheel.dfy`): the `SpinWheel` component as a class.
  Its fields are the React state (`show`, `spinning`, `rotation`, `result`,
  `hadFreeSpin`, `copied`), the local-storage flag `wheelDone`, whether the
  scroll trigger is installed (`revealArmed`), and the slice captured by the
  pending completion callback (`pending`). The methods are the scroll handler,
  `spin`, the deferred completion, `close` and `copyCode`. `Valid()` holds the
  invariants they all keep:
  - a spin is under way exactly while a callback is pending;
  - a pending target is a free-spin or 20%-off slice, and it is the slice under
    the pointer;
  - after a free spin, a pending target is 20% off;
  - an announced 20% off implies the done flag;
  - the rotation is never negative.
- `Storefront` (`storefront.dfy`): the `Home` page's product-image carousel,
  which wraps around over 12 images, and its FAQ accordion over 11 questions.
- `Wrappers` (`wrappers.dfy`): `Option`, for the `string | null` and
  `number | null` state.

Every `Math.random()` call of a spin is a parameter: a real in [0, 1), collected
in the record `Wheel.Draws`. The 4.5-second completion timer is the separate
method `SpinWheel.SettleSpin`. Local storage is the boolean field `wheelDone`,
and a new mount of the component is the constructor, given the stored flag.

The done flag is written both when 20% off is announced
(src/app/page.tsx:170) and when the pop-up is closed (src/app/page.tsx:177),
even if nothing was won. Every spin adds at least five whole turns
(`Wheel.SpinAdvance`).

## Model

| member | source | states |
|---|---|---|
| `JsNumber.Floor` | src/app/page.tsx:160 | `Math.floor(x)` is the greatest integer not above `x` |
| `JsNumber.Trunc` | src/app/page.tsx:156-159 | the quotient JavaScript's `%` uses rounds toward zero: for `x >= 0` it is the greatest integer not above `x`, for `x < 0` the least integer not below it |
| `JsNumber.Rem` | src/app/page.tsx:156-159 | JavaScript `a % 360` lies in [0, 360) for `a >= 0` and in (-360, 0] for `a < 0`, and it is congruent to `a` (same residue) |
| `JsNumber.Residue` | src/app/page.tsx:159 | the floored residue modulo a full turn lies in [0, 360) |
| `JsNumber.ResidueShift` | src/app/page.tsx:161 | adding whole turns (`spins * 360`) does not change where the wheel points |
| `JsNumber.DoubleRemIsResidue` | src/app/page.tsx:159 | `((a % 360) + 360) % 360` is the residue of `a` in [0, 360) for every `a`, negative or not |
| `JsNumber.SingleRemCanBeNegative` | src/app/page.tsx:159 | one remainder alone can be negative (`-10 % 360 == -10`), which is why the code adds 360 and takes it again |
| `Wheel.SegmentLayout` | src/app/page.tsx:117-126 | the table has eight slices, opposite slices are equal, the "free" slices are exactly 0 and 4 and the "20" slices exactly 2 and 6 |
| `Wheel.TargetIndex` | src/app/page.tsx:148-154 | the target is slice 0, 2, 4 or 6 and never a "10" or "30" slice; its value is "free" or "20"; it is "free" exactly when no free spin was granted yet and the 35% draw succeeded (so after a free spin it is always "20") |
| `Wheel.FavourableSlicesReachable` | src/app/page.tsx:149-154 | conversely, each of slices 0, 2, 4 and 6 is the target for some draws, and after a free spin both 20% slices still are |
| `Wheel.TargetAngle` | src/app/page.tsx:156 | `(360 - idx * 45) % 360` lies in [0, 360) and turns slice `idx`'s centre to a whole number of turns, so it lies on a multiple of 45 degrees |
| `Wheel.Offset` | src/app/page.tsx:157 | the jitter `(Math.random() - 0.5) * 30` lies in [-15, 15) |
| `Wheel.Spins` | src/app/page.tsx:160 | the whole-turn count `5 + Math.floor(Math.random() * 3)` is 5, 6 or 7 |
| `Wheel.ForwardDelta` | src/app/page.tsx:159 | the double-mod `diff` equals the floored residue of `targetAngle + offset - currentMod`, so it lies in [0, 360) even when that difference is negative |
| `Wheel.NextRotation` | src/app/page.tsx:161 | `prev + spins * 360 + diff` moves the wheel forward by at least 1800 and less than 2880 degrees; `Wheel.SpinAdvance` adds that it points at the jittered target |
| `Wheel.SegmentAt` | src/app/page.tsx:260-266 | the slice under the top pointer for a clockwise rotation is the one whose centre `idx * 45` lies within 22.5 degrees of the face angle at the pointer, modulo 360 |
| `Wheel.SpinAdvance` | src/app/page.tsx:156-161 | the new rotation exceeds the old by at least 1800 and less than 2880 degrees, and it is congruent to `targetAngle + offset` modulo 360 whatever the old rotation |
| `Wheel.FaceUnderPointer` | src/app/page.tsx:260-266 | a rotation congruent to `targetAngle(idx) + offset` shows face angle `idx * 45 - offset` at the pointer |
| `Wheel.FaceInSegment` | src/app/page.tsx:260-266 | a face angle less than 15 degrees from slice `idx`'s centre lies in slice `idx` |
| `Wheel.PointsAtTarget` | src/app/page.tsx:156-159 | a rotation at the jittered target angle of slice `idx` puts slice `idx` under the pointer |
| `Wheel.LandsOnTarget` | src/app/page.tsx:156-161 | after a spin towards slice `idx`, slice `idx` is the one under the pointer |
| `Wheel.AlwaysLandsOnFreeSpinOrTwenty` | src/app/page.tsx:148-161 | whatever the draws and the starting rotation, the wheel comes to rest on a "free" or "20" slice, and on a "20" slice after a free spin |
| `SpinWheelComponent.SpinWheel.constructor` | src/app/page.tsx:110-141 | a mount starts hidden, idle, at rotation 0, with no result and no free spin; it installs the scroll trigger exactly when the done flag is absent |
| `SpinWheelComponent.SpinWheel.OnScroll` | src/app/page.tsx:132-137 | an installed trigger shows the pop-up and removes itself once `scrollY > innerHeight * 0.5`; with no trigger nothing changes |
| `SpinWheelComponent.SpinWheel.Spin` | src/app/page.tsx:143-161 | while spinning nothing changes; otherwise it sets `spinning`, clears `result`, captures the rigged target and sets the rotation to the next rotation, 1800 to 2880 degrees further on with the target under the pointer; the other fields are unchanged |
| `SpinWheelComponent.SpinWheel.SettleSpin` | src/app/page.tsx:163-172 | `spinning` becomes false; a "free" slice sets `hadFreeSpin` and `result = "free"` and leaves the done flag alone; any other slice sets `result = "20"` and the done flag; the result is the slice under the pointer |
| `SpinWheelComponent.SpinWheel.Close` | src/app/page.tsx:175-178 | hides the pop-up and sets the done flag; a pop-up that was on screen has no trigger left to show it again |
| `SpinWheelComponent.SpinWheel.CopyCode` | src/app/page.tsx:180-182 | marks the code as copied |
| `SpinWheelComponent.SpinWheel.CopiedExpired` | src/app/page.tsx:183 | the copy timer clears the copied mark |
| `SpinWheelComponent.FreeSpinThenDiscount` | src/app/page.tsx:132-172 | on a first visit, scrolling past half a screen shows the pop-up; a spin that grants a free spin and then the spin it allows announce "free", then "20", and the done flag ends up set |
| `SpinWheelComponent.ReturningVisitStaysHidden` | src/app/page.tsx:128-141 | with the done flag already stored, no sequence of scrolls, spins, completions, closes or copies ever shows the pop-up |
| `Storefront.PrevImage` | src/app/page.tsx:757 | the left arrow stays within the 12 images and equals `(i + 11) % 12` |
| `Storefront.NextImage` | src/app/page.tsx:766 | the right arrow stays within the 12 images and equals `(i + 1) % 12` |
| `Storefront.ArrowsUndoEachOther` | src/app/page.tsx:757-766 | next after previous, and previous after next, return to the same image |
| `Storefront.AdvanceIsModular` | src/app/page.tsx:766 | `k` presses of the right arrow move to image `(i + k) % 12` |
| `Storefront.FullCycle` | src/app/page.tsx:766 | twelve presses of the right arrow come back to the starting image |
| `Storefront.ToggleFaq` | src/app/page.tsx:1035 | after a click on question `i`, question `k` is open exactly when `k == i` and `i` was not open; nothing is open exactly when `i` was open |
| `Storefront.ToggleTwice` | src/app/page.tsx:1035 | two clicks on the same question restore the accordion when it was closed or showed that question |
| `Storefront.Home.constructor` | src/app/page.tsx:302-303 | the page starts on the first image with no FAQ answer open |
| `Storefront.Home.ShowPrevious` | src/app/page.tsx:757 | the selected image becomes `PrevImage` of the old one |
| `Storefront.Home.ShowNext` | src/app/page.tsx:766 | the selected image becomes `NextImage` of the old one |
| `Storefront.Home.SelectImage` | src/app/page.tsx:785 | a thumbnail click selects that image |
| `Storefront.Home.ClickFaq` | src/app/page.tsx:1035 | the open question becomes `ToggleFaq` of the old one |

## Left out

- Markup, Tailwind classes, CSS transitions, the conic-gradient drawing (except the slice geometry read off it in `Wheel.SegmentAt`) and the `Confetti` component, whose `Math.random` calls only place decorations.
- Timing: the 4500 ms and 2000 ms `setTimeout` delays. Each delayed callback is its own method (`SettleSpin`, `CopiedExpired`), and the model does not order them against other events.
- Floating point: angles and draws are exact reals, so IEEE-754 rounding in `offset`, `diff` and the growing `rotation` is not modelled.
- The distribution of `Math.random()`: the draws are arbitrary reals in [0, 1). The model states which draws give a free spin (`freeRoll < 0.35`) but proves nothing about probabilities.
- When a free spin was already granted, `spin()` skips the 35% draw, because its `&&` short-circuits (src/app/page.tsx:150), so its later `Math.random()` calls shift by one. The model takes the four draws as separate parameters and ignores `freeRoll` in that case.
- `setRotation((prev) => ...)` is a functional update. The model uses the rotation the handler read, which is the same value because nothing else writes the rotation.
- The UI gating of the handlers: they render only while `show` holds, the spin button is disabled while spinning, and it is hidden once 20% off is won. The model's methods can be called in any state, and the invariants hold regardless.
- `typeof window === "undefined"` (server-side rendering), the scroll listener's removal on unmount, `navigator.clipboard.writeText("SPIN20")` in `copyCode`, and the `IntersectionObserver` of `FadeInSection`: these are browser APIs with no logic of their own.
- `SwipeSlider`'s active-index tracking depends on DOM measurements and float rounding.
- The chat widget (`useChat`, message rendering, form submit) and src/app/api/chat/route.ts: a pass-through to a hosted language model with a constant system prompt.
- src/app/terms/page.tsx and src/app/privacy/page.tsx: static markup only.
