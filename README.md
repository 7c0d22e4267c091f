# Portfolio interaction logic in Dafny

This project models the interactive logic of a React portfolio site and proves properties of it. The site's sections are mostly markup and library-driven animation. Underneath are a few small event-driven state machines and arithmetic rules, and those are what is modelled:

- the drag-to-rotate 3D business card, with its click gate, 30 fps frame gate and per-frame easing;
- the testimonial carousel;
- the navigation bar's scroll-spy, progress bar and mobile menu;
- the scroll-driven laptop scene;
- the project detail modal;
- the skill category selector;
- the contact form.

Each component is one module. A component's state (its `useState` values and the refs its handlers write) is a `class`. Its event handlers are methods with `modifies` clauses, and each method's `ensures` ties the new state to pure functions. The pure rules are functions with contracts: the pitch clamp, the exponential approach, `smoothstep`, the phase choice, the scroll-spy `find`, the modular index arithmetic and the field update. Lemmas relate several steps: whole drags, repeated frames, full turns of the carousel, monotonicity and the round trip of input names.

JavaScript numbers are modelled as `real` for coordinates, angles, times and ratios, and as `int` for indices. π is an abstract constant known only to lie strictly between 3.14 and 3.15 (`JsMath.PiValue`). JavaScript's `%` is modelled as a truncating remainder (`JsMath.JsRem`). Browser events, timers and observers are method calls. Values the browser supplies, such as `Math.sin` results, element rectangles, viewport sizes and whether a node is mounted, are parameters.

Modules:
- `wrappers.dfy`: `Option`.
- `jsmath.dfy`: `Math.max`/`Math.min`, π, `%`, and small lemmas about real multiplication and division.
- `golden_visiting_card.dfy`: the business card.
- `testimonials.dfy`: the carousel.
- `navbar.dfy`: the navigation bar.
- `scroll_laptop_scene.dfy`: the laptop scene.
- `projects.dfy`: the project modal.
- `skills.dfy`: the skill selector.
- `contact.dfy`: the contact form.

Observations the proofs bring out:
- **The card's click gate never blocks a click that follows a release.** The browser fires `mousedown`, `mouseup` and then `click`. `mouseup` has already cleared `isDown` by the time `handleClick` checks it, so every press-and-release opens the modal, including one with a drag in between. The check only matters for a click that would arrive while the button is still down. The model follows the code, and `GoldenVisitingCard.DragThenClickOpensModal` proves that a drag followed by a click opens the modal.
- **The laptop scene has no zoom phase.** All three phase boundaries are 0.1, so the `'zoom'` branch can never be taken (`ScrollLaptopScene.PhaseOf`). The zoom and enter ramps are `smoothstep(0.1, 0.1, x)`, which divides by zero. After the clamp it is 0 below 0.1 and 1 above it, so the camera jumps from z = 4 straight to z = 0.7 (`ScrollLaptopScene.PoseAt`).
- **A testimonial without a rating shows no stars.** The third testimonial has no `rating`, so `Array.from({ length: undefined })` is empty (`Testimonials.StarsShown`).

## Model

| member | source | states |
|---|---|---|
| JsMath.Max | src/components/GoldenVisitingCard.jsx:436 | `Math.max` is an upper bound of both arguments and equals one of them |
| JsMath.Min | src/components/GoldenVisitingCard.jsx:436 | `Math.min` is a lower bound of both arguments and equals one of them |
| JsMath.JsRem | src/sections/Testimonials.jsx:51 | JavaScript `%` with a positive divisor: the Euclidean remainder in [0, n) for a non-negative dividend; for a negative one a value in (-n, 0], namely 0 when n divides the dividend and the Euclidean remainder minus n otherwise |
| GoldenVisitingCard.ClampPitch | src/components/GoldenVisitingCard.jsx:436 | the clamped pitch lies in [-π/3, π/3], is the input when it is in range, and saturates at the bound it crossed |
| GoldenVisitingCard.MouseDown | src/components/GoldenVisitingCard.jsx:421-425 | a press sets the pressed flag and anchors the pointer at the event position, leaving pitch and yaw untouched |
| GoldenVisitingCard.MouseMove | src/components/GoldenVisitingCard.jsx:427-441 | a move while released changes nothing; while pressed it re-anchors the pointer, adds exactly 0.01·dx to the yaw without clamping, sets the pitch to the clamp of the old pitch plus 0.01·dy, which lies in [-π/3, π/3] and is exactly that sum when it stays in range |
| GoldenVisitingCard.Release | src/components/GoldenVisitingCard.jsx:443-445 | a release (mouseup, and the mouse-leave handler at lines 459-462) clears only the pressed flag: pointer, pitch and yaw are kept |
| GoldenVisitingCard.MovesWhileReleasedChangeNothing | src/components/GoldenVisitingCard.jsx:427-441 | any sequence of moves with the button up leaves target rotation and stored pointer unchanged |
| GoldenVisitingCard.ReleaseThenMoves | src/components/GoldenVisitingCard.jsx:427-445 | after a release, any sequence of moves leaves the drag state exactly as the release left it |
| GoldenVisitingCard.DragYawTelescopes | src/components/GoldenVisitingCard.jsx:427-441 | over any sequence of moves while pressed, the yaw grows by 0.01 times the net horizontal travel from the anchor, the pointer ends at the last position and the pitch is clamped |
| GoldenVisitingCard.GestureYaw | src/components/GoldenVisitingCard.jsx:421-441 | a press at x0 followed by moves ending at xn changes the yaw by exactly 0.01·(xn − x0) and leaves the pitch in [-π/3, π/3] |
| GoldenVisitingCard.PitchStaysClamped | src/components/GoldenVisitingCard.jsx:436 | a pitch that starts in the clamp stays there through any sequence of moves |
| GoldenVisitingCard.Approach | src/components/GoldenVisitingCard.jsx:480-481 | one worked frame leaves a gap of 0.95 times the previous gap, and the value never overshoots the target in either direction |
| GoldenVisitingCard.SettleGap | src/components/GoldenVisitingCard.jsx:479-499 | after n worked frames towards a fixed target the gap is 0.95^n times the initial gap and the value stays between start and target |
| GoldenVisitingCard.GatedSpread | src/components/GoldenVisitingCard.jsx:466-477 | in a history of worked frames, frames i and j are at least (j − i)·1000/30 ms apart |
| GoldenVisitingCard.RendererSize | src/components/GoldenVisitingCard.jsx:83-102 | both chosen sizes are positive with aspect ratio exactly 1.6 |
| GoldenVisitingCard.RendererSizeByBreakpoint | src/components/GoldenVisitingCard.jsx:85-97 | the size is 320×200 exactly when the width is below 768 and 480×300 exactly when it is 768 or more |
| GoldenVisitingCard.HeroOpacity | src/components/GoldenVisitingCard.jsx:38-49 | the opacity is never negative and is 0 beyond the hero (twice the viewport height) |
| GoldenVisitingCard.HeroOpacityInRange | src/components/GoldenVisitingCard.jsx:38-49 | for a non-negative scroll offset the opacity is in [0, 1], and it is 1 at the top |
| GoldenVisitingCard.HeroOpacityVanishes | src/components/GoldenVisitingCard.jsx:40-48 | the opacity is 0 from two thirds of the hero height on, including beyond the hero |
| GoldenVisitingCard.HeroOpacityNonIncreasing | src/components/GoldenVisitingCard.jsx:38-49 | scrolling further down never increases the opacity |
| GoldenVisitingCard.CardController.constructor | src/components/GoldenVisitingCard.jsx:23-29 | refs start at zero, the modal is closed, not hovered, opacity 1, and the invariant holds |
| GoldenVisitingCard.CardController.HandleMouseDown | src/components/GoldenVisitingCard.jsx:421-425 | press and anchor the pointer; the target rotation is untouched |
| GoldenVisitingCard.CardController.HandleMouseMove | src/components/GoldenVisitingCard.jsx:427-441 | the new pointer and target are `MouseMove` of the old ones; nothing changes while released; the pitch invariant is kept |
| GoldenVisitingCard.CardController.HandleMouseUp | src/components/GoldenVisitingCard.jsx:443-445 | only the pressed flag is cleared |
| GoldenVisitingCard.CardController.HandleClick | src/components/GoldenVisitingCard.jsx:447-451 | the modal opens exactly when no press is in progress, and is otherwise left as it was |
| GoldenVisitingCard.CardController.CloseModal | src/components/GoldenVisitingCard.jsx:626 | the modal's close button closes it |
| GoldenVisitingCard.CardController.HandleMouseEnter | src/components/GoldenVisitingCard.jsx:458 | entering the canvas sets the hover |
| GoldenVisitingCard.CardController.HandleMouseLeave | src/components/GoldenVisitingCard.jsx:459-462 | leaving clears the hover and also releases any press |
| GoldenVisitingCard.CardController.Animate | src/components/GoldenVisitingCard.jsx:470-499 | work happens exactly when 1000/30 ms have elapsed since `lastTime`; a skipped frame changes nothing; a worked frame records its time (keeping worked frames a frame interval apart), moves both rotations by `Approach`, bounds the roll by 0.02, and either lifts and scales the card to 1.08 (hovered) or eases lift and scale back to rest |
| GoldenVisitingCard.CardController.SetRendererSize | src/components/GoldenVisitingCard.jsx:83-103 | once mounted, the size is `RendererSize` of the width and the aspect 1.6, so a repeated call with the same width gives the same size; unmounted, nothing changes |
| GoldenVisitingCard.CardController.HandleScroll | src/components/GoldenVisitingCard.jsx:38-50 | the stored opacity is the hero rule's value and lies in [0, 1] for non-negative offsets |
| GoldenVisitingCard.DragThenClickOpensModal | src/components/GoldenVisitingCard.jsx:443-457 | mousedown, a move, mouseup, then click always leaves the modal open |
| Testimonials.Stars | src/sections/Testimonials.jsx:137 | the number of stars is the rating, and 0 when the rating is missing |
| Testimonials.StarsShown | src/sections/Testimonials.jsx:22-29 | the two rated testimonials show five stars and the unrated third shows none |
| Testimonials.Next | src/sections/Testimonials.jsx:57-59 | the next index stays in [0, length) and is i + 1, wrapping from the last to 0 |
| Testimonials.Prev | src/sections/Testimonials.jsx:61-63 | the previous index stays in [0, length) and is i − 1, wrapping from 0 to length − 1 |
| Testimonials.NextPrevInverse | src/sections/Testimonials.jsx:57-63 | next then prev, and prev then next, return the original index |
| Testimonials.Advance | src/sections/Testimonials.jsx:58 | any number of advances stays in range |
| Testimonials.AdvanceIsRotation | src/sections/Testimonials.jsx:58 | k advances move the index to (i + k) mod length |
| Testimonials.FullTurn | src/sections/Testimonials.jsx:58 | advancing `length` times is the identity |
| Testimonials.Carousel.Shown | src/sections/Testimonials.jsx:110-116 | the displayed testimonial is one of the list |
| Testimonials.Carousel.constructor | src/sections/Testimonials.jsx:33-34 | the carousel starts at index 0, not hovered, with the interval scheduled |
| Testimonials.Carousel.NextTestimonial | src/sections/Testimonials.jsx:57-59 | the index becomes `Next` of the old index and stays in range |
| Testimonials.Carousel.PrevTestimonial | src/sections/Testimonials.jsx:61-63 | the index becomes `Prev` of the old index and stays in range |
| Testimonials.Carousel.SelectDot | src/sections/Testimonials.jsx:191 | dot k sets the index to exactly k |
| Testimonials.Carousel.Tick | src/sections/Testimonials.jsx:48-55 | an auto-advance tick, which only arrives while the interval is scheduled, is the same transition as next |
| Testimonials.Carousel.MouseEnter | src/sections/Testimonials.jsx:48-55 | hovering unschedules the interval and keeps the index |
| Testimonials.Carousel.MouseLeave | src/sections/Testimonials.jsx:48-55 | leaving schedules the interval again and keeps the index |
| Navbar.IsScrolled | src/components/Navbar.jsx:25 | the bar is unscrolled exactly at offsets up to and including 50 px |
| Navbar.FirstSpanning | src/components/Navbar.jsx:35-42 | the search stops at the first id whose element spans the 100 px line; a missing element never matches; none found means no id spans it |
| Navbar.FindSection | src/components/Navbar.jsx:34-42 | a found id is a nav id whose element spans the 100 px line, and nothing is found exactly when no nav id spans it |
| Navbar.NextActive | src/components/Navbar.jsx:35-46 | the active section becomes the first spanning nav id in order, and keeps its previous value when none spans the line |
| Navbar.ScrollProgress | src/components/Navbar.jsx:29-31 | the progress is non-finite exactly when the scrollable height is 0, and otherwise times that height is 100 times the offset |
| Navbar.ScrollProgressIsPercentage | src/components/Navbar.jsx:29-31 | on a scrollable page and within its range the progress is in [0, 100], 0 at the top and 100 at the bottom |
| Navbar.NavbarState.constructor | src/components/Navbar.jsx:17-20 | menu closed, not scrolled, active section 'home', progress 0 |
| Navbar.NavbarState.HandleScroll | src/components/Navbar.jsx:24-47 | `scrolled` holds exactly when scrollY > 50, and so does the scroll-to-top button; the progress is the percentage formula; the active section follows `NextActive` and stays a nav id; the menu is untouched |
| Navbar.NavbarState.ScrollToSection | src/components/Navbar.jsx:53-59 | the menu is closed whether or not the target element exists |
| Navbar.NavbarState.ToggleMenu | src/components/Navbar.jsx:136 | the menu button flips `isOpen` |
| Navbar.NavbarState.BackdropClick | src/components/Navbar.jsx:188 | a backdrop click closes the menu |
| ScrollLaptopScene.Ease | src/three/ScrollLaptopScene.jsx:8 | the Hermite ease maps [0, 1] into [0, 1], fixing 0 and 1 |
| ScrollLaptopScene.EaseMonotone | src/three/ScrollLaptopScene.jsx:8 | the ease is non-decreasing on [0, 1] |
| ScrollLaptopScene.Ramp | src/three/ScrollLaptopScene.jsx:7 | the clamped ramp is in [0, 1], 0 at or below edge0 and 1 at or above edge1 |
| ScrollLaptopScene.Smoothstep | src/three/ScrollLaptopScene.jsx:6-9 | for edge0 < edge1 the result is in [0, 1], 0 for x ≤ edge0 and 1 for x ≥ edge1 |
| ScrollLaptopScene.SmoothstepMonotone | src/three/ScrollLaptopScene.jsx:6-9 | `smoothstep` is non-decreasing in x |
| ScrollLaptopScene.DegenerateSmoothstep | src/three/ScrollLaptopScene.jsx:46-52 | `smoothstep` with equal edges, as the zoom and enter ramps call it, is 0 or 1, and 1 exactly above the edge |
| ScrollLaptopScene.Total | src/three/ScrollLaptopScene.jsx:26 | the total is at least 1, and is the viewport height when that is at least 1 |
| ScrollLaptopScene.Progress | src/three/ScrollLaptopScene.jsx:27 | progress is clamped into [0, 1]: 0 for non-positive scroll, 1 from one total on |
| ScrollLaptopScene.PhaseOf | src/three/ScrollLaptopScene.jsx:30-35 | the phase is never 'zoom'; it is 'rotate' exactly below 0.1 and 'enter' exactly from 0.1 on |
| ScrollLaptopScene.RotationY | src/three/ScrollLaptopScene.jsx:43-44 | the laptop's rotation lies in [-π/2, 0], is -π/2 at progress 0 and 0 once progress reaches 0.1 |
| ScrollLaptopScene.CamZ | src/three/ScrollLaptopScene.jsx:48 | the camera distance lies in [1.6, 4] for a ramp in [0, 1], 4 at 0 and 1.6 at 1 |
| ScrollLaptopScene.PoseAt | src/three/ScrollLaptopScene.jsx:42-61 | the rotation lies in [-π/2, 0] and is -π/2 at progress 0; below progress 0.1 the camera is at height 0 and distance 4 with the laptop at y −0.3, and above it at height 0.4 and distance 0.7 with the laptop at y −0.2 and facing front |
| ScrollLaptopScene.LaptopRig.ApplyPose | src/three/ScrollLaptopScene.jsx:37-60 | the camera gets near/far 0.01/100 and position (0, y, z) of the pose; the laptop group gets the pose rotation and position (0, y, 0) |
| ScrollLaptopScene.LaptopRig.Frame | src/three/ScrollLaptopScene.jsx:25-61 | the reported phase is `PhaseOf` the progress; near/far are 0.01/100; camera and laptop are placed at `PoseAt` the progress |
| Projects.ProjectsSection.ModalShown | src/sections/Projects.jsx:114 | the modal renders nothing exactly when no project is active, and otherwise the active project, which is one of the five cards |
| Projects.ProjectsSection.constructor | src/sections/Projects.jsx:187 | no project is open initially |
| Projects.ProjectsSection.OpenCard | src/sections/Projects.jsx:50 | clicking card k opens exactly project k, and the modal renders it |
| Projects.ProjectsSection.OnClose | src/sections/Projects.jsx:237 | `onClose` (Close button, backdrop, Escape) clears the active project and the modal renders nothing |
| Projects.ProjectsSection.KeyDown | src/sections/Projects.jsx:106-112 | Escape closes the modal, any other key leaves it, and Escape while closed keeps it closed |
| Projects.ProjectsSection.ModalCardClick | src/sections/Projects.jsx:140 | a click inside the card that stops propagating leaves the active project as it was |
| Projects.ProjectsSection.ObserverReport | src/sections/Projects.jsx:196-200 | a not-intersecting report clears the active project; an intersecting one leaves it unchanged |
| Skills.FindIndex | src/sections/Skills.jsx:96 | `find` stops at the first category with the id, and fails exactly when no category has it |
| Skills.CategoryIdsDistinct | src/sections/Skills.jsx:5-80 | the six category ids are pairwise distinct |
| Skills.FindOwnId | src/sections/Skills.jsx:96 | looking up the id of category k finds category k itself, so the active category is unique |
| Skills.InitialCategoryExists | src/sections/Skills.jsx:83 | the initial id 'frontend' is present: the first category |
| Skills.SkillsSection.constructor | src/sections/Skills.jsx:83 | the selector starts on 'frontend', and the current category is the first one |
| Skills.SkillsSection.CurrentCategory | src/sections/Skills.jsx:96 | under the invariant the `find` never comes back undefined: the current category is one of the list and carries the active id |
| Skills.SkillsSection.Chips | src/sections/Skills.jsx:158 | the chips are exactly the skills of the category with the active id, in order |
| Skills.SkillsSection.SelectCategory | src/sections/Skills.jsx:119-122 | a category button makes that category's id active, its category current and its skills the chips, keeping the invariant |
| Contact.Set | src/sections/Contact.jsx:25-30 | the named field gets the new value and the other three keep theirs |
| Contact.InputName | src/sections/Contact.jsx:102-149 | each input carries one of the four names 'name', 'email', 'subject', 'message' |
| Contact.FieldNamed | src/sections/Contact.jsx:28 | the key an input name addresses is the field carrying that name |
| Contact.InputNamesRoundTrip | src/sections/Contact.jsx:102 | each input's `name` leads back to the form key it displays, so no input edits another field |
| Contact.ContactForm.constructor | src/sections/Contact.jsx:7-13 | all four fields start empty and no submission is running |
| Contact.ContactForm.HandleInputChange | src/sections/Contact.jsx:25-30 | the field named by the input takes the value; the other three are unchanged |
| Contact.ContactForm.StartSubmit | src/sections/Contact.jsx:32-34 | submitting sets `isSubmitting`, which disables the button, and keeps the fields |
| Contact.ContactForm.FinishSubmit | src/sections/Contact.jsx:39-41 | on completion `isSubmitting` is false and all four fields are empty |

## Left out

- Canvas texture painting for the card faces. It is random noise, gradients and text drawn on a 2D context, with no result that can be stated.
- The three.js scene: lights, materials, geometry, `renderer.render`, `dispose` and `camera.lookAt`. These are library calls whose effects are not visible here. `Animate` reports with `rendered` whether a frame reached the render call. `LaptopRig.Frame` assumes the group ref is attached.
- The first, direct `animate()` call. Its `currentTime` is undefined, so the elapsed time is NaN and the early-return test at GoldenVisitingCard.jsx:474 is false. That call does a frame of work and sets `lastTime` to undefined, so the first `requestAnimationFrame` callback also passes the gate, whatever its time. The model treats every call as a callback with a real time and starts from `lastTime == 0`. Its `Gated` history therefore describes the loop from the second callback on.
- GoldenVisitingCard.CardController.Animate: `Math.sin` is not modelled; its two values are parameters bounded by [-1, 1].
- The card effect re-running on every hover change. Re-running builds a fresh card mesh at rest and resets `lastTime` to 0, while the refs persist. Hover is read from the `isHovered` field at each frame instead.
- The asynchronous QR-code image load and its random fallback pattern. These are callbacks and randomness.
- framer-motion scroll mappings (`useScroll`/`useTransform`) and all entry animations. The interpolation happens inside the library. Projects' `containerRef` is never attached to an element, so its scroll mapping has no target at all.
- Browser scheduling. `setInterval`, `setTimeout`, `requestAnimationFrame`, IntersectionObserver and ResizeObserver are modelled only as method calls delivering their events. The 5-second period of the testimonial interval and the 2-second submit delay are not timed.
- Side effects without state: `console.log`, `alert`, `scrollIntoView` and `window.scrollTo`.
- Static content. Icons, colours, the long project descriptions and accents, the contact details and the social links are display data only.
- Floating-point rounding. Reals stand for doubles. So 1000/30, 0.05 and 0.1 are exact here, and the aspect ratio is exactly 1.6.
- ScrollLaptopScene.DegenerateSmoothstep: at x exactly on the edge the source computes 0/0, which is NaN. The model excludes that input.
- ScrollLaptopScene.PoseAt: requires a progress other than exactly 0.1, where the zoom and enter ramps are NaN and the camera position is NaN.
- ScrollLaptopScene.LaptopRig.Frame: requires a progress other than exactly 0.1, where the zoom and enter ramps are NaN and the camera position is NaN.
- Navbar.ScrollProgress: a zero scrollable height gives a non-finite percentage in JavaScript. The model represents it as `None` and does not distinguish NaN from ±Infinity.
- GoldenVisitingCard.HeroOpacity: requires a non-negative viewport height, and a positive offset when that height is 0. With a zero height and a zero offset the source computes 0/0 (NaN), and with a negative offset it computes +Infinity. A positive offset over a zero height is modelled: it stores 0.
- GoldenVisitingCard.CardController.HandleScroll: carries the same requires as `HeroOpacity`, for the same two non-finite cases.
- Projects.ProjectsSection.OpenCard: a card is identified by its index in the grid, because the cards are the five list entries.
