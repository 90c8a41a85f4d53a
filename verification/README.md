# RB Group Solutions landing page — a Dafny model of its interactive core

The landing page is static markup and translation text around four small pieces of
logic. This project models those four pieces and proves what they promise:

- **Quick-launcher** (`CommandK`, module `CommandK`): a case-insensitive, order-preserving
  substring filter over the `{label, href, icon, desc}` entries, and the open/closed state
  that Ctrl/Meta+K toggles, Escape clears and picking an entry clears. The palette's state
  cells are the class `CommandK.Palette`.
- **Tilt card** (`Tilt`, module `Tilt`): the linear map from the pointer's normalised
  position to the two rotation angles and the spotlight, the one-slot "scheduled frame"
  that each move replaces, and `reset`, which zeroes the rotation but does not cancel the
  scheduled frame. The event semantics is the function `Tilt.Apply`; the class
  `Tilt.TiltCard` holds the same state as fields, and each handler is proved to perform
  exactly `Apply`.
- **Particle background** (`TechBG`, module `TechBG`): the particle array (class
  `TechBG.Field`, an `array<Particle>`) that `init` replaces with 80 fresh particles, that
  each frame advances in place (move, bounce, pointer push), and the nested `i < j` pass
  that picks the lines and their opacity. The pass returns the lines instead of drawing
  them.
- **Page state** (`App`, module `App`): the language read from the "rb_lang" storage entry
  (default "es") and written back on mount and on every change, the first render that
  fails for a language the translation table lacks, the meta-description choice, the
  mobile-menu toggle, the "scrolled" header threshold, the anchor-click handler with its
  clamped scroll offset, and the pricing plans gaining their `cta`.

`Strings` holds ASCII lower-casing, `includes` and `startsWith`; `Wrappers` holds `Option`.

src/App.jsx also carries inline copies of the three widgets (src/App.jsx:9-120, 123-169,
211-270). They behave the same as the component files, except that the inline particle
background also removes its resize listener; each widget is modelled once.

Points where the code does something other than its own comments or a reader might expect;
the model follows the code:

- The pointer *pushes particles away*, although the comment above the push says "leve
  atracción al mouse" (slight attraction to the mouse, src/components/TechBG.jsx:55). The
  code adds `0.003 * (p - mouse)` to a particle within 140 px
  (src/components/TechBG.jsx:56-62), so the particle ends 1.003 times as far from the
  pointer.
- The palette closes on Escape, on the hotkey and on picking an entry. The backdrop `div`
  has no click handler (src/components/CommandK.jsx:27), so clicking outside the list
  leaves it open.
- A stored language other than "en" or "es" is accepted as it is
  (src/App.jsx:290-292). The table lookup `{en, es}[language]` then has no entry
  (src/App.jsx:457, `App.Table` returns `None`), and the first render fails reading
  `t.menu.home` (src/App.jsx:460). No effect runs, so the bad value is never overwritten
  and every later load fails the same way; `App.Page.mounted` is false for such a value.
  See "## Findings".

## Model

| member | source | states |
|---|---|---|
| `Strings.Lower` | src/components/CommandK.jsx:8-9 | lower-casing keeps the length and lowers each character on its own |
| `Strings.LowerIdempotent` | src/components/CommandK.jsx:8-9 | lower-casing twice is the same as lower-casing once |
| `Strings.Includes` | src/components/CommandK.jsx:9 | `includes` holds exactly when the query occurs at some index of the label |
| `Strings.StartsWith` | src/App.jsx:321 | `startsWith(p)` holds exactly when `p` is a prefix of the string, and then the string includes `p` |
| `CommandK.Filter` | src/components/CommandK.jsx:7-10 | the list is no longer than `links`, and every listed entry is one of `links` whose label matches |
| `CommandK.FilterEmptyQuery` | src/components/CommandK.jsx:8-9 | the empty query lists every entry in the original order |
| `CommandK.FilterIsSubsequence` | src/components/CommandK.jsx:9 | the list is an order-preserving subsequence of `links` |
| `CommandK.FilterCount` | src/components/CommandK.jsx:9 | each entry appears as often as in `links` when it matches and not at all otherwise |
| `CommandK.FilterMembership` | src/components/CommandK.jsx:8-9 | an entry is listed exactly when it is in `links` and its lower-cased label contains the lower-cased query |
| `CommandK.FilterIdempotent` | src/components/CommandK.jsx:8-9 | filtering the list again with the same query changes nothing |
| `CommandK.FilterIgnoresQueryCase` | src/components/CommandK.jsx:8 | the query's case is irrelevant: `Filter(L, q) == Filter(L, lower(q))` |
| `CommandK.SuiteExample` | src/App.jsx:489-494 | with the page's three entries, "field" lists only "RB Field360" and "RB" lists all three in order |
| `CommandK.Render` | src/components/CommandK.jsx:24-57 | nothing is shown exactly when closed; "Sin resultados" exactly when open and no label matches; otherwise the non-empty filtered list |
| `CommandK.HotkeyKeys` | src/components/CommandK.jsx:14 | the hotkey is Ctrl or Meta with key "k" or "K", and is never Escape |
| `CommandK.NextOpen` | src/components/CommandK.jsx:13-19 | Escape closes; Ctrl/Meta with "k" or "K" flips `open`; any other key leaves it |
| `CommandK.HotkeyTwice` | src/components/CommandK.jsx:14-17 | two hotkey presses restore the previous state |
| `CommandK.EscapeIdempotent` | src/components/CommandK.jsx:18 | Escape closes from either state, and a second Escape changes nothing |
| `CommandK.Palette.constructor` | src/components/CommandK.jsx:5-6 | the palette mounts closed with an empty query |
| `CommandK.Palette.OnKey` | src/components/CommandK.jsx:13-19 | `open` becomes `NextOpen(old open, key)`, the default is suppressed exactly for the hotkey, the query is untouched |
| `CommandK.Palette.OnInput` | src/components/CommandK.jsx:33 | the query becomes the input's value and `open` is untouched |
| `CommandK.Palette.Pick` | src/components/CommandK.jsx:39-46 | picking the i-th listed entry yields its `href` and closes the palette, keeping the query |
| `CommandK.Palette.SetLinks` | src/components/CommandK.jsx:4-10 | a new `links` prop keeps `open` and `q` |
| `Tilt.RotateX` | src/components/Tilt.jsx:16 | centre gives 0, the top edge gives +10, positions in [0,1] give angles in [-10,10], positive exactly above the centre |
| `Tilt.RotateY` | src/components/Tilt.jsx:17 | centre gives 0, the left edge gives -10, positions in [0,1] give angles in [-10,10], positive exactly right of the centre |
| `Tilt.RotationMirror` | src/components/Tilt.jsx:16-17 | mirroring the position (`1 - p`) negates the angle |
| `Tilt.SampleAt` | src/components/Tilt.jsx:13-17 | `px`, `py` are the offsets over width and height, in [0,1] inside the box; `rx` depends only on `py`, `ry` only on `px`; the box centre gives no rotation |
| `Tilt.MovesCoalesce` | src/components/Tilt.jsx:18-19 | after any number of moves exactly one update is scheduled, the latest move's, and nothing visible changed |
| `Tilt.FrameApplies` | src/components/Tilt.jsx:19-23 | the frame writes the scheduled rotation and spotlight `px*100`, `py*100`, and leaves nothing scheduled |
| `Tilt.MoveLeaveFrame` | src/components/Tilt.jsx:18-27 | move, leave, frame ends with the move's rotation applied, since `reset` does not cancel the frame |
| `Tilt.CentreIsFlat` | src/components/Tilt.jsx:14-22 | a move to the box centre followed by its frame gives zero rotation and a 50%/50% spotlight |
| `Tilt.LeaveResetsRotationOnly` | src/components/Tilt.jsx:25-27 | leaving sets both rotations to 0 and keeps `--mx`, `--my` and the scheduled frame |
| `Tilt.TeardownCancels` | src/components/Tilt.jsx:33 | after teardown the scheduled frame never lands |
| `Tilt.TiltCard.constructor` | src/components/Tilt.jsx:8-10 | mounted with nothing scheduled and no transform or spotlight set |
| `Tilt.TiltCard.OnMove` | src/components/Tilt.jsx:12-24 | the handler replaces the scheduled update by this move's sample and changes nothing else |
| `Tilt.TiltCard.OnFrame` | src/components/Tilt.jsx:19-23 | the callback performs `Apply(_, Frame)` |
| `Tilt.TiltCard.OnLeave` | src/components/Tilt.jsx:25-27 | `reset` performs `Apply(_, Leave)` |
| `Tilt.TiltCard.Teardown` | src/components/Tilt.jsx:30-34 | the cleanup cancels the scheduled update |
| `TechBG.Rand` | src/components/TechBG.jsx:13 | for a draw in [0,1), `rand(a, b)` lies in [a, b], below `b` when `a < b` |
| `TechBG.Spawn` | src/components/TechBG.jsx:30-35 | a new particle lies in [0,w)×[0,h) (or on 0 for an empty side) with both velocity components in [-0.5, 0.5) |
| `TechBG.Advance` | src/components/TechBG.jsx:49-62 | a frame never changes the magnitude of either velocity component |
| `TechBG.BounceOnlyAtEdges` | src/components/TechBG.jsx:52-53 | a velocity component is negated exactly when the advanced coordinate is < 0 or > the side, and kept otherwise |
| `TechBG.PushScalesOffset` | src/components/TechBG.jsx:56-62 | a particle within 140 px of the pointer ends 1.003 times its offset from the pointer; otherwise it stays at the advanced position |
| `TechBG.SentinelPushesNothing` | src/components/TechBG.jsx:25 | with the pointer at (-9999, -9999), a particle with x or y above -9859 is not pushed |
| `TechBG.Opacity` | src/components/TechBG.jsx:76-81 | opacity is 0.3 at distance 0, in (0, 0.3] within range, 0 at the range |
| `TechBG.OpacityDecreasing` | src/components/TechBG.jsx:77 | opacity strictly decreases with squared distance |
| `TechBG.LinesExact` | src/components/TechBG.jsx:71-86 | a line is drawn exactly for a pair `i < j` with squared distance below 14400, with opacity `(1 - d/14400)·0.3` |
| `TechBG.LinesOnceEach` | src/components/TechBG.jsx:71-72 | lines come in strictly increasing (i, j) order, so each pair is visited once |
| `TechBG.Field.constructor` | src/components/TechBG.jsx:97 | `resize(); init()` with the pointer at the sentinel leaves 80 spawned particles |
| `TechBG.Field.Init` | src/components/TechBG.jsx:27-36 | the particles are replaced by exactly 80 fresh ones, the k-th built from draws 4k..4k+3 |
| `TechBG.Field.Resize` | src/components/TechBG.jsx:98 | a resize takes the new size and replaces every particle |
| `TechBG.Field.OnMouse` | src/components/TechBG.jsx:91-95 | the pointer becomes the event position relative to the canvas |
| `TechBG.Field.Step` | src/components/TechBG.jsx:44-89 | every particle is advanced in place, the count and the speed bound 0.5 are kept, and the returned lines are `Lines` of the new positions |
| `TechBG.Field.PairPass` | src/components/TechBG.jsx:71-86 | the nested `i < j` loops return exactly `Lines` of the current particles |
| `App.Code` | src/App.jsx:500-507 | the EN button stores "en" and the ES button "es" |
| `App.InitialLanguage` | src/App.jsx:290-292 | the stored value when it is a non-empty string, otherwise "es"; never empty |
| `App.Table` | src/App.jsx:457 | the English table exactly for "en", the Spanish table exactly for "es", none otherwise |
| `App.MetaDescription` | src/App.jsx:307-310 | the English description exactly when the language is "en", and it agrees with the table |
| `App.ChoiceSurvivesReload` | src/App.jsx:290-305 | a language chosen and stored is the one the next load starts with |
| `App.FirstVisitIsSpanish` | src/App.jsx:290-292 | with nothing stored the page and its description are Spanish |
| `App.WithCta` | src/App.jsx:481 | same length and order as the plans; each card keeps name, price and items and gains the `cta` |
| `App.PlanCards` | src/App.jsx:481 | a missing plan list renders no plan; otherwise each plan gains the `cta` |
| `App.ScrollTarget` | src/App.jsx:325-326 | the target is `max(top + scrollY - (headerH + 12), 0)`, never negative, with a missing header counted as 0 |
| `App.HandleClick` | src/App.jsx:317-327 | the handler scrolls exactly for an `A` whose href starts with "#" and resolves to an element, and to that element's clamped target |
| `App.Page.constructor` | src/App.jsx:288-305 | the initial language; the first render succeeds exactly when the table has that language; only then is `scrolled` taken from the current offset and the language written back, otherwise storage is left as it was |
| `App.Page.OnScroll` | src/App.jsx:297 | `scrolled` holds exactly when the offset exceeds 20 |
| `App.Page.ToggleMenu` | src/App.jsx:533 | the menu button flips `isMenuOpen` |
| `App.Page.SetLanguage` | src/App.jsx:304-305 | the chosen code becomes the language; it is written back under "rb_lang" only when it differs from the previous language and storage accepts the write |
| `App.Page.OnClick` | src/App.jsx:316-332 | the click does what `HandleClick` says, and a handled anchor closes the menu |
| `App.ReloadAfterChoosingEnglish` | src/App.jsx:290-305 | on a page that mounted, choosing English and loading again starts in English |
| `App.BadValueStaysBroken` | src/App.jsx:290-305 | with "fr" stored, the first render fails, and so does the render of the next load |
| `App.SafeInitialLanguage` | src/App.jsx:290-292 | a start language that falls back to "es" for any value the table lacks always has a table, and agrees with the code whenever the code's value has one |

## Left out

- Drawing: `clearRect`, the particle arcs, the line strokes, the `hsla` colour strings and
  the `hue(t)` sine (src/components/TechBG.jsx:39-42, 64-67). The line pass returns the
  lines with their opacity instead.
- Animation scheduling: `requestAnimationFrame` and `cancelAnimationFrame`. A TechBG frame
  is one call of `Step`; a Tilt frame is the `Frame` event, and the frame handle is the
  `pending` option.
- Canvas sizing: `devicePixelRatio`, `Math.round` of the backing size and `setTransform`
  (src/components/TechBG.jsx:17-24). The size reaches the model as `w` and `h`.
- Listener registration and removal. The particle background in src/components/TechBG.jsx
  never removes its resize listener (lines 98 and 101-104); this leak is not modelled.
- `Math.random` is replaced by a supplied sequence of draws in [0, 1); `Math.hypot(dx, dy) < 140`
  by `dx² + dy² < 19600`; JavaScript doubles by exact reals.
- `toLowerCase` is modelled on ASCII letters only; other characters are left unchanged.
- The query `q` is always a string in the component, so `q || ""` is the identity and is
  not modelled separately.
- Opening the picked `href` in a new browsing context, and the input's `autoFocus`:
  `Pick` returns the `href`.
- Storage, DOM and window effects: `localStorage` is the `Option<string>` entry "rb_lang";
  a refused write is the `writable` flag. A `getItem` that throws, and the `typeof window`
  check, are not modelled. `document.title`, `setMeta` and `window.scrollTo` become the
  values `MetaDescription` and `HandleClick` return.
- `document.querySelector`: a map from selector to the element's box top; an unresolved
  or invalid selector is treated as no element.
- StatsBar (src/components/StatsBar.jsx and its inline copy): a floating-point cosine
  easing driven by animation timestamps.
- Static content: translation strings, markup, FAQ, pricing copy, URLs, and the contact
  form's `alert`.
- No bound on particle positions is claimed: the pointer push can carry a particle past an
  edge, and a particle outside can flip its velocity on several frames in a row.
- The listeners of a page whose first render failed: `OnScroll`, `ToggleMenu`,
  `SetLanguage` and `OnClick` require `mounted`, because such a page registers none.
- Tilt.SampleAt: requires a box of positive width and height; a zero-sized box would give
  JavaScript's Infinity or NaN, which the real-valued model cannot express.
- Tilt.TiltCard.OnMove: requires a box of positive width and height, for the same reason.

## Findings

| source | as written | input that shows it | evidently intended | confidence | as-written member | corrected member |
|---|---|---|---|---|---|---|
| src/App.jsx:290-292, 457-460 | any non-empty stored "rb_lang" value becomes the language; one the table lacks makes the first render throw, before the effect that would overwrite it | "rb_lang" = "fr" | an unknown stored value falls back to "es" | not executed | `App.BadValueStaysBroken` | `App.SafeInitialLanguage` |
