# Scene navigation of the "coming soon" film page

The site is one client-rendered page, the `Home` component of `app/page.tsx`.
It pages through a fixed, bundled list of film scenes. Each scene has a title, a description, cinematography notes, mood, a colour palette and optional dialogue. The page offers Previous/Next buttons, one position dot per scene, and a toggle between the single-scene view and a full-script view. In the full-script view, clicking a scene summary jumps to that scene.

This project models the only stateful part of the page: the current scene index and the view flag, the five click handlers that change them, and the values the page derives from them.

- `scene_data.dfy` (module `SceneData`): the scene record and the rule for when the dialogue block is rendered.
- `format.dfy` (module `Format`): `String(n).padStart(2, '0')`, the scene-number label. It comes with a decimal reader, used to prove that the label can be read back as the number.
- `navigation.dfy` (module `Navigation`): the presentation state as a value.
  - `Step` gives one transition per click. `Run` applies a sequence of clicks.
  - It also defines the disabled flags, the "Scene k / N" counter, and which controls the page offers in each state.
  - Lemmas show that the index stays in `0..N-1`, that the toggle and the boundaries behave as the page promises, and that there is no wrap-around.
- `home.dfy` (module `Page`): class `Home`.
  - It has the immutable `scenes` store and the two fields `currentScene` and `showScript`.
  - There is one method per handler. Each method states its new fields and that the new state is `Step` of the old state.

The store of scenes is a parameter of the constructor and must hold at least one scene. With an empty store, the expression `scenes[0]` that renders the page would be undefined.

## Model

| member | source | states |
|---|---|---|
| `Page.Home.constructor` | app/page.tsx:8-9 | The page mounts on index 0 in single-scene view, over a store of at least one scene, with the invariant `0 <= currentScene < N` established |
| `Page.Home.HandleNext` | app/page.tsx:11-15 | Advances the index by exactly 1 when it is below N-1 and leaves it unchanged at N-1. It touches nothing else, keeps the invariant, and equals `Step(old, Next)` |
| `Page.Home.HandlePrev` | app/page.tsx:17-21 | Decreases the index by exactly 1 when it is above 0 and leaves it unchanged at 0. It touches nothing else, keeps the invariant, and equals `Step(old, Prev)` |
| `Page.Home.SelectDot` | app/page.tsx:221-224 | Clicking dot `idx` (one dot per scene) sets the index to exactly `idx`, whatever it was. The view is untouched |
| `Page.Home.ToggleScript` | app/page.tsx:32-33 | Flips `showScript` and leaves the index unchanged |
| `Page.Home.SelectScene` | app/page.tsx:246-253 | Clicking summary `idx` sets the index to `idx` and leaves the full-script view in the same transition |
| `Navigation.PrevDisabled` | app/page.tsx:215 | Previous is disabled exactly when `handlePrev` would be a no-op. When it is enabled, a click moves back exactly one scene |
| `Navigation.NextDisabled` | app/page.tsx:233 | Next is disabled exactly when `handleNext` would be a no-op. When it is enabled, a click moves on exactly one scene |
| `Navigation.Counter` | app/page.tsx:39 | The displayed counter k in "Scene k / N" is the index plus one, so it lies in `1..N`. It is 1 exactly when Previous is disabled and N exactly when Next is disabled |
| `Navigation.AvailableClicksTakeEffect` | app/page.tsx:213-237 | A click on a rendered, enabled Next or Previous button always moves by exactly one scene. Choosing a summary, which is offered only in full-script view, always returns to single-scene view |
| `Navigation.Step` | app/page.tsx:11-253 | The five handlers as one transition per click. With indices drawn from the store, every click maps an in-range index to an in-range index. Next, Previous and a dot keep the view, and Next and Previous move by at most one. The toggle flips the view without moving the index. A summary click always ends in single-scene view |
| `Navigation.Available` | app/page.tsx:32-253 | The controls the page renders and enables: the toggle always; Next, Previous and the dots only in single-scene view, with the buttons only when not disabled; the summaries only in full-script view. An offered control only carries an index of the store, and an offered Next or Previous click always changes the state |
| `Page.Home.CurrentScene` | app/page.tsx:23 | Under the invariant, the displayed scene is always defined, is a scene of the store, and is the k-th scene when the counter reads "Scene k / N" |
| `Navigation.RunInRange` | app/page.tsx:11-253 | Any sequence of next, prev, dot, toggle and summary clicks keeps `0 <= currentScene < N` for N >= 1 |
| `Navigation.ReachableInRange` | app/page.tsx:8 | Every state reached from mount satisfies `0 <= currentScene < N` |
| `Navigation.ToggleTwice` | app/page.tsx:33 | The toggle flips the view, toggling twice restores the state, and the index is never changed by it |
| `Navigation.NextRepeated` | app/page.tsx:12 | Pressing Next k times from index i shows index `min(i + k, N - 1)`: it saturates at the last scene, with no wrap-around |
| `Navigation.PrevRepeated` | app/page.tsx:18 | Pressing Previous k times from index i shows index `max(i - k, 0)`: it saturates at the first scene, with no wrap-around |
| `Navigation.ThreeSceneWalk` | app/page.tsx:11-21 | With three scenes, Next, Next, Next, Previous from mount ends at index 1 in single-scene view. The third Next is inert |
| `Format.NumberToString` | app/page.tsx:66 | `String(n)` for an integer below 10^21 in magnitude is non-empty, begins with '-' exactly for negative n, and otherwise consists only of decimal digits. The digits never have a leading zero unless the number is 0 |
| `Format.Digits` | app/page.tsx:256 | The decimal digits of n have no leading zero and are a single digit exactly when n < 10 |
| `Format.PadStart` | app/page.tsx:66 | `padStart(width, fill)` keeps the string as its suffix, fills only the prefix with `fill`, and has length `max(|s|, width)` |
| `Format.SceneLabel` | app/page.tsx:66 | The scene label is at least 2 long and ends with the decimal digits of the number. For n >= 0 it has a leading '0' exactly when n is a single digit, and it is exactly 2 long exactly when n < 100 |
| `Format.PadZerosRoundTrip` | app/page.tsx:256 | Zero-padding a digit string never changes the number it reads as |
| `Format.NumberToStringRoundTrip` | app/page.tsx:256 | Reading `String(n)` back as a decimal gives n, for every integer below 10^21 in magnitude |
| `Format.SceneLabelRoundTrip` | app/page.tsx:66 | The padded label loses nothing: reading it back gives the scene number, for every integer below 10^21 in magnitude |
| `SceneData.DialogueSection` | app/page.tsx:180-197 | The dialogue block is rendered exactly when `dialogue` is present and non-empty. When rendered, it lists all of the scene's lines in order and is never empty |
| `SceneData.DialogueShownIffLines` | app/page.tsx:180 | A missing dialogue field and an empty one are treated alike: the block is omitted exactly when the scene has no lines, and otherwise shows exactly those lines |

## Left out

- Markup, CSS classes and Tailwind styling. They are presentation only.
- framer-motion animation (`AnimatePresence`, `motion.div`, opacity, offsets, delays). This is a foreign library with timing behaviour and floating-point values.
- Loading `@/data/film-script.json`. That file is not part of this model. The store is a constructor parameter, and at least one scene is a precondition.
- React's scheduling and batching of `useState` updates. Each handler is one atomic transition, so the two setters of the summary click take effect together.
- The colour-palette swatches and the `join(', ')` text. They are display-only, and the colours are CSS values.
- The rendering of the full-script summaries and of the scene's other text fields. These are plain field reads with no rule attached.
- `Format.NumberToString`: covers integer scene numbers below 10^21 in magnitude only, where JavaScript prints the plain decimal form. It does not model the JavaScript conversion of other numbers: fractional, non-finite or missing ones, integers of magnitude 10^21 and above (printed in exponential notation, e.g. `"1e+21"`), or integers beyond 2^53 (which a double does not hold exactly). `Format.NumberToStringRoundTrip` and `Format.SceneLabelRoundTrip` are claimed only for the same range.
- `Page.Home.SelectDot` and `Page.Home.SelectScene`: require `idx` to be an index of the store. The page creates these click handlers only for the indices of `scenes.map`, so no other index reaches them.
- Layout metadata (`app/layout.tsx`) and build configuration (`tailwind.config.js`). These are not part of the model.
