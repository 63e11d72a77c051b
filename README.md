# Cross-fading icon and radio button group, modelled in Dafny

This project models the two pieces of the react-native-jigsaw component library whose behaviour can be stated as rules:

- **CrossFadeIcon** (`cross_fade.dfy`, module `CrossFade`). The component keeps three pieces of state:
  - the icon it shows (`currentIcon`);
  - the icon it is fading away from (`previousIcon`, `None` for `null`);
  - one animated value, `fade`.

  `Derive` is the component's `getDerivedStateFromProps`. `Next` merges its result into the state. The class `CrossFadeIcon` holds the state: the constructor is the state initialiser, `ReceiveProps` is the derive-and-merge step, `DidUpdate` is `componentDidUpdate`, and `Update` is one whole React update cycle. `AnimatedValue` is the `Animated.Value`: `setValue` sets its value, and each `Animated.timing(...).start()` appends a request to its log. `Render` says what `render` draws for a given value of `fade`.
- **RadioButtonGroup** (`radio_group.dfy`, module `RadioGroup`). This is a pure function from the group's props to two things: the container style, and one record per option. The record holds the option's selection, colours, dividers, margins, corner radius, height, icon, label, and the label that a press passes to `onSelect`.

`optional.dfy` defines the `Option` type that both modules use for an absent value. In `CrossFade`, `None` is the `null` of `previousIcon` and of the reducer's "no update" result. In `RadioGroup`, `None` is an omitted (`undefined`) prop, the only case the defaults at RadioButtonGroup.tsx:46-47 and :60 replace.

Icon sources are values of a type parameter `I`, and Dafny's `==` on `I` stands for JavaScript's `===`. The icon module's `isValidIcon` and `isEqualIcon` are not part of this model. They are passed in as the fields of an `IconModule` record, so no lemma assumes anything about them unless its `requires` says so. The reducer compares icons by identity (`===`); `componentDidUpdate` uses `isEqualIcon`. The model keeps the two comparisons apart, as the source does. When `isEqualIcon` calls two non-identical sources equal (a look-alike), the reducer still swaps them: the old icon moves into `previousIcon`, and the fade restarts when that icon is valid and the guard does not find it equal to the old previous icon. The next real change then does not fade, because the guard finds the new previous icon equal to the one it replaces.

The rotations are the linear maps that the interpolations at src/components/CrossFadeIcon.js:73-83 declare. The previous icon turns from -90deg at fade 0 to 0deg at fade 1. The current icon turns from 0deg at fade 0 to -180deg at fade 1.

## Model

| member | source | states |
|---|---|---|
| `CrossFade.Derive` | src/components/CrossFadeIcon.js:31-40 | no update (`null`) exactly when the new source is identical to the current icon; otherwise the new source becomes current and the old current icon becomes previous, so the two differ |
| `CrossFade.Next` | src/components/CrossFadeIcon.js:31-40 | after merging, the current icon is the new source; the state is unchanged exactly when the source is identical; a change puts the old current icon in `previousIcon`; a non-null previous icon is never reset to null; distinctness of the two icons is preserved |
| `CrossFade.RunTracksLatestSource` | src/components/CrossFadeIcon.js:31-40 | after any non-empty sequence of prop updates, the current icon is the last source supplied |
| `CrossFade.RunKeepsDistinct` | src/components/CrossFadeIcon.js:36-39 | from a state whose previous icon differs from its current one, every sequence of updates keeps them different |
| `CrossFade.RunPreviousNonNull` | src/components/CrossFadeIcon.js:31-46 | after a sequence of updates the previous icon is non-null iff it was non-null before or some source differed from the starting current icon; no path resets it to null |
| `CrossFade.RunPreviousWasCurrent` | src/components/CrossFadeIcon.js:36-39 | the previous icon after a run is the starting previous icon, the starting current icon, or one of the sources supplied; it is only ever assigned a former current icon |
| `CrossFade.ThreeIconSequence` | src/components/CrossFadeIcon.js:31-40 | A -> B -> C with two real changes ends with current C and previous B |
| `CrossFade.SettledUpdateDoesNotAnimate` | src/components/CrossFadeIcon.js:48-53 | if `isEqualIcon` is reflexive, an update that leaves the previous icon as it was (in particular an identical source) starts no animation |
| `CrossFade.ChangeAnimates` | src/components/CrossFadeIcon.js:48-61 | if `isEqualIcon` is no coarser than identity and the replaced icon is valid, every real change of source from a reachable state restarts the fade |
| `CrossFade.LookAlikeSourceStillFades` | src/components/CrossFadeIcon.js:31-53 | a source not identical to the current icon but `isEqualIcon` to it still moves the current icon into `previousIcon`, and from a null previous icon the guard lets the fade restart |
| `CrossFade.ChangeAfterLookAlikeDoesNotFade` | src/components/CrossFadeIcon.js:31-53 | after such a look-alike swap, a real change of source updates the state but the guard suppresses the animation, since the new previous icon is `isEqualIcon` to the one it replaces |
| `CrossFade.AnimatedValue.SetValue` | src/components/CrossFadeIcon.js:55 | `setValue` sets the value and starts no animation |
| `CrossFade.AnimatedValue.Start` | src/components/CrossFadeIcon.js:57-60 | starting a timed animation appends exactly one request to the log, recording the value the animation starts from, and leaves the value as it is |
| `CrossFade.CrossFadeIcon.constructor` | src/components/CrossFadeIcon.js:42-46 | initial state: current icon = source, previous icon = null, a fresh `fade` at 1 with no requests |
| `CrossFade.CrossFadeIcon.ReceiveProps` | src/components/CrossFadeIcon.js:31-40 | the new state is `Next` of the old one; `fade` (a constant field) is untouched; the state invariant is kept |
| `CrossFade.CrossFadeIcon.DidUpdate` | src/components/CrossFadeIcon.js:48-61 | if the previous icon is invalid or `isEqualIcon` to the last committed previous icon, `fade` and the request log are unchanged; otherwise `fade` becomes 1 and exactly one request is appended, which starts from 1 (the reset comes before the start) and goes to 0 over 200 ms |
| `CrossFade.CrossFadeIcon.Update` | src/components/CrossFadeIcon.js:31-61 | one update cycle: the state becomes `Next` of the old state; `fade` is reset to 1 and one 200 ms request to 0, starting from 1, is logged exactly when the guard lets the animation through, and nothing else changes |
| `CrossFade.Render` | src/components/CrossFadeIcon.js:63-117 | the box is `size` x `size`; the current icon is always drawn, and the previous icon iff it is truthy; both get the component's size and colour; with a previous icon, its opacity is `fade` and the two opacities sum to 1, the previous icon's rotation is -90 + 90·fade degrees and the current icon's is -180·fade degrees (so -90/0 and 0/-180 at fade 0/1); without one, the current icon is opaque and unrotated; for fade in [0,1] all values stay in range |
| `CrossFade.RenderMonotonic` | src/components/CrossFadeIcon.js:64-83 | as `fade` grows, the previous icon's opacity and rotation grow and the current icon's opacity and rotation shrink |
| `RadioGroup.Container` | packages/react-native-jigsaw/src/components/RadioButtonGroup.tsx:67-75 | the container is a column iff direction is vertical; it centres its items iff direction is not vertical; it takes the corner radius only when the option spacing is falsy (0 otherwise); the caller's style follows it |
| `RadioGroup.OptionHeight` | packages/react-native-jigsaw/src/components/RadioButtonGroup.tsx:94-98 | the option height is the style's height when the style is given and its height is truthy, otherwise 50 |
| `RadioGroup.RadioButtonGroup` | packages/react-native-jigsaw/src/components/RadioButtonGroup.tsx:45-139 | one record per option, in input order and keyed by index; selected iff the label equals `value` (uniqueness not enforced); selected options get the active/content colours, the others the inactive/unselected ones; icon iff the option's icon is truthy, label text iff the label is truthy; each option's border colour is the border colour if truthy, else the theme's divider colour; the first option has no left divider and the last no right one, and a divider needs a truthy border colour; the horizontal margin is half the spacing exactly for a horizontal group with truthy spacing, and likewise the vertical margin for a vertical group, and it is 0 otherwise; an option takes the radius prop under truthy spacing and 0 otherwise, so the container and the options never both carry the radius |
| `RadioGroup.Press` | packages/react-native-jigsaw/src/components/RadioButtonGroup.tsx:79-85 | pressing option i calls `onSelect` with option i's label; with the default `onSelect` nothing is reported |
| `RadioGroup.DividersBetweenNeighbours` | packages/react-native-jigsaw/src/components/RadioButtonGroup.tsx:99-104 | with a truthy border colour, each boundary between neighbouring options carries the hairline width on both sides |
| `RadioGroup.MarginsFollowDirection` | packages/react-native-jigsaw/src/components/RadioButtonGroup.tsx:62-65 | an option's horizontal (vertical) margin is non-zero exactly in a horizontal (vertical) group with truthy spacing, and is then half the spacing |

## Left out

- The `Animated.timing` engine, which moves `fade` from 1 to 0 over time. Only the request is recorded; time, easing and frame updates are not modelled. `Render` is stated for one value of `fade`.
- The `Icon` component and the icon module's `isValidIcon` and `isEqualIcon`. Their source is not part of this model, so they are abstract parameters. JavaScript truthiness of an icon value is also an abstract parameter (`truthy`) of `Render`.
- `CrossFade.CrossFadeIcon.DidUpdate` does not take `prevProps`, because `componentDidUpdate` never reads it.
- The `react-lifecycles-compat` polyfill, `StyleSheet.create`, and the fixed `content`/`icon` styles (centred content, absolute fill) are framework glue.
- `RadioGroup.RadioButtonGroup` does not model `labelStyle`, `overflow: "hidden"`, the `flex: 1` style of each touchable, the fixed row/centre styles of each option, or the icon's `paddingEnd: 5` style. These are passed to the platform unchanged.
- `RadioGroup.RadioButtonGroup` does not model props passed as `null`, which the prop types exclude. JavaScript defaults replace only `undefined`, so a `null` `direction` would give a row with no margins, and a `null` `options` or `onSelect` would throw; the model reads every absent prop as omitted.
- `RadioGroup.OptionHeight` treats heights as numbers only. It does not model string heights such as percentages.
- Numbers are reals. IEEE-754 behaviour, such as `NaN` being falsy, is not modelled. Colours are strings, and a colour is truthy when it is non-empty.
- `StyleSheet.hairlineWidth` and the theme's divider colour are inputs (`Env`). Theme resolution (`withTheme`) is not modelled.
- The `SEED_DATA` metadata is not modelled, and neither is the JSX tree beyond the records above.
- The other components of the library (`CardContainerRating`, `MapMarker`, `RadioButtonFieldRow`, `Elevation`) are not part of this model. They only lay out or pass through props to other components.
