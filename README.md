# Key bindings and toolbar state of a draft-js rich-text editor

This project models the logic that the two React editor components of a small
rich-text editor demo own themselves. Everything else is delegated to the
draft-js library. The logic is:

- the **key binding function** (`mapKeyToEditorCommand`). For Tab it asks
  draft-js to indent. For Space it looks at the text of the block holding the
  selection start and recognises markdown-like markers (`#`, `* `, and, as
  written, `** ` and `*** `). Any other key falls through to draft-js's
  default binding;
- the **key command handler** (`handleKeyCommand`). It hands a command to
  `RichUtils.handleKeyCommand` and keeps the answer when there is one;
- the **block class function** (`getBlockStyle`);
- the toolbar's **active flags**. A block button is lit when its style is
  the start block's type. An inline button is lit when the current inline
  style set contains its style;
- the editor container's **class name**. It hides the placeholder for empty
  content whose first block is not a plain paragraph.

`src/components/Editor.jsx` and `src/components/Editor1.jsx` are two
variants of one component. Each has its own module here:

- Editor.jsx performs the toggles itself from the key binding function. It
  then returns the string `'handled'`.
- Editor1.jsx only returns command names (`'header'`, `'bold'`, …). Its Tab
  branch always returns `null`.

The module `Variants` states the differences side by side.

Layout:

- `js.dfy`, module `Js`: `String.prototype.startsWith` and a nullable
  `Option`.
- `draft.dfy`, module `Draft`: the part of draft-js the components use.
  - `EditorState` is a class with constant fields. draft-js states are
    immutable objects, and the components compare them with `!==`, which is
    reference identity.
  - Its fields are what the components read: the start block (type, text,
    data), the inline style set, the first block's type and `hasText()`.
  - The `RichUtils` functions are uninterpreted function values.
  - `getDefaultKeyBinding` is one more uninterpreted function value. It
    answers a command string or `null`, like the components' own binding
    functions.
- `controls.dfy`, module `Controls`: the active-flag computations and the
  container class name. Both components write these identically.
- `editor.dfy`, module `Editor`, and `editor1.dfy`, module `Editor1`: one per
  component.
  - The Space prefix tests are a pure decision function:
    `Editor.Classify` over the key code and the text, and
    `Editor1.SpaceCommand` over the text. Both test in source order, and
    the first match wins.
  - `KeyOutcome` gives the state and the answer that one call leaves
    behind.
  - A class `RichEditorExample` holds the single `editorState`. Its methods
    replace it as `setEditorState` does. `MapKeyToEditorCommand` is proved
    against `KeyOutcome`. The other methods' contracts give the new state
    as the library's answer for the old one.
- `variants.dfy`, module `Variants`: lemmas comparing the two components.

The key result: the `UNDERLINE`/`'underline'` and `RED_TEXT`/`'red-line'`
branches can never fire. They are nested inside a `startsWith("* ")` test,
and a text that starts with `* ` has a space as its second character, so it
can start with neither `** ` nor `*** `. Editor.jsx:112-117 declares the
`RED_TEXT` and `UNDERLINE` styles for those markers, and the last `else if`
at Editor.jsx:52 can never be false. The model follows the code as written:
texts starting with `** ` or `*** ` get the default binding.

## Model

| member | source | states |
|---|---|---|
| `Js.StarSpaceExcludesLongerMarkers` | src/components/Editor.jsx:45-51 | a text that starts with `* ` starts with neither `** ` nor `*** `, so the inner tests under the `* ` guard cannot pass |
| `Controls.BlockActiveFlags` | src/components/Editor.jsx:192-195 | one flag per toolbar entry, in order; flag i is true iff entry i's style equals the block type |
| `Controls.BlockActiveCount` | src/components/Editor.jsx:168-196 | on a toolbar with distinct styles, the number of lit block buttons is 1 if the block type has a button and 0 otherwise |
| `Controls.InlineButtonsActive` | src/components/Editor.jsx:213-221 | one flag per INLINE_STYLES entry; flag i is true iff the current inline style set contains entry i's style |
| `Controls.ActiveInlineStyles` | src/components/Editor.jsx:206-221 | the lit inline buttons name exactly the current styles among BOLD, ITALIC, UNDERLINE and CODE; any other current style, such as RED_TEXT, lights none |
| `Controls.EditorClassName` | src/components/Editor1.jsx:61-65 | the class is `RichEditor-editor RichEditor-hidePlaceholder` iff the content has no text and the first block type is not `unstyled`, and plain `RichEditor-editor` otherwise; Editor.jsx:71-75 is the same expression |
| `Editor.HeaderTakesPrecedence` | src/components/Editor.jsx:42-44 | the decision is the header-one toggle iff the key is Space and the text starts with `#`, whatever follows; no other block type is ever toggled |
| `Editor.UnderlineAndRedTextUnreachable` | src/components/Editor.jsx:45-51 | for every key code and text, the decision is never the UNDERLINE or RED_TEXT toggle; any inline toggle it makes is BOLD |
| `Editor.BoldOnStarSpace` | src/components/Editor.jsx:45-54 | the decision is the BOLD toggle iff the key is Space, the text does not start with `#` and it starts with `* ` |
| `Editor.DoubleStarFallsThrough` | src/components/Editor.jsx:45-58 | a text starting with `** ` or `*** ` (such as `** x`) gets no toggle: for every key but Tab the decision is to pass through |
| `Editor.PassThroughCases` | src/components/Editor.jsx:36-58 | the decision is to pass through iff the key is not Tab and is not a Space with a text starting with `#` or `* ` |
| `Editor.TabOutcome` | src/components/Editor.jsx:26-35 | for Tab, when `onTab` (depth 4) returns a different state the answer is `'handled'` with that state; when it returns the same state, the state is kept and the answer is `getDefaultKeyBinding(e)`; either way the new state is what `onTab` returned |
| `Editor.UnhandledLeavesStateUnchanged` | src/components/Editor.jsx:25-59 | every call either answers `'handled'` or leaves the state unchanged and answers `getDefaultKeyBinding(e)`; any answer other than `'handled'` comes with the old state |
| `Editor.SpaceOutcome` | src/components/Editor.jsx:36-56 | for Space, a text starting with `#` or `* ` gives `'handled'`, with header-one toggled for `#` and BOLD toggled for `* ` without `#`; any other text keeps the state and gets `getDefaultKeyBinding(e)`; when that default answer is not `'handled'`, the answer is `'handled'` iff the text starts with `#` or `* ` |
| `Editor.OtherKeysPassThrough` | src/components/Editor.jsx:25-58 | a key that is neither Tab nor Space answers `getDefaultKeyBinding(e)` and leaves the state as it was |
| `Editor.GetBlockStyle` | src/components/Editor.jsx:139-148 | `blockquote` gives `RichEditor-blockquote`; `custom-color` gives a class starting with `custom-color-`; the result is null iff the type is neither, in both directions |
| `Editor.CustomColorRoundTrip` | src/components/Editor.jsx:143-144 | the colour datum can be read back from a custom-color class; two custom-color blocks get the same class iff their colour data render the same; a missing colour gives `custom-color-undefined` |
| `Editor.BlockStylesDistinct` | src/components/Editor.jsx:168-181 | the eleven BLOCK_TYPES styles are pairwise distinct |
| `Editor.BlockButtonsActive` | src/components/Editor.jsx:183-200 | block button i is lit iff its style equals the start block's type; at most one is lit; exactly one is lit iff the type is one of the eleven styles |
| `Editor.RichEditorExample.constructor` | src/components/Editor.jsx:7 | the component starts holding the given initial state |
| `Editor.RichEditorExample.HandleKeyCommand` | src/components/Editor.jsx:16-23 | answers `'handled'` iff the library returns a non-null state, and installs that state; otherwise answers `'not-handled'` and keeps the state |
| `Editor.RichEditorExample.MapKeyToEditorCommand` | src/components/Editor.jsx:25-59 | the new state and the answer are exactly those of `KeyOutcome` for the old state |
| `Editor.RichEditorExample.ToggleBlockType` | src/components/Editor.jsx:63-65 | the new state is the library's block-type toggle of the old one |
| `Editor.RichEditorExample.ToggleInlineStyle` | src/components/Editor.jsx:67-69 | the new state is the library's inline-style toggle of the old one |
| `Editor1.HeaderCommandTakesPrecedence` | src/components/Editor1.jsx:38-39 | the Space decision names `'header'` iff the text starts with `#`, ahead of any asterisk marker |
| `Editor1.OnlyHeaderAndBoldNamed` | src/components/Editor1.jsx:40-48 | `'underline'` and `'red-line'` are never named; `'bold'` is named iff the text starts with `* ` and not `#`; nothing is named iff the text starts with neither |
| `Editor1.TabReturnsNull` | src/components/Editor1.jsx:22-31 | Tab answers `null` from its own branch, without consulting `getDefaultKeyBinding`, and the state after it is what `onTab` (depth 4) returned; every other key leaves the state unchanged |
| `Editor1.SpaceCommands` | src/components/Editor1.jsx:32-50 | Space answers `'header'` after `#` and `'bold'` after `* ` without `#`; every key that is not Tab and not a Space with one of those prefixes answers `getDefaultKeyBinding(e)` |
| `Editor1.GetBlockStyle` | src/components/Editor1.jsx:103-108 | `blockquote` gives `RichEditor-blockquote`, and every other type, custom-color included, gives null |
| `Editor1.BlockStylesDistinct` | src/components/Editor1.jsx:128-139 | the ten BLOCK_TYPES styles are pairwise distinct |
| `Editor1.BlockButtonsActive` | src/components/Editor1.jsx:141-161 | block button i is lit iff its style equals the start block's type; at most one is lit; exactly one is lit iff the type is one of the ten styles |
| `Editor1.RichEditorExample.constructor` | src/components/Editor1.jsx:7 | the component starts holding the given initial state |
| `Editor1.RichEditorExample.HandleKeyCommand` | src/components/Editor1.jsx:12-19 | answers `'handled'` iff the library returns a non-null state, and installs that state; otherwise answers `'not-handled'` and keeps the state |
| `Editor1.RichEditorExample.MapKeyToEditorCommand` | src/components/Editor1.jsx:21-51 | the new state and the answer are exactly those of `KeyOutcome` for the old state |
| `Editor1.RichEditorExample.ToggleBlockType` | src/components/Editor1.jsx:53-55 | the new state is the library's block-type toggle of the old one |
| `Editor1.RichEditorExample.ToggleInlineStyle` | src/components/Editor1.jsx:57-59 | the new state is the library's inline-style toggle of the old one |
| `Variants.TabAnswers` | src/components/Editor1.jsx:22-31 | on Tab both components end in the same state (what `onTab` returned); Editor1.jsx answers `null`; Editor.jsx answers `'handled'` when `onTab` changed the state and `getDefaultKeyBinding(e)` when it did not |
| `Variants.SameMarkers` | src/components/Editor1.jsx:38-48 | Editor.jsx acts on a Space exactly when Editor1.jsx names a command; header-one pairs with `'header'` and BOLD with `'bold'` |
| `Variants.BlockStylesAgreeExceptCustomColor` | src/components/Editor1.jsx:103-108 | the two `getBlockStyle` functions agree on a block iff its type is not `custom-color` |

The decision functions `Editor.Classify` and `Editor1.SpaceCommand` and the
effect functions `Editor.KeyOutcome` and `Editor1.KeyOutcome` carry no
contract of their own. The lemmas above state what they mean.

## Left out

- draft-js itself is not part of this model. `RichUtils.handleKeyCommand`, `onTab`, `toggleBlockType` and `toggleInlineStyle`, and `getDefaultKeyBinding`, are uninterpreted function values. Nothing is claimed about what these do, including the nesting-depth bound: the code only passes `4` to `onTab`.
- Properties that depend on the library's behaviour are not stated. Examples: a toggled BOLD style then shows its button as active; Tab at depth 4 does not indent further.
- Local-storage persistence is not modelled: `saveContentToLocalStorage`, `loadContentFromLocalStorage`, the autosave effect and the Save button. These are browser I/O plus JSON and raw-content conversion done by the library. `Editor.RichEditorExample.constructor` takes the loaded-or-empty initial state as a parameter instead.
- Editor1.jsx:7 always starts from `EditorState.createEmpty()`, a library value; `Editor1.RichEditorExample.constructor` takes that state as a parameter.
- React's state update timing is not modelled: `setEditorState` takes effect at the next render, and the handler closures keep reading the state of the render that created them. The methods assign `editorState` at once. Each call's outcome is exact, but two handler calls in one key event (`MapKeyToEditorCommand` then `HandleKeyCommand`) both see the state before the event, not each other's result.
- The colour picker stub and `handleColorChange` are not modelled. They are a hard-coded UI stub over `Modifier.applyInlineStyle`.
- React rendering is not modelled: refs and focus, `StyleButton`'s markup, the `styleMap` CSS objects, and `src/App.jsx`.
- What draft-js does with a returned command string is not modelled. This includes Editor.jsx's `'handled'` and Editor1.jsx's `'header'`, `'bold'`, etc.
- A key event is its key code and shift flag. Its other fields only travel into the library, which is uninterpreted.
- Block data values are strings here. A non-string colour datum would be rendered by JavaScript's own conversion, which is not modelled. A missing one renders as `undefined`.
