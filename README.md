# FixedSizeEditText, modelled in Dafny

`FixedSizeEditText` is an Android text view for fixed-length input such as PIN
or one-time codes. It keeps one character slot per box. It negotiates its size
with the parent layout and draws one background box per slot, left to right.
This project models the integer and array logic of that view in one Dafny module,
`FixedSize` (`fixed_size_edit_text.dfy`):

- **Text ingestion** (`onTextChanged`). The class `FixedSizeEditText` owns a fixed
  array of `prefs.length` slots. Like Kotlin's `CharSequence` and `CharArray`,
  text and slots hold UTF-16 code units (`CodeUnit`), so a character outside
  the Basic Multilingual Plane is a surrogate pair and takes two slots.
  `OnTextChanged` takes at most `length` code units of the new text and pads
  the rest with the sentinel `'\u0000'`. A loop
  then overwrites every slot in place. The readiness flag `ready` stands for
  `isReady()` (`props != null`). Before the view is ready, or when the text is
  null, the buffer is untouched and the change goes to the base handler. The
  host calls `invalidate()` and `super.onTextChanged(...)` are recorded in the
  sequence `hostCalls`. The constructor replays the Kotlin initialisation order
  through `OnTextChanged`: the text changes of the base constructor come first,
  then those of the initialiser (`setTextIsSelectable(true)` re-sets the current
  text, then `text = ""` sets the empty one). Both lists are parameters, since
  Android's `TextView` decides them. All of them arrive before `props` exists,
  so they go to the base handler.
- **Size negotiation** (`onMeasure`). `MeasureWidth` and `MeasureHeight` are the two
  per-axis `when` rules. They take the already-decoded measure mode and size.
  They read only `Preferences`, never `Properties`.
- **Box layout** (`drawBoxes`). `DrawBoxes` returns the bounds the background
  drawable receives on each step, in drawing order. It walks the boxes with one
  `bounds` value that it updates from the previous right edge, as the source
  does with the drawable. The result is proved equal to the closed form `BoxAt`.
- **Height clamp** (`adjustBoxSize`, line 105). `Properties.AdjustBoxHeight` clamps
  the box height to the committed height.

The model follows the code: the first box starts at x = 0, not at the left
edge of the canvas clip (only the clip's top is used); the readiness guard also
sends a null text to the base handler, not only a change that arrives before
construction finishes.

## Model

| member | source | states |
|---|---|---|
| `FixedSize.Ingested` | fixedsizeedittext/src/main/kotlin/com/github/polydome/fixedsizeedittext/FixedSizeEditText.kt:159-160 | the new buffer has exactly `length` slots; slot `i` is the code unit `text[i]` for `i < min(|text|, length)` and the sentinel `'\u0000'` for `|text| <= i < length` |
| `FixedSize.FixedSizeEditText.OnTextChanged` | fixedsizeedittext/src/main/kotlin/com/github/polydome/fixedsizeedittext/FixedSizeEditText.kt:157-169 | when ready and the text is non-null, every slot is overwritten with `Ingested(text, length)`, whatever it held before, and one redraw is requested; otherwise the buffer is unchanged and the change, with its three integers, goes to the base handler; the buffer length stays `length` |
| `FixedSize.FixedSizeEditText.constructor` | fixedsizeedittext/src/main/kotlin/com/github/polydome/fixedsizeedittext/FixedSizeEditText.kt:22-56 | the buffer is a fresh array of `prefs.length` sentinel slots; the view ends ready; the base constructor's text changes and then the initialiser's (from `setTextIsSelectable` at line 47, ending with the empty text of line 49, whose `lengthBefore` is the old text's length), all arriving before the view is ready, went to the base handler in that order and left the buffer untouched |
| `FixedSize.IngestedShowsText` | fixedsizeedittext/src/main/kotlin/com/github/polydome/fixedsizeedittext/FixedSizeEditText.kt:159-163 | round trip: reading the buffer up to its first sentinel gives back the text, cut to the capacity, when the text holds no sentinel |
| `FixedSize.IngestedIdempotent` | fixedsizeedittext/src/main/kotlin/com/github/polydome/fixedsizeedittext/FixedSizeEditText.kt:159-163 | ingesting the buffer's own contents again gives the same buffer |
| `FixedSize.IngestedIgnoresOverflow` | fixedsizeedittext/src/main/kotlin/com/github/polydome/fixedsizeedittext/FixedSizeEditText.kt:159 | code units past index `length - 1` never affect the buffer |
| `FixedSize.IngestedExample` | fixedsizeedittext/src/main/kotlin/com/github/polydome/fixedsizeedittext/FixedSizeEditText.kt:159-160 | `"123456"` into four slots gives `"1234"`; `"12"` gives `'1', '2'` and two sentinels; a surrogate pair fills two slots, and with one slot only its high surrogate is kept |
| `FixedSize.MeasureWidth` | fixedsizeedittext/src/main/kotlin/com/github/polydome/fixedsizeedittext/FixedSizeEditText.kt:65-76 | EXACTLY gives the parent's size; AT_MOST gives the smaller of the natural width `(length-1)*spacing + boxWidth*length` and the size, so never more than either; UNSPECIFIED gives the natural width; any other mode gives 0; only `prefs` is read |
| `FixedSize.MeasureHeight` | fixedsizeedittext/src/main/kotlin/com/github/polydome/fixedsizeedittext/FixedSizeEditText.kt:78-86 | EXACTLY gives the size; AT_MOST gives the smaller of `prefs.boxHeight` and the size; UNSPECIFIED gives `prefs.boxHeight`; any other mode gives 0 |
| `FixedSize.FixedSizeEditText.DrawBoxes` | fixedsizeedittext/src/main/kotlin/com/github/polydome/fixedsizeedittext/FixedSizeEditText.kt:112-134 | with a background, exactly `length` boxes in index order, box `i` spanning `i*(boxWidth+spacing)` to that plus `boxWidth`, from the clip top down `boxHeight`, all from the current `props`; with no background, no boxes |
| `FixedSize.BoxAtStep` | fixedsizeedittext/src/main/kotlin/com/github/polydome/fixedsizeedittext/FixedSizeEditText.kt:124-128 | the closed form agrees with the drawing step: box `i+1` starts `spacing` after box `i` ends, is `boxWidth` wide and keeps top and bottom |
| `FixedSize.BoxesSpanNaturalSize` | fixedsizeedittext/src/main/kotlin/com/github/polydome/fixedsizeedittext/FixedSizeEditText.kt:65-66 | with unscaled dimensions the last box ends exactly at the natural width, and each box is the natural height tall |
| `FixedSize.AtMostWidthHoldsBoxes` | fixedsizeedittext/src/main/kotlin/com/github/polydome/fixedsizeedittext/FixedSizeEditText.kt:71-72 | when an AT_MOST parent allows the natural width, every unscaled box lies between 0 and the measured width |
| `FixedSize.Properties.AdjustBoxHeight` | fixedsizeedittext/src/main/kotlin/com/github/polydome/fixedsizeedittext/FixedSizeEditText.kt:105 | the new box height is the smaller of the old height and the committed height, so it exceeds neither |
| `FixedSize.AdjustBoxHeightIdempotent` | fixedsizeedittext/src/main/kotlin/com/github/polydome/fixedsizeedittext/FixedSizeEditText.kt:105 | clamping a clamped height to the same committed height changes nothing |
| `FixedSize.AdjustBoxHeightTwice` | fixedsizeedittext/src/main/kotlin/com/github/polydome/fixedsizeedittext/FixedSizeEditText.kt:105 | running the height adjustment twice with the same height leaves the result of running it once |

## Left out

- Width and spacing scaling in `adjustBoxSize` (lines 96-103): float division and `roundToInt`. The source also mixes `prefs.spacing` with `props.boxWidth` there. `AdjustBoxHeight` models only the height clamp, and `onSizeChanged` is not modelled as a whole.
- Glyph placement in `drawCharacter`: `Gravity.apply`, `Paint.measureText`, font metrics and `Canvas.drawText` are Android library calls on float text sizes. `DrawBoxes` returns the box bounds and does not model the glyphs or the `draw` calls.
- `MeasureSpec.getMode` / `getSize` bit-packing and `setMeasuredDimension`: the measure functions take the decoded mode and size and return the dimension.
- `Preferences.fromAttributes`, `Preferences.default` and `Properties.fromPreferences` are not part of this model. The constructor takes a `Preferences` value and assumes that `Properties` starts from its box width, box height and spacing. Gravity is not modelled.
- The focus, click and long-click flags of the initialiser (lines 48, 51-55), `getDefaultEditable` and `onCheckIsTextEditor`: toolkit configuration only. `setTextIsSelectable(true)` (line 47) is modelled only through the text changes it reports; its effect on selection is not modelled.
- `FixedSizeEditText.constructor`: which text changes the base constructor and `setTextIsSelectable` report is decided by Android's `TextView`, not part of this model; they are parameters, required only to be base-handler calls, with the initialiser's last one setting the empty text.
- `invalidate()` and `super.onTextChanged` are recorded as `HostCall` values, not executed.
- `MeasureWidth`, `DrawBoxes`: do not model 32-bit `Int` wrap-around of `(length-1)*spacing + boxWidth*length` (lines 65-66), of `clipTop + boxHeight` (line 118) or of `right + spacing + boxWidth` (lines 126-127). Integers are unbounded; realistic box sizes stay far from the limit.
- `Preferences`: the box count is a `nat`, so the failure of `CharArray(prefs.length)` (line 25) on a negative count is not modelled.
- `DrawBoxes`: requires `length >= 1` when a background is set. With zero slots the source draws the first box and then fails reading slot 0 in `drawCharacter`.
- Threading and the view lifecycle order beyond the initialisation callback: all calls run on the UI thread, one at a time.
