# LVGL slider: type mapping and forwarding accessors

This project models the header `lv_slider.h` of the LVGL slider widget. A
slider is a bar widget with knobs. The header's inline functions forward to
the bar. The one piece of logic of its own is the translation between the
slider's type (NORMAL, SYMMETRICAL, RANGE) and the bar's type (NORMAL,
SYMMETRICAL, CUSTOM).

- `slider_types.dfy`, module `SliderTypes`: the slider type as a raw
  `uint8_t`, the bar type, and the two mappings as pure functions.
  `BarTypeFor` is what `lv_slider_set_type` passes to `lv_bar_set_type`
  (None when it makes no call). `SliderTypeOf` is what `lv_slider_get_type`
  reports for a stored bar type. Lemmas state the round trip, the partial
  inverse in the other direction, the no-op for unrecognised bytes, the
  default branch, idempotence, injectivity, and what a series of set-type
  calls leaves behind.
- `slider.dfy`, module `SliderWidget`: class `Slider` holds the bar's stored
  type and the bar's value storage. Its setters are methods with `modifies`;
  its getters are functions. The bar's value setters are opaque function
  values (`BarOps`), and so are the effect of setting the bar type on the
  value storage and the bar's start-value getter. So the model shows only
  that the slider passes its arguments to the matching bar operation, and
  reads back what that operation wrote.

Assumptions about `lv_bar.h`, which is not part of this model:
- The bar types NORMAL, SYMMETRICAL and CUSTOM are the distinct bytes 0, 1
  and 2. The proofs hold for any three distinct bytes; `BarTypesDistinct`
  records the assumption.
- `lv_bar_set_type` stores the given type, which `lv_bar_get_type` then
  returns. What else it does to the value storage (it may reset the start
  value, say) is an opaque bar operation.
- The bar's value setters do not change the bar type. They receive the
  current bar type, so they may act differently by type.
- The bar's value, minimum, maximum and animation time are read back as
  stored. The start value is read through an opaque getter that also sees
  the bar type, so a bar may keep a start value outside range mode and not
  report it.

The doc comments of `lv_slider_set_type` and `lv_slider_get_type`
(`lv_slider.h` lines 129-134 and 206-210) are stale: they describe an older
boolean "symmetric" flag. The code takes and returns one of three types, and
the model follows the code.

## Model

| member | source | states |
|---|---|---|
| SliderTypes.BarTypeFor | src/lv_widgets/lv_slider.h:135-143 | the setter calls the bar exactly when the type is 0, 1 or 2, and then with one of the three bar types, the one that reads back as the given slider type; RANGE goes to CUSTOM |
| SliderTypes.SliderTypeOf | src/lv_widgets/lv_slider.h:211-220 | always yields a named slider type; RANGE exactly for CUSTOM, SYMMETRICAL exactly for SYMMETRICAL, NORMAL for every other bar type |
| SliderTypes.StoredAfterSetType | src/lv_widgets/lv_slider.h:135-143 | a named type is stored as a named bar type that reads back as itself; any other byte leaves the stored bar type unchanged |
| SliderTypes.BarTypesDistinct | src/lv_widgets/lv_slider.h:138-142 | the three bar types the setter uses are distinct (an assumption about the bar's enum) |
| SliderTypes.SetThenGet | src/lv_widgets/lv_slider.h:135-143 | for NORMAL, SYMMETRICAL and RANGE, setting then getting returns the type set |
| SliderTypes.SetUnnamedIsNoOp | src/lv_widgets/lv_slider.h:137-142 | a byte outside 0..2 leaves the stored bar type as it was |
| SliderTypes.RangeIsCustom | src/lv_widgets/lv_slider.h:141-142 | RANGE is stored as CUSTOM, and CUSTOM reads as RANGE |
| SliderTypes.GetDefaultsToNormal | src/lv_widgets/lv_slider.h:213-219 | every bar type other than SYMMETRICAL and CUSTOM reads as NORMAL |
| SliderTypes.GetThenSetRestores | src/lv_widgets/lv_slider.h:137-142 | for each of the three named bar types, setting the type that was read back restores that bar type |
| SliderTypes.SetTypeIdempotent | src/lv_widgets/lv_slider.h:135-143 | setting the same type twice stores the same bar type as setting it once |
| SliderTypes.BarTypeForInjective | src/lv_widgets/lv_slider.h:137-142 | the three named slider types go to three different bar types |
| SliderTypes.ApplySetTypes | src/lv_widgets/lv_slider.h:135-143 | after any series of set-type calls the bar type is the original one or a named one |
| SliderTypes.LastNamedWins | src/lv_widgets/lv_slider.h:135-143 | after a series of set-type calls the bar holds the mapping of the last named type, or the original bar type when no call named one |
| SliderTypes.GetTypeAfterSetTypes | src/lv_widgets/lv_slider.h:135-143 | after a series of set-type calls the getter reports the last named type, or what it reported before if none was named |
| SliderWidget.Slider.SetType | src/lv_widgets/lv_slider.h:135-143 | the new bar type is the mapping of the argument and a named type then reads back as itself; for a named type the value storage is what the bar's set-type operation makes of it; an unnamed byte makes no call and changes nothing |
| SliderWidget.Slider.SetBarType | src/lv_widgets/lv_slider.h:138-142 | the call into the bar's type setter stores the given bar type and hands the value storage to the bar's set-type operation |
| SliderWidget.Slider.GetType | src/lv_widgets/lv_slider.h:211-220 | reports a named slider type; RANGE exactly when the bar is CUSTOM, SYMMETRICAL exactly when the bar is SYMMETRICAL |
| SliderWidget.Slider.SetValue | src/lv_widgets/lv_slider.h:92-95 | the bar's value setter is applied to the current bar type and the given value and animation flag unchanged; GetValue reads back its result; the type is untouched |
| SliderWidget.Slider.SetLeftValue | src/lv_widgets/lv_slider.h:103-106 | the bar's start-value setter is applied to the current bar type and the given value unchanged; GetLeftValue then reports what the bar's start-value getter makes of its result under the same type; the type is untouched |
| SliderWidget.Slider.SetRange | src/lv_widgets/lv_slider.h:114-117 | the bar's range setter is applied to the current bar type and the given bounds unchanged, and the minimum and maximum getters then read what it stored; the type is untouched |
| SliderWidget.Slider.SetAnimTime | src/lv_widgets/lv_slider.h:124-127 | the bar's animation-time setter is applied to the current bar type and the given time unchanged, and the animation-time getter then reads what it stored; the type is untouched |
| SliderWidget.Slider.GetValue | src/lv_widgets/lv_slider.h:154-157 | returns the bar's main value with no adjustment |
| SliderWidget.Slider.GetLeftValue | src/lv_widgets/lv_slider.h:164-167 | returns what the bar's start-value getter reports for the stored values and the current bar type, not the main value |
| SliderWidget.Slider.GetMinValue | src/lv_widgets/lv_slider.h:174-177 | returns the bar's minimum, the one SetRange's contract reads back |
| SliderWidget.Slider.GetMaxValue | src/lv_widgets/lv_slider.h:184-187 | returns the bar's maximum, the one SetRange's contract reads back |
| SliderWidget.Slider.GetAnimTime | src/lv_widgets/lv_slider.h:201-204 | returns the bar's animation time, the one SetAnimTime's contract reads back |

## Left out

- `lv_slider_create` (line 80): object construction belongs to the object system, and its body is not in the header. The model's constructor only wraps a given bar state.
- `lv_slider_is_dragged` (line 194): only a prototype; its body is in `lv_slider.c`, which is not part of this model.
- The drag state machine, knob hit-testing, pixel-to-value mapping and encoder focus: the fields exist (lines 50-54), but their logic is in `lv_slider.c`.
- Clamping of values into the range, start not above value, range checks and animation timing: these are done by the bar widget (`lv_bar.c`), which is not part of this model. Its setters are opaque functions here.
- The class-declaration macros, the data layout and the style-part enum (lines 43-67): framework registration, not behaviour.
- The compile-time check that the bar widget is enabled (lines 21-23): preprocessor configuration.
- A C caller passing a wider integer, truncated to `uint8_t` before the call: the model's setter takes the byte.
- The redraw that the bar's setters trigger.
