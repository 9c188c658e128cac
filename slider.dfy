/**
 * The slider object as seen through lv_slider.h: every accessor forwards to
 * the bar widget the slider is built on. The bar's stored type is a field the
 * slider writes and reads (`lv_bar_set_type` stores it, `lv_bar_get_type`
 * reads it). What the bar's operations do to its value storage is not part of
 * this model: they are carried as opaque functions in `BarOps`, so the
 * slider's setters can only be shown to hand their arguments to them
 * unchanged, and its getters to read back what those functions wrote.
 */
module SliderWidget {
  import opened SliderTypes

  type int16 = x: int | -0x8000 <= x < 0x8000
  type uint16 = x: int | 0 <= x < 0x1_0000

  /** `lv_anim_enable_t` */
  datatype AnimEnable = AnimOff | AnimOn

  /** The bar's value storage: value, start value, range and animation time. */
  datatype BarValues = BarValues(
    value: int16,
    startValue: int16,
    minValue: int16,
    maxValue: int16,
    animTime: uint16)

  /**
   * The bar's setters (`lv_bar_set_value`, `lv_bar_set_start_value`,
   * `lv_bar_set_range`, `lv_bar_set_anim_time`), whose clamping and animation
   * are left uninterpreted, and the effect of `lv_bar_set_type` on the value
   * storage (it may, for instance, reset the start value). Each receives the
   * bar's current type, since the C setters receive the whole object and may
   * act differently by type (a range change may reset the start value
   * outside range mode, say). The bar's start-value getter
   * (`lv_bar_get_start_value`) is opaque as well and sees the type: a bar may
   * keep a start value that it does not report outside range mode.
   */
  datatype BarOps = BarOps(
    setValue: (BarValues, BarType, int16, AnimEnable) -> BarValues,
    setStartValue: (BarValues, BarType, int16, AnimEnable) -> BarValues,
    setRange: (BarValues, BarType, int16, int16) -> BarValues,
    setAnimTime: (BarValues, BarType, uint16) -> BarValues,
    setType: (BarValues, BarType) -> BarValues,
    getStartValue: (BarValues, BarType) -> int16)

  class Slider {
    /** The bar functions the slider forwards to. */
    const ops: BarOps
    /** The bar type stored in the underlying bar. */
    var barType: BarType
    /** The underlying bar's value storage. */
    var bar: BarValues

    /** A slider over a bar in the given state (object creation is not modelled). */
    constructor (ops: BarOps, barType: BarType, bar: BarValues)
      ensures this.ops == ops && this.barType == barType && this.bar == bar
    {
      this.ops := ops;
      this.barType := barType;
      this.bar := bar;
    }

    /** `lv_slider_set_type` */
    method SetType(t: SliderType)
      modifies this
      ensures barType == StoredAfterSetType(old(barType), t)
      ensures IsNamedSliderType(t) ==> GetType() == t
      ensures t == SliderTypeRange ==> barType == BarTypeCustom
      ensures !IsNamedSliderType(t) ==> barType == old(barType)
      ensures IsNamedSliderType(t) ==> bar == ops.setType(old(bar), barType)
      ensures !IsNamedSliderType(t) ==> bar == old(bar)
    {
      if t == SliderTypeNormal {
        SetBarType(BarTypeNormal);
      } else if t == SliderTypeSymmetrical {
        SetBarType(BarTypeSymmetrical);
      } else if t == SliderTypeRange {
        SetBarType(BarTypeCustom);
      }
    }

    /** `lv_bar_set_type`: stores the type and lets the bar adjust its values. */
    method SetBarType(b: BarType)
      modifies this
      ensures barType == b
      ensures bar == ops.setType(old(bar), b)
    {
      bar := ops.setType(bar, b);
      barType := b;
    }

    /** `lv_slider_get_type` */
    function GetType(): (t: SliderType)
      reads this
      ensures IsNamedSliderType(t)
      ensures t == SliderTypeRange <==> barType == BarTypeCustom
      ensures t == SliderTypeSymmetrical <==> barType == BarTypeSymmetrical
    {
      SliderTypeOf(barType)
    }

    /** `lv_slider_set_value`: the bar's value setter, with no check of its own. */
    method SetValue(value: int16, anim: AnimEnable)
      modifies this
      ensures bar == ops.setValue(old(bar), barType, value, anim)
      ensures GetValue() == ops.setValue(old(bar), barType, value, anim).value
      ensures barType == old(barType)
    {
      bar := ops.setValue(bar, barType, value, anim);
    }

    /** `lv_slider_set_left_value`: the bar's start-value setter. */
    method SetLeftValue(leftValue: int16, anim: AnimEnable)
      modifies this
      ensures bar == ops.setStartValue(old(bar), barType, leftValue, anim)
      ensures GetLeftValue() == ops.getStartValue(ops.setStartValue(old(bar), barType, leftValue, anim), barType)
      ensures barType == old(barType)
    {
      bar := ops.setStartValue(bar, barType, leftValue, anim);
    }

    /** `lv_slider_set_range` */
    method SetRange(min: int16, max: int16)
      modifies this
      ensures bar == ops.setRange(old(bar), barType, min, max)
      ensures GetMinValue() == ops.setRange(old(bar), barType, min, max).minValue
      ensures GetMaxValue() == ops.setRange(old(bar), barType, min, max).maxValue
      ensures barType == old(barType)
    {
      bar := ops.setRange(bar, barType, min, max);
    }

    /** `lv_slider_set_anim_time` */
    method SetAnimTime(animTime: uint16)
      modifies this
      ensures bar == ops.setAnimTime(old(bar), barType, animTime)
      ensures GetAnimTime() == ops.setAnimTime(old(bar), barType, animTime).animTime
      ensures barType == old(barType)
    {
      bar := ops.setAnimTime(bar, barType, animTime);
    }

    /** `lv_slider_get_value`: the bar's main value. */
    function GetValue(): (v: int16)
      reads this
      ensures v == bar.value
    {
      bar.value
    }

    /**
     * `lv_slider_get_left_value`: what the bar's start-value getter reports
     * for the stored values and the current type, not the main value.
     */
    function GetLeftValue(): (v: int16)
      reads this
      ensures v == ops.getStartValue(bar, barType)
    {
      ops.getStartValue(bar, barType)
    }

    /** `lv_slider_get_min_value` */
    function GetMinValue(): (v: int16)
      reads this
      ensures v == bar.minValue
    {
      bar.minValue
    }

    /** `lv_slider_get_max_value` */
    function GetMaxValue(): (v: int16)
      reads this
      ensures v == bar.maxValue
    {
      bar.maxValue
    }

    /** `lv_slider_get_anim_time` */
    function GetAnimTime(): (ms: uint16)
      reads this
      ensures ms == bar.animTime
    {
      bar.animTime
    }
  }

  /**
   * Documented usage, not a source operation: a client of the slider relying
   * on the contracts above only. It shows the round trip for each named type,
   * the no-op for an unnamed one, idempotence of the stored type, and value
   * setters that leave the type alone and read back through the getters.
   */
  method SliderClient(ops: BarOps, b: BarType, vals: BarValues, t: SliderType, u: SliderType)
    requires IsNamedSliderType(t) && !IsNamedSliderType(u)
  {
    var s := new Slider(ops, b, vals);
    s.SetType(t);
    assert s.GetType() == t;
    var stored := s.barType;
    s.SetType(u);
    assert s.barType == stored && s.GetType() == t;
    s.SetType(t);
    assert s.barType == stored;
    var before := s.bar;
    s.SetLeftValue(20, AnimOff);
    assert s.barType == stored;
    s.SetValue(80, AnimOff);
    var afterLeft := ops.setStartValue(before, stored, 20, AnimOff);
    assert s.GetValue() == ops.setValue(afterLeft, stored, 80, AnimOff).value;
    s.SetRange(0, 100);
    assert s.GetMinValue() == ops.setRange(ops.setValue(afterLeft, stored, 80, AnimOff), stored, 0, 100).minValue;
  }
}
