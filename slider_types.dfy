/**
 * The slider-type vocabulary of the LVGL slider widget and its translation
 * to and from the type of the underlying bar widget.
 *
 * A slider type is a raw `uint8_t`: the three named values NORMAL (0),
 * SYMMETRICAL (1) and RANGE (2) are the enum of lv_slider.h, but any byte can
 * be passed to the setter. The bar type is stored by the bar widget; its
 * three named values NORMAL, SYMMETRICAL and CUSTOM are taken to be the
 * distinct bytes 0, 1 and 2 (the bar's enum is not part of this model; the
 * lemmas below rely only on the three being distinct).
 */
module SliderTypes {

  type uint8 = x: int | 0 <= x < 0x100

  datatype Option<T> = None | Some(value: T)

  /** `lv_slider_type_t` */
  type SliderType = uint8

  const SliderTypeNormal: SliderType := 0
  const SliderTypeSymmetrical: SliderType := 1
  const SliderTypeRange: SliderType := 2

  /** `lv_bar_type_t` */
  type BarType = uint8

  const BarTypeNormal: BarType := 0
  const BarTypeSymmetrical: BarType := 1
  const BarTypeCustom: BarType := 2

  predicate IsNamedSliderType(t: SliderType) {
    t == SliderTypeNormal || t == SliderTypeSymmetrical || t == SliderTypeRange
  }

  predicate IsNamedBarType(b: BarType) {
    b == BarTypeNormal || b == BarTypeSymmetrical || b == BarTypeCustom
  }

  /**
   * The assumption about the bar's enum that the model rests on: the proofs
   * hold for any three distinct bytes, and this lemma records that they are.
   */
  lemma BarTypesDistinct()
    ensures BarTypeNormal != BarTypeSymmetrical
    ensures BarTypeNormal != BarTypeCustom
    ensures BarTypeSymmetrical != BarTypeCustom
  {
  }

  /**
   * The bar type that `lv_slider_set_type` hands to `lv_bar_set_type`, or
   * None when the slider type is not one of the three named ones and the
   * setter makes no call at all.
   */
  function BarTypeFor(t: SliderType): (r: Option<BarType>)
    ensures r.Some? <==> IsNamedSliderType(t)
    ensures r.Some? ==> IsNamedBarType(r.value)
    ensures r.Some? ==> SliderTypeOf(r.value) == t
    ensures t == SliderTypeRange ==> r == Some(BarTypeCustom)
  {
    if t == SliderTypeNormal then Some(BarTypeNormal)
    else if t == SliderTypeSymmetrical then Some(BarTypeSymmetrical)
    else if t == SliderTypeRange then Some(BarTypeCustom)
    else None
  }

  /**
   * The slider type that `lv_slider_get_type` reports for a stored bar
   * type. Every bar type other than SYMMETRICAL and CUSTOM, NORMAL included,
   * falls to the default branch and reads as NORMAL.
   */
  function SliderTypeOf(b: BarType): (r: SliderType)
    ensures IsNamedSliderType(r)
    ensures r == SliderTypeRange <==> b == BarTypeCustom
    ensures r == SliderTypeSymmetrical <==> b == BarTypeSymmetrical
    ensures r == SliderTypeNormal <==> b != BarTypeSymmetrical && b != BarTypeCustom
  {
    if b == BarTypeSymmetrical then SliderTypeSymmetrical
    else if b == BarTypeCustom then SliderTypeRange
    else SliderTypeNormal
  }

  /** The bar type stored after `lv_slider_set_type(t)` on a bar of type `b`. */
  function StoredAfterSetType(b: BarType, t: SliderType): (r: BarType)
    ensures IsNamedSliderType(t) ==> SliderTypeOf(r) == t
    ensures IsNamedSliderType(t) ==> IsNamedBarType(r)
    ensures !IsNamedSliderType(t) ==> r == b
  {
    match BarTypeFor(t)
    case None => b
    case Some(c) => c
  }

  /** Setting a named type and reading it back gives that type. */
  lemma SetThenGet(b: BarType, t: SliderType)
    requires IsNamedSliderType(t)
    ensures SliderTypeOf(StoredAfterSetType(b, t)) == t
  {
  }

  /** An unrecognised slider type leaves the stored bar type as it was. */
  lemma SetUnnamedIsNoOp(b: BarType, t: SliderType)
    requires !IsNamedSliderType(t)
    ensures StoredAfterSetType(b, t) == b
  {
  }

  /** RANGE is stored as CUSTOM, and CUSTOM reads back as RANGE. */
  lemma RangeIsCustom(b: BarType)
    ensures StoredAfterSetType(b, SliderTypeRange) == BarTypeCustom
    ensures SliderTypeOf(BarTypeCustom) == SliderTypeRange
  {
  }

  /** Any bar type other than SYMMETRICAL and CUSTOM reads as NORMAL. */
  lemma GetDefaultsToNormal(b: BarType)
    requires b != BarTypeSymmetrical && b != BarTypeCustom
    ensures SliderTypeOf(b) == SliderTypeNormal
  {
  }

  /**
   * The other direction: writing back the type that was read restores a
   * named bar type exactly, whatever bar type was stored in between.
   */
  lemma GetThenSetRestores(b: BarType, other: BarType)
    requires IsNamedBarType(b)
    ensures StoredAfterSetType(other, SliderTypeOf(b)) == b
  {
  }

  /** Setting the same type twice is the same as setting it once. */
  lemma SetTypeIdempotent(b: BarType, t: SliderType)
    ensures StoredAfterSetType(StoredAfterSetType(b, t), t) == StoredAfterSetType(b, t)
  {
  }

  /** The three named slider types go to three different bar types. */
  lemma BarTypeForInjective(t1: SliderType, t2: SliderType)
    requires IsNamedSliderType(t1) && IsNamedSliderType(t2)
    requires BarTypeFor(t1) == BarTypeFor(t2)
    ensures t1 == t2
  {
  }

  /** The bar type after a series of `lv_slider_set_type` calls, in order. */
  function ApplySetTypes(b: BarType, ts: seq<SliderType>): (r: BarType)
    ensures r == b || IsNamedBarType(r)
    decreases |ts|
  {
    if ts == [] then b else ApplySetTypes(StoredAfterSetType(b, ts[0]), ts[1..])
  }

  /** The last named slider type in `ts`, if there is one. */
  function LastNamed(ts: seq<SliderType>): (r: Option<SliderType>)
    ensures r.Some? ==> IsNamedSliderType(r.value)
    ensures r.Some? ==> exists i :: 0 <= i < |ts| && ts[i] == r.value &&
                          forall j :: i < j < |ts| ==> !IsNamedSliderType(ts[j])
    ensures r.None? ==> forall i :: 0 <= i < |ts| ==> !IsNamedSliderType(ts[i])
    decreases |ts|
  {
    if ts == [] then None
    else if IsNamedSliderType(ts[|ts| - 1]) then Some(ts[|ts| - 1])
    else LastNamed(ts[..|ts| - 1])
  }

  lemma {:induction false} ApplySetTypesSnoc(b: BarType, ts: seq<SliderType>, t: SliderType)
    ensures ApplySetTypes(b, ts + [t]) == StoredAfterSetType(ApplySetTypes(b, ts), t)
    decreases |ts|
  {
    if ts == [] {
      assert [] + [t] == [t];
      assert [t][1..] == [];
    } else {
      assert (ts + [t])[0] == ts[0];
      assert (ts + [t])[1..] == ts[1..] + [t];
      ApplySetTypesSnoc(StoredAfterSetType(b, ts[0]), ts[1..], t);
    }
  }

  /**
   * Only the last recognised call counts: after a series of set-type calls
   * the bar holds what the last named slider type maps to, or the original
   * bar type if no call named a type.
   */
  lemma {:induction false} LastNamedWins(b: BarType, ts: seq<SliderType>)
    ensures LastNamed(ts).None? ==> ApplySetTypes(b, ts) == b
    ensures LastNamed(ts).Some? ==> ApplySetTypes(b, ts) == BarTypeFor(LastNamed(ts).value).value
    decreases |ts|
  {
    if ts != [] {
      var init, t := ts[..|ts| - 1], ts[|ts| - 1];
      assert ts == init + [t];
      ApplySetTypesSnoc(b, init, t);
      LastNamedWins(b, init);
    }
  }

  /** The slider type read after a series of set-type calls. */
  lemma {:induction false} GetTypeAfterSetTypes(b: BarType, ts: seq<SliderType>)
    ensures LastNamed(ts).Some? ==> SliderTypeOf(ApplySetTypes(b, ts)) == LastNamed(ts).value
    ensures LastNamed(ts).None? ==> SliderTypeOf(ApplySetTypes(b, ts)) == SliderTypeOf(b)
  {
    LastNamedWins(b, ts);
  }
}
