/**
  The shared progress bar: a bar filled to `value / max` of its width, capped at
  full, with an optional caption and a `value / max` label.
 */
module ProgressBar {

  import opened Optional

  datatype Size = Sm | Md | Lg

  /** The component's props; an absent optional prop is `None`. */
  datatype Props = Props(
    value: real, max: Option<real>, caption: Option<string>,
    showValue: Option<bool>, size: Option<Size>)

  /** `max = 100`. */
  function MaxOf(p: Props): (m: real)
    ensures p.max.None? ==> m == 100.0
    ensures p.max.Some? ==> m == p.max.value
  {
    match p.max
    case None => 100.0
    case Some(m) => m
  }

  /** `showValue = true`. */
  function ShowValueOf(p: Props): (b: bool)
    ensures b <==> p.showValue != Some(false)
  {
    match p.showValue
    case None => true
    case Some(b) => b
  }

  /** `size = 'md'`. */
  function SizeOf(p: Props): (s: Size)
    ensures p.size.None? ==> s == Md
    ensures p.size.Some? ==> s == p.size.value
  {
    match p.size
    case None => Md
    case Some(s) => s
  }

  /** `Math.min((value / max) * 100, 100)`: the filled share of the bar, in percent. */
  function Percentage(value: real, max: real): (r: real)
    requires max != 0.0
    ensures r <= 100.0
    ensures r == 100.0 || r == value / max * 100.0
  {
    if value / max * 100.0 <= 100.0 then value / max * 100.0 else 100.0
  }

  /** A value at or above the maximum fills the bar exactly. */
  lemma FullAtOrAboveMax(value: real, max: real)
    requires max > 0.0 && value >= max
    ensures Percentage(value, max) == 100.0
  {
    assert value / max >= 1.0;
  }

  /** Between zero and the maximum the percentage is the plain proportion, between 0 and 100. */
  lemma ProportionalWithinRange(value: real, max: real)
    requires max > 0.0 && 0.0 <= value <= max
    ensures Percentage(value, max) == value / max * 100.0
    ensures 0.0 <= Percentage(value, max) <= 100.0
  {
    assert value / max <= 1.0;
  }

  /** A larger value never fills less of the bar. */
  lemma PercentageMonotone(a: real, b: real, max: real)
    requires max > 0.0 && a <= b
    ensures Percentage(a, max) <= Percentage(b, max)
  {
    assert a / max <= b / max;
  }

  /** There is no lower clamp: a negative value gives a negative width. */
  lemma NegativeValuePassesThrough(value: real, max: real)
    requires max > 0.0 && value < 0.0
    ensures Percentage(value, max) == value / max * 100.0 < 0.0
  {
    assert value / max < 0.0;
  }

  /** The header line renders when there is a non-empty caption or the value label is on. */
  function HeaderShown(p: Props): (r: bool)
    ensures r <==> (p.caption.Some? && p.caption.value != "") || p.showValue != Some(false)
  {
    (p.caption.Some? && p.caption.value != "") || ShowValueOf(p)
  }

  /** The `value / max` label: present unless `showValue` is switched off, and then showing the defaulted maximum. */
  function ValueLabel(p: Props): (r: Option<(real, real)>)
    ensures r.Some? <==> p.showValue != Some(false)
    ensures r.Some? ==> r.value.0 == p.value && r.value.1 == MaxOf(p)
  {
    if ShowValueOf(p) then Some((p.value, MaxOf(p))) else None
  }

  /** With only a value given, the bar reads it against 100 and shows the label. */
  lemma DefaultsForValueOnly(value: real)
    ensures var p := Props(value, None, None, None, None);
      MaxOf(p) == 100.0 && ValueLabel(p) == Some((value, 100.0)) && HeaderShown(p) && SizeOf(p) == Md
    ensures 0.0 <= value <= 100.0 ==> Percentage(value, MaxOf(Props(value, None, None, None, None))) == value
  {
  }

  /** The bar's height class per size. */
  function HeightClass(s: Size): (c: string)
    ensures s == Sm <==> c == "h-1.5"
    ensures s == Md <==> c == "h-2"
    ensures s == Lg <==> c == "h-3"
  {
    match s
    case Sm => "h-1.5"
    case Md => "h-2"
    case Lg => "h-3"
  }
}
