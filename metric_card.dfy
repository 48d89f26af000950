/**
  The shared metric card: a title and value, and, when a change is given, a
  trend badge with an icon and colour chosen by the change's sign and the
  change's magnitude in percent.
 */
module MetricCard {

  import opened Optional

  datatype TrendIcon = TrendingUp | TrendingDown | Flat

  datatype TrendTone = Positive | Negative | Muted

  /** `getTrendIcon`: no change or a zero change is flat; otherwise the sign decides. */
  function Icon(change: Option<real>): (i: TrendIcon)
    ensures i == Flat <==> change.None? || change.value == 0.0
    ensures i == TrendingUp <==> change.Some? && change.value > 0.0
    ensures i == TrendingDown <==> change.Some? && change.value < 0.0
  {
    if change.None? || change.value == 0.0 then Flat
    else if change.value > 0.0 then TrendingUp
    else TrendingDown
  }

  /** `getTrendColor`: muted for no or zero change, green for a rise, red for a fall. */
  function Tone(change: Option<real>): (t: TrendTone)
    ensures t == Muted <==> change.None? || change.value == 0.0
    ensures t == Positive <==> change.Some? && change.value > 0.0
    ensures t == Negative <==> change.Some? && change.value < 0.0
  {
    if change.None? || change.value == 0.0 then Muted
    else if change.value > 0.0 then Positive
    else Negative
  }

  /** The icon and the colour always agree. */
  lemma IconMatchesTone(change: Option<real>)
    ensures Icon(change) == TrendingUp <==> Tone(change) == Positive
    ensures Icon(change) == TrendingDown <==> Tone(change) == Negative
    ensures Icon(change) == Flat <==> Tone(change) == Muted
  {
  }

  /** The trend badge: shown whenever a change is given, zero included, with the change's magnitude. */
  function Badge(change: Option<real>): (r: Option<real>)
    ensures r.Some? <==> change.Some?
    ensures r.Some? ==> r.value >= 0.0 && (r.value == change.value || r.value == -change.value)
  {
    match change
    case None => None
    case Some(c) => Some(if c < 0.0 then -c else c)
  }

  /** The change as a reader reconstructs it from the badge: the magnitude, signed by the icon. */
  function ReadBack(icon: TrendIcon, magnitude: real): real
  {
    match icon
    case TrendingUp => magnitude
    case TrendingDown => -magnitude
    case Flat => 0.0
  }

  /** The badge loses nothing: icon and magnitude together give back the change. */
  lemma BadgeReadsBack(c: real)
    ensures ReadBack(Icon(Some(c)), Badge(Some(c)).value) == c
  {
  }

  /** A zero change still shows a badge, flat and muted, reading 0 percent. */
  lemma ZeroChangeShowsFlatBadge()
    ensures Badge(Some(0.0)) == Some(0.0) && Icon(Some(0.0)) == Flat && Tone(Some(0.0)) == Muted
    ensures Badge(None) == None && Icon(None) == Flat
  {
  }

  datatype Size = Sm | Md | Lg

  /** The value's text classes: each of the three conditional classes whose size matches, with `md` the default. */
  function ValueClasses(size: Option<Size>): (r: seq<string>)
  {
    var s := if size.Some? then size.value else Md;
    (if s == Sm then ["text-xl"] else [])
    + (if s == Md then ["text-2xl"] else [])
    + (if s == Lg then ["text-3xl"] else [])
  }

  /** Every size, the default included, gets exactly one text class, and different sizes get different ones. */
  lemma OneClassPerSize(a: Option<Size>, b: Option<Size>)
    ensures |ValueClasses(a)| == 1
    ensures ValueClasses(None) == ["text-2xl"]
    ensures a.Some? && b.Some? ==> (ValueClasses(a) == ValueClasses(b) <==> a == b)
  {
    if ValueClasses(a) == ValueClasses(b) {
      assert ValueClasses(a)[0][5] == ValueClasses(b)[0][5];
    }
  }
}
