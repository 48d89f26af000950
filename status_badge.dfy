/**
  The shared status badge: the five tones a badge can take. Each tab maps its
  own status strings onto these.
 */
module StatusBadge {

  datatype Status = Success | Warning | Danger | Info | Neutral
}
