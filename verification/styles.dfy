/** The colour roles the screens choose between. A Tailwind class such as
    `text-success`, `bg-warning/10` or `bg-destructive` is modelled by the
    role it names; the exact class strings are presentation. */
module Styles {

  datatype Tone = Success | Warning | Orange | Destructive | Muted

  /** How alarming a tone is: success < warning < orange < destructive. */
  function Heat(t: Tone): nat
  {
    match t
    case Muted => 0
    case Success => 0
    case Warning => 1
    case Orange => 2
    case Destructive => 3
  }

  /** A badge or icon style: its tone, and whether it is the solid variant
      (`bg-destructive`) rather than the tinted one (`bg-destructive/10`). */
  datatype Swatch = Swatch(tone: Tone, solid: bool)

  /** The reference three-way congestion bucket: below `warnFrom` is
      success, below `dangerFrom` is warning, the rest is destructive. Each
      screen's own chain of conditionals is proved equal to one instance. */
  function LevelTone(level: int, warnFrom: int, dangerFrom: int): Tone
  {
    if level < warnFrom then Success
    else if level < dangerFrom then Warning
    else Destructive
  }

  /** The three buckets partition the integers into consecutive ranges,
      and no other tone is ever chosen. */
  lemma LevelTonePartition(level: int, warnFrom: int, dangerFrom: int)
    requires warnFrom <= dangerFrom
    ensures LevelTone(level, warnFrom, dangerFrom) == Success <==> level < warnFrom
    ensures LevelTone(level, warnFrom, dangerFrom) == Warning <==> warnFrom <= level < dangerFrom
    ensures LevelTone(level, warnFrom, dangerFrom) == Destructive <==> dangerFrom <= level
  {
  }

  /** A higher level never gets a less alarming bucket. */
  lemma LevelToneMonotone(a: int, b: int, warnFrom: int, dangerFrom: int)
    requires a <= b && warnFrom <= dangerFrom
    ensures Heat(LevelTone(a, warnFrom, dangerFrom)) <= Heat(LevelTone(b, warnFrom, dangerFrom))
  {
  }
}
