/**
 * The colour coding of the main window's value labels: a usage or percentage reading turns
 * red above 80, orange above 60 and green otherwise, and so does a Celsius temperature;
 * anything that does not read as a number, and every other label, is shown in the plain
 * foreground colour.
 */
module LabelColours {
  import opened Wrappers

  /** The palette entries a value label can take. */
  datatype Tone = Danger | Warning | Success | Foreground

  /**
   * A label's text: a number followed by a unit (the unit may be empty), or words such as
   * "N/A", "Loading..." or an adapter list, which `float` rejects.
   */
  datatype LabelValue = Reading(value: real, unit: string) | Words(text: string)

  /** One value label: its text and its foreground colour. */
  datatype LabelState = LabelState(text: LabelValue, tone: Tone)

  /**
   * `float(value.replace(suffix, ''))`: the number when removing `suffix` leaves only the number,
   * None where the conversion raises.
   */
  function Parsed(v: LabelValue, suffix: string): (r: Option<real>)
    ensures r.Some? <==> v.Reading? && (v.unit == "" || v.unit == suffix)
    ensures r.Some? ==> r.value == v.value
  {
    match v
    case Reading(x, unit) => if unit == "" || unit == suffix then Some(x) else None
    case Words(_) => None
  }

  /** The threshold bands shared by readings and temperatures. */
  function Band(reading: Option<real>): Tone {
    match reading
    case None => Foreground
    case Some(x) => if x > 80.0 then Danger else if x > 60.0 then Warning else Success
  }

  predicate IsPercentKey(key: string) {
    Contains(key, "usage") || Contains(key, "percent")
  }

  predicate IsTemperatureKey(key: string) {
    Contains(key, "temp")
  }

  /** The colour `update_label` gives the label `key` showing `v`. */
  function LabelTone(key: string, v: LabelValue): Tone {
    if IsPercentKey(key) then Band(Parsed(v, "%"))
    else if IsTemperatureKey(key) then Band(Parsed(v, "°C"))
    else Foreground
  }

  /** How alarming a colour is; the foreground colour is outside the scale. */
  function Severity(t: Tone): int {
    match t
    case Success => 0
    case Warning => 1
    case Danger => 2
    case Foreground => -1
  }

  /** The label of a usage or percentage key, case by case. */
  lemma PercentKeyTones(key: string, v: LabelValue)
    requires IsPercentKey(key)
    ensures LabelTone(key, v) == Danger <==> Parsed(v, "%").Some? && Parsed(v, "%").value > 80.0
    ensures LabelTone(key, v) == Warning <==> Parsed(v, "%").Some? && 60.0 < Parsed(v, "%").value <= 80.0
    ensures LabelTone(key, v) == Success <==> Parsed(v, "%").Some? && Parsed(v, "%").value <= 60.0
    ensures LabelTone(key, v) == Foreground <==> !(v.Reading? && (v.unit == "" || v.unit == "%"))
  {
  }

  /** A temperature label (one whose key names no usage or percentage), case by case. */
  lemma TemperatureKeyTones(key: string, v: LabelValue)
    requires !IsPercentKey(key) && IsTemperatureKey(key)
    ensures LabelTone(key, v) == Danger <==> Parsed(v, "°C").Some? && Parsed(v, "°C").value > 80.0
    ensures LabelTone(key, v) == Warning <==> Parsed(v, "°C").Some? && 60.0 < Parsed(v, "°C").value <= 80.0
    ensures LabelTone(key, v) == Success <==> Parsed(v, "°C").Some? && Parsed(v, "°C").value <= 60.0
    ensures LabelTone(key, v) == Foreground <==> !(v.Reading? && (v.unit == "" || v.unit == "°C"))
  {
  }

  /** Any other label is plain, whatever it shows; so is "N/A" on any label. */
  lemma PlainLabels(key: string, v: LabelValue)
    ensures !IsPercentKey(key) && !IsTemperatureKey(key) ==> LabelTone(key, v) == Foreground
    ensures v.Words? ==> LabelTone(key, v) == Foreground
  {
  }

  /** A higher reading in the same unit never shows a less alarming colour. */
  lemma ToneMonotone(key: string, x: real, y: real, unit: string)
    requires x <= y
    requires LabelTone(key, Reading(x, unit)) != Foreground
    ensures LabelTone(key, Reading(y, unit)) != Foreground
    ensures Severity(LabelTone(key, Reading(x, unit))) <= Severity(LabelTone(key, Reading(y, unit)))
  {
  }

  /** The key names the host uses get the colour rule their names imply. */
  lemma HostKeys()
    ensures IsPercentKey("cpu_usage") && IsPercentKey("gpu_mem_usage") && !IsPercentKey("cpu_temp")
    ensures IsTemperatureKey("gpu_temp") && !IsTemperatureKey("cpu_fan") && !IsPercentKey("cpu_fan")
  {
    assert OccursAt("cpu_usage", "usage", 4);
    assert OccursAt("gpu_mem_usage", "usage", 8);
    assert OccursAt("gpu_temp", "temp", 4);
    MissingCharacter("cpu_temp", "usage", 's');
    MissingCharacter("cpu_temp", "percent", 'r');
    MissingCharacter("cpu_fan", "temp", 't');
    MissingCharacter("cpu_fan", "usage", 's');
    MissingCharacter("cpu_fan", "percent", 'e');
  }

  /** A key lacking one of the characters of `sub` cannot contain `sub`. */
  lemma MissingCharacter(s: string, sub: string, c: char)
    requires c in sub && c !in s
    ensures !Contains(s, sub)
  {
  }

  /** The main window's registry of value labels, keyed by field name. */
  class LabelBoard {
    var labels: map<string, LabelState>

    /** The labels as created: each shows "Loading..." in the success colour. */
    constructor (keys: set<string>)
      ensures labels.Keys == keys
      ensures forall k | k in labels :: labels[k] == LabelState(Words("Loading..."), Success)
    {
      labels := map k | k in keys :: LabelState(Words("Loading..."), Success);
    }

    /** `update_label`: an unknown key is ignored; a known one gets the text and its colour. */
    method UpdateLabel(key: string, value: LabelValue)
      modifies this
      ensures key !in old(labels) ==> labels == old(labels)
      ensures key in old(labels) ==> labels == old(labels)[key := LabelState(value, LabelTone(key, value))]
    {
      if key in labels {
        labels := labels[key := LabelState(value, LabelTone(key, value))];
      }
    }
  }
}
