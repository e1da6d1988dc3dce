/** The data the dashboard keeps: sensor samples, timestamped readings, the
    names of the two numeric fields, and the JavaScript numbers the
    averaging code produces. */
module Readings {
  import opened Wrappers

  /** A JavaScript number as far as this model needs one: an exact real
      value, or NaN, which is what `0 + undefined` evaluates to. Rounding of
      finite values is not modelled. */
  datatype Number = Finite(value: real) | NaN

  /** JavaScript `+` on numbers: NaN is absorbing. */
  function Add(a: Number, b: Number): (r: Number)
    ensures r.NaN? <==> a.NaN? || b.NaN?
    ensures r.Finite? ==> r.value == a.value + b.value
  {
    if a.Finite? && b.Finite? then Finite(a.value + b.value) else NaN
  }

  /** JavaScript `x > c` against a constant: every comparison with NaN is false. */
  predicate Exceeds(x: Number, c: real)
  {
    x.Finite? && x.value > c
  }

  /** The value `toLocaleDateString()` gives for an instant on the device:
      a calendar date in the device's time zone, compared only for equality. */
  type DateKey = string

  /** An instant as `new Date().toISOString()` writes it, together with the
      local calendar date that instant falls on. */
  datatype Timestamp = Timestamp(iso: string, localDate: DateKey)

  /** The JSON object the sensor endpoint returns. */
  datatype Sample = Sample(nivelCaixa: real, umidadeSolo: real, estadoBomba: string)

  /** One stored history entry: the fetched object spread into a new object
      with `hora` added. A failed fetch yields `undefined`, and spreading it
      gives an entry that has `hora` and no sensor fields at all. */
  datatype Reading = Reading(sample: Option<Sample>, hora: Timestamp)

  /** The field names the dashboard passes around as strings. */
  datatype Field = UmidadeSolo | NivelCaixa | Other(name: string)

  const UmidadeSoloName: string := "umidade_solo"
  const NivelCaixaName: string := "nivel_caixa"

  /** The field a property-name string denotes. */
  function FieldNamed(campo: string): (f: Field)
    ensures f == UmidadeSolo <==> campo == UmidadeSoloName
    ensures f == NivelCaixa <==> campo == NivelCaixaName
    ensures f.Other? ==> f.name == campo
  {
    if campo == UmidadeSoloName then UmidadeSolo
    else if campo == NivelCaixaName then NivelCaixa
    else Other(campo)
  }

  /** The two fields that hold numbers in every successfully fetched sample. */
  predicate Numeric(f: Field)
  {
    f.UmidadeSolo? || f.NivelCaixa?
  }

  /** `item[campo]` for a numeric field, as it takes part in a sum: the
      field's value, or NaN when the entry has no sensor fields. */
  function ValueOf(r: Reading, f: Field): (v: Number)
    requires Numeric(f)
    ensures v.NaN? <==> r.sample.None?
    ensures r.sample.Some? && f.UmidadeSolo? ==> v.value == r.sample.value.umidadeSolo
    ensures r.sample.Some? && f.NivelCaixa? ==> v.value == r.sample.value.nivelCaixa
  {
    match r.sample
    case None => NaN
    case Some(s) => if f.UmidadeSolo? then Finite(s.umidadeSolo) else Finite(s.nivelCaixa)
  }
}
