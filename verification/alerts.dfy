/** The two alert rules of the dashboard: a qualitative label for a daily
    average and the background colour of the banner that shows it. Both
    split the average at the same two strict thresholds, and both return
    `undefined` (here `None`) for a field other than the two sensor fields. */
module Alerts {
  import opened Wrappers
  import opened Readings

  const UpperThreshold: real := 75.0
  const LowerThreshold: real := 50.0

  const Green: string := "#81C784"
  const Yellow: string := "#FFEB3B"
  const Red: string := "#E57373"

  /** `classificarNivel(campo, media)`, branch for branch. */
  function ClassificarNivel(campo: string, media: Number): (r: Option<string>)
    ensures campo == UmidadeSoloName ==>
      && (r == Some("Ótimo") <==> Exceeds(media, 75.0))
      && (r == Some("Normal") <==> !Exceeds(media, 75.0) && Exceeds(media, 50.0))
      && (r == Some("Seco") <==> !Exceeds(media, 50.0))
    ensures campo == NivelCaixaName ==>
      && (r == Some("Bom") <==> Exceeds(media, 75.0))
      && (r == Some("Médio") <==> !Exceeds(media, 75.0) && Exceeds(media, 50.0))
      && (r == Some("Baixo") <==> !Exceeds(media, 50.0))
    ensures r.None? <==> campo != UmidadeSoloName && campo != NivelCaixaName
  {
    if campo == UmidadeSoloName then
      if Exceeds(media, UpperThreshold) then Some("Ótimo")
      else if Exceeds(media, LowerThreshold) then Some("Normal")
      else Some("Seco")
    else if campo == NivelCaixaName then
      if Exceeds(media, UpperThreshold) then Some("Bom")
      else if Exceeds(media, LowerThreshold) then Some("Médio")
      else Some("Baixo")
    else None
  }

  /** `definirCorAlerta(campo, media)`, branch for branch. */
  function DefinirCorAlerta(campo: string, media: Number): (r: Option<string>)
    ensures campo == UmidadeSoloName || campo == NivelCaixaName ==>
      && (r == Some(Green) <==> Exceeds(media, 75.0))
      && (r == Some(Yellow) <==> !Exceeds(media, 75.0) && Exceeds(media, 50.0))
      && (r == Some(Red) <==> !Exceeds(media, 50.0))
    ensures r.None? <==> campo != UmidadeSoloName && campo != NivelCaixaName
  {
    if campo == UmidadeSoloName then
      if Exceeds(media, UpperThreshold) then Some(Green)
      else if Exceeds(media, LowerThreshold) then Some(Yellow)
      else Some(Red)
    else if campo == NivelCaixaName then
      if Exceeds(media, UpperThreshold) then Some(Green)
      else if Exceeds(media, LowerThreshold) then Some(Yellow)
      else Some(Red)
    else None
  }

  /** The three alert tiers, best first. */
  datatype Tier = Top | Middle | Bottom

  /** The tier of an average, named once so that label and colour can be
      compared through it: the top tier above 75, the middle tier above 50,
      the bottom tier otherwise. */
  function TierOf(media: Number): (t: Tier)
  {
    if Exceeds(media, UpperThreshold) then Top
    else if Exceeds(media, LowerThreshold) then Middle
    else Bottom
  }

  /** Position of a tier from the bottom. */
  function Rank(t: Tier): nat
  {
    match t
    case Bottom => 0
    case Middle => 1
    case Top => 2
  }

  /** Each field's word for each tier. */
  function TierLabel(f: Field, t: Tier): Option<string>
  {
    match (f, t)
    case (UmidadeSolo, Top) => Some("Ótimo")
    case (UmidadeSolo, Middle) => Some("Normal")
    case (UmidadeSolo, Bottom) => Some("Seco")
    case (NivelCaixa, Top) => Some("Bom")
    case (NivelCaixa, Middle) => Some("Médio")
    case (NivelCaixa, Bottom) => Some("Baixo")
    case (Other(_), _) => None
  }

  /** The colour of each tier, the same for both fields. */
  function TierColor(t: Tier): string
  {
    match t
    case Top => Green
    case Middle => Yellow
    case Bottom => Red
  }

  /** Label and colour are two views of one tier: for either sensor field,
      the label is that field's word for the average's tier and the colour
      is that tier's colour; for any other field both are undefined. */
  lemma LabelAndColorShareTier(campo: string, media: Number)
    ensures Numeric(FieldNamed(campo)) ==>
      && ClassificarNivel(campo, media) == TierLabel(FieldNamed(campo), TierOf(media))
      && DefinirCorAlerta(campo, media) == Some(TierColor(TierOf(media)))
    ensures !Numeric(FieldNamed(campo)) ==>
      ClassificarNivel(campo, media).None? && DefinirCorAlerta(campo, media).None?
  {
  }

  /** Within one field the colour and the label determine each other: two
      averages get the same colour exactly when they get the same label. */
  lemma ColorAgreesWithLabel(campo: string, a: Number, b: Number)
    ensures DefinirCorAlerta(campo, a) == DefinirCorAlerta(campo, b)
        <==> ClassificarNivel(campo, a) == ClassificarNivel(campo, b)
  {
    LabelAndColorShareTier(campo, a);
    LabelAndColorShareTier(campo, b);
    if Numeric(FieldNamed(campo)) {
      TierLabelInjective(FieldNamed(campo), TierOf(a), TierOf(b));
    }
  }

  /** Distinct tiers of a sensor field have distinct words. */
  lemma TierLabelInjective(f: Field, s: Tier, t: Tier)
    requires Numeric(f)
    ensures TierLabel(f, s) == TierLabel(f, t) <==> s == t
  {
  }

  /** A higher average never gets a worse tier. */
  lemma TierMonotone(a: real, b: real)
    requires a <= b
    ensures Rank(TierOf(Finite(a))) <= Rank(TierOf(Finite(b)))
  {
  }

  /** A NaN average (the day's history holds an entry without sensor fields)
      shows as the bottom tier in red, whatever the other entries hold. */
  lemma NaNShowsAsBottomTier(campo: string)
    requires Numeric(FieldNamed(campo))
    ensures TierOf(NaN) == Bottom
    ensures DefinirCorAlerta(campo, NaN) == Some(Red)
    ensures ClassificarNivel(campo, NaN) == TierLabel(FieldNamed(campo), Bottom)
  {
    LabelAndColorShareTier(campo, NaN);
  }

  /** The thresholds are strict: exactly 75 is the middle tier and exactly
      50 the bottom tier, for both fields. */
  lemma ThresholdsAreStrict()
    ensures ClassificarNivel(UmidadeSoloName, Finite(80.0)) == Some("Ótimo")
    ensures ClassificarNivel(UmidadeSoloName, Finite(75.0)) == Some("Normal")
    ensures ClassificarNivel(UmidadeSoloName, Finite(60.0)) == Some("Normal")
    ensures ClassificarNivel(UmidadeSoloName, Finite(50.0)) == Some("Seco")
    ensures ClassificarNivel(UmidadeSoloName, Finite(30.0)) == Some("Seco")
    ensures ClassificarNivel(NivelCaixaName, Finite(90.0)) == Some("Bom")
    ensures ClassificarNivel(NivelCaixaName, Finite(75.0)) == Some("Médio")
    ensures ClassificarNivel(NivelCaixaName, Finite(55.0)) == Some("Médio")
    ensures ClassificarNivel(NivelCaixaName, Finite(50.0)) == Some("Baixo")
    ensures ClassificarNivel(NivelCaixaName, Finite(10.0)) == Some("Baixo")
  {
  }
}
