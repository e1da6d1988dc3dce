/** How the pieces meet in the rendered component: the banners classify the
    averages of the in-memory history, which the fetch timer's saves extend. */
module Dashboard {
  import opened Wrappers
  import opened Readings
  import opened Alerts
  import opened DailyAverage
  import opened History

  /** A fetch that fails stores an entry without sensor fields. For the rest
      of that local day, unless the history is reset, the day's average of
      either field is NaN and its banner is red with the bottom-tier label,
      whatever the other entries of the day hold. Once the local date moves
      on, the entry drops out of the filter (`OtherDayLeavesAverage`). */
  lemma {:induction false} FailedFetchTurnsDayRed(s: State, now: Timestamp, es: seq<Event>, campo: string)
    requires Numeric(FieldNamed(campo))
    requires forall k :: 0 <= k < |es| ==> !es[k].Reset?
    ensures CalcularMedia(Run(SaveData(s, None, now), es).historico, now.localDate, FieldNamed(campo)).NaN?
    ensures DefinirCorAlerta(campo,
              CalcularMedia(Run(SaveData(s, None, now), es).historico, now.localDate, FieldNamed(campo)))
         == Some(Red)
    ensures ClassificarNivel(campo,
              CalcularMedia(Run(SaveData(s, None, now), es).historico, now.localDate, FieldNamed(campo)))
         == TierLabel(FieldNamed(campo), Bottom)
  {
    var t0 := SaveData(s, None, now);
    var t := Run(t0, es);
    RunStaysSynced(t0, es);
    RunWithoutResetAppends(t0, es);
    var failed := Stamp(None, now);
    assert t0.historico[|t0.historico| - 1] == failed;
    assert t.historico[..|t0.historico|] == t0.historico;
    assert t.historico[|t0.historico| - 1] == failed;
    assert failed in t.historico;
    NaNShowsAsBottomTier(campo);
  }
}
