/** The reading history: the array persisted under the storage key
    "historico" and the in-memory copy the view renders. `saveData` and
    `resetHistorico` change both; `loadHistorico` copies the stored array
    into memory. The storage backend, JSON encoding and their failure paths
    are abstracted away: the stored value is just present or absent. */
module History {
  import opened Wrappers
  import opened Readings

  /** The persisted value (absent before the first save and after a reset)
      and the component's `historico` state. */
  datatype State = State(stored: Option<seq<Reading>>, historico: seq<Reading>)

  /** The component as first rendered: `historico` starts empty whatever
      storage holds from an earlier run. */
  function Initial(stored: Option<seq<Reading>>): (s: State)
    ensures s.stored == stored && s.historico == []
  {
    State(stored, [])
  }

  /** The first render agrees with storage only when storage holds nothing:
      a history kept from an earlier run is not shown until a save or load. */
  lemma InitialSyncedOnlyWhenStoreEmpty(stored: Option<seq<Reading>>)
    ensures Synced(Initial(stored)) <==> StoredOrEmpty(stored) == []
  {
  }

  /** `savedData ? JSON.parse(savedData) : []`. */
  function StoredOrEmpty(stored: Option<seq<Reading>>): (h: seq<Reading>)
    ensures stored.Some? ==> h == stored.value
    ensures stored.None? ==> h == []
  {
    stored.GetOr([])
  }

  /** `{ ...dados, hora }`: the fetched object, or nothing when the fetch
      failed, stamped with the current instant. */
  function Stamp(dados: Option<Sample>, now: Timestamp): (r: Reading)
    ensures r.sample == dados && r.hora == now
  {
    Reading(dados, now)
  }

  /** `saveData(dados)`: read the stored array (empty when absent), append
      the stamped reading, write the array back and show it. The in-memory
      history plays no part: the new history extends what storage holds. */
  function SaveData(s: State, dados: Option<Sample>, now: Timestamp): (t: State)
    ensures t.stored == Some(t.historico)
    ensures |t.historico| == |StoredOrEmpty(s.stored)| + 1
    ensures t.historico[..|t.historico| - 1] == StoredOrEmpty(s.stored)
    ensures t.historico[|t.historico| - 1] == Stamp(dados, now)
  {
    var historicoAtual := StoredOrEmpty(s.stored) + [Stamp(dados, now)];
    State(Some(historicoAtual), historicoAtual)
  }

  /** `loadHistorico()`: show the stored array when there is one; otherwise
      leave the in-memory history as it is. */
  function LoadHistorico(s: State): (t: State)
    ensures t.stored == s.stored
    ensures s.stored.Some? ==> t.historico == s.stored.value
    ensures s.stored.None? ==> t.historico == s.historico
  {
    match s.stored
    case Some(h) => State(s.stored, h)
    case None => s
  }

  /** `resetHistorico()`: remove the stored array and empty the view. */
  function ResetHistorico(s: State): (t: State)
    ensures t.stored.None? && t.historico == []
  {
    State(None, [])
  }

  /** What the view shows agrees with what storage would give back. */
  predicate Synced(s: State)
  {
    s.historico == StoredOrEmpty(s.stored)
  }

  /** The operations on the history. `Save` is one cycle of the fetch
      timer, with the fetch result and the clock as data. */
  datatype Event = Save(dados: Option<Sample>, now: Timestamp) | Load | Reset

  function Apply(s: State, e: Event): State
  {
    match e
    case Save(dados, now) => SaveData(s, dados, now)
    case Load => LoadHistorico(s)
    case Reset => ResetHistorico(s)
  }

  function Run(s: State, es: seq<Event>): State
    decreases |es|
  {
    if |es| == 0 then s else Run(Apply(s, es[0]), es[1..])
  }

  /** The stamped readings of the saves in `es`, in order. */
  function Saved(es: seq<Event>): seq<Reading>
  {
    if |es| == 0 then []
    else (if es[0].Save? then [Stamp(es[0].dados, es[0].now)] else []) + Saved(es[1..])
  }

  function CountSaves(es: seq<Event>): nat
  {
    if |es| == 0 then 0 else (if es[0].Save? then 1 else 0) + CountSaves(es[1..])
  }

  /** Saving and then loading shows the old stored history with the stamped
      reading at its end; resetting and then loading shows nothing. */
  lemma SaveThenLoad(s: State, dados: Option<Sample>, now: Timestamp)
    ensures LoadHistorico(SaveData(s, dados, now)).historico
         == StoredOrEmpty(s.stored) + [Stamp(dados, now)]
    ensures LoadHistorico(ResetHistorico(s)).historico == []
  {
  }

  /** After any operation other than a load from empty storage, the view
      matches storage; and a synced state stays synced under every event. */
  lemma ApplySyncs(s: State, e: Event)
    ensures !(e.Load? && s.stored.None?) ==> Synced(Apply(s, e))
    ensures Synced(s) ==> Synced(Apply(s, e))
  {
  }

  /** Once any save, reset or successful load has happened, every later
      state shows exactly what storage holds. */
  lemma {:induction false} RunStaysSynced(s: State, es: seq<Event>)
    requires Synced(s)
    ensures Synced(Run(s, es))
    decreases |es|
  {
    if |es| > 0 {
      ApplySyncs(s, es[0]);
      RunStaysSynced(Apply(s, es[0]), es[1..]);
    }
  }

  /** Without a reset the stored history is a gap-free append-only log: what
      it held before stays as its prefix, and after it come exactly the
      stamped readings of the saves, in the order they happened. */
  lemma {:induction false} RunWithoutResetAppends(s: State, es: seq<Event>)
    requires forall k :: 0 <= k < |es| ==> !es[k].Reset?
    ensures |StoredOrEmpty(Run(s, es).stored)| == |StoredOrEmpty(s.stored)| + CountSaves(es)
    ensures StoredOrEmpty(Run(s, es).stored)[..|StoredOrEmpty(s.stored)|] == StoredOrEmpty(s.stored)
    ensures StoredOrEmpty(Run(s, es).stored) == StoredOrEmpty(s.stored) + Saved(es)
    decreases |es|
  {
    if |es| > 0 {
      var t := Apply(s, es[0]);
      var e0 := if es[0].Save? then [Stamp(es[0].dados, es[0].now)] else [];
      assert StoredOrEmpty(t.stored) == StoredOrEmpty(s.stored) + e0;
      assert Saved(es) == e0 + Saved(es[1..]);
      assert |StoredOrEmpty(t.stored)| == |StoredOrEmpty(s.stored)| + (if es[0].Save? then 1 else 0);
      assert StoredOrEmpty(t.stored)[..|StoredOrEmpty(s.stored)|] == StoredOrEmpty(s.stored);
      RunWithoutResetAppends(t, es[1..]);
      var a := StoredOrEmpty(s.stored);
      var b := StoredOrEmpty(t.stored);
      var c := StoredOrEmpty(Run(t, es[1..]).stored);
      assert c[..|a|] == c[..|b|][..|a|];
    }
  }
}
