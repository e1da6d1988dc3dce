# appCaju dashboard rules in Dafny

A model of the logic inside the `App` component of the appCaju monitoring
dashboard. The app polls a sensor endpoint for soil humidity
(`umidade_solo`), water-tank level (`nivel_caixa`) and pump state
(`estado_bomba`). It appends each reading, stamped with the current time, to
a history kept in device storage. It averages today's readings of each
sensor field, turns each average into a three-tier alert (a label and a
banner colour), and shows the history ten entries per page.

Modules:

- `Wrappers` (`wrappers.dfy`): `Option`, used for JavaScript's `undefined`.
- `Readings` (`readings.dfy`): samples, timestamped readings, field names,
  and a `Number` that is a real or NaN.
- `Alerts` (`alerts.dfy`): `classificarNivel` and `definirCorAlerta`, and
  the tier structure the two share.
- `DailyAverage` (`average.dfy`): `calcularMedia`. This covers the filter by
  today's date, the `reduce` sum and the division.
- `Pagination` (`pagination.dfy`): the `slice` that selects a page, and the
  "Anterior"/"Próximo" buttons.
- `History` (`history.dfy`): `saveData`, `loadHistorico` and
  `resetHistorico` acting on the stored array and the in-memory history.
- `Dashboard` (`dashboard.dfy`): how a failed fetch shows up in the alerts.

Abstractions:

- The clock is a parameter. A `Timestamp` carries its ISO string and its
  local calendar date (the value of `toLocaleDateString()`). "Today" is a
  `DateKey` parameter.
- The stored value is `Option<seq<Reading>>`. `None` means the key is absent.
- A fetch result is `Option<Sample>`. `None` means the fetch failed and
  returned `undefined`.
- Finite JavaScript numbers are exact reals.
- NaN is modelled explicitly. `0 + undefined` is NaN, and every comparison
  with NaN is false.

Behaviour of the code that the model follows:

- `saveData` extends the *stored* array, not the in-memory one.
- `loadHistorico` is defined but never called in `App.js`. On the first
  render the view is therefore empty whatever storage holds, until the first
  save (`History.Initial`). A load from absent storage leaves the view
  unchanged.
- A failed fetch still calls `saveData`. The stored entry then has `hora`
  and no sensor fields, so every average of that day becomes NaN. NaN is
  neither above 75 nor above 50, so both banners show the bottom tier in red
  for the rest of that local day, unless the history is reset
  (`Dashboard.FailedFetchTurnsDayRed`). Once the local date moves on, the
  entry drops out of the date filter (`DailyAverage.OtherDayLeavesAverage`).
- Page numbers start at 1. "Anterior" clamps at 1. "Próximo" has no upper
  bound, so pages past the end are empty. `slice` is modelled with
  JavaScript's full index rules (negative indices count from the end).
  Reachable pages never use negative indices: every reachable page number is
  at least 1 (`Pagination.NavigateStaysInRange`), and page numbers from 1 up
  select a contiguous run (`Pagination.PageIsContiguousRun`).

## Model

| member | source | states |
|---|---|---|
| Readings.FieldNamed | App.js:54-59 | a property-name string denotes humidity exactly when it is "umidade_solo", tank level exactly when it is "nivel_caixa", and otherwise an unknown field carrying that name |
| Readings.Add | App.js:46 | JavaScript addition is NaN exactly when an operand is NaN, and is otherwise the real sum |
| Readings.ValueOf | App.js:46 | what `item[campo]` contributes to `total + item[campo]` for a sensor field: `item[campo]` is `undefined` when the entry has no sensor fields, so the sum becomes NaN; otherwise it is that field of the sample |
| Alerts.ClassificarNivel | App.js:53-64 | for "umidade_solo" the label is Ótimo iff avg > 75, Normal iff 50 < avg <= 75, Seco otherwise; for "nivel_caixa" it is Bom / Médio / Baixo on the same tiers; any other field gives no label |
| Alerts.DefinirCorAlerta | App.js:67-78 | for either sensor field the colour is #81C784 iff avg > 75, #FFEB3B iff 50 < avg <= 75, #E57373 otherwise; any other field gives no colour |
| Alerts.LabelAndColorShareTier | App.js:53-78 | for a sensor field, the label is the field's word for the average's tier and the colour is that tier's colour; for any other field both are undefined |
| Alerts.ColorAgreesWithLabel | App.js:53-78 | for one field, two averages get the same colour exactly when they get the same label |
| Alerts.TierLabelInjective | App.js:53-64 | the three labels of each sensor field are distinct |
| Alerts.TierMonotone | App.js:55-61 | a higher average never gets a lower tier |
| Alerts.NaNShowsAsBottomTier | App.js:53-78 | a NaN average is classified in the bottom tier (Seco / Baixo) and coloured red |
| Alerts.ThresholdsAreStrict | App.js:54-63 | 80, 60, 30 classify as Ótimo, Normal, Seco, and 90, 55, 10 as Bom, Médio, Baixo; the strict thresholds put exactly 75 in the middle tier and exactly 50 in the bottom tier |
| DailyAverage.DatedOn | App.js:44 | the date filter keeps exactly the entries whose local date is today, and never grows the history |
| DailyAverage.DatedOnAppend | App.js:44 | filtering a concatenation is the concatenation of the filtered parts, so order is preserved |
| DailyAverage.Soma | App.js:46 | the `reduce` sum is NaN exactly when some entry lacks sensor fields |
| DailyAverage.SomaIsFieldSum | App.js:46 | when the left-to-right `reduce` sum is a number, it equals the field sum folded from the front |
| DailyAverage.CalcularMedia | App.js:42-50 | the average is 0 when no entry is dated today; it is NaN iff some entry dated today lacks sensor fields; otherwise it is the field sum of exactly today's entries divided by their count |
| DailyAverage.SomaOfDatedOn | App.js:44-46 | the sum over today's entries is NaN iff one of today's entries lacks sensor fields, and is otherwise their field sum |
| DailyAverage.AverageIsMeanWhenAllSampled | App.js:44-47 | when today has entries and all have sensor fields, the average is the finite mean of their values |
| DailyAverage.AverageWithinBounds | App.js:42-50 | when all of today's values lie in [lo, hi], the average is a number in [lo, hi], hence between their minimum and maximum |
| DailyAverage.OtherDayLeavesAverage | App.js:43-44 | appending an entry dated on another day leaves today's average unchanged |
| Pagination.ResolveIndex | App.js:80-83 | a `slice` index within [0, len] is taken as is; any index past the end clamps to len; a negative one counts back from the end, clamped at 0 |
| Pagination.Slice | App.js:80-83 | `slice` yields the elements from the resolved start up to the resolved end, in order, and is empty when the end does not lie past the start |
| Pagination.PageOf | App.js:80-83 | for page p >= 1, `dadosPaginated` is the history from min((p-1)*10, len) up to min(p*10, len) |
| Pagination.PageIsContiguousRun | App.js:80-83 | for page p >= 1 the page is the history from (p-1)*10 up to min(p*10, len); it has at most 10 items in history order; it is empty iff (p-1)*10 >= len |
| Pagination.FirstPagesArePrefix | App.js:80-83 | pages 1..n shown in turn are exactly the first min(10n, len) entries, each entry once and in order |
| Pagination.TwentyFiveEntries | App.js:80-83 | with 25 entries, page 1 is entries 1-10, page 3 is entries 21-25, and page 4 is empty |
| Pagination.Anterior | App.js:165 | "Anterior" goes back exactly one page from above 1, and otherwise lands on page 1 |
| Pagination.Proximo | App.js:171 | "Próximo" always moves to a higher page |
| Pagination.ButtonsAreInverse | App.js:165-171 | from any page >= 1, "Próximo" then "Anterior" returns to it, and from above page 1 "Anterior" then "Próximo" returns to it; "Anterior" on page 1 stays on page 1 |
| Pagination.ProximoCountsUp | App.js:171 | n presses of "Próximo" move exactly n pages forward |
| Pagination.NavigateStaysInRange | App.js:161-173 | from any page >= 1, any sequence of presses keeps the page >= 1, and the page rises by at most the number of "Próximo" presses |
| History.Initial | App.js:9 | the component starts with an empty in-memory history, whatever storage holds |
| History.InitialSyncedOnlyWhenStoreEmpty | App.js:9 | the first render shows what storage holds only when storage holds nothing: a stored history from an earlier run is not shown |
| History.StoredOrEmpty | App.js:16-17 | an absent stored value reads as the empty history, a present one as itself |
| History.Stamp | App.js:19 | the saved entry carries the fetched object, or nothing if the fetch failed, and the current instant as `hora` |
| History.SaveData | App.js:14-27 | saving stores and shows the old stored history (empty if absent) with exactly one entry appended: the stamped reading |
| History.LoadHistorico | App.js:30-39 | loading shows the stored history when there is one, and otherwise leaves the view unchanged; storage is untouched |
| History.ResetHistorico | App.js:114-123 | reset removes the stored value and empties the view |
| History.SaveThenLoad | App.js:14-39 | a save followed by a load shows the old stored history plus the stamped reading; a reset followed by a load shows nothing |
| History.ApplySyncs | App.js:14-123 | after a save, a reset or a load from present storage, the view equals what storage holds; an event never breaks that agreement |
| History.RunStaysSynced | App.js:14-123 | once the view agrees with storage, it agrees after any sequence of saves, loads and resets |
| History.RunWithoutResetAppends | App.js:14-27 | without a reset the stored history is the earlier stored history followed by exactly the stamped readings of the saves, in order: the earlier history stays its prefix and the log grows by one entry per save |
| Dashboard.FailedFetchTurnsDayRed | App.js:86-90 | after a failed fetch is saved, for the rest of that local day unless the history is reset, that day's averages are NaN and both banners show the bottom-tier label in red |

## Left out

- `fetchData` (http.js) is network I/O through axios. Its result enters the model only as `Option<Sample>`.
- The two `setInterval` timers (App.js:93-108) are left out, and so are overlapping `saveData` calls that can lose an update. These are scheduling and concurrency; each save is modelled as one atomic step.
- AsyncStorage, JSON encoding and their failure paths (the `catch` branches that only log) are left out. Storage is an abstract optional array.
- `Date`, `toISOString`, `toLocaleDateString` and `toLocaleString` are left out. Instants and local dates are given as data.
- The clock display (`horaAtual`) and the `dados` state are left out. They are written and never read.
- All rendering and the `StyleSheet` constants (App.js:125-238) are left out.
- DailyAverage.CalcularMedia: it requires one of the two sensor fields. For any other property name, `0 + item[campo]` depends on JavaScript's coercion of strings and other values. The component only calls it with the two sensor fields.
- Floating-point rounding of sums and quotients is left out. Finite values are exact reals.
- The type of `estado_bomba` (string or number) is not modelled. It is kept as a string and takes no part in any rule.
