/** The paginated history view: a fixed page size, a 1-based current page,
    the `Array.prototype.slice` that selects a page, and the "previous" and
    "next" buttons that move between pages. */
module Pagination {

  /** `itensPorPagina`. */
  const ItensPorPagina: nat := 10

  /** How `slice` resolves one of its arguments against a length: a negative
      index counts from the end, and the result is clamped to [0, len]. */
  function ResolveIndex(i: int, len: nat): (k: nat)
    ensures k <= len
    ensures 0 <= i <= len ==> k == i
    ensures i > len ==> k == len
    ensures i < 0 ==> k == (if len + i < 0 then 0 else len + i)
  {
    if i < 0 then (if len + i < 0 then 0 else len + i)
    else if i > len then len
    else i
  }

  function Min(a: int, b: int): int
  {
    if a <= b then a else b
  }

  /** `s.slice(start, end)`: the elements from the resolved start up to the
      resolved end, and nothing when the end does not lie past the start. */
  function Slice<T>(s: seq<T>, start: int, end: int): (r: seq<T>)
    ensures |r| == (if ResolveIndex(start, |s|) < ResolveIndex(end, |s|)
                    then ResolveIndex(end, |s|) - ResolveIndex(start, |s|) else 0)
    ensures forall k :: 0 <= k < |r| ==> r[k] == s[ResolveIndex(start, |s|) + k]
  {
    var a := ResolveIndex(start, |s|);
    var b := ResolveIndex(end, |s|);
    if a < b then s[a..b] else []
  }

  /** `dadosPaginated` for page `pagina`. */
  function PageOf<T>(h: seq<T>, pagina: int): (r: seq<T>)
    ensures pagina >= 1 ==>
      r == h[Min((pagina - 1) * ItensPorPagina, |h|)..Min(pagina * ItensPorPagina, |h|)]
  {
    Slice(h, (pagina - 1) * ItensPorPagina, pagina * ItensPorPagina)
  }

  /** For every page number the view can reach, the page is the contiguous
      run of the history from index (p-1)*10 up to min(p*10, |h|): at most
      ten items, in history order, and empty once the start passes the end. */
  lemma PageIsContiguousRun<T>(h: seq<T>, p: int)
    requires p >= 1
    ensures PageOf(h, p) == h[Min((p - 1) * ItensPorPagina, |h|)..Min(p * ItensPorPagina, |h|)]
    ensures |PageOf(h, p)| <= ItensPorPagina
    ensures |PageOf(h, p)| == 0 <==> (p - 1) * ItensPorPagina >= |h|
    ensures forall k :: 0 <= k < |PageOf(h, p)| ==> PageOf(h, p)[k] == h[(p - 1) * ItensPorPagina + k]
  {
  }

  /** Pages 1..n shown one after the other. */
  function FirstPages<T>(h: seq<T>, n: nat): seq<T>
  {
    if n == 0 then [] else FirstPages(h, n - 1) + PageOf(h, n)
  }

  /** Paging forward from page 1 shows every entry exactly once and in
      order: the first n pages together are the first min(10n, |h|) entries. */
  lemma {:induction false} FirstPagesArePrefix<T>(h: seq<T>, n: nat)
    ensures FirstPages(h, n) == h[..Min(n * ItensPorPagina, |h|)]
  {
    if n > 0 {
      FirstPagesArePrefix(h, n - 1);
      PageIsContiguousRun(h, n);
      var a := Min((n - 1) * ItensPorPagina, |h|);
      var b := Min(n * ItensPorPagina, |h|);
      assert h[..a] + h[a..b] == h[..b];
    }
  }

  /** The "Anterior" button: one page back, but never below page 1. */
  function Anterior(pagina: int): (r: int)
    ensures r >= 1
    ensures pagina > 1 ==> r == pagina - 1
    ensures pagina <= 1 ==> r == 1
  {
    if pagina > 1 then pagina - 1 else 1
  }

  /** The "Próximo" button: one page forward, with no upper bound. */
  function Proximo(pagina: int): (r: int)
    ensures r > pagina
  {
    pagina + 1
  }

  /** On every page the view can be on, the two buttons undo each other:
      "Próximo" then "Anterior" returns to the page, and so does "Anterior"
      then "Próximo" from above page 1. So "Próximo" adds exactly one. */
  lemma ButtonsAreInverse(pagina: int)
    requires pagina >= 1
    ensures Anterior(Proximo(pagina)) == pagina
    ensures pagina > 1 ==> Proximo(Anterior(pagina)) == pagina
    ensures Anterior(1) == 1
  {
  }

  /** A press of one of the two pagination buttons. */
  datatype Press = PressAnterior | PressProximo

  /** The page after a sequence of presses. */
  function Navigate(pagina: int, presses: seq<Press>): int
    decreases |presses|
  {
    if |presses| == 0 then pagina
    else
      var next := if presses[0].PressAnterior? then Anterior(pagina) else Proximo(pagina);
      Navigate(next, presses[1..])
  }

  /** Number of "Próximo" presses in a sequence. */
  function CountProximo(presses: seq<Press>): nat
  {
    if |presses| == 0 then 0
    else (if presses[0].PressProximo? then 1 else 0) + CountProximo(presses[1..])
  }

  /** From any page the view can be on, the page stays at least 1 under any
      presses, and never rises by more than the number of "Próximo" presses. */
  lemma {:induction false} NavigateStaysInRange(pagina: int, presses: seq<Press>)
    requires pagina >= 1
    ensures 1 <= Navigate(pagina, presses) <= pagina + CountProximo(presses)
    decreases |presses|
  {
    if |presses| > 0 {
      var next := if presses[0].PressAnterior? then Anterior(pagina) else Proximo(pagina);
      NavigateStaysInRange(next, presses[1..]);
    }
  }

  /** Pressing "Próximo" n times moves exactly n pages forward. */
  lemma {:induction false} ProximoCountsUp(pagina: int, n: nat)
    ensures Navigate(pagina, seq(n, _ => PressProximo)) == pagina + n
    decreases n
  {
    if n > 0 {
      var presses := seq(n, _ => PressProximo);
      assert presses[1..] == seq(n - 1, _ => PressProximo);
      ProximoCountsUp(Proximo(pagina), n - 1);
    }
  }

  /** The example of 25 entries: page 1 holds entries 1-10, page 3 holds
      entries 21-25, page 4 is empty. */
  lemma TwentyFiveEntries<T>(h: seq<T>)
    requires |h| == 25
    ensures PageOf(h, 1) == h[..10]
    ensures PageOf(h, 3) == h[20..]
    ensures PageOf(h, 4) == []
  {
    PageIsContiguousRun(h, 1);
    PageIsContiguousRun(h, 3);
    PageIsContiguousRun(h, 4);
  }
}
