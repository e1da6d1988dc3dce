/** `calcularMedia`: the mean of one sensor field over the history entries
    dated today, or 0 when there are none. Today's date and each entry's
    local date are given as `DateKey`s instead of being read from the clock. */
module DailyAverage {
  import opened Wrappers
  import opened Readings

  /** `historico.filter(item => <local date of item.hora> === hoje)`. */
  function DatedOn(h: seq<Reading>, day: DateKey): (r: seq<Reading>)
    ensures |r| <= |h|
    ensures forall x :: x in r <==> x in h && x.hora.localDate == day
  {
    if |h| == 0 then []
    else if h[0].hora.localDate == day then [h[0]] + DatedOn(h[1..], day)
    else DatedOn(h[1..], day)
  }

  /** Filtering distributes over concatenation, so entries of one part of
      the history never reorder or drop entries of the other. */
  lemma {:induction false} DatedOnAppend(a: seq<Reading>, b: seq<Reading>, day: DateKey)
    ensures DatedOn(a + b, day) == DatedOn(a, day) + DatedOn(b, day)
  {
    if |a| == 0 {
      assert a + b == b;
    } else {
      assert (a + b)[1..] == a[1..] + b;
      DatedOnAppend(a[1..], b, day);
    }
  }

  /** `rs.reduce((total, item) => total + item[campo], 0)`: a left fold in
      JavaScript arithmetic, so one entry without sensor fields makes it NaN. */
  function Soma(rs: seq<Reading>, f: Field): (r: Number)
    requires Numeric(f)
    ensures r.NaN? <==> exists x :: x in rs && x.sample.None?
    decreases |rs|
  {
    if |rs| == 0 then Finite(0.0)
    else
      var init := rs[..|rs| - 1];
      assert rs == init + [rs[|rs| - 1]];
      Add(Soma(init, f), ValueOf(rs[|rs| - 1], f))
  }

  /** Reference sum of a field, folded from the front, counting an entry
      without sensor fields as 0. */
  function FieldSum(rs: seq<Reading>, f: Field): real
    requires Numeric(f)
  {
    if |rs| == 0 then 0.0
    else (if rs[0].sample.Some? then ValueOf(rs[0], f).value else 0.0) + FieldSum(rs[1..], f)
  }

  lemma {:induction false} FieldSumAppend(a: seq<Reading>, b: seq<Reading>, f: Field)
    requires Numeric(f)
    ensures FieldSum(a + b, f) == FieldSum(a, f) + FieldSum(b, f)
  {
    if |a| == 0 {
      assert a + b == b;
    } else {
      assert (a + b)[1..] == a[1..] + b;
      FieldSumAppend(a[1..], b, f);
    }
  }

  /** When the fold is a number, it is the ordinary sum of the field. */
  lemma {:induction false} SomaIsFieldSum(rs: seq<Reading>, f: Field)
    requires Numeric(f)
    ensures Soma(rs, f).Finite? ==> Soma(rs, f).value == FieldSum(rs, f)
  {
    if |rs| > 0 {
      var init := rs[..|rs| - 1];
      var last := rs[|rs| - 1];
      assert rs == init + [last];
      SomaIsFieldSum(init, f);
      FieldSumAppend(init, [last], f);
      assert FieldSum([last], f) == (if last.sample.Some? then ValueOf(last, f).value else 0.0) by {
        assert [last][1..] == [];
      }
    }
  }

  /** The arithmetic mean of `n` values summing to `total`. */
  function Mean(total: real, n: nat): real
    requires n > 0
  {
    total / n as real
  }

  /** A mean lies between any common lower and upper bound of its values. */
  lemma MeanBetween(total: real, n: nat, lo: real, hi: real)
    requires n > 0
    requires n as real * lo <= total <= n as real * hi
    ensures lo <= Mean(total, n) <= hi
  {
    var m := Mean(total, n);
    assert m * n as real == total;
  }

  /** `calcularMedia(campo)` for one of the two sensor fields, with `hoje`
      the local date of the current instant. */
  function CalcularMedia(h: seq<Reading>, hoje: DateKey, f: Field): (r: Number)
    requires Numeric(f)
    ensures |DatedOn(h, hoje)| == 0 ==> r == Finite(0.0)
    ensures r.NaN? <==> exists x :: x in h && x.hora.localDate == hoje && x.sample.None?
    ensures r.Finite? && |DatedOn(h, hoje)| > 0 ==>
      r.value == Mean(FieldSum(DatedOn(h, hoje), f), |DatedOn(h, hoje)|)
  {
    var dadosFiltrados := DatedOn(h, hoje);
    var soma := Soma(dadosFiltrados, f);
    SomaOfDatedOn(h, hoje, f);
    if |dadosFiltrados| == 0 then Finite(0.0)
    else if soma.NaN? then NaN
    else Finite(Mean(soma.value, |dadosFiltrados|))
  }

  /** The fold over today's entries is NaN exactly when one of them lacks
      sensor fields, and is otherwise their field sum. */
  lemma SomaOfDatedOn(h: seq<Reading>, hoje: DateKey, f: Field)
    requires Numeric(f)
    ensures Soma(DatedOn(h, hoje), f).NaN?
        <==> exists x :: x in h && x.hora.localDate == hoje && x.sample.None?
    ensures Soma(DatedOn(h, hoje), f).Finite? ==>
      Soma(DatedOn(h, hoje), f).value == FieldSum(DatedOn(h, hoje), f)
  {
    var todays := DatedOn(h, hoje);
    SomaIsFieldSum(todays, f);
    if Soma(todays, f).NaN? {
      var x :| x in todays && x.sample.None?;
      assert x in h && x.hora.localDate == hoje;
    }
    if x :| x in h && x.hora.localDate == hoje && x.sample.None? {
      assert x in todays;
    }
  }

  /** Every entry has sensor fields and its field value lies in [lo, hi]. */
  ghost predicate FieldWithin(rs: seq<Reading>, f: Field, lo: real, hi: real)
    requires Numeric(f)
  {
    forall k :: 0 <= k < |rs| ==>
      rs[k].sample.Some? && lo <= ValueOf(rs[k], f).value <= hi
  }

  lemma {:induction false} FieldSumWithin(rs: seq<Reading>, f: Field, lo: real, hi: real)
    requires Numeric(f)
    requires FieldWithin(rs, f, lo, hi)
    ensures |rs| as real * lo <= FieldSum(rs, f) <= |rs| as real * hi
  {
    if |rs| > 0 {
      assert FieldWithin(rs[1..], f, lo, hi) by {
        forall k | 0 <= k < |rs[1..]|
          ensures rs[1..][k].sample.Some? && lo <= ValueOf(rs[1..][k], f).value <= hi
        {
          assert rs[1..][k] == rs[k + 1];
        }
      }
      FieldSumWithin(rs[1..], f, lo, hi);
    }
  }

  /** The average of today's entries lies between any lower and upper bound
      of their values, in particular between their minimum and maximum. */
  lemma AverageWithinBounds(h: seq<Reading>, hoje: DateKey, f: Field, lo: real, hi: real)
    requires Numeric(f)
    requires |DatedOn(h, hoje)| > 0
    requires FieldWithin(DatedOn(h, hoje), f, lo, hi)
    ensures CalcularMedia(h, hoje, f).Finite?
    ensures lo <= CalcularMedia(h, hoje, f).value <= hi
  {
    var todays := DatedOn(h, hoje);
    forall x | x in todays
      ensures x.sample.Some?
    {
      var k :| 0 <= k < |todays| && todays[k] == x;
    }
    AverageIsMeanWhenAllSampled(h, hoje, f);
    MeanOfBoundedValues(DatedOn(h, hoje), f, lo, hi);
  }

  lemma MeanOfBoundedValues(rs: seq<Reading>, f: Field, lo: real, hi: real)
    requires Numeric(f)
    requires |rs| > 0
    requires FieldWithin(rs, f, lo, hi)
    ensures lo <= Mean(FieldSum(rs, f), |rs|) <= hi
  {
    FieldSumWithin(rs, f, lo, hi);
    MeanBetween(FieldSum(rs, f), |rs|, lo, hi);
  }

  /** When today has entries and every one of them has sensor fields, the
      average is the finite mean of their values. */
  lemma AverageIsMeanWhenAllSampled(h: seq<Reading>, hoje: DateKey, f: Field)
    requires Numeric(f)
    requires |DatedOn(h, hoje)| > 0
    requires forall x :: x in DatedOn(h, hoje) ==> x.sample.Some?
    ensures CalcularMedia(h, hoje, f) == Finite(Mean(FieldSum(DatedOn(h, hoje), f), |DatedOn(h, hoje)|))
  {
  }

  /** An entry dated on another day never changes today's average. */
  lemma OtherDayLeavesAverage(h: seq<Reading>, x: Reading, hoje: DateKey, f: Field)
    requires Numeric(f)
    requires x.hora.localDate != hoje
    ensures CalcularMedia(h + [x], hoje, f) == CalcularMedia(h, hoje, f)
  {
    DatedOnAppend(h, [x], hoje);
    assert DatedOn([x], hoje) == [] by { assert [x][1..] == []; }
    assert DatedOn(h, hoje) + [] == DatedOn(h, hoje);
  }
}
