/**
 * `select_xticks` and `select_dates`: thin out a sequence of ticks by taking
 * every `offset`-th one, where `offset = len(ticks) // max_ticks`.
 */
module Ticks {
  import opened Values

  /** Python's `a // b`: division rounding towards minus infinity. */
  function FloorDiv(a: int, b: int): (q: int)
    requires b != 0
    ensures b > 0 ==> q * b <= a < q * b + b
    ensures b < 0 ==> q * b + b < a <= q * b
  {
    if b > 0 then a / b else (-a) / (-b)
  }

  /** Python's `s[::step]` for a positive step: the first element, then every step-th after it. */
  function Strided<T>(s: seq<T>, step: nat): seq<T>
    requires step > 0
    decreases |s|
  {
    if s == [] then []
    else if |s| <= step then [s[0]]
    else [s[0]] + Strided(s[step..], step)
  }

  /** A product with one factor shifted by one. */
  lemma ShiftedProduct(i: nat, step: nat)
    requires i > 0
    ensures (i - 1) * step + step == i * step
  {
  }

  /**
   * `s[::step]` has ceil(|s| / step) elements: the fewest whose strides
   * cover `s`.
   */
  lemma {:induction false} StridedLength<T>(s: seq<T>, step: nat)
    requires step > 0
    ensures |s| <= |Strided(s, step)| * step
    ensures Strided(s, step) != [] ==> (|Strided(s, step)| - 1) * step < |s|
    decreases |s|
  {
    if |s| > step {
      var rest := s[step..];
      StridedLength(rest, step);
      var n := |Strided(rest, step)|;
      assert |Strided(s, step)| == n + 1;
      ShiftedProduct(n + 1, step);
    }
  }

  /** The i-th element of `s[::step]` is `s[i * step]`. */
  lemma {:induction false} StridedElements<T>(s: seq<T>, step: nat)
    requires step > 0
    ensures forall i :: 0 <= i < |Strided(s, step)| ==> i * step < |s| && Strided(s, step)[i] == s[i * step]
    decreases |s|
  {
    if |s| > step {
      var rest := s[step..];
      StridedElements(rest, step);
      var t := Strided(s, step);
      assert t == [s[0]] + Strided(rest, step);
      forall i | 0 <= i < |t|
        ensures i * step < |s| && t[i] == s[i * step]
      {
        if i > 0 {
          assert t[i] == Strided(rest, step)[i - 1];
          ShiftedProduct(i, step);
        }
      }
    }
  }

  /** Both halves of the stride's meaning. */
  lemma StridedAt<T>(s: seq<T>, step: nat)
    requires step > 0
    ensures |s| <= |Strided(s, step)| * step
    ensures Strided(s, step) != [] ==> (|Strided(s, step)| - 1) * step < |s|
    ensures forall i :: 0 <= i < |Strided(s, step)| ==> i * step < |s| && Strided(s, step)[i] == s[i * step]
  {
    StridedLength(s, step);
    StridedElements(s, step);
  }

  /** The first tick is always kept. */
  lemma StridedKeepsFirst<T>(s: seq<T>, step: nat)
    requires step > 0 && s != []
    ensures Strided(s, step) != [] && Strided(s, step)[0] == s[0]
  {
  }

  /** Dividing by `max_ticks = 0` raises ZeroDivisionError. */
  datatype ZeroDivisionError = ZeroDivisionError

  /** `len(ticks) // max_ticks`. */
  function Offset(n: nat, maxTicks: int): Result<int, ZeroDivisionError> {
    if maxTicks == 0 then Err(ZeroDivisionError) else Ok(FloorDiv(n, maxTicks))
  }

  /**
   * The thinned ticks of `select_xticks`: the ticks themselves unless the
   * offset exceeds 1, every offset-th tick otherwise.
   */
  function SelectXticks<T>(ticks: seq<T>, maxTicks: int): (r: Result<seq<T>, ZeroDivisionError>)
    ensures r.Err? <==> maxTicks == 0
    ensures r.Ok? && ticks != [] ==> r.value != [] && r.value[0] == ticks[0]
  {
    var offset :- Offset(|ticks|, maxTicks);
    if offset > 1 then Ok(Strided(ticks, offset)) else Ok(ticks)
  }

  /** Floor division of a count by a negative number is never above 0. */
  lemma NegativeOffset(n: nat, maxTicks: int)
    requires maxTicks < 0
    ensures FloorDiv(n, maxTicks) <= 0
  {
  }

  /** Fewer than twice `max_ticks` ticks give an offset of at most 1. */
  lemma SmallOffset(n: nat, maxTicks: int)
    requires maxTicks > 0 && n < 2 * maxTicks
    ensures FloorDiv(n, maxTicks) <= 1
  {
  }

  /**
   * The ticks come back unchanged when `max_ticks` is negative or when there
   * are fewer than twice `max_ticks` of them.
   */
  lemma SelectXticksUnchanged<T>(ticks: seq<T>, maxTicks: int)
    requires maxTicks < 0 || (maxTicks > 0 && |ticks| < 2 * maxTicks)
    ensures SelectXticks(ticks, maxTicks) == Ok(ticks)
  {
    if maxTicks < 0 {
      NegativeOffset(|ticks|, maxTicks);
    } else {
      SmallOffset(|ticks|, maxTicks);
    }
  }

  /**
   * With an offset above 1 the result has ceil(n / offset) ticks, the i-th
   * being tick i * offset.
   */
  lemma SelectXticksStride<T>(ticks: seq<T>, maxTicks: int)
    requires maxTicks > 0 && |ticks| / maxTicks > 1
    ensures var offset := |ticks| / maxTicks;
            && SelectXticks(ticks, maxTicks).Ok?
            && |ticks| <= |SelectXticks(ticks, maxTicks).value| * offset
            && (|SelectXticks(ticks, maxTicks).value| - 1) * offset < |ticks|
            && forall i :: 0 <= i < |SelectXticks(ticks, maxTicks).value| ==>
                 i * offset < |ticks| && SelectXticks(ticks, maxTicks).value[i] == ticks[i * offset]
  {
    StridedAt(ticks, |ticks| / maxTicks);
  }

  /**
   * The thinned ticks can outnumber `max_ticks`: 59 ticks with at most 20
   * give an offset of 2 and 30 ticks.
   */
  lemma MoreThanMaxTicks<T>(ticks: seq<T>)
    requires |ticks| == 59
    ensures SelectXticks(ticks, 20).Ok? && |SelectXticks(ticks, 20).value| == 30
  {
    assert FloorDiv(59, 20) == 2;
    StridedAt(ticks, 2);
  }

  /** The position of the first occurrence of `x` in `s`. */
  function FirstIndex<T(==)>(s: seq<T>, x: T): (i: nat)
    requires x in s
    ensures i < |s| && s[i] == x && x !in s[..i]
  {
    if s[0] == x then 0 else 1 + FirstIndex(s[1..], x)
  }

  /** `u` lists values of `s` sorted by the position where each first occurs. */
  ghost predicate FirstSeenOrder<T>(s: seq<T>, u: seq<T>) {
    && (forall x :: x in u ==> x in s)
    && forall i, j :: 0 <= i < j < |u| ==> FirstIndex(s, u[i]) < FirstIndex(s, u[j])
  }

  /** Away from the head, first occurrences shift by one position. */
  lemma FirstIndexTail<T>(s: seq<T>, x: T)
    requires x in s && x != s[0]
    ensures x in s[1..] && FirstIndex(s, x) == 1 + FirstIndex(s[1..], x)
  {
  }

  /** Values ordered in the tail of `s`, none of them its head, stay ordered in `s`. */
  lemma OrderInTail<T>(s: seq<T>, rest: seq<T>)
    requires s != [] && s[0] !in rest && FirstSeenOrder(s[1..], rest)
    ensures FirstSeenOrder(s, rest)
  {
    forall i | 0 <= i < |rest| ensures rest[i] in s && FirstIndex(s, rest[i]) == 1 + FirstIndex(s[1..], rest[i]) {
      assert rest[i] in s[1..];
      assert rest[i] in s by {
        var m :| 0 <= m < |s[1..]| && s[1..][m] == rest[i];
        assert s[m + 1] == rest[i];
      }
      FirstIndexTail(s, rest[i]);
    }
  }

  /** The head of `s` followed by values ordered in its tail is ordered in `s`. */
  lemma OrderWithHead<T>(s: seq<T>, rest: seq<T>)
    requires s != [] && s[0] !in rest && FirstSeenOrder(s[1..], rest)
    ensures FirstSeenOrder(s, [s[0]] + rest)
  {
    OrderInTail(s, rest);
    var u := [s[0]] + rest;
    forall i, j | 0 <= i < j < |u| ensures FirstIndex(s, u[i]) < FirstIndex(s, u[j]) {
      assert u[j] == rest[j - 1];
      if i > 0 {
        assert u[i] == rest[i - 1];
      }
    }
  }

  /**
   * `Series.unique()`: the distinct values in the order they are first
   * seen, so the values come out sorted by their first position.
   */
  function Unique<T(==, !new)>(s: seq<T>): (u: seq<T>)
    ensures forall x :: x in u <==> x in s
    ensures forall i, j :: 0 <= i < j < |u| ==> u[i] != u[j]
    ensures FirstSeenOrder(s, u)
    ensures |u| <= |s|
    ensures s != [] ==> u != [] && u[0] == s[0]
  {
    var u := UniqueAfter(s, []);
    assert [] + u == u;
    u
  }

  /** The distinct values of `s` not already in `seen`, first-seen order. */
  function UniqueAfter<T(==, !new)>(s: seq<T>, seen: seq<T>): (u: seq<T>)
    requires forall i, j :: 0 <= i < j < |seen| ==> seen[i] != seen[j]
    ensures forall x :: x in u <==> x in s && x !in seen
    ensures forall i, j :: 0 <= i < j < |seen + u| ==> (seen + u)[i] != (seen + u)[j]
    ensures FirstSeenOrder(s, u)
    ensures |u| <= |s|
    ensures s != [] && s[0] !in seen ==> u != [] && u[0] == s[0]
    decreases |s|
  {
    if s == [] then []
    else if s[0] in seen then
      var rest := UniqueAfter(s[1..], seen);
      OrderInTail(s, rest);
      rest
    else
      var rest := UniqueAfter(s[1..], seen + [s[0]]);
      assert seen + [s[0]] + rest == seen + ([s[0]] + rest);
      OrderWithHead(s, rest);
      [s[0]] + rest
  }

  /** Elements of a strided sequence are elements of the sequence. */
  lemma StridedWithin<T>(s: seq<T>, step: nat, x: T)
    requires step > 0 && x in Strided(s, step)
    ensures x in s
  {
    StridedAt(s, step);
    var i :| 0 <= i < |Strided(s, step)| && Strided(s, step)[i] == x;
  }

  /** Positions of a strided sequence come from increasing positions of the sequence. */
  lemma StridedDistinct<T>(s: seq<T>, step: nat)
    requires step > 0
    requires forall i, j :: 0 <= i < j < |s| ==> s[i] != s[j]
    ensures forall i, j :: 0 <= i < j < |Strided(s, step)| ==> Strided(s, step)[i] != Strided(s, step)[j]
  {
    StridedAt(s, step);
    forall i, j | 0 <= i < j < |Strided(s, step)|
      ensures Strided(s, step)[i] != Strided(s, step)[j]
    {
      assert i * step < j * step by {
        assert (j - i) * step > 0;
      }
    }
  }

  /**
   * `select_dates` as written: without a `return` in its `else` branch a
   * call whose offset is at most 1 returns None.
   */
  function SelectDatesAsWritten(days: seq<int>, maxTicks: int): Result<Option<seq<int>>, ZeroDivisionError> {
    var xticks := Unique(days);
    var offset :- Offset(|xticks|, maxTicks);
    if offset > 1 then Ok(Some(Strided(xticks, offset))) else Ok(NoResult)
  }

  /** Python's optional return value: a sequence, or None. */
  datatype Option<T> = Some(value: T) | NoResult

  /**
   * With the default `max_ticks` of 30, any series of fewer than 60 values
   * comes back as None; a single day is one.
   */
  lemma SelectDatesLosesFewDays(days: seq<int>)
    requires |days| < 60
    ensures SelectDatesAsWritten(days, 30) == Ok(NoResult)
    ensures SelectDatesAsWritten([1], 30) == Ok(NoResult)
  {
    assert FloorDiv(|Unique(days)|, 30) <= 1;
    assert |Unique([1])| <= 1;
  }

  /** The written function returns None exactly when the offset is at most 1. */
  lemma AsWrittenNoneIff(days: seq<int>, maxTicks: int)
    requires maxTicks != 0
    ensures SelectDatesAsWritten(days, maxTicks) == Ok(NoResult) <==> FloorDiv(|Unique(days)|, maxTicks) <= 1
  {
  }

  /**
   * `select_dates` with the `else` branch returning the unique days: the
   * distinct days of the series, thinned like the x ticks; always a result.
   */
  function SelectDates(days: seq<int>, maxTicks: int): (r: Result<seq<int>, ZeroDivisionError>)
    ensures r.Err? <==> maxTicks == 0
    ensures r.Ok? ==> forall d :: d in r.value ==> d in days
    ensures r.Ok? ==> forall i, j :: 0 <= i < j < |r.value| ==> r.value[i] != r.value[j]
    ensures r.Ok? && days != [] ==> r.value != [] && r.value[0] == days[0]
    ensures r.Ok? && FloorDiv(|Unique(days)|, maxTicks) <= 1 ==> r.value == Unique(days)
  {
    var xticks := Unique(days);
    var offset :- Offset(|xticks|, maxTicks);
    if offset > 1 then
      StridedDistinct(xticks, offset);
      forall d | d in Strided(xticks, offset) ensures d in days {
        StridedWithin(xticks, offset, d);
      }
      Ok(Strided(xticks, offset))
    else Ok(xticks)
  }

  /** The corrected function agrees with the written one wherever that one returns a value. */
  lemma SelectDatesAgrees(days: seq<int>, maxTicks: int)
    requires SelectDatesAsWritten(days, maxTicks).Ok? && SelectDatesAsWritten(days, maxTicks).value.Some?
    ensures SelectDates(days, maxTicks) == Ok(SelectDatesAsWritten(days, maxTicks).value.value)
  {
  }
}
