/** How polls collapse into stored rows, and rows into buckets (app/inferenceinquire/schema.py). A
    table is modelled one column at a time, keyed by timestamp; a GPU table one card at a time. */
module Aggregates {

  import opened Basics

  /** The column classes. A peak column falls back on the column it is the peak of. */
  datatype Rule = Sum | Max | Min | Avg | Peak

  /** A stored value, and for a peak column the value of its base column. */
  datatype Row = Row(v: Option<real>, base: Option<real>)

  type Column = map<real, Option<real>>
  type Table = map<real, Row>

  // ------------------------------------------------------------ SQL aggregates --

  /** Two values under SUM, MAX or MIN, which skip NULL. */
  function Combine(k: Rule, a: Option<real>, b: Option<real>): Option<real> {
    if a.None? then b
    else if b.None? then a
    else Some(match k
              case Min => if a.value <= b.value then a.value else b.value
              case Max => if a.value >= b.value then a.value else b.value
              case Peak => if a.value >= b.value then a.value else b.value
              case _ => a.value + b.value)
  }

  lemma AnyOf<T>(s: set<T>) returns (x: T)
    requires s != {}
    ensures x in s
  {
    x :| x in s;
  }

  lemma {:induction false} LeastExists(s: set<real>)
    requires s != {}
    ensures exists x :: x in s && forall y :: y in s ==> x <= y
    decreases |s|
  {
    var k := AnyOf(s);
    var rest := s - {k};
    assert forall y :: y in s ==> y == k || y in rest;
    if rest == {} {
      assert k in s && forall y :: y in s ==> k <= y;
    } else {
      LeastExists(rest);
      var x :| x in rest && forall y :: y in rest ==> x <= y;
      var z := if x <= k then x else k;
      assert z in s && forall y :: y in s ==> z <= y;
    }
  }

  function Least(s: set<real>): (x: real)
    requires s != {}
    ensures x in s && forall y :: y in s ==> x <= y
  {
    LeastExists(s);
    var x :| x in s && forall y :: y in s ==> x <= y;
    x
  }

  /** SELECT MIN(ts). */
  function Earliest<T>(m: map<real, T>): (x: real)
    requires m != map[]
    ensures x in m && forall y :: y in m ==> x <= y
  {
    assert m.Keys != {};
    Least(m.Keys)
  }

  /** SUM, MAX or MIN of a column. */
  function Fold(k: Rule, m: Column): Option<real>
    decreases |m|
  {
    if m == map[] then None
    else
      var x := Earliest(m);
      Combine(k, m[x], Fold(k, m - {x}))
  }

  lemma {:induction false} FoldAny(k: Rule, m: Column, x: real)
    requires x in m
    ensures Fold(k, m) == Combine(k, m[x], Fold(k, m - {x}))
    decreases |m|
  {
    hide Combine;
    var y := Earliest(m);
    if x != y {
      CombineLaws(k, m[y], m[x], Fold(k, m - {x} - {y}));
      CombineLaws(k, m[x], m[y], Fold(k, m - {x} - {y}));
      FoldAny(k, m - {y}, x);
      FoldAny(k, m - {x}, y);
      assert m - {x} - {y} == m - {y} - {x};
    }
  }

  /** The values whose keys are in a set. */
  function Part(m: Column, keys: set<real>): Column { map x | x in m && x in keys :: m[x] }

  lemma CombineLaws(k: Rule, a: Option<real>, b: Option<real>, c: Option<real>)
    ensures Combine(k, Combine(k, a, b), c) == Combine(k, a, Combine(k, b, c))
    ensures Combine(k, a, b) == Combine(k, b, a)
  {
  }

  /** A column cut in two by its keys: an aggregate of the parts gives that of the whole. */
  lemma {:induction false} FoldSplit(k: Rule, m: Column, keys: set<real>)
    ensures Fold(k, m) == Combine(k, Fold(k, Part(m, keys)), Fold(k, m - keys))
    decreases |m|
  {
    hide Combine;
    if m == map[] {
      assert Part(m, keys) == map[] && m - keys == map[];
      CombineLaws(k, None, None, None);
      CombineNone(k, None);
    } else {
      var x := Earliest(m);
      FoldSplit(k, m - {x}, keys);
      var a, b := Fold(k, Part(m - {x}, keys)), Fold(k, m - {x} - keys);
      if x in keys {
        FoldAny(k, Part(m, keys), x);
        assert Part(m, keys) - {x} == Part(m - {x}, keys);
        assert m - {x} - keys == m - keys;
        CombineLaws(k, m[x], a, b);
      } else {
        assert Part(m, keys) == Part(m - {x}, keys);
        FoldAny(k, m - keys, x);
        assert (m - keys) - {x} == m - {x} - keys;
        CombineLaws(k, m[x], a, b);
        CombineLaws(k, a, m[x], b);
      }
    }
  }

  lemma CombineNone(k: Rule, a: Option<real>)
    ensures Combine(k, None, a) == a && Combine(k, a, None) == a
  {
  }

  /** 1 for each value that is not NULL. */
  function Ones(m: Column): Column { map x | x in m :: if m[x].Some? then Some(1.0) else None }

  /** How many values are not NULL. */
  function Count(m: Column): real { Fold(Sum, Ones(m)).Or(0.0) }

  /** AVG: NULL for no values at all. */
  function Average(m: Column): Option<real> {
    var sum := Fold(Sum, m);
    if sum.None? || Count(m) <= 0.0 then None else Some(sum.value / Count(m))
  }

  predicate Between(m: Column, lo: real, hi: real) {
    forall x :: x in m && m[x].Some? ==> lo <= m[x].value <= hi
  }

  predicate AllNull(m: Column) { forall x :: x in m ==> m[x].None? }

  lemma Distribute(lo: real, n: real)
    ensures lo * (1.0 + n) == lo + lo * n
  {
  }

  /** A sum and a count, against bounds on the values summed. */
  predicate SumOk(sum: Option<real>, n: real, lo: real, hi: real) {
    if sum.None? then n == 0.0 else n >= 1.0 && lo * n <= sum.value <= hi * n
  }

  lemma OneMoreValue(a: Option<real>, sum: Option<real>, n: real, lo: real, hi: real)
    requires SumOk(sum, n, lo, hi) && (a.Some? ==> lo <= a.value <= hi)
    ensures SumOk(Combine(Sum, a, sum), if a.Some? then 1.0 + n else n, lo, hi)
  {
    Distribute(lo, n);
    Distribute(hi, n);
  }

  lemma OneMore(m: Column, x: real)
    requires x in m
    ensures Fold(Sum, m) == Combine(Sum, m[x], Fold(Sum, m - {x}))
    ensures Count(m) == if m[x].Some? then 1.0 + Count(m - {x}) else Count(m - {x})
    ensures AllNull(m) <==> m[x].None? && AllNull(m - {x})
  {
    FoldAny(Sum, m, x);
    FoldAny(Sum, Ones(m), x);
    assert Ones(m) - {x} == Ones(m - {x});
    assert forall y :: y in m ==> y == x || (y in m - {x} && (m - {x})[y] == m[y]);
  }

  lemma {:induction false} SumBetween(m: Column, lo: real, hi: real)
    requires Between(m, lo, hi)
    ensures Fold(Sum, m).None? <==> AllNull(m)
    ensures SumOk(Fold(Sum, m), Count(m), lo, hi)
    decreases |m|
  {
    if m == map[] {
      assert Ones(m) == map[];
    } else {
      hide Fold, Count, SumOk;
      var x := Earliest(m);
      SumBetween(m - {x}, lo, hi);
      OneMore(m, x);
      OneMoreValue(m[x], Fold(Sum, m - {x}), Count(m - {x}), lo, hi);
    }
  }

  /** An average lies between the values it averages, and is NULL only if they all are. */
  lemma AverageBetween(m: Column, lo: real, hi: real)
    requires Between(m, lo, hi)
    ensures Average(m).None? <==> AllNull(m)
    ensures Average(m).Some? ==> lo <= Average(m).value <= hi
  {
    hide Fold, Count;
    SumBetween(m, lo, hi);
    if !AllNull(m) {
      Quotient(Fold(Sum, m).value, Count(m), lo, hi);
    }
  }

  lemma Quotient(s: real, n: real, lo: real, hi: real)
    requires n >= 1.0 && lo * n <= s <= hi * n
    ensures lo <= s / n <= hi
  {
  }

  // ---------------------------------------------------- what a column comes to --

  /** SUM, by any order of taking the values away. */
  ghost predicate AddsUpTo(m: Column, total: real)
    decreases |m|
  {
    if m == map[] then total == 0.0
    else forall x :: x in m ==> AddsUpTo(m - {x}, total - m[x].Or(0.0))
  }

  /** What each aggregate of a column is: NULL exactly for no values; else the sum of them, or one of
      them and at least, or at most, every other. */
  ghost predicate IsColumnAggregate(k: Rule, m: Column, r: Option<real>) {
    && (r.None? <==> AllNull(m))
    && (r.Some? ==>
          match k
          case Min => r in m.Values && forall x :: x in m && m[x].Some? ==> r.value <= m[x].value
          case Max => r in m.Values && forall x :: x in m && m[x].Some? ==> r.value >= m[x].value
          case Peak => r in m.Values && forall x :: x in m && m[x].Some? ==> r.value >= m[x].value
          case _ => AddsUpTo(m, r.value))
  }

  lemma {:induction false} FoldIsExtreme(k: Rule, m: Column)
    requires k == Min || k == Max || k == Peak
    ensures IsColumnAggregate(k, m, Fold(k, m))
    decreases |m|
  {
    if m == map[] {
    } else {
      var x := Earliest(m);
      var rest := m - {x};
      FoldIsExtreme(k, rest);
      assert forall y :: y in m <==> y == x || y in rest;
      assert forall y :: y in rest ==> rest[y] == m[y];
      assert m[x] in m.Values;
      assert forall v :: v in rest.Values ==> v in m.Values;
    }
  }

  lemma OneAdded(k: Rule, m: Column, x: real)
    requires x in m && (k == Sum || k == Avg)
    ensures Fold(k, m).Or(0.0) == m[x].Or(0.0) + Fold(k, m - {x}).Or(0.0)
  {
    hide Fold;
    FoldAny(k, m, x);
  }

  lemma {:induction false} FoldAddsUp(k: Rule, m: Column)
    requires k == Sum || k == Avg
    ensures AddsUpTo(m, Fold(k, m).Or(0.0))
    decreases |m|
  {
    if m == map[] {
    } else {
      hide Fold;
      forall x | x in m ensures AddsUpTo(m - {x}, Fold(k, m).Or(0.0) - m[x].Or(0.0)) {
        FoldAddsUp(k, m - {x});
        OneAdded(k, m, x);
      }
    }
  }

  /** SUM, MAX and MIN of a column are what they say. */
  lemma FoldIs(k: Rule, m: Column)
    ensures IsColumnAggregate(k, m, Fold(k, m))
  {
    if k == Sum || k == Avg {
      FoldAddsUp(k, m);
      FoldNull(k, m);
    } else {
      FoldIsExtreme(k, m);
    }
  }

  /** The keys of the values that are not NULL. */
  function NotNull(m: Column): set<real> { set x | x in m && m[x].Some? }

  lemma {:induction false} CountOfIs(m: Column)
    ensures Count(m) == |NotNull(m)| as real && (NotNull(m) == {} <==> AllNull(m))
    decreases |m|
  {
    if m == map[] {
      assert Ones(m) == map[] && Fold(Sum, map[]) == None;
      assert NotNull(m) == {} && Count(m) == 0.0;
    } else {
      hide Count;
      var x := Earliest(m);
      CountOfIs(m - {x});
      OneMore(m, x);
      assert NotNull(m) == if m[x].Some? then NotNull(m - {x}) + {x} else NotNull(m - {x});
      assert x !in NotNull(m - {x});
    }
  }

  /** So many times a number. */
  function TimesOver(x: real, n: nat): real { x * n as real }

  /** What an aggregate says of its column. */
  ghost predicate TellsColumn(rule: Rule, m: Column, r: Option<real>) {
    if rule != Avg then IsColumnAggregate(rule, m, r)
    else (r.None? <==> AllNull(m)) && (r.Some? ==> AddsUpTo(m, TimesOver(r.value, |NotNull(m)|)))
  }

  /** AVG times how many values there are is their sum. */
  lemma AverageIs(m: Column)
    ensures Average(m).Some? ==> AddsUpTo(m, TimesOver(Average(m).value, |NotNull(m)|))
    ensures Average(m).None? <==> AllNull(m)
  {
    hide Fold, Count, AddsUpTo, NotNull;
    FoldIs(Sum, m);
    CountOfIs(m);
    if !AllNull(m) {
      Multiplied(Fold(Sum, m).value, Count(m));
      assert TimesOver(Average(m).value, |NotNull(m)|) == Fold(Sum, m).value;
    }
  }

  lemma Multiplied(s: real, n: real)
    requires n > 0.0
    ensures s / n * n == s
  {
  }

  // ------------------------------------------------------------- rollup_select --

  function Cell(rule: Rule, r: Row): Option<real> {
    if rule == Peak && r.v.None? then r.base else r.v
  }

  function Cells(rule: Rule, t: Table): Column { map x | x in t :: Cell(rule, t[x]) }

  function Bases(t: Table): Column { map x | x in t :: t[x].base }

  function AggregateColumn(rule: Rule, m: Column): Option<real> {
    if rule == Avg then Average(m) else Fold(rule, m)
  }

  /** One row for many, by the column's rule; a base column is averaged. */
  function AggregateRows(rule: Rule, t: Table): Row {
    Row(AggregateColumn(rule, Cells(rule, t)), Average(Bases(t)))
  }

  lemma ColumnTells(rule: Rule, m: Column)
    ensures TellsColumn(rule, m, AggregateColumn(rule, m))
  {
    hide Fold, Average, IsColumnAggregate, AddsUpTo, NotNull, TimesOver;
    if rule == Avg {
      AverageIs(m);
    } else {
      FoldIs(rule, m);
    }
  }

  /** A row made of many: its value is the aggregate of theirs, a missing peak being taken for the mean
      beside it, and the mean beside it is that of their means. */
  lemma RowTells(rule: Rule, t: Table)
    ensures var r := AggregateRows(rule, t);
            TellsColumn(rule, Cells(rule, t), r.v) && TellsColumn(Avg, Bases(t), r.base)
    ensures forall x :: x in t ==> Cells(rule, t)[x] == if rule == Peak && t[x].v == None then t[x].base else t[x].v
  {
    hide TellsColumn, Average, Fold;
    ColumnTells(rule, Cells(rule, t));
    ColumnTells(Avg, Bases(t));
  }

  /** CAST(x AS INTEGER), which truncates toward zero. */
  function Cast(x: real): (n: int)
    ensures x >= 0.0 ==> 0.0 <= n as real <= x < n as real + 1.0
    ensures x <= 0.0 ==> n as real - 1.0 < x <= n as real <= 0.0
  {
    if x >= 0.0 then x.Floor else -((-x).Floor)
  }

  function BucketOf(ts: real, width: nat): int
    requires width > 0
  {
    Cast(ts / width as real)
  }

  /** The rows of the bucket that starts at s. */
  function InBucket(t: Table, width: nat, s: real): Table
    requires width > 0
  {
    map x | x in t && StampOf(x, width) == s :: t[x]
  }

  function Stamp(b: int, width: nat): real { (b * width) as real }

  /** The start of the bucket a timestamp falls in. */
  function StampOf(ts: real, width: nat): real
    requires width > 0
  {
    Stamp(BucketOf(ts, width), width)
  }

  function StampsOf(t: Table, width: nat): set<real>
    requires width > 0
  {
    set x | x in t :: StampOf(x, width)
  }

  /** GROUP BY bucket: one row per bucket that has any, stamped with the bucket's start. */
  function GroupBy(rule: Rule, t: Table, width: nat): Table
    requires width > 0
  {
    map s | s in StampsOf(t, width) :: AggregateRows(rule, InBucket(t, width, s))
  }

  // -------------------------------------------------------------- conservation --

  lemma {:induction false} FoldNull(k: Rule, m: Column)
    ensures Fold(k, m).None? <==> AllNull(m)
    decreases |m|
  {
    if m == map[] {
    } else {
      var x := Earliest(m);
      FoldNull(k, m - {x});
      assert forall y :: y in m ==> y == x || (y in m - {x} && (m - {x})[y] == m[y]);
    }
  }

  /** The classes whose totals survive being bucketed. */
  predicate Conserved(rule: Rule) { rule != Avg }

  /** The rows whose buckets start at one of the stamps. */
  function InBuckets(t: Table, width: nat, stamps: set<real>): Table
    requires width > 0
  {
    map x | x in t && StampOf(x, width) in stamps :: t[x]
  }

  /** Each bucket's aggregate, as a column. */
  function BucketFolds(rule: Rule, t: Table, width: nat, stamps: set<real>): Column
    requires width > 0
  {
    map s | s in stamps :: Fold(rule, Cells(rule, InBucket(t, width, s)))
  }

  lemma OneBucketOut(rule: Rule, t: Table, width: nat, stamps: set<real>, s: real)
    requires width > 0 && s in stamps
    ensures var whole, keys := Cells(rule, InBuckets(t, width, stamps)), InBucket(t, width, s).Keys;
            Part(whole, keys) == Cells(rule, InBucket(t, width, s)) &&
            whole - keys == Cells(rule, InBuckets(t, width, stamps - {s}))
    ensures BucketFolds(rule, t, width, stamps) - {s} == BucketFolds(rule, t, width, stamps - {s})
  {
    hide Fold, Cell, StampOf;
  }

  lemma {:induction false} FoldsOfFolds(rule: Rule, t: Table, width: nat, stamps: set<real>)
    requires width > 0
    ensures Fold(rule, BucketFolds(rule, t, width, stamps)) == Fold(rule, Cells(rule, InBuckets(t, width, stamps)))
    decreases |stamps|
  {
    if stamps == {} {
      assert BucketFolds(rule, t, width, stamps) == map[] && Cells(rule, InBuckets(t, width, stamps)) == map[];
    } else {
      hide Fold, Combine, Cells, InBuckets, Part;
      var s := AnyOf(stamps);
      FoldsOfFolds(rule, t, width, stamps - {s});
      OneBucketOut(rule, t, width, stamps, s);
      FoldAny(rule, BucketFolds(rule, t, width, stamps), s);
      FoldSplit(rule, Cells(rule, InBuckets(t, width, stamps)), InBucket(t, width, s).Keys);
    }
  }

  lemma GroupedCell(rule: Rule, t: Table)
    requires Conserved(rule)
    ensures Cell(rule, AggregateRows(rule, t)) == Fold(rule, Cells(rule, t))
  {
    if rule == Peak {
      FoldNull(rule, Cells(rule, t));
      if AllNull(Cells(rule, t)) {
        forall x | x in t ensures t[x].base.None? { assert Cells(rule, t)[x].None?; }
        AllNullAverage(Bases(t));
      }
    }
  }

  lemma AllNullAverage(m: Column)
    requires AllNull(m)
    ensures Average(m).None?
  {
    FoldNull(Sum, m);
  }

  lemma GroupedColumn(rule: Rule, t: Table, width: nat)
    requires width > 0 && Conserved(rule)
    ensures Cells(rule, GroupBy(rule, t, width)) == BucketFolds(rule, t, width, StampsOf(t, width))
  {
    hide Fold, Combine, Cell, StampOf, AggregateRows;
    forall s | s in StampsOf(t, width)
      ensures Cells(rule, GroupBy(rule, t, width))[s] == BucketFolds(rule, t, width, StampsOf(t, width))[s]
    {
      GroupedCell(rule, InBucket(t, width, s));
    }
  }

  /** Grouping a table into buckets, of any width, keeps its total, its maximum, its minimum and its
      peak. */
  lemma GroupConserves(rule: Rule, t: Table, width: nat)
    requires width > 0 && Conserved(rule)
    ensures Fold(rule, Cells(rule, GroupBy(rule, t, width))) == Fold(rule, Cells(rule, t))
  {
    hide Fold, Combine, Cell, StampOf, AggregateRows, GroupBy;
    FoldsOfFolds(rule, t, width, StampsOf(t, width));
    GroupedColumn(rule, t, width);
    assert InBuckets(t, width, StampsOf(t, width)) == t;
  }

  /** Grouping an averaged column keeps every value within the bounds of what went in. */
  lemma GroupStaysBetween(t: Table, width: nat, lo: real, hi: real)
    requires width > 0 && Between(Cells(Avg, t), lo, hi)
    ensures Between(Cells(Avg, GroupBy(Avg, t, width)), lo, hi)
  {
    forall s | s in GroupBy(Avg, t, width) && Cells(Avg, GroupBy(Avg, t, width))[s].Some?
      ensures lo <= Cells(Avg, GroupBy(Avg, t, width))[s].value <= hi
    {
      var part := Cells(Avg, InBucket(t, width, s));
      assert Between(part, lo, hi) by {
        forall x | x in part && part[x].Some? ensures lo <= part[x].value <= hi { assert Cells(Avg, t)[x] == part[x]; }
      }
      AverageBetween(part, lo, hi);
    }
  }

  // ------------------------------------------------------------ aligned ranges --

  lemma BucketBounds(x: real, width: nat)
    requires width > 0 && x >= 0.0
    ensures StampOf(x, width) <= x < StampOf(x, width) + width as real
  {
    var w := width as real;
    var q := x / w;
    Scale(0.0, q, w);
    StampIsProduct(q.Floor, width);
    FloorBounds(q, q.Floor as real, w, x, StampOf(x, width));
  }

  lemma FloorBounds(q: real, b: real, w: real, x: real, s: real)
    requires w > 0.0 && b <= q < b + 1.0 && x == q * w && s == b * w
    ensures s <= x < s + w
  {
    var d := q - b;
    ProductSign(d, w);
    ProductSign(1.0 - d, w);
    TimesSum(d, b, w);
    assert q == d + b && x == d * w + s;
    TimesSum(1.0, -d, w);
    TimesSum(d, -d, w);
    assert 1.0 - d == 1.0 + -d && (1.0 - d) * w == w - d * w;
  }

  lemma StampIsProduct(b: int, width: nat)
    ensures Stamp(b, width) == b as real * width as real
  {
  }

  lemma Scale(a: real, b: real, w: real)
    requires w > 0.0
    ensures a <= b ==> a * w <= b * w
    ensures a < b ==> a * w < b * w
  {
    ProductSign(b - a, w);
    TimesSum(b - a, a, w);
  }

  lemma TimesSum(a: real, b: real, w: real)
    ensures (a + b) * w == a * w + b * w
  {
  }

  lemma ProductSign(d: real, w: real)
    requires w > 0.0
    ensures d >= 0.0 ==> d * w >= 0.0
    ensures d > 0.0 ==> d * w > 0.0
  {
  }

  lemma ScaleInt(a: int, b: int, w: nat)
    ensures a >= b ==> a * w >= b * w
    ensures a < b ==> a * w + w <= b * w
  {
    if a < b {
      NotNegative(b - a - 1, w);
      assert (b - a - 1) * w == b * w - a * w - w;
    } else {
      NotNegative(a - b, w);
      assert (a - b) * w == a * w - b * w;
    }
  }

  lemma NotNegative(a: nat, b: nat)
    ensures a * b >= 0
  {
  }

  /** A bucket lies wholly before or wholly from an aligned moment on. */
  lemma AlignedSide(x: real, width: nat, m: int)
    requires width > 0 && x >= 0.0
    ensures StampOf(x, width) >= Stamp(m, width) <==> x >= Stamp(m, width)
  {
    BucketBounds(x, width);
    ScaleInt(BucketOf(x, width), m, width);
  }

  function Range(t: Table, since: real, until: real): Table { map x | x in t && since <= x < until :: t[x] }

  /** Selecting whole buckets from the grouped table is grouping the rows of that range. */
  lemma AlignedRangeCommutes(rule: Rule, t: Table, width: nat, m: int, n: int)
    requires width > 0 && forall x :: x in t ==> x >= 0.0
    ensures Range(GroupBy(rule, t, width), Stamp(m, width), Stamp(n, width))
         == GroupBy(rule, Range(t, Stamp(m, width), Stamp(n, width)), width)
  {
    var r := Range(t, Stamp(m, width), Stamp(n, width));
    forall x | x in t
      ensures StampOf(x, width) >= Stamp(m, width) <==> x >= Stamp(m, width)
      ensures StampOf(x, width) >= Stamp(n, width) <==> x >= Stamp(n, width)
    {
      AlignedSide(x, width, m);
      AlignedSide(x, width, n);
    }
    forall s | s in StampsOf(r, width) ensures InBucket(r, width, s) == InBucket(t, width, s) {}
  }

  // ----------------------------------------------------------- aggregate_window --

  function FoldSeq(k: Rule, vals: seq<Option<real>>): Option<real> {
    if vals == [] then None else Combine(k, FoldSeq(k, vals[..|vals| - 1]), vals[|vals| - 1])
  }

  function CountSeq(vals: seq<Option<real>>): nat {
    if vals == [] then 0 else CountSeq(vals[..|vals| - 1]) + if vals[|vals| - 1].Some? then 1 else 0
  }

  function AverageSeq(vals: seq<Option<real>>): Option<real> {
    var sum := FoldSeq(Sum, vals);
    if sum.None? || CountSeq(vals) == 0 then None else Some(sum.value / CountSeq(vals) as real)
  }

  // -------------------------------------------------------- what they come to --

  /** The values, added up; NULL adds nothing. */
  function Added(vals: seq<Option<real>>): real {
    if vals == [] then 0.0 else Added(vals[..|vals| - 1]) + vals[|vals| - 1].Or(0.0)
  }

  /** What each aggregate of a sequence is: NULL exactly for no values; else the sum of them, or one of
      them and at least, or at most, every other. */
  predicate IsAggregate(k: Rule, vals: seq<Option<real>>, r: Option<real>) {
    && (r.None? <==> forall i :: 0 <= i < |vals| ==> vals[i].None?)
    && (r.Some? ==>
          match k
          case Min => Some(r.value) in vals && forall i :: 0 <= i < |vals| && vals[i].Some? ==> r.value <= vals[i].value
          case Max => Some(r.value) in vals && forall i :: 0 <= i < |vals| && vals[i].Some? ==> r.value >= vals[i].value
          case Peak => Some(r.value) in vals && forall i :: 0 <= i < |vals| && vals[i].Some? ==> r.value >= vals[i].value
          case _ => r.value == Added(vals))
  }

  lemma {:induction false} FoldSeqIs(k: Rule, vals: seq<Option<real>>)
    ensures IsAggregate(k, vals, FoldSeq(k, vals))
    decreases |vals|
  {
    if vals == [] {
    } else {
      var front, v := vals[..|vals| - 1], vals[|vals| - 1];
      FoldSeqIs(k, front);
      assert vals == front + [v];
      assert forall x :: x in vals <==> x in front || x == v;
      NullsAddNothing(front);
    }
  }

  lemma {:induction false} NullsAddNothing(vals: seq<Option<real>>)
    ensures (forall i :: 0 <= i < |vals| ==> vals[i].None?) ==> Added(vals) == 0.0
    decreases |vals|
  {
    if vals == [] {
    } else {
      NullsAddNothing(vals[..|vals| - 1]);
    }
  }

  /** The places of the values that are not NULL. */
  function Places(vals: seq<Option<real>>): set<nat> { set i | 0 <= i < |vals| && vals[i].Some? }

  lemma {:induction false} CountIs(vals: seq<Option<real>>)
    ensures CountSeq(vals) == |Places(vals)|
    ensures CountSeq(vals) == 0 <==> forall i :: 0 <= i < |vals| ==> vals[i].None?
    decreases |vals|
  {
    if vals == [] {
    } else {
      var n := |vals| - 1;
      var front := vals[..n];
      CountIs(front);
      OnePlaceMore(vals);
      hide Places;
      assert forall i :: 0 <= i < n ==> front[i] == vals[i];
    }
  }

  lemma OnePlaceMore(vals: seq<Option<real>>)
    requires vals != []
    ensures var n := |vals| - 1;
            var before := Places(vals[..n]);
            n !in before && Places(vals) == if vals[n].Some? then before + {n} else before
  {
  }

  /** The mean of a sequence times how many values it has is their sum. */
  lemma MeanIs(vals: seq<Option<real>>)
    ensures AverageSeq(vals).None? <==> forall i :: 0 <= i < |vals| ==> vals[i].None?
    ensures AverageSeq(vals).Some? ==> TimesOver(AverageSeq(vals).value, |Places(vals)|) == Added(vals)
  {
    hide FoldSeq, Added, Places;
    FoldSeqIs(Sum, vals);
    CountIs(vals);
    FoldSeqNull(Sum, vals);
    if CountSeq(vals) > 0 {
      Multiplied(FoldSeq(Sum, vals).value, CountSeq(vals) as real);
    }
  }

  /** What a stored value says of its window. */
  predicate TellsWindow(rule: Rule, vals: seq<Option<real>>, r: Option<real>) {
    if rule != Avg then IsAggregate(rule, vals, r)
    else
      && (r.None? <==> forall i :: 0 <= i < |vals| ==> vals[i].None?)
      && (r.Some? ==> TimesOver(r.value, |Places(vals)|) == Added(vals))
  }

  /** The mean goes beside a peak, and beside nothing else. */
  predicate TellsRow(rule: Rule, vals: seq<Option<real>>, r: Row) {
    TellsWindow(rule, vals, r.v) && if rule == Peak then TellsWindow(Avg, vals, r.base) else r.base == None
  }

  lemma WindowRowTells(rule: Rule, vals: seq<Option<real>>)
    ensures TellsRow(rule, vals, WindowRow(rule, vals))
  {
    FoldSeqIs(rule, vals);
    MeanIs(vals);
    hide FoldSeq, AverageSeq, IsAggregate, Added, Places;
  }

  /** One stored row for a window of polls. */
  function WindowRow(rule: Rule, vals: seq<Option<real>>): Row {
    Row(if rule == Avg then AverageSeq(vals) else FoldSeq(rule, vals),
        if rule == Peak then AverageSeq(vals) else None)
  }

  lemma {:induction false} FoldSeqNull(k: Rule, vals: seq<Option<real>>)
    ensures FoldSeq(k, vals).None? <==> CountSeq(vals) == 0
    decreases |vals|
  {
    if vals == [] {
    } else {
      FoldSeqNull(k, vals[..|vals| - 1]);
    }
  }

  /** The values of a window that are not NULL, then their sum, maximum, minimum or mean. */
  method AggregateWindow(rule: Rule, vals: seq<Option<real>>) returns (r: Row)
    ensures r == WindowRow(rule, vals)
    ensures TellsRow(rule, vals, r)
  {
    hide TellsRow;
    WindowRowTells(rule, vals);
    var total, top, bottom: Option<real>, n := 0.0, None, None, 0;
    for i := 0 to |vals|
      invariant n == CountSeq(vals[..i])
      invariant n > 0 ==> FoldSeq(Sum, vals[..i]) == Some(total)
      invariant n == 0 ==> total == 0.0
      invariant top == FoldSeq(Max, vals[..i]) == FoldSeq(Peak, vals[..i])
      invariant bottom == FoldSeq(Min, vals[..i])
    {
      assert vals[..i + 1][..i] == vals[..i];
      FoldSeqNull(Sum, vals[..i]);
      if vals[i].Some? {
        var v := vals[i].value;
        total := total + v;
        n := n + 1;
        top := Some(if top.Some? && top.value >= v then top.value else v);
        bottom := Some(if bottom.Some? && bottom.value <= v then bottom.value else v);
      }
    }
    assert vals[..|vals|] == vals;
    FoldSeqNull(Sum, vals);
    var mean := if n == 0 then None else Some(total / n as real);
    r := match rule
      case Sum => Row(if n == 0 then None else Some(total), None)
      case Max => Row(top, None)
      case Min => Row(bottom, None)
      case Avg => Row(mean, None)
      case Peak => Row(top, mean);
  }

  /** A window of polls and the timestamp of its last one. */
  datatype Window = Window(ts: real, vals: seq<Option<real>>)

  predicate Ordered(ws: seq<Window>) { forall i, j :: 0 <= i < j < |ws| ==> ws[i].ts < ws[j].ts }

  function Polls(ws: seq<Window>): seq<Option<real>> {
    if ws == [] then [] else Polls(ws[..|ws| - 1]) + ws[|ws| - 1].vals
  }

  /** The stored table: INSERT OR REPLACE of each window's row. */
  function Stored(rule: Rule, ws: seq<Window>): Table {
    if ws == [] then map[] else Stored(rule, ws[..|ws| - 1])[ws[|ws| - 1].ts := WindowRow(rule, ws[|ws| - 1].vals)]
  }

  lemma {:induction false} FoldSeqAppend(k: Rule, a: seq<Option<real>>, b: seq<Option<real>>)
    ensures FoldSeq(k, a + b) == Combine(k, FoldSeq(k, a), FoldSeq(k, b))
    decreases |b|
  {
    if b == [] {
      assert a + b == a;
    } else {
      assert (a + b)[..|a + b| - 1] == a + b[..|b| - 1];
      FoldSeqAppend(k, a, b[..|b| - 1]);
      CombineLaws(k, FoldSeq(k, a), FoldSeq(k, b[..|b| - 1]), b[|b| - 1]);
    }
  }

  lemma {:induction false} StoredKeys(rule: Rule, ws: seq<Window>)
    ensures forall x :: x in Stored(rule, ws) <==> exists i :: 0 <= i < |ws| && ws[i].ts == x
    decreases |ws|
  {
    if ws == [] {
    } else {
      var front := ws[..|ws| - 1];
      StoredKeys(rule, front);
      assert forall i :: 0 <= i < |front| ==> front[i] == ws[i];
    }
  }

  lemma WindowCell(rule: Rule, vals: seq<Option<real>>)
    requires Conserved(rule)
    ensures Cell(rule, WindowRow(rule, vals)) == FoldSeq(rule, vals)
  {
    FoldSeqNull(rule, vals);
    FoldSeqNull(Sum, vals);
  }

  lemma NewRow(rule: Rule, t: Table, x: real, r: Row)
    requires x !in t
    ensures Fold(rule, Cells(rule, t[x := r])) == Combine(rule, Cell(rule, r), Fold(rule, Cells(rule, t)))
  {
    hide Combine, Cell;
    FoldAny(rule, Cells(rule, t[x := r]), x);
    assert Cells(rule, t[x := r]) - {x} == Cells(rule, t);
  }

  /** Storing windows keeps the total, maximum, minimum or peak of the polls in them. */
  lemma {:induction false} StoringConserves(rule: Rule, ws: seq<Window>)
    requires Conserved(rule) && Ordered(ws)
    ensures Fold(rule, Cells(rule, Stored(rule, ws))) == FoldSeq(rule, Polls(ws))
    decreases |ws|
  {
    if ws != [] {
      hide WindowRow, Combine, Cell, Cells, Fold, FoldSeq;
      var front, w := ws[..|ws| - 1], ws[|ws| - 1];
      StoringConserves(rule, front);
      StoredKeys(rule, front);
      assert forall i :: 0 <= i < |front| ==> front[i].ts < w.ts;
      NewRow(rule, Stored(rule, front), w.ts, WindowRow(rule, w.vals));
      WindowCell(rule, w.vals);
      FoldSeqAppend(rule, Polls(front), w.vals);
      CombineLaws(rule, FoldSeq(rule, Polls(front)), FoldSeq(rule, w.vals), None);
    } else {
      assert Cells(rule, Stored(rule, ws)) == map[];
    }
  }

  predicate BetweenSeq(vals: seq<Option<real>>, lo: real, hi: real) {
    forall i :: 0 <= i < |vals| && vals[i].Some? ==> lo <= vals[i].value <= hi
  }

  lemma {:induction false} SumSeqBetween(vals: seq<Option<real>>, lo: real, hi: real)
    requires BetweenSeq(vals, lo, hi)
    ensures SumOk(FoldSeq(Sum, vals), CountSeq(vals) as real, lo, hi)
  {
    if vals != [] {
      hide SumOk;
      var front := vals[..|vals| - 1];
      SumSeqBetween(front, lo, hi);
      OneMoreValue(vals[|vals| - 1], FoldSeq(Sum, front), CountSeq(front) as real, lo, hi);
      CombineLaws(Sum, FoldSeq(Sum, front), vals[|vals| - 1], None);
    } else {
      assert SumOk(None, 0.0, lo, hi);
    }
  }

  /** The stored mean of a window lies between its polls. */
  lemma WindowStaysBetween(vals: seq<Option<real>>, lo: real, hi: real)
    requires BetweenSeq(vals, lo, hi)
    ensures AverageSeq(vals).Some? ==> lo <= AverageSeq(vals).value <= hi
  {
    SumSeqBetween(vals, lo, hi);
    if AverageSeq(vals).Some? {
      Quotient(FoldSeq(Sum, vals).value, CountSeq(vals) as real, lo, hi);
    }
  }

  lemma {:induction false} StoredBetween(ws: seq<Window>, lo: real, hi: real)
    requires BetweenSeq(Polls(ws), lo, hi)
    ensures Between(Cells(Avg, Stored(Avg, ws)), lo, hi)
    decreases |ws|
  {
    if ws == [] {
    } else {
      var front, w := ws[..|ws| - 1], ws[|ws| - 1];
      assert forall i :: 0 <= i < |Polls(front)| ==> Polls(ws)[i] == Polls(front)[i];
      assert forall i :: 0 <= i < |w.vals| ==> Polls(ws)[|Polls(front)| + i] == w.vals[i];
      StoredBetween(front, lo, hi);
      WindowStaysBetween(w.vals, lo, hi);
      hide AverageSeq, Polls, FoldSeq;
      var before, after := Cells(Avg, Stored(Avg, front)), Cells(Avg, Stored(Avg, ws));
      forall x | x in after && after[x].Some? ensures lo <= after[x].value <= hi {
        assert x == w.ts || (x in before && after[x] == before[x]);
      }
    }
  }

  /** An averaged column shows nothing its polls did not: at every level of the history, and in any
      chart of it, each value lies between the least and the greatest of the polls. */
  lemma AveragesStayBetween(ws: seq<Window>, lo: real, hi: real, chart: nat)
    requires BetweenSeq(Polls(ws), lo, hi) && chart > 0
    ensures var rows := Stored(Avg, ws);
            var fine, coarse := GroupBy(Avg, rows, 300), GroupBy(Avg, rows, 3600);
            && Between(Cells(Avg, rows), lo, hi)
            && Between(Cells(Avg, fine), lo, hi) && Between(Cells(Avg, coarse), lo, hi)
            && Between(Cells(Avg, GroupBy(Avg, rows, chart)), lo, hi)
            && Between(Cells(Avg, GroupBy(Avg, fine, chart)), lo, hi)
            && Between(Cells(Avg, GroupBy(Avg, coarse, chart)), lo, hi)
  {
    hide GroupBy, Between, Cells, Stored;
    var rows := Stored(Avg, ws);
    StoredBetween(ws, lo, hi);
    GroupStaysBetween(rows, 300, lo, hi);
    GroupStaysBetween(rows, 3600, lo, hi);
    GroupStaysBetween(rows, chart, lo, hi);
    GroupStaysBetween(GroupBy(Avg, rows, 300), chart, lo, hi);
    GroupStaysBetween(GroupBy(Avg, rows, 3600), chart, lo, hi);
  }

  /** The main result on history: a count's grand total, an occupancy's maximum, health's minimum
      and a card's peak are those of the polls, and read the same from the polls, from the stored rows, from the 5-minute and
      hourly rollups, and from any chart drawn from any of them. */
  lemma ConservedThroughEveryLevel(rule: Rule, ws: seq<Window>, chart: nat)
    requires Conserved(rule) && Ordered(ws) && chart > 0
    ensures var polls, rows := FoldSeq(rule, Polls(ws)), Stored(rule, ws);
            var fine, coarse := GroupBy(rule, rows, 300), GroupBy(rule, rows, 3600);
            && IsAggregate(rule, Polls(ws), polls)
            && Fold(rule, Cells(rule, rows)) == polls
            && Fold(rule, Cells(rule, fine)) == polls
            && Fold(rule, Cells(rule, coarse)) == polls
            && Fold(rule, Cells(rule, GroupBy(rule, rows, chart))) == polls
            && Fold(rule, Cells(rule, GroupBy(rule, fine, chart))) == polls
            && Fold(rule, Cells(rule, GroupBy(rule, coarse, chart))) == polls
  {
    var rows := Stored(rule, ws);
    FoldSeqIs(rule, Polls(ws));
    hide IsAggregate, FoldSeq;
    StoringConserves(rule, ws);
    GroupConserves(rule, rows, 300);
    GroupConserves(rule, rows, 3600);
    GroupConserves(rule, rows, chart);
    GroupConserves(rule, GroupBy(rule, rows, 300), chart);
    GroupConserves(rule, GroupBy(rule, rows, 3600), chart);
  }

  /** The windows stored at times in a range. */
  function Within(ws: seq<Window>, a: real, b: real): seq<Window> {
    if ws == [] then []
    else
      var before, w := Within(ws[..|ws| - 1], a, b), ws[|ws| - 1];
      if a <= w.ts < b then before + [w] else before
  }

  lemma {:induction false} WithinIsOrdered(ws: seq<Window>, a: real, b: real)
    requires Ordered(ws)
    ensures Ordered(Within(ws, a, b))
    ensures forall i :: 0 <= i < |Within(ws, a, b)| ==> ws != [] && Within(ws, a, b)[i].ts <= ws[|ws| - 1].ts
    decreases |ws|
  {
    if ws == [] {
    } else {
      var front := ws[..|ws| - 1];
      WithinIsOrdered(front, a, b);
      assert front != [] ==> front[|front| - 1].ts < ws[|ws| - 1].ts;
    }
  }

  lemma RangeWith(t: Table, x: real, r: Row, a: real, b: real)
    ensures Range(t[x := r], a, b) == if a <= x < b then Range(t, a, b)[x := r] else Range(t, a, b)
  {
  }

  lemma {:induction false} RangeOfStored(rule: Rule, ws: seq<Window>, a: real, b: real)
    ensures Range(Stored(rule, ws), a, b) == Stored(rule, Within(ws, a, b))
    decreases |ws|
  {
    if ws == [] {
      assert Range(Stored(rule, ws), a, b) == map[];
    } else {
      hide WindowRow, Range;
      var front, w := ws[..|ws| - 1], ws[|ws| - 1];
      RangeOfStored(rule, front, a, b);
      RangeWith(Stored(rule, front), w.ts, WindowRow(rule, w.vals), a, b);
      var before := Within(front, a, b);
      assert (before + [w])[..|before|] == before;
    }
  }

  /** A chart over an aligned range reads the same: drawn from a rollup table, in buckets of any
      width, it has the total, maximum, minimum or peak of the polls stored in that range. */
  lemma AlignedRangeConserves(rule: Rule, ws: seq<Window>, width: nat, chart: nat, m: int, n: int)
    requires Conserved(rule) && Ordered(ws) && width > 0 && chart > 0
    requires forall i :: 0 <= i < |ws| ==> ws[i].ts >= 0.0
    ensures var a, b := Stamp(m, width), Stamp(n, width);
            var polls := FoldSeq(rule, Polls(Within(ws, a, b)));
            var range := Range(GroupBy(rule, Stored(rule, ws), width), a, b);
            Fold(rule, Cells(rule, range)) == polls && Fold(rule, Cells(rule, GroupBy(rule, range, chart))) == polls
  {
    hide GroupBy, Fold, FoldSeq, Cells, Stored, Range, Polls;
    var a, b := Stamp(m, width), Stamp(n, width);
    StoredKeys(rule, ws);
    AlignedRangeCommutes(rule, Stored(rule, ws), width, m, n);
    RangeOfStored(rule, ws, a, b);
    WithinIsOrdered(ws, a, b);
    StoringConserves(rule, Within(ws, a, b));
    GroupConserves(rule, Stored(rule, Within(ws, a, b)), width);
    GroupConserves(rule, GroupBy(rule, Stored(rule, Within(ws, a, b)), width), chart);
  }
}
