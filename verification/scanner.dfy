/** The scanner's ordering, its liquidity pool and its pages. */
module Scanner {
  import opened Common

  /** One instrument: `value` is the column being ranked, when it is known. */
  datatype Row = Row(symbol: Symbol, value: Option<int>)

  datatype Field = BySymbol | ByValue

  // ------------------------------------------------------------------
  // A stable sort
  // ------------------------------------------------------------------

  /** The comparisons the passes sort by; `reverse` flips the key, never the order of equals. */
  datatype Key = SymbolKey(reverse: bool) | ValueKey(reverse: bool)

  predicate SymbolLeq(a: Row, b: Row) {
    StringLeq(a.symbol.text, b.symbol.text)
  }

  predicate KeyLeq(key: Key, a: Row, b: Row) {
    match key
    case SymbolKey(reverse) => if reverse then SymbolLeq(b, a) else SymbolLeq(a, b)
    case ValueKey(reverse) =>
      if reverse then b.value.GetOr(0) <= a.value.GetOr(0) else a.value.GetOr(0) <= b.value.GetOr(0)
  }

  function Insert(key: Key, x: Row, s: seq<Row>): seq<Row> {
    if s == [] || KeyLeq(key, x, s[0]) then [x] + s else [s[0]] + Insert(key, x, s[1..])
  }

  /** Equal rows keep the order they came in. */
  function StableSort(key: Key, s: seq<Row>): seq<Row> {
    if s == [] then [] else Insert(key, s[0], StableSort(key, s[1..]))
  }

  /** What the rows are ranked by is known of this one; every row has a symbol. */
  predicate Known(field: Field, r: Row) {
    field.BySymbol? || r.value.Some?
  }

  function Present(field: Field, rows: seq<Row>): seq<Row> {
    if rows == [] then []
    else Present(field, rows[..|rows| - 1]) + if Known(field, rows[|rows| - 1]) then [rows[|rows| - 1]] else []
  }

  function Absent(field: Field, rows: seq<Row>): seq<Row> {
    if rows == [] then []
    else Absent(field, rows[..|rows| - 1]) + if Known(field, rows[|rows| - 1]) then [] else [rows[|rows| - 1]]
  }

  method Sort(rows: seq<Row>, field: Field, descending: bool) returns (sorted: seq<Row>)
    ensures sorted == Ranked(rows, field, descending)
  {
    var present, absent := [], [];
    for i := 0 to |rows|
      invariant present == Present(field, rows[..i]) && absent == Absent(field, rows[..i])
    {
      assert rows[..i + 1][..i] == rows[..i];
      if Known(field, rows[i]) {
        present := present + [rows[i]];
      } else {
        absent := absent + [rows[i]];
      }
    }
    assert rows[..|rows|] == rows;
    if field.BySymbol? {
      present := StableSort(SymbolKey(descending), present);
    } else {
      present := StableSort(SymbolKey(false), present);
      present := StableSort(ValueKey(descending), present);
    }
    absent := StableSort(SymbolKey(false), absent);
    sorted := present + absent;
  }

  function RankedKnown(present: seq<Row>, field: Field, descending: bool): seq<Row> {
    if field.BySymbol? then StableSort(SymbolKey(descending), present)
    else StableSort(ValueKey(descending), StableSort(SymbolKey(false), present))
  }

  function Ranked(rows: seq<Row>, field: Field, descending: bool): seq<Row> {
    RankedKnown(Present(field, rows), field, descending) + StableSort(SymbolKey(false), Absent(field, rows))
  }

  // ------------------------------------------------------------------
  // The order it means
  // ------------------------------------------------------------------

  predicate SymbolBefore(a: Row, b: Row) {
    a.symbol != b.symbol && SymbolLeq(a, b)
  }

  /**
    Known values come first, in the direction asked for; equal values by symbol ascending in
    both directions; unknown values last, by symbol ascending.
   */
  predicate Before(field: Field, descending: bool, a: Row, b: Row) {
    if field.BySymbol? then (if descending then SymbolBefore(b, a) else SymbolBefore(a, b))
    else if a.value.Some? && b.value.Some? then
      if a.value.value != b.value.value then
        (if descending then a.value.value > b.value.value else a.value.value < b.value.value)
      else SymbolBefore(a, b)
    else if a.value.Some? then true
    else if b.value.Some? then false
    else SymbolBefore(a, b)
  }

  predicate InOrder(field: Field, descending: bool, s: seq<Row>) {
    forall i, j :: 0 <= i < j < |s| ==> Before(field, descending, s[i], s[j])
  }

  predicate DistinctSymbols(s: seq<Row>) {
    forall i, j :: 0 <= i < j < |s| ==> s[i].symbol != s[j].symbol
  }

  lemma SymbolsDiffer(a: Row, b: Row)
    requires a.symbol != b.symbol
    ensures SymbolBefore(a, b) <==> !SymbolBefore(b, a)
    ensures SymbolLeq(a, b) || SymbolLeq(b, a)
  {
    StringLeqTotal(a.symbol.text, b.symbol.text);
    assert a.symbol == Symbol(a.symbol.text) && b.symbol == Symbol(b.symbol.text);
  }

  // ------------------------------------------------------------------
  // What a stable sort does
  // ------------------------------------------------------------------

  lemma {:induction false} InsertKeeps(key: Key, x: Row, s: seq<Row>)
    ensures multiset(Insert(key, x, s)) == multiset{x} + multiset(s)
  {
    if s != [] && !KeyLeq(key, x, s[0]) {
      InsertKeeps(key, x, s[1..]);
      assert s == [s[0]] + s[1..];
    }
  }

  lemma {:induction false} SortKeeps(key: Key, s: seq<Row>)
    ensures multiset(StableSort(key, s)) == multiset(s)
  {
    if s != [] {
      SortKeeps(key, s[1..]);
      InsertKeeps(key, s[0], StableSort(key, s[1..]));
      assert s == [s[0]] + s[1..];
    }
  }

  /** Sorted by the key, and equal keys in the order `tie`. */
  predicate SortedBy(key: Key, tie: Key, s: seq<Row>) {
    forall i, j :: 0 <= i < j < |s| ==> Precedes(key, tie, s[i], s[j])
  }

  predicate Precedes(key: Key, tie: Key, a: Row, b: Row) {
    KeyLeq(key, a, b) && (KeyLeq(key, b, a) ==> KeyLeq(tie, a, b))
  }

  lemma KeyIsTotal(key: Key, a: Row, b: Row)
    ensures KeyLeq(key, a, b) || KeyLeq(key, b, a)
  {
    StringLeqTotal(a.symbol.text, b.symbol.text);
  }

  lemma KeyIsTransitive(key: Key, a: Row, b: Row, c: Row)
    requires KeyLeq(key, a, b) && KeyLeq(key, b, c)
    ensures KeyLeq(key, a, c)
  {
    if key.SymbolKey? {
      if key.reverse {
        StringLeqTransitive(c.symbol.text, b.symbol.text, a.symbol.text);
      } else {
        StringLeqTransitive(a.symbol.text, b.symbol.text, c.symbol.text);
      }
    }
  }

  lemma {:induction false} InsertStays(key: Key, tie: Key, x: Row, s: seq<Row>)
    requires SortedBy(key, tie, s) && forall y <- s :: KeyLeq(tie, x, y)
    ensures SortedBy(key, tie, Insert(key, x, s))
  {
    var t := Insert(key, x, s);
    if s == [] {
    } else if KeyLeq(key, x, s[0]) {
      forall j | 0 <= j < |s|
        ensures Precedes(key, tie, x, s[j])
      {
        assert s[j] in s;
        if j > 0 {
          assert Precedes(key, tie, s[0], s[j]);
          KeyIsTransitive(key, x, s[0], s[j]);
        }
      }
    } else {
      var rest := Insert(key, x, s[1..]);
      assert forall y <- s[1..] :: y in s;
      InsertStays(key, tie, x, s[1..]);
      InsertKeeps(key, x, s[1..]);
      forall j | 0 <= j < |rest|
        ensures Precedes(key, tie, s[0], rest[j])
      {
        KeyIsTotal(key, x, s[0]);
        assert rest[j] in multiset(rest);
        if rest[j] != x {
          var k :| 0 <= k < |s[1..]| && s[1..][k] == rest[j];
          assert Precedes(key, tie, s[0], s[k + 1]);
        }
      }
    }
  }

  predicate KeySorted(key: Key, s: seq<Row>) {
    forall i, j :: 0 <= i < j < |s| ==> KeyLeq(key, s[i], s[j])
  }

  lemma TailMember(s: seq<Row>, y: Row) returns (k: nat)
    requires s != [] && y in multiset(s[1..])
    ensures 0 < k < |s| && s[k] == y
  {
    assert y in s[1..];
    var j :| 0 <= j < |s[1..]| && s[1..][j] == y;
    k := j + 1;
  }

  /** One pass over rows already in tie order: the two passes compose lexicographically. */
  lemma {:induction false} PassKeepsTies(key: Key, tie: Key, s: seq<Row>)
    requires KeySorted(tie, s)
    ensures SortedBy(key, tie, StableSort(key, s))
  {
    if s != [] {
      PassKeepsTies(key, tie, s[1..]);
      SortKeeps(key, s[1..]);
      var rest := StableSort(key, s[1..]);
      forall y <- rest
        ensures KeyLeq(tie, s[0], y)
      {
        assert y in multiset(rest);
        var k := TailMember(s, y);
      }
      InsertStays(key, tie, s[0], rest);
    }
  }

  /** A single pass sorts, whatever the order of its input. */
  lemma {:induction false} PassSorts(key: Key, s: seq<Row>)
    ensures KeySorted(key, StableSort(key, s))
  {
    if s != [] {
      PassSorts(key, s[1..]);
      InsertSorts(key, s[0], StableSort(key, s[1..]));
    }
  }

  lemma {:induction false} InsertSorts(key: Key, x: Row, s: seq<Row>)
    requires KeySorted(key, s)
    ensures KeySorted(key, Insert(key, x, s))
  {
    if s != [] {
      KeyIsTotal(key, x, s[0]);
      if KeyLeq(key, x, s[0]) {
        forall j | 0 < j < |s|
          ensures KeyLeq(key, x, s[j])
        {
          KeyIsTransitive(key, x, s[0], s[j]);
        }
      } else {
        InsertSorts(key, x, s[1..]);
        InsertKeeps(key, x, s[1..]);
        var rest := Insert(key, x, s[1..]);
        forall j | 0 <= j < |rest|
          ensures KeyLeq(key, s[0], rest[j])
        {
          assert rest[j] in multiset(rest);
          if rest[j] != x {
            var k := TailMember(s, rest[j]);
          }
        }
      }
    }
  }

  // ------------------------------------------------------------------
  // The ranking is canonical
  // ------------------------------------------------------------------

  lemma {:induction false} PartsAreAll(field: Field, rows: seq<Row>)
    ensures multiset(Present(field, rows)) + multiset(Absent(field, rows)) == multiset(rows)
  {
    if rows != [] {
      var n := |rows| - 1;
      PartsAreAll(field, rows[..n]);
      assert rows == rows[..n] + [rows[n]];
    }
  }

  lemma {:induction false} PartsDiffer(field: Field, rows: seq<Row>)
    ensures forall r <- Present(field, rows) :: Known(field, r)
    ensures forall r <- Absent(field, rows) :: !Known(field, r)
  {
    if rows != [] {
      PartsDiffer(field, rows[..|rows| - 1]);
    }
  }

  lemma DistinctMeansOnce(s: seq<Row>, t: seq<Row>)
    requires DistinctSymbols(s) && multiset(t) <= multiset(s)
    ensures DistinctSymbols(t)
  {
    forall i, j | 0 <= i < j < |t|
      ensures t[i].symbol != t[j].symbol
    {
      if t[i] == t[j] {
        TwiceInMultiset(t, i, j);
        OnceInMultiset(s, t[i]);
      } else {
        assert t[i] in multiset(t) && t[j] in multiset(t);
        assert t[i] in multiset(s) && t[j] in multiset(s);
        var a :| 0 <= a < |s| && s[a] == t[i];
        var b :| 0 <= b < |s| && s[b] == t[j];
      }
    }
  }

  lemma TwiceInMultiset(t: seq<Row>, i: nat, j: nat)
    requires i < j < |t| && t[i] == t[j]
    ensures multiset(t)[t[i]] >= 2
  {
    assert t == t[..j] + [t[j]] + t[j + 1..];
    assert t[i] == t[..j][i];
    assert t[i] in multiset(t[..j]);
  }

  lemma {:induction false} OnceInMultiset(s: seq<Row>, r: Row)
    requires DistinctSymbols(s)
    ensures multiset(s)[r] <= 1
  {
    if s != [] {
      var n := |s| - 1;
      OnceInMultiset(s[..n], r);
      assert s == s[..n] + [s[n]];
      if s[n] == r {
        assert forall x <- s[..n] :: x != r;
        assert r !in multiset(s[..n]);
      }
    }
  }

  lemma ValuePassesInOrder(rows: seq<Row>, descending: bool)
    requires DistinctSymbols(rows) && forall r <- rows :: r.value.Some?
    ensures var t := StableSort(ValueKey(descending), StableSort(SymbolKey(false), rows));
            InOrder(ByValue, descending, t) && multiset(t) == multiset(rows)
  {
    var first := StableSort(SymbolKey(false), rows);
    var t := StableSort(ValueKey(descending), first);
    PassSorts(SymbolKey(false), rows);
    PassKeepsTies(ValueKey(descending), SymbolKey(false), first);
    SortKeeps(SymbolKey(false), rows);
    SortKeeps(ValueKey(descending), first);
    DistinctMeansOnce(rows, t);
    forall i, j | 0 <= i < j < |t|
      ensures Before(ByValue, descending, t[i], t[j])
    {
      assert t[i] in multiset(t) && t[j] in multiset(t);
      assert t[i] in multiset(rows) && t[j] in multiset(rows);
      assert Precedes(ValueKey(descending), SymbolKey(false), t[i], t[j]);
    }
  }

  lemma SymbolPassInOrder(rows: seq<Row>, reverse: bool)
    requires DistinctSymbols(rows)
    ensures var t := StableSort(SymbolKey(reverse), rows);
            && multiset(t) == multiset(rows)
            && forall i, j :: 0 <= i < j < |t| ==>
                 if reverse then SymbolBefore(t[j], t[i]) else SymbolBefore(t[i], t[j])
  {
    PassSorts(SymbolKey(reverse), rows);
    SortKeeps(SymbolKey(reverse), rows);
    DistinctMeansOnce(rows, StableSort(SymbolKey(reverse), rows));
  }

  lemma KnownInOrder(present: seq<Row>, field: Field, descending: bool)
    requires DistinctSymbols(present) && forall r <- present :: Known(field, r)
    ensures var t := RankedKnown(present, field, descending);
            InOrder(field, descending, t) && multiset(t) == multiset(present)
  {
    if field.BySymbol? {
      SymbolPassInOrder(present, descending);
    } else {
      ValuePassesInOrder(present, descending);
    }
  }

  /** The passes produce the order they promise, and lose no row. */
  lemma RankedIsInOrder(rows: seq<Row>, field: Field, descending: bool)
    requires DistinctSymbols(rows)
    ensures InOrder(field, descending, Ranked(rows, field, descending))
    ensures multiset(Ranked(rows, field, descending)) == multiset(rows)
  {
    PartsAreAll(field, rows);
    PartsDiffer(field, rows);
    DistinctMeansOnce(rows, Present(field, rows));
    DistinctMeansOnce(rows, Absent(field, rows));
    KnownInOrder(Present(field, rows), field, descending);
    SymbolPassInOrder(Absent(field, rows), false);
    KnownThenUnknown(RankedKnown(Present(field, rows), field, descending), StableSort(SymbolKey(false), Absent(field, rows)),
                     field, descending, rows);
  }

  lemma SameSize(a: seq<Row>, b: seq<Row>)
    requires multiset(a) == multiset(b)
    ensures |a| == |b|
  {
    assert |multiset(a)| == |a|;
  }

  lemma KnownBeforeUnknown(field: Field, descending: bool, a: Row, b: Row)
    requires !Known(field, b) && (Known(field, a) || SymbolBefore(a, b))
    ensures Before(field, descending, a, b)
  {
  }

  lemma KnownThenUnknown(first: seq<Row>, last: seq<Row>, field: Field, descending: bool, rows: seq<Row>)
    requires multiset(first) == multiset(Present(field, rows)) && multiset(last) == multiset(Absent(field, rows))
    requires InOrder(field, descending, first)
    requires forall i, j :: 0 <= i < j < |last| ==> SymbolBefore(last[i], last[j])
    ensures InOrder(field, descending, first + last)
  {
    PartsDiffer(field, rows);
    var all := first + last;
    forall i, j | 0 <= i < j < |all|
      ensures Before(field, descending, all[i], all[j])
    {
      if j >= |first| {
        assert all[j] in multiset(last);
        if i < |first| {
          assert all[i] in multiset(first);
        }
        KnownBeforeUnknown(field, descending, all[i], all[j]);
      }
    }
  }

  lemma BeforeIsAsymmetric(field: Field, descending: bool, a: Row, b: Row)
    requires a.symbol != b.symbol
    ensures !(Before(field, descending, a, b) && Before(field, descending, b, a))
  {
    SymbolsDiffer(a, b);
  }

  lemma HeadsAgree(s: seq<Row>, t: seq<Row>, field: Field, descending: bool)
    requires DistinctSymbols(s) && multiset(s) == multiset(t) && s != [] && t != []
    requires InOrder(field, descending, s) && InOrder(field, descending, t)
    ensures s[0] == t[0]
  {
    assert t[0] in multiset(s) && s[0] in multiset(t);
    var j :| 0 <= j < |s| && s[j] == t[0];
    var k :| 0 <= k < |t| && t[k] == s[0];
    if j > 0 {
      BeforeIsAsymmetric(field, descending, s[0], s[j]);
    }
  }

  /** There is only one such order. */
  lemma {:induction false} OrderIsUnique(s: seq<Row>, t: seq<Row>, field: Field, descending: bool)
    requires DistinctSymbols(s) && multiset(s) == multiset(t)
    requires InOrder(field, descending, s) && InOrder(field, descending, t)
    ensures s == t
  {
    SameSize(s, t);
    if s != [] {
      HeadsAgree(s, t, field, descending);
      assert s == [s[0]] + s[1..] && t == [t[0]] + t[1..];
      assert multiset(s[1..]) == multiset(s) - multiset{s[0]};
      assert multiset(t[1..]) == multiset(t) - multiset{t[0]};
      OrderIsUnique(s[1..], t[1..], field, descending);
    }
  }

  /** The result depends on which rows there are, not on the order they arrive in. */
  lemma RankingIgnoresInputOrder(a: seq<Row>, b: seq<Row>, field: Field, descending: bool)
    requires DistinctSymbols(a) && multiset(a) == multiset(b)
    ensures Ranked(a, field, descending) == Ranked(b, field, descending)
  {
    DistinctMeansOnce(a, b);
    RankedIsInOrder(a, field, descending);
    RankedIsInOrder(b, field, descending);
    DistinctMeansOnce(a, Ranked(a, field, descending));
    OrderIsUnique(Ranked(a, field, descending), Ranked(b, field, descending), field, descending);
  }

  // ------------------------------------------------------------------
  // The liquidity pool
  // ------------------------------------------------------------------

  /** The most liquid rows; `value` is the 24-hour quote volume. */
  function Pool(rows: seq<Row>, size: nat): seq<Row> {
    var ranked := Ranked(rows, ByValue, true);
    ranked[..Min(size, |ranked|)]
  }

  /** Nothing left out of the pool is more liquid than anything in it; unknown volumes come in last. */
  lemma PoolIsTheTop(rows: seq<Row>, size: nat, inside: Row, outside: Row)
    requires DistinctSymbols(rows)
    requires inside in Pool(rows, size) && outside in rows && outside !in Pool(rows, size)
    ensures |Pool(rows, size)| == size && inside in rows
    ensures outside.value.Some? ==> inside.value.Some? && inside.value.value >= outside.value.value
  {
    RankedIsInOrder(rows, ByValue, true);
    var ranked := Ranked(rows, ByValue, true);
    assert outside in multiset(rows) && outside in multiset(ranked);
    var j :| 0 <= j < |ranked| && ranked[j] == outside;
    var i :| 0 <= i < |Pool(rows, size)| && Pool(rows, size)[i] == inside;
    assert ranked[i] == inside && inside in multiset(ranked);
    assert forall k :: 0 <= k < |Pool(rows, size)| ==> ranked[k] in Pool(rows, size);
    assert Before(ByValue, true, ranked[i], ranked[j]);
  }

  // ------------------------------------------------------------------
  // Pages
  // ------------------------------------------------------------------

  /** Pages count from one; a slice past the end is short or empty. */
  function Paginate(rows: seq<Row>, page: nat, size: nat): seq<Row>
    requires page >= 1
  {
    var start := (page - 1) * size;
    if start >= |rows| then [] else rows[start..Min(start + size, |rows|)]
  }

  function FirstPages(rows: seq<Row>, pages: nat, size: nat): seq<Row> {
    if pages == 0 then [] else FirstPages(rows, pages - 1, size) + Paginate(rows, pages, size)
  }

  lemma NextPage(rows: seq<Row>, start: nat, end: nat)
    requires start <= end
    ensures rows[..Min(start, |rows|)] + (if start >= |rows| then [] else rows[start..Min(end, |rows|)])
            == rows[..Min(end, |rows|)]
  {
  }

  /** Page after page gives the ranking back, every row once. */
  lemma {:induction false} PagesPartition(rows: seq<Row>, pages: nat, size: nat)
    ensures FirstPages(rows, pages, size) == rows[..Min(pages * size, |rows|)]
  {
    if pages > 0 {
      PagesPartition(rows, pages - 1, size);
      NextMultiple(pages - 1, size);
      NextPage(rows, (pages - 1) * size, (pages - 1) * size + size);
    }
  }
}
