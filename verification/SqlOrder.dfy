/** SELECT ... ORDER BY ... LIMIT over a set of rows or primary keys. */
module SqlOrder {
  type Order<!T> = (T, T) -> bool

  ghost predicate IsOrder<T(!new)>(before: Order<T>, rows: set<T>) {
    && (forall a, b | a in rows && b in rows :: a == b || before(a, b) || before(b, a))
    && (forall a, b | a in rows && b in rows && before(a, b) :: a != b && !before(b, a))
    && (forall a, b, c {:trigger before(a, b), before(b, c)} | a in rows && b in rows && c in rows && before(a, b)
         && before(b, c) :: before(a, c))
  }

  predicate IsFirst<T>(before: Order<T>, rows: set<T>, first: T) {
    first in rows && forall j | j in rows && j != first :: before(first, j)
  }

  lemma {:induction false} FirstExists<T(!new)>(before: Order<T>, rows: set<T>)
    requires rows != {} && IsOrder(before, rows)
    ensures exists first :: IsFirst(before, rows, first)
    decreases |rows|
  {
    var j :| j in rows;
    var rest := rows - {j};
    assert forall o | o in rows :: o == j || o in rest;
    if rest == {} {
      assert IsFirst(before, rows, j);
    } else {
      FirstExists(before, rest);
      var least :| IsFirst(before, rest, least);
      assert IsFirst(before, rows, j) || IsFirst(before, rows, least);
    }
  }

  function First<T(!new)>(before: Order<T>, rows: set<T>): (first: T)
    requires IsOrder(before, rows) && rows != {}
    ensures IsFirst(before, rows, first)
  {
    FirstExists(before, rows);
    var first :| IsFirst(before, rows, first);
    first
  }

  function FirstOf<T(!new)>(before: Order<T>, rows: set<T>, limit: nat): seq<T>
    requires IsOrder(before, rows)
    decreases |rows|
  {
    if rows == {} || limit == 0 then []
    else [First(before, rows)] + FirstOf(before, rows - {First(before, rows)}, limit - 1)
  }

  /** `chosen` are the first of the rows, in order, each once, and as many as there are and the limit allows. */
  ghost predicate IsPage<T(!new)>(before: Order<T>, rows: set<T>, limit: nat, chosen: seq<T>) {
    && |chosen| == (if |rows| < limit then |rows| else limit)
    && (forall i | 0 <= i < |chosen| :: chosen[i] in rows)
    && (forall i, k | 0 <= i < k < |chosen| :: before(chosen[i], chosen[k]))
    && (forall i, j | 0 <= i < |chosen| && j in rows && j !in chosen :: before(chosen[i], j))
  }

  lemma {:induction false} FirstOfIsPage<T(!new)>(before: Order<T>, rows: set<T>, limit: nat)
    requires IsOrder(before, rows)
    ensures IsPage(before, rows, limit, FirstOf(before, rows, limit))
    decreases |rows|
  {
    if rows != {} && limit != 0 {
      var r := FirstOf(before, rows, limit);
      FirstExists(before, rows);
      FirstOfIsPage(before, rows - {r[0]}, limit - 1);
      assert r[1..] == FirstOf(before, rows - {r[0]}, limit - 1);
      forall i | 0 < i < |r| ensures r[i] == r[1..][i - 1] && r[i] in rows - {r[0]} {}
    }
  }

  function Elements<T>(s: seq<T>): set<T> {
    set e | e in s
  }

  lemma ElementsOfCons<T>(first: T, rest: seq<T>, rows: set<T>)
    ensures rows - Elements([first] + rest) == rows - {first} - Elements(rest)
    ensures Elements([first] + rest) == {first} + Elements(rest)
  {
  }

  lemma FirstOfStep<T(!new)>(before: Order<T>, rows: set<T>, a: nat)
    requires IsOrder(before, rows) && rows != {} && a > 0
    ensures var more := rows - {First(before, rows)};
            var begun := FirstOf(before, more, a - 1);
            && FirstOf(before, rows, a) == [First(before, rows)] + begun
            && rows - Elements(FirstOf(before, rows, a)) == more - Elements(begun)
            && Elements(FirstOf(before, rows, a)) == {First(before, rows)} + Elements(begun)
  {
    var first := First(before, rows);
    ElementsOfCons(first, FirstOf(before, rows - {first}, a - 1), rows);
  }

  ghost predicate Splits<T(!new)>(before: Order<T>, rows: set<T>, a: nat, b: nat)
    requires IsOrder(before, rows)
  {
    FirstOf(before, rows, a + b)
      == FirstOf(before, rows, a) + FirstOf(before, rows - Elements(FirstOf(before, rows, a)), b)
  }

  lemma SplitsOneLater<T(!new)>(before: Order<T>, rows: set<T>, a: nat, b: nat)
    requires IsOrder(before, rows) && rows != {} && a > 0
    requires Splits(before, rows - {First(before, rows)}, a - 1, b)
    ensures Splits(before, rows, a, b)
  {
    FirstOfStep(before, rows, a);
    FirstOfStep(before, rows, a + b);
  }

  /** The first a + b rows are the first a, and then the first b of what is left. */
  lemma {:induction false} FirstOfSplits<T(!new)>(before: Order<T>, rows: set<T>, a: nat, b: nat)
    requires IsOrder(before, rows)
    ensures Splits(before, rows, a, b)
    decreases a
  {
    if rows == {} {
    } else if a == 0 {
      assert rows - Elements(FirstOf(before, rows, a)) == rows;
    } else {
      FirstOfSplits(before, rows - {First(before, rows)}, a - 1, b);
      SplitsOneLater(before, rows, a, b);
    }
  }

  lemma {:induction false} FirstOfAll<T(!new)>(before: Order<T>, rows: set<T>, limit: nat)
    requires IsOrder(before, rows) && |rows| <= limit
    ensures FirstOf(before, rows, limit) == FirstOf(before, rows, |rows|)
    decreases |rows|
  {
    if rows != {} {
      FirstOfAll(before, rows - {First(before, rows)}, limit - 1);
    }
  }

  lemma {:induction false} FirstOfCount<T(!new)>(before: Order<T>, rows: set<T>, a: nat)
    requires IsOrder(before, rows) && a <= |rows|
    ensures var first := FirstOf(before, rows, a);
            |first| == a && Elements(first) <= rows && |rows - Elements(first)| == |rows| - a
    decreases a
  {
    if a != 0 {
      FirstOfStep(before, rows, a);
      FirstOfCount(before, rows - {First(before, rows)}, a - 1);
    }
  }

  lemma SplitAt<T(!new)>(before: Order<T>, rows: set<T>, a: nat, b: nat)
    requires IsOrder(before, rows) && |rows| == a + b
    ensures FirstOf(before, rows, |rows|)
             == FirstOf(before, rows, a) + FirstOf(before, rows - Elements(FirstOf(before, rows, a)), b)
  {
    FirstOfSplits(before, rows, a, b);
  }

  /** Listing everything is listing the first a and then everything that is left. */
  lemma FirstOfRest<T(!new)>(before: Order<T>, rows: set<T>, a: nat)
    requires IsOrder(before, rows) && a <= |rows|
    ensures var first := FirstOf(before, rows, a);
            var rest := rows - Elements(first);
            && |first| == a && |rest| == |rows| - a && IsOrder(before, rest)
            && FirstOf(before, rows, |rows|) == first + FirstOf(before, rest, |rest|)
  {
    FirstOfCount(before, rows, a);
    SplitAt(before, rows, a, |rows| - a);
  }

  /** LIMIT n + 1 tells whether there are more than n rows, and its first n are those of LIMIT n. */
  lemma OneMoreTells<T(!new)>(before: Order<T>, rows: set<T>, limit: nat)
    requires IsOrder(before, rows)
    ensures var probe, first := FirstOf(before, rows, limit + 1), FirstOf(before, rows, limit);
            && (|probe| > limit <==> |rows| > limit)
            && first == if |probe| > limit then probe[..limit] else probe
  {
    if |rows| > limit {
      FirstOfSplits(before, rows, limit, 1);
      FirstOfCount(before, rows, limit);
      FirstOfCount(before, rows, limit + 1);
    } else {
      FirstOfAll(before, rows, limit);
      FirstOfAll(before, rows, limit + 1);
      FirstOfCount(before, rows, |rows|);
    }
  }

  /** A page below its limit holds every row. */
  lemma FullPageHasAll<T(!new)>(before: Order<T>, rows: set<T>, limit: nat, chosen: seq<T>, row: T)
    requires IsOrder(before, rows) && IsPage(before, rows, limit, chosen) && |chosen| < limit && row in rows
    ensures row in chosen
  {
    OrderedIsDistinct(before, rows, chosen);
    if row !in chosen {
      assert Elements(chosen) <= rows - {row};
      SubsetIsSmaller(Elements(chosen), rows - {row});
    }
  }

  lemma {:induction false} OrderedIsDistinct<T(!new)>(before: Order<T>, rows: set<T>, chosen: seq<T>)
    requires IsOrder(before, rows) && (forall i | 0 <= i < |chosen| :: chosen[i] in rows)
    requires forall i, k | 0 <= i < k < |chosen| :: before(chosen[i], chosen[k])
    ensures |Elements(chosen)| == |chosen|
    decreases |chosen|
  {
    if chosen != [] {
      OrderedIsDistinct(before, rows, chosen[1..]);
      assert chosen == [chosen[0]] + chosen[1..];
      ElementsOfCons(chosen[0], chosen[1..], rows);
      assert chosen[0] !in Elements(chosen[1..]) by {
        forall i | 0 <= i < |chosen[1..]| ensures chosen[1..][i] != chosen[0] {
          assert before(chosen[0], chosen[i + 1]);
        }
      }
    }
  }

  lemma {:induction false} SubsetIsSmaller<T>(a: set<T>, b: set<T>)
    requires a <= b
    ensures |a| <= |b|
    decreases |a|
  {
    if a != {} {
      var x :| x in a;
      SubsetIsSmaller(a - {x}, b - {x});
    }
  }
}
