/** The layout all three pitch components share: the squad is split into
    starters and bench by a flag, and the starters are split into formation
    rows by an exact match of their position tag. Each of the components
    supplies its own flag, labels and row order. */
module PitchLayout {
  import opened Common

  /** Formation rows in rendering order, then the bench. */
  datatype Formation<T> = Formation(rows: seq<seq<T>>, bench: seq<T>)

  function AtPosition<T>(pos: T -> string, tag: string): T -> bool {
    p => pos(p) == tag
  }

  function StarterAt<T>(starter: T -> bool, pos: T -> string, tag: string): T -> bool {
    p => starter(p) && pos(p) == tag
  }

  /** Filters the starters once per row tag, and the bench separately. */
  function Arrange<T(!new)>(players: seq<T>, starter: T -> bool, benched: T -> bool,
                            pos: T -> string, labels: seq<string>): (f: Formation<T>)
    ensures |f.rows| == |labels|
    ensures forall i :: 0 <= i < |labels| ==> f.rows[i] == Filter(players, StarterAt(starter, pos, labels[i]))
    ensures forall i, x :: 0 <= i < |labels| ==>
              (x in f.rows[i] <==> x in players && starter(x) && pos(x) == labels[i])
    ensures forall x :: x in f.bench <==> x in players && benched(x)
  {
    var starters := Filter(players, starter);
    var rows := seq(|labels|, i requires 0 <= i < |labels| => Filter(starters, AtPosition(pos, labels[i])));
    RowsAreOnePass(players, starter, pos, labels, rows);
    Formation(rows, Filter(players, benched))
  }

  /** Filtering the starters by tag is one filter by "starter at tag". */
  lemma RowsAreOnePass<T>(players: seq<T>, starter: T -> bool, pos: T -> string,
                          labels: seq<string>, rows: seq<seq<T>>)
    requires |rows| == |labels|
    requires forall i :: 0 <= i < |labels| ==> rows[i] == Filter(Filter(players, starter), AtPosition(pos, labels[i]))
    ensures forall i :: 0 <= i < |labels| ==> rows[i] == Filter(players, StarterAt(starter, pos, labels[i]))
  {
    forall i | 0 <= i < |labels|
      ensures rows[i] == Filter(players, StarterAt(starter, pos, labels[i]))
    {
      FilterFilter(players, starter, AtPosition(pos, labels[i]), StarterAt(starter, pos, labels[i]));
    }
  }

  /** `x` is in row `k` and in no other row. */
  ghost predicate OnlyInRow<T>(rows: seq<seq<T>>, x: T, k: int) {
    forall i :: 0 <= i < |rows| ==> (x in rows[i] <==> i == k)
  }

  ghost predicate InNoRow<T>(rows: seq<seq<T>>, x: T) {
    forall i :: 0 <= i < |rows| ==> x !in rows[i]
  }

  /** With pairwise different labels, a starter whose label is listed sits in
      exactly one row, the one with its label, and one whose label is not
      listed sits in none. */
  lemma RowOfStarter<T(!new)>(players: seq<T>, starter: T -> bool, benched: T -> bool,
                              pos: T -> string, labels: seq<string>, x: T)
    requires Distinct(labels)
    requires x in players && starter(x)
    ensures var f := Arrange(players, starter, benched, pos, labels);
      pos(x) in labels ==> exists k :: 0 <= k < |labels| && labels[k] == pos(x) && OnlyInRow(f.rows, x, k)
    ensures pos(x) !in labels ==> InNoRow(Arrange(players, starter, benched, pos, labels).rows, x)
  {
    var f := Arrange(players, starter, benched, pos, labels);
    if pos(x) in labels {
      var k :| 0 <= k < |labels| && labels[k] == pos(x);
      assert OnlyInRow(f.rows, x, k);
    }
  }

  /** The number of starters whose label is `tag`. */
  function RowCount<T>(players: seq<T>, starter: T -> bool, pos: T -> string): string -> int {
    tag => |Filter(players, StarterAt(starter, pos, tag))|
  }

  /** With pairwise different labels covering every starter's label, the row
      sizes add up to the number of starters. */
  lemma {:induction false} CountsCoverStarters<T>(players: seq<T>, starter: T -> bool, pos: T -> string,
                                                 labels: seq<string>)
    requires Distinct(labels)
    requires forall i :: 0 <= i < |players| && starter(players[i]) ==> pos(players[i]) in labels
    ensures SumBy(labels, RowCount(players, starter, pos)) == |Filter(players, starter)|
  {
    if |players| > 0 {
      var x, rest := players[0], players[1..];
      assert forall i :: 0 <= i < |rest| ==> rest[i] == players[i + 1];
      CountsCoverStarters(rest, starter, pos, labels);
      var here := (t: string) => if starter(x) && t == pos(x) then 1 else 0;
      SumByAdd(labels, RowCount(rest, starter, pos), here, RowCount(players, starter, pos));
      IndicatorSum(labels, here, pos(x), starter(x));
      if starter(x) {
        DistinctOnce(labels, pos(x));
        assert pos(x) in labels;
      }
    } else {
      IndicatorSum(labels, RowCount(players, starter, pos), "", false);
    }
  }

  function RowSize<T>(row: seq<T>): int { |row| }

  /** When every starter's label is listed once, the rows together hold every
      starter exactly once: their sizes add up to the number of starters. */
  lemma RowsHoldEveryStarter<T(!new)>(players: seq<T>, starter: T -> bool, benched: T -> bool,
                                      pos: T -> string, labels: seq<string>)
    requires Distinct(labels)
    requires forall i :: 0 <= i < |players| && starter(players[i]) ==> pos(players[i]) in labels
    ensures SumBy(Arrange(players, starter, benched, pos, labels).rows, RowSize) == |Filter(players, starter)|
  {
    var f := Arrange(players, starter, benched, pos, labels);
    SumByMap(f.rows, RowSize, labels, RowCount(players, starter, pos));
    CountsCoverStarters(players, starter, pos, labels);
  }

  /** The "×m" badge beside a player's points: shown exactly when the
      multiplier exceeds 1 (captain or triple captain). */
  function MultiplierBadge(multiplier: int): (r: Option<int>)
    ensures r.Some? <==> multiplier > 1
    ensures r.Some? ==> r.value == multiplier
  {
    if multiplier > 1 then Some(multiplier) else None
  }
}
