/**
  Placing rows in slots, for any kind of row: a collection of rows is consistent when every row
  passes its check, none is there twice, and no two of them claim the same slot.
 */
module Placement {

  ghost predicate Consistent<R(!new), S>(rows: multiset<R>, ok: R -> bool, slot: R -> S) {
    && (forall row {:trigger ok(row)} :: row in rows ==> ok(row))
    && (forall row :: row in rows ==> rows[row] == 1)
    && (forall row, other {:trigger slot(row), slot(other)} ::
        row in rows && other in rows && slot(row) == slot(other) ==> row == other)
  }

  ghost function Claimant<R(!new), S>(rows: multiset<R>, slot: R -> S, s: S): (row: R)
    requires exists row :: row in rows && slot(row) == s
    ensures row in rows && slot(row) == s
  {
    var row :| row in rows && slot(row) == s;
    row
  }

  /** The row behind every slot. */
  ghost function Placed<R(!new), S>(rows: multiset<R>, ok: R -> bool, slot: R -> S): (placed: map<S, R>)
    requires Consistent(rows, ok, slot)
    ensures forall row :: row in rows ==> slot(row) in placed && placed[slot(row)] == row
    ensures forall s :: s in placed ==> placed[s] in rows && slot(placed[s]) == s
  {
    var claimed := set row | row in rows :: slot(row);
    map s | s in claimed :: Claimant(rows, slot, s)
  }

  lemma TakenRefutes<R(!new), S>(rows: multiset<R>, ok: R -> bool, slot: R -> S, row: R, other: R)
    requires other in rows && slot(other) == slot(row)
    ensures !Consistent(rows + multiset{row}, ok, slot)
  {
    var now := rows + multiset{row};
    assert row in now && other in now;
    assert other == row ==> now[row] >= 2;
  }

  lemma FreeExtends<R(!new), S>(rows: multiset<R>, ok: R -> bool, slot: R -> S, row: R)
    requires Consistent(rows, ok, slot) && ok(row)
    requires forall other :: other in rows ==> slot(other) != slot(row)
    ensures Consistent(rows + multiset{row}, ok, slot)
  {
    assert row !in rows;
  }

  lemma Next<R(!new), S>(rows: multiset<R>, ok: R -> bool, slot: R -> S, row: R)
    requires Consistent(rows, ok, slot)
    ensures Consistent(rows + multiset{row}, ok, slot) <==> ok(row) && slot(row) !in Placed(rows, ok, slot)
  {
    assert row in rows + multiset{row};
    if slot(row) in Placed(rows, ok, slot) {
      TakenRefutes(rows, ok, slot, row, Placed(rows, ok, slot)[slot(row)]);
    } else if ok(row) {
      FreeExtends(rows, ok, slot, row);
    }
  }

  lemma PlacedNext<R(!new), S(!new)>(rows: multiset<R>, ok: R -> bool, slot: R -> S, row: R)
    requires Consistent(rows, ok, slot) && Consistent(rows + multiset{row}, ok, slot)
    ensures Placed(rows + multiset{row}, ok, slot) == Placed(rows, ok, slot)[slot(row) := row]
  {
    var now := rows + multiset{row};
    var placed, extended := Placed(rows, ok, slot), Placed(now, ok, slot);
    assert row in now;
    forall s | s in extended
      ensures s in placed[slot(row) := row] && extended[s] == placed[slot(row) := row][s]
    {
      assert extended[s] in now;
    }
    forall s | s in placed
      ensures s in extended
    {
      assert placed[s] in now;
    }
  }

  lemma ConsistentPart<R(!new), S>(part: multiset<R>, whole: multiset<R>, ok: R -> bool, slot: R -> S)
    requires part <= whole && Consistent(whole, ok, slot)
    ensures Consistent(part, ok, slot)
  {
    forall row | row in part
      ensures row in whole && part[row] <= whole[row]
    {
    }
  }

  /** The values of a map, replaced one by one. */
  ghost function Image<S, R, E>(placed: map<S, R>, f: R -> E): map<S, E> {
    map s | s in placed :: f(placed[s])
  }

  lemma ImageNext<S(!new), R, E>(placed: map<S, R>, f: R -> E, s: S, row: R)
    ensures Image(placed[s := row], f) == Image(placed, f)[s := f(row)]
  {
  }
}
