/**
 * The expand/collapse toggle the admin tables share:
 * `prev.includes(id) ? prev.filter(r => r !== id) : [...prev, id]`.
 */
module RowToggle {
  import opened Util

  /** The expanded-row list after toggling `id`: the row is expanded afterwards exactly when it was not before. */
  function Toggled<T(==)>(rows: seq<T>, id: T): (r: seq<T>)
    ensures id in r <==> id !in rows
    ensures id !in rows ==> r == rows + [id]
  {
    if id in rows then
      FilterMembership(rows, x => x != id, id);
      Filter(rows, x => x != id)
    else rows + [id]
  }

  /** An absent id is appended at the end; a present id loses every occurrence. */
  lemma {:induction false} ToggledEffect<T>(rows: seq<T>, id: T)
    ensures id !in rows ==> Toggled(rows, id) == rows + [id]
    ensures id in rows ==> id !in Toggled(rows, id)
    ensures id in rows ==> IsSubseq(Toggled(rows, id), rows)
  {
    if id in rows {
      FilterMembership(rows, x => x != id, id);
      FilterIsSubseq(rows, x => x != id);
    }
  }

  /** Toggling flips the id's membership and never changes any other id's. */
  lemma {:induction false} ToggledMembership<T>(rows: seq<T>, id: T, other: T)
    ensures id in Toggled(rows, id) <==> id !in rows
    ensures other != id ==> (other in Toggled(rows, id) <==> other in rows)
  {
    if id in rows {
      FilterMembership(rows, x => x != id, id);
      FilterMembership(rows, x => x != id, other);
    }
  }

  /** Removing a present id is any filter that drops exactly that id. */
  lemma ToggledAsFilter<T>(rows: seq<T>, id: T, p: T -> bool)
    requires id in rows
    requires forall i :: 0 <= i < |rows| ==> p(rows[i]) == (rows[i] != id)
    ensures Toggled(rows, id) == Filter(rows, p)
  {
    FilterAgree(rows, x => x != id, p);
  }

  /** Toggling the same id twice restores its membership. */
  lemma {:induction false} ToggleTwice<T>(rows: seq<T>, id: T)
    ensures id in Toggled(Toggled(rows, id), id) <==> id in rows
  {
    ToggledMembership(rows, id, id);
    ToggledMembership(Toggled(rows, id), id, id);
  }

  /** Toggling twice on a list without `id` gives back exactly that list. */
  lemma {:induction false} ToggleTwiceAbsent<T>(rows: seq<T>, id: T)
    requires id !in rows
    ensures Toggled(Toggled(rows, id), id) == rows
  {
    assert id in rows + [id];
    FilterAppendDrop(rows, id);
  }

  /** Dropping `id` from `rows + [id]` gives `rows` back when `id` was not in `rows`. */
  lemma {:induction false} FilterAppendDrop<T>(rows: seq<T>, id: T)
    requires id !in rows
    ensures Filter(rows + [id], x => x != id) == rows
    decreases |rows|
  {
    if rows == [] {
      assert [id][1..] == [];
    } else {
      assert (rows + [id])[0] == rows[0];
      assert (rows + [id])[1..] == rows[1..] + [id];
      FilterAppendDrop(rows[1..], id);
      assert rows == [rows[0]] + rows[1..];
    }
  }
}
