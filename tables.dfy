/**
 * Rows of a gorm-managed table, kept in insertion order, each carrying the
 * primary key gorm.Model assigns.  `idOf` projects a row to that key.
 */
module Tables {
  import opened Wrappers

  /** Ids strictly increase in table order (the id sequence only moves forward). */
  ghost predicate IdsIncreasing<T>(rows: seq<T>, idOf: T -> nat)
  {
    forall i, j :: 0 <= i < j < |rows| ==> idOf(rows[i]) < idOf(rows[j])
  }

  /** Every id in the table was handed out before `next`. */
  ghost predicate IdsBelow<T>(rows: seq<T>, idOf: T -> nat, next: nat)
  {
    forall i :: 0 <= i < |rows| ==> idOf(rows[i]) < next
  }

  /** `First(&row, k)`: the position of the row whose primary key is `k`, if any. */
  function IndexOf<T>(rows: seq<T>, idOf: T -> nat, k: int): (r: Option<nat>)
    ensures r.Some? ==> r.value < |rows| && idOf(rows[r.value]) == k
    ensures r.Some? ==> forall i :: 0 <= i < r.value ==> idOf(rows[i]) != k
    ensures r.None? <==> forall i :: 0 <= i < |rows| ==> idOf(rows[i]) != k
  {
    if rows == [] then None
    else if idOf(rows[0]) == k then Some(0)
    else match IndexOf(rows[1..], idOf, k)
      case None => None
      case Some(j) => Some(j + 1)
  }

  /** Tables with the same ids at the same positions answer every lookup alike. */
  lemma {:induction false} IndexOfSameIds<T>(a: seq<T>, b: seq<T>, idOf: T -> nat, k: int)
    requires |a| == |b| && forall i :: 0 <= i < |a| ==> idOf(a[i]) == idOf(b[i])
    ensures IndexOf(a, idOf, k) == IndexOf(b, idOf, k)
  {
    if a != [] { IndexOfSameIds(a[1..], b[1..], idOf, k); }
  }

  /** With increasing ids the row found is the only one carrying that id. */
  lemma IndexOfOnly<T>(rows: seq<T>, idOf: T -> nat, k: int, j: nat)
    requires IdsIncreasing(rows, idOf)
    requires IndexOf(rows, idOf, k).Some?
    requires j < |rows| && j != IndexOf(rows, idOf, k).value
    ensures idOf(rows[j]) != k
  {
    var i := IndexOf(rows, idOf, k).value;
    if j < i { } else { assert idOf(rows[i]) < idOf(rows[j]); }
  }

  /** Appending a row whose id is the counter `next` keeps both table invariants, moved to `next + 1`. */
  lemma AppendFresh<T>(rows: seq<T>, idOf: T -> nat, next: nat, row: T)
    requires IdsIncreasing(rows, idOf) && IdsBelow(rows, idOf, next)
    requires idOf(row) == next
    ensures IdsIncreasing(rows + [row], idOf) && IdsBelow(rows + [row], idOf, next + 1)
  {
    var s := rows + [row];
    forall i, j | 0 <= i < j < |s| ensures idOf(s[i]) < idOf(s[j]) {
      if j == |rows| { assert s[i] == rows[i]; } else { assert s[i] == rows[i] && s[j] == rows[j]; }
    }
  }
}
