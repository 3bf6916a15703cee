/** In-memory lists of backend rows keyed by an id, as the back-office screens keep them:
    `prev.map((r) => r.id === id ? { ...r, ... } : r)` after a successful update and
    `prev.filter((r) => r.id !== id)` after a successful delete. The row type and its
    key are parameters. */
module KeyedList {
  import opened Common

  /** The rows whose key is not `id`, in their order. */
  function WithoutId<T(==)>(rows: seq<T>, key: T -> string, id: string): seq<T>
  {
    Filter(rows, (r: T) => key(r) != id)
  }

  /** Every row with key `id` replaced by `change` of it; the others untouched. */
  function ReplaceId<T>(rows: seq<T>, key: T -> string, id: string, change: T -> T): seq<T>
  {
    seq(|rows|, i requires 0 <= i < |rows| => if key(rows[i]) == id then change(rows[i]) else rows[i])
  }

  /** A delete removes every row with that key and keeps every other row, as many times
      as it occurs and in order; it changes nothing when no row has that key. */
  lemma WithoutIdSpec<T>(rows: seq<T>, key: T -> string, id: string)
    ensures forall i :: 0 <= i < |WithoutId(rows, key, id)| ==> key(WithoutId(rows, key, id)[i]) != id
    ensures forall i :: 0 <= i < |rows| && key(rows[i]) != id ==> rows[i] in WithoutId(rows, key, id)
    ensures forall r :: multiset(WithoutId(rows, key, id))[r] == if key(r) != id then multiset(rows)[r] else 0
    ensures IsSubsequence(WithoutId(rows, key, id), rows)
    ensures (forall i :: 0 <= i < |rows| ==> key(rows[i]) != id) ==> WithoutId(rows, key, id) == rows
  {
    var keep := (r: T) => key(r) != id;
    FilterSpec(rows, keep);
    if forall i :: 0 <= i < |rows| ==> key(rows[i]) != id {
      FilterKeepsAll(rows, keep);
    }
  }

  /** When exactly one row has that key, a delete removes just that position. */
  lemma WithoutUniqueId<T>(rows: seq<T>, key: T -> string, id: string, k: nat)
    requires k < |rows| && key(rows[k]) == id
    requires forall i :: 0 <= i < |rows| && i != k ==> key(rows[i]) != id
    ensures WithoutId(rows, key, id) == rows[..k] + rows[k + 1..]
  {
    FilterDropsOne(rows, k, (r: T) => key(r) != id);
  }
}
