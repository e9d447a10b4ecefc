/**
  Shapes shared by every table of the in-memory store: the outcome of an
  `UPDATE ... WHERE` or an `INSERT`, the "nothing else changed" frame
  condition, and the order in which a table scan yields its rows.
  Keys are naturals, the model's abstract UUIDs.
 */
module Tables {
  import opened Wrappers

  /** Outcome of an update: whether some row matched the WHERE clause, and the table afterwards. */
  datatype Written<T> = Written(matched: bool, rows: T)

  /** Outcome of an insert: the new row's key when the store accepted it, and the table afterwards. */
  datatype Inserted<T> = Inserted(created: Option<nat>, rows: T)

  /** No row appeared or vanished, and every row other than `id` is as before. */
  ghost predicate SameElsewhere<V>(t: map<nat, V>, t': map<nat, V>, id: nat) {
    && t'.Keys == t.Keys
    && forall k :: k in t && k != id ==> t'[k] == t[k]
  }

  /** The elements of `r` strictly increase, so none repeats. */
  ghost predicate Increasing(r: seq<nat>) {
    forall i, j :: 0 <= i < j < |r| ==> r[i] < r[j]
  }

  /** A least element of a non-empty finite set, found by removing elements one at a time. */
  ghost function Min(s: set<nat>): (m: nat)
    requires s != {}
    ensures m in s
    ensures forall x :: x in s ==> m <= x
    decreases |s|
  {
    var y :| y in s;
    if s == {y} then y
    else
      var m := Min(s - {y});
      assert forall x :: x in s ==> x == y || x in s - {y};
      if y < m then y else m
  }

  /** The smallest key of a non-empty finite set. */
  function Least(s: set<nat>): (m: nat)
    requires s != {}
    ensures m in s
    ensures forall x :: x in s ==> m <= x
  {
    assert Min(s) in s && forall x :: x in s ==> Min(s) <= x;
    var m :| m in s && forall x :: x in s ==> m <= x;
    m
  }

  /**
    The keys of `s` in ascending order. The source leaves the order of a
    SELECT unspecified; the model fixes it to ascending keys.
   */
  function Ascending(s: set<nat>): (r: seq<nat>)
    ensures forall x :: x in r <==> x in s
    ensures Increasing(r)
    decreases |s|
  {
    if s == {} then []
    else
      var m := Least(s);
      [m] + Ascending(s - {m})
  }

  /** The keys of `ids`, in order, whose rows `keep` accepts. */
  function Filter<V>(t: map<nat, V>, ids: seq<nat>, keep: V -> bool): (r: seq<nat>)
    requires forall i :: 0 <= i < |ids| ==> ids[i] in t
    ensures forall k :: k in r <==> k in ids && keep(t[k])
    ensures forall i :: 0 <= i < |r| ==> r[i] in ids
    ensures Increasing(ids) ==> Increasing(r)
    decreases |ids|
  {
    if ids == [] then []
    else
      var rest := Filter(t, ids[1..], keep);
      assert forall i :: 0 <= i < |rest| ==> rest[i] in ids[1..];
      if keep(t[ids[0]]) then [ids[0]] + rest else rest
  }

  /**
    `SELECT id WHERE keep(row)`: the keys of exactly the rows `keep`
    accepts, each once, in ascending order.
   */
  function Select<V>(t: map<nat, V>, keep: V -> bool): (r: seq<nat>)
    ensures forall k :: k in r <==> k in t && keep(t[k])
    ensures Increasing(r)
  {
    Filter(t, Ascending(t.Keys), keep)
  }
}
