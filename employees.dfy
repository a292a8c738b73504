/**
 * The employee list (src/app/api/employees/route.ts): every user when no
 * employee account exists, otherwise each user joined to an employee
 * account, once, in the order of their first account row.
 */
module Employees {
  import opened Common

  /** A `users` row; a null `full_name` is the empty string. */
  datatype User = User(id: string, username: string, fullName: string)

  /** One entry of the response. */
  datatype Listing = Listing(id: string, username: string, fullName: string, displayName: string)

  function UserId(u: User): string { u.id }

  function ListingId(l: Listing): string { l.id }

  /** A listed user: the display name is the full name, or the username when that is empty. */
  function ListingOf(u: User): (l: Listing)
    ensures l.id == u.id && l.username == u.username && l.fullName == u.fullName
    ensures u.fullName != "" ==> l.displayName == u.fullName
    ensures u.fullName == "" ==> l.displayName == u.username
  {
    Listing(u.id, u.username, u.fullName, if u.fullName != "" then u.fullName else u.username)
  }

  /** The fallback list: one entry per user in the order given. */
  function Listings(users: seq<User>): (ls: seq<Listing>)
    ensures |ls| == |users| && forall i :: 0 <= i < |users| ==> ls[i] == ListingOf(users[i])
  {
    seq(|users|, i requires 0 <= i < |users| => ListingOf(users[i]))
  }

  /** The values of the rows that are not null, in order. */
  function Present<T>(rows: seq<Option<T>>): (us: seq<T>)
    ensures forall i :: 0 <= i < |us| ==> Some(us[i]) in rows
    ensures forall i :: 0 <= i < |rows| && rows[i].Some? ==> rows[i].value in us
  {
    if rows == [] then []
    else
      var init := rows[..|rows| - 1];
      var r := rows[|rows| - 1];
      assert forall i :: 0 <= i < |init| ==> init[i] == rows[i];
      Present(init) + (if r.Some? then [r.value] else [])
  }

  /**
   * The state of `uniqueEmployees` after the rows `us`: for each key the view
   * of the first row of that key, the keys in order of first appearance.
   */
  ghost predicate Kept<T, K(!new), V>(m: map<K, V>, order: seq<K>, us: seq<T>, key: T -> K, view: T -> V)
  {
    && order == Dedup(KeyList(us, key)) && m.Keys == Elems(order)
    && KeptFirst(m, us, key, view)
  }

  ghost predicate KeptFirst<T, K(!new), V>(m: map<K, V>, us: seq<T>, key: T -> K, view: T -> V)
  {
    forall k :: k in m ==> FirstBy(us, key, k).Some? && m[k] == view(FirstBy(us, key, k).value)
  }

  /** A key seen before leaves the order of first appearance as it was. */
  lemma {:induction false} KeepOrder<T, K>(order: seq<K>, us: seq<T>, u: T, key: T -> K)
    requires order == Dedup(KeyList(us, key)) && key(u) in Elems(order)
    ensures order == Dedup(KeyList(us + [u], key))
  {
    var ks := KeyList(us, key);
    assert KeyList(us + [u], key) == ks + [key(u)];
    DedupSnoc(ks, key(u));
  }

  /** A row of a kept key leaves the first row of every kept key as it was. */
  lemma {:induction false} KeepSkipFirst<T, K(!new), V>(m: map<K, V>, us: seq<T>, u: T, key: T -> K, view: T -> V)
    requires KeptFirst(m, us, key, view)
    ensures KeptFirst(m, us + [u], key, view)
  {
    forall k | k in m ensures FirstBy(us + [u], key, k) == FirstBy(us, key, k) {
      FirstBySnoc(us, u, key, k);
    }
  }

  /** A row whose key is already kept changes nothing. */
  lemma {:induction false} KeepSkip<T, K(!new), V>(m: map<K, V>, order: seq<K>, us: seq<T>, u: T, key: T -> K, view: T -> V)
    requires Kept(m, order, us, key, view) && key(u) in m
    ensures Kept(m, order, us + [u], key, view)
  {
    KeepOrder(order, us, u, key);
    KeepSkipFirst(m, us, u, key, view);
  }

  lemma FirstByAbsent<T, K>(us: seq<T>, key: T -> K, k: K)
    requires k !in KeyList(us, key)
    ensures FirstBy(us, key, k).None?
  {
    FirstByIsFirst(us, key, k);
  }

  lemma {:induction false} KeepNewFirst<T, K(!new), V>(m: map<K, V>, us: seq<T>, u: T, key: T -> K, view: T -> V)
    requires KeptFirst(m, us, key, view) && FirstBy(us, key, key(u)).None?
    ensures KeptFirst(m[key(u) := view(u)], us + [u], key, view)
  {
    forall k | k in m[key(u) := view(u)]
      ensures FirstBy(us + [u], key, k).Some? && m[key(u) := view(u)][k] == view(FirstBy(us + [u], key, k).value)
    {
      FirstBySnoc(us, u, key, k);
    }
  }

  /** A new key extends the order of first appearance by itself, and is the key of no earlier row. */
  lemma {:induction false} KeepNewOrder<T, K>(order: seq<K>, us: seq<T>, u: T, key: T -> K)
    requires order == Dedup(KeyList(us, key)) && key(u) !in Elems(order)
    ensures order + [key(u)] == Dedup(KeyList(us + [u], key))
    ensures Elems(order + [key(u)]) == Elems(order) + {key(u)}
    ensures FirstBy(us, key, key(u)).None?
  {
    var ks := KeyList(us, key);
    assert KeyList(us + [u], key) == ks + [key(u)];
    DedupSnoc(ks, key(u));
    FirstByAbsent(us, key, key(u));
  }

  /** A row of a new key is kept, after the keys kept so far. */
  lemma {:induction false} KeepNew<T, K(!new), V>(m: map<K, V>, order: seq<K>, us: seq<T>, u: T, key: T -> K, view: T -> V)
    requires Kept(m, order, us, key, view) && key(u) !in m
    ensures Kept(m[key(u) := view(u)], order + [key(u)], us + [u], key, view)
  {
    KeepNewOrder(order, us, u, key);
    KeepNewFirst(m, us, u, key, view);
  }

  /** The rows of one more account row. */
  lemma PresentSnoc<T>(rows: seq<Option<T>>, j: nat)
    requires j < |rows|
    ensures Present(rows[..j + 1]) == Present(rows[..j]) + (if rows[j].Some? then [rows[j].value] else [])
  {
    assert rows[..j + 1][..j] == rows[..j];
  }

  lemma {:induction false} FirstByKey<T, K>(us: seq<T>, key: T -> K, k: K)
    requires FirstBy(us, key, k).Some?
    ensures key(FirstBy(us, key, k).value) == k
  {
    if key(us[0]) != k {
      FirstByKey(us[1..], key, k);
    }
  }

  /** The kept views in the map's insertion order. */
  lemma {:induction false} KeptValues<T, K(!new), V>(m: map<K, V>, order: seq<K>, us: seq<T>, key: T -> K, view: T -> V, vs: seq<V>)
    requires Kept(m, order, us, key, view)
    requires |vs| == |order| && forall i :: 0 <= i < |order| ==> order[i] in m && vs[i] == m[order[i]]
    ensures forall i :: 0 <= i < |vs| ==> FirstBy(us, key, order[i]).Some? && vs[i] == view(FirstBy(us, key, order[i]).value)
    ensures forall i :: 0 <= i < |vs| ==> key(FirstBy(us, key, order[i]).value) == order[i]
  {
    forall i | 0 <= i < |vs| ensures key(FirstBy(us, key, order[i]).value) == order[i] {
      FirstByKey(us, key, order[i]);
    }
  }

  /**
   * Each present row whose key is not yet in the map stored under its key as
   * its view, then the map's values in insertion order.
   */
  method KeepFirst<T, K(==,!new), V>(rows: seq<Option<T>>, key: T -> K, view: T -> V) returns (out: seq<V>, ghost order: seq<K>)
    ensures order == Dedup(KeyList(Present(rows), key)) && |out| == |order|
    ensures forall i :: 0 <= i < |out| ==>
      FirstBy(Present(rows), key, order[i]).Some? && out[i] == view(FirstBy(Present(rows), key, order[i]).value)
    ensures forall i :: 0 <= i < |out| ==> key(FirstBy(Present(rows), key, order[i]).value) == order[i]
  {
    var m: map<K, V> := map[];
    order := [];
    var keys: seq<K> := [];
    for j := 0 to |rows|
      invariant Kept(m, order, Present(rows[..j]), key, view) && keys == order
    {
      PresentSnoc(rows, j);
      if rows[j].Some? {
        var row := rows[j].value;
        if key(row) !in m {
          KeepNew(m, order, Present(rows[..j]), row, key, view);
          m := m[key(row) := view(row)];
          order := order + [key(row)];
          keys := keys + [key(row)];
        } else {
          KeepSkip(m, order, Present(rows[..j]), row, key, view);
        }
      } else {
        assert Present(rows[..j]) + [] == Present(rows[..j]);
      }
    }
    assert rows[..|rows|] == rows;
    out := seq(|keys|, i requires 0 <= i < |keys| && keys[i] in m => m[keys[i]]);
    KeptValues(m, order, Present(rows), key, view, out);
  }

  /**
   * The deduplication of the joined rows by user id, then the map's values in
   * insertion order: one entry per joined
   * user id, in order of first appearance, built from the first row of that id.
   */
  method UniqueEmployees(rows: seq<Option<User>>) returns (out: seq<Listing>)
    ensures KeyList(out, ListingId) == Dedup(KeyList(Present(rows), UserId))
    ensures forall i :: 0 <= i < |out| ==>
      FirstBy(Present(rows), UserId, out[i].id).Some? && out[i] == ListingOf(FirstBy(Present(rows), UserId, out[i].id).value)
  {
    ghost var order;
    out, order := KeepFirst(rows, UserId, ListingOf);
    assert forall i :: 0 <= i < |out| ==> out[i].id == order[i];
    assert KeyList(out, ListingId) == order;
  }

  /** No row before `j` has a value of key `k`. */
  ghost predicate NoneBefore<T, K>(rows: seq<Option<T>>, key: T -> K, k: K, j: int)
  {
    forall j' :: 0 <= j' < j && j' < |rows| && rows[j'].Some? ==> key(rows[j'].value) != k
  }

  /** When no value of key `k` is kept, no row has one. */
  lemma {:induction false} NoneKept<T, K>(rows: seq<Option<T>>, key: T -> K, k: K)
    requires FirstBy(Present(rows), key, k).None?
    ensures NoneBefore(rows, key, k, |rows|)
  {
    var us := Present(rows);
    FirstByIsFirst(us, key, k);
    forall j' | 0 <= j' < |rows| && rows[j'].Some? ensures key(rows[j'].value) != k {
      var q :| 0 <= q < |us| && us[q] == rows[j'].value;
      assert KeyList(us, key)[q] == key(us[q]);
    }
  }

  /**
   * The first row wins: the kept value of key `k` is that of a row with no
   * earlier row of key `k`, and rows whose value is null are passed over.
   */
  lemma {:induction false} FirstRowWins<T, K>(rows: seq<Option<T>>, key: T -> K, k: K)
    requires FirstBy(Present(rows), key, k).Some?
    ensures exists j :: 0 <= j < |rows| && rows[j] == Some(FirstBy(Present(rows), key, k).value) && NoneBefore(rows, key, k, j)
  {
    var n := |rows| - 1;
    var init := rows[..n];
    assert rows[..n + 1] == rows;
    PresentSnoc(rows, n);
    if rows[n].Some? {
      FirstBySnoc(Present(init), rows[n].value, key, k);
    } else {
      assert Present(init) + [] == Present(init);
    }
    if FirstBy(Present(init), key, k).Some? {
      FirstRowWins(init, key, k);
      var j :| 0 <= j < |init| && init[j] == Some(FirstBy(Present(init), key, k).value) && NoneBefore(init, key, k, j);
      assert rows[j] == init[j];
      assert NoneBefore(rows, key, k, j) by {
        forall j' | 0 <= j' < j && rows[j'].Some? ensures key(rows[j'].value) != k {
          assert init[j'] == rows[j'];
        }
      }
    } else {
      NoneKept(init, key, k);
      assert NoneBefore(rows, key, k, n) by {
        forall j' | 0 <= j' < n && rows[j'].Some? ensures key(rows[j'].value) != k {
          assert init[j'] == rows[j'];
        }
      }
    }
  }

  /**
   * `GET /api/employees`: every user as listed when there is no employee
   * account, otherwise the unique joined employees, every joined user's id
   * among them.
   */
  method ListEmployees(hasAccounts: bool, allUsers: seq<User>, rows: seq<Option<User>>) returns (out: seq<Listing>)
    ensures !hasAccounts ==> out == Listings(allUsers)
    ensures hasAccounts ==> KeyList(out, ListingId) == Dedup(KeyList(Present(rows), UserId))
    ensures hasAccounts ==> forall i :: 0 <= i < |out| ==>
      FirstBy(Present(rows), UserId, out[i].id).Some? && out[i] == ListingOf(FirstBy(Present(rows), UserId, out[i].id).value)
    ensures hasAccounts ==> Distinct(KeyList(out, ListingId))
    ensures hasAccounts ==> forall j :: 0 <= j < |rows| && rows[j].Some? ==> rows[j].value.id in KeyList(out, ListingId)
  {
    if !hasAccounts {
      out := Listings(allUsers);
    } else {
      out := UniqueEmployees(rows);
      var us := Present(rows);
      forall j | 0 <= j < |rows| && rows[j].Some? ensures rows[j].value.id in KeyList(out, ListingId) {
        var k :| 0 <= k < |us| && us[k] == rows[j].value;
        assert KeyList(us, UserId)[k] == rows[j].value.id;
      }
    }
  }
}
