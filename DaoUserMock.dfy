/**
 * The in-memory user store the test suite wires in place of the Prisma
 * delegate: a table from numeric id to user record plus an `autoId` counter.
 * The JavaScript `Map` keeps its keys in insertion order; `keys` is that order.
 */
module UserMock {
  import opened Common

  datatype User = User(id: int, email: string, password: string, isAdmin: bool)

  /** Input of `create`: `is_admin` may be left out. */
  datatype UserCreate = UserCreate(email: string, password: string, isAdmin: Option<bool>)

  /** Input of `update`: every field may be left out. */
  datatype UserWritable = UserWritable(email: Option<string>, password: Option<string>, isAdmin: Option<bool>)

  /** The record `update` stores: a field changes only when the new value is
      truthy, because the mock writes `data.field || user.field`. */
  function Patch(u: User, w: UserWritable): User {
    User(u.id,
         if w.email.Some? && w.email.value != "" then w.email.value else u.email,
         if w.password.Some? && w.password.value != "" then w.password.value else u.password,
         w.isAdmin == Some(true) || u.isAdmin)
  }

  lemma PatchNeverRevokesAdmin(u: User, w: UserWritable)
    requires u.isAdmin
    ensures Patch(u, w).isAdmin
  {}

  lemma PatchFields(u: User, w: UserWritable)
    ensures Patch(u, w).id == u.id
    ensures w.email == Some("") || w.email == None ==> Patch(u, w).email == u.email
    ensures forall e :: e != "" && w.email == Some(e) ==> Patch(u, w).email == e
    ensures forall p :: p != "" && w.password == Some(p) ==> Patch(u, w).password == p
    ensures w.password == Some("") || w.password == None ==> Patch(u, w).password == u.password
    ensures w.isAdmin != Some(true) ==> Patch(u, w).isAdmin == u.isAdmin
  {}

  /** The first record, in iteration order, whose email is `email`. */
  function FirstWithEmail(rows: seq<User>, email: string): Option<User>
    decreases |rows|
  {
    if rows == [] then None
    else if rows[0].email == email then Some(rows[0])
    else FirstWithEmail(rows[1..], email)
  }

  lemma {:induction false} FirstWithEmailSpec(rows: seq<User>, email: string)
    ensures FirstWithEmail(rows, email).None? <==> forall i :: 0 <= i < |rows| ==> rows[i].email != email
    ensures FirstWithEmail(rows, email).Some? ==>
      exists i :: 0 <= i < |rows| && rows[i] == FirstWithEmail(rows, email).value
                  && rows[i].email == email
                  && forall j :: 0 <= j < i ==> rows[j].email != email
    decreases |rows|
  {
    if rows != [] && rows[0].email != email {
      FirstWithEmailSpec(rows[1..], email);
      if FirstWithEmail(rows[1..], email).Some? {
        var i :| 0 <= i < |rows[1..]| && rows[1..][i] == FirstWithEmail(rows[1..], email).value
                 && rows[1..][i].email == email
                 && forall j :: 0 <= j < i ==> rows[1..][j].email != email;
        assert rows[i + 1] == rows[1..][i];
        forall j | 0 <= j < i + 1 ensures rows[j].email != email {
          if j > 0 { assert rows[j] == rows[1..][j - 1]; }
        }
      } else {
        forall i | 0 <= i < |rows| ensures rows[i].email != email {
          if i > 0 { assert rows[i] == rows[1..][i - 1]; }
        }
      }
    }
  }

  class DaoUserMock {
    var data: map<int, User>
    /** The iteration order of `data`: its keys in insertion order. */
    var keys: seq<int>
    var autoId: int

    /** Ids are handed out by `autoId`, so every key lies below it, equals the
        id of its record, and insertion order is increasing id order. */
    ghost predicate Valid()
      reads this
    {
      && 1 <= autoId
      && Increasing(keys)
      && (forall i :: 0 <= i < |keys| ==> keys[i] in data)
      && (forall k :: k in data <==> k in keys)
      && (forall k :: k in data ==> data[k].id == k && 1 <= k < autoId)
    }

    /** The rows are exactly the stored records, each under its own id. */
    lemma RowsAreData()
      requires Valid()
      ensures forall u :: u in Rows() <==> u in data.Values
      ensures forall u :: u in Rows() ==> u.id in data && data[u.id] == u
    {
      var rows := Rows();
      forall k | k in data ensures data[k] in rows {
        var i :| 0 <= i < |keys| && keys[i] == k;
        assert rows[i] == data[k];
      }
    }

    /** The records in iteration order: `Array.from(this.data.values())`. */
    function Rows(): (r: seq<User>)
      reads this
      requires Valid()
      ensures |r| == |keys|
      ensures forall i :: 0 <= i < |keys| ==> r[i] == data[keys[i]]
    {
      Collect(data, keys)
    }

    constructor ()
      ensures Valid()
      ensures data == map[] && keys == [] && autoId == 1
    {
      data := map[];
      keys := [];
      autoId := 1;
    }

    /** The stored record or null; the select options are ignored, so the
        password is always part of the answer. */
    function FindById(id: int, select: Option<set<string>>): (r: Option<User>)
      reads this
      requires Valid()
      ensures r.Some? <==> id in data
      ensures r.Some? ==> r.value == data[id] && r.value.id == id
    {
      if id in data then Some(data[id]) else None
    }

    method FindByEmail(email: string) returns (r: Option<User>)
      requires Valid()
      ensures r == FirstWithEmail(Rows(), email)
      ensures r.Some? ==> r.value.email == email && r.value.id in data && data[r.value.id] == r.value
      ensures r.None? <==> forall k :: k in data ==> data[k].email != email
    {
      var rows := Rows();
      FirstWithEmailSpec(rows, email);
      RowsAreData();
      var i := 0;
      while i < |keys|
        invariant 0 <= i <= |keys|
        invariant FirstWithEmail(rows, email) == FirstWithEmail(rows[i..], email)
      {
        assert rows[i..][0] == data[keys[i]];
        assert rows[i..][1..] == rows[i + 1..];
        var u := data[keys[i]];
        if u.email == email {
          r := Some(u);
          return;
        }
        i := i + 1;
      }
      r := None;
    }

    /** All records in insertion order; the options are ignored. */
    function FindMany(options: Option<set<string>>): (r: seq<User>)
      reads this
      requires Valid()
      ensures |r| == |data|
      ensures forall u :: u in r <==> u in data.Values
      ensures forall i, j :: 0 <= i < j < |r| ==> r[i].id < r[j].id
    {
      RowsAreData();
      var ks := set k | k in keys;
      assert forall k :: k in ks <==> k in data.Keys;
      assert data.Keys == ks;
      DistinctCardinality(keys);
      Rows()
    }

    method Create(input: UserCreate) returns (u: User)
      requires Valid()
      modifies this
      ensures Valid()
      ensures u == User(old(autoId), input.email, input.password, input.isAdmin == Some(true))
      ensures u.id !in old(data)
      ensures data == old(data)[u.id := u] && |data| == |old(data)| + 1
      ensures keys == old(keys) + [u.id]
      ensures autoId == old(autoId) + 1
    {
      u := User(autoId, input.email, input.password, input.isAdmin == Some(true));
      assert autoId !in data;
      assert forall i :: 0 <= i < |keys| ==> keys[i] < autoId;
      data := data[autoId := u];
      keys := keys + [autoId];
      autoId := autoId + 1;
    }

    method Update(id: int, w: UserWritable) returns (r: Option<User>)
      requires Valid()
      modifies this
      ensures Valid()
      ensures keys == old(keys) && autoId == old(autoId)
      ensures id !in old(data) ==> r == None && data == old(data) && keys == old(keys)
      ensures id in old(data) ==> r == Some(Patch(old(data)[id], w)) && data == old(data)[id := r.value]
    {
      if id !in data {
        return None;
      }
      var u := Patch(data[id], w);
      data := data[id := u];
      r := Some(u);
    }

    method Delete(id: int) returns (r: Option<User>)
      requires Valid()
      modifies this
      ensures Valid()
      ensures autoId == old(autoId)
      ensures id !in old(data) ==> r == None && data == old(data) && keys == old(keys)
      ensures id in old(data) ==> r == Some(old(data)[id]) && data == old(data) - {id}
      ensures keys == Without(old(keys), id)
      ensures id !in data
    {
      if id !in data {
        WithoutAbsent(keys, id);
        return None;
      }
      r := Some(data[id]);
      WithoutIncreasing(keys, id);
      data := data - {id};
      keys := Without(keys, id);
    }

    method Clear()
      modifies this
      ensures Valid()
      ensures data == map[] && keys == [] && autoId == 1
    {
      data := map[];
      keys := [];
      autoId := 1;
    }
  }

  lemma {:induction false} DistinctCardinality(s: seq<int>)
    requires Increasing(s)
    ensures |set k | k in s| == |s|
    decreases |s|
  {
    if s != [] {
      DistinctCardinality(s[1..]);
      var tail := set k | k in s[1..];
      assert (set k | k in s) == {s[0]} + tail;
      assert forall i :: 0 <= i < |s[1..]| ==> s[1..][i] != s[0] by {
        forall i | 0 <= i < |s[1..]| ensures s[1..][i] != s[0] {
          assert s[1..][i] == s[i + 1];
        }
      }
    }
  }
}
