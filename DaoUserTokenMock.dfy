/**
 * The in-memory session-token store of the test suite. Same shape as the user
 * mock; every field of a record is optional because `findById` with select
 * options overwrites the non-selected fields of the STORED record with
 * `undefined`.
 */
module UserTokenMock {
  import opened Common

  /** `expires_at` is a `Date`, modelled by its millisecond time value. */
  datatype UserToken = UserToken(id: Option<int>, userId: Option<int>, token: Option<string>, expiresAt: Option<int>)

  datatype UserTokenWritable = UserTokenWritable(userId: Option<int>, token: Option<string>, expiresAt: Option<int>)

  /** The own keys of a record, in the order the object literal in `create` lists them. */
  const TokenFields: seq<string> := ["id", "user_id", "token", "expires_at"]

  /** The record with field `f` set to `undefined`. */
  function ClearField(t: UserToken, f: string): UserToken {
    if f == "id" then t.(id := None)
    else if f == "user_id" then t.(userId := None)
    else if f == "token" then t.(token := None)
    else if f == "expires_at" then t.(expiresAt := None)
    else t
  }

  /** The record after the loop of `findById` has visited the fields `fs`. */
  function WipeFields(t: UserToken, fs: seq<string>, allowed: seq<string>): UserToken
    decreases |fs|
  {
    if fs == [] then t
    else
      var before := WipeFields(t, fs[..|fs| - 1], allowed);
      if fs[|fs| - 1] in allowed then before else ClearField(before, fs[|fs| - 1])
  }

  /** The select options as `Object.entries` lists them: key and value pairs
      in the object's own key order. */
  type SelectEntries = seq<(string, bool)>

  /** The keys of the entries whose value is `true`, in entry order (the
      `filter` then `map` over the entries). */
  function AllowedKeys(entries: SelectEntries): (r: seq<string>)
    ensures |r| <= |entries|
    ensures forall k :: k in r <==> exists i :: 0 <= i < |entries| && entries[i] == (k, true)
    decreases |entries|
  {
    if entries == [] then []
    else
      var rest := AllowedKeys(entries[1..]);
      assert forall i :: 0 < i < |entries| ==> entries[i] == entries[1..][i - 1];
      if entries[0].1 then [entries[0].0] + rest else rest
  }

  /** The selected fields of `t`, every other one undefined. */
  function Selected(t: UserToken, allowed: seq<string>): UserToken {
    UserToken(if "id" in allowed then t.id else None,
              if "user_id" in allowed then t.userId else None,
              if "token" in allowed then t.token else None,
              if "expires_at" in allowed then t.expiresAt else None)
  }

  /** Visiting every own key of a record leaves exactly its selected fields. */
  lemma WipeAllFields(t: UserToken, allowed: seq<string>)
    ensures WipeFields(t, TokenFields, allowed) == Selected(t, allowed)
  {
    var f1, f2, f3: seq<string> := ["id"], ["id", "user_id"], ["id", "user_id", "token"];
    assert f1[..0] == [] && f2[..1] == f1 && f3[..2] == f2 && TokenFields[..3] == f3;
    var w1 := WipeFields(t, f1, allowed);
    assert w1 == if "id" in allowed then t else t.(id := None);
    var w2 := WipeFields(t, f2, allowed);
    assert w2 == if "user_id" in allowed then w1 else w1.(userId := None);
    var w3 := WipeFields(t, f3, allowed);
    assert w3 == if "token" in allowed then w2 else w2.(token := None);
  }

  /** The record `update` stores: `user_id` and `token` change only when the new
      value is truthy (`||`); a provided `expires_at` is a `Date`, always truthy. */
  function Patch(t: UserToken, w: UserTokenWritable): UserToken {
    UserToken(t.id,
              if w.userId.Some? && w.userId.value != 0 then w.userId else t.userId,
              if w.token.Some? && w.token.value != "" then w.token else t.token,
              if w.expiresAt.Some? then w.expiresAt else t.expiresAt)
  }

  lemma PatchExpiry(t: UserToken, w: UserTokenWritable, at: int)
    requires w.expiresAt == Some(at)
    ensures Patch(t, w).expiresAt == Some(at)
    ensures Patch(t, w).id == t.id
  {}

  /** The first row, in iteration order, whose token is `token`. */
  function FirstWithToken(rows: seq<UserToken>, token: string): Option<UserToken>
    decreases |rows|
  {
    if rows == [] then None
    else if rows[0].token == Some(token) then Some(rows[0])
    else FirstWithToken(rows[1..], token)
  }

  lemma {:induction false} FirstWithTokenSpec(rows: seq<UserToken>, token: string)
    ensures FirstWithToken(rows, token).None? <==> forall i :: 0 <= i < |rows| ==> rows[i].token != Some(token)
    ensures FirstWithToken(rows, token).Some? ==>
      exists i :: 0 <= i < |rows| && rows[i] == FirstWithToken(rows, token).value
                  && rows[i].token == Some(token)
                  && forall j :: 0 <= j < i ==> rows[j].token != Some(token)
    decreases |rows|
  {
    if rows != [] && rows[0].token != Some(token) {
      FirstWithTokenSpec(rows[1..], token);
      if FirstWithToken(rows[1..], token).Some? {
        var i :| 0 <= i < |rows[1..]| && rows[1..][i] == FirstWithToken(rows[1..], token).value
                 && rows[1..][i].token == Some(token)
                 && forall j :: 0 <= j < i ==> rows[1..][j].token != Some(token);
        assert rows[i + 1] == rows[1..][i];
        forall j | 0 <= j < i + 1 ensures rows[j].token != Some(token) {
          if j > 0 { assert rows[j] == rows[1..][j - 1]; }
        }
      } else {
        forall i | 0 <= i < |rows| ensures rows[i].token != Some(token) {
          if i > 0 { assert rows[i] == rows[1..][i - 1]; }
        }
      }
    }
  }

  class DaoUserTokenMock {
    var data: map<int, UserToken>
    /** The iteration order of `data`: its keys in insertion order. */
    var keys: seq<int>
    var autoId: int

    /** Every key lies below `autoId` and is the id of its record, unless
        `findById` has since wiped that id to `undefined`. */
    ghost predicate Valid()
      reads this
    {
      && 1 <= autoId
      && Increasing(keys)
      && (forall i :: 0 <= i < |keys| ==> keys[i] in data)
      && (forall k :: k in data <==> k in keys)
      && (forall k :: k in data ==> (data[k].id == Some(k) || data[k].id == None) && 1 <= k < autoId)
    }

    /** The rows in iteration order; the same as the user store's, over this store's records. */
    function Rows(): (r: seq<UserToken>)
      reads this
      requires Valid()
      ensures |r| == |keys|
      ensures forall i :: 0 <= i < |keys| ==> r[i] == data[keys[i]]
    {
      Collect(data, keys)
    }

    lemma RowsAreData()
      requires Valid()
      ensures forall t :: t in Rows() <==> t in data.Values
    {
      var rows := Rows();
      forall k | k in data ensures data[k] in rows {
        var i :| 0 <= i < |keys| && keys[i] == k;
        assert rows[i] == data[k];
      }
    }

    constructor ()
      ensures Valid()
      ensures data == map[] && keys == [] && autoId == 1
    {
      data := map[];
      keys := [];
      autoId := 1;
    }

    /** The stored record or null. With select options, every field not
        selected with `true` is set to `undefined` in the stored record itself. */
    method FindById(id: int, select: Option<SelectEntries>) returns (r: Option<UserToken>)
      requires Valid()
      modifies this
      ensures Valid()
      ensures keys == old(keys) && autoId == old(autoId)
      ensures id !in old(data) ==> r == None && data == old(data)
      ensures id in old(data) && select.None? ==> r == Some(old(data)[id]) && data == old(data)
      ensures id in old(data) && select.Some? ==>
        r == Some(Selected(old(data)[id], AllowedKeys(select.value)))
        && data == old(data)[id := r.value]
    {
      if id !in data {
        return None;
      }
      if select.Some? {
        var allowed := AllowedKeys(select.value);
        ghost var original := data[id];
        var i := 0;
        while i < |TokenFields|
          invariant 0 <= i <= |TokenFields|
          invariant keys == old(keys) && autoId == old(autoId)
          invariant data == old(data)[id := WipeFields(original, TokenFields[..i], allowed)]
        {
          assert TokenFields[..i + 1][..i] == TokenFields[..i];
          if TokenFields[i] !in allowed {
            data := data[id := ClearField(data[id], TokenFields[i])];
          }
          i := i + 1;
        }
        assert TokenFields[..i] == TokenFields;
        WipeAllFields(original, allowed);
      }
      r := Some(data[id]);
    }

    method FindByToken(token: string) returns (r: Option<UserToken>)
      requires Valid()
      ensures r == FirstWithToken(Rows(), token)
      ensures r.Some? ==> r.value.token == Some(token) && r.value in data.Values
      ensures r.None? <==> forall k :: k in data ==> data[k].token != Some(token)
    {
      var rows := Rows();
      FirstWithTokenSpec(rows, token);
      RowsAreData();
      var i := 0;
      while i < |keys|
        invariant 0 <= i <= |keys|
        invariant FirstWithToken(rows, token) == FirstWithToken(rows[i..], token)
      {
        assert rows[i..][0] == data[keys[i]];
        assert rows[i..][1..] == rows[i + 1..];
        var t := data[keys[i]];
        if t.token == Some(token) {
          r := Some(t);
          return;
        }
        i := i + 1;
      }
      r := None;
    }

    /** All rows in insertion order; the options are ignored. */
    function FindMany(options: Option<map<string, bool>>): (r: seq<UserToken>)
      reads this
      requires Valid()
      ensures |r| == |keys|
      ensures forall i :: 0 <= i < |keys| ==> r[i] == data[keys[i]]
      ensures forall t :: t in r <==> t in data.Values
    {
      RowsAreData();
      Rows()
    }

    method Create(userId: int, token: string, expiresAt: int) returns (t: UserToken)
      requires Valid()
      modifies this
      ensures Valid()
      ensures t == UserToken(Some(old(autoId)), Some(userId), Some(token), Some(expiresAt))
      ensures old(autoId) !in old(data)
      ensures data == old(data)[old(autoId) := t]
      ensures keys == old(keys) + [old(autoId)]
      ensures autoId == old(autoId) + 1
    {
      t := UserToken(Some(autoId), Some(userId), Some(token), Some(expiresAt));
      assert autoId !in data;
      assert forall i :: 0 <= i < |keys| ==> keys[i] < autoId;
      data := data[autoId := t];
      keys := keys + [autoId];
      autoId := autoId + 1;
    }

    method Update(id: int, w: UserTokenWritable) returns (r: Option<UserToken>)
      requires Valid()
      modifies this
      ensures Valid()
      ensures keys == old(keys) && autoId == old(autoId)
      ensures id !in old(data) ==> r == None && data == old(data)
      ensures id in old(data) ==> r == Some(Patch(old(data)[id], w)) && data == old(data)[id := r.value]
    {
      if id !in data {
        return None;
      }
      var t := Patch(data[id], w);
      data := data[id := t];
      r := Some(t);
    }

    method Delete(id: int) returns (r: Option<UserToken>)
      requires Valid()
      modifies this
      ensures Valid()
      ensures autoId == old(autoId)
      ensures id !in old(data) ==> r == None && data == old(data) && keys == old(keys)
      ensures id in old(data) ==> r == Some(old(data)[id]) && data == old(data) - {id}
                                  && keys == Without(old(keys), id)
    {
      if id !in data {
        return None;
      }
      r := Some(data[id]);
      WithoutIncreasing(keys, id);
      data := data - {id};
      keys := Without(keys, id);
    }

    method Clear()
      modifies this
      ensures Valid()
      ensures data == map[] && keys == [] && autoId == 1
    {
      data := map[];
      keys := [];
      autoId := 1;
    }
  }
}
