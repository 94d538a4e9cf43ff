/** app/db.py: the TinyDB user table, keyed (by convention) on `username`.
    `salvar_usuario` updates the matching documents or inserts a new one;
    `buscar_usuario` returns the first match. */
module Db {
  import opened Wrappers
  import opened Records

  /** `db.search(User.username == name)` then `result[0] if result else None`. */
  function Lookup(docs: seq<UserRecord>, name: string): (r: Option<UserRecord>)
    ensures r.None? <==> forall k :: 0 <= k < |docs| ==> docs[k].username != name
    ensures r.Some? ==> exists i :: 0 <= i < |docs| && docs[i] == r.value
                          && r.value.username == name
                          && forall k :: 0 <= k < i ==> docs[k].username != name
  {
    if docs == [] then None
    else if docs[0].username == name then Some(docs[0])
    else
      var rest := Lookup(docs[1..], name);
      assert rest.Some? ==> exists i :: 0 <= i < |docs| && docs[i] == rest.value
                              && forall k :: 0 <= k < i ==> docs[k].username != name by {
        if rest.Some? {
          var i :| 0 <= i < |docs[1..]| && docs[1..][i] == rest.value
                   && forall k :: 0 <= k < i ==> docs[1..][k].username != name;
          assert docs[i + 1] == rest.value;
          forall k | 0 <= k < i + 1 ensures docs[k].username != name {
            if k > 0 { assert docs[k] == docs[1..][k - 1]; }
          }
        }
      }
      rest
  }

  /** The table after `salvar_usuario(u)`: every document with `u`'s username
      merged with `u`'s fields when there is one, else `u` appended. */
  function Upsert(docs: seq<UserRecord>, u: UserRecord): (r: seq<UserRecord>)
  {
    if Lookup(docs, u.username).Some? then MergeMatching(docs, u) else docs + [u]
  }

  /** `db.update(u, User.username == u["username"])`. */
  function MergeMatching(docs: seq<UserRecord>, u: UserRecord): (r: seq<UserRecord>)
  {
    seq(|docs|, k requires 0 <= k < |docs| =>
      if docs[k].username == u.username then Merge(docs[k], u) else docs[k])
  }

  /** No two documents share a username. */
  predicate UniqueNames(docs: seq<UserRecord>) {
    forall i, j :: 0 <= i < j < |docs| ==> docs[i].username != docs[j].username
  }

  class UserTable {
    var docs: seq<UserRecord>

    constructor ()
      ensures docs == []
    {
      docs := [];
    }

    /** `salvar_usuario(user)`. */
    method Save(u: UserRecord)
      modifies this
      ensures docs == Upsert(old(docs), u)
    {
      var found := Lookup(docs, u.username);
      if found.Some? {
        docs := MergeMatching(docs, u);
      } else {
        docs := docs + [u];
      }
    }

    /** `buscar_usuario(username)`. */
    method Find(name: string) returns (r: Option<UserRecord>)
      ensures r == Lookup(docs, name)
    {
      r := Lookup(docs, name);
    }
  }

  /** A new username adds exactly one document; a known one changes none
      of the count. */
  lemma UpsertSize(docs: seq<UserRecord>, u: UserRecord)
    ensures Lookup(docs, u.username).None? ==> |Upsert(docs, u)| == |docs| + 1
    ensures Lookup(docs, u.username).Some? ==> |Upsert(docs, u)| == |docs|
  {
  }

  /** Documents of other users are left exactly where and as they were. */
  lemma UpsertOthersUntouched(docs: seq<UserRecord>, u: UserRecord)
    ensures forall k :: 0 <= k < |docs| && docs[k].username != u.username ==>
              Upsert(docs, u)[k] == docs[k]
    ensures Lookup(docs, u.username).Some? ==>
              forall k :: 0 <= k < |docs| && docs[k].username == u.username ==>
                Upsert(docs, u)[k] == Merge(docs[k], u)
  {
  }

  /** After saving `u`, looking `u` up finds a document holding all of `u`'s fields. */
  lemma LookupAfterUpsert(docs: seq<UserRecord>, u: UserRecord)
    ensures Lookup(Upsert(docs, u), u.username).Some?
    ensures Includes(Lookup(Upsert(docs, u), u.username).value, u)
    ensures Lookup(docs, u.username).None? ==>
              Lookup(Upsert(docs, u), u.username) == Some(u)
  {
    var after := Upsert(docs, u);
    if Lookup(docs, u.username).None? {
      assert after[|docs|] == u;
      assert Lookup(after, u.username).value == u;
    } else {
      var d := Lookup(docs, u.username).value;
      var j :| 0 <= j < |docs| && docs[j] == d && d.username == u.username;
      assert after[j].username == u.username;
      var r := Lookup(after, u.username).value;
      var i :| 0 <= i < |after| && after[i] == r;
      assert after[i] == Merge(docs[i], u);
    }
  }

  /** Saving `u` does not change what another username finds. */
  lemma {:induction false} LookupOtherAfterUpsert(docs: seq<UserRecord>, u: UserRecord, name: string)
    requires name != u.username
    ensures Lookup(Upsert(docs, u), name) == Lookup(docs, name)
  {
    var after := Upsert(docs, u);
    if Lookup(docs, name).Some? {
      var r := Lookup(docs, name).value;
      var i :| 0 <= i < |docs| && docs[i] == r && r.username == name
               && forall k :: 0 <= k < i ==> docs[k].username != name;
      LookupFirst(after, name, i);
    } else {
      forall k | 0 <= k < |after| ensures after[k].username != name {
        if k < |docs| { assert after[k].username == docs[k].username; }
      }
    }
  }

  /** The lookup finds the first document carrying the name. */
  lemma LookupFirst(docs: seq<UserRecord>, name: string, i: int)
    requires 0 <= i < |docs| && docs[i].username == name
    requires forall k :: 0 <= k < i ==> docs[k].username != name
    ensures Lookup(docs, name) == Some(docs[i])
  {
    var r := Lookup(docs, name).value;
    var i' :| 0 <= i' < |docs| && docs[i'] == r && r.username == name
              && forall k :: 0 <= k < i' ==> docs[k].username != name;
    assert i' == i;
  }

  /** Saving the same user twice leaves the table as saving once. */
  lemma UpsertIdempotent(docs: seq<UserRecord>, u: UserRecord)
    ensures Upsert(Upsert(docs, u), u) == Upsert(docs, u)
  {
    var once := Upsert(docs, u);
    LookupAfterUpsert(docs, u);
    var twice := Upsert(once, u);
    assert |twice| == |once|;
    forall k | 0 <= k < |once| ensures twice[k] == once[k] {
      if once[k].username == u.username {
        if Lookup(docs, u.username).Some? {
          MergeIdempotent(docs[k], u);
        } else {
          assert once[k] == u;
        }
      }
    }
  }

  /** Saving keeps usernames unique. */
  lemma UpsertKeepsUnique(docs: seq<UserRecord>, u: UserRecord)
    requires UniqueNames(docs)
    ensures UniqueNames(Upsert(docs, u))
  {
  }
}
