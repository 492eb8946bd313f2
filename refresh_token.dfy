/**
 * Refresh-token records and the key-value store that keeps them.
 *
 * A record's id is the owner's user id, so the store holds at most one record
 * per user. The token field is indexed: besides the records, the store keeps
 * for every token value the set of record ids holding it, and a lookup by
 * token reads that index.
 */
module RefreshTokens {
  import opened Common

  type Token = string

  /** The time-to-live the auth service gives every record: 7 days, in seconds. */
  const RefreshTtlSeconds: int := 604800

  datatype RefreshToken = RefreshToken(id: Uuid, token: Token, email: string, expiration: int)

  /** `RefreshToken.of(userId, email, token, expiration)`. */
  function Of(userId: Uuid, email: string, token: Token, expiration: int): (r: RefreshToken)
    ensures r.id == userId && r.email == email && r.token == token && r.expiration == expiration
  {
    RefreshToken(userId, token, email, expiration)
  }

  /** The records, keyed by id, and the secondary index from token value to record ids. */
  datatype TokenStore = TokenStore(records: map<Uuid, RefreshToken>, index: map<Token, set<Uuid>>)

  const EmptyStore := TokenStore(map[], map[])

  /**
   * Every record sits under its own id, and the index lists exactly the ids
   * whose record holds each token.
   */
  predicate Valid(s: TokenStore)
  {
    (forall id :: id in s.records ==> s.records[id].id == id) &&
    (forall id :: id in s.records ==>
       s.records[id].token in s.index && id in s.index[s.records[id].token]) &&
    (forall t, id :: t in s.index && id in s.index[t] ==>
       id in s.records && s.records[id].token == t)
  }

  lemma EmptyStoreValid()
    ensures Valid(EmptyStore)
  {
  }

  /** The ids the index lists for token t. */
  function Holders(s: TokenStore, t: Token): set<Uuid>
  {
    if t in s.index then s.index[t] else {}
  }

  /** The ids whose record holds token t, read off the records themselves. */
  function HoldersOf(records: map<Uuid, RefreshToken>, t: Token): set<Uuid>
  {
    set id | id in records && records[id].token == t
  }

  lemma HoldersMatchRecords(s: TokenStore, t: Token)
    requires Valid(s)
    ensures Holders(s, t) == HoldersOf(s.records, t)
    ensures forall id :: id in Holders(s, t) <==> id in s.records && s.records[id].token == t
  {
  }

  function Unindex(index: map<Token, set<Uuid>>, t: Token, id: Uuid): map<Token, set<Uuid>>
  {
    if t in index then index[t := index[t] - {id}] else index
  }

  function AddIndex(index: map<Token, set<Uuid>>, t: Token, id: Uuid): map<Token, set<Uuid>>
  {
    index[t := (if t in index then index[t] else {}) + {id}]
  }

  /** `save(record)`: insert or overwrite the record under its id, moving its index entry. */
  function Save(s: TokenStore, rec: RefreshToken): (r: TokenStore)
    requires Valid(s)
    ensures Valid(r)
    ensures r.records == s.records[rec.id := rec]
  {
    var index := if rec.id in s.records then Unindex(s.index, s.records[rec.id].token, rec.id) else s.index;
    var r := TokenStore(s.records[rec.id := rec], AddIndex(index, rec.token, rec.id));
    assert forall t, id :: t in r.index && id in r.index[t] ==> id in r.records && r.records[id].token == t by {
      forall t, id | t in r.index && id in r.index[t]
        ensures id in r.records && r.records[id].token == t
      {
        if id != rec.id {
          assert t in s.index && id in s.index[t];
        }
      }
    }
    r
  }

  /** `deleteById(id)`: drop the record with that id, if there is one. */
  function DeleteById(s: TokenStore, id: Uuid): (r: TokenStore)
    requires Valid(s)
    ensures Valid(r)
    ensures r.records == s.records - {id}
  {
    if id in s.records then
      var r := TokenStore(s.records - {id}, Unindex(s.index, s.records[id].token, id));
      assert forall t, k :: t in r.index && k in r.index[t] ==> k in r.records && r.records[k].token == t by {
        forall t, k | t in r.index && k in r.index[t]
          ensures k in r.records && r.records[k].token == t
        {
          assert t in s.index && k in s.index[t];
        }
      }
      r
    else
      s
  }

  /** `deleteByToken(t)`: drop every record holding token t. */
  function DeleteByToken(s: TokenStore, t: Token): (r: TokenStore)
    requires Valid(s)
    ensures Valid(r)
    ensures r.records == map id | id in s.records && s.records[id].token != t :: s.records[id]
  {
    TokenStore(map id | id in s.records && s.records[id].token != t :: s.records[id], s.index - {t})
  }

  /** Every stored record carries the given time-to-live. */
  predicate UniformTtl(s: TokenStore, ttl: int)
  {
    forall id :: id in s.records ==> s.records[id].expiration == ttl
  }

  /**
   * Saving a record with the store's time-to-live, and either deletion, keep
   * every record's time-to-live.
   */
  lemma OperationsKeepTtl(s: TokenStore, ttl: int, rec: RefreshToken, id: Uuid, t: Token)
    requires Valid(s) && UniformTtl(s, ttl)
    ensures rec.expiration == ttl ==> UniformTtl(Save(s, rec), ttl)
    ensures UniformTtl(DeleteById(s, id), ttl)
    ensures UniformTtl(DeleteByToken(s, t), ttl)
  {
  }

  /** The answer of `findByToken(t)`: no record, the single record, or more than one (an error). */
  datatype Lookup = NoRecord | Found(record: RefreshToken) | Ambiguous

  lemma SingletonMembers<T>(h: set<T>, a: T, b: T)
    requires |h| == 1 && a in h && b in h
    ensures a == b
  {
    var rest := h - {a};
    assert |rest| == 0;
    assert rest == {};
  }

  lemma TwoMembers<T>(h: set<T>)
    requires |h| >= 2
    ensures exists a, b :: a in h && b in h && a != b
  {
    var a :| a in h;
    assert |h - {a}| >= 1;
    var b :| b in h - {a};
  }

  /** `findByToken(t)`, answered from the index. */
  function FindByToken(s: TokenStore, t: Token): (r: Lookup)
    requires Valid(s)
    ensures r.NoRecord? <==> forall id :: id in s.records ==> s.records[id].token != t
    ensures r.Found? ==> r.record.id in s.records && s.records[r.record.id] == r.record && r.record.token == t
    ensures r.Found? ==> forall id :: id in s.records && s.records[id].token == t ==> id == r.record.id
    ensures r.Ambiguous? <==>
      exists a, b :: a in s.records && b in s.records && a != b &&
        s.records[a].token == t && s.records[b].token == t
  {
    HoldersMatchRecords(s, t);
    var h := Holders(s, t);
    if |h| == 0 then
      NoRecord
    else if |h| == 1 then
      assert forall a, b :: a in h && b in h ==> a == b by {
        forall a, b | a in h && b in h ensures a == b {
          SingletonMembers(h, a, b);
        }
      }
      var id :| id in h;
      Found(s.records[id])
    else
      TwoMembers(h);
      Ambiguous
  }

  // ---------------------------------------------------------------------
  // Properties of the store
  // ---------------------------------------------------------------------

  /** No two records hold the same token. */
  predicate TokensUnique(s: TokenStore)
  {
    forall a, b :: a in s.records && b in s.records && s.records[a].token == s.records[b].token ==> a == b
  }

  /** Token t is held by no record other than the one with this id. */
  predicate FreshFor(s: TokenStore, t: Token, id: Uuid)
  {
    forall other :: other in s.records && other != id ==> s.records[other].token != t
  }

  /** With unique tokens a lookup never hits the ambiguous case. */
  lemma UniqueTokensNeverAmbiguous(s: TokenStore, t: Token)
    requires Valid(s) && TokensUnique(s)
    ensures !FindByToken(s, t).Ambiguous?
  {
  }

  /** Saving a record whose token is fresh keeps tokens unique. */
  lemma {:induction false} SaveKeepsTokensUnique(s: TokenStore, rec: RefreshToken)
    requires Valid(s) && TokensUnique(s) && FreshFor(s, rec.token, rec.id)
    ensures TokensUnique(Save(s, rec))
  {
    var r := Save(s, rec);
    forall a, b | a in r.records && b in r.records && r.records[a].token == r.records[b].token
      ensures a == b
    {
      if a != rec.id && b != rec.id {
        assert s.records[a].token == s.records[b].token;
      }
    }
  }

  /** Deleting records keeps tokens unique. */
  lemma DeletesKeepTokensUnique(s: TokenStore, id: Uuid, t: Token)
    requires Valid(s) && TokensUnique(s)
    ensures TokensUnique(DeleteById(s, id))
    ensures TokensUnique(DeleteByToken(s, t))
  {
  }

  /** After a save, looking the record's token up finds exactly that record, given the token is fresh. */
  lemma SavedRecordIsFound(s: TokenStore, rec: RefreshToken)
    requires Valid(s) && FreshFor(s, rec.token, rec.id)
    ensures FindByToken(Save(s, rec), rec.token) == Found(rec)
  {
    var r := Save(s, rec);
    assert r.records[rec.id] == rec;
  }

  /** Deleting by id twice is deleting once; deleting an absent id changes nothing. */
  lemma DeleteByIdIdempotent(s: TokenStore, id: Uuid)
    requires Valid(s)
    ensures DeleteById(DeleteById(s, id), id) == DeleteById(s, id)
    ensures id !in s.records ==> DeleteById(s, id) == s
  {
  }

  /** After deleting by token, the token is no longer found. */
  lemma DeletedTokenNotFound(s: TokenStore, t: Token)
    requires Valid(s)
    ensures FindByToken(DeleteByToken(s, t), t) == NoRecord
  {
  }

  /**
   * Rotation as the auth service performs it: delete the presented token's
   * records, then save the new record.
   */
  function Rotate(s: TokenStore, presented: Token, rec: RefreshToken): (r: TokenStore)
    requires Valid(s)
    ensures Valid(r)
  {
    Save(DeleteByToken(s, presented), rec)
  }

  /**
   * Replay is rejected: once rotated to a different token, the presented
   * token is no longer found, and the new token finds the new record when no
   * other record held it.
   */
  lemma {:induction false} RotationRejectsReplay(s: TokenStore, presented: Token, rec: RefreshToken)
    requires Valid(s)
    requires rec.token != presented
    ensures FindByToken(Rotate(s, presented, rec), presented) == NoRecord
    ensures FreshFor(s, rec.token, rec.id) ==> FindByToken(Rotate(s, presented, rec), rec.token) == Found(rec)
  {
    var d := DeleteByToken(s, presented);
    var r := Rotate(s, presented, rec);
    assert r.records == d.records[rec.id := rec];
    if FreshFor(s, rec.token, rec.id) {
      assert FreshFor(d, rec.token, rec.id);
      SavedRecordIsFound(d, rec);
    }
  }

  /**
   * The gap the freshness assumption closes: if the codec hands back the very
   * token that was presented (same subject, same issue second), rotation
   * stores it again and the old token keeps working.
   */
  lemma {:induction false} ReissuedTokenStaysValid(s: TokenStore, presented: Token, rec: RefreshToken)
    requires Valid(s)
    requires rec.token == presented
    ensures FindByToken(Rotate(s, presented, rec), presented) == Found(rec)
  {
    var d := DeleteByToken(s, presented);
    assert FreshFor(d, rec.token, rec.id);
    SavedRecordIsFound(d, rec);
  }
}
