/**
 * The access-token table as the service sees it through its mapper: records
 * keyed by an id that the store assigns on insert (an auto-increment column).
 */
module TokenStore {
  import opened Common

  /** One row of the access-token table. */
  datatype AccessToken = AccessToken(
    id: int,
    userId: int,
    token: string,
    expireTime: Option<Date>,
    createTime: Date,
    updateTime: Date)

  /** The records of `tokens` whose owner is `userId`. */
  function OwnedBy(tokens: map<int, AccessToken>, userId: int): (r: map<int, AccessToken>)
    ensures forall id :: id in r <==> id in tokens && tokens[id].userId == userId
    ensures forall id :: id in r ==> r[id] == tokens[id]
  {
    map id | id in tokens && tokens[id].userId == userId :: tokens[id]
  }

  class AccessTokenMapper {
    var tokens: map<int, AccessToken>
    /** The id the next successful insert hands out. */
    var nextId: int

    /** Every record is stored under its own id, and every id in use is below `nextId`. */
    ghost predicate Valid()
      reads this
    {
      0 < nextId &&
      forall id :: id in tokens ==> tokens[id].id == id && 0 < id < nextId
    }

    constructor ()
      ensures Valid() && tokens == map[]
    {
      tokens := map[];
      nextId := 1;
    }

    /**
     * Inserts a record under a fresh id and returns the number of rows the
     * database reports (0 when it did not insert) together with the entity as
     * the mapper leaves it (its id set on success).
     */
    method Insert(t: AccessToken) returns (rows: int, stored: AccessToken)
      requires Valid()
      modifies this
      ensures Valid()
      ensures rows == 0 || rows == 1
      ensures rows == 1 ==> stored == t.(id := old(nextId)) && stored.id !in old(tokens)
                            && tokens == old(tokens)[stored.id := stored]
      ensures rows == 0 ==> stored == t && tokens == old(tokens)
    {
      // Whether the database accepts the row is not under the service's control.
      var accepted: bool :| true;
      if accepted {
        stored := t.(id := nextId);
        tokens := tokens[nextId := stored];
        nextId := nextId + 1;
        rows := 1;
      } else {
        stored := t;
        rows := 0;
      }
    }

    /** The record stored under `id`, or none (a null entity). */
    method SelectById(id: int) returns (t: Option<AccessToken>)
      ensures t.Some? <==> id in tokens
      ensures t.Some? ==> t.value == tokens[id]
    {
      t := if id in tokens then Some(tokens[id]) else None;
    }

    /** Removes the record stored under `id`, if any; reports the rows removed. */
    method DeleteById(id: int) returns (rows: int)
      requires Valid()
      modifies this
      ensures Valid() && nextId == old(nextId)
      ensures tokens == old(tokens) - {id}
      ensures rows == if id in old(tokens) then 1 else 0
    {
      rows := if id in tokens then 1 else 0;
      tokens := tokens - {id};
    }

    /** Overwrites the record stored under `t.id`, if any; reports the rows changed. */
    method UpdateById(t: AccessToken) returns (rows: int)
      requires Valid()
      modifies this
      ensures Valid() && nextId == old(nextId)
      ensures tokens == if t.id in old(tokens) then old(tokens)[t.id := t] else old(tokens)
      ensures rows == if t.id in old(tokens) then 1 else 0
    {
      if t.id in tokens {
        tokens := tokens[t.id := t];
        rows := 1;
      } else {
        rows := 0;
      }
    }

    /**
     * The page query with only its owner filter: owner 0 means every owner.
     * The search value and the paging window are not modelled.
     */
    method SelectAccessTokenPage(userId: int) returns (records: map<int, AccessToken>)
      ensures userId == 0 ==> records == tokens
      ensures userId != 0 ==> records == OwnedBy(tokens, userId)
    {
      records := if userId == 0 then tokens else OwnedBy(tokens, userId);
    }

    /** Every record owned by `userId`. */
    method QueryAccessTokenByUser(userId: int) returns (records: map<int, AccessToken>)
      ensures records == OwnedBy(tokens, userId)
    {
      records := OwnedBy(tokens, userId);
    }
  }
}
