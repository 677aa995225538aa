/**
 * The access-token service: listing, issuing, generating, revoking and
 * rotating bearer tokens, each operation gated by the ownership/admin rule.
 */
module AccessTokens {
  import opened Common
  import opened TokenStore

  /** The outcome codes the service reports. */
  datatype Status = Success | UserNoOperationPerm | AccessTokenNotExist | CreateAccessTokenError

  /** What `createToken` does: report a status (with the new record on success) or throw. */
  datatype CreateOutcome =
    | Created(status: Status, data: Option<AccessToken>)
    | IllegalArgument(message: string)
  {
    predicate Succeeded() { Created? && status == Success }
  }

  /**
   * The permission rule of the service's base class (assumed, since that class
   * is not part of this model): an administrator may act for every owner, any
   * other user only for their own id.
   */
  predicate HasPerm(loginUser: User, ownerId: int)
    ensures loginUser.userType == AdminUser ==> HasPerm(loginUser, ownerId)
    ensures loginUser.userType != AdminUser ==> (HasPerm(loginUser, ownerId) <==> loginUser.id == ownerId)
  {
    loginUser.userType == AdminUser || loginUser.id == ownerId
  }

  /**
   * The admin-only gate of the service's base class (assumed, since that class
   * is not part of this model): it rejects exactly the ordinary users.
   */
  predicate IsNotAdmin(loginUser: User)
    ensures IsNotAdmin(loginUser) <==> loginUser.userType == GeneralUser
  {
    loginUser.userType != AdminUser
  }

  /** The owner filter of the list query: 0 (no filter) for an administrator, else the caller's id. */
  function ListFilter(loginUser: User): (userId: int)
    ensures loginUser.userType == AdminUser ==> userId == 0
    ensures loginUser.userType != AdminUser ==> userId == loginUser.id
  {
    if loginUser.userType == AdminUser then 0 else loginUser.id
  }

  /** Java's decimal rendering of an integer (`Integer.toString`, `Long.toString`). */
  function DecimalString(n: int): (s: string)
    ensures |s| > 0
    ensures n >= 0 ==> IsDigits(s)
    ensures n < 0 ==> s[0] == '-' && IsDigits(s[1..])
  {
    if n < 0 then "-" + Digits(-n) else Digits(n)
  }

  predicate IsDigits(s: string)
  {
    |s| > 0 && forall i :: 0 <= i < |s| ==> '0' <= s[i] <= '9'
  }

  /** The decimal digits of `n`, most significant first, with no leading zero. */
  function Digits(n: nat): (s: string)
    ensures IsDigits(s)
    ensures |s| > 1 ==> s[0] != '0'
    decreases n
  {
    if n < 10 then [DigitChar(n)] else Digits(n / 10) + [DigitChar(n % 10)]
  }

  function DigitChar(d: nat): (c: char)
    requires d < 10
    ensures '0' <= c <= '9'
  {
    "0123456789"[d]
  }

  /** The value of a string of decimal digits. */
  function DigitsValue(s: string): nat
    requires IsDigits(s)
    decreases |s|
  {
    var last := (s[|s| - 1] - '0') as nat;
    if |s| == 1 then last else 10 * DigitsValue(s[..|s| - 1]) + last
  }

  /** Reading back the digits of `n` gives `n`: the rendering loses nothing. */
  lemma {:induction false} DigitsRoundTrip(n: nat)
    ensures DigitsValue(Digits(n)) == n
    decreases n
  {
    var s := Digits(n);
    if n >= 10 {
      assert s[..|s| - 1] == Digits(n / 10);
      DigitsRoundTrip(n / 10);
    }
  }

  /** The string the token generator digests: `userId + expireTime + now` in Java. */
  function DigestInput(userId: int, expireTime: string, now: Date): (s: string)
    ensures |s| == |DecimalString(userId)| + |expireTime| + |DecimalString(now)|
  {
    DecimalString(userId) + expireTime + DecimalString(now)
  }

  /**
   * For one user and one instant, different expiry strings give different
   * digest inputs, so a collision can only come from the digest itself.
   */
  lemma DigestInputInjective(userId: int, e1: string, e2: string, now: Date)
    requires DigestInput(userId, e1, now) == DigestInput(userId, e2, now)
    ensures e1 == e2
  {
    var p, q := DecimalString(userId), DecimalString(now);
    var s := DigestInput(userId, e1, now);
    assert |e1| == |e2|;
    assert e1 == s[|p|..|p| + |e1|];
    assert e2 == DigestInput(userId, e2, now)[|p|..|p| + |e2|];
  }

  /**
   * The digest input has no separator, so at one instant two different
   * (user, expiry) pairs can share it: user 1 with expiry "23" and user 12
   * with expiry "3" both digest "1235" at time 5.
   */
  lemma DigestInputAmbiguous()
    ensures DigestInput(1, "23", 5) == DigestInput(12, "3", 5) == "1235"
  {
    assert Digits(1) == "1" && Digits(5) == "5";
    assert Digits(12) == Digits(1) + [DigitChar(2)] == "12";
  }

  class AccessTokenService {
    const mapper: AccessTokenMapper
    /** The date parser the service calls; none stands for the null it returns on bad input. */
    const stringToDate: string -> Option<Date>
    /** The one-way digest the service calls to generate token values. */
    const getMd5: string -> string

    constructor (mapper: AccessTokenMapper, stringToDate: string -> Option<Date>, getMd5: string -> string)
      ensures this.mapper == mapper && this.stringToDate == stringToDate && this.getMd5 == getMd5
    {
      this.mapper := mapper;
      this.stringToDate := stringToDate;
      this.getMd5 := getMd5;
    }

    /**
     * Lists tokens: an administrator's query has no owner filter, anyone
     * else's is narrowed to their own id. Never rejected; changes nothing.
     */
    method QueryAccessTokenList(loginUser: User, searchVal: string, pageNo: int, pageSize: int)
      returns (status: Status, total: nat, records: map<int, AccessToken>)
      ensures status == Success
      ensures records == if ListFilter(loginUser) == 0 then mapper.tokens
                         else OwnedBy(mapper.tokens, ListFilter(loginUser))
      ensures loginUser.userType == AdminUser ==> records == mapper.tokens
      ensures loginUser.userType != AdminUser && loginUser.id != 0 ==>
                records == OwnedBy(mapper.tokens, loginUser.id)
      ensures loginUser.userType != AdminUser && loginUser.id == 0 ==> records == mapper.tokens
      ensures total == |records|
    {
      var userId := loginUser.id;
      if loginUser.userType == AdminUser {
        userId := 0;
      }
      records := mapper.SelectAccessTokenPage(userId);
      total := |records|;
      status := Success;
    }

    /** Lists every token of `userId`; administrators only. Changes nothing. */
    method QueryAccessTokenByUser(loginUser: User, userId: int)
      returns (status: Status, records: Option<map<int, AccessToken>>)
      ensures IsNotAdmin(loginUser) ==> status == UserNoOperationPerm && records == None
      ensures !IsNotAdmin(loginUser) ==> status == Success && records == Some(OwnedBy(mapper.tokens, userId))
    {
      if IsNotAdmin(loginUser) {
        return UserNoOperationPerm, None;
      }
      var list := mapper.QueryAccessTokenByUser(userId);
      records := Some(list);
      status := Success;
    }

    /**
     * Issues a token for `userId`. The permission check comes first; with
     * permission, a non-positive user id throws; otherwise the outcome is
     * whatever the insert reports. Only a success changes the store.
     */
    method CreateToken(loginUser: User, userId: int, expireTime: string, token: string, now: Date)
      returns (r: CreateOutcome)
      requires mapper.Valid()
      modifies mapper
      ensures mapper.Valid()
      ensures r == Created(UserNoOperationPerm, None) <==> !HasPerm(loginUser, userId)
      ensures r.IllegalArgument? <==> HasPerm(loginUser, userId) && userId <= 0
      ensures HasPerm(loginUser, userId) && userId > 0 ==>
                r == Created(CreateAccessTokenError, None) || r.Succeeded()
      ensures r.Succeeded() ==>
                r.data.Some? && r.data.value.id == old(mapper.nextId) &&
                r.data.value.id !in old(mapper.tokens) &&
                r.data.value == AccessToken(r.data.value.id, userId, token, stringToDate(expireTime), now, now) &&
                mapper.tokens == old(mapper.tokens)[r.data.value.id := r.data.value]
      ensures !r.Succeeded() ==> mapper.tokens == old(mapper.tokens)
    {
      if !HasPerm(loginUser, userId) {
        return Created(UserNoOperationPerm, None);
      }
      if userId <= 0 {
        return IllegalArgument("User id should not less than or equals to 0.");
      }
      var accessToken := AccessToken(0, userId, token, stringToDate(expireTime), now, now);
      var insert, stored := mapper.Insert(accessToken);
      if insert > 0 {
        r := Created(Success, Some(stored));
      } else {
        r := Created(CreateAccessTokenError, None);
      }
    }

    /** Generates (without storing) a token value for `userId` at instant `now`. */
    method GenerateToken(loginUser: User, userId: int, expireTime: string, now: Date)
      returns (status: Status, token: Option<string>)
      ensures !HasPerm(loginUser, userId) ==> status == UserNoOperationPerm && token == None
      ensures HasPerm(loginUser, userId) ==>
                status == Success && token == Some(getMd5(DigestInput(userId, expireTime, now)))
    {
      if !HasPerm(loginUser, userId) {
        return UserNoOperationPerm, None;
      }
      var t := getMd5(DecimalString(userId) + expireTime + DecimalString(now));
      token := Some(t);
      status := Success;
    }

    /**
     * Revokes the token stored under `id`. Absence is checked first, then the
     * permission against the stored owner; only a success changes the store,
     * and then by removing exactly `id`.
     */
    method DelAccessTokenById(loginUser: User, id: int) returns (status: Status)
      requires mapper.Valid()
      modifies mapper
      ensures mapper.Valid()
      ensures status == AccessTokenNotExist <==> id !in old(mapper.tokens)
      ensures status == UserNoOperationPerm <==>
                id in old(mapper.tokens) && !HasPerm(loginUser, old(mapper.tokens)[id].userId)
      ensures status == Success <==>
                id in old(mapper.tokens) && HasPerm(loginUser, old(mapper.tokens)[id].userId)
      ensures status == Success ==> mapper.tokens == old(mapper.tokens) - {id}
      ensures status != Success ==> mapper.tokens == old(mapper.tokens)
    {
      var accessToken := mapper.SelectById(id);
      if accessToken.None? {
        return AccessTokenNotExist;
      }
      if !HasPerm(loginUser, accessToken.value.userId) {
        return UserNoOperationPerm;
      }
      var _ := mapper.DeleteById(id);
      status := Success;
    }

    /**
     * Rotates the token stored under `id`. The permission is checked against
     * the NEW owner before the record is looked up; on success the record keeps
     * its id and creation time and takes the new owner, expiry, value and
     * update time, and no other record changes.
     */
    method UpdateToken(loginUser: User, id: int, userId: int, expireTime: string, token: string, now: Date)
      returns (status: Status)
      requires mapper.Valid()
      modifies mapper
      ensures mapper.Valid()
      ensures status == UserNoOperationPerm <==> !HasPerm(loginUser, userId)
      ensures status == AccessTokenNotExist <==> HasPerm(loginUser, userId) && id !in old(mapper.tokens)
      ensures status == Success <==> HasPerm(loginUser, userId) && id in old(mapper.tokens)
      ensures status == Success ==>
                mapper.tokens == old(mapper.tokens)[id := old(mapper.tokens)[id].(
                  userId := userId, expireTime := stringToDate(expireTime), token := token, updateTime := now)]
      ensures status != Success ==> mapper.tokens == old(mapper.tokens)
    {
      if !HasPerm(loginUser, userId) {
        return UserNoOperationPerm;
      }
      var accessToken := mapper.SelectById(id);
      if accessToken.None? {
        return AccessTokenNotExist;
      }
      var updated := accessToken.value.(userId := userId, expireTime := stringToDate(expireTime),
                                        token := token, updateTime := now);
      var _ := mapper.UpdateById(updated);
      status := Success;
    }
  }
}
