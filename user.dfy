/**
 * The stored user (server/models/User.js): the login counter, the alert
 * predicates, the subscription status, the JSON form without the
 * password, and the lookup by e-mail address.
 */
module Users {
  import opened Wrappers
  import opened Text

  datatype Role = Investor | Regulator | Admin

  datatype SubscriptionStatus = SubscriptionActive | SubscriptionInactive | SubscriptionExpired

  const DefaultAlertThreshold := 60

  /** The stored form of an e-mail address: trimmed, then lower-cased. */
  function NormalizeEmail(email: string): (r: string)
    ensures IsLower(r) && |r| <= |email|
  {
    LowerIsLower(Trim(email));
    Lower(Trim(email))
  }

  /** A top-level value of the plain-object form of a user. */
  datatype Value = Str(s: string) | Num(n: int) | Flag(b: bool) | Null

  /** One stored user; the login activity is what the model's operations change. */
  class User {
    const id: nat
    const name: string
    const email: string
    const password: string
    const role: Role
    const alertThreshold: Option<int>
    const isEmailVerified: bool
    const subscriptionIsActive: bool
    const subscriptionEndDate: Option<int>
    var lastLogin: Option<int>
    var loginCount: nat

    /** `updateLastLogin`: stamps the login and counts it, changing nothing else. */
    method UpdateLastLogin(now: int)
      modifies this
      ensures lastLogin == Some(now) && loginCount == old(loginCount) + 1
    {
      lastLogin := Some(now);
      loginCount := loginCount + 1;
    }

    /** `canReceiveAlerts`: a verified address and an active subscription; the end date plays no part. */
    predicate CanReceiveAlerts()
    {
      isEmailVerified && subscriptionIsActive
    }

    /** `getAlertThreshold`: the stored threshold, or 60 when it is unset or 0. */
    function GetAlertThreshold(): (t: int)
      ensures alertThreshold.Some? && alertThreshold.value != 0 ==> t == alertThreshold.value
      ensures alertThreshold.None? || alertThreshold.value == 0 ==> t == DefaultAlertThreshold
      ensures t != 0
    {
      match alertThreshold
      case Some(v) => if v != 0 then v else DefaultAlertThreshold
      case None => DefaultAlertThreshold
    }

    /** The `subscriptionStatus` virtual at time `now`: inactive, else expired, else active. */
    function GetSubscriptionStatus(now: int): (s: SubscriptionStatus)
      ensures s == SubscriptionInactive <==> !subscriptionIsActive
      ensures s == SubscriptionExpired <==>
        (subscriptionIsActive && subscriptionEndDate.Some? && subscriptionEndDate.value < now)
    {
      if !subscriptionIsActive then SubscriptionInactive
      else if subscriptionEndDate.Some? && subscriptionEndDate.value < now then SubscriptionExpired
      else SubscriptionActive
    }

    /** The plain-object form of the user's top-level fields. */
    function ToObject(): map<string, Value>
      reads this
    {
      map[
        "id" := Num(id),
        "name" := Str(name),
        "email" := Str(email),
        "password" := Str(password),
        "role" := Str(match role case Investor => "INVESTOR" case Regulator => "REGULATOR" case Admin => "ADMIN"),
        "alertThreshold" := (match alertThreshold case Some(v) => Num(v) case None => Null),
        "isEmailVerified" := Flag(isEmailVerified),
        "subscriptionIsActive" := Flag(subscriptionIsActive),
        "subscriptionEndDate" := (match subscriptionEndDate case Some(d) => Num(d) case None => Null),
        "lastLogin" := (match lastLogin case Some(d) => Num(d) case None => Null),
        "loginCount" := Num(loginCount)]
    }

    /** `toJSON`: the plain object without the password, every other field kept. */
    function ToJson(): (r: map<string, Value>)
      reads this
      ensures "password" !in r
      ensures forall k :: k in r ==> k in ToObject() && r[k] == ToObject()[k]
      ensures forall k :: k in ToObject() && k != "password" ==> k in r
    {
      ToObject() - {"password"}
    }
  }

  /**
   * Whether a user receives alerts depends on the active flag, not on the
   * subscription status: an expired subscription still receives them.
   */
  lemma ReceivesAlertsUnlessInactive(u: User, now: int)
    ensures u.CanReceiveAlerts() <==> u.isEmailVerified && u.GetSubscriptionStatus(now) != SubscriptionInactive
  {
  }

  /** An expired subscription still receives alerts when it is marked active. */
  lemma ExpiredStillReceivesAlerts(u: User, now: int)
    requires u.isEmailVerified && u.GetSubscriptionStatus(now) == SubscriptionExpired
    ensures u.CanReceiveAlerts()
  {
  }

  /** The stored user with exactly this address, if any. */
  function FindStored(users: seq<User>, email: string): (r: Option<User>)
    ensures r.Some? ==> r.value in users && r.value.email == email
    ensures r.None? ==> forall u :: u in users ==> u.email != email
  {
    if users == [] then None
    else if users[0].email == email then Some(users[0])
    else
      assert forall u :: u in users ==> u == users[0] || u in users[1..];
      FindStored(users[1..], email)
  }

  /** The unique index on `email`. */
  predicate UniqueEmails(users: seq<User>)
  {
    forall i, j :: 0 <= i < j < |users| ==> users[i].email != users[j].email
  }

  /**
   * `findByEmail`: looks up the lower-cased query. Casting the query value
   * applies the schema's setters to it as well, so it is also trimmed: the
   * lookup is by the query's normal form.
   */
  function FindByEmail(users: seq<User>, email: string): (r: Option<User>)
    ensures r.Some? ==> r.value in users && r.value.email == NormalizeEmail(email)
    ensures r.None? ==> forall u :: u in users ==> u.email != NormalizeEmail(email)
  {
    LoweredNormalizesAlike(email);
    FindStored(users, NormalizeEmail(Lower(email)))
  }

  /** Lower-casing first does not change an address's normal form. */
  lemma LoweredNormalizesAlike(email: string)
    ensures NormalizeEmail(Lower(email)) == NormalizeEmail(email)
  {
    TrimLower(email);
    LowerIsLower(Trim(email));
  }

  /** Two addresses that differ only in letter case have the same normal form. */
  lemma CasingsNormalizeAlike(a: string, b: string)
    requires Lower(a) == Lower(b)
    ensures NormalizeEmail(a) == NormalizeEmail(b)
  {
    LoweredNormalizesAlike(a);
    LoweredNormalizesAlike(b);
  }

  /**
   * A user is found again by any query with the normal form of the
   * address they registered with: that address in any letter case, with
   * or without surrounding white space.
   */
  lemma FindByEmailIgnoresCase(users: seq<User>, u: User, given: string, query: string)
    requires u in users && UniqueEmails(users)
    requires u.email == NormalizeEmail(given)
    requires NormalizeEmail(query) == NormalizeEmail(given)
    ensures FindByEmail(users, query) == Some(u)
  {
    var r := FindByEmail(users, query);
    var i :| 0 <= i < |users| && users[i] == u;
    var j :| 0 <= j < |users| && users[j] == r.value;
    assert i == j;
  }
}
