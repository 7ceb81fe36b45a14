/**
 * The authorization decision of the central system (`createIdTagInfo`):
 * a priority-ordered chain over the user record of an idTag, evaluated at
 * one instant `now`. It reads the user store and changes nothing.
 */
module Authorization {
  import opened Wrappers
  import opened OcppTypes

  /** The record carries an expiry date and `now` lies strictly after it. */
  predicate IsExpired(record: UserRecord, now: Millis) {
    record.expiryDate.Some? && now > record.expiryDate.value
  }

  /** The expiry date granted with an accepted idTag: `hoursToExpire` hours after `now`. */
  function GrantedExpiry(now: Millis, hoursToExpire: Int32): Millis {
    now + hoursToExpire * MillisPerHour
  }

  /**
   * The authorization of `idTag` against the user store `users` at `now`:
   * unknown, then in a transaction, then blocked, then expired, else accepted.
   * Only an accepted idTag carries an expiry date and a parent idTag.
   */
  function CreateIdTagInfo(users: map<string, UserRecord>, idTag: string, now: Millis, hoursToExpire: Int32)
    : (info: IdTagInfo)
    ensures info.status != Accepted ==> info.expiryDate == None && info.parentIdTag == None
    ensures info.status == Accepted ==>
              && idTag in users
              && info.expiryDate == Some(GrantedExpiry(now, hoursToExpire))
              && info.parentIdTag == users[idTag].parentIdTag
  {
    if idTag in users then
      var record := users[idTag];
      if record.inTransaction then IdTagInfo(ConcurrentTx, None, None)
      else if record.blocked then IdTagInfo(Blocked, None, None)
      else if IsExpired(record, now) then IdTagInfo(Expired, None, None)
      else IdTagInfo(Accepted, Some(GrantedExpiry(now, hoursToExpire)), record.parentIdTag)
    else
      IdTagInfo(Invalid, None, None)
  }

  // ---------------------------------------------------------------------------
  // Which outcome wins
  // ---------------------------------------------------------------------------

  /** An idTag without a user record is invalid, and nothing else is attached. */
  lemma UnknownIdTagIsInvalid(users: map<string, UserRecord>, idTag: string, now: Millis, hoursToExpire: Int32)
    requires idTag !in users
    ensures CreateIdTagInfo(users, idTag, now, hoursToExpire) == IdTagInfo(Invalid, None, None)
  {
  }

  /** A record in a transaction is reported as a concurrent transaction, whatever its other flags. */
  lemma InTransactionWins(users: map<string, UserRecord>, idTag: string, now: Millis, hoursToExpire: Int32)
    requires idTag in users && users[idTag].inTransaction
    ensures CreateIdTagInfo(users, idTag, now, hoursToExpire) == IdTagInfo(ConcurrentTx, None, None)
  {
  }

  /** Outside a transaction, a blocked record is blocked, whatever its expiry date. */
  lemma BlockedBeatsExpiry(users: map<string, UserRecord>, idTag: string, now: Millis, hoursToExpire: Int32)
    requires idTag in users && !users[idTag].inTransaction && users[idTag].blocked
    ensures CreateIdTagInfo(users, idTag, now, hoursToExpire) == IdTagInfo(Blocked, None, None)
  {
  }

  /** EXPIRED exactly for a known, free, unblocked record whose expiry date `now` has passed. */
  lemma ExpiredExactly(users: map<string, UserRecord>, idTag: string, now: Millis, hoursToExpire: Int32)
    ensures CreateIdTagInfo(users, idTag, now, hoursToExpire).status == Expired
        <==> idTag in users && !users[idTag].inTransaction && !users[idTag].blocked && IsExpired(users[idTag], now)
  {
  }

  /** At the very instant of its expiry date a record is not yet expired. */
  lemma ExpiryInstantIsNotExpired(users: map<string, UserRecord>, idTag: string, now: Millis, hoursToExpire: Int32)
    requires idTag in users && users[idTag].expiryDate == Some(now)
    ensures CreateIdTagInfo(users, idTag, now, hoursToExpire).status != Expired
  {
  }

  /**
   * ACCEPTED exactly when no earlier rule applies; then the expiry date is
   * `now` plus the configured hours and the parent idTag is present exactly
   * when the record has one.
   */
  lemma AcceptedExactly(users: map<string, UserRecord>, idTag: string, now: Millis, hoursToExpire: Int32)
    ensures var info := CreateIdTagInfo(users, idTag, now, hoursToExpire);
            && (info.status == Accepted
                <==> idTag in users && !users[idTag].inTransaction && !users[idTag].blocked
                     && !IsExpired(users[idTag], now))
            && (info.status == Accepted ==>
                  && info.expiryDate == Some(now + hoursToExpire * MillisPerHour)
                  // implied by the equality below; spelled out on purpose as the "if and only if"
                  && (info.parentIdTag.Some? <==> users[idTag].parentIdTag.Some?)
                  && info.parentIdTag == users[idTag].parentIdTag)
  {
  }

  // ---------------------------------------------------------------------------
  // The same policy written as an ordered list of rules, first match wins
  // ---------------------------------------------------------------------------

  datatype Rule = InTransactionRule | BlockedRule | ExpiredRule

  predicate Fires(rule: Rule, record: UserRecord, now: Millis) {
    match rule
    case InTransactionRule => record.inTransaction
    case BlockedRule => record.blocked
    case ExpiredRule => IsExpired(record, now)
  }

  function Verdict(rule: Rule): AuthorizationStatus {
    match rule
    case InTransactionRule => ConcurrentTx
    case BlockedRule => Blocked
    case ExpiredRule => Expired
  }

  /** The deliberate priority of the policy. */
  const PolicyOrder: seq<Rule> := [InTransactionRule, BlockedRule, ExpiredRule]

  /** The verdict of the first rule that fires, ACCEPTED when none does. */
  function FirstMatch(rules: seq<Rule>, record: UserRecord, now: Millis): AuthorizationStatus {
    if rules == [] then Accepted
    else if Fires(rules[0], record, now) then Verdict(rules[0])
    else FirstMatch(rules[1..], record, now)
  }

  /** The reference decision: INVALID for an unknown idTag, else the first matching rule. */
  function PolicyStatus(users: map<string, UserRecord>, idTag: string, now: Millis): AuthorizationStatus {
    if idTag !in users then Invalid else FirstMatch(PolicyOrder, users[idTag], now)
  }

  /** The rule at index `k` decides when it fires and no rule before it does. */
  lemma {:induction false} FirstMatchIsFirstFiring(rules: seq<Rule>, record: UserRecord, now: Millis, k: nat)
    requires k < |rules| && Fires(rules[k], record, now)
    requires forall j :: 0 <= j < k ==> !Fires(rules[j], record, now)
    ensures FirstMatch(rules, record, now) == Verdict(rules[k])
  {
    if k > 0 {
      assert !Fires(rules[0], record, now);
      FirstMatchIsFirstFiring(rules[1..], record, now, k - 1);
    }
  }

  /** When no rule fires the idTag is accepted. */
  lemma {:induction false} FirstMatchNoneFires(rules: seq<Rule>, record: UserRecord, now: Millis)
    requires forall j :: 0 <= j < |rules| ==> !Fires(rules[j], record, now)
    ensures FirstMatch(rules, record, now) == Accepted
  {
    if rules != [] {
      assert !Fires(rules[0], record, now);
      FirstMatchNoneFires(rules[1..], record, now);
    }
  }

  /** The if/else chain decides exactly as the ordered rule list does. */
  lemma CreateIdTagInfoFollowsPolicyOrder(users: map<string, UserRecord>, idTag: string, now: Millis, hoursToExpire: Int32)
    ensures CreateIdTagInfo(users, idTag, now, hoursToExpire).status == PolicyStatus(users, idTag, now)
  {
    if idTag in users {
      var record := users[idTag];
      if record.inTransaction {
        FirstMatchIsFirstFiring(PolicyOrder, record, now, 0);
      } else if record.blocked {
        FirstMatchIsFirstFiring(PolicyOrder, record, now, 1);
      } else if IsExpired(record, now) {
        FirstMatchIsFirstFiring(PolicyOrder, record, now, 2);
      } else {
        FirstMatchNoneFires(PolicyOrder, record, now);
      }
    }
  }
}
