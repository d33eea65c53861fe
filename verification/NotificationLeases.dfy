// Lease exclusivity for jobs, triage rows, mailbox recovery and the watch.

module NotificationLeases {
  import opened Common
  import opened NotificationRows
  import opened NotificationProtocol
  import opened NotificationTransactions

  // The window of a lease is over by `t`: released, or run out.
  predicate OverBy(g: Grant, t: Time) {
    g.expiresAt <= t || (g.releasedAt.Some? && g.releasedAt.value <= t)
  }

  // Of two leases on one resource, the earlier one is over when the later one starts.
  ghost predicate DisjointWindows(grants: map<Token, Grant>) {
    forall t1, t2 :: t1 in grants && t2 in grants && t1 < t2 && grants[t1].resource == grants[t2].resource ==>
      OverBy(grants[t1], grants[t2].grantedAt)
  }

  // The token stored in a row is the last one granted for it, and still unreleased.
  ghost predicate StoredTokensAreLatest(s: Sys) {
    forall r: Resource :: Holder(s.db, r).Some? ==>
      var lease := Holder(s.db, r).value;
      && lease.token in s.grants
      && s.grants[lease.token].resource == r
      && s.grants[lease.token].expiresAt == lease.expiresAt
      && s.grants[lease.token].releasedAt.None?
      && (forall t <- s.grants :: s.grants[t].resource == r ==> t <= lease.token)
  }

  // A lease that is neither released nor expired is the one in the row.
  ghost predicate LiveLeasesAreStored(s: Sys) {
    forall t <- s.grants :: s.grants[t].releasedAt.None? && s.grants[t].expiresAt > s.clock ==>
      Holder(s.db, s.grants[t].resource) == Some(Lease(t, s.grants[t].expiresAt))
  }

  ghost predicate GrantsOk(s: Sys) {
    && (forall t <- s.grants :: t < s.db.nextToken && s.grants[t].grantedAt <= s.clock)
    && (forall t <- s.grants :: s.grants[t].releasedAt.Some? ==> s.grants[t].releasedAt.value <= s.clock)
    && DisjointWindows(s.grants)
    && StoredTokensAreLatest(s)
    && LiveLeasesAreStored(s)
  }

  // How one step changes leases: none is taken or ended by its holder (expired ones may be
  // cleared), one is granted on a free resource, or one is ended by its token.
  datatype LeaseChange = NoneTaken | Granted(w: WorkerId, r: Resource, expiresAt: Time) | EndedBy(token: Token)

  ghost predicate LeaseStep(s: Sys, s': Sys, c: LeaseChange) {
    && s.db.nextToken <= s'.db.nextToken
    && match c
       case NoneTaken =>
         && s.clock <= s'.clock && s'.grants == s.grants
         && (forall r: Resource :: Holder(s'.db, r) == Holder(s.db, r) || Lapsed(s.db, s'.db, r, s.clock))
       case Granted(w, r, expiresAt) =>
         && s'.clock == s.clock && s'.grants == s.Granting(w, r, expiresAt).grants
         && Taken(s.db, s'.db, r, s.clock, expiresAt)
         && (forall q: Resource :: q != r ==> Holder(s'.db, q) == Holder(s.db, q))
       case EndedBy(token) =>
         && s'.clock == s.clock && token in s.grants && s'.grants == s.Ending(token).grants
         && Ended(s.db, s'.db, s.grants[token].resource, token)
         && (forall q: Resource :: q != s.grants[token].resource ==> Holder(s'.db, q) == Holder(s.db, q))
  }

  lemma LeaseStepKeepsGrants(s: Sys, s': Sys, c: LeaseChange)
    requires GrantsOk(s) && LeaseStep(s, s', c)
    ensures GrantsOk(s')
  {
    match c
    case NoneTaken =>
    case Granted(w, r, expiresAt) =>
      GrantingKeepsGrants(s, s', w, r, expiresAt);
    case EndedBy(token) =>
      EndingKeepsGrants(s, s', token);
  }

  // A resource is granted only when its row is free, or its lease there has run out.
  lemma EarlierIsOver(s: Sys, s': Sys, r: Resource, expiresAt: Time, t: Token)
    requires GrantsOk(s) && Taken(s.db, s'.db, r, s.clock, expiresAt)
    requires t in s.grants && s.grants[t].resource == r
    ensures OverBy(s.grants[t], s.clock)
  {
    var g := s.grants[t];
    assert g.releasedAt.None? && g.expiresAt > s.clock ==> Holder(s.db, g.resource) == Some(Lease(t, g.expiresAt));
  }

  lemma GrantingKeepsGrants(s: Sys, s': Sys, w: WorkerId, r: Resource, expiresAt: Time)
    requires GrantsOk(s) && LeaseStep(s, s', Granted(w, r, expiresAt))
    ensures GrantsOk(s')
  {
    forall t | t in s.grants && s.grants[t].resource == r
      ensures OverBy(s.grants[t], s.clock)
    {
      EarlierIsOver(s, s', r, expiresAt, t);
    }
    assert DisjointWindows(s'.grants);
    assert StoredTokensAreLatest(s');
    assert LiveLeasesAreStored(s');
  }

  lemma EndingKeepsGrants(s: Sys, s': Sys, token: Token)
    requires GrantsOk(s) && LeaseStep(s, s', EndedBy(token))
    ensures GrantsOk(s')
  {
    var r := s.grants[token].resource;
    assert Holder(s.db, r).value.token == token;
    assert forall t <- s.grants :: s.grants[t].resource == r ==> t <= token;
    assert DisjointWindows(s'.grants);
    assert StoredTokensAreLatest(s');
    assert LiveLeasesAreStored(s');
  }
}
