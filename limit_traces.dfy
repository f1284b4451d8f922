/**
 * Sequences of calls to the quota gate.  `Final` replays requests one after
 * another against the tables; the lemmas bound what any sequence can obtain:
 * a fingerprint is granted at most GuestLimit guest prompts, a user id at most
 * UserLimit prompts, and an IP address lets at most IpGuestLimit guest requests
 * past its checks, each counted from what the tables already record.  The
 * hourly reset of request_count_1h happens outside the gate and is not part of
 * these sequences.
 */
module LimitTraces {
  import opened Wrappers
  import opened Quota
  import opened LimitService

  /** The tables after the requests have been served in order. */
  function Final(t: Tables, reqs: seq<Request>): Tables
    decreases |reqs|
  {
    if reqs == [] then t else Final(Check(t, reqs[0]).after, reqs[1..])
  }

  /** A request that the gate serves as a guest with this fingerprint. */
  predicate IsGuestOf(r: Request, fingerprint: string) {
    !Truthy(r.userId) && r.fingerprint == fingerprint
  }

  /** A request that the gate serves as this logged-in user. */
  predicate IsUserOf(r: Request, userId: string) {
    Truthy(r.userId) && r.userId.value == userId
  }

  /** A request that the gate serves as a guest from this IP address. */
  predicate IsGuestFrom(r: Request, ip: string) {
    !Truthy(r.userId) && r.ip == ip
  }

  /** Prompts granted to guest requests with this fingerprint. */
  function GuestGrants(t: Tables, reqs: seq<Request>, fingerprint: string): nat
    decreases |reqs|
  {
    if reqs == [] then 0
    else
      var s := Check(t, reqs[0]);
      (if IsGuestOf(reqs[0], fingerprint) && s.result.Ok? then 1 else 0)
      + GuestGrants(s.after, reqs[1..], fingerprint)
  }

  /** Prompts granted to requests logged in as this user id. */
  function UserGrants(t: Tables, reqs: seq<Request>, userId: string): nat
    decreases |reqs|
  {
    if reqs == [] then 0
    else
      var s := Check(t, reqs[0]);
      (if IsUserOf(reqs[0], userId) && s.result.Ok? then 1 else 0)
      + UserGrants(s.after, reqs[1..], userId)
  }

  /** Guest requests from this IP that got past the IP checks (granted or refused by the fingerprint cap). */
  function IpAdmissions(t: Tables, reqs: seq<Request>, ip: string): nat
    decreases |reqs|
  {
    if reqs == [] then 0
    else
      var s := Check(t, reqs[0]);
      (if IsGuestFrom(reqs[0], ip) && IpAdmits(t, ip) then 1 else 0)
      + IpAdmissions(s.after, reqs[1..], ip)
  }

  /** Every stored count is within its cap. */
  predicate WithinLimits(t: Tables) {
    && (forall u :: u in t.userStats ==> t.userStats[u] <= UserLimit)
    && (forall f :: f in t.guestTracking ==> t.guestTracking[f].promptCount <= GuestLimit)
    && (forall ip :: ip in t.ipAbuseMonitor ==> t.ipAbuseMonitor[ip].requestCount1h <= IpGuestLimit)
  }

  /** One call keeps every stored count within its cap. */
  lemma CheckKeepsLimits(t: Tables, r: Request)
    requires WithinLimits(t)
    ensures WithinLimits(Check(t, r).after)
  {
  }

  /** Any sequence of calls keeps every stored count within its cap. */
  lemma {:induction false} FinalKeepsLimits(t: Tables, reqs: seq<Request>)
    requires WithinLimits(t)
    ensures WithinLimits(Final(t, reqs))
    decreases |reqs|
  {
    if reqs != [] {
      CheckKeepsLimits(t, reqs[0]);
      FinalKeepsLimits(Check(t, reqs[0]).after, reqs[1..]);
    }
  }

  /** One call moves a fingerprint's guest count by one exactly when it grants that fingerprint a guest prompt. */
  lemma GuestCountStep(t: Tables, r: Request, fingerprint: string)
    ensures var s := Check(t, r);
            GuestCount(s.after, fingerprint)
            == GuestCount(t, fingerprint) + (if IsGuestOf(r, fingerprint) && s.result.Ok? then 1 else 0)
  {
  }

  /** A fingerprint is granted at most what remains of GuestLimit after its recorded guest count. */
  lemma {:induction false} GuestGrantsBounded(t: Tables, reqs: seq<Request>, fingerprint: string)
    ensures GuestGrants(t, reqs, fingerprint) <= Budget(GuestCount(t, fingerprint), GuestLimit)
    decreases |reqs|
  {
    if reqs != [] {
      var s := Check(t, reqs[0]);
      GuestCountStep(t, reqs[0], fingerprint);
      GuestGrantsBounded(s.after, reqs[1..], fingerprint);
      if IsGuestOf(reqs[0], fingerprint) && s.result.Ok? {
        assert GuestCount(t, fingerprint) < GuestLimit;
      }
    }
  }

  /** A fresh fingerprint gets at most GuestLimit guest prompts, however many requests it sends. */
  lemma FreshFingerprintGetsAtMostGuestLimit(t: Tables, reqs: seq<Request>, fingerprint: string)
    requires fingerprint !in t.guestTracking
    ensures GuestGrants(t, reqs, fingerprint) <= GuestLimit
  {
    GuestGrantsBounded(t, reqs, fingerprint);
  }

  /**
   * One call never lowers a user's stored count, and a prompt granted to that user
   * leaves it at least one higher and at most UserLimit.
   */
  lemma UserUsedStep(t: Tables, r: Request, userId: string)
    ensures var s := Check(t, r);
            && UserUsed(t, userId) <= UserUsed(s.after, userId)
            && (IsUserOf(r, userId) && s.result.Ok? ==>
                  UserUsed(t, userId) < UserUsed(s.after, userId) <= UserLimit)
  {
  }

  /** A user id is granted at most what remains of UserLimit after its stored count. */
  lemma {:induction false} UserGrantsBounded(t: Tables, reqs: seq<Request>, userId: string)
    ensures UserGrants(t, reqs, userId) <= Budget(UserUsed(t, userId), UserLimit)
    decreases |reqs|
  {
    if reqs != [] {
      var s := Check(t, reqs[0]);
      UserUsedStep(t, reqs[0], userId);
      UserGrantsBounded(s.after, reqs[1..], userId);
    }
  }

  /**
   * A user seen for the first time starts from its device's guest count, so it is
   * granted at most what remains of UserLimit after that inherited count.
   */
  lemma FirstSightInherits(t: Tables, reqs: seq<Request>, userId: string)
    requires reqs != [] && IsUserOf(reqs[0], userId) && userId !in t.userStats
    ensures UserGrants(t, reqs, userId) <= Budget(GuestCount(t, reqs[0].fingerprint), UserLimit)
  {
    UserGrantsBounded(Check(t, reqs[0]).after, reqs[1..], userId);
  }

  /** One call moves an IP's counter by one exactly when it admits a guest request from that IP, and keeps it within the cap. */
  lemma IpUsedStep(t: Tables, r: Request, ip: string)
    ensures var s := Check(t, r);
            && (IsGuestFrom(r, ip) && IpAdmits(t, ip) ==>
                  IpUsed(s.after, ip) == IpUsed(t, ip) + 1 <= IpGuestLimit)
            && (!(IsGuestFrom(r, ip) && IpAdmits(t, ip)) ==> IpUsed(s.after, ip) == IpUsed(t, ip))
  {
  }

  /** An IP address lets through at most what remains of IpGuestLimit after its recorded count. */
  lemma {:induction false} IpAdmissionsBounded(t: Tables, reqs: seq<Request>, ip: string)
    ensures IpAdmissions(t, reqs, ip) <= Budget(IpUsed(t, ip), IpGuestLimit)
    decreases |reqs|
  {
    if reqs != [] {
      var s := Check(t, reqs[0]);
      IpUsedStep(t, reqs[0], ip);
      IpAdmissionsBounded(s.after, reqs[1..], ip);
    }
  }

  /** Every prompt granted to a guest was admitted by its IP, so one IP yields at most IpGuestLimit guest prompts over all fingerprints. */
  lemma {:induction false} GuestGrantsFromIpBounded(t: Tables, reqs: seq<Request>, ip: string)
    ensures GuestGrantsFrom(t, reqs, ip) <= IpAdmissions(t, reqs, ip) <= Budget(IpUsed(t, ip), IpGuestLimit)
    decreases |reqs|
  {
    IpAdmissionsBounded(t, reqs, ip);
    if reqs != [] {
      GuestGrantsFromIpBounded(Check(t, reqs[0]).after, reqs[1..], ip);
    }
  }

  /** Prompts granted to guest requests from this IP, whatever their fingerprint. */
  function GuestGrantsFrom(t: Tables, reqs: seq<Request>, ip: string): nat
    decreases |reqs|
  {
    if reqs == [] then 0
    else
      var s := Check(t, reqs[0]);
      (if IsGuestFrom(reqs[0], ip) && s.result.Ok? then 1 else 0)
      + GuestGrantsFrom(s.after, reqs[1..], ip)
  }
}
