/**
 * How the client-side tracker and the server-side gate fit together: the client
 * reads the rows the gate writes, with the same keys, and shows the same ceilings
 * the gate enforces.
 */
module QuotaAgreement {
  import opened Wrappers
  import opened Quota
  import opened LimitService
  import opened PromptCount

  /** The row a client read selects from the gate's tables (at most one: the key is the primary key). */
  function ReadRow(t: Tables, q: Query): (r: Option<CountRow>)
    // a row is found exactly when the gate has stored one under the key
    ensures q.table == UserStats ==> (r.Some? <==> q.key in t.userStats)
    ensures q.table == GuestTracking ==> (r.Some? <==> q.key in t.guestTracking)
    // the gate never stores a null count
    ensures r.Some? ==> r.value.promptCount.Some?
  {
    match q.table
    case UserStats =>
      if q.key in t.userStats then Some(CountRow(Some(t.userStats[q.key]))) else None
    case GuestTracking =>
      if q.key in t.guestTracking then Some(CountRow(Some(t.guestTracking[q.key].promptCount))) else None
  }

  /** The client shows the count the gate works with: a missing row on either side is 0. */
  lemma ClientReadsGateCount(t: Tables, q: Query)
    ensures q.table == UserStats ==> NormalizeCount(ReadRow(t, q)) == UserUsed(t, q.key)
    ensures q.table == GuestTracking ==> NormalizeCount(ReadRow(t, q)) == GuestCount(t, q.key)
  {
  }

  /**
   * After the gate grants a prompt, the row the client tracks for the same
   * identity holds the granted count, and that count is within the ceiling the
   * client shows for it.
   */
  lemma GrantSeenWithinCeiling(t: Tables, r: Request)
    requires Check(t, r).result.Ok?
    ensures var q := if Truthy(r.userId) then Query(UserStats, r.userId.value) else Query(GuestTracking, r.fingerprint);
            && (Truthy(r.userId) ==> Plan(Some(r.fingerprint), r.userId, true) == Some(q))
            && (!Truthy(r.userId) && r.fingerprint != "" ==> Plan(Some(r.fingerprint), r.userId, false) == Some(q))
            && NormalizeCount(ReadRow(Check(t, r).after, q)) == Check(t, r).result.value
            && Check(t, r).result.value <= Ceiling(q.table)
  {
  }

  /** Each ceiling is reached: in any tables, the gate grants exactly the ceiling's count to a caller one short of it. */
  lemma CeilingsReached(t: Tables, fingerprint: string, ip: string, userId: string)
    ensures userId != "" && UserStart(t, fingerprint, userId) == UserLimit - 1 ==>
              Check(t, Request(fingerprint, ip, Some(userId))).result == Ok(Ceiling(UserStats))
    ensures IpAdmits(t, ip) && GuestCount(t, fingerprint) == GuestLimit - 1 ==>
              Check(t, Request(fingerprint, ip, None)).result == Ok(Ceiling(GuestTracking))
  {
  }
}
