/**
 * The server-side quota gate `check_and_increment_limit`
 * (backend/app/services/limit_service.py).
 *
 * The gate reads and writes three tables keyed by identity:
 *   user_stats        user id      -> prompt_count
 *   guest_tracking    fingerprint  -> prompt_count, last_ip
 *   ip_abuse_monitor  IP address   -> is_blocked, request_count_1h
 * A logged-in caller is capped at UserLimit after inheriting the guest count of
 * its device on first sight; a guest must pass the IP checks (hard block, then the
 * soft cap IpGuestLimit, then the IP counter is bumped) and then the fingerprint
 * cap GuestLimit.  HTTP 403 errors become `Err` results.
 *
 * `Check` is the decision as a function of the tables before the call: it gives
 * the result, the tables afterwards and the writes issued, in order.  The class
 * `LimitStore` runs the same procedure step by step on three mutable maps and is
 * proved to agree with `Check`.
 */
module LimitService {
  import opened Wrappers
  import opened Quota

  /** The `detail` strings of the 403 responses. */
  datatype LimitError = UserLimitReached | IpBlocked | IpLimitReached | GuestLimitReached

  datatype GuestRow = GuestRow(promptCount: nat, lastIp: string)

  datatype IpRow = IpRow(isBlocked: bool, requestCount1h: nat)

  /** The three tables, each keyed by its primary key. */
  datatype Tables = Tables(
    userStats: map<string, nat>,
    guestTracking: map<string, GuestRow>,
    ipAbuseMonitor: map<string, IpRow>)

  /** The arguments of one call; `userId` is None when the caller is not logged in. */
  datatype Request = Request(fingerprint: string, ip: string, userId: Option<string>)

  /** One database write, as issued by the gate. */
  datatype Write =
    | InsertUserStats(userId: string, promptCount: nat)
    | UpdateUserStats(userId: string, promptCount: nat)
    | UpdateIpCount(ip: string, requestCount1h: nat)
    | InsertIp(ip: string)
    | UpsertGuest(fingerprint: string, promptCount: nat, lastIp: string)

  /** The outcome of one call: its result, the tables afterwards, and the writes it issued in order. */
  datatype Step = Step(result: Result<nat, LimitError>, after: Tables, writes: seq<Write>)

  /** The effect of one write on the tables.  An UPDATE of a missing row changes nothing. */
  function ApplyWrite(t: Tables, w: Write): Tables {
    match w
    case InsertUserStats(u, c) => t.(userStats := t.userStats[u := c])
    case UpdateUserStats(u, c) =>
      if u in t.userStats then t.(userStats := t.userStats[u := c]) else t
    case UpdateIpCount(ip, c) =>
      if ip in t.ipAbuseMonitor
      then t.(ipAbuseMonitor := t.ipAbuseMonitor[ip := t.ipAbuseMonitor[ip].(requestCount1h := c)])
      else t
    case InsertIp(ip) =>
      // is_blocked takes the column default, false
      t.(ipAbuseMonitor := t.ipAbuseMonitor[ip := IpRow(false, 1)])
    case UpsertGuest(f, c, ip) => t.(guestTracking := t.guestTracking[f := GuestRow(c, ip)])
  }

  /** The effect of a sequence of writes applied in order. */
  function ApplyWrites(t: Tables, ws: seq<Write>): Tables
    decreases |ws|
  {
    if ws == [] then t else ApplyWrites(ApplyWrite(t, ws[0]), ws[1..])
  }

  /** A fingerprint's guest count; a missing guest_tracking row counts as 0. */
  function GuestCount(t: Tables, fingerprint: string): nat {
    if fingerprint in t.guestTracking then t.guestTracking[fingerprint].promptCount else 0
  }

  /** A user's stored count; 0 when user_stats has no row for it. */
  function UserUsed(t: Tables, userId: string): nat {
    if userId in t.userStats then t.userStats[userId] else 0
  }

  /** An IP's request_count_1h; 0 when ip_abuse_monitor has no row for it. */
  function IpUsed(t: Tables, ip: string): nat {
    if ip in t.ipAbuseMonitor then t.ipAbuseMonitor[ip].requestCount1h else 0
  }

  /**
   * The count the logged-in path compares with the cap: the stored row, or for
   * a user seen for the first time the guest count of the device it uses.
   */
  function UserStart(t: Tables, fingerprint: string, userId: string): nat {
    if userId in t.userStats then t.userStats[userId] else GuestCount(t, fingerprint)
  }

  /** The IP checks let a guest request through: no row yet, or a row neither blocked nor at the cap. */
  predicate IpAdmits(t: Tables, ip: string) {
    ip !in t.ipAbuseMonitor
    || (!t.ipAbuseMonitor[ip].isBlocked && t.ipAbuseMonitor[ip].requestCount1h < IpGuestLimit)
  }

  /** The write that counts an admitted guest request against its IP. */
  function IpBump(t: Tables, ip: string): Write {
    if ip in t.ipAbuseMonitor then UpdateIpCount(ip, t.ipAbuseMonitor[ip].requestCount1h + 1) else InsertIp(ip)
  }

  /** Scenario A: a logged-in caller. */
  function CheckUser(t: Tables, fingerprint: string, userId: string): (s: Step)
    // the cap, both ways, and what is returned
    ensures s.result.Ok? <==> UserStart(t, fingerprint, userId) < UserLimit
    ensures s.result.Err? ==> s.result.error == UserLimitReached
    ensures s.result.Ok? ==> s.result.value == UserStart(t, fingerprint, userId) + 1
    ensures s.result.Ok? ==> 1 <= s.result.value <= UserLimit
    // the user's row exists afterwards: a row created on first sight persists even when the cap then fails
    ensures userId in s.after.userStats
    ensures s.after.userStats[userId] ==
            if s.result.Ok? then s.result.value else UserStart(t, fingerprint, userId)
    // nothing else changes: other users, guest_tracking and ip_abuse_monitor
    ensures s.after.userStats - {userId} == t.userStats - {userId}
    ensures s.after.guestTracking == t.guestTracking
    ensures s.after.ipAbuseMonitor == t.ipAbuseMonitor
    // the writes, in order: the insert of a new row comes before the cap check
    ensures s.writes ==
            (if userId in t.userStats then [] else [InsertUserStats(userId, GuestCount(t, fingerprint))])
            + (if s.result.Ok? then [UpdateUserStats(userId, s.result.value)] else [])
  {
    var created := if userId in t.userStats then [] else [InsertUserStats(userId, GuestCount(t, fingerprint))];
    var t1 := if userId in t.userStats then t else ApplyWrite(t, created[0]);
    var stored := t1.userStats[userId];
    if stored >= UserLimit then
      Step(Err(UserLimitReached), t1, created)
    else
      var w := UpdateUserStats(userId, stored + 1);
      Step(Ok(stored + 1), ApplyWrite(t1, w), created + [w])
  }

  /** Scenario B: a guest. */
  function CheckGuest(t: Tables, fingerprint: string, ip: string): (s: Step)
    // the IP checks fail without writing anything
    ensures ip in t.ipAbuseMonitor && t.ipAbuseMonitor[ip].isBlocked ==> s == Step(Err(IpBlocked), t, [])
    ensures (ip in t.ipAbuseMonitor && !t.ipAbuseMonitor[ip].isBlocked
             && t.ipAbuseMonitor[ip].requestCount1h >= IpGuestLimit)
            ==> s == Step(Err(IpLimitReached), t, [])
    // past the IP checks the IP counter is bumped first, whatever the fingerprint check then decides
    ensures IpAdmits(t, ip) ==>
              && |s.writes| >= 1 && s.writes[0] == IpBump(t, ip)
              && s.after.ipAbuseMonitor == t.ipAbuseMonitor[ip := IpRow(false, IpUsed(t, ip) + 1)]
    // the fingerprint cap, both ways
    ensures IpAdmits(t, ip) ==> (s.result.Ok? <==> GuestCount(t, fingerprint) < GuestLimit)
    ensures IpAdmits(t, ip) && s.result.Err? ==>
              && s.result.error == GuestLimitReached
              && s.after.guestTracking == t.guestTracking
              && s.writes == [IpBump(t, ip)]
    ensures s.result.Ok? ==>
              && IpAdmits(t, ip)
              && s.result.value == GuestCount(t, fingerprint) + 1
              && 1 <= s.result.value <= GuestLimit
              && s.after.guestTracking == t.guestTracking[fingerprint := GuestRow(s.result.value, ip)]
              && s.writes == [IpBump(t, ip), UpsertGuest(fingerprint, s.result.value, ip)]
    // the guest path never touches user_stats
    ensures s.after.userStats == t.userStats
  {
    if ip in t.ipAbuseMonitor && t.ipAbuseMonitor[ip].isBlocked then
      Step(Err(IpBlocked), t, [])
    else if ip in t.ipAbuseMonitor && t.ipAbuseMonitor[ip].requestCount1h >= IpGuestLimit then
      Step(Err(IpLimitReached), t, [])
    else
      var bump := IpBump(t, ip);
      var t1 := ApplyWrite(t, bump);
      var count := GuestCount(t1, fingerprint);
      if count >= GuestLimit then
        Step(Err(GuestLimitReached), t1, [bump])
      else
        var w := UpsertGuest(fingerprint, count + 1, ip);
        Step(Ok(count + 1), ApplyWrite(t1, w), [bump, w])
  }

  /** `check_and_increment_limit`: a truthy user id selects the logged-in path. */
  function Check(t: Tables, r: Request): (s: Step)
    ensures s.result.Ok? ==> 1 <= s.result.value <= if Truthy(r.userId) then UserLimit else GuestLimit
    // the logged-in path never touches ip_abuse_monitor or guest_tracking; the guest path never user_stats
    ensures Truthy(r.userId) ==>
              s.after.ipAbuseMonitor == t.ipAbuseMonitor && s.after.guestTracking == t.guestTracking
    ensures !Truthy(r.userId) ==> s.after.userStats == t.userStats
  {
    if Truthy(r.userId) then CheckUser(t, r.fingerprint, r.userId.value) else CheckGuest(t, r.fingerprint, r.ip)
  }

  /** The tables afterwards are exactly the tables before with the journalled writes replayed in order. */
  lemma CheckReplaysWrites(t: Tables, r: Request)
    ensures ApplyWrites(t, Check(t, r).writes) == Check(t, r).after
  {
    var w := Check(t, r).writes;
    if |w| == 2 {
      calc {
        ApplyWrites(t, w);
        ApplyWrites(ApplyWrite(t, w[0]), w[1..]);
        { assert w[1..][0] == w[1] && w[1..][1..] == []; }
        ApplyWrites(ApplyWrite(ApplyWrite(t, w[0]), w[1]), []);
      }
    } else if |w| == 1 {
      assert w[1..] == [];
    }
  }

  /** The gate's tables, updated in place by `CheckAndIncrementLimit`. */
  class LimitStore {
    var userStats: map<string, nat>
    var guestTracking: map<string, GuestRow>
    var ipAbuseMonitor: map<string, IpRow>
    /** Every write issued so far, in order. */
    ghost var journal: seq<Write>

    function Snapshot(): Tables
      reads this
    {
      Tables(userStats, guestTracking, ipAbuseMonitor)
    }

    constructor (t: Tables)
      ensures Snapshot() == t && journal == []
    {
      userStats, guestTracking, ipAbuseMonitor := t.userStats, t.guestTracking, t.ipAbuseMonitor;
      journal := [];
    }

    method CheckAndIncrementLimit(fingerprint: string, ip: string, userId: Option<string>)
      returns (r: Result<nat, LimitError>)
      modifies this
      ensures var s := Check(old(Snapshot()), Request(fingerprint, ip, userId));
              && r == s.result
              && Snapshot() == s.after
              && journal == old(journal) + s.writes
    {
      if Truthy(userId) {
        r := ServeUser(fingerprint, userId.value);
      } else {
        r := ServeGuest(fingerprint, ip);
      }
    }

    /** Scenario A in place: a logged-in caller. */
    method ServeUser(fingerprint: string, userId: string) returns (r: Result<nat, LimitError>)
      modifies this
      ensures var s := CheckUser(old(Snapshot()), fingerprint, userId);
              && r == s.result
              && Snapshot() == s.after
              && journal == old(journal) + s.writes
    {
      var stats: nat;
      if userId !in userStats {
        // first sight of this user: inherit the device's guest count
        var current := if fingerprint in guestTracking then guestTracking[fingerprint].promptCount else 0;
        userStats := userStats[userId := current];
        journal := journal + [InsertUserStats(userId, current)];
        stats := current;
      } else {
        stats := userStats[userId];
      }
      if stats >= UserLimit {
        return Err(UserLimitReached);
      }
      userStats := userStats[userId := stats + 1];
      journal := journal + [UpdateUserStats(userId, stats + 1)];
      return Ok(stats + 1);
    }

    /** Scenario B in place: a guest. */
    method ServeGuest(fingerprint: string, ip: string) returns (r: Result<nat, LimitError>)
      modifies this
      ensures var s := CheckGuest(old(Snapshot()), fingerprint, ip);
              && r == s.result
              && Snapshot() == s.after
              && journal == old(journal) + s.writes
    {
      if ip in ipAbuseMonitor {
        var ipRecord := ipAbuseMonitor[ip];
        if ipRecord.isBlocked {
          return Err(IpBlocked);
        }
        var currentIpCount := ipRecord.requestCount1h;
        if currentIpCount >= IpGuestLimit {
          return Err(IpLimitReached);
        }
        ipAbuseMonitor := ipAbuseMonitor[ip := ipRecord.(requestCount1h := currentIpCount + 1)];
        journal := journal + [UpdateIpCount(ip, currentIpCount + 1)];
      } else {
        ipAbuseMonitor := ipAbuseMonitor[ip := IpRow(false, 1)];
        journal := journal + [InsertIp(ip)];
      }
      var guest := if fingerprint in guestTracking then guestTracking[fingerprint].promptCount else 0;
      if guest >= GuestLimit {
        return Err(GuestLimitReached);
      }
      guestTracking := guestTracking[fingerprint := GuestRow(guest + 1, ip)];
      journal := journal + [UpsertGuest(fingerprint, guest + 1, ip)];
      return Ok(guest + 1);
    }
  }
}
