/**
 * The quota policy shared by the server-side gate and the client-side tracker:
 * the two ceilings, the per-IP soft cap, and the truthiness test both sides
 * apply to optional identity strings.
 */
module Quota {
  import opened Wrappers

  /** Prompts a guest (identified by a device fingerprint) may make. */
  const GuestLimit: nat := 5

  /** Prompts a logged-in user may make in total, guest usage included. */
  const UserLimit: nat := 8

  /** Guest requests one IP address may pass in its counting window. */
  const IpGuestLimit: nat := 10

  /**
   * An identity string counts as present when it is given and non-empty:
   * both `if user_id:` in Python and `!fingerprint` in JavaScript treat
   * a missing value and the empty string alike.
   */
  predicate Truthy(s: Option<string>): (b: bool)
    // a missing value and the empty string are both falsy
    ensures s == None || s == Some("") ==> !b
    // every other string is truthy
    ensures s.Some? && |s.value| > 0 ==> b
  {
    s.Some? && s.value != ""
  }

  /** What remains of `limit` once `used` prompts are spent (never negative). */
  function Budget(used: nat, limit: nat): (b: nat)
    ensures b <= limit
    ensures used <= limit ==> used + b == limit
    ensures limit <= used ==> b == 0
  {
    if used >= limit then 0 else limit - used
  }
}
