/** The signed-in user record: built by the simulated sign-in of
    app/auth/login/page.tsx and rolled over to a fresh daily quota by the
    dashboard page (app/dashboard/page.tsx) on the first visit of a day.
    `new Date().toDateString()` is the caller-supplied `today`. */
module Account {

  datatype Role = UserRole | AdminRole

  class User {
    var id: string
    var name: string
    var email: string
    var role: Role
    var dailyQuota: int
    var usedQuota: int
    var lastReset: string

    /** The quota has not been overdrawn. */
    predicate QuotaValid()
      reads this
    {
      0 <= usedQuota <= dailyQuota
    }

    /** `handleLogin(role)`: the fixed record for the chosen role, with a
        quota of 100, none of it used, last reset today. */
    constructor SignIn(r: Role, today: string)
      ensures role == r
      ensures id == (if r == AdminRole then "admin-1" else "user-1")
      ensures name == (if r == AdminRole then "Admin User" else "Sales Rep")
      ensures email == (if r == AdminRole then "admin@truleadai.com" else "sales@company.com")
      ensures dailyQuota == 100 && usedQuota == 0 && lastReset == today
      ensures QuotaValid()
    {
      role := r;
      id := if r == AdminRole then "admin-1" else "user-1";
      name := if r == AdminRole then "Admin User" else "Sales Rep";
      email := if r == AdminRole then "admin@truleadai.com" else "sales@company.com";
      dailyQuota := 100;
      usedQuota := 0;
      lastReset := today;
    }

    /** The dashboard's rollover: on a day other than the last reset the
        used quota returns to 0 and the reset date becomes today; on the
        same day nothing changes. Afterwards the reset date is today, so a
        second call the same day is a no-op. */
    method ResetIfNewDay(today: string)
      modifies this
      ensures old(lastReset) != today ==> usedQuota == 0
      ensures old(lastReset) == today ==> usedQuota == old(usedQuota)
      ensures lastReset == today
      ensures id == old(id) && name == old(name) && email == old(email)
      ensures role == old(role) && dailyQuota == old(dailyQuota)
      ensures old(QuotaValid()) ==> QuotaValid()
      ensures old(lastReset) != today && dailyQuota >= 0 ==> QuotaValid()
    {
      if lastReset != today {
        usedQuota := 0;
        lastReset := today;
      }
    }

  }

  /** Rolling over twice on one day is rolling over once. */
  method RolloverIdempotent(u: User, today: string)
    modifies u
    ensures u.usedQuota == (if old(u.lastReset) != today then 0 else old(u.usedQuota))
    ensures u.lastReset == today
    ensures u.id == old(u.id) && u.name == old(u.name) && u.email == old(u.email)
    ensures u.role == old(u.role) && u.dailyQuota == old(u.dailyQuota)
  {
    u.ResetIfNewDay(today);
    ghost var afterOnce := u.usedQuota;
    u.ResetIfNewDay(today);
    assert u.usedQuota == afterOnce;
  }
}
