/**
 * `check_user_permission(user, org_slug, require_superuser)`: ensure the org exists (creating
 * it when missing), ensure the user has a profile (creating it bound to the org when missing),
 * then decide `(has_permission, org_id)`, possibly binding an unbound profile to the org.
 *
 * The `orgs` table is a map from slug to org id and the `profiles` table a map from user id to
 * profile. Each database call may fail; a `Faults` record says, per call, whether it does, so
 * that every error branch is reachable. Any failure not handled where it happens reaches the
 * outer handler, which answers `(False, None)`.
 */
module OrgPermission {
  import opened Wrappers

  /** A row of `profiles` (its key, the user id, is the map key). */
  datatype Profile = Profile(orgId: Option<int>, isSuperuser: bool, isActivated: bool)

  /** The two tables the check reads and writes. */
  datatype Tables = Tables(orgs: map<string, int>, profiles: map<string, Profile>)

  /** What inserting a missing org does: raise, return no row, or return the new row's id. */
  datatype OrgInsert = InsertRaises | InsertNoRow | InsertReturns(orgId: int)

  /**
   * Per database call, whether it fails: obtaining the service-role client, selecting the org,
   * inserting the org, selecting the profile, inserting the profile, updating the profile.
   */
  datatype Faults = Faults(
    clientFails: bool,
    orgSelectFails: bool,
    orgInsert: OrgInsert,
    profileSelectFails: bool,
    profileInsertFails: bool,
    profileUpdateFails: bool)

  /** The returned pair `(has_permission, org_id)`. */
  datatype Verdict = Verdict(hasPermission: bool, orgId: Option<int>)

  /** The verdict together with the tables as the check leaves them. */
  datatype Outcome = Outcome(verdict: Verdict, tables: Tables)

  const DENIED := Verdict(false, None)

  /** Python truthiness of a profile's `org_id`: `None` and `0` are falsy. */
  predicate Falsy(orgId: Option<int>): (falsy: bool)
    ensures falsy <==> orgId in {None, Some(0)}
  {
    orgId.None? || orgId.value == 0
  }

  /** The profile created for a user seen for the first time. */
  function NewProfile(orgId: int): (profile: Profile)
    ensures profile.orgId == Some(orgId)
    ensures Falsy(profile.orgId) <==> orgId == 0
    ensures profile.isActivated && !profile.isSuperuser
  {
    Profile(Some(orgId), false, true)
  }

  /**
   * The check as a function of the tables before it and the faults of each call.
   * - A denial never names an org.
   * - A returned org id is the id the slug has in the resulting tables.
   * - The org table only ever gains the requested slug, and only when it was missing.
   * - No profile but the user's changes, and the user's profile is never removed.
   * - A created profile is activated, not a superuser, and bound to the returned org.
   * - An existing profile keeps its flags, and its org changes only from falsy to the org.
   */
  function Decide(t: Tables, userId: string, orgSlug: string, requireSuperuser: bool, f: Faults): (r: Outcome)
    ensures !r.verdict.hasPermission ==> r.verdict.orgId.None?
    ensures r.verdict.orgId.Some? ==>
      orgSlug in r.tables.orgs && r.tables.orgs[orgSlug] == r.verdict.orgId.value
    ensures orgSlug in t.orgs ==> r.tables.orgs == t.orgs
    ensures r.tables.orgs - {orgSlug} == t.orgs - {orgSlug}
    ensures orgSlug !in t.orgs && orgSlug in r.tables.orgs ==>
      f.orgInsert == InsertReturns(r.tables.orgs[orgSlug])
    ensures r.tables.profiles - {userId} == t.profiles - {userId}
    ensures userId in t.profiles ==> userId in r.tables.profiles
    ensures userId !in t.profiles && userId in r.tables.profiles ==>
      r.verdict.hasPermission && r.verdict.orgId.Some? &&
      r.tables.profiles[userId] == NewProfile(r.verdict.orgId.value)
    ensures userId in t.profiles ==>
      var (before, after) := (t.profiles[userId], r.tables.profiles[userId]);
      && after.isSuperuser == before.isSuperuser
      && after.isActivated == before.isActivated
      && (after.orgId == before.orgId || (Falsy(before.orgId) && after.orgId == r.verdict.orgId))
  {
    if f.clientFails || f.orgSelectFails then Outcome(DENIED, t)
    else if orgSlug !in t.orgs then
      match f.orgInsert
      case InsertRaises => Outcome(DENIED, t)
      case InsertNoRow => Outcome(DENIED, t)
      case InsertReturns(orgId) =>
        DecideForProfile(t.(orgs := t.orgs[orgSlug := orgId]), orgId, userId, requireSuperuser, f)
    else DecideForProfile(t, t.orgs[orgSlug], userId, requireSuperuser, f)
  }

  /**
   * The second half of the check, once the org id is known: it never writes `orgs`, writes no
   * profile but the user's, and answers either with no org or with this org.
   */
  function DecideForProfile(t: Tables, orgId: int, userId: string, requireSuperuser: bool, f: Faults): (r: Outcome)
    ensures r.tables.orgs == t.orgs
    ensures r.tables.profiles - {userId} == t.profiles - {userId}
    ensures r.verdict.orgId == None || r.verdict.orgId == Some(orgId)
    ensures r.verdict.hasPermission && !requireSuperuser ==> r.verdict.orgId == Some(orgId)
  {
    if f.profileSelectFails then Outcome(DENIED, t)
    else if userId !in t.profiles then
      if f.profileInsertFails then Outcome(DENIED, t)
      else Outcome(Verdict(true, Some(orgId)), t.(profiles := t.profiles[userId := NewProfile(orgId)]))
    else
      var profile := t.profiles[userId];
      if requireSuperuser then Outcome(Verdict(profile.isSuperuser, None), t)
      else if profile.isSuperuser then Outcome(Verdict(true, Some(orgId)), t)
      else if Falsy(profile.orgId) then
        var bound := t.(profiles := t.profiles[userId := profile.(orgId := Some(orgId))]);
        Outcome(Verdict(true, Some(orgId)), if f.profileUpdateFails then t else bound)
      else if profile.orgId == Some(orgId) then Outcome(Verdict(true, Some(orgId)), t)
      else Outcome(Verdict(true, Some(orgId)), t)
  }

  /** Neither the client nor the org select failed, and the org exists or its insert returned a row. */
  predicate OrgResolved(t: Tables, orgSlug: string, f: Faults) {
    !f.clientFails && !f.orgSelectFails && (orgSlug in t.orgs || f.orgInsert.InsertReturns?)
  }

  /** The org id the check works with once the org is resolved. */
  function ResolvedOrgId(t: Tables, orgSlug: string, f: Faults): int
    requires OrgResolved(t, orgSlug, f)
  {
    if orgSlug in t.orgs then t.orgs[orgSlug] else f.orgInsert.orgId
  }

  /** No database call fails (and an org insert, if one happens, returns a row). */
  predicate NoFaults(f: Faults) {
    !f.clientFails && !f.orgSelectFails && f.orgInsert.InsertReturns? &&
    !f.profileSelectFails && !f.profileInsertFails && !f.profileUpdateFails
  }

  /** Failing to get a client or to select the org leaves both tables as they were and denies. */
  lemma EarlyFailureDenies(t: Tables, userId: string, orgSlug: string, requireSuperuser: bool, f: Faults)
    requires f.clientFails || f.orgSelectFails
    ensures Decide(t, userId, orgSlug, requireSuperuser, f) == Outcome(DENIED, t)
  {
  }

  /**
   * A missing org is inserted. If the insert raises or returns no row the check denies and
   * changes nothing; otherwise the slug is bound to the returned id, whatever happens next.
   */
  lemma MissingOrgIsCreated(t: Tables, userId: string, orgSlug: string, requireSuperuser: bool, f: Faults)
    requires !f.clientFails && !f.orgSelectFails && orgSlug !in t.orgs
    ensures var r := Decide(t, userId, orgSlug, requireSuperuser, f);
      match f.orgInsert
      case InsertReturns(orgId) =>
        r.tables.orgs == t.orgs[orgSlug := orgId] &&
        (r.verdict.orgId.Some? ==> r.verdict.orgId.value == orgId)
      case _ => r == Outcome(DENIED, t)
  {
  }

  /** A failed profile select denies and leaves the profiles as they were. */
  lemma ProfileSelectFailureDenies(t: Tables, userId: string, orgSlug: string, requireSuperuser: bool, f: Faults)
    requires f.profileSelectFails
    ensures var r := Decide(t, userId, orgSlug, requireSuperuser, f);
      r.verdict == DENIED && r.tables.profiles == t.profiles
  {
  }

  /**
   * A user without a profile gets exactly one new profile, activated, not a superuser and
   * bound to the org, and is granted the org; if that insert fails the check denies and the
   * profiles are unchanged.
   */
  lemma NewProfileIsCreated(t: Tables, userId: string, orgSlug: string, requireSuperuser: bool, f: Faults)
    requires OrgResolved(t, orgSlug, f) && !f.profileSelectFails && userId !in t.profiles
    ensures var r := Decide(t, userId, orgSlug, requireSuperuser, f);
      var orgId := ResolvedOrgId(t, orgSlug, f);
      if f.profileInsertFails then r.verdict == DENIED && r.tables.profiles == t.profiles
      else r.verdict == Verdict(true, Some(orgId)) && r.tables.profiles == t.profiles[userId := NewProfile(orgId)]
  {
  }

  /** With `require_superuser`, an existing profile gets its superuser flag and no org, and nothing is written. */
  lemma RequireSuperuserReportsFlag(t: Tables, userId: string, orgSlug: string, f: Faults)
    requires OrgResolved(t, orgSlug, f) && !f.profileSelectFails && userId in t.profiles
    ensures var r := Decide(t, userId, orgSlug, true, f);
      r.verdict == Verdict(t.profiles[userId].isSuperuser, None) && r.tables.profiles == t.profiles
  {
  }

  /**
   * Without `require_superuser`, an existing profile is always granted the org: a superuser,
   * a profile without an org, a member of the org, and a member of another org alike.
   */
  lemma ExistingProfileIsGranted(t: Tables, userId: string, orgSlug: string, f: Faults)
    requires OrgResolved(t, orgSlug, f) && !f.profileSelectFails && userId in t.profiles
    ensures Decide(t, userId, orgSlug, false, f).verdict == Verdict(true, Some(ResolvedOrgId(t, orgSlug, f)))
  {
  }

  /**
   * Without `require_superuser`, a non-superuser profile with a falsy `org_id` is bound to the
   * org unless the update fails; every other existing profile (a superuser, or one bound to
   * this or another org) is left as it was.
   */
  lemma UnboundProfileIsAdopted(t: Tables, userId: string, orgSlug: string, f: Faults)
    requires OrgResolved(t, orgSlug, f) && !f.profileSelectFails && userId in t.profiles
    ensures var profile := t.profiles[userId];
      Decide(t, userId, orgSlug, false, f).tables.profiles ==
        if !profile.isSuperuser && Falsy(profile.orgId) && !f.profileUpdateFails
        then t.profiles[userId := profile.(orgId := Some(ResolvedOrgId(t, orgSlug, f)))]
        else t.profiles
  {
  }

  /**
   * Without `require_superuser`, a check in which no call fails is stable: repeating it gives
   * the same verdict and writes nothing more.
   */
  lemma RepeatedCheckIsStable(t: Tables, userId: string, orgSlug: string, f1: Faults, f2: Faults)
    requires NoFaults(f1) && NoFaults(f2)
    ensures var r1 := Decide(t, userId, orgSlug, false, f1);
      var r2 := Decide(r1.tables, userId, orgSlug, false, f2);
      r2.verdict == r1.verdict && r2.tables == r1.tables
  {
  }

  /**
   * A user with no profile is granted the org even under `require_superuser`, although the
   * profile created is not a superuser's; the same check repeated then denies.
   */
  lemma FreshProfileBypassesSuperuserRequirement(t: Tables, userId: string, orgSlug: string, f1: Faults, f2: Faults)
    requires OrgResolved(t, orgSlug, f1) && !f1.profileSelectFails && !f1.profileInsertFails
    requires userId !in t.profiles && NoFaults(f2)
    ensures var r1 := Decide(t, userId, orgSlug, true, f1);
      && r1.verdict.hasPermission
      && !r1.tables.profiles[userId].isSuperuser
      && Decide(r1.tables, userId, orgSlug, true, f2).verdict == DENIED
  {
  }

  /** The two tables, updated in place by the check. */
  class PermissionTables {
    var orgs: map<string, int>
    var profiles: map<string, Profile>

    constructor (orgs: map<string, int>, profiles: map<string, Profile>)
      ensures this.orgs == orgs && this.profiles == profiles
    {
      this.orgs := orgs;
      this.profiles := profiles;
    }

    function Snapshot(): Tables
      reads this
    {
      Tables(orgs, profiles)
    }

    /**
     * `check_user_permission`: the returned pair and the new tables are those `Decide` gives
     * for the tables before the call.
     */
    method CheckUserPermission(userId: string, orgSlug: string, requireSuperuser: bool, faults: Faults)
      returns (hasPermission: bool, orgId: Option<int>)
      modifies this
      ensures Outcome(Verdict(hasPermission, orgId), Snapshot())
        == Decide(old(Snapshot()), userId, orgSlug, requireSuperuser, faults)
    {
      if faults.clientFails {
        return false, None;
      }
      // The org select re-raises its error to the outer handler.
      if faults.orgSelectFails {
        return false, None;
      }
      var id: int;
      if orgSlug !in orgs {
        match faults.orgInsert
        case InsertRaises =>
          return false, None;
        case InsertNoRow =>
          return false, None;
        case InsertReturns(newId) =>
          orgs := orgs[orgSlug := newId];
          id := newId;
      } else {
        id := orgs[orgSlug];
      }
      // The profile select re-raises its error to the outer handler.
      if faults.profileSelectFails {
        return false, None;
      }
      if userId !in profiles {
        if faults.profileInsertFails {
          return false, None;
        }
        profiles := profiles[userId := NewProfile(id)];
        return true, Some(id);
      }
      var profile := profiles[userId];
      if requireSuperuser {
        return profile.isSuperuser, None;
      }
      if profile.isSuperuser {
        return true, Some(id);
      }
      if Falsy(profile.orgId) {
        // A failed update still grants permission.
        if !faults.profileUpdateFails {
          profiles := profiles[userId := profile.(orgId := Some(id))];
        }
        return true, Some(id);
      }
      if profile.orgId == Some(id) {
        return true, Some(id);
      }
      // A member of another org is still granted permission.
      return true, Some(id);
    }
  }
}
