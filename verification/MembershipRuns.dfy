/** Runs of registrations: who can ever come to hold which role. */
module MembershipRuns {
  import opened Prelude
  import opened Text
  import opened Identifiers
  import opened Organizations

  /** The registration handler over one deployment. */
  class Registry {
    var members: map<ReviewerId, Membership>
    var emails: set<string>
    var organizations: map<OrganizationId, bool>

    ghost function View(): Deployment
      reads this
    {
      Deployment(members, emails, organizations)
    }

    constructor ()
      ensures View() == EMPTY
    {
      members, emails, organizations := map[], {}, map[];
    }

    method Register(r: Registration, newId: ReviewerId, lower: string -> string)
      returns (result: Result<Membership, RegistrationError>)
      modifies this
      ensures result == Granted(old(View()), r, lower)
      ensures View() == AfterRegistration(old(View()), r, newId, lower)
      ensures result.Failure? ==> View() == old(View()) && IsFirstObjection(old(View()), r, lower, result.error)
      ensures result.Success? ==>
                && NoObjection(old(View()), r, lower) && IsAskedFor(old(View()), r, result.value)
                && members == old(members)[newId := result.value]
                && emails == old(emails) + {lower(Trim(r.email))}
                && organizations == old(organizations)
    {
      hide IsFirstObjection, NoObjection, IsAskedFor, Trim;
      GrantedIff(View(), r, lower);
      var count := |members|;
      var role, organization := PlatformAdmin, None;
      if count != 0 {
        if r.role.None? {
          return Failure(MissingRole);
        }
        role, organization := r.role.value, r.organization;
        if !WellShaped(Membership(role, organization)) {
          return Failure(InvalidMembershipShape);
        }
      }
      var granter := None;
      if r.granter.Some? && r.granter.value in members {
        granter := Some(members[r.granter.value]);
      }
      if !MayGrant(granter, count, Membership(role, organization)) {
        return Failure(NotAuthorized);
      }
      if organization.Some? {
        if organization.value !in organizations {
          return Failure(OrganizationNotFound);
        }
        if !organizations[organization.value] {
          return Failure(OrganizationInactive);
        }
      }
      var email := Trim(r.email);
      if |email| == 0 || '@' !in email {
        return Failure(InvalidEmail);
      }
      if lower(email) in emails {
        return Failure(EmailAlreadyRegistered);
      }
      emails := emails + {lower(email)};
      members := members[newId := Membership(role, organization)];
      return Success(Membership(role, organization));
    }
  }

  const EMPTY := Deployment(map[], {}, map[])

  function AfterRegistration(d: Deployment, r: Registration, newId: ReviewerId, lower: string -> string): Deployment {
    match Granted(d, r, lower)
    case Failure(_) => d
    case Success(m) => d.(members := d.members[newId := m], emails := d.emails + {lower(Trim(r.email))})
  }

  /** A registration under a fresh account id, or an organization created, deactivated or reactivated. */
  datatype Step =
    | Register(registration: Registration, newId: ReviewerId)
    | SetOrganization(organization: OrganizationId, active: bool)

  predicate Possible(d: Deployment, step: Step) {
    step.Register? ==> step.newId !in d.members
  }

  function After(lower: string -> string, d: Deployment, step: Step): Deployment {
    match step
    case Register(r, newId) => AfterRegistration(d, r, newId, lower)
    case SetOrganization(organization, active) => d.(organizations := d.organizations[organization := active])
  }

  function Run(lower: string -> string, start: Deployment, steps: seq<Step>): Option<Deployment> {
    if |steps| == 0 then Some(start)
    else
      match Run(lower, start, steps[..|steps| - 1])
      case None => None
      case Some(d) =>
        var last := steps[|steps| - 1];
        if Possible(d, last) then Some(After(lower, d, last)) else None
  }

  ghost predicate HasPlatformAdmin(d: Deployment) {
    exists id :: id in d.members && d.members[id].role == PlatformAdmin
  }

  ghost predicate Sound(d: Deployment) {
    && (forall id :: id in d.members ==> WellShaped(d.members[id]))
    && (|d.members| > 0 ==> HasPlatformAdmin(d))
  }

  /** In every run from an empty deployment memberships are well shaped, and from the first account on
      there is a platform admin. */
  lemma {:induction false} EveryRunIsSound(lower: string -> string, steps: seq<Step>)
    requires Run(lower, EMPTY, steps).Some?
    ensures Sound(Run(lower, EMPTY, steps).value)
  {
    if |steps| > 0 {
      EveryRunIsSound(lower, steps[..|steps| - 1]);
      StepKeepsSound(lower, Run(lower, EMPTY, steps[..|steps| - 1]).value, steps[|steps| - 1]);
    }
  }

  lemma StepKeepsSound(lower: string -> string, d: Deployment, step: Step)
    requires Sound(d) && Possible(d, step)
    ensures Sound(After(lower, d, step))
  {
    var after := After(lower, d, step);
    if step.Register? && Granted(d, step.registration, lower).Success? {
      if |d.members| == 0 {
        assert after.members[step.newId].role == PlatformAdmin;
      } else {
        var admin :| admin in d.members && d.members[admin].role == PlatformAdmin;
        assert after.members[admin].role == PlatformAdmin;
      }
    } else if |after.members| > 0 {
      var admin :| admin in d.members && d.members[admin].role == PlatformAdmin;
      assert after.members[admin].role == PlatformAdmin;
    }
  }

  /** No registration of the run is made by a platform admin. */
  ghost predicate NoAdminActs(lower: string -> string, start: Deployment, steps: seq<Step>) {
    forall k :: 0 <= k < |steps| && steps[k].Register? ==>
      match Run(lower, start, steps[..k])
      case None => true
      case Some(d) => var granter := GranterOf(d, steps[k].registration);
                      granter.None? || granter.value.role != PlatformAdmin
  }

  ghost predicate HasOrgAdmin(d: Deployment, organization: OrganizationId) {
    exists id :: id in d.members && d.members[id] == Membership(OrgAdmin, Some(organization))
  }

  /** What a deployment can have gained without a platform admin acting. */
  ghost predicate GrewByMembersOnly(start: Deployment, d: Deployment) {
    && (forall id :: id in start.members ==> id in d.members && d.members[id] == start.members[id])
    && (forall id :: id in d.members && id !in start.members ==>
          && d.members[id].role == Member
          && d.members[id].organization.Some?
          && HasOrgAdmin(start, d.members[id].organization.value))
  }

  /** Once a deployment has an account, any stretch of steps in which no platform admin acts adds only plain
      members, each to an organization that had an admin before the stretch began. */
  lemma {:induction false} OrgAdminsOnlyAddMembers(lower: string -> string, start: Deployment, steps: seq<Step>)
    requires |start.members| > 0 && Run(lower, start, steps).Some? && NoAdminActs(lower, start, steps)
    ensures GrewByMembersOnly(start, Run(lower, start, steps).value)
  {
    if |steps| > 0 {
      var front, last := steps[..|steps| - 1], steps[|steps| - 1];
      assert forall k :: 0 <= k < |front| ==> front[..k] == steps[..k] && front[k] == steps[k];
      assert NoAdminActs(lower, start, front);
      OrgAdminsOnlyAddMembers(lower, start, front);
      var d := Run(lower, start, front).value;
      assert steps[..|front|] == front;
      hide NoAdminActs, Run;
      GrowthStep(lower, start, d, last);
    }
  }

  lemma GrowthStep(lower: string -> string, start: Deployment, d: Deployment, step: Step)
    requires |start.members| > 0 && GrewByMembersOnly(start, d) && Possible(d, step)
    requires step.Register? ==>
               var granter := GranterOf(d, step.registration);
               granter.None? || granter.value.role != PlatformAdmin
    ensures GrewByMembersOnly(start, After(lower, d, step))
  {
    if step.Register? && Granted(d, step.registration, lower).Success? {
      assert exists id :: id in start.members && id in d.members;
      var granter := step.registration.granter.value;
      var organization := d.members[granter].organization.value;
      assert d.members[granter] == Membership(OrgAdmin, Some(organization));
      assert granter in start.members;
      assert HasOrgAdmin(start, organization);
    }
  }
}
