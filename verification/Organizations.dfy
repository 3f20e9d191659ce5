/** Reviewer roles, and who may register whom. */
module Organizations {
  import opened Prelude
  import opened Text
  import opened Identifiers

  datatype Role = PlatformAdmin | OrgAdmin | Member

  datatype Membership = Membership(role: Role, organization: Option<OrganizationId>)

  /** A platform admin stands outside every organization; the others belong to one. */
  predicate WellShaped(m: Membership) {
    m.role.PlatformAdmin? <==> m.organization.None?
  }

  /** Whether the granter may register a reviewer with the given membership. */
  predicate MayGrant(granter: Option<Membership>, existingReviewers: nat, target: Membership) {
    if existingReviewers == 0 then true
    else
      match granter
      case Some(Membership(PlatformAdmin, _)) => true
      case Some(Membership(OrgAdmin, Some(own))) => target.role == Member && target.organization == Some(own)
      case _ => false
  }

  datatype Registration = Registration(
    granter: Option<ReviewerId>, email: string, role: Option<Role>, organization: Option<OrganizationId>)

  datatype RegistrationError =
    | MissingRole
    | InvalidMembershipShape
    | NotAuthorized
    | OrganizationNotFound
    | OrganizationInactive
    | InvalidEmail
    | EmailAlreadyRegistered

  /** Accounts by id, the emails taken in lower case, and for each organization whether it is active. */
  datatype Deployment = Deployment(
    members: map<ReviewerId, Membership>, emails: set<string>, organizations: map<OrganizationId, bool>)

  /** The first account is always a platform admin; later ones are what was asked for. */
  function Requested(d: Deployment, r: Registration): Result<Membership, RegistrationError> {
    if |d.members| == 0 then Success(Membership(PlatformAdmin, None))
    else if r.role.None? then Failure(MissingRole)
    else if !WellShaped(Membership(r.role.value, r.organization)) then Failure(InvalidMembershipShape)
    else Success(Membership(r.role.value, r.organization))
  }

  function GranterOf(d: Deployment, r: Registration): Option<Membership> {
    match r.granter
    case Some(id) => if id in d.members then Some(d.members[id]) else None
    case None => None
  }

  /** The membership a registration would create, or why it is refused. */
  function Granted(d: Deployment, r: Registration, lower: string -> string): Result<Membership, RegistrationError> {
    match Requested(d, r)
    case Failure(error) => Failure(error)
    case Success(target) =>
      if !MayGrant(GranterOf(d, r), |d.members|, target) then Failure(NotAuthorized)
      else if target.organization.Some? && target.organization.value !in d.organizations then
        Failure(OrganizationNotFound)
      else if target.organization.Some? && !d.organizations[target.organization.value] then
        Failure(OrganizationInactive)
      else if |Trim(r.email)| == 0 || '@' !in Trim(r.email) then Failure(InvalidEmail)
      else if lower(Trim(r.email)) in d.emails then Failure(EmailAlreadyRegistered)
      else Success(target)
  }

  // ---- What registration asks for ----

  /** The checks of a registration, in the order in which the first that fails is reported. */
  const CHECKS := [
    MissingRole, InvalidMembershipShape, NotAuthorized, OrganizationNotFound, OrganizationInactive, InvalidEmail,
    EmailAlreadyRegistered]

  /** The caller is a platform admin, or an organization's admin who adds a member to that organization. */
  ghost predicate IsStaffing(d: Deployment, r: Registration) {
    && r.granter.Some? && r.granter.value in d.members
    && var granter := d.members[r.granter.value];
       || granter.role == PlatformAdmin
       || (granter.role == OrgAdmin && r.role == Some(Member)
           && r.organization.Some? && r.organization == granter.organization)
  }

  /** What each check complains about. The first account is under no check but those of its email. */
  ghost predicate Objects(d: Deployment, r: Registration, lower: string -> string, check: RegistrationError) {
    match check
    case MissingRole => d.members != map[] && r.role.None?
    case InvalidMembershipShape =>
      d.members != map[] && r.role.Some? && (if r.organization.Some? then r.role.value == PlatformAdmin
                                             else r.role.value == OrgAdmin || r.role.value == Member)
    case NotAuthorized => d.members != map[] && !IsStaffing(d, r)
    case OrganizationNotFound =>
      d.members != map[] && r.organization.Some? && r.organization.value !in d.organizations
    case OrganizationInactive =>
      && d.members != map[] && r.organization.Some?
      && r.organization.value in d.organizations && !d.organizations[r.organization.value]
    case InvalidEmail => forall i :: 0 <= i < |r.email| ==> r.email[i] != '@'
    case EmailAlreadyRegistered => exists e :: e in d.emails && e == lower(Trim(r.email))
  }

  /** The first check that fails. */
  ghost predicate IsFirstObjection(
    d: Deployment, r: Registration, lower: string -> string, error: RegistrationError)
  {
    exists k ::
      && 0 <= k < |CHECKS| && CHECKS[k] == error && Objects(d, r, lower, CHECKS[k])
      && forall j :: 0 <= j < k ==> !Objects(d, r, lower, CHECKS[j])
  }

  ghost predicate NoObjection(d: Deployment, r: Registration, lower: string -> string) {
    forall check :: check in CHECKS ==> !Objects(d, r, lower, check)
  }

  /** Trimming removes no `@`. */
  lemma AtSignSurvives(email: string)
    ensures '@' in email <==> '@' in Trim(email)
  {
    var before := TrimStartSplits(email);
    var after := TrimEndSplits(TrimStart(email));
    assert email == before + Trim(email) + after;
    assert !IsWhitespace('@');
  }

  /** The membership asked for: of the first account a platform admin's, whatever was sent. */
  ghost predicate IsAskedFor(d: Deployment, r: Registration, m: Membership) {
    if d.members == map[] then m.role == PlatformAdmin && m.organization == None
    else r.role == Some(m.role) && m.organization == r.organization
  }

  /** A registration is granted if and only if no check objects, and then as asked for; otherwise the first check that
      objects is the answer. */
  lemma GrantedIff(d: Deployment, r: Registration, lower: string -> string)
    ensures match Granted(d, r, lower)
            case Success(m) => NoObjection(d, r, lower) && IsAskedFor(d, r, m)
            case Failure(error) => IsFirstObjection(d, r, lower, error)
  {
    AtSignSurvives(r.email);
    hide Trim;
    match Granted(d, r, lower) {
      case Success(_) =>
      case Failure(error) =>
        var k := match error
          case MissingRole => 0
          case InvalidMembershipShape => 1
          case NotAuthorized => 2
          case OrganizationNotFound => 3
          case OrganizationInactive => 4
          case InvalidEmail => 5
          case EmailAlreadyRegistered => 6;
        assert CHECKS[k] == error;
        assert Objects(d, r, lower, CHECKS[k]);
        assert forall j :: 0 <= j < k ==> !Objects(d, r, lower, CHECKS[j]);
    }
  }
}
