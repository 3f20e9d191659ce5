/** Registrations as they interleave: counting the accounts, checking, creating the account and adding its membership
    are separate round trips, and a handler may stop after any of them. */
module RegistrationRaces {
  import opened Prelude
  import opened Text
  import opened Identifiers
  import opened Organizations
  import MembershipRuns

  type RequestId = nat

  /** A registration between two of its round trips; `first` when it counted no account. */
  datatype Request =
    | Counted(registration: Registration, first: bool)
    | Authorized(target: Membership, email: string, first: bool)
    | Checked(target: Membership, email: string, first: bool)
    | Created(id: ReviewerId, target: Membership, first: bool)

  /** Accounts with their emails in lower case, memberships, and for each organization whether it is active. */
  datatype State = State(
    accounts: map<ReviewerId, string>, members: map<ReviewerId, Membership>,
    organizations: map<OrganizationId, bool>, requests: map<RequestId, Request>)

  const INIT := State(map[], map[], map[], map[])

  datatype Action =
    | Count(t: RequestId, registration: Registration)
    | Authorize(t: RequestId)
    | Check(t: RequestId)
    | Create(t: RequestId, id: ReviewerId)
    | Grant(t: RequestId)
    | Stop(t: RequestId)
    | SetOrganization(organization: OrganizationId, active: bool)

  predicate Enabled(s: State, action: Action) {
    match action
    case Count(t, _) => t !in s.requests
    case Authorize(t) => t in s.requests && s.requests[t].Counted?
    case Check(t) => t in s.requests && s.requests[t].Authorized?
    case Create(t, id) => t in s.requests && s.requests[t].Checked? && id !in s.accounts
    case Grant(t) => t in s.requests && s.requests[t].Created?
    case Stop(t) => t in s.requests
    case SetOrganization(_, _) => true
  }

  /** What a registration asks for: the first account is a platform admin, whatever was sent. */
  function Target(r: Registration, first: bool): Option<Membership> {
    if first then Some(Membership(PlatformAdmin, None))
    else if r.role.Some? && WellShaped(Membership(r.role.value, r.organization)) then
      Some(Membership(r.role.value, r.organization))
    else None
  }

  function Granter(s: State, r: Registration): Option<Membership> {
    if r.granter.Some? && r.granter.value in s.members then Some(s.members[r.granter.value]) else None
  }

  predicate MayJoin(s: State, target: Membership) {
    target.organization.Some? ==>
      target.organization.value in s.organizations && s.organizations[target.organization.value]
  }

  predicate IsEmail(text: string) {
    |text| > 0 && '@' in text
  }

  predicate IsTaken(lower: string -> string, s: State, email: string) {
    exists id :: id in s.accounts && s.accounts[id] == lower(email)
  }

  function Forget(s: State, t: RequestId): State {
    s.(requests := s.requests - {t})
  }

  function AfterAuthorize(s: State, t: RequestId): State
    requires Enabled(s, Authorize(t))
  {
    var Counted(r, first) := s.requests[t];
    var target := Target(r, first);
    if target.Some? && MayGrant(Granter(s, r), if first then 0 else 1, target.value)
    then s.(requests := s.requests[t := Authorized(target.value, Trim(r.email), first)])
    else Forget(s, t)
  }

  function AfterCheck(s: State, t: RequestId): State
    requires Enabled(s, Check(t))
  {
    var Authorized(target, email, first) := s.requests[t];
    if MayJoin(s, target) && IsEmail(email) then s.(requests := s.requests[t := Checked(target, email, first)])
    else Forget(s, t)
  }

  function AfterCreate(lower: string -> string, s: State, t: RequestId, id: ReviewerId): State
    requires Enabled(s, Create(t, id))
  {
    var Checked(target, email, first) := s.requests[t];
    if IsTaken(lower, s, email) then Forget(s, t)
    else
      s.(accounts := s.accounts[id := lower(email)], requests := s.requests[t := Created(id, target, first)])
  }

  function Perform(lower: string -> string, s: State, action: Action): State
    requires Enabled(s, action)
  {
    match action
    case Count(t, r) => s.(requests := s.requests[t := Counted(r, |s.accounts| == 0)])
    case Authorize(t) => AfterAuthorize(s, t)
    case Check(t) => AfterCheck(s, t)
    case Create(t, id) => AfterCreate(lower, s, t, id)
    case Grant(t) => Forget(s, t).(members := s.members[s.requests[t].id := s.requests[t].target])
    case Stop(t) => Forget(s, t)
    case SetOrganization(organization, active) => s.(organizations := s.organizations[organization := active])
  }

  function Execute(lower: string -> string, start: State, actions: seq<Action>): Option<State> {
    if |actions| == 0 then Some(start)
    else
      match Execute(lower, start, actions[..|actions| - 1])
      case None => None
      case Some(s) =>
        var last := actions[|actions| - 1];
        if Enabled(s, last) then Some(Perform(lower, s, last)) else None
  }

  // ---- A registration that nobody disturbs ----

  function Emails(accounts: Accounts): set<string> {
    set id | id in accounts :: accounts[id]
  }

  /** The accounts as one step sees them. */
  function View(s: State): Deployment {
    Deployment(s.members, Emails(s.accounts), s.organizations)
  }

  /** The last three round trips of a registration in a row, as far as it gets. */
  function AfterClearance(lower: string -> string, s: State, t: RequestId, id: ReviewerId): State
    requires Enabled(s, Check(t)) && id !in s.accounts
  {
    var checked := AfterCheck(s, t);
    if t !in checked.requests then checked
    else
      var created := AfterCreate(lower, checked, t, id);
      if t !in created.requests then created else Perform(lower, created, Grant(t))
  }

  /** The round trips of one registration in a row, as far as it gets. */
  function Undisturbed(lower: string -> string, s: State, t: RequestId, r: Registration, id: ReviewerId): State
    requires t !in s.requests && id !in s.accounts
  {
    var authorized := AfterAuthorize(Perform(lower, s, Count(t, r)), t);
    if t !in authorized.requests then authorized else AfterClearance(lower, authorized, t, id)
  }

  lemma EmailAdded(accounts: Accounts, id: ReviewerId, email: string)
    requires id !in accounts
    ensures Emails(accounts[id := email]) == Emails(accounts) + {email}
  {
    var after := accounts[id := email];
    forall e | e in Emails(accounts) + {email} ensures e in Emails(after) {
      if e == email {
        assert after[id] == e;
      } else {
        var x :| x in accounts && accounts[x] == e;
        assert after[x] == e;
      }
    }
  }

  function With(s: State, t: RequestId, request: Request): State {
    s.(requests := s.requests[t := request])
  }

  lemma OneRequest(s: State, t: RequestId, request: Request, next: Request)
    requires t !in s.requests
    ensures t in With(s, t, request).requests && With(s, t, request).requests[t] == request
    ensures With(With(s, t, request), t, next) == With(s, t, next)
    ensures Forget(With(s, t, request), t) == s
  {
  }

  lemma GrantNow(lower: string -> string, s: State, t: RequestId, id: ReviewerId, target: Membership, first: bool)
    requires t !in s.requests
    ensures Perform(lower, With(s, t, Created(id, target, first)), Grant(t)) == s.(members := s.members[id := target])
  {
    OneRequest(s, t, Created(id, target, first), Created(id, target, first));
    hide AfterAuthorize, AfterCheck, AfterCreate;
  }

  lemma ClearedInARow(
    lower: string -> string, s: State, t: RequestId, target: Membership, email: string, first: bool, id: ReviewerId)
    requires t !in s.requests && id !in s.accounts
    ensures t in With(s, t, Authorized(target, email, first)).requests
    ensures With(s, t, Authorized(target, email, first)).requests[t].Authorized?
    ensures AfterClearance(lower, With(s, t, Authorized(target, email, first)), t, id) ==
            if MayJoin(s, target) && IsEmail(email) && lower(email) !in Emails(s.accounts)
            then s.(accounts := s.accounts[id := lower(email)], members := s.members[id := target])
            else s
  {
    hide IsEmail, Perform;
    var authorized, checked := Authorized(target, email, first), Checked(target, email, first);
    OneRequest(s, t, authorized, checked);
    OneRequest(s, t, checked, checked);
    var accounts := s.(accounts := s.accounts[id := lower(email)]);
    OneRequest(accounts, t, checked, Created(id, target, first));
    GrantNow(lower, accounts, t, id, target, first);
  }

  lemma SameAnswer(s: State, r: Registration)
    requires |s.accounts| == 0 <==> |s.members| == 0
    ensures var first, requested := |s.accounts| == 0, Requested(View(s), r);
            && (Target(r, first).Some? <==> requested.Success?)
            && (requested.Success? ==>
                  && Target(r, first) == Some(requested.value)
                  && (MayGrant(Granter(s, r), if first then 0 else 1, requested.value) <==>
                      MayGrant(GranterOf(View(s), r), |s.members|, requested.value)))
  {
  }

  lemma AuthorizedInARow(lower: string -> string, s: State, t: RequestId, r: Registration)
    requires t !in s.requests
    requires |s.accounts| == 0 <==> |s.members| == 0
    ensures var requested := Requested(View(s), r);
            AfterAuthorize(Perform(lower, s, Count(t, r)), t) ==
            if requested.Success? && MayGrant(GranterOf(View(s), r), |s.members|, requested.value)
            then With(s, t, Authorized(requested.value, Trim(r.email), |s.accounts| == 0))
            else s
  {
    hide Trim, Requested, GranterOf, MayGrant, Target, With;
    var first, requested := |s.accounts| == 0, Requested(View(s), r);
    SameAnswer(s, r);
    CountedFirst(lower, s, t, r);
    OneRequest(s, t, Counted(r, first), Counted(r, first));
    AuthorizedAs(With(s, t, Counted(r, first)), t, r, first);
    if requested.Success? {
      OneRequest(s, t, Counted(r, first), Authorized(requested.value, Trim(r.email), first));
    }
    SameGranter(s, t, r, Counted(r, first));
  }

  lemma CountedFirst(lower: string -> string, s: State, t: RequestId, r: Registration)
    requires t !in s.requests
    ensures Perform(lower, s, Count(t, r)) == With(s, t, Counted(r, |s.accounts| == 0))
  {
  }

  lemma SameGranter(s: State, t: RequestId, r: Registration, request: Request)
    ensures Granter(With(s, t, request), r) == Granter(s, r)
  {
  }

  lemma AuthorizedAs(s: State, t: RequestId, r: Registration, first: bool)
    requires t in s.requests && s.requests[t] == Counted(r, first)
    ensures AfterAuthorize(s, t) ==
            if Target(r, first).Some? && MayGrant(Granter(s, r), if first then 0 else 1, Target(r, first).value)
            then With(s, t, Authorized(Target(r, first).value, Trim(r.email), first))
            else Forget(s, t)
  {
    hide Trim, Target, Granter, MayGrant;
  }

  /** Undisturbed, and with no account left without its membership, the round trips do what the single step does. */
  lemma UndisturbedIsOneStep(lower: string -> string, s: State, t: RequestId, r: Registration, id: ReviewerId)
    requires t !in s.requests && id !in s.accounts
    requires |s.accounts| == 0 <==> |s.members| == 0
    ensures var after := Undisturbed(lower, s, t, r, id);
            && View(after) == MembershipRuns.AfterRegistration(View(s), r, id, lower)
            && after.requests == s.requests
  {
    hide Trim, AfterClearance, AfterAuthorize, MayGrant, Requested, GranterOf, Emails;
    AuthorizedInARow(lower, s, t, r);
    var requested := Requested(View(s), r);
    if requested.Success? {
      ClearedInARow(lower, s, t, requested.value, Trim(r.email), |s.accounts| == 0, id);
    }
    EmailAdded(s.accounts, id, lower(Trim(r.email)));
  }

  // ---- What every interleaving keeps ----

  type Accounts = map<ReviewerId, string>
  type Members = map<ReviewerId, Membership>
  type Requests = map<RequestId, Request>

  ghost predicate HasPlatformAdmin(members: Members) {
    exists id :: id in members && members[id].role == PlatformAdmin
  }

  /** A request's target is well shaped, and while nobody is a member only a first registration has one. */
  predicate RequestOk(accounts: Accounts, members: Members, request: Request) {
    !request.Counted? ==>
      && WellShaped(request.target)
      && (request.first ==> request.target.role == PlatformAdmin)
      && (|members| == 0 ==> request.first)
      && (request.Created? ==> request.id in accounts && request.id !in members)
  }

  ghost predicate MemberInv(accounts: Accounts, members: Members) {
    && (forall id :: id in members ==> id in accounts && WellShaped(members[id]))
    && (|members| > 0 ==> HasPlatformAdmin(members))
  }

  ghost predicate EmailsDiffer(accounts: Accounts) {
    forall a, b :: a in accounts && b in accounts && a != b ==> accounts[a] != accounts[b]
  }

  ghost predicate CreatedApart(requests: Requests) {
    forall t, u :: t in requests && u in requests && t != u && requests[t].Created? && requests[u].Created?
      ==> requests[t].id != requests[u].id
  }

  ghost predicate RequestInv(accounts: Accounts, members: Members, requests: Requests) {
    forall t :: t in requests ==> RequestOk(accounts, members, requests[t])
  }

  ghost predicate Inv(s: State) {
    && MemberInv(s.accounts, s.members)
    && EmailsDiffer(s.accounts)
    && CreatedApart(s.requests)
    && RequestInv(s.accounts, s.members, s.requests)
  }

  lemma GrantedMembers(accounts: Accounts, members: Members, id: ReviewerId, target: Membership, first: bool)
    requires MemberInv(accounts, members) && RequestOk(accounts, members, Created(id, target, first))
    ensures MemberInv(accounts, members[id := target]) && |members[id := target]| > 0
  {
    var after := members[id := target];
    if |members| == 0 {
      assert after[id].role == PlatformAdmin;
    } else {
      var admin :| admin in members && members[admin].role == PlatformAdmin;
      assert after[admin].role == PlatformAdmin;
    }
    assert id in after;
  }

  lemma GrantedRequests(accounts: Accounts, members: Members, requests: Requests, t: RequestId)
    requires RequestInv(accounts, members, requests) && CreatedApart(requests) && t in requests && requests[t].Created?
    ensures RequestInv(accounts, members[requests[t].id := requests[t].target], requests - {t})
  {
    hide WellShaped;
    var after := members[requests[t].id := requests[t].target];
    assert requests[t].id in after;
    forall u | u in requests && u != t ensures RequestOk(accounts, after, requests[u]) {
      assert RequestOk(accounts, members, requests[u]);
    }
  }

  lemma FewerRequests(accounts: Accounts, members: Members, requests: Requests, t: RequestId)
    requires RequestInv(accounts, members, requests) && CreatedApart(requests)
    ensures RequestInv(accounts, members, requests - {t}) && CreatedApart(requests - {t})
  {
    hide RequestOk;
  }

  lemma GrantKeeps(s: State, t: RequestId)
    requires Inv(s) && t in s.requests && s.requests[t].Created?
    ensures Inv(Forget(s, t).(members := s.members[s.requests[t].id := s.requests[t].target]))
  {
    hide EmailsDiffer, CreatedApart, RequestInv, MemberInv;
    HeldIsOk(s, t);
    GrantedMembers(s.accounts, s.members, s.requests[t].id, s.requests[t].target, s.requests[t].first);
    GrantedRequests(s.accounts, s.members, s.requests, t);
    FewerRequests(s.accounts, s.members, s.requests, t);
  }

  lemma AuthorizedIsOk(s: State, t: RequestId)
    requires MemberInv(s.accounts, s.members) && Enabled(s, Authorize(t))
    ensures AfterAuthorize(s, t) == Forget(s, t) || (
              exists request ::
                && RequestOk(s.accounts, s.members, request) && !request.Created?
                && AfterAuthorize(s, t) == s.(requests := s.requests[t := request]))
  {
    var Counted(r, first) := s.requests[t];
    if AfterAuthorize(s, t) != Forget(s, t) {
      var request := Authorized(Target(r, first).value, Trim(r.email), first);
      assert RequestOk(s.accounts, s.members, request);
    }
  }

  lemma ReplaceKeeps(s: State, t: RequestId, request: Request)
    requires Inv(s) && RequestOk(s.accounts, s.members, request) && !request.Created?
    ensures Inv(s.(requests := s.requests[t := request]))
  {
    hide MemberInv, EmailsDiffer, RequestOk;
  }

  lemma ForgetKeeps(s: State, t: RequestId)
    requires Inv(s)
    ensures Inv(Forget(s, t))
  {
    hide MemberInv, EmailsDiffer, RequestInv, CreatedApart;
    FewerRequests(s.accounts, s.members, s.requests, t);
  }

  lemma NewAccount(
    lower: string -> string, s: State, requests: Requests, t: RequestId, id: ReviewerId, target: Membership,
    email: string, first: bool)
    requires MemberInv(s.accounts, s.members) && EmailsDiffer(s.accounts) && CreatedApart(requests)
    requires RequestInv(s.accounts, s.members, requests)
    requires id !in s.accounts && !IsTaken(lower, s, email)
    requires RequestOk(s.accounts, s.members, Checked(target, email, first))
    ensures var accounts, after := s.accounts[id := lower(email)], requests[t := Created(id, target, first)];
            && MemberInv(accounts, s.members) && EmailsDiffer(accounts)
            && CreatedApart(after) && RequestInv(accounts, s.members, after)
  {
    hide WellShaped, HasPlatformAdmin;
    var accounts, after := s.accounts[id := lower(email)], requests[t := Created(id, target, first)];
    forall u | u in requests
      ensures RequestOk(accounts, s.members, requests[u])
      ensures requests[u].Created? ==> requests[u].id != id
    {
      assert RequestOk(s.accounts, s.members, requests[u]);
    }
  }

  lemma CreateKeeps(lower: string -> string, s: State, t: RequestId, id: ReviewerId)
    requires Inv(s) && Enabled(s, Create(t, id))
    ensures Inv(AfterCreate(lower, s, t, id))
  {
    hide MemberInv, EmailsDiffer, RequestInv, CreatedApart, IsTaken, RequestOk;
    ForgetKeeps(s, t);
    HeldIsOk(s, t);
    var Checked(target, email, first) := s.requests[t];
    if !IsTaken(lower, s, email) {
      NewAccount(lower, s, s.requests, t, id, target, email, first);
    }
  }

  lemma StepKeeps(lower: string -> string, s: State, action: Action)
    requires Inv(s) && Enabled(s, action)
    ensures Inv(Perform(lower, s, action))
  {
    hide MemberInv, EmailsDiffer, CreatedApart, RequestInv, Inv, AfterAuthorize, AfterCreate;
    match action {
      case Count(t, r) => ReplaceKeeps(s, t, Counted(r, |s.accounts| == 0));
      case Authorize(t) =>
        MembersAreOk(s);
        AuthorizedIsOk(s, t);
        ForgetKeeps(s, t);
        if AfterAuthorize(s, t) != Forget(s, t) {
          var request :| RequestOk(s.accounts, s.members, request) && !request.Created? &&
                         AfterAuthorize(s, t) == s.(requests := s.requests[t := request]);
          ReplaceKeeps(s, t, request);
        }
      case Check(t) =>
        ForgetKeeps(s, t);
        HeldIsOk(s, t);
        var Authorized(target, email, first) := s.requests[t];
        ReplaceKeeps(s, t, Checked(target, email, first));
      case Create(t, id) => CreateKeeps(lower, s, t, id);
      case Grant(t) => GrantKeeps(s, t);
      case Stop(t) => ForgetKeeps(s, t);
      case SetOrganization(organization, active) => OrganizationsDoNotMatter(s, organization, active);
    }
  }

  lemma MembersAreOk(s: State)
    requires Inv(s)
    ensures MemberInv(s.accounts, s.members)
  {
  }

  lemma HeldIsOk(s: State, t: RequestId)
    requires Inv(s) && t in s.requests
    ensures RequestOk(s.accounts, s.members, s.requests[t])
  {
  }

  lemma OrganizationsDoNotMatter(s: State, organization: OrganizationId, active: bool)
    requires Inv(s)
    ensures Inv(s.(organizations := s.organizations[organization := active]))
  {
  }

  /** However registrations interleave and wherever they stop: memberships are well shaped and belong to accounts, no
      two accounts share an email, and as soon as anyone is a member there is a platform admin. */
  lemma {:induction false} EveryInterleavingIsSound(lower: string -> string, actions: seq<Action>)
    requires Execute(lower, INIT, actions).Some?
    ensures Inv(Execute(lower, INIT, actions).value)
  {
    hide Inv, Enabled, Perform;
    if |actions| > 0 {
      EveryInterleavingIsSound(lower, actions[..|actions| - 1]);
      StepKeeps(lower, Execute(lower, INIT, actions[..|actions| - 1]).value, actions[|actions| - 1]);
    } else {
      NothingIsSound();
    }
  }

  lemma NothingIsSound()
    ensures Inv(INIT)
  {
  }

  // ---- Stretches without a platform admin ----

  ghost predicate HasOrgAdmin(s: State, organization: OrganizationId) {
    exists id :: id in s.members && s.members[id] == Membership(OrgAdmin, Some(organization))
  }

  ghost predicate IsPlain(start: State, target: Membership) {
    target.role == Member && target.organization.Some? && HasOrgAdmin(start, target.organization.value)
  }

  /** No request in flight is a first registration or was cleared for more than a plain membership. */
  ghost predicate NothingPending(start: State, s: State) {
    forall t :: t in s.requests ==>
      !s.requests[t].first && (!s.requests[t].Counted? ==> IsPlain(start, s.requests[t].target))
  }

  ghost predicate GrewByMembersOnly(start: State, s: State) {
    && (forall id :: id in start.members ==> id in s.members && s.members[id] == start.members[id])
    && (forall id :: id in s.members && id !in start.members ==> IsPlain(start, s.members[id]))
  }

  /** No registration of the run is cleared on a platform admin's authority. */
  ghost predicate NoAdminActs(lower: string -> string, start: State, actions: seq<Action>) {
    forall k :: 0 <= k < |actions| && actions[k].Authorize? ==>
      match Execute(lower, start, actions[..k])
      case None => true
      case Some(s) => !ByPlatformAdmin(s, actions[k].t)
  }

  predicate ByPlatformAdmin(s: State, t: RequestId) {
    && t in s.requests && s.requests[t].Counted?
    && var granter := Granter(s, s.requests[t].registration);
       granter.Some? && granter.value.role == PlatformAdmin
  }

  lemma ClearedIsPlain(start: State, s: State, t: RequestId)
    requires NothingPending(start, s) && GrewByMembersOnly(start, s) && Enabled(s, Authorize(t))
    requires !ByPlatformAdmin(s, t)
    ensures NothingPending(start, AfterAuthorize(s, t))
  {
    hide WellShaped;
    var r := s.requests[t].registration;
    var granter := Granter(s, r);
    if granter.Some? && granter.value.role == OrgAdmin && granter.value.organization.Some? {
      assert r.granter.value in start.members;
      assert HasOrgAdmin(start, granter.value.organization.value);
    }
  }

  lemma GrantGrows(start: State, s: State, t: RequestId)
    requires Inv(s) && NothingPending(start, s) && GrewByMembersOnly(start, s) && Enabled(s, Grant(t))
    ensures var after := Forget(s, t).(members := s.members[s.requests[t].id := s.requests[t].target]);
            NothingPending(start, after) && GrewByMembersOnly(start, after)
  {
    hide MemberInv, EmailsDiffer, CreatedApart, RequestInv, Inv, WellShaped, HasOrgAdmin;
    HeldIsOk(s, t);
  }

  lemma GrowthStep(lower: string -> string, start: State, s: State, action: Action)
    requires Inv(s) && |s.accounts| > 0 && NothingPending(start, s) && GrewByMembersOnly(start, s) && Enabled(s, action)
    requires action.Authorize? ==> !ByPlatformAdmin(s, action.t)
    ensures var after := Perform(lower, s, action);
            NothingPending(start, after) && GrewByMembersOnly(start, after)
  {
    hide Inv, IsTaken, HasOrgAdmin, MayJoin, IsEmail, ByPlatformAdmin;
    if action.Authorize? {
      ClearedIsPlain(start, s, action.t);
    } else if action.Grant? {
      GrantGrows(start, s, action.t);
    }
  }

  lemma AccountsStay(lower: string -> string, s: State, action: Action)
    requires |s.accounts| > 0 && Enabled(s, action)
    ensures |Perform(lower, s, action).accounts| > 0
  {
    hide IsTaken, MayJoin, IsEmail, Target, Granter;
    if action.Create? && AfterCreate(lower, s, action.t, action.id) != Forget(s, action.t) {
      assert action.id in AfterCreate(lower, s, action.t, action.id).accounts;
    }
  }

  /** However registrations interleave: from any point after the first account with nothing privileged in flight, a
      stretch in which no platform admin clears a registration adds only plain members, each to an organization that
      had an admin before the stretch. */
  lemma {:induction false} OrgAdminsOnlyAddMembers(lower: string -> string, start: State, actions: seq<Action>)
    requires Inv(start) && |start.accounts| > 0 && NothingPending(start, start)
    requires Execute(lower, start, actions).Some? && NoAdminActs(lower, start, actions)
    ensures var s := Execute(lower, start, actions).value;
            Inv(s) && |s.accounts| > 0 && NothingPending(start, s) && GrewByMembersOnly(start, s)
  {
    if |actions| > 0 {
      var front, last := actions[..|actions| - 1], actions[|actions| - 1];
      assert forall k :: 0 <= k < |front| ==> front[..k] == actions[..k] && front[k] == actions[k];
      assert NoAdminActs(lower, start, front);
      OrgAdminsOnlyAddMembers(lower, start, front);
      var s := Execute(lower, start, front).value;
      assert actions[..|front|] == front;
      assert last.Authorize? ==> !ByPlatformAdmin(s, last.t);
      hide NoAdminActs, Execute, Inv, Perform, Enabled, NothingPending, GrewByMembersOnly, ByPlatformAdmin;
      StepKeeps(lower, s, last);
      AccountsStay(lower, s, last);
      GrowthStep(lower, start, s, last);
    }
  }

  // ---- The first account ----

  /** A first registration that can still run to its end. */
  ghost predicate CanFinish(lower: string -> string, s: State, request: Request) {
    && request.first
    && match request
       case Counted(r, _) => IsEmail(Trim(r.email)) && !IsTaken(lower, s, Trim(r.email))
       case Authorized(_, email, _) => IsEmail(email) && !IsTaken(lower, s, email)
       case Checked(_, email, _) => !IsTaken(lower, s, email)
       case Created(_, _, _) => true
  }

  ghost predicate SomeoneCanFinish(lower: string -> string, s: State) {
    exists t :: t in s.requests && CanFinish(lower, s, s.requests[t])
  }

  /** There are accounts but no member, and no registration in flight can change that. */
  ghost predicate IsLockedOut(lower: string -> string, s: State) {
    |s.accounts| > 0 && |s.members| == 0 && !SomeoneCanFinish(lower, s)
  }

  lemma TakenStaysTaken(lower: string -> string, s: State, action: Action, email: string)
    requires Enabled(s, action) && IsTaken(lower, s, email)
    ensures IsTaken(lower, Perform(lower, s, action), email)
  {
    hide MayJoin, IsEmail, Target, Granter;
    var id :| id in s.accounts && s.accounts[id] == lower(email);
    assert id in Perform(lower, s, action).accounts && Perform(lower, s, action).accounts[id] == lower(email);
  }

  /** What a step makes of the requests when nobody is a member. */
  lemma FinishersWereFinishers(lower: string -> string, s: State, action: Action, u: RequestId)
    requires Inv(s) && Enabled(s, action) && |s.accounts| > 0 && |s.members| == 0 && !action.Grant?
    requires u in Perform(lower, s, action).requests
    requires CanFinish(lower, Perform(lower, s, action), Perform(lower, s, action).requests[u])
    ensures u in s.requests && CanFinish(lower, s, s.requests[u])
  {
    hide Inv, IsTaken, WellShaped;
    var after := Perform(lower, s, action);
    if u in s.requests {
      HeldIsOk(s, u);
      var request := s.requests[u];
      if request.Counted? && IsTaken(lower, s, Trim(request.registration.email)) {
        TakenStaysTaken(lower, s, action, Trim(request.registration.email));
      }
      if (request.Authorized? || request.Checked?) && IsTaken(lower, s, request.email) {
        TakenStaysTaken(lower, s, action, request.email);
      }
    }
  }

  lemma LockedOutStep(lower: string -> string, s: State, action: Action)
    requires Inv(s) && Enabled(s, action) && IsLockedOut(lower, s)
    ensures IsLockedOut(lower, Perform(lower, s, action))
  {
    hide Inv, CanFinish, IsTaken, Perform;
    AccountsStay(lower, s, action);
    if action.Grant? {
      HeldIsOk(s, action.t);
      CreatedFinishes(lower, s, action.t);
    } else {
      MembersStay(lower, s, action);
      forall u | u in Perform(lower, s, action).requests
        ensures !CanFinish(lower, Perform(lower, s, action), Perform(lower, s, action).requests[u])
      {
        if CanFinish(lower, Perform(lower, s, action), Perform(lower, s, action).requests[u]) {
          FinishersWereFinishers(lower, s, action, u);
        }
      }
    }
  }

  lemma CreatedFinishes(lower: string -> string, s: State, t: RequestId)
    requires t in s.requests && s.requests[t].Created? && s.requests[t].first
    ensures CanFinish(lower, s, s.requests[t])
  {
  }

  lemma MembersStay(lower: string -> string, s: State, action: Action)
    requires Enabled(s, action) && !action.Grant?
    ensures Perform(lower, s, action).members == s.members
  {
    hide MayJoin, IsEmail, Target, Granter, IsTaken;
  }

  lemma {:induction false} LockedOutForGood(lower: string -> string, start: State, more: seq<Action>)
    requires Inv(start) && IsLockedOut(lower, start) && Execute(lower, start, more).Some?
    ensures Inv(Execute(lower, start, more).value) && IsLockedOut(lower, Execute(lower, start, more).value)
  {
    hide Inv, IsLockedOut, Enabled, Perform;
    if |more| > 0 {
      var front := more[..|more| - 1];
      LockedOutForGood(lower, start, front);
      StepKeeps(lower, Execute(lower, start, front).value, more[|more| - 1]);
      LockedOutStep(lower, Execute(lower, start, front).value, more[|more| - 1]);
    }
  }

  lemma Then(lower: string -> string, start: State, actions: seq<Action>, action: Action)
    requires Execute(lower, start, actions).Some? && Enabled(Execute(lower, start, actions).value, action)
    ensures Execute(lower, start, actions + [action]) ==
            Some(Perform(lower, Execute(lower, start, actions).value, action))
  {
    hide Enabled, Perform;
    assert (actions + [action])[..|actions|] == actions;
  }

  /** How far a first registration is from its membership. */
  function StepsLeft(request: Request): nat {
    match request
    case Counted(_, _) => 4
    case Authorized(_, _, _) => 3
    case Checked(_, _, _) => 2
    case Created(_, _, _) => 1
  }

  lemma OneStepOn(lower: string -> string, s: State, t: RequestId, id: ReviewerId) returns (action: Action)
    requires Inv(s) && t in s.requests && CanFinish(lower, s, s.requests[t]) && id !in s.accounts
    ensures Enabled(s, action)
    ensures var after := Perform(lower, s, action);
            if s.requests[t].Created? then |after.members| > 0
            else
              && t in after.requests && CanFinish(lower, after, after.requests[t])
              && StepsLeft(after.requests[t]) == StepsLeft(s.requests[t]) - 1
              && (after.requests[t].Created? || id !in after.accounts)
  {
    hide Inv, IsTaken, WellShaped;
    HeldIsOk(s, t);
    match s.requests[t] {
      case Counted(r, _) =>
        action := Authorize(t);
        SameAccountsSameEmails(lower, s, Perform(lower, s, action), Trim(r.email));
      case Authorized(target, email, _) =>
        AdminsHaveNoOrganization(target);
        action := Check(t);
        SameAccountsSameEmails(lower, s, Perform(lower, s, action), email);
      case Checked(_, _, _) => action := Create(t, id);
      case Created(account, _, _) =>
        action := Grant(t);
        assert account in Perform(lower, s, action).members;
    }
  }

  lemma SameAccountsSameEmails(lower: string -> string, s: State, after: State, email: string)
    requires s.accounts == after.accounts
    ensures IsTaken(lower, s, email) <==> IsTaken(lower, after, email)
  {
  }

  lemma AdminsHaveNoOrganization(target: Membership)
    requires WellShaped(target) && target.role == PlatformAdmin
    ensures target.organization.None?
  {
  }

  lemma {:induction false} FinisherFinishes(
    lower: string -> string, start: State, actions: seq<Action>, t: RequestId, id: ReviewerId)
    returns (more: seq<Action>)
    requires Execute(lower, start, actions).Some? && Inv(Execute(lower, start, actions).value)
    requires var s := Execute(lower, start, actions).value;
             && t in s.requests && CanFinish(lower, s, s.requests[t])
             && (s.requests[t].Created? || id !in s.accounts)
    ensures Execute(lower, start, more).Some? && |Execute(lower, start, more).value.members| > 0
    decreases StepsLeft(Execute(lower, start, actions).value.requests[t])
  {
    hide Inv, CanFinish, Enabled, Perform, Execute;
    var s := Execute(lower, start, actions).value;
    var action;
    if s.requests[t].Created? {
      action := Grant(t);
      GrantingMakesMembers(lower, s, t);
    } else {
      action := OneStepOn(lower, s, t, id);
    }
    Then(lower, start, actions, action);
    more := actions + [action];
    if !s.requests[t].Created? {
      StepKeeps(lower, s, action);
      more := FinisherFinishes(lower, start, more, t, id);
    }
  }

  lemma GrantingMakesMembers(lower: string -> string, s: State, t: RequestId)
    requires t in s.requests && s.requests[t].Created?
    ensures Enabled(s, Grant(t)) && |Perform(lower, s, Grant(t)).members| > 0
  {
    assert s.requests[t].id in Perform(lower, s, Grant(t)).members;
  }

  ghost predicate GetsAnAdmin(lower: string -> string, s: State, more: seq<Action>) {
    Execute(lower, s, more).Some? && HasPlatformAdmin(Execute(lower, s, more).value.members)
  }

  /** Once there is an account, a deployment can still come to have a platform admin if and only if it has one, or some
      first registration in flight can still finish. */
  lemma AdminIsPossibleIff(lower: string -> string, actions: seq<Action>, id: ReviewerId)
    requires Execute(lower, INIT, actions).Some? && |Execute(lower, INIT, actions).value.accounts| > 0
    requires id !in Execute(lower, INIT, actions).value.accounts
    ensures var s := Execute(lower, INIT, actions).value;
            (exists more :: GetsAnAdmin(lower, s, more)) <==>
            HasPlatformAdmin(s.members) || SomeoneCanFinish(lower, s)
  {
    hide Inv, CanFinish, Enabled, Perform, HasPlatformAdmin;
    var s := Execute(lower, INIT, actions).value;
    EveryInterleavingIsSound(lower, actions);
    MembersMeanAdmin(s);
    assert Execute(lower, s, []) == Some(s);
    if HasPlatformAdmin(s.members) {
      assert GetsAnAdmin(lower, s, []);
    } else if t :| t in s.requests && CanFinish(lower, s, s.requests[t]) {
      var more := FinisherFinishes(lower, s, [], t, id);
      InvLasts(lower, s, more);
      MembersMeanAdmin(Execute(lower, s, more).value);
      assert GetsAnAdmin(lower, s, more);
    } else {
      forall more | GetsAnAdmin(lower, s, more) ensures false {
        LockedOutForGood(lower, s, more);
        MembersMeanAdmin(Execute(lower, s, more).value);
      }
    }
  }

  lemma MembersMeanAdmin(s: State)
    requires Inv(s)
    ensures |s.members| > 0 <==> HasPlatformAdmin(s.members)
  {
    if admin :| admin in s.members && s.members[admin].role == PlatformAdmin {
      assert |s.members| > 0;
    }
  }

  lemma {:induction false} InvLasts(lower: string -> string, start: State, more: seq<Action>)
    requires Inv(start) && Execute(lower, start, more).Some?
    ensures Inv(Execute(lower, start, more).value)
  {
    hide Inv, Enabled, Perform;
    if |more| > 0 {
      InvLasts(lower, start, more[..|more| - 1]);
      StepKeeps(lower, Execute(lower, start, more[..|more| - 1]).value, more[|more| - 1]);
    }
  }

  // ---- Two runs that a single atomic step would exclude ----

  /** A first registration has created its account and not yet added its membership. */
  ghost predicate OnlyCreated(s: State, t: RequestId, id: ReviewerId, email: string) {
    && s.accounts == map[id := email] && s.members == map[]
    && s.requests == map[t := Created(id, Membership(PlatformAdmin, None), true)]
  }

  lemma FirstAccount(lower: string -> string, r: Registration, id: ReviewerId) returns (run: seq<Action>)
    requires IsEmail(Trim(r.email))
    ensures Execute(lower, INIT, run).Some?
    ensures OnlyCreated(Execute(lower, INIT, run).value, 0, id, lower(Trim(r.email)))
  {
    hide Execute, Trim;
    assert Execute(lower, INIT, []) == Some(INIT) by {
      NoStepYet(lower);
    }
    run := [];
    Then(lower, INIT, run, Count(0, r));
    run := run + [Count(0, r)];
    Then(lower, INIT, run, Authorize(0));
    run := run + [Authorize(0)];
    Then(lower, INIT, run, Check(0));
    run := run + [Check(0)];
    Then(lower, INIT, run, Create(0, id));
    run := run + [Create(0, id)];
    var s := Execute(lower, INIT, run).value;
    assert s.requests == map[0 := Created(id, Membership(PlatformAdmin, None), true)];
  }

  lemma NoStepYet(lower: string -> string)
    ensures Execute(lower, INIT, []) == Some(INIT)
  {
  }

  /** The first registration stops between creating its account and adding its membership: the deployment has an
      account, and never a member. */
  lemma LockedOutRun(lower: string -> string, r: Registration, id: ReviewerId) returns (run: seq<Action>)
    requires IsEmail(Trim(r.email))
    ensures Execute(lower, INIT, run).Some? && IsLockedOut(lower, Execute(lower, INIT, run).value)
  {
    hide Execute, Trim, IsTaken;
    run := FirstAccount(lower, r, id);
    Then(lower, INIT, run, Stop(0));
    run := run + [Stop(0)];
    assert id in Execute(lower, INIT, run).value.accounts;
  }

  ghost predicate AreBothAdmins(s: State, one: ReviewerId, two: ReviewerId) {
    && one in s.members && s.members[one].role == PlatformAdmin
    && two in s.members && s.members[two].role == PlatformAdmin
  }

  ghost predicate BothCounted(s: State, r: Registration, q: Registration) {
    s == INIT.(requests := map[0 := Counted(r, true), 1 := Counted(q, true)])
  }

  lemma CountBoth(lower: string -> string, r: Registration, q: Registration) returns (run: seq<Action>)
    ensures Execute(lower, INIT, run).Some? && BothCounted(Execute(lower, INIT, run).value, r, q)
  {
    hide Execute;
    NoStepYet(lower);
    Then(lower, INIT, [], Count(0, r));
    Then(lower, INIT, [] + [Count(0, r)], Count(1, q));
    run := [] + [Count(0, r)] + [Count(1, q)];
  }

  /** A first registration that nobody disturbs runs to its end. */
  lemma Finish(lower: string -> string, run: seq<Action>, t: RequestId, r: Registration, id: ReviewerId)
    returns (longer: seq<Action>)
    requires Execute(lower, INIT, run).Some? && IsEmail(Trim(r.email))
    requires var s := Execute(lower, INIT, run).value;
             && t in s.requests && s.requests[t] == Counted(r, true)
             && id !in s.accounts && !IsTaken(lower, s, Trim(r.email))
    ensures var s := Execute(lower, INIT, run).value;
            Execute(lower, INIT, longer) == Some(s.(
              accounts := s.accounts[id := lower(Trim(r.email))],
              members := s.members[id := Membership(PlatformAdmin, None)],
              requests := s.requests - {t}))
  {
    hide Execute, Trim, IsTaken;
    longer := run;
    Then(lower, INIT, longer, Authorize(t));
    longer := longer + [Authorize(t)];
    SameAccountsSameEmails(lower, Execute(lower, INIT, run).value, Execute(lower, INIT, longer).value, Trim(r.email));
    Then(lower, INIT, longer, Check(t));
    longer := longer + [Check(t)];
    SameAccountsSameEmails(lower, Execute(lower, INIT, run).value, Execute(lower, INIT, longer).value, Trim(r.email));
    Then(lower, INIT, longer, Create(t, id));
    longer := longer + [Create(t, id)];
    Then(lower, INIT, longer, Grant(t));
    longer := longer + [Grant(t)];
    assert Execute(lower, INIT, longer).value.requests == Execute(lower, INIT, run).value.requests - {t};
  }

  /** Two first registrations that both count no account both make a platform admin. */
  lemma TwoAdminsRun(lower: string -> string, r: Registration, q: Registration, one: ReviewerId, two: ReviewerId)
    returns (run: seq<Action>)
    requires IsEmail(Trim(r.email)) && IsEmail(Trim(q.email)) && lower(Trim(r.email)) != lower(Trim(q.email))
    requires one != two
    ensures Execute(lower, INIT, run).Some? && AreBothAdmins(Execute(lower, INIT, run).value, one, two)
  {
    hide Execute, Trim, Perform, Enabled;
    run := CountBoth(lower, r, q);
    run := Finish(lower, run, 0, r, one);
    run := Finish(lower, run, 1, q, two);
  }
}
