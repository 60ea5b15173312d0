/**
 Who may do what in an organization, and what comes of it: each service call by the memberships and invitations
 that allow it, and not by the order of its checks.
 */
module TenantRules {
  import opened Prelude
  import opened Tenants

  ghost predicate Has(s: State, org: OrgId, user: UserId, role: Role) {
    Membership(org, user, role) in s.members
  }

  ghost predicate IsMember(s: State, org: OrgId, user: UserId) {
    Has(s, org, user, Owner) || Has(s, org, user, Admin) || Has(s, org, user, Member)
  }

  ghost predicate Manages(s: State, org: OrgId, user: UserId) {
    Has(s, org, user, Owner) || Has(s, org, user, Admin)
  }

  ghost predicate AnotherOwner(s: State, org: OrgId, user: UserId) {
    exists other :: other != user && Has(s, org, other, Owner)
  }

  lemma MemberHas(s: State, m: Membership)
    requires m in s.members
    ensures IsMember(s, m.org, m.user)
  {
    match m.role
    case Owner => assert m == Membership(m.org, m.user, Owner);
    case Admin => assert m == Membership(m.org, m.user, Admin);
    case Member => assert m == Membership(m.org, m.user, Member);
  }

  lemma FindHas(s: State, org: OrgId, user: UserId)
    requires Unique(s.members)
    ensures var f := Find(s.members, org, user);
            && (f.Some? <==> IsMember(s, org, user))
            && (f.Some? ==> forall role :: Has(s, org, user, role) <==> role == s.members[f.value].role)
  {
    var f := Find(s.members, org, user);
    if f.Some? {
      var m := s.members[f.value];
      MemberHas(s, m);
      forall role | Has(s, org, user, role) ensures role == m.role {
        var i :| 0 <= i < |s.members| && s.members[i] == Membership(org, user, role);
      }
    }
  }

  lemma OtherOwnerHas(s: State, org: OrgId, user: UserId)
    ensures OtherOwner(s.members, org, user) <==> AnotherOwner(s, org, user)
  {
    if OtherOwner(s.members, org, user) {
      var i :| 0 <= i < |s.members| && s.members[i].org == org && s.members[i].role.Owner? && s.members[i].user != user;
      assert s.members[i] == Membership(org, s.members[i].user, Owner);
      assert Has(s, org, s.members[i].user, Owner);
    }
  }

  /** A refused call changes nothing. */
  lemma RefusedChangesNothing(s: State, op: Op)
    requires !Next(s, op).result.Done?
    ensures Next(s, op).state == s
  {
  }

  // Roles.

  /** Admins and owners change roles; whatever takes the owner's role or gives it needs an owner; and somebody else
      must own the organization before an owner is demoted. */
  ghost predicate MayChangeRole(s: State, actor: UserId, org: OrgId, target: UserId, role: Role) {
    && Manages(s, org, actor) && IsMember(s, org, target)
    && (role == Owner || Has(s, org, target, Owner) ==> Has(s, org, actor, Owner))
    && (role != Owner && Has(s, org, target, Owner) ==> AnotherOwner(s, org, target))
  }

  lemma ChangeRoleIff(s: State, actor: UserId, org: OrgId, target: UserId, role: Role)
    requires Unique(s.members)
    ensures Next(s, UpdateMemberRole(actor, org, target, role)).result.Done? <==> MayChangeRole(s, actor, org, target, role)
  {
    FindHas(s, org, actor);
    FindHas(s, org, target);
    OtherOwnerHas(s, org, target);
  }

  /** Then the target has that role, and everybody else the role they had. */
  lemma ChangeRoleDoes(s: State, actor: UserId, org: OrgId, target: UserId, role: Role, o: OrgId, u: UserId, r: Role)
    requires Unique(s.members) && Next(s, UpdateMemberRole(actor, org, target, role)).result.Done?
    ensures var v := Next(s, UpdateMemberRole(actor, org, target, role)).state;
            && (Has(v, o, u, r) <==> if o == org && u == target then r == role else Has(s, o, u, r))
            && v.invitations == s.invitations && v.orgs == s.orgs
  {
    var t := Find(s.members, org, target).value;
    var m := Membership(org, target, role);
    UpdateIndex(s.members, t, m);
    FindHas(s, org, target);
    assert s.members[t] == Membership(org, target, s.members[t].role);
    UniqueUpdate(s.members, t, role);
    FindHas(Next(s, UpdateMemberRole(actor, org, target, role)).state, org, target);
  }

  /** Anybody may leave; an admin removes members, an owner admins and members; the last owner stays. */
  ghost predicate MayRemove(s: State, actor: UserId, org: OrgId, target: UserId) {
    && IsMember(s, org, actor) && IsMember(s, org, target)
    && (actor == target || (Has(s, org, actor, Owner) && !Has(s, org, target, Owner)) ||
        (Has(s, org, actor, Admin) && Has(s, org, target, Member)))
    && (Has(s, org, target, Owner) ==> AnotherOwner(s, org, target))
  }

  lemma RemoveIff(s: State, actor: UserId, org: OrgId, target: UserId)
    requires Unique(s.members)
    ensures Next(s, RemoveMember(actor, org, target)).result.Done? <==> MayRemove(s, actor, org, target)
  {
    FindHas(s, org, actor);
    FindHas(s, org, target);
    OtherOwnerHas(s, org, target);
  }

  /** Then the target has no role, and everybody else the role they had. */
  lemma RemoveDoes(s: State, actor: UserId, org: OrgId, target: UserId, o: OrgId, u: UserId, r: Role)
    requires Unique(s.members) && Next(s, RemoveMember(actor, org, target)).result.Done?
    ensures var v := Next(s, RemoveMember(actor, org, target)).state;
            && (Has(v, o, u, r) <==> !(o == org && u == target) && Has(s, o, u, r))
            && v.invitations == s.invitations && v.orgs == s.orgs
  {
    var t := Find(s.members, org, target).value;
    RemoveIndex(s.members, t);
    FindHas(s, org, target);
    if Has(Next(s, RemoveMember(actor, org, target)).state, org, target, r) {
      GoneAfterRemove(s.members, t, Membership(org, target, r));
    }
  }

  lemma GoneAfterRemove(ms: seq<Membership>, t: nat, m: Membership)
    requires Unique(ms) && t < |ms| && m.org == ms[t].org && m.user == ms[t].user
    ensures m !in Remove(ms, t)
  {
    forall i | 0 <= i < |Remove(ms, t)| ensures Remove(ms, t)[i] != m {
      RemoveIndex(ms, t);
      var at := if i < t then i else i + 1;
      assert ms[at] == Remove(ms, t)[i] && at != t;
    }
  }

  // Organizations.

  /** Whoever founds an organization owns it; nothing else changes. */
  lemma FoundingDoes(s: State, user: UserId, newOrg: OrgId, o: OrgId, u: UserId, r: Role)
    requires newOrg !in s.orgs
    ensures var v := Next(s, CreateOrganization(user, newOrg)).state;
            && Next(s, CreateOrganization(user, newOrg)).result.Done?
            && (Has(v, o, u, r) <==> Has(s, o, u, r) || (o == newOrg && u == user && r == Owner))
            && v.orgs == s.orgs + {newOrg} && v.invitations == s.invitations
  {
  }

  /** The first listing founds the personal organization; a later one changes nothing. */
  lemma ListingDoes(s: State, user: UserId, newOrg: OrgId)
    ensures var out := Next(s, ListOrganizations(user, newOrg));
            if (exists o :: IsMember(s, o, user)) then out == Outcome(s, Done)
            else out == Next(s, CreateOrganization(user, newOrg))
  {
    if i: nat :| i < |s.members| && s.members[i].user == user {
      MemberHas(s, s.members[i]);
    }
  }

  // Invitations.

  ghost predicate Pending(inv: Invitation) {
    inv.acceptedAt.None? && inv.revokedAt.None?
  }

  /** Admins and owners invite, as admin or member, an email that no member has. */
  ghost predicate MayInvite(s: State, actor: UserId, org: OrgId, email: string, role: Role, emails: map<UserId, string>) {
    && Manages(s, org, actor) && role != Owner
    && forall u :: u in emails && emails[u] == email ==> !IsMember(s, org, u)
  }

  lemma EmailOfMember(s: State, org: OrgId, email: string, emails: map<UserId, string>)
    ensures MemberWithEmail(s.members, org, email, emails) <==>
            exists u :: u in emails && emails[u] == email && IsMember(s, org, u)
  {
    if MemberWithEmail(s.members, org, email, emails) {
      var i :|
        0 <= i < |s.members| && s.members[i].org == org && s.members[i].user in emails && emails[s.members[i].user] == email;
      MemberHas(s, s.members[i]);
    }
    if u :| u in emails && emails[u] == email && IsMember(s, org, u) {
      var m :| m in s.members && m.org == org && m.user == u;
      var i :| 0 <= i < |s.members| && s.members[i] == m;
    }
  }

  /** A new invitation is made exactly if that holds and the token is new: for that organization, email and role, and
      pending. */
  lemma InviteIff(s: State, actor: UserId, org: OrgId, email: string, role: Role, token: string, expiresAt: int,
                  emails: map<UserId, string>)
    requires Unique(s.members)
    ensures var out := Next(s, CreateInvitation(actor, org, email, role, token, expiresAt, emails));
            && (out.result.Done? <==>
                  MayInvite(s, actor, org, email, role, emails) &&
                  forall i :: 0 <= i < |s.invitations| ==> s.invitations[i].token != token)
            && (out.result.Done? ==>
                  out.state == s.(invitations := s.invitations + [Invitation(org, email, role, token, expiresAt, None, None)]))
  {
    FindHas(s, org, actor);
    EmailOfMember(s, org, email, emails);
  }

  /** Admins and owners revoke their organization's pending invitations. */
  lemma RevokeIff(s: State, actor: UserId, org: OrgId, id: nat, now: int)
    requires Unique(s.members)
    ensures var out := Next(s, RevokeInvitation(actor, org, id, now));
            && (out.result.Done? <==>
                  Manages(s, org, actor) && id < |s.invitations| && s.invitations[id].org == org && Pending(s.invitations[id]))
            && (out.result.Done? ==>
                  out.state == s.(invitations := s.invitations[id := s.invitations[id].(revokedAt := Some(now))]))
  {
    FindHas(s, org, actor);
  }

  ghost predicate Valid(inv: Invitation, token: string, now: int) {
    inv.token == token && Pending(inv) && now <= inv.expiresAt
  }

  /** The invitation can be accepted by this user. */
  ghost predicate OpenTo(s: State, inv: Invitation, user: UserId, claimed: Option<string>, token: string, now: int) {
    && Valid(inv, token, now)
    && claimed == Some(inv.email) && inv.email != ""
    && !IsMember(s, inv.org, user)
  }

  /** An invitation is accepted exactly if one with that token is pending, has not expired, was sent to the user's
      email, and the user is not a member yet. The user then gets exactly its role in exactly its organization. */
  lemma AcceptIff(s: State, user: UserId, claimed: Option<string>, token: string, now: int)
    requires Unique(s.members) && Lifecycle(s)
    ensures var out := Next(s, AcceptInvitation(user, claimed, token, now));
            && (out.result.Done? <==>
                  exists i :: 0 <= i < |s.invitations| && OpenTo(s, s.invitations[i], user, claimed, token, now))
            && (forall i :: 0 <= i < |s.invitations| && OpenTo(s, s.invitations[i], user, claimed, token, now) ==>
                  var inv := s.invitations[i];
                  out.state == s.(invitations := s.invitations[i := inv.(acceptedAt := Some(now))],
                                  members := s.members + [Membership(inv.org, user, inv.role)]))
  {
    var f := FindToken(s.invitations, token);
    if f.Some? {
      FindHas(s, s.invitations[f.value].org, user);
    }
    forall i | 0 <= i < |s.invitations| && OpenTo(s, s.invitations[i], user, claimed, token, now) ensures f == Some(i) {
      assert f.Some? && s.invitations[f.value].token == s.invitations[i].token;
    }
  }

  // Refusals.

  /** To somebody who is not a member, an organization looks as if it did not exist. */
  lemma OutsidersFindNothing(s: State, actor: UserId, org: OrgId, op: Op)
    requires Unique(s.members) && !IsMember(s, org, actor)
    requires op.UpdateMemberRole? || op.RemoveMember? || op.CreateInvitation? || op.RevokeInvitation?
    requires op.actor == actor && op.org == org
    ensures Next(s, op) == Outcome(s, NotFound)
  {
    FindHas(s, org, actor);
  }

  /** Plain members manage nothing, and remove nobody but themselves. */
  lemma MembersManageNothing(s: State, actor: UserId, org: OrgId, op: Op)
    requires Unique(s.members) && Has(s, org, actor, Member)
    requires op.UpdateMemberRole? || op.CreateInvitation? || op.RevokeInvitation?
    requires op.actor == actor && op.org == org
    ensures Next(s, op) == Outcome(s, Forbidden)
  {
    FindHas(s, org, actor);
  }

  /** The last owner can neither leave nor step down. */
  lemma LastOwnerStays(s: State, org: OrgId, user: UserId, role: Role)
    requires Unique(s.members) && Has(s, org, user, Owner) && !AnotherOwner(s, org, user) && role != Owner
    ensures Next(s, RemoveMember(user, org, user)) == Outcome(s, Conflict)
    ensures Next(s, UpdateMemberRole(user, org, user, role)) == Outcome(s, Conflict)
  {
    FindHas(s, org, user);
    OtherOwnerHas(s, org, user);
  }

  /** What somebody who manages the organization is told: of people and invitations that it does not have, that they
      are not found; of roles beyond the own, that this is forbidden; and what the state excludes is a conflict. */
  lemma ManagersAreTold(s: State, actor: UserId, org: OrgId, target: UserId, role: Role, id: nat, now: int)
    requires Unique(s.members) && Manages(s, org, actor)
    ensures var r := Next(s, UpdateMemberRole(actor, org, target, role)).result;
            var owning := role == Owner || Has(s, org, target, Owner);
            && (r == NotFound <==> !IsMember(s, org, target))
            && (r == Forbidden <==> IsMember(s, org, target) && owning && !Has(s, org, actor, Owner))
            && (r == Conflict <==>
                  Has(s, org, actor, Owner) && role != Owner && Has(s, org, target, Owner) && !AnotherOwner(s, org, target))
    ensures var r := Next(s, RevokeInvitation(actor, org, id, now)).result;
            r == Done || r == NotFound
  {
    FindHas(s, org, actor);
    FindHas(s, org, target);
    OtherOwnerHas(s, org, target);
  }

  lemma RemoversAreTold(s: State, actor: UserId, org: OrgId, target: UserId)
    requires Unique(s.members) && IsMember(s, org, actor)
    ensures var r := Next(s, RemoveMember(actor, org, target)).result;
            var below := (Has(s, org, actor, Owner) && !Has(s, org, target, Owner)) ||
                         (Has(s, org, actor, Admin) && Has(s, org, target, Member));
            && (r == NotFound <==> !IsMember(s, org, target))
            && (r == Forbidden <==> IsMember(s, org, target) && actor != target && !below)
            && (r == Conflict <==> actor == target && Has(s, org, target, Owner) && !AnotherOwner(s, org, target))
  {
    FindHas(s, org, actor);
    FindHas(s, org, target);
    OtherOwnerHas(s, org, target);
  }

  lemma InvitersAreTold(s: State, actor: UserId, org: OrgId, email: string, role: Role, token: string, expiresAt: int,
                        emails: map<UserId, string>)
    requires Unique(s.members) && Manages(s, org, actor)
    ensures var r := Next(s, CreateInvitation(actor, org, email, role, token, expiresAt, emails)).result;
            && (r == BadRequest <==> role == Owner) && (r == Done || r == BadRequest || r == Conflict)
  {
    FindHas(s, org, actor);
  }

  /** Whoever holds a token that is unknown, settled or expired is told that the request is bad; of a good one, that
      it is for somebody else, or that the user is a member already. */
  lemma InviteesAreTold(s: State, user: UserId, claimed: Option<string>, token: string, now: int, i: nat)
    requires Lifecycle(s) && Unique(s.members)
    ensures var r := Next(s, AcceptInvitation(user, claimed, token, now)).result;
            && (r == BadRequest <==> forall j :: 0 <= j < |s.invitations| ==> !Valid(s.invitations[j], token, now))
            && (i < |s.invitations| && Valid(s.invitations[i], token, now) ==>
                  var inv := s.invitations[i];
                  var sentTo := claimed == Some(inv.email) && inv.email != "";
                  && (r == Forbidden <==> !sentTo) && (r == Conflict <==> sentTo && IsMember(s, inv.org, user)))
  {
    var f := FindToken(s.invitations, token);
    if f.Some? {
      FindHas(s, s.invitations[f.value].org, user);
    }
    forall j | 0 <= j < |s.invitations| && Valid(s.invitations[j], token, now) ensures f == Some(j) {
      assert f.Some? && s.invitations[f.value].token == s.invitations[j].token;
    }
  }

  // Over all runs.

  ghost function Rank(s: State, org: OrgId, user: UserId): int {
    if Has(s, org, user, Owner) then 2 else if Has(s, org, user, Admin) then 1 else if Has(s, org, user, Member) then 0 else -1
  }

  /** The reasons for which a user's rank in an organization may rise. */
  ghost predicate Raises(s: State, op: Op, org: OrgId, user: UserId, rank: int) {
    match op
    case ListOrganizations(u, newOrg) => u == user && newOrg == org && org !in s.orgs
    case CreateOrganization(u, newOrg) => u == user && newOrg == org && org !in s.orgs
    case UpdateMemberRole(actor, o, target, role) =>
      && o == org && target == user && Manages(s, org, actor) && (rank == 2 ==> Has(s, org, actor, Owner))
    case AcceptInvitation(u, claimed, token, now) =>
      && u == user
      && exists i :: 0 <= i < |s.invitations| && OpenTo(s, s.invitations[i], user, claimed, token, now) &&
           s.invitations[i].org == org && s.invitations[i].role.Rank() == rank
    case _ => false
  }

  /** In every reachable state: a rank rises only for the founder of a new organization, by an admin or owner (to the
      owner's, by an owner), or by accepting an invitation for exactly that rank; and it falls only by the user's own
      act or that of somebody who manages the organization. */
  lemma RanksChange(ops: seq<Op>, op: Op, org: OrgId, user: UserId)
    ensures var s := Run(EMPTY, ops);
            var before, after := Rank(s, org, user), Rank(Next(s, op).state, org, user);
            && (after > before ==> Raises(s, op, org, user, after))
            && (after < before ==>
                  && (op.UpdateMemberRole? || op.RemoveMember?) && op.org == org && op.target == user
                  && (op.actor == user || Manages(s, org, op.actor)))
  {
    OwnershipOverRuns(ops);
    LifecycleRun(ops);
    RankStep(Run(EMPTY, ops), op, org, user);
  }

  lemma RankStep(s: State, op: Op, org: OrgId, user: UserId)
    requires Unique(s.members) && Owned(s) && Lifecycle(s)
    ensures var before, after := Rank(s, org, user), Rank(Next(s, op).state, org, user);
            && (after > before ==> Raises(s, op, org, user, after))
            && (after < before ==>
                  && (op.UpdateMemberRole? || op.RemoveMember?) && op.org == org && op.target == user
                  && (op.actor == user || Manages(s, org, op.actor)))
  {
    if !Next(s, op).result.Done? {
      RefusedChangesNothing(s, op);
    } else {
      match op
      case UpdateMemberRole(actor, o, target, role) => RankAfterUpdate(s, actor, o, target, role, org, user);
      case RemoveMember(actor, o, target) => RankAfterRemove(s, actor, o, target, org, user);
      case ListOrganizations(u, newOrg) => RankAfterListing(s, u, newOrg, org, user);
      case CreateOrganization(u, newOrg) => RankAfterFounding(s, u, newOrg, org, user);
      case AcceptInvitation(u, claimed, token, now) => RankAfterAccept(s, u, claimed, token, now, org, user);
      case CreateInvitation(_, _, _, _, _, _, _) =>
      case RevokeInvitation(_, _, _, _) =>
    }
  }

  lemma RankAfterUpdate(s: State, actor: UserId, o: OrgId, target: UserId, role: Role, org: OrgId, user: UserId)
    requires Unique(s.members) && Next(s, UpdateMemberRole(actor, o, target, role)).result.Done?
    ensures var v := Next(s, UpdateMemberRole(actor, o, target, role)).state;
            && Rank(v, org, user) == (if o == org && target == user then role.Rank() else Rank(s, org, user))
            && Manages(s, o, actor) && (role == Owner ==> Has(s, o, actor, Owner))
  {
    ChangeRoleIff(s, actor, o, target, role);
    ChangeRoleDoes(s, actor, o, target, role, org, user, Owner);
    ChangeRoleDoes(s, actor, o, target, role, org, user, Admin);
    ChangeRoleDoes(s, actor, o, target, role, org, user, Member);
  }

  lemma RankAfterRemove(s: State, actor: UserId, o: OrgId, target: UserId, org: OrgId, user: UserId)
    requires Unique(s.members) && Next(s, RemoveMember(actor, o, target)).result.Done?
    ensures var v := Next(s, RemoveMember(actor, o, target)).state;
            && Rank(v, org, user) == (if o == org && target == user then -1 else Rank(s, org, user))
            && (actor == target || Manages(s, o, actor))
  {
    RemoveIff(s, actor, o, target);
    RemoveDoes(s, actor, o, target, org, user, Owner);
    RemoveDoes(s, actor, o, target, org, user, Admin);
    RemoveDoes(s, actor, o, target, org, user, Member);
  }

  lemma RankAfterFounding(s: State, u: UserId, newOrg: OrgId, org: OrgId, user: UserId)
    requires Next(s, CreateOrganization(u, newOrg)).result.Done?
    ensures var v := Next(s, CreateOrganization(u, newOrg)).state;
            newOrg !in s.orgs && Rank(v, org, user) == if newOrg == org && u == user then 2 else Rank(s, org, user)
  {
    FoundingDoes(s, u, newOrg, org, user, Owner);
    FoundingDoes(s, u, newOrg, org, user, Admin);
    FoundingDoes(s, u, newOrg, org, user, Member);
  }

  lemma RankAfterListing(s: State, u: UserId, newOrg: OrgId, org: OrgId, user: UserId)
    requires Next(s, ListOrganizations(u, newOrg)).result.Done?
    ensures var v := Next(s, ListOrganizations(u, newOrg)).state;
            || Rank(v, org, user) == Rank(s, org, user)
            || (newOrg !in s.orgs && newOrg == org && u == user && Rank(v, org, user) == 2)
  {
    ListingDoes(s, u, newOrg);
    if Next(s, CreateOrganization(u, newOrg)).result.Done? {
      RankAfterFounding(s, u, newOrg, org, user);
    }
  }

  lemma RankAfterAccept(s: State, u: UserId, claimed: Option<string>, token: string, now: int, org: OrgId, user: UserId)
    requires Unique(s.members) && Lifecycle(s) && Next(s, AcceptInvitation(u, claimed, token, now)).result.Done?
    ensures var v := Next(s, AcceptInvitation(u, claimed, token, now)).state;
            || Rank(v, org, user) == Rank(s, org, user)
            || (Rank(v, org, user) > Rank(s, org, user) &&
                Raises(s, AcceptInvitation(u, claimed, token, now), org, user, Rank(v, org, user)))
  {
    AcceptIff(s, u, claimed, token, now);
    var i :| 0 <= i < |s.invitations| && OpenTo(s, s.invitations[i], u, claimed, token, now);
    var inv := s.invitations[i];
    var v := Next(s, AcceptInvitation(u, claimed, token, now)).state;
    assert v.members == s.members + [Membership(inv.org, u, inv.role)];
    forall o, w, r ensures Has(v, o, w, r) <==> Has(s, o, w, r) || Membership(o, w, r) == Membership(inv.org, u, inv.role) {
    }
  }

  /** How the i-th invitation may come out of an act: made or revoked by somebody who manages its organization, or
      accepted; its organization, email and role stay what they were made. */
  ghost predicate InvitationFollows(s: State, op: Op, v: State, i: nat)
    requires i < |v.invitations|
  {
    var inv := v.invitations[i];
    if i >= |s.invitations| then
      && op.CreateInvitation? && Manages(s, inv.org, op.actor) && inv.role != Owner
      && inv == Invitation(op.org, op.email, op.role, op.token, op.expiresAt, None, None)
    else
      var was := s.invitations[i];
      || inv == was
      || (op.RevokeInvitation? && Manages(s, inv.org, op.actor) && Pending(was) && inv == was.(revokedAt := Some(op.now)))
      || (op.AcceptInvitation? && OpenTo(s, was, op.user, op.claimed, op.token, op.now) &&
          inv == was.(acceptedAt := Some(op.now)))
  }

  /** In every reachable state: an invitation appears, or is revoked, only by an act of somebody who manages its
      organization, and it is accepted only by the one it was sent to. */
  lemma InvitationsChange(ops: seq<Op>, op: Op, i: nat)
    requires i < |Next(Run(EMPTY, ops), op).state.invitations|
    ensures InvitationFollows(Run(EMPTY, ops), op, Next(Run(EMPTY, ops), op).state, i)
  {
    OwnershipOverRuns(ops);
    LifecycleRun(ops);
    InvitationStep(Run(EMPTY, ops), op, i);
  }

  lemma InvitationStep(s: State, op: Op, i: nat)
    requires Unique(s.members) && Lifecycle(s) && i < |Next(s, op).state.invitations|
    ensures InvitationFollows(s, op, Next(s, op).state, i)
  {
    if !Next(s, op).result.Done? {
      RefusedChangesNothing(s, op);
    } else {
      match op
      case CreateInvitation(actor, org, email, role, token, expiresAt, emails) =>
        InviteIff(s, actor, org, email, role, token, expiresAt, emails);
      case RevokeInvitation(actor, org, id, now) => RevokeIff(s, actor, org, id, now);
      case AcceptInvitation(user, claimed, token, now) => AcceptIff(s, user, claimed, token, now);
      case _ => KeepsInvitations(s, op);
    }
  }

  lemma KeepsInvitations(s: State, op: Op)
    requires !op.CreateInvitation? && !op.RevokeInvitation? && !op.AcceptInvitation?
    ensures Next(s, op).state.invitations == s.invitations
  {
  }
}
