/**
 Organizations, memberships and invitations. Every service call is one atomic step of a state
 machine; `TenantService` is the service with its tables as fields.
 */
module Tenants {
  import opened Prelude

  type OrgId = int
  type UserId = int

  datatype Role = Owner | Admin | Member {
    function Rank(): nat {
      match this
      case Owner => 2
      case Admin => 1
      case Member => 0
    }
  }

  datatype Membership = Membership(org: OrgId, user: UserId, role: Role)

  /** Emails are compared in lower case and stored so; `token` stands for its hash. */
  datatype Invitation = Invitation(
    org: OrgId, email: string, role: Role, token: string, expiresAt: int,
    acceptedAt: Option<int>, revokedAt: Option<int>)

  /** The tables; `removals` logs the organization of every membership ever deleted. */
  datatype State = State(orgs: set<OrgId>, members: seq<Membership>, invitations: seq<Invitation>, removals: seq<OrgId>)

  const EMPTY := State({}, [], [], [])

  /** Service calls, with what they read from outside: the fresh organization id, the fresh token, the
      emails of the auth schema, the clock. */
  datatype Op =
    | ListOrganizations(user: UserId, newOrg: OrgId)
    | CreateOrganization(user: UserId, newOrg: OrgId)
    | UpdateMemberRole(actor: UserId, org: OrgId, target: UserId, role: Role)
    | RemoveMember(actor: UserId, org: OrgId, target: UserId)
    | CreateInvitation(actor: UserId, org: OrgId, email: string, role: Role, token: string, expiresAt: int,
                       emails: map<UserId, string>)
    | RevokeInvitation(actor: UserId, org: OrgId, id: nat, now: int)
    | AcceptInvitation(user: UserId, claimed: Option<string>, token: string, now: int)

  datatype Result = Done | NotFound | Forbidden | BadRequest | Conflict

  datatype Outcome = Outcome(state: State, result: Result)

  function Find(ms: seq<Membership>, org: OrgId, user: UserId): (r: Option<nat>)
    ensures r.Some? ==> r.value < |ms| && ms[r.value].org == org && ms[r.value].user == user
    ensures r.None? ==> forall i :: 0 <= i < |ms| ==> !(ms[i].org == org && ms[i].user == user)
  {
    if ms == [] then None
    else
      var n := |ms| - 1;
      match Find(ms[..n], org, user)
      case Some(i) => Some(i)
      case None => if ms[n].org == org && ms[n].user == user then Some(n) else None
  }

  function FindToken(invs: seq<Invitation>, token: string): (r: Option<nat>)
    ensures r.Some? ==> r.value < |invs| && invs[r.value].token == token
    ensures r.None? ==> forall i :: 0 <= i < |invs| ==> invs[i].token != token
  {
    if invs == [] then None
    else
      var n := |invs| - 1;
      match FindToken(invs[..n], token)
      case Some(i) => Some(i)
      case None => if invs[n].token == token then Some(n) else None
  }

  /** Somebody other than `user` owns the organization. */
  predicate OtherOwner(ms: seq<Membership>, org: OrgId, user: UserId) {
    exists i :: 0 <= i < |ms| && ms[i].org == org && ms[i].role.Owner? && ms[i].user != user
  }

  function AddOrganization(s: State, user: UserId, newOrg: OrgId): Outcome {
    if newOrg in s.orgs then Outcome(s, Conflict)
    else Outcome(s.(orgs := s.orgs + {newOrg}, members := s.members + [Membership(newOrg, user, Owner)]), Done)
  }

  function Next(s: State, op: Op): Outcome {
    match op
    case ListOrganizations(user, newOrg) =>
      if exists i :: 0 <= i < |s.members| && s.members[i].user == user then Outcome(s, Done)
      else AddOrganization(s, user, newOrg)
    case CreateOrganization(user, newOrg) => AddOrganization(s, user, newOrg)
    case UpdateMemberRole(actor, org, target, role) =>
      var a, t := Find(s.members, org, actor), Find(s.members, org, target);
      if a.None? then Outcome(s, NotFound)
      else
        var actorRole := s.members[a.value].role;
        if actorRole.Rank() < Admin.Rank() then Outcome(s, Forbidden)
        else if t.None? then Outcome(s, NotFound)
        else
          var targetRole := s.members[t.value].role;
          if targetRole.Owner? && !actorRole.Owner? then Outcome(s, Forbidden)
          else if role.Owner? && !actorRole.Owner? then Outcome(s, Forbidden)
          else if targetRole.Owner? && !role.Owner? && !OtherOwner(s.members, org, target) then Outcome(s, Conflict)
          else Outcome(s.(members := s.members[t.value := Membership(org, target, role)]), Done)
    case RemoveMember(actor, org, target) =>
      var a, t := Find(s.members, org, actor), Find(s.members, org, target);
      if a.None? || t.None? then Outcome(s, NotFound)
      else
        var actorRole, targetRole := s.members[a.value].role, s.members[t.value].role;
        if actor != target && (actorRole.Rank() < Admin.Rank() || targetRole.Rank() >= actorRole.Rank()) then
          Outcome(s, Forbidden)
        else if targetRole.Owner? && !OtherOwner(s.members, org, target) then Outcome(s, Conflict)
        else Outcome(s.(members := Remove(s.members, t.value), removals := s.removals + [org]), Done)
    case CreateInvitation(actor, org, email, role, token, expiresAt, emails) =>
      var a := Find(s.members, org, actor);
      if a.None? then Outcome(s, NotFound)
      else if s.members[a.value].role.Rank() < Admin.Rank() then Outcome(s, Forbidden)
      else if role.Owner? then Outcome(s, BadRequest)
      else if MemberWithEmail(s.members, org, email, emails) then Outcome(s, Conflict)
      else if FindToken(s.invitations, token).Some? then Outcome(s, Conflict)
      else Outcome(s.(invitations := s.invitations + [Invitation(org, email, role, token, expiresAt, None, None)]), Done)
    case RevokeInvitation(actor, org, id, now) =>
      var a := Find(s.members, org, actor);
      if a.None? then Outcome(s, NotFound)
      else if s.members[a.value].role.Rank() < Admin.Rank() then Outcome(s, Forbidden)
      else if id >= |s.invitations| || s.invitations[id].org != org then Outcome(s, NotFound)
      else if s.invitations[id].revokedAt.Some? || s.invitations[id].acceptedAt.Some? then Outcome(s, NotFound)
      else Outcome(s.(invitations := s.invitations[id := s.invitations[id].(revokedAt := Some(now))]), Done)
    case AcceptInvitation(user, email, token, now) =>
      var i := FindToken(s.invitations, token);
      if i.None? then Outcome(s, BadRequest)
      else
        var inv := s.invitations[i.value];
        if inv.revokedAt.Some? || inv.acceptedAt.Some? || inv.expiresAt < now then Outcome(s, BadRequest)
        else if email != Some(inv.email) || email == Some("") then Outcome(s, Forbidden)
        else if Find(s.members, inv.org, user).Some? then Outcome(s, Conflict)
        else Outcome(s.(invitations := s.invitations[i.value := inv.(acceptedAt := Some(now))],
                        members := s.members + [Membership(inv.org, user, inv.role)]), Done)
  }

  predicate MemberWithEmail(ms: seq<Membership>, org: OrgId, email: string, emails: map<UserId, string>) {
    exists i :: 0 <= i < |ms| && ms[i].org == org && ms[i].user in emails && emails[ms[i].user] == email
  }

  function Run(s: State, ops: seq<Op>): State {
    if ops == [] then s else Next(Run(s, ops[..|ops| - 1]), ops[|ops| - 1]).state
  }

  // Ownership.

  ghost predicate Unique(ms: seq<Membership>) {
    forall i, j :: 0 <= i < j < |ms| ==> !(ms[i].org == ms[j].org && ms[i].user == ms[j].user)
  }

  ghost predicate OwnedBySomeone(ms: seq<Membership>, org: OrgId) {
    exists m :: m in ms && m.org == org && m.role.Owner?
  }

  ghost predicate Owned(s: State) {
    && (forall i :: 0 <= i < |s.members| ==> s.members[i].org in s.orgs)
    && (forall org :: org in s.orgs ==> OwnedBySomeone(s.members, org))
    && (forall i :: 0 <= i < |s.invitations| ==> !s.invitations[i].role.Owner? && s.invitations[i].org in s.orgs)
  }

  lemma RemoveIndex<T>(s: seq<T>, i: nat)
    requires i < |s|
    ensures |Remove(s, i)| == |s| - 1
    ensures forall j :: 0 <= j < |s| - 1 ==> Remove(s, i)[j] == if j < i then s[j] else s[j + 1]
    ensures forall x :: x in s && x != s[i] ==> x in Remove(s, i)
    ensures forall x :: x in Remove(s, i) ==> x in s
  {
    assert s == s[..i] + [s[i]] + s[i + 1..];
  }

  lemma UniqueSnoc(ms: seq<Membership>, m: Membership)
    requires Unique(ms) && forall i :: 0 <= i < |ms| ==> !(ms[i].org == m.org && ms[i].user == m.user)
    ensures Unique(ms + [m])
  {
  }

  lemma UniqueUpdate(ms: seq<Membership>, i: nat, role: Role)
    requires Unique(ms) && i < |ms|
    ensures Unique(ms[i := Membership(ms[i].org, ms[i].user, role)])
  {
  }

  lemma UniqueRemove(ms: seq<Membership>, i: nat)
    requires Unique(ms) && i < |ms|
    ensures Unique(Remove(ms, i))
  {
    RemoveIndex(ms, i);
  }

  lemma StaysUnique(s: State, op: Op)
    requires Unique(s.members) && Owned(s)
    ensures Unique(Next(s, op).state.members)
  {
    var v := Next(s, op).state;
    if v.members != s.members {
      match op {
        case ListOrganizations(user, newOrg) => UniqueSnoc(s.members, Membership(newOrg, user, Owner));
        case CreateOrganization(user, newOrg) => UniqueSnoc(s.members, Membership(newOrg, user, Owner));
        case UpdateMemberRole(_, org, target, role) => UniqueUpdate(s.members, Find(s.members, org, target).value, role);
        case RemoveMember(_, org, target) => UniqueRemove(s.members, Find(s.members, org, target).value);
        case CreateInvitation(_, _, _, _, _, _, _) =>
        case RevokeInvitation(_, _, _, _) =>
        case AcceptInvitation(user, _, token, _) => UniqueSnoc(s.members, v.members[|s.members|]);
      }
    }
  }

  lemma StaysOwned(s: State, op: Op)
    requires Owned(s)
    ensures Owned(Next(s, op).state)
  {
    var v := Next(s, op).state;
    if op.RemoveMember? && v != s {
      RemoveIndex(s.members, Find(s.members, op.org, op.target).value);
    }
    forall org | org in v.orgs ensures OwnedBySomeone(v.members, org) {
      StillOwned(s, op, org);
    }
  }

  lemma OwnedWithout(ms: seq<Membership>, t: nat, org: OrgId)
    requires t < |ms| && OwnedBySomeone(ms, org)
    requires ms[t].org == org && ms[t].role.Owner? ==> OtherOwner(ms, org, ms[t].user)
    ensures OwnedBySomeone(Remove(ms, t), org)
  {
    RemoveIndex(ms, t);
    var m :| m in ms && m.org == org && m.role.Owner?;
    if m == ms[t] {
      var i :| 0 <= i < |ms| && ms[i].org == org && ms[i].role.Owner? && ms[i].user != ms[t].user;
      assert ms[i] in Remove(ms, t);
    }
  }

  lemma OwnedUpdated(ms: seq<Membership>, t: nat, role: Role, org: OrgId)
    requires t < |ms| && OwnedBySomeone(ms, org)
    requires ms[t].org == org && ms[t].role.Owner? && !role.Owner? ==> OtherOwner(ms, org, ms[t].user)
    ensures OwnedBySomeone(ms[t := Membership(ms[t].org, ms[t].user, role)], org)
  {
    var v := ms[t := Membership(ms[t].org, ms[t].user, role)];
    assert v[t] in v;
    var m :| m in ms && m.org == org && m.role.Owner?;
    if m != ms[t] {
      var i :| 0 <= i < |ms| && ms[i] == m;
      assert v[i] == m;
    } else if !role.Owner? {
      var i :| 0 <= i < |ms| && ms[i].org == org && ms[i].role.Owner? && ms[i].user != ms[t].user;
      assert v[i] == ms[i];
    }
  }

  lemma OwnedGrown(ms: seq<Membership>, m: Membership, org: OrgId)
    requires OwnedBySomeone(ms, org) || (m.org == org && m.role.Owner?)
    ensures OwnedBySomeone(ms + [m], org)
  {
    assert (ms + [m])[|ms|] == m;
  }

  lemma StillOwned(s: State, op: Op, org: OrgId)
    requires Owned(s) && org in Next(s, op).state.orgs
    ensures OwnedBySomeone(Next(s, op).state.members, org)
  {
    var v := Next(s, op).state;
    if v.members != s.members {
      match op {
        case ListOrganizations(user, newOrg) => OwnedGrown(s.members, Membership(newOrg, user, Owner), org);
        case CreateOrganization(user, newOrg) => OwnedGrown(s.members, Membership(newOrg, user, Owner), org);
        case UpdateMemberRole(_, o, target, role) => OwnedUpdated(s.members, Find(s.members, o, target).value, role, org);
        case RemoveMember(_, o, target) => OwnedWithout(s.members, Find(s.members, o, target).value, org);
        case CreateInvitation(_, _, _, _, _, _, _) =>
        case RevokeInvitation(_, _, _, _) =>
        case AcceptInvitation(_, _, _, _) => OwnedGrown(s.members, v.members[|s.members|], org);
      }
    }
  }

  ghost predicate IsOwner(s: State, org: OrgId, user: UserId) {
    Owns(s.members, org, user)
  }

  ghost predicate Owns(ms: seq<Membership>, org: OrgId, user: UserId) {
    exists m :: m in ms && m.org == org && m.user == user && m.role.Owner?
  }

  /** Replacing a membership changes whether a user is an owner only if it is that user's, and one of the two is
      an owner's. */
  lemma OwnersUpdated(ms: seq<Membership>, t: nat, m: Membership, org: OrgId, user: UserId)
    requires t < |ms| && m.org == ms[t].org && m.user == ms[t].user
    requires Owns(ms, org, user) != Owns(ms[t := m], org, user)
    ensures ms[t].org == org && ms[t].user == user && (ms[t].role.Owner? || m.role.Owner?)
  {
    UpdateIndex(ms, t, m);
  }

  lemma OwnersRemoved(ms: seq<Membership>, t: nat, org: OrgId, user: UserId)
    requires t < |ms| && Owns(ms, org, user) != Owns(Remove(ms, t), org, user)
    ensures ms[t].org == org && ms[t].user == user && ms[t].role.Owner?
  {
    RemoveIndex(ms, t);
  }

  /** Any change to the owners of an organization that exists is made by one of its owners; an owner
      is never removed by anyone else, only demoted. */
  lemma OwnersChangeOwners(s: State, op: Op, org: OrgId, user: UserId)
    requires Owned(s) && org in s.orgs
    requires IsOwner(s, org, user) != IsOwner(Next(s, op).state, org, user)
    ensures op.UpdateMemberRole? || op.RemoveMember?
    ensures op.org == org && op.target == user && IsOwner(s, org, op.actor)
    ensures op.RemoveMember? ==> op.actor == user
  {
    var v := Next(s, op).state;
    match op {
      case UpdateMemberRole(actor, o, target, _) =>
        var t := Find(s.members, o, target).value;
        OwnersUpdated(s.members, t, v.members[t], org, user);
        assert s.members[Find(s.members, o, actor).value] in s.members;
      case RemoveMember(actor, o, target) =>
        var t := Find(s.members, o, target).value;
        OwnersRemoved(s.members, t, org, user);
        assert s.members[t] in s.members;
      case ListOrganizations(_, _) => SameOwners(s, v, org, user);
      case CreateOrganization(_, _) => SameOwners(s, v, org, user);
      case AcceptInvitation(_, _, _, _) => SameOwners(s, v, org, user);
      case CreateInvitation(_, _, _, _, _, _, _) =>
      case RevokeInvitation(_, _, _, _) =>
    }
  }

  /** A membership added without owning the organization changes nothing. */
  lemma SameOwners(s: State, v: State, org: OrgId, user: UserId)
    requires |s.members| <= |v.members| <= |s.members| + 1 && v.members[..|s.members|] == s.members
    requires |v.members| > |s.members| ==> v.members[|s.members|].org != org || !v.members[|s.members|].role.Owner?
    ensures IsOwner(s, org, user) == IsOwner(v, org, user)
  {
    assert v.members == s.members + v.members[|s.members|..];
  }

  lemma UpdateIndex<T>(s: seq<T>, i: nat, x: T)
    requires i < |s|
    ensures x in s[i := x]
    ensures forall y :: y in s && y != s[i] ==> y in s[i := x]
    ensures forall y :: y in s[i := x] ==> y == x || y in s
  {
    assert s[i := x][i] == x;
    forall y | y in s && y != s[i] ensures y in s[i := x] {
      var j :| 0 <= j < |s| && s[j] == y;
      assert s[i := x][j] == y;
    }
  }

  lemma {:induction false} OwnershipOverRuns(ops: seq<Op>)
    ensures Owned(Run(EMPTY, ops)) && Unique(Run(EMPTY, ops).members)
  {
    if ops != [] {
      var n := |ops| - 1;
      OwnershipOverRuns(ops[..n]);
      StaysOwned(Run(EMPTY, ops[..n]), ops[n]);
      StaysUnique(Run(EMPTY, ops[..n]), ops[n]);
    }
  }

  /** Over all runs: every organization has an owner, every user at most one membership of it, and
      whoever changes the owners of an existing organization is one of them just before. */
  lemma Ownership(ops: seq<Op>, op: Op, org: OrgId, user: UserId)
    requires org in Run(EMPTY, ops).orgs
    ensures var s := Run(EMPTY, ops);
            && (exists owner :: IsOwner(s, org, owner))
            && Unique(s.members)
            && (IsOwner(s, org, user) != IsOwner(Next(s, op).state, org, user) ==>
                  (op.UpdateMemberRole? || op.RemoveMember?) && op.org == org && IsOwner(s, org, op.actor))
  {
    OwnershipOverRuns(ops);
    var s := Run(EMPTY, ops);
    var m :| m in s.members && m.org == org && m.role.Owner?;
    assert IsOwner(s, org, m.user);
    if IsOwner(s, org, user) != IsOwner(Next(s, op).state, org, user) {
      OwnersChangeOwners(s, op, org, user);
    }
  }

  // Conservation.

  function Count<T>(s: seq<T>, p: T -> bool): nat {
    if s == [] then 0 else Count(s[..|s| - 1], p) + if p(s[|s| - 1]) then 1 else 0
  }

  lemma CountSnoc<T>(s: seq<T>, x: T, p: T -> bool)
    ensures Count(s + [x], p) == Count(s, p) + if p(x) then 1 else 0
  {
    assert (s + [x])[..|s|] == s;
  }

  lemma {:induction false} CountUpdate<T>(s: seq<T>, i: nat, x: T, p: T -> bool)
    requires i < |s|
    ensures Count(s[i := x], p) + (if p(s[i]) then 1 else 0) == Count(s, p) + if p(x) then 1 else 0
  {
    var n := |s| - 1;
    if i < n {
      CountUpdate(s[..n], i, x, p);
      assert s[i := x][..n] == s[..n][i := x];
    } else {
      assert s[i := x][..n] == s[..n];
    }
  }

  lemma {:induction false} CountRemove<T>(s: seq<T>, i: nat, p: T -> bool)
    requires i < |s|
    ensures Count(Remove(s, i), p) + (if p(s[i]) then 1 else 0) == Count(s, p)
  {
    var n := |s| - 1;
    if i < n {
      CountRemove(s[..n], i, p);
      assert s[i + 1..] == s[..n][i + 1..] + [s[n]];
      assert Remove(s, i) == Remove(s[..n], i) + [s[n]];
      CountSnoc(Remove(s[..n], i), s[n], p);
    } else {
      assert Remove(s, i) == s[..n];
    }
  }

  function MemberOf(org: OrgId): Membership -> bool {
    (m: Membership) => m.org == org
  }

  function AcceptedFor(org: OrgId): Invitation -> bool {
    (i: Invitation) => i.org == org && i.acceptedAt.Some?
  }

  function Is(org: OrgId): OrgId -> bool {
    (o: OrgId) => o == org
  }

  ghost predicate Balanced(s: State, org: OrgId) {
    Count(s.members, MemberOf(org)) ==
    (if org in s.orgs then 1 else 0) + Count(s.invitations, AcceptedFor(org)) - Count(s.removals, Is(org))
  }

  lemma BalancedCreate(s: State, user: UserId, newOrg: OrgId, org: OrgId)
    requires Balanced(s, org)
    ensures Balanced(AddOrganization(s, user, newOrg).state, org)
  {
    CountSnoc(s.members, Membership(newOrg, user, Owner), MemberOf(org));
  }

  lemma BalancedRole(s: State, i: nat, role: Role, org: OrgId)
    requires Balanced(s, org) && i < |s.members|
    ensures Balanced(s.(members := s.members[i := Membership(s.members[i].org, s.members[i].user, role)]), org)
  {
    CountUpdate(s.members, i, Membership(s.members[i].org, s.members[i].user, role), MemberOf(org));
  }

  lemma BalancedRemoval(s: State, i: nat, org: OrgId)
    requires Balanced(s, org) && i < |s.members|
    ensures Balanced(s.(members := Remove(s.members, i), removals := s.removals + [s.members[i].org]), org)
  {
    CountRemove(s.members, i, MemberOf(org));
    CountSnoc(s.removals, s.members[i].org, Is(org));
  }

  lemma BalancedInvite(s: State, inv: Invitation, org: OrgId)
    requires Balanced(s, org) && inv.acceptedAt.None?
    ensures Balanced(s.(invitations := s.invitations + [inv]), org)
  {
    CountSnoc(s.invitations, inv, AcceptedFor(org));
  }

  lemma BalancedRevoke(s: State, i: nat, inv: Invitation, org: OrgId)
    requires Balanced(s, org) && i < |s.invitations| && s.invitations[i].acceptedAt.None? && inv.acceptedAt.None?
    ensures Balanced(s.(invitations := s.invitations[i := inv]), org)
  {
    CountUpdate(s.invitations, i, inv, AcceptedFor(org));
  }

  lemma BalancedAccept(s: State, i: nat, inv: Invitation, m: Membership, org: OrgId)
    requires Balanced(s, org) && i < |s.invitations| && s.invitations[i].acceptedAt.None?
    requires inv.acceptedAt.Some? && inv.org == m.org
    ensures Balanced(s.(invitations := s.invitations[i := inv], members := s.members + [m]), org)
  {
    CountUpdate(s.invitations, i, inv, AcceptedFor(org));
    CountSnoc(s.members, m, MemberOf(org));
  }

  lemma StaysBalanced(s: State, op: Op, org: OrgId)
    requires Balanced(s, org)
    ensures Balanced(Next(s, op).state, org)
  {
    var v := Next(s, op).state;
    if v != s {
      match op {
        case ListOrganizations(user, newOrg) => BalancedCreate(s, user, newOrg, org);
        case CreateOrganization(user, newOrg) => BalancedCreate(s, user, newOrg, org);
        case UpdateMemberRole(_, o, target, role) => BalancedRole(s, Find(s.members, o, target).value, role, org);
        case RemoveMember(_, o, target) => BalancedRemoval(s, Find(s.members, o, target).value, org);
        case CreateInvitation(_, _, _, _, _, _, _) => BalancedInvite(s, v.invitations[|s.invitations|], org);
        case RevokeInvitation(_, _, id, _) => BalancedRevoke(s, id, v.invitations[id], org);
        case AcceptInvitation(_, _, token, _) =>
          var i := FindToken(s.invitations, token).value;
          BalancedAccept(s, i, v.invitations[i], v.members[|s.members|], org);
      }
    }
  }

  /** In every reachable state an organization has 1 + accepted invitations - removals members. */
  lemma {:induction false} Conservation(ops: seq<Op>, org: OrgId)
    ensures var s := Run(EMPTY, ops);
            org in s.orgs ==>
              Count(s.members, MemberOf(org)) ==
              1 + Count(s.invitations, AcceptedFor(org)) - Count(s.removals, Is(org))
  {
    BalancedRun(ops, org);
  }

  lemma {:induction false} BalancedRun(ops: seq<Op>, org: OrgId)
    ensures Balanced(Run(EMPTY, ops), org)
  {
    if ops != [] {
      var n := |ops| - 1;
      BalancedRun(ops[..n], org);
      StaysBalanced(Run(EMPTY, ops[..n]), ops[n], org);
    }
  }

  // The life of an invitation.

  ghost predicate Settled(i: Invitation) {
    i.acceptedAt.Some? || i.revokedAt.Some?
  }

  /** Invitations are never deleted, tokens never reused; accepted and revoked exclude each other. */
  ghost predicate Lifecycle(s: State) {
    && (forall i, j :: 0 <= i < j < |s.invitations| ==> s.invitations[i].token != s.invitations[j].token)
    && (forall i :: 0 <= i < |s.invitations| ==> s.invitations[i].acceptedAt.None? || s.invitations[i].revokedAt.None?)
  }

  lemma LifecycleStep(s: State, op: Op)
    requires Lifecycle(s)
    ensures Lifecycle(Next(s, op).state)
    ensures |s.invitations| <= |Next(s, op).state.invitations|
    ensures forall i :: 0 <= i < |s.invitations| ==>
              && Next(s, op).state.invitations[i].token == s.invitations[i].token
              && (Settled(s.invitations[i]) ==> Next(s, op).state.invitations[i] == s.invitations[i])
  {
  }

  lemma {:induction false} LifecycleRun(ops: seq<Op>)
    ensures Lifecycle(Run(EMPTY, ops))
  {
    if ops != [] {
      LifecycleRun(ops[..|ops| - 1]);
      LifecycleStep(Run(EMPTY, ops[..|ops| - 1]), ops[|ops| - 1]);
    }
  }

  /** Accepted and revoked are absorbing: an invitation in either state stays exactly as it is. */
  lemma {:induction false} SettledForever(s: State, ops: seq<Op>, i: nat)
    requires Lifecycle(s) && i < |s.invitations| && Settled(s.invitations[i])
    ensures i < |Run(s, ops).invitations| && Run(s, ops).invitations[i] == s.invitations[i]
    ensures Lifecycle(Run(s, ops))
  {
    if ops != [] {
      SettledForever(s, ops[..|ops| - 1], i);
      LifecycleStep(Run(s, ops[..|ops| - 1]), ops[|ops| - 1]);
    }
  }

  /** How often the token was accepted with success. */
  function Acceptances(ops: seq<Op>, token: string): nat {
    if ops == [] then 0
    else
      var n := |ops| - 1;
      Acceptances(ops[..n], token) +
      if ops[n].AcceptInvitation? && ops[n].token == token && Next(Run(EMPTY, ops[..n]), ops[n]).result.Done? then 1 else 0
  }

  ghost predicate AcceptedToken(s: State, token: string) {
    exists i :: 0 <= i < |s.invitations| && s.invitations[i].token == token && s.invitations[i].acceptedAt.Some?
  }

  /** Each invitation lets at most one user in: in every run its token succeeds once if the invitation
      is accepted at the end, and never otherwise. */
  lemma {:induction false} SingleUse(ops: seq<Op>, token: string)
    ensures Acceptances(ops, token) == if AcceptedToken(Run(EMPTY, ops), token) then 1 else 0
  {
    if ops != [] {
      var n := |ops| - 1;
      SingleUse(ops[..n], token);
      LifecycleRun(ops[..n]);
      SingleUseStep(Run(EMPTY, ops[..n]), ops[n], token);
    }
  }

  lemma SingleUseStep(s: State, op: Op, token: string)
    requires Lifecycle(s)
    ensures var succeeds := op.AcceptInvitation? && op.token == token && Next(s, op).result.Done?;
            && (AcceptedToken(Next(s, op).state, token) <==> AcceptedToken(s, token) || succeeds)
            && !(AcceptedToken(s, token) && succeeds)
  {
    var v := Next(s, op).state;
    LifecycleStep(s, op);
    var succeeds := op.AcceptInvitation? && op.token == token && Next(s, op).result.Done?;
    if AcceptedToken(s, token) {
      var i :| 0 <= i < |s.invitations| && s.invitations[i].token == token && s.invitations[i].acceptedAt.Some?;
      assert v.invitations[i] == s.invitations[i];
      if op.AcceptInvitation? && op.token == token {
        assert FindToken(s.invitations, token) == Some(i);
      }
    } else if succeeds {
      assert v.invitations[FindToken(s.invitations, token).value].token == token;
    }
    NewlyAccepted(s, op, token);
  }

  lemma NewlyAccepted(s: State, op: Op, token: string)
    ensures AcceptedToken(Next(s, op).state, token) ==>
              AcceptedToken(s, token) || (op.AcceptInvitation? && op.token == token && Next(s, op).result.Done?)
  {
    var v := Next(s, op).state;
    if AcceptedToken(v, token) {
      var i :| 0 <= i < |v.invitations| && v.invitations[i].token == token && v.invitations[i].acceptedAt.Some?;
      if i < |s.invitations| && s.invitations[i] == v.invitations[i] {
        assert AcceptedToken(s, token);
      }
    }
  }

  // The service.

  class TenantService {
    var orgs: set<OrgId>
    var members: seq<Membership>
    var invitations: seq<Invitation>
    ghost var removals: seq<OrgId>

    ghost function Tables(): State
      reads this
    {
      State(orgs, members, invitations, removals)
    }

    constructor ()
      ensures Tables() == EMPTY
    {
      orgs, members, invitations, removals := {}, [], [], [];
    }

    method CreateOrganization(user: UserId, newOrg: OrgId) returns (r: Result)
      modifies this
      ensures Outcome(Tables(), r) == Next(old(Tables()), Op.CreateOrganization(user, newOrg))
    {
      if newOrg in orgs {
        return Conflict;
      }
      orgs := orgs + {newOrg};
      members := members + [Membership(newOrg, user, Owner)];
      return Done;
    }

    /** The personal organization is created on the first call. */
    method ListOrganizations(user: UserId, newOrg: OrgId) returns (r: Result, mine: seq<Membership>)
      modifies this
      ensures Outcome(Tables(), r) == Next(old(Tables()), Op.ListOrganizations(user, newOrg))
      ensures r.Done? ==> mine != [] && forall m :: m in mine <==> m in members && m.user == user
    {
      mine := MembershipsOf(user);
      r := Done;
      if mine == [] {
        r := CreateOrganization(user, newOrg);
        mine := MembershipsOf(user);
      }
    }

    method MembershipsOf(user: UserId) returns (mine: seq<Membership>)
      ensures forall m :: m in mine <==> m in members && m.user == user
      ensures mine != [] <==> exists i :: 0 <= i < |members| && members[i].user == user
    {
      mine := [];
      var i := 0;
      while i < |members|
        invariant 0 <= i <= |members|
        invariant forall m :: m in mine <==> m in members[..i] && m.user == user
        invariant mine != [] <==> exists j :: 0 <= j < i && members[j].user == user
      {
        assert members[..i + 1] == members[..i] + [members[i]];
        if members[i].user == user {
          mine := mine + [members[i]];
        }
        i := i + 1;
      }
      assert members[..i] == members;
    }

    /** `_ensure_not_last_owner`. */
    method HasOtherOwner(org: OrgId, user: UserId) returns (found: bool)
      ensures found <==> OtherOwner(members, org, user)
    {
      var i := 0;
      while i < |members|
        invariant 0 <= i <= |members|
        invariant forall j :: 0 <= j < i ==> !(members[j].org == org && members[j].role.Owner? && members[j].user != user)
      {
        if members[i].org == org && members[i].role.Owner? && members[i].user != user {
          return true;
        }
        i := i + 1;
      }
      return false;
    }

    method UpdateMemberRole(actor: UserId, org: OrgId, target: UserId, role: Role) returns (r: Result)
      modifies this
      ensures Outcome(Tables(), r) == Next(old(Tables()), Op.UpdateMemberRole(actor, org, target, role))
    {
      var a := Find(members, org, actor);
      if a.None? {
        return NotFound;
      }
      var actorRole := members[a.value].role;
      if actorRole.Rank() < Admin.Rank() {
        return Forbidden;
      }
      var t := Find(members, org, target);
      if t.None? {
        return NotFound;
      }
      var targetRole := members[t.value].role;
      if targetRole.Owner? && !actorRole.Owner? {
        return Forbidden;
      }
      if role.Owner? && !actorRole.Owner? {
        return Forbidden;
      }
      if targetRole.Owner? && !role.Owner? {
        var other := HasOtherOwner(org, target);
        if !other {
          return Conflict;
        }
      }
      members := members[t.value := members[t.value].(role := role)];
      return Done;
    }

    method RemoveMember(actor: UserId, org: OrgId, target: UserId) returns (r: Result)
      modifies this
      ensures Outcome(Tables(), r) == Next(old(Tables()), Op.RemoveMember(actor, org, target))
    {
      var a := Find(members, org, actor);
      if a.None? {
        return NotFound;
      }
      var t := Find(members, org, target);
      if t.None? {
        return NotFound;
      }
      var actorRole, targetRole := members[a.value].role, members[t.value].role;
      if actor != target {
        if actorRole.Rank() < Admin.Rank() {
          return Forbidden;
        }
        if targetRole.Rank() >= actorRole.Rank() {
          return Forbidden;
        }
      }
      if targetRole.Owner? {
        var other := HasOtherOwner(org, target);
        if !other {
          return Conflict;
        }
      }
      members := Remove(members, t.value);
      removals := removals + [org];
      return Done;
    }

    method CreateInvitation(actor: UserId, org: OrgId, email: string, role: Role, token: string, expiresAt: int,
                            emails: map<UserId, string>)
      returns (r: Result)
      modifies this
      ensures Outcome(Tables(), r) ==
              Next(old(Tables()), Op.CreateInvitation(actor, org, email, role, token, expiresAt, emails))
    {
      var a := Find(members, org, actor);
      if a.None? {
        return NotFound;
      }
      if members[a.value].role.Rank() < Admin.Rank() {
        return Forbidden;
      }
      if role.Owner? {
        return BadRequest;
      }
      if MemberWithEmail(members, org, email, emails) {
        return Conflict;
      }
      if FindToken(invitations, token).Some? {
        return Conflict;  // the unique constraint on token_hash
      }
      invitations := invitations + [Invitation(org, email, role, token, expiresAt, None, None)];
      return Done;
    }

    method RevokeInvitation(actor: UserId, org: OrgId, id: nat, now: int) returns (r: Result)
      modifies this
      ensures Outcome(Tables(), r) == Next(old(Tables()), Op.RevokeInvitation(actor, org, id, now))
    {
      var a := Find(members, org, actor);
      if a.None? {
        return NotFound;
      }
      if members[a.value].role.Rank() < Admin.Rank() {
        return Forbidden;
      }
      if id >= |invitations| || invitations[id].org != org {
        return NotFound;
      }
      var invitation := invitations[id];
      if invitation.revokedAt.Some? || invitation.acceptedAt.Some? {
        return NotFound;
      }
      invitations := invitations[id := invitation.(revokedAt := Some(now))];
      return Done;
    }

    method AcceptInvitation(user: UserId, claimed: Option<string>, token: string, now: int) returns (r: Result)
      modifies this
      ensures Outcome(Tables(), r) == Next(old(Tables()), Op.AcceptInvitation(user, claimed, token, now))
    {
      var i := FindToken(invitations, token);
      if i.None? {
        return BadRequest;
      }
      var invitation := invitations[i.value];
      if invitation.revokedAt.Some? {
        return BadRequest;
      }
      if invitation.acceptedAt.Some? {
        return BadRequest;
      }
      if invitation.expiresAt < now {
        return BadRequest;
      }
      if claimed.None? || claimed.value == "" || claimed.value != invitation.email {
        return Forbidden;
      }
      if Find(members, invitation.org, user).Some? {
        return Conflict;
      }
      invitations := invitations[i.value := invitation.(acceptedAt := Some(now))];
      members := members + [Membership(invitation.org, user, invitation.role)];
      return Done;
    }
  }
}
