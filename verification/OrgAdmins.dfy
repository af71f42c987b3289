/** Members and administrators of organizations, and the rule about the last administrator. */
module OrgAdmins {
  import opened Prelude

  datatype Role = OrgAdmin | OrgMember

  datatype User = User(email: string, disabled: bool)

  /** A user has one membership at most, so the table is keyed by the user. */
  datatype Member = Member(org: nat, role: Role)

  datatype Directory = Directory(orgs: set<nat>, users: map<nat, User>, members: map<nat, Member>)

  datatype Refusal = LastOrgAdmin | NotFound | EmailTaken | SuccessorRequired | BadSuccessor

  function ActiveAdmins(d: Directory, org: nat): set<nat> {
    set u | u in d.members && d.members[u] == Member(org, OrgAdmin) && u in d.users && !d.users[u].disabled
  }

  function ActiveMembers(d: Directory, org: nat): set<nat> {
    set u | u in d.members && d.members[u].org == org && u in d.users && !d.users[u].disabled
  }

  ghost predicate HasAdmin(d: Directory, org: nat) {
    exists u :: u in ActiveAdmins(d, org)
  }

  /** At least one administrator would remain without this user. */
  predicate GuardPasses(d: Directory, org: nat, user: nat) {
    |ActiveAdmins(d, org) - {user}| >= 1
  }

  predicate InOrg(d: Directory, org: nat, user: nat) {
    user in d.members && d.members[user].org == org && user in d.users
  }

  predicate EmailFree(d: Directory, email: string) {
    forall u :: u in d.users ==> d.users[u].email != email
  }

  function Added(d: Directory, org: nat, user: nat, email: string, role: Role): Directory {
    d.(users := d.users[user := User(email, false)], members := d.members[user := Member(org, role)])
  }

  function WithRole(d: Directory, user: nat, role: Role): Directory
    requires user in d.members
  {
    d.(members := d.members[user := d.members[user].(role := role)])
  }

  function WithDisabled(d: Directory, user: nat, disabled: bool): Directory
    requires user in d.users
  {
    d.(users := d.users[user := d.users[user].(disabled := disabled)])
  }

  function Without(d: Directory, user: nat): Directory {
    d.(users := d.users - {user}, members := d.members - {user})
  }

  /** The organization goes with its members and their accounts. */
  function OrgDeleted(d: Directory, org: nat): Directory {
    var gone := set u | u in d.members && d.members[u].org == org;
    Directory(d.orgs - {org}, d.users - gone, d.members - gone)
  }

  // ------------------------------------------------------------------ requests

  datatype Request =
    | CreateUser(org: nat, user: nat, email: string, role: Role)
    | PatchRole(org: nat, user: nat, role: Role)
    | Disable(org: nat, user: nat)
    | Enable(org: nat, user: nat)
    | Offboard(org: nat, user: nat, target: Option<nat>)
    | DeleteAccount(user: nat, successor: Option<nat>)
    | CreateOrg(org: nat, user: nat, email: string)
    | DeleteOrg(org: nat)

  /** The guard stands before every request that takes an administrator's role, account or access. */
  predicate Guarded(d: Directory, org: nat, user: nat)
    requires user in d.members
  {
    d.members[user].role == OrgAdmin && !GuardPasses(d, org, user)
  }

  /** The leaving user is the only active administrator of the organization. */
  predicate Lone(d: Directory, user: nat) {
    user in d.members && Guarded(d, d.members[user].org, user)
  }

  function AccountDeleted(d: Directory, user: nat, successor: Option<nat>): Result<Directory, Refusal> {
    if user !in d.users then Err(NotFound)
    else if !Lone(d, user) then Ok(Without(d, user))
    else
      var org := d.members[user].org;
      var candidates := ActiveMembers(d, org) - {user};
      if candidates == {} then Ok(OrgDeleted(d, org))
      else if successor.None? then Err(SuccessorRequired)
      else if successor.value !in candidates then Err(BadSuccessor)
      else Ok(Without(WithRole(d, successor.value, OrgAdmin), user))
  }

  function Answer(d: Directory, r: Request): Result<Directory, Refusal> {
    match r
    case CreateUser(org, user, email, role) =>
      if org !in d.orgs then Err(NotFound)
      else if !EmailFree(d, email) then Err(EmailTaken) else Ok(Added(d, org, user, email, role))
    case PatchRole(org, user, role) =>
      if !InOrg(d, org, user) then Err(NotFound)
      else if role == OrgMember && Guarded(d, org, user) then Err(LastOrgAdmin) else Ok(WithRole(d, user, role))
    case Disable(org, user) =>
      if !InOrg(d, org, user) then Err(NotFound)
      else if Guarded(d, org, user) then Err(LastOrgAdmin) else Ok(WithDisabled(d, user, true))
    case Enable(org, user) =>
      if !InOrg(d, org, user) then Err(NotFound) else Ok(WithDisabled(d, user, false))
    case Offboard(org, user, target) =>
      if !InOrg(d, org, user) then Err(NotFound)
      else if Guarded(d, org, user) then Err(LastOrgAdmin)
      else if target.Some? && !(InOrg(d, org, target.value) && !d.users[target.value].disabled) then Err(NotFound)
      else Ok(Without(d, user))
    case DeleteAccount(user, successor) => AccountDeleted(d, user, successor)
    case CreateOrg(org, user, email) =>
      if !EmailFree(d, email) then Err(EmailTaken)
      else Ok(Added(d.(orgs := d.orgs + {org}), org, user, email, OrgAdmin))
    case DeleteOrg(org) => Ok(OrgDeleted(d, org))
  }

  function Step(d: Directory, r: Request): Directory {
    match Answer(d, r) case Ok(d') => d' case Err(_) => d
  }

  /** New accounts have new ids. */
  predicate Plausible(d: Directory, r: Request) {
    (r.CreateUser? || r.CreateOrg?) ==> r.user !in d.users && r.user !in d.members
  }

  function Run(d: Directory, requests: seq<Request>): Directory
    decreases |requests|
  {
    if requests == [] then d else Step(Run(d, requests[..|requests| - 1]), requests[|requests| - 1])
  }

  ghost predicate PlausibleRun(d: Directory, requests: seq<Request>)
    decreases |requests|
  {
    requests == []
    || (PlausibleRun(d, requests[..|requests| - 1])
        && Plausible(Run(d, requests[..|requests| - 1]), requests[|requests| - 1]))
  }

  // ------------------------------------------------------------------ the rule

  lemma GuardMeans(d: Directory, org: nat, user: nat)
    ensures GuardPasses(d, org, user) <==> exists u :: u in ActiveAdmins(d, org) && u != user
  {
  }

  /** The guard is exact: it lets a request through just if an administrator is left afterwards. */
  lemma GuardIsExact(d: Directory, org: nat, user: nat)
    requires InOrg(d, org, user) && d.members[user].role == OrgAdmin
    ensures GuardPasses(d, org, user) <==> HasAdmin(WithRole(d, user, OrgMember), org)
    ensures GuardPasses(d, org, user) <==> HasAdmin(WithDisabled(d, user, true), org)
    ensures GuardPasses(d, org, user) <==> HasAdmin(Without(d, user), org)
  {
    GuardMeans(d, org, user);
    var others := ActiveAdmins(d, org) - {user};
    assert ActiveAdmins(WithRole(d, user, OrgMember), org) == others;
    assert ActiveAdmins(WithDisabled(d, user, true), org) == others;
    assert ActiveAdmins(Without(d, user), org) == others;
    assert forall u :: u in others <==> u in ActiveAdmins(d, org) && u != user;
  }

  /**
    Deleting an account: the organization goes exactly when its only active administrator leaves and
    nobody active is left to succeed; a successor, when one is needed, ends up an administrator.
   */
  lemma AccountDeletion(d: Directory, user: nat, successor: Option<nat>)
    requires user in d.users && user in d.members && d.members[user].org in d.orgs
    ensures var org := d.members[user].org;
            var a := AccountDeleted(d, user, successor);
            && (a.Ok? ==> user !in a.value.users && user !in a.value.members)
            && (a.Ok? && org !in a.value.orgs <==> Lone(d, user) && ActiveMembers(d, org) <= {user})
            && (a.Ok? && Lone(d, user) && org in a.value.orgs ==>
                  successor.Some? && ActiveAdmins(a.value, org) == {successor.value})
            && (a.Err? <==> Lone(d, user) && !(ActiveMembers(d, org) <= {user})
                            && (successor.None? || successor.value !in ActiveMembers(d, org) - {user}))
  {
    var org := d.members[user].org;
    GuardMeans(d, org, user);
    assert ActiveMembers(d, org) - {user} == {} <==> ActiveMembers(d, org) <= {user};
  }

  /** An organization that exists has an active administrator. */
  ghost predicate Led(d: Directory, org: nat) {
    org in d.orgs ==> HasAdmin(d, org)
  }

  lemma StaysAdmin(d: Directory, d': Directory, org: nat, u: nat)
    requires u in ActiveAdmins(d, org)
    requires u in d'.members && d'.members[u] == d.members[u] && u in d'.users && d'.users[u] == d.users[u]
    ensures HasAdmin(d', org)
  {
    assert u in ActiveAdmins(d', org);
  }

  /** A request that touches one user leaves the administrators other than that user in place. */
  lemma OthersStay(d: Directory, d': Directory, org: nat, user: nat)
    requires HasAdmin(d, org) && (user in ActiveAdmins(d, org) ==> GuardPasses(d, org, user))
    requires forall u :: u in d.members && u in d.users && u != user ==>
               u in d'.members && d'.members[u] == d.members[u] && u in d'.users && d'.users[u] == d.users[u]
    ensures HasAdmin(d', org)
  {
    GuardMeans(d, org, user);
    var u :| u in ActiveAdmins(d, org) && u != user;
    StaysAdmin(d, d', org, u);
  }

  /** Raising a role and enabling an account take nobody's place. */
  lemma RaisingKeepsLed(d: Directory, r: Request, org: nat)
    requires HasAdmin(d, org) && Answer(d, r).Ok? && ((r.PatchRole? && r.role == OrgAdmin) || r.Enable?)
    ensures HasAdmin(Step(d, r), org)
  {
    var u :| u in ActiveAdmins(d, org);
    assert d.members[u] == Member(org, OrgAdmin) && u in d.users;
    assert u in ActiveAdmins(Step(d, r), org);
  }

  lemma DeletingKeepsLed(d: Directory, gone: nat, org: nat)
    requires HasAdmin(d, org) && gone != org
    ensures HasAdmin(OrgDeleted(d, gone), org)
  {
    var u :| u in ActiveAdmins(d, org);
    StaysAdmin(d, OrgDeleted(d, gone), org, u);
  }

  lemma CreatingKeepsLed(d: Directory, r: Request, org: nat)
    requires HasAdmin(d, org) && Plausible(d, r) && Answer(d, r).Ok?
    requires r.CreateUser? || (r.CreateOrg? && r.org != org)
    ensures HasAdmin(Step(d, r), org)
  {
    OthersStay(d, Step(d, r), org, r.user);
  }

  lemma TakingKeepsLed(d: Directory, r: Request, org: nat)
    requires HasAdmin(d, org) && Answer(d, r).Ok?
    requires (r.PatchRole? && r.role == OrgMember) || r.Disable? || r.Offboard?
    ensures HasAdmin(Step(d, r), org)
  {
    OthersStay(d, Step(d, r), org, r.user);
  }

  /** No request takes the last active administrator from an organization that stays. */
  lemma StepKeepsLed(d: Directory, r: Request, org: nat)
    requires Led(d, org) && Plausible(d, r)
    ensures Led(Step(d, r), org)
  {
    if Answer(d, r).Ok? {
      if r.CreateOrg? && r.org == org {
        assert r.user in ActiveAdmins(Step(d, r), org);
      } else if r.DeleteAccount? {
        DeletionKeepsLed(d, r.user, r.successor, org);
      } else if org in d.orgs {
        if r.DeleteOrg? {
          if r.org != org { DeletingKeepsLed(d, r.org, org); }
        } else if (r.PatchRole? && r.role == OrgAdmin) || r.Enable? {
          RaisingKeepsLed(d, r, org);
        } else if r.CreateUser? || r.CreateOrg? {
          CreatingKeepsLed(d, r, org);
        } else {
          TakingKeepsLed(d, r, org);
        }
      }
    }
  }

  /** Every organization with an active administrator still has one, or is gone. */
  ghost predicate KeepsLed(d: Directory, d': Directory) {
    forall org :: Led(d, org) ==> Led(d', org)
  }

  lemma StepKeepsEveryLed(d: Directory, r: Request)
    requires Plausible(d, r)
    ensures KeepsLed(d, Step(d, r))
  {
    forall org | Led(d, org) ensures Led(Step(d, r), org) {
      StepKeepsLed(d, r, org);
    }
  }

  /** A promoted successor leads the organization of the user who leaves, and no other loses anybody. */
  lemma SuccessionKeepsLed(d: Directory, user: nat, successor: nat, org: nat)
    requires Led(d, org) && user in d.members && successor in ActiveMembers(d, d.members[user].org) - {user}
    ensures Led(Without(WithRole(d, successor, OrgAdmin), user), org)
  {
    var d' := Without(WithRole(d, successor, OrgAdmin), user);
    if org == d.members[user].org {
      assert d'.members[successor] == Member(org, OrgAdmin) && d'.users[successor] == d.users[successor];
      assert successor in ActiveAdmins(d', org);
    } else if org in d.orgs {
      var u :| u in ActiveAdmins(d, org);
      StaysAdmin(d, d', org, u);
    }
  }

  lemma DeletionKeepsLed(d: Directory, user: nat, successor: Option<nat>, org: nat)
    requires Led(d, org) && AccountDeleted(d, user, successor).Ok?
    ensures Led(AccountDeleted(d, user, successor).value, org)
  {
    if !Lone(d, user) {
      if org in d.orgs {
        OthersStay(d, Without(d, user), org, user);
      }
    } else if ActiveMembers(d, d.members[user].org) - {user} == {} {
      if org in d.orgs && org != d.members[user].org {
        DeletingKeepsLed(d, d.members[user].org, org);
      }
    } else {
      SuccessionKeepsLed(d, user, successor.value, org);
    }
  }

  /** An organization with an active administrator keeps one for as long as it exists. */
  lemma {:induction false} RunKeepsLed(d: Directory, requests: seq<Request>, org: nat)
    requires Led(d, org) && PlausibleRun(d, requests)
    ensures Led(Run(d, requests), org)
    decreases |requests|
  {
    if requests != [] {
      RunKeepsLed(d, requests[..|requests| - 1], org);
      StepKeepsLed(Run(d, requests[..|requests| - 1]), requests[|requests| - 1], org);
    }
  }

  lemma OneMore(s: set<nat>, seen: set<nat>, u: nat)
    requires u !in seen
    ensures |s * (seen + {u})| == |s * seen| + (if u in s then 1 else 0)
  {
    assert s * (seen + {u}) == if u in s then s * seen + {u} else s * seen;
  }

  // ------------------------------------------------------------------ the handlers

  /** The tables, changed by the handlers one assignment after another. */
  class Tables {
    var orgs: set<nat>
    var users: map<nat, User>
    var members: map<nat, Member>

    ghost function View(): Directory
      reads this
    {
      Directory(orgs, users, members)
    }

    /** The count behind the guard, row by row. */
    method CountActiveOrgAdmins(org: nat, exclude: nat) returns (count: nat)
      ensures count == |ActiveAdmins(View(), org) - {exclude}|
    {
      var rest := members.Keys;
      ghost var seen: set<nat> := {};
      count := 0;
      ghost var admins := ActiveAdmins(View(), org) - {exclude};
      while rest != {}
        invariant rest !! seen && rest + seen == members.Keys
        invariant count == |admins * seen|
        decreases |rest|
      {
        var u :| u in rest;
        if u != exclude && members[u] == Member(org, OrgAdmin) && u in users && !users[u].disabled {
          count := count + 1;
        }
        OneMore(admins, seen, u);
        rest, seen := rest - {u}, seen + {u};
      }
      assert admins * seen == admins;
    }

    method PatchUserRole(org: nat, user: nat, role: Role) returns (refusal: Option<Refusal>)
      modifies this
      ensures View() == Step(old(View()), PatchRole(org, user, role))
      ensures refusal == Refused(old(View()), PatchRole(org, user, role))
      ensures KeepsLed(old(View()), View())
    {
      StepKeepsEveryLed(View(), PatchRole(org, user, role));
      if user !in members || members[user].org != org || user !in users {
        return Some(NotFound);
      }
      if members[user].role == OrgAdmin && role == OrgMember {
        var others := CountActiveOrgAdmins(org, user);
        if others < 1 {
          return Some(LastOrgAdmin);
        }
      }
      members := members[user := members[user].(role := role)];
      refusal := None;
    }

    method DisableUser(org: nat, user: nat) returns (refusal: Option<Refusal>)
      modifies this
      ensures View() == Step(old(View()), Disable(org, user))
      ensures refusal == Refused(old(View()), Disable(org, user))
      ensures KeepsLed(old(View()), View())
    {
      StepKeepsEveryLed(View(), Disable(org, user));
      if user !in members || members[user].org != org || user !in users {
        return Some(NotFound);
      }
      if members[user].role == OrgAdmin {
        var others := CountActiveOrgAdmins(org, user);
        if others < 1 {
          return Some(LastOrgAdmin);
        }
      }
      users := users[user := users[user].(disabled := true)];
      refusal := None;
    }

    method OffboardUser(org: nat, user: nat, target: Option<nat>) returns (refusal: Option<Refusal>)
      modifies this
      ensures View() == Step(old(View()), Offboard(org, user, target))
      ensures refusal == Refused(old(View()), Offboard(org, user, target))
      ensures KeepsLed(old(View()), View())
    {
      StepKeepsEveryLed(View(), Offboard(org, user, target));
      if user !in members || members[user].org != org || user !in users {
        return Some(NotFound);
      }
      if members[user].role == OrgAdmin {
        var others := CountActiveOrgAdmins(org, user);
        if others < 1 {
          return Some(LastOrgAdmin);
        }
      }
      if target.Some? {
        var t := target.value;
        if t !in members || members[t].org != org || t !in users || users[t].disabled {
          return Some(NotFound);
        }
      }
      members := members - {user};
      users := users - {user};
      refusal := None;
    }

    /** The preview, the promotion and the deletion, in this order. */
    method DeleteUserAccount(user: nat, successor: Option<nat>) returns (refusal: Option<Refusal>)
      requires user in users
      modifies this
      ensures View() == Step(old(View()), DeleteAccount(user, successor))
      ensures refusal == Refused(old(View()), DeleteAccount(user, successor))
      ensures KeepsLed(old(View()), View())
    {
      StepKeepsEveryLed(View(), DeleteAccount(user, successor));
      if user in members && members[user].role == OrgAdmin {
        var org := members[user].org;
        var others := CountActiveOrgAdmins(org, user);
        if others < 1 {
          var candidates := ActiveMembersOf(org) - {user};
          if candidates == {} {
            DeleteOrganization(org);
            return None;
          }
          if successor.None? {
            return Some(SuccessorRequired);
          }
          if successor.value !in candidates {
            return Some(BadSuccessor);
          }
          members := members[successor.value := members[successor.value].(role := OrgAdmin)];
        }
      }
      members := members - {user};
      users := users - {user};
      refusal := None;
    }

    function ActiveMembersOf(org: nat): (active: set<nat>)
      reads this
      ensures active == ActiveMembers(View(), org)
    {
      set u | u in members && members[u].org == org && u in users && !users[u].disabled
    }

    method DeleteOrganization(org: nat)
      modifies this
      ensures View() == OrgDeleted(old(View()), org)
    {
      var gone := set u | u in members && members[u].org == org;
      users := users - gone;
      members := members - gone;
      orgs := orgs - {org};
    }
  }

  function Refused(d: Directory, r: Request): Option<Refusal> {
    match Answer(d, r) case Ok(_) => None case Err(e) => Some(e)
  }
}
