/** Team accounts: records with roles, per-address membership lists, and a bounded index of ids, all
    kept in step by every operation. */
module Teams {
  import opened Common

  /** Members must be Stellar public keys; anything else a caller may send is junk. */
  datatype Address = Key(n: nat) | Junk(n: nat)

  type TeamId = nat

  const MAX_TRACKED_TEAMS := 5_000
  const MAX_TEAM_MEMBERS := 100
  const MAX_TEAMS_PER_ADDRESS := 20
  const MAX_TEAM_NAME_LENGTH := 80

  datatype Role = Owner | Admin | Plain

  datatype Member = Member(address: Address, role: Role)

  datatype Team = Team(name: string, members: seq<Member>)

  type Lists = map<Address, seq<TeamId>>

  datatype State = State(teams: map<TeamId, Team>, lists: Lists, index: seq<TeamId>)

  datatype Error =
    | BadAddress | BadName | BadRole | NoSuchTeam | Forbidden(required: Role) | NoMembers | TeamFull
    | AddressFull | NotAMember | OwnRole | OwnerStays

  function Rank(r: Role): nat { match r case Owner => 3 case Admin => 2 case Plain => 1 }

  // ---- Reading -----------------------------------------------------------------------------------

  function RoleOf(ms: seq<Member>, a: Address): Option<Role> {
    if ms == [] then None else if ms[0].address == a then Some(ms[0].role) else RoleOf(ms[1..], a)
  }

  predicate HasRole(ms: seq<Member>, a: Address, min: Role) {
    RoleOf(ms, a).Some? && Rank(RoleOf(ms, a).value) >= Rank(min)
  }

  function ListOf(lists: Lists, a: Address): seq<TeamId> { if a in lists then lists[a] else [] }

  /** What requireTeamRole throws: to outsiders a team they are not in does not exist. */
  function RoleError(s: State, id: TeamId, actor: Address, min: Role): Option<Error> {
    if id !in s.teams || RoleOf(s.teams[id].members, actor).None? then Some(NoSuchTeam)
    else if !HasRole(s.teams[id].members, actor, min) then Some(Forbidden(min))
    else None
  }

  function NameError(name: string): Option<Error> {
    if name == "" || |name| > MAX_TEAM_NAME_LENGTH then Some(BadName) else None
  }

  // ---- Writing -----------------------------------------------------------------------------------

  function Filter(ids: seq<TeamId>, id: TeamId): seq<TeamId> {
    if ids == [] then [] else (if ids[0] == id then [] else [ids[0]]) + Filter(ids[1..], id)
  }

  function Joined(lists: Lists, a: Address, id: TeamId): Lists {
    if id in ListOf(lists, a) then lists else lists[a := [id] + ListOf(lists, a)]
  }

  function Left(lists: Lists, a: Address, id: TeamId): Lists {
    var next := Filter(ListOf(lists, a), id);
    if |next| == |ListOf(lists, a)| then lists
    else if next == [] then lists - {a}
    else lists[a := next]
  }

  function AllJoined(lists: Lists, who: seq<Address>, id: TeamId): Lists {
    if who == [] then lists else Joined(AllJoined(lists, who[..|who| - 1], id), who[|who| - 1], id)
  }

  function AllLeft(lists: Lists, ms: seq<Member>, id: TeamId): Lists {
    if ms == [] then lists else Left(AllLeft(lists, ms[..|ms| - 1], id), ms[|ms| - 1].address, id)
  }

  /** The new addresses of a request, each once, in order of first mention. */
  function Additions(ms: seq<Member>, who: seq<Address>): seq<Address> {
    if who == [] then []
    else
      var prior, a := Additions(ms, who[..|who| - 1]), who[|who| - 1];
      if a in prior || RoleOf(ms, a).Some? then prior else prior + [a]
  }

  function WithRole(who: seq<Address>, role: Role): seq<Member> {
    seq(|who|, i requires 0 <= i < |who| => Member(who[i], role))
  }

  function SetRole(ms: seq<Member>, a: Address, role: Role): seq<Member> {
    if ms == [] then []
    else if ms[0].address == a then [Member(a, role)] + ms[1..]
    else [ms[0]] + SetRole(ms[1..], a, role)
  }

  function Dismissed(ms: seq<Member>, a: Address): seq<Member> {
    if ms == [] then [] else (if ms[0].address == a then [] else [ms[0]]) + Dismissed(ms[1..], a)
  }

  function Take(ids: seq<TeamId>, n: nat): seq<TeamId> { if |ids| <= n then ids else ids[..n] }

  // ---- The operations ----------------------------------------------------------------------------

  function CreateOn(s: State, owner: Address, name: string, id: TeamId): Result<State, Error> {
    if !owner.Key? then Err(BadAddress)
    else if NameError(name).Some? then Err(NameError(name).value)
    else if |ListOf(s.lists, owner)| >= MAX_TEAMS_PER_ADDRESS then Err(AddressFull)
    else Ok(State(s.teams[id := Team(name, [Member(owner, Owner)])], Joined(s.lists, owner, id),
                  Take([id] + s.index, MAX_TRACKED_TEAMS)))
  }

  function RenameOn(s: State, id: TeamId, actor: Address, name: string): Result<State, Error> {
    if RoleError(s, id, actor, Admin).Some? then Err(RoleError(s, id, actor, Admin).value)
    else if NameError(name).Some? then Err(NameError(name).value)
    else Ok(s.(teams := s.teams[id := s.teams[id].(name := name)]))
  }

  function AddOn(s: State, id: TeamId, actor: Address, who: seq<Address>, role: Role): Result<State, Error> {
    var min := if role.Admin? then Owner else Admin;
    if role.Owner? then Err(BadRole)
    else if RoleError(s, id, actor, min).Some? then Err(RoleError(s, id, actor, min).value)
    else if who == [] then Err(NoMembers)
    else if exists a :: a in who && !a.Key? then Err(BadAddress)
    else
      var team := s.teams[id];
      var more := Additions(team.members, who);
      if |team.members| + |more| > MAX_TEAM_MEMBERS then Err(TeamFull)
      else if exists a :: a in more && |ListOf(s.lists, a)| >= MAX_TEAMS_PER_ADDRESS then Err(AddressFull)
      else Ok(s.(teams := s.teams[id := team.(members := team.members + WithRole(more, role))],
                 lists := AllJoined(s.lists, more, id)))
  }

  function SetRoleOn(s: State, id: TeamId, actor: Address, target: Address, role: Role): Result<State, Error> {
    if RoleError(s, id, actor, Owner).Some? then Err(RoleError(s, id, actor, Owner).value)
    else
      var team := s.teams[id];
      if RoleOf(team.members, target).None? then Err(NotAMember)
      else if target == actor then Err(OwnRole)
      else
        var demoted := if role.Owner? then SetRole(team.members, actor, Admin) else team.members;
        Ok(s.(teams := s.teams[id := team.(members := SetRole(demoted, target, role))]))
  }

  function RemoveOn(s: State, id: TeamId, actor: Address, target: Address): Result<State, Error> {
    if RoleError(s, id, actor, Plain).Some? then Err(RoleError(s, id, actor, Plain).value)
    else
      var team := s.teams[id];
      var role := RoleOf(team.members, target);
      if role.None? then Err(NotAMember)
      else if role.value.Owner? then Err(OwnerStays)
      else
        var required := if role.value.Admin? then Owner else Admin;
        if target != actor && !HasRole(team.members, actor, required) then Err(Forbidden(required))
        else Ok(s.(teams := s.teams[id := team.(members := Dismissed(team.members, target))],
                   lists := Left(s.lists, target, id)))
  }

  function DeleteOn(s: State, id: TeamId, actor: Address): Result<State, Error> {
    if RoleError(s, id, actor, Owner).Some? then Err(RoleError(s, id, actor, Owner).value)
    else Ok(State(s.teams - {id}, AllLeft(s.lists, s.teams[id].members, id), Filter(s.index, id)))
  }

  datatype Op =
    | Create(owner: Address, name: string, id: TeamId)
    | Rename(id: TeamId, actor: Address, name: string)
    | Add(id: TeamId, actor: Address, who: seq<Address>, role: Role)
    | ChangeRole(id: TeamId, actor: Address, target: Address, role: Role)
    | Remove(id: TeamId, actor: Address, target: Address)
    | Delete(id: TeamId, actor: Address)

  function Outcome(s: State, op: Op): Result<State, Error> {
    match op
    case Create(owner, name, id) => CreateOn(s, owner, name, id)
    case Rename(id, actor, name) => RenameOn(s, id, actor, name)
    case Add(id, actor, who, role) => AddOn(s, id, actor, who, role)
    case ChangeRole(id, actor, target, role) => SetRoleOn(s, id, actor, target, role)
    case Remove(id, actor, target) => RemoveOn(s, id, actor, target)
    case Delete(id, actor) => DeleteOn(s, id, actor)
  }

  /** A created team's id is a fresh random one. */
  predicate Possible(s: State, op: Op) { op.Create? ==> op.id !in s.teams }

  function Next(s: State, op: Op): State {
    match Outcome(s, op)
    case Ok(t) => t
    case Err(_) => s
  }

  // ---- Invariant ---------------------------------------------------------------------------------

  predicate DistinctMembers(ms: seq<Member>) { forall i, j :: 0 <= i < j < |ms| ==> ms[i].address != ms[j].address }

  /** `a` holds the owner role, and nobody else does. */
  ghost predicate OwnedBy(ms: seq<Member>, a: Address) { forall b :: RoleOf(ms, b) == Some(Owner) <==> b == a }

  ghost predicate OneOwner(ms: seq<Member>) { exists a :: OwnedBy(ms, a) }

  ghost predicate TeamOk(t: Team) {
    && DistinctMembers(t.members) && OneOwner(t.members) && |t.members| <= MAX_TEAM_MEMBERS
    && (forall m :: m in t.members ==> m.address.Key?)
    && NameError(t.name).None?
  }

  predicate IsMember(s: State, id: TeamId, a: Address) { id in s.teams && RoleOf(s.teams[id].members, a).Some? }

  predicate DistinctIds(ids: seq<TeamId>) { forall i, j :: 0 <= i < j < |ids| ==> ids[i] != ids[j] }

  ghost predicate TeamsOk(s: State) { forall id :: id in s.teams ==> TeamOk(s.teams[id]) }

  /** An address's list: distinct ids, at most the cap, exactly the teams that have it as a member. */
  ghost predicate ListOk(s: State, a: Address) {
    && DistinctIds(ListOf(s.lists, a)) && |ListOf(s.lists, a)| <= MAX_TEAMS_PER_ADDRESS
    && forall id :: id in ListOf(s.lists, a) <==> IsMember(s, id, a)
  }

  ghost predicate IndexOk(s: State) {
    DistinctIds(s.index) && |s.index| <= MAX_TRACKED_TEAMS && forall id :: id in s.index ==> id in s.teams
  }

  ghost predicate Inv(s: State) { TeamsOk(s) && (forall a :: ListOk(s, a)) && IndexOk(s) }

  // ---- Member lists ------------------------------------------------------------------------------

  lemma {:induction false} RoleFound(ms: seq<Member>, a: Address)
    ensures RoleOf(ms, a).Some? <==> exists i :: 0 <= i < |ms| && ms[i].address == a
    decreases |ms|
  {
    if ms != [] {
      RoleFound(ms[1..], a);
      if i :| 0 <= i < |ms| && ms[i].address == a { if i > 0 { assert ms[1..][i - 1] == ms[i]; } }
      if i :| 0 <= i < |ms[1..]| && ms[1..][i].address == a { assert ms[i + 1].address == a; }
    }
  }

  lemma {:induction false} RoleAt(ms: seq<Member>, i: nat)
    requires DistinctMembers(ms) && i < |ms|
    ensures RoleOf(ms, ms[i].address) == Some(ms[i].role)
    decreases |ms|
  {
    if i > 0 {
      assert ms[0].address != ms[i].address;
      RoleAt(ms[1..], i - 1);
    }
  }

  lemma {:induction false} RoleAppended(ms: seq<Member>, who: seq<Address>, role: Role, a: Address)
    ensures RoleOf(ms + WithRole(who, role), a) ==
      if RoleOf(ms, a).Some? then RoleOf(ms, a) else if a in who then Some(role) else None
    decreases |ms|, |who|
  {
    var all := ms + WithRole(who, role);
    if ms != [] {
      assert all[1..] == ms[1..] + WithRole(who, role);
      RoleAppended(ms[1..], who, role, a);
    } else {
      assert all == WithRole(who, role);
      if who != [] {
        assert WithRole(who, role)[1..] == [] + WithRole(who[1..], role);
        RoleAppended([], who[1..], role, a);
        assert who == [who[0]] + who[1..];
      }
    }
  }

  lemma {:induction false} RoleChanged(ms: seq<Member>, a: Address, role: Role, b: Address)
    ensures RoleOf(SetRole(ms, a, role), b) == if b == a && RoleOf(ms, a).Some? then Some(role) else RoleOf(ms, b)
    decreases |ms|
  {
    if ms != [] {
      if ms[0].address == a {
        assert ([Member(a, role)] + ms[1..])[1..] == ms[1..];
      } else {
        RoleChanged(ms[1..], a, role, b);
      }
    }
  }

  lemma {:induction false} SetRoleKeeps(ms: seq<Member>, a: Address, role: Role)
    ensures |SetRole(ms, a, role)| == |ms|
    ensures forall i :: 0 <= i < |ms| ==> SetRole(ms, a, role)[i].address == ms[i].address
    decreases |ms|
  {
    if ms != [] && ms[0].address != a { SetRoleKeeps(ms[1..], a, role); }
  }

  lemma {:induction false} RoleDismissed(ms: seq<Member>, a: Address, b: Address)
    ensures RoleOf(Dismissed(ms, a), b) == if b == a then None else RoleOf(ms, b)
    decreases |ms|
  {
    if ms != [] {
      RoleDismissed(ms[1..], a, b);
      if ms[0].address != a { assert Dismissed(ms, a)[1..] == Dismissed(ms[1..], a); }
      else { assert Dismissed(ms, a) == Dismissed(ms[1..], a); }
    }
  }

  lemma {:induction false} DismissedKeeps(ms: seq<Member>, a: Address)
    requires DistinctMembers(ms)
    ensures DistinctMembers(Dismissed(ms, a)) && |Dismissed(ms, a)| <= |ms|
    ensures forall m :: m in Dismissed(ms, a) ==> m in ms
    decreases |ms|
  {
    if ms != [] {
      DismissedKeeps(ms[1..], a);
      assert ms == [ms[0]] + ms[1..];
      var rest := Dismissed(ms[1..], a);
      forall m | m in rest ensures m.address != ms[0].address {
        var i :| 0 <= i < |ms[1..]| && ms[1..][i] == m;
        assert ms[i + 1] == m;
      }
    }
  }

  lemma {:induction false} AdditionsAre(ms: seq<Member>, who: seq<Address>, a: Address)
    ensures a in Additions(ms, who) <==> a in who && RoleOf(ms, a).None?
    decreases |who|
  {
    if who != [] {
      AdditionsAre(ms, who[..|who| - 1], a);
      assert who == who[..|who| - 1] + [who[|who| - 1]];
    }
  }

  predicate Distinct(who: seq<Address>) { forall i, j :: 0 <= i < j < |who| ==> who[i] != who[j] }

  lemma {:induction false} AdditionsDistinct(ms: seq<Member>, who: seq<Address>)
    ensures Distinct(Additions(ms, who))
    decreases |who|
  {
    if who != [] { AdditionsDistinct(ms, who[..|who| - 1]); }
  }

  // ---- Membership lists --------------------------------------------------------------------------

  lemma {:induction false} Filtered(ids: seq<TeamId>, id: TeamId, x: TeamId)
    ensures x in Filter(ids, id) <==> x in ids && x != id
    ensures |Filter(ids, id)| <= |ids|
    ensures id !in ids ==> Filter(ids, id) == ids
    ensures |Filter(ids, id)| == |ids| ==> Filter(ids, id) == ids
    decreases |ids|
  {
    if ids != [] {
      Filtered(ids[1..], id, x);
      assert ids == [ids[0]] + ids[1..];
    }
  }

  lemma {:induction false} FilterDistinct(ids: seq<TeamId>, id: TeamId)
    requires DistinctIds(ids)
    ensures DistinctIds(Filter(ids, id))
    decreases |ids|
  {
    if ids != [] {
      FilterDistinct(ids[1..], id);
      var rest := Filter(ids[1..], id);
      forall j | 0 <= j < |rest| ensures rest[j] != ids[0] {
        var x := rest[j];
        assert x in rest;
        Filtered(ids[1..], id, x);
        var i :| 0 <= i < |ids[1..]| && ids[1..][i] == x;
        assert ids[i + 1] == x;
      }
    }
  }

  lemma LeftList(lists: Lists, a: Address, id: TeamId, b: Address)
    ensures ListOf(Left(lists, a, id), b) == if b == a then Filter(ListOf(lists, a), id) else ListOf(lists, b)
  {
    Filtered(ListOf(lists, a), id, id);
  }

  predicate Mentions(ms: seq<Member>, a: Address) { exists m :: m in ms && m.address == a }

  lemma {:induction false} AllLeftList(lists: Lists, ms: seq<Member>, id: TeamId, b: Address)
    ensures ListOf(AllLeft(lists, ms, id), b) ==
      if Mentions(ms, b) then Filter(ListOf(lists, b), id) else ListOf(lists, b)
    decreases |ms|
  {
    if ms != [] {
      var k := |ms| - 1;
      AllLeftList(lists, ms[..k], id, b);
      LeftList(AllLeft(lists, ms[..k], id), ms[k].address, id, b);
      assert ms == ms[..k] + [ms[k]];
      assert Mentions(ms, b) <==> Mentions(ms[..k], b) || ms[k].address == b;
      Filtered(ListOf(lists, b), id, id);
      Filtered(Filter(ListOf(lists, b), id), id, id);
    }
  }

  lemma {:induction false} AllJoinedList(lists: Lists, who: seq<Address>, id: TeamId, b: Address)
    requires Distinct(who) && (b in who ==> id !in ListOf(lists, b))
    ensures ListOf(AllJoined(lists, who, id), b) == if b in who then [id] + ListOf(lists, b) else ListOf(lists, b)
    decreases |who|
  {
    if who != [] {
      var k := |who| - 1;
      assert who == who[..k] + [who[k]];
      AllJoinedList(lists, who[..k], id, b);
      assert b in who[..k] ==> b != who[k];
    }
  }

  // ---- Every operation keeps the invariant -------------------------------------------------------

  /** What one team looks like to every address. */
  lemma ListUpdated(s: State, t: State, a: Address, id: TeamId)
    requires ListOk(s, a) && (forall x :: x != id ==> (x in t.teams <==> x in s.teams))
    requires forall x :: x != id && x in s.teams ==> t.teams[x].members == s.teams[x].members
    requires if IsMember(t, id, a) == IsMember(s, id, a) then ListOf(t.lists, a) == ListOf(s.lists, a)
             else if IsMember(t, id, a) then
               ListOf(t.lists, a) == [id] + ListOf(s.lists, a) && |ListOf(s.lists, a)| < MAX_TEAMS_PER_ADDRESS
             else ListOf(t.lists, a) == Filter(ListOf(s.lists, a), id)
    ensures ListOk(t, a)
  {
    var was, now := ListOf(s.lists, a), ListOf(t.lists, a);
    assert forall x :: x != id ==> (IsMember(t, x, a) <==> IsMember(s, x, a));
    if IsMember(t, id, a) == IsMember(s, id, a) {
    } else if IsMember(t, id, a) {
      assert id !in was;
      forall x ensures x in now <==> x == id || x in was {}
    } else {
      FilterDistinct(was, id);
      forall x ensures x in now <==> x in was && x != id { Filtered(was, id, x); }
      Filtered(was, id, id);
    }
  }

  lemma TeamUpdated(s: State, t: State, id: TeamId)
    requires TeamsOk(s) && (id in t.teams ==> TeamOk(t.teams[id]))
    requires forall x :: x != id && x in t.teams ==> x in s.teams && t.teams[x] == s.teams[x]
    ensures TeamsOk(t)
  {}

  lemma Founded(name: string, owner: Address)
    requires owner.Key? && NameError(name).None?
    ensures TeamOk(Team(name, [Member(owner, Owner)]))
    ensures forall b :: RoleOf([Member(owner, Owner)], b) == if b == owner then Some(Owner) else None
  {
    assert forall b :: RoleOf([Member(owner, Owner)], b) == if b == owner then Some(Owner) else None;
    assert OwnedBy([Member(owner, Owner)], owner);
  }

  lemma CreateKeeps(s: State, owner: Address, name: string, id: TeamId)
    requires Inv(s) && id !in s.teams && CreateOn(s, owner, name, id).Ok?
    ensures Inv(CreateOn(s, owner, name, id).value)
  {
    var t := CreateOn(s, owner, name, id).value;
    Founded(name, owner);
    TeamUpdated(s, t, id);
    forall a ensures ListOk(t, a) {
      assert ListOk(s, a);
      assert id !in ListOf(s.lists, a);
      ListUpdated(s, t, a, id);
    }
    IndexGrows(s.index, id);
  }

  lemma IndexGrows(ids: seq<TeamId>, id: TeamId)
    requires DistinctIds(ids) && id !in ids
    ensures var more := Take([id] + ids, MAX_TRACKED_TEAMS);
      DistinctIds(more) && |more| <= MAX_TRACKED_TEAMS && forall x :: x in more ==> x == id || x in ids
  {
    var more := Take([id] + ids, MAX_TRACKED_TEAMS);
    forall j | 0 <= j < |ids| ensures ids[j] != id { var x := ids[j]; assert x in ids; }
    forall x | x in more ensures x == id || x in ids {
      var i :| 0 <= i < |more| && more[i] == x;
      assert ([id] + ids)[i] == x;
    }
  }

  /** A team whose members changed so that it stays sound, with the lists changed to match. */
  lemma ReshapeKeeps(s: State, t: State, id: TeamId)
    requires Inv(s) && id in s.teams && id in t.teams && t.teams == s.teams[id := t.teams[id]] && t.index == s.index
    requires TeamOk(t.teams[id])
    requires forall a ::
      if IsMember(t, id, a) == IsMember(s, id, a) then ListOf(t.lists, a) == ListOf(s.lists, a)
      else if IsMember(t, id, a) then
        ListOf(t.lists, a) == [id] + ListOf(s.lists, a) && |ListOf(s.lists, a)| < MAX_TEAMS_PER_ADDRESS
      else ListOf(t.lists, a) == Filter(ListOf(s.lists, a), id)
    ensures Inv(t)
  {
    TeamUpdated(s, t, id);
    forall a ensures ListOk(t, a) {
      assert ListOk(s, a);
      ListUpdated(s, t, a, id);
    }
  }

  lemma RenameKeeps(s: State, id: TeamId, actor: Address, name: string)
    requires Inv(s) && RenameOn(s, id, actor, name).Ok?
    ensures Inv(RenameOn(s, id, actor, name).value)
  {
    assert TeamOk(s.teams[id]);
    ReshapeKeeps(s, RenameOn(s, id, actor, name).value, id);
  }

  lemma AddedTeam(team: Team, more: seq<Address>, role: Role)
    requires TeamOk(team) && !role.Owner? && Distinct(more) && |team.members| + |more| <= MAX_TEAM_MEMBERS
    requires forall a :: a in more ==> a.Key? && RoleOf(team.members, a).None?
    ensures TeamOk(team.(members := team.members + WithRole(more, role)))
  {
    var all := team.members + WithRole(more, role);
    forall i, j | 0 <= i < j < |all| ensures all[i].address != all[j].address {
      if i < |team.members| <= j { RoleAt(team.members, i); assert all[j].address in more; }
    }
    var o :| OwnedBy(team.members, o);
    forall b ensures RoleOf(all, b) == Some(Owner) <==> b == o { RoleAppended(team.members, more, role, b); }
    assert OwnedBy(all, o);
    forall m | m in all ensures m.address.Key? {
      var i :| 0 <= i < |all| && all[i] == m;
      if i < |team.members| { assert m in team.members; } else { assert m.address in more; }
    }
  }

  lemma AddKeeps(s: State, id: TeamId, actor: Address, who: seq<Address>, role: Role)
    requires Inv(s) && AddOn(s, id, actor, who, role).Ok?
    ensures Inv(AddOn(s, id, actor, who, role).value)
  {
    var t, team := AddOn(s, id, actor, who, role).value, s.teams[id];
    var more := Additions(team.members, who);
    forall a ensures a in more <==> a in who && RoleOf(team.members, a).None? { AdditionsAre(team.members, who, a); }
    AdditionsDistinct(team.members, who);
    hide Additions, AllJoined, RoleOf, TeamOk;
    AddedTeam(team, more, role);
    forall a ensures
      if IsMember(t, id, a) == IsMember(s, id, a) then ListOf(t.lists, a) == ListOf(s.lists, a)
      else IsMember(t, id, a) && ListOf(t.lists, a) == [id] + ListOf(s.lists, a)
           && |ListOf(s.lists, a)| < MAX_TEAMS_PER_ADDRESS {
      RoleAppended(team.members, more, role, a);
      assert ListOk(s, a);
      AllJoinedList(s.lists, more, id, a);
    }
    ReshapeKeeps(s, t, id);
  }

  lemma ChangedTeam(team: Team, actor: Address, target: Address, role: Role)
    requires TeamOk(team) && RoleOf(team.members, actor) == Some(Owner) && target != actor
    requires RoleOf(team.members, target).Some?
    ensures var demoted := if role.Owner? then SetRole(team.members, actor, Admin) else team.members;
      && TeamOk(team.(members := SetRole(demoted, target, role)))
      && forall b :: RoleOf(SetRole(demoted, target, role), b).Some? <==> RoleOf(team.members, b).Some?
  {
    var ms := team.members;
    var demoted := if role.Owner? then SetRole(ms, actor, Admin) else ms;
    var all := SetRole(demoted, target, role);
    SetRoleKeeps(ms, actor, Admin);
    SetRoleKeeps(demoted, target, role);
    var o :| OwnedBy(ms, o);
    forall b ensures (RoleOf(all, b).Some? <==> RoleOf(ms, b).Some?)
                     && (RoleOf(all, b) == Some(Owner) <==> b == if role.Owner? then target else actor) {
      RoleChanged(ms, actor, Admin, b);
      RoleChanged(demoted, target, role, b);
      RoleChanged(ms, actor, Admin, target);
      assert RoleOf(ms, b) == Some(Owner) <==> b == o;
      assert RoleOf(ms, actor) == Some(Owner) <==> actor == o;
    }
    assert OwnedBy(all, if role.Owner? then target else actor);
    forall m | m in all ensures m.address.Key? {
      var i :| 0 <= i < |all| && all[i] == m;
      assert ms[i] in ms;
    }
  }

  lemma SetRoleInv(s: State, id: TeamId, actor: Address, target: Address, role: Role)
    requires Inv(s) && SetRoleOn(s, id, actor, target, role).Ok?
    ensures Inv(SetRoleOn(s, id, actor, target, role).value)
  {
    var t := SetRoleOn(s, id, actor, target, role).value;
    ChangedTeam(s.teams[id], actor, target, role);
    ReshapeKeeps(s, t, id);
  }

  lemma DismissedTeam(team: Team, target: Address)
    requires TeamOk(team) && RoleOf(team.members, target).Some? && RoleOf(team.members, target) != Some(Owner)
    ensures TeamOk(team.(members := Dismissed(team.members, target)))
  {
    var ms := team.members;
    DismissedKeeps(ms, target);
    var o :| OwnedBy(ms, o);
    forall b ensures RoleOf(Dismissed(ms, target), b) == Some(Owner) <==> b == o { RoleDismissed(ms, target, b); }
    assert OwnedBy(Dismissed(ms, target), o);
  }

  lemma RemoveKeeps(s: State, id: TeamId, actor: Address, target: Address)
    requires Inv(s) && RemoveOn(s, id, actor, target).Ok?
    ensures Inv(RemoveOn(s, id, actor, target).value)
  {
    var t, team := RemoveOn(s, id, actor, target).value, s.teams[id];
    hide Left, TeamOk, Dismissed;
    DismissedTeam(team, target);
    forall a ensures
      if IsMember(t, id, a) == IsMember(s, id, a) then ListOf(t.lists, a) == ListOf(s.lists, a)
      else !IsMember(t, id, a) && ListOf(t.lists, a) == Filter(ListOf(s.lists, a), id) {
      RoleDismissed(team.members, target, a);
      LeftList(s.lists, target, id, a);
    }
    ReshapeKeeps(s, t, id);
  }

  lemma DeleteKeeps(s: State, id: TeamId, actor: Address)
    requires Inv(s) && DeleteOn(s, id, actor).Ok?
    ensures Inv(DeleteOn(s, id, actor).value)
  {
    var t, ms := DeleteOn(s, id, actor).value, s.teams[id].members;
    TeamUpdated(s, t, id);
    forall a ensures ListOk(t, a) {
      assert ListOk(s, a);
      AllLeftList(s.lists, ms, id, a);
      RoleFound(ms, a);
      MentionsIsFound(ms, a);
      ListUpdated(s, t, a, id);
    }
    FilterDistinct(s.index, id);
    Filtered(s.index, id, id);
    forall x | x in t.index ensures x in t.teams { Filtered(s.index, id, x); }
  }

  lemma MentionsIsFound(ms: seq<Member>, a: Address)
    ensures Mentions(ms, a) <==> exists i :: 0 <= i < |ms| && ms[i].address == a
  {
    if Mentions(ms, a) {
      var m :| m in ms && m.address == a;
      var i :| 0 <= i < |ms| && ms[i] == m;
    }
    if i :| 0 <= i < |ms| && ms[i].address == a { assert ms[i] in ms; }
  }

  lemma OpKeeps(s: State, op: Op)
    requires Inv(s) && Possible(s, op)
    ensures Inv(Next(s, op))
  {
    hide Inv;
    match op
    case Create(owner, name, id) => if CreateOn(s, owner, name, id).Ok? { CreateKeeps(s, owner, name, id); }
    case Rename(id, actor, name) => if RenameOn(s, id, actor, name).Ok? { RenameKeeps(s, id, actor, name); }
    case Add(id, actor, who, role) => if AddOn(s, id, actor, who, role).Ok? { AddKeeps(s, id, actor, who, role); }
    case ChangeRole(id, actor, target, role) =>
      if SetRoleOn(s, id, actor, target, role).Ok? { SetRoleInv(s, id, actor, target, role); }
    case Remove(id, actor, target) => if RemoveOn(s, id, actor, target).Ok? { RemoveKeeps(s, id, actor, target); }
    case Delete(id, actor) => if DeleteOn(s, id, actor).Ok? { DeleteKeeps(s, id, actor); }
  }

  // ---- Runs --------------------------------------------------------------------------------------

  function Exec(ops: seq<Op>): State
    decreases |ops|
  {
    if ops == [] then State(map[], map[], []) else Next(Exec(ops[..|ops| - 1]), ops[|ops| - 1])
  }

  /** Every create drew an id no existing team has. */
  predicate FreshIds(ops: seq<Op>)
    decreases |ops|
  {
    ops == [] || (FreshIds(ops[..|ops| - 1]) && Possible(Exec(ops[..|ops| - 1]), ops[|ops| - 1]))
  }

  /** After any sequence of operations every team has exactly one owner, distinct members and no more
      than its cap, every address is within its own cap, and the lists of addresses and the records
      of teams say the same. */
  lemma {:induction false} TeamsStayInStep(ops: seq<Op>)
    requires FreshIds(ops)
    ensures Inv(Exec(ops))
    decreases |ops|
  {
    if ops != [] {
      TeamsStayInStep(ops[..|ops| - 1]);
      OpKeeps(Exec(ops[..|ops| - 1]), ops[|ops| - 1]);
    }
  }

  /** The teams of an address, by definition. */
  function TeamsFor(s: State, ids: seq<TeamId>, a: Address): seq<TeamId> {
    if ids == [] then [] else (if IsMember(s, ids[0], a) then [ids[0]] else []) + TeamsFor(s, ids[1..], a)
  }

  lemma {:induction false} TeamsForAll(s: State, ids: seq<TeamId>, a: Address)
    requires forall i :: 0 <= i < |ids| ==> IsMember(s, ids[i], a)
    ensures TeamsFor(s, ids, a) == ids
    decreases |ids|
  {
    if ids != [] { TeamsForAll(s, ids[1..], a); }
  }

  /** After any run, listing an address's teams drops nothing from its stored list, and lists exactly
      the teams that have it as a member, each once. */
  lemma ListingIsExact(ops: seq<Op>, a: Address, id: TeamId)
    requires FreshIds(ops)
    ensures var s := Exec(ops);
      && var listed := TeamsFor(s, ListOf(s.lists, a), a);
         listed == ListOf(s.lists, a) && DistinctIds(listed) && (id in listed <==> IsMember(s, id, a))
  {
    TeamsStayInStep(ops);
    hide Exec, FreshIds;
    var s := Exec(ops);
    assert ListOk(s, a);
    var ids := ListOf(s.lists, a);
    forall i | 0 <= i < |ids| ensures IsMember(s, ids[i], a) { var x := ids[i]; assert x in ids; }
    TeamsForAll(s, ids, a);
  }

  /** Ownership passes only by the owner's own hand: whatever one operation does, a team that still
      exists has the owner it had, unless that owner named the new one, and then stays on as admin. */
  lemma OwnershipPasses(s: State, op: Op, id: TeamId, was: Address, now: Address)
    requires Inv(s) && Possible(s, op) && id in s.teams && id in Next(s, op).teams
    requires OwnedBy(s.teams[id].members, was) && OwnedBy(Next(s, op).teams[id].members, now) && now != was
    ensures op == ChangeRole(id, was, now, Owner)
    ensures RoleOf(Next(s, op).teams[id].members, was) == Some(Admin)
  {
    var ms, t := s.teams[id].members, Next(s, op);
    assert RoleOf(ms, was) == Some(Owner) && RoleOf(ms, now) != Some(Owner);
    assert RoleOf(t.teams[id].members, was) != Some(Owner) && RoleOf(t.teams[id].members, now) == Some(Owner);
    assert t.teams[id] != s.teams[id];
    match op
    case Add(_, _, who, role) => RoleAppended(ms, Additions(ms, who), role, now);
    case Remove(_, _, target) => RoleDismissed(ms, target, now);
    case ChangeRole(_, actor, target, role) =>
      assert actor == was by { assert RoleOf(ms, actor) == Some(Owner); }
      RoleChanged(ms, actor, Admin, now);
      RoleChanged(ms, actor, Admin, was);
      var demoted := if role.Owner? then SetRole(ms, actor, Admin) else ms;
      RoleChanged(demoted, target, role, now);
      RoleChanged(demoted, target, role, was);
    case _ =>
  }

  // ---- The store-backed operations ---------------------------------------------------------------

  class TeamStore {
    var teams: map<TeamId, Team>
    var lists: Lists
    var index: seq<TeamId>

    constructor ()
      ensures View() == State(map[], map[], []) && Inv(View())
    {
      teams, lists, index := map[], map[], [];
    }

    function View(): State
      reads this
    {
      State(teams, lists, index)
    }

    method AddMembership(a: Address, id: TeamId) returns (ok: bool)
      modifies this`lists
      ensures ok <==> id in ListOf(old(lists), a) || |ListOf(old(lists), a)| < MAX_TEAMS_PER_ADDRESS
      ensures lists == if ok then Joined(old(lists), a, id) else old(lists)
    {
      var existing := ListOf(lists, a);
      if id in existing { return true; }
      if |existing| >= MAX_TEAMS_PER_ADDRESS { return false; }
      lists := lists[a := [id] + existing];
      return true;
    }

    method RemoveMembership(a: Address, id: TeamId)
      modifies this`lists
      ensures lists == Left(old(lists), a, id)
    {
      var existing := ListOf(lists, a);
      var next := Filter(existing, id);
      if |next| == |existing| { return; }
      if |next| == 0 { lists := lists - {a}; } else { lists := lists[a := next]; }
    }

    method CreateTeam(owner: Address, name: string, id: TeamId) returns (error: Option<Error>)
      requires Inv(View()) && id !in teams
      modifies this
      ensures Inv(View()) && View() == Next(old(View()), Create(owner, name, id))
      ensures (error.None? <==> CreateOn(old(View()), owner, name, id).Ok?)
              && (error.Some? ==> Err(error.value) == CreateOn(old(View()), owner, name, id))
    {
      OpKeeps(View(), Create(owner, name, id));
      assert ListOk(View(), owner);
      assert id !in ListOf(lists, owner);
      hide Inv;
      if !owner.Key? { return Some(BadAddress); }
      if NameError(name).Some? { return NameError(name); }
      var ok := AddMembership(owner, id);
      if !ok { return Some(AddressFull); }
      teams := teams[id := Team(name, [Member(owner, Owner)])];
      index := Take([id] + index, MAX_TRACKED_TEAMS);
      return None;
    }

    method RenameTeam(id: TeamId, actor: Address, name: string) returns (error: Option<Error>)
      requires Inv(View())
      modifies this
      ensures Inv(View()) && View() == Next(old(View()), Rename(id, actor, name))
      ensures (error.None? <==> RenameOn(old(View()), id, actor, name).Ok?)
              && (error.Some? ==> Err(error.value) == RenameOn(old(View()), id, actor, name))
    {
      OpKeeps(View(), Rename(id, actor, name));
      hide Inv;
      var refusal := RoleError(View(), id, actor, Admin);
      if refusal.Some? { return refusal; }
      if NameError(name).Some? { return NameError(name); }
      teams := teams[id := teams[id].(name := name)];
      return None;
    }

    /** All or nothing: the caps are checked for every address before the first write, so no write can
        fail half way. */
    method AddMembers(id: TeamId, actor: Address, who: seq<Address>, role: Role) returns (error: Option<Error>)
      requires Inv(View())
      modifies this
      ensures Inv(View()) && View() == Next(old(View()), Add(id, actor, who, role))
      ensures (error.None? <==> AddOn(old(View()), id, actor, who, role).Ok?)
              && (error.Some? ==> Err(error.value) == AddOn(old(View()), id, actor, who, role))
    {
      hide Inv, Additions, AllJoined, RoleOf, WithRole, HasRole;
      ghost var before := View();
      OpKeeps(before, Add(id, actor, who, role));
      if role.Owner? { return Some(BadRole); }
      var refusal := RoleError(View(), id, actor, if role.Admin? then Owner else Admin);
      if refusal.Some? { return refusal; }
      if |who| == 0 { return Some(NoMembers); }
      if exists a :: a in who && !a.Key? { return Some(BadAddress); }
      var team := teams[id];
      var additions := Additions(team.members, who);
      if |team.members| + |additions| > MAX_TEAM_MEMBERS { return Some(TeamFull); }
      if exists a :: a in additions && |ListOf(lists, a)| >= MAX_TEAMS_PER_ADDRESS { return Some(AddressFull); }
      AddRoom(before, id, who);
      var members := team.members;
      AllJoinedNone(before.lists, additions, id);
      WithRoleNext(additions, role, 0);
      for i := 0 to |additions|
        invariant teams == before.teams && index == before.index
        invariant lists == AllJoined(before.lists, additions[..i], id)
        invariant members == team.members + WithRole(additions[..i], role)
      {
        AllJoinedNext(before.lists, additions, i, id);
        WithRoleNext(additions, role, i);
        var a := additions[i];
        assert a in additions;
        var ok := AddMembership(a, id);
        members := members + [Member(a, role)];
      }
      assert additions[..|additions|] == additions;
      teams := teams[id := team.(members := members)];
      return None;
    }

    method SetMemberRole(id: TeamId, actor: Address, target: Address, role: Role) returns (error: Option<Error>)
      requires Inv(View())
      modifies this
      ensures Inv(View()) && View() == Next(old(View()), ChangeRole(id, actor, target, role))
      ensures (error.None? <==> SetRoleOn(old(View()), id, actor, target, role).Ok?)
              && (error.Some? ==> Err(error.value) == SetRoleOn(old(View()), id, actor, target, role))
    {
      OpKeeps(View(), ChangeRole(id, actor, target, role));
      hide Inv;
      var refusal := RoleError(View(), id, actor, Owner);
      if refusal.Some? { return refusal; }
      var team := teams[id];
      if RoleOf(team.members, target).None? { return Some(NotAMember); }
      if target == actor { return Some(OwnRole); }
      var members := team.members;
      if role.Owner? { members := SetRole(members, actor, Admin); }
      members := SetRole(members, target, role);
      teams := teams[id := team.(members := members)];
      return None;
    }

    method RemoveMember(id: TeamId, actor: Address, target: Address) returns (error: Option<Error>)
      requires Inv(View())
      modifies this
      ensures Inv(View()) && View() == Next(old(View()), Remove(id, actor, target))
      ensures (error.None? <==> RemoveOn(old(View()), id, actor, target).Ok?)
              && (error.Some? ==> Err(error.value) == RemoveOn(old(View()), id, actor, target))
    {
      OpKeeps(View(), Remove(id, actor, target));
      hide Inv;
      var refusal := RoleError(View(), id, actor, Plain);
      if refusal.Some? { return refusal; }
      var team := teams[id];
      var targetRole := RoleOf(team.members, target);
      if targetRole.None? { return Some(NotAMember); }
      if targetRole.value.Owner? { return Some(OwnerStays); }
      if target != actor {
        var required := if targetRole.value.Admin? then Owner else Admin;
        if !HasRole(team.members, actor, required) { return Some(Forbidden(required)); }
      }
      teams := teams[id := team.(members := Dismissed(team.members, target))];
      RemoveMembership(target, id);
      return None;
    }

    method DeleteTeam(id: TeamId, actor: Address) returns (error: Option<Error>)
      requires Inv(View())
      modifies this
      ensures Inv(View()) && View() == Next(old(View()), Delete(id, actor))
      ensures (error.None? <==> DeleteOn(old(View()), id, actor).Ok?)
              && (error.Some? ==> Err(error.value) == DeleteOn(old(View()), id, actor))
    {
      ghost var before := View();
      OpKeeps(before, Delete(id, actor));
      hide Inv, AllLeft;
      var refusal := RoleError(View(), id, actor, Owner);
      if refusal.Some? { return refusal; }
      var members := teams[id].members;
      teams := teams - {id};
      AllLeftNone(before.lists, members, id);
      for i := 0 to |members|
        invariant teams == before.teams - {id} && index == before.index
        invariant lists == AllLeft(before.lists, members[..i], id)
      {
        AllLeftNext(before.lists, members, i, id);
        RemoveMembership(members[i].address, id);
      }
      assert members[..|members|] == members;
      index := Filter(index, id);
      return None;
    }

    /** Stale ids would be skipped; the invariant says there are none. */
    method ListTeamsFor(a: Address) returns (ids: seq<TeamId>)
      requires Inv(View())
      ensures ids == ListOf(lists, a) && forall id :: id in ids <==> IsMember(View(), id, a)
    {
      assert ListOk(View(), a);
      ids := [];
      var stored := ListOf(lists, a);
      for i := 0 to |stored|
        invariant ids == stored[..i]
      {
        var id := stored[i];
        assert id in stored;
        if id in teams && RoleOf(teams[id].members, a).Some? { ids := ids + [id]; }
        assert stored[..i + 1] == stored[..i] + [id];
      }
      assert stored[..|stored|] == stored;
    }
  }

  /** After the checks of addMembers, every addition has room for one more team and is not in this one. */
  lemma AddRoom(s: State, id: TeamId, who: seq<Address>)
    requires Inv(s) && id in s.teams
    ensures var more := Additions(s.teams[id].members, who);
      Distinct(more) && forall a :: a in more ==> id !in ListOf(s.lists, a)
  {
    var more := Additions(s.teams[id].members, who);
    AdditionsDistinct(s.teams[id].members, who);
    forall a | a in more ensures id !in ListOf(s.lists, a) {
      AdditionsAre(s.teams[id].members, who, a);
      assert ListOk(s, a);
    }
  }

  lemma WithRoleNext(who: seq<Address>, role: Role, i: nat)
    requires i <= |who|
    ensures WithRole(who[..0], role) == []
    ensures i < |who| ==> WithRole(who[..i + 1], role) == WithRole(who[..i], role) + [Member(who[i], role)]
  {}

  lemma AllJoinedNone(lists: Lists, who: seq<Address>, id: TeamId)
    ensures AllJoined(lists, who[..0], id) == lists
  {}

  lemma AllJoinedNext(lists: Lists, who: seq<Address>, i: nat, id: TeamId)
    requires i < |who| && Distinct(who) && id !in ListOf(lists, who[i])
    ensures AllJoined(lists, who[..i + 1], id) == Joined(AllJoined(lists, who[..i], id), who[i], id)
    ensures ListOf(AllJoined(lists, who[..i], id), who[i]) == ListOf(lists, who[i])
    ensures who[..i + 1] == who[..i] + [who[i]]
  {
    assert who[..i + 1][..i] == who[..i];
    AllJoinedList(lists, who[..i], id, who[i]);
  }

  lemma AllLeftNone(lists: Lists, ms: seq<Member>, id: TeamId)
    ensures AllLeft(lists, ms[..0], id) == lists
  {}

  lemma AllLeftNext(lists: Lists, ms: seq<Member>, i: nat, id: TeamId)
    requires i < |ms|
    ensures AllLeft(lists, ms[..i + 1], id) == Left(AllLeft(lists, ms[..i], id), ms[i].address, id)
  {
    assert ms[..i + 1][..i] == ms[..i];
  }
}
