/** Team operations that a crash or a failing store cuts short between their writes. Memberships are
    written before a team names its member and removed after it no longer does, so what is left over is
    always an entry too many in a list, never one too few. */
module TeamCrashes {
  import opened Common
  import opened Teams

  // ---- Operations cut short ----------------------------------------------------------------------

  function Without(lists: Lists, gone: set<Address>, id: TeamId): Lists {
    map a | a in lists && !(a in gone && Filter(lists[a], id) == []) ::
      if a in gone then Filter(lists[a], id) else lists[a]
  }

  /** An operation that got no further than its first `writes` writes. Deleting a team removes its
      members' entries in parallel; `gone` are those it got to. */
  function CutOn(s: State, op: Op, writes: nat, gone: set<Address>): State {
    match Outcome(s, op)
    case Err(_) => s
    case Ok(t) =>
      if writes == 0 then s
      else match op
        case Create(_, _, _) =>
          if writes == 1 then s.(lists := t.lists) else if writes == 2 then s.(lists := t.lists, teams := t.teams) else t
        case Add(id, _, who, _) =>
          var more := Additions(s.teams[id].members, who);
          if writes <= |more| then s.(lists := AllJoined(s.lists, more[..writes], id)) else t
        case Remove(_, _, _) => if writes == 1 then s.(teams := t.teams) else t
        case Delete(id, _) =>
          if writes == 1 then s.(teams := t.teams, lists := Without(s.lists, gone, id))
          else if writes == 2 then s.(teams := t.teams, lists := t.lists) else t
        case _ => t
  }

  // ---- What holds whatever is cut ----------------------------------------------------------------

  ghost predicate Covered(s: State, a: Address) {
    && DistinctIds(ListOf(s.lists, a)) && |ListOf(s.lists, a)| <= MAX_TEAMS_PER_ADDRESS
    && forall id :: IsMember(s, id, a) ==> id in ListOf(s.lists, a)
  }

  /** Teams are sound, and every team is in the list of each of its members. */
  ghost predicate Safe(s: State) { TeamsOk(s) && forall a :: Covered(s, a) }

  lemma JoinedOne(lists: Lists, a: Address, id: TeamId, b: Address)
    requires DistinctIds(ListOf(lists, b))
    ensures var more := ListOf(Joined(lists, a, id), b);
      && DistinctIds(more) && |more| <= |ListOf(lists, b)| + (if b == a then 1 else 0)
      && (b != a ==> more == ListOf(lists, b))
      && forall x :: x in more <==> x in ListOf(lists, b) || (x == id && b == a)
  {
    var was := ListOf(lists, b);
    if b == a && id !in was {
      forall j | 0 <= j < |was| ensures was[j] != id { var x := was[j]; assert x in was; }
    }
  }

  lemma {:induction false} JoinedAll(lists: Lists, who: seq<Address>, id: TeamId, b: Address)
    requires Distinct(who) && DistinctIds(ListOf(lists, b))
    ensures var more := ListOf(AllJoined(lists, who, id), b);
      && DistinctIds(more) && |more| <= |ListOf(lists, b)| + (if b in who then 1 else 0)
      && forall x :: x in more <==> x in ListOf(lists, b) || (x == id && b in who)
    decreases |who|
  {
    if who != [] {
      var k := |who| - 1;
      assert who == who[..k] + [who[k]];
      JoinedAll(lists, who[..k], id, b);
      JoinedOne(AllJoined(lists, who[..k], id), who[k], id, b);
      assert b in who[..k] ==> b != who[k];
    }
  }

  lemma FilteredList(ids: seq<TeamId>, id: TeamId)
    requires DistinctIds(ids)
    ensures DistinctIds(Filter(ids, id)) && |Filter(ids, id)| <= |ids|
    ensures forall x :: x in Filter(ids, id) <==> x in ids && x != id
  {
    FilterDistinct(ids, id);
    Filtered(ids, id, id);
    forall x ensures x in Filter(ids, id) <==> x in ids && x != id { Filtered(ids, id, x); }
  }

  lemma WithoutList(lists: Lists, gone: set<Address>, id: TeamId, a: Address)
    ensures ListOf(Without(lists, gone, id), a) == if a in gone then Filter(ListOf(lists, a), id) else ListOf(lists, a)
  {}

  lemma CreateCut(s: State, op: Op, writes: nat, gone: set<Address>)
    requires Safe(s) && op.Create? && Possible(s, op)
    ensures Safe(CutOn(s, op, writes, gone))
  {
    var t := CutOn(s, op, writes, gone);
    if Outcome(s, op).Ok? && writes > 0 {
      Founded(op.name, op.owner);
      forall a ensures Covered(t, a) {
        assert Covered(s, a);
        JoinedOne(s.lists, op.owner, op.id, a);
      }
    }
  }

  lemma AddedLists(s: State, t: State, id: TeamId, more: seq<Address>, part: seq<Address>, role: Role, a: Address)
    requires Covered(s, a) && id in s.teams && Distinct(more) && part <= more
    requires a in more ==> |ListOf(s.lists, a)| < MAX_TEAMS_PER_ADDRESS
    requires t.lists == AllJoined(s.lists, part, id)
    requires t.teams == s.teams || (part == more && t.teams == s.teams[id := s.teams[id].(members := s.teams[id].members + WithRole(more, role))])
    ensures Covered(t, a)
  {
    assert Distinct(part) && forall b :: b in part ==> b in more by {
      assert forall i :: 0 <= i < |part| ==> part[i] == more[i];
    }
    hide AllJoined, RoleOf, WithRole;
    JoinedAll(s.lists, part, id, a);
    RoleAppended(s.teams[id].members, more, role, a);
  }

  lemma AdditionPasses(s: State, op: Op)
    requires op.Add? && AddOn(s, op.id, op.actor, op.who, op.role).Ok?
    ensures op.id in s.teams && (forall a :: a in op.who ==> a.Key?) && !op.role.Owner?
    ensures var team := s.teams[op.id];
      var more := Additions(team.members, op.who);
      && |team.members| + |more| <= MAX_TEAM_MEMBERS
      && (forall a :: a in more ==> |ListOf(s.lists, a)| < MAX_TEAMS_PER_ADDRESS)
      && Outcome(s, op) == Ok(s.(teams := s.teams[op.id := team.(members := team.members + WithRole(more, op.role))],
                                 lists := AllJoined(s.lists, more, op.id)))
  {
    hide AllJoined, Additions, ListOf, HasRole, RoleOf, WithRole;
  }

  /** What a request that passed its checks leaves, complete or not. */
  lemma AddedPart(s: State, op: Op, writes: nat, gone: set<Address>) returns (part: seq<Address>)
    requires op.Add? && AddOn(s, op.id, op.actor, op.who, op.role).Ok? && writes > 0
    ensures op.id in s.teams
    ensures var t, team := CutOn(s, op, writes, gone), s.teams[op.id];
      var more := Additions(team.members, op.who);
      && part <= more && t.lists == AllJoined(s.lists, part, op.id)
      && (t.teams == s.teams || (part == more && t.teams == s.teams[op.id := team.(members := team.members + WithRole(more, op.role))]))
  {
    AdditionPasses(s, op);
    var more := Additions(s.teams[op.id].members, op.who);
    part := if writes <= |more| then more[..writes] else more;
    hide AddOn, Outcome, AllJoined, Additions, WithRole;
  }

  lemma AddCut(s: State, op: Op, writes: nat, gone: set<Address>)
    requires Safe(s) && op.Add? && AddOn(s, op.id, op.actor, op.who, op.role).Ok? && writes > 0
    ensures Safe(CutOn(s, op, writes, gone))
  {
    var t, team := CutOn(s, op, writes, gone), s.teams[op.id];
    var more := Additions(team.members, op.who);
    AdditionPasses(s, op);
    var part := AddedPart(s, op, writes, gone);
    forall a ensures a in more <==> a in op.who && RoleOf(team.members, a).None? { AdditionsAre(team.members, op.who, a); }
    AdditionsDistinct(team.members, op.who);
    hide Additions, AllJoined, RoleOf, TeamOk, CutOn, AddOn, Covered, ListOf;
    AddedTeam(team, more, op.role);
    forall a ensures Covered(t, a) { AddedLists(s, t, op.id, more, part, op.role, a); }
  }

  lemma RoleCut(s: State, op: Op, writes: nat, gone: set<Address>)
    requires Safe(s) && (op.Rename? || op.ChangeRole?) && Outcome(s, op).Ok?
    ensures Safe(CutOn(s, op, writes, gone))
  {
    var t := CutOn(s, op, writes, gone);
    if writes > 0 {
      assert TeamOk(s.teams[op.id]);
      if op.ChangeRole? { ChangedTeam(s.teams[op.id], op.actor, op.target, op.role); }
      forall a ensures Covered(t, a) { assert Covered(s, a); }
    }
  }

  lemma RemovedLists(s: State, t: State, id: TeamId, target: Address, a: Address)
    requires Covered(s, a) && id in s.teams
    requires t.lists == s.lists || t.lists == Left(s.lists, target, id)
    requires t.teams == s.teams[id := s.teams[id].(members := Dismissed(s.teams[id].members, target))]
    ensures Covered(t, a)
  {
    hide Left, Dismissed;
    RoleDismissed(s.teams[id].members, target, a);
    LeftList(s.lists, target, id, a);
    FilteredList(ListOf(s.lists, a), id);
  }

  lemma RemoveCut(s: State, op: Op, writes: nat, gone: set<Address>)
    requires Safe(s) && op.Remove? && RemoveOn(s, op.id, op.actor, op.target).Ok? && writes > 0
    ensures Safe(CutOn(s, op, writes, gone))
  {
    var t := CutOn(s, op, writes, gone);
    DismissedTeam(s.teams[op.id], op.target);
    hide Covered, Left, TeamOk, Dismissed;
    forall a ensures Covered(t, a) { RemovedLists(s, t, op.id, op.target, a); }
  }

  lemma DeleteCut(s: State, op: Op, writes: nat, gone: set<Address>)
    requires Safe(s) && op.Delete? && DeleteOn(s, op.id, op.actor).Ok? && writes > 0
    ensures Safe(CutOn(s, op, writes, gone))
  {
    var t, ms := CutOn(s, op, writes, gone), s.teams[op.id].members;
    assert t.teams == s.teams - {op.id};
    assert t.lists == if writes == 1 then Without(s.lists, gone, op.id) else AllLeft(s.lists, ms, op.id);
    hide AllLeft, Without, TeamOk, RoleOf, CutOn, DeleteOn, RoleError;
    forall a ensures Covered(t, a) {
      assert Covered(s, a);
      if writes == 1 { WithoutList(s.lists, gone, op.id, a); } else { AllLeftList(s.lists, ms, op.id, a); }
      FilteredList(ListOf(s.lists, a), op.id);
    }
  }

  lemma CutKeeps(s: State, op: Op, writes: nat, gone: set<Address>)
    requires Safe(s) && Possible(s, op)
    ensures Safe(CutOn(s, op, writes, gone))
  {
    hide Safe;
    if Outcome(s, op).Ok? && writes > 0 {
      match op
      case Create(_, _, _) => CreateCut(s, op, writes, gone);
      case Add(_, _, _, _) => AddCut(s, op, writes, gone);
      case Remove(_, _, _) => RemoveCut(s, op, writes, gone);
      case Delete(_, _) => DeleteCut(s, op, writes, gone);
      case _ => RoleCut(s, op, writes, gone);
    }
  }

  // ---- Runs --------------------------------------------------------------------------------------

  datatype Try = Try(op: Op, writes: nat, gone: set<Address>)

  function Exec(tries: seq<Try>): State
    decreases |tries|
  {
    if tries == [] then State(map[], map[], [])
    else
      var last := tries[|tries| - 1];
      CutOn(Exec(tries[..|tries| - 1]), last.op, last.writes, last.gone)
  }

  predicate FreshIds(tries: seq<Try>)
    decreases |tries|
  {
    tries == [] || (FreshIds(tries[..|tries| - 1]) && Possible(Exec(tries[..|tries| - 1]), tries[|tries| - 1].op))
  }

  /** After any operations, each complete or cut short anywhere, every team is sound, and in the list of
      each of its members. */
  lemma {:induction false} AlwaysSafe(tries: seq<Try>)
    requires FreshIds(tries)
    ensures Safe(Exec(tries))
    decreases |tries|
  {
    hide CutOn;
    if tries != [] {
      var last := tries[|tries| - 1];
      AlwaysSafe(tries[..|tries| - 1]);
      CutKeeps(Exec(tries[..|tries| - 1]), last.op, last.writes, last.gone);
    }
  }

  lemma {:induction false} TeamsForAre(s: State, ids: seq<TeamId>, a: Address, id: TeamId)
    ensures id in TeamsFor(s, ids, a) <==> id in ids && IsMember(s, id, a)
    decreases |ids|
  {
    if ids != [] {
      TeamsForAre(s, ids[1..], a, id);
      assert ids == [ids[0]] + ids[1..];
    }
  }

  /** listTeamsFor, which skips what is left over, is exactly the teams that have the address as a
      member, crashes or not. */
  lemma ListingSurvives(tries: seq<Try>, a: Address, id: TeamId)
    requires FreshIds(tries)
    ensures var s := Exec(tries); id in TeamsFor(s, ListOf(s.lists, a), a) <==> IsMember(s, id, a)
  {
    AlwaysSafe(tries);
    hide Exec, FreshIds;
    var s := Exec(tries);
    assert Covered(s, a);
    TeamsForAre(s, ListOf(s.lists, a), a, id);
  }

  // ---- What is left over -------------------------------------------------------------------------

  ghost predicate AgreesAt(s: State, a: Address) { forall id :: id in ListOf(s.lists, a) <==> IsMember(s, id, a) }

  /** Lists and records say the same. */
  ghost predicate Agree(s: State) { forall a :: AgreesAt(s, a) }

  /** Cut between the writes of lists and record. */
  predicate Torn(s: State, op: Op, writes: nat, gone: set<Address>) {
    Outcome(s, op).Ok? &&
      match op
      case Create(_, _, _) => writes == 1
      case Add(id, _, who, _) => 0 < writes <= |Additions(s.teams[id].members, who)|
      case Remove(_, _, _) => writes == 1
      case Delete(id, _) => writes == 1 && exists m :: m in s.teams[id].members && m.address !in gone
      case _ => false
  }

  lemma InStep(s: State)
    requires Inv(s)
    ensures Agree(s)
  {
    forall a ensures AgreesAt(s, a) { assert ListOk(s, a); }
  }

  lemma UntornDelete(s: State, op: Op, gone: set<Address>)
    requires Inv(s) && op.Delete? && Outcome(s, op).Ok? && !Torn(s, op, 1, gone)
    ensures Agree(CutOn(s, op, 1, gone))
  {
    var t := CutOn(s, op, 1, gone);
    assert t == s.(teams := s.teams - {op.id}, lists := Without(s.lists, gone, op.id));
    assert forall m :: m in s.teams[op.id].members ==> m.address in gone;
    hide CutOn, Torn, Outcome, Without;
    forall a ensures AgreesAt(t, a) {
      assert ListOk(s, a);
      MemberIsGone(s, op.id, gone, a);
      WithoutAgrees(s, op.id, gone, a);
    }
  }

  lemma MemberIsGone(s: State, id: TeamId, gone: set<Address>, a: Address)
    requires id in s.teams && forall m :: m in s.teams[id].members ==> m.address in gone
    ensures IsMember(s, id, a) ==> a in gone
  {
    RoleFound(s.teams[id].members, a);
  }

  lemma WithoutAgrees(s: State, id: TeamId, gone: set<Address>, a: Address)
    requires ListOk(s, a) && (IsMember(s, id, a) ==> a in gone)
    ensures AgreesAt(s.(teams := s.teams - {id}, lists := Without(s.lists, gone, id)), a)
  {
    WithoutList(s.lists, gone, id, a);
    FilteredList(ListOf(s.lists, a), id);
    hide Without, RoleOf, Filter, ListOf;
  }

  lemma Untorn(s: State, op: Op, writes: nat, gone: set<Address>)
    requires Inv(s) && Possible(s, op) && !Torn(s, op, writes, gone)
    ensures Agree(CutOn(s, op, writes, gone))
  {
    OpKeeps(s, op);
    InStep(s);
    InStep(Next(s, op));
    var t := CutOn(s, op, writes, gone);
    if op.Delete? && writes == 1 && Outcome(s, op).Ok? {
      UntornDelete(s, op, gone);
    } else {
      forall a ensures AgreesAt(t, a) { assert AgreesAt(s, a) && AgreesAt(Next(s, op), a); }
    }
  }

  /** A torn operation leaves an entry too many: that of the team's new member, or of its old one. */
  lemma TornLeaves(s: State, op: Op, writes: nat, gone: set<Address>) returns (a: Address)
    requires Inv(s) && Possible(s, op) && Torn(s, op, writes, gone)
    ensures var t := CutOn(s, op, writes, gone); op.id in ListOf(t.lists, a) && !IsMember(t, op.id, a)
  {
    match op
    case Create(owner, _, id) =>
      a := owner;
      assert ListOk(s, a);
      JoinedOne(s.lists, owner, id, a);
    case Add(id, _, who, _) =>
      var more := Additions(s.teams[id].members, who);
      a := more[0];
      assert a in more && a in more[..writes];
      AdditionsAre(s.teams[id].members, who, a);
      AdditionsDistinct(s.teams[id].members, who);
      assert ListOk(s, a);
      JoinedAll(s.lists, more[..writes], id, a);
    case Remove(id, _, target) =>
      a := target;
      assert ListOk(s, a);
      RoleDismissed(s.teams[id].members, target, a);
    case Delete(id, _) =>
      var m :| m in s.teams[id].members && m.address !in gone;
      a := m.address;
      assert ListOk(s, a);
      WithoutList(s.lists, gone, id, a);
      RoleFound(s.teams[id].members, a);
      MentionsIsFound(s.teams[id].members, a);
    case _ =>
  }

  /** From records in step, an operation leaves lists and records in agreement exactly when it was not
      cut between the two. */
  lemma AgreesUnlessTorn(s: State, op: Op, writes: nat, gone: set<Address>)
    requires Inv(s) && Possible(s, op)
    ensures Agree(CutOn(s, op, writes, gone)) <==> !Torn(s, op, writes, gone)
  {
    hide Inv, CutOn, Torn, IsMember;
    if Torn(s, op, writes, gone) {
      var a := TornLeaves(s, op, writes, gone);
      assert !AgreesAt(CutOn(s, op, writes, gone), a);
    } else {
      Untorn(s, op, writes, gone);
    }
  }

  /** An address joined before the cut had room for just one more team. */
  predicate Filled(s: State, op: Op, writes: nat)
    requires op.Add? && op.id in s.teams && writes <= |Additions(s.teams[op.id].members, op.who)|
  {
    exists a :: a in Additions(s.teams[op.id].members, op.who)[..writes] && |ListOf(s.lists, a)| == MAX_TEAMS_PER_ADDRESS - 1
  }

  /** What is left over by an operation cut short between lists and record, and trying again: a removal or
      deletion is refused, because the record no longer knows the member; a creation, which tries with a
      new id, is refused exactly when the left-over entry filled its owner's list; and an addition is
      refused exactly when such an entry filled a list, and completed otherwise. */
  lemma RetryAfterCut(s: State, op: Op, writes: nat, gone: set<Address>)
    requires Inv(s) && Possible(s, op) && Torn(s, op, writes, gone)
    ensures var t := CutOn(s, op, writes, gone);
      && (op.Remove? ==> Outcome(t, op) == Err(if op.target == op.actor then NoSuchTeam else NotAMember))
      && (op.Delete? ==> Outcome(t, op) == Err(NoSuchTeam))
      && (op.Create? ==> forall id: TeamId :: var again := Outcome(t, Create(op.owner, op.name, id));
           && (again == Err(AddressFull) <==> |ListOf(s.lists, op.owner)| == MAX_TEAMS_PER_ADDRESS - 1)
           && (again.Ok? <==> |ListOf(s.lists, op.owner)| < MAX_TEAMS_PER_ADDRESS - 1))
      && (op.Add? ==> Outcome(t, op) == if Filled(s, op, writes) then Err(AddressFull) else Outcome(s, op))
  {
    match op
    case Create(owner, _, id) => assert ListOk(s, owner);
    case Remove(id, actor, target) =>
      RoleDismissed(s.teams[id].members, target, actor);
      RoleDismissed(s.teams[id].members, target, target);
    case Add(_, _, _, _) => RetriedAddition(s, op, writes, gone);
    case _ =>
  }

  lemma JoinedAlready(lists: Lists, a: Address, id: TeamId)
    requires id in ListOf(lists, a)
    ensures Joined(lists, a, id) == lists
  {}

  lemma AllJoinedLast(lists: Lists, who: seq<Address>, i: nat, id: TeamId)
    requires 0 < i <= |who|
    ensures AllJoined(lists, who[..i], id) == Joined(AllJoined(lists, who[..i - 1], id), who[i - 1], id)
  {
    assert who[..i][..i - 1] == who[..i - 1];
  }

  /** Joining some of them first makes no difference. */
  lemma {:induction false} Rejoined(lists: Lists, who: seq<Address>, w: nat, i: nat, id: TeamId)
    requires Distinct(who) && w <= |who| && i <= |who| && forall a :: a in who ==> id !in ListOf(lists, a)
    ensures AllJoined(AllJoined(lists, who[..w], id), who[..i], id) == AllJoined(lists, who[..if i <= w then w else i], id)
    decreases i
  {
    var first := AllJoined(lists, who[..w], id);
    if i == 0 {
      AllJoinedNone(first, who, id);
    } else {
      hide AllJoined, Joined, ListOf;
      Rejoined(lists, who, w, i - 1, id);
      AllJoinedLast(first, who, i, id);
      if i <= w {
        assert who[i - 1] in who[..w] by { assert who[..w][i - 1] == who[i - 1]; }
        AllJoinedList(lists, who[..w], id, who[i - 1]);
        JoinedAlready(first, who[i - 1], id);
      } else {
        AllJoinedLast(lists, who, i, id);
      }
    }
  }

  /** The same request against lists in which `part` of its additions are already entered. */
  lemma AddedAgain(s: State, t: State, op: Op, more: seq<Address>, part: seq<Address>)
    requires op.Add? && AddOn(s, op.id, op.actor, op.who, op.role).Ok? && t == s.(lists := t.lists)
    requires more == Additions(s.teams[op.id].members, op.who) && forall a :: a in part ==> a in more
    requires forall a :: a in more ==> |ListOf(t.lists, a)| == |ListOf(s.lists, a)| + if a in part then 1 else 0
    requires AllJoined(t.lists, more, op.id) == AllJoined(s.lists, more, op.id)
    ensures AddOn(t, op.id, op.actor, op.who, op.role) ==
      if exists a :: a in part && |ListOf(s.lists, a)| == MAX_TEAMS_PER_ADDRESS - 1 then Err(AddressFull)
      else AddOn(s, op.id, op.actor, op.who, op.role)
  {
    hide AllJoined, Additions, ListOf, HasRole, RoleOf, WithRole;
  }

  lemma RoomTaken(lists: Lists, more: seq<Address>, writes: nat, id: TeamId, a: Address)
    requires Distinct(more) && writes <= |more| && a in more && id !in ListOf(lists, a)
    ensures |ListOf(AllJoined(lists, more[..writes], id), a)| == |ListOf(lists, a)| + if a in more[..writes] then 1 else 0
  {
    hide AllJoined;
    assert Distinct(more[..writes]) by { assert forall i :: 0 <= i < writes ==> more[..writes][i] == more[i]; }
    AllJoinedList(lists, more[..writes], id, a);
  }

  lemma CutAddition(s: State, op: Op, writes: nat, gone: set<Address>)
    requires op.Add? && Torn(s, op, writes, gone)
    ensures CutOn(s, op, writes, gone)
      == s.(lists := AllJoined(s.lists, Additions(s.teams[op.id].members, op.who)[..writes], op.id))
  {
    hide Additions, AllJoined, AddOn;
  }

  lemma RetriedAddition(s: State, op: Op, writes: nat, gone: set<Address>)
    requires Inv(s) && op.Add? && Torn(s, op, writes, gone)
    ensures Outcome(CutOn(s, op, writes, gone), op) == if Filled(s, op, writes) then Err(AddressFull) else Outcome(s, op)
  {
    var more, t := Additions(s.teams[op.id].members, op.who), CutOn(s, op, writes, gone);
    AddRoom(s, op.id, op.who);
    CutAddition(s, op, writes, gone);
    hide Inv, AllJoined, Additions, ListOf, AddOn, CutOn, Distinct;
    Rejoined(s.lists, more, writes, |more|, op.id);
    assert more[..|more|] == more;
    forall a | a in more { RoomTaken(s.lists, more, writes, op.id, a); }
    AddedAgain(s, t, op, more, more[..writes]);
  }
}
