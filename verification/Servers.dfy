/**
 * Server membership, roles, ownership and bans (src/servers/servers.service.ts), each
 * operation one atomic step. The default server is fixed, as it is once the service has
 * started.
 */
module Servers {
  import opened Wrappers

  type ServerId = nat
  type UserId = nat

  datatype Role = Owner | Admin | Member

  datatype Server = Server(owner: UserId, invite: Option<nat>)

  datatype State = State(
    servers: map<ServerId, Server>,
    members: map<(ServerId, UserId), Role>,
    bans: set<(ServerId, UserId)>,
    default: Option<ServerId>)

  datatype Error =
    | NotAMember | InsufficientRole | IsDefault | OwnerCannotLeave | InvalidInvite | Banned | AlreadyMember
    | CannotAssignOwner | NoSuchMember | TargetIsOwner | AtOrAboveYourRole | TargetIsSelf | NoSuchBan | AlreadyOwner

  function Rank(r: Role): nat {
    match r
    case Owner => 3
    case Admin => 2
    case Member => 1
  }

  /** None when the actor may go on, otherwise why not. */
  function RoleProblem(s: State, sid: ServerId, user: UserId, least: Role): Option<Error> {
    if (sid, user) !in s.members then Some(NotAMember)
    else if Rank(s.members[(sid, user)]) < Rank(least) then Some(InsufficientRole)
    else None
  }

  /** Why the actor may not touch the target, if so. */
  function TargetProblem(actor: Role, target: Role): Option<Error> {
    if target == Owner then Some(TargetIsOwner)
    else if Rank(target) >= Rank(actor) && actor != Owner then Some(AtOrAboveYourRole)
    else None
  }

  // ---- operations ----

  function Create(s: State, sid: ServerId, user: UserId): State {
    s.(servers := s.servers[sid := Server(user, None)], members := s.members[(sid, user) := Owner])
  }

  function AddToDefault(s: State, user: UserId): State {
    if s.default.None? || (s.default.value, user) in s.members then s
    else s.(members := s.members[(s.default.value, user) := Member])
  }

  function Remove(s: State, sid: ServerId, user: UserId): Result<State, Error> {
    match RoleProblem(s, sid, user, Owner)
    case Some(e) => Failure(e)
    case None =>
      if s.default == Some(sid) then Failure(IsDefault)
      else Success(s.(
        servers := s.servers - {sid},
        members := map k | k in s.members && k.0 != sid :: s.members[k],
        bans := set b | b in s.bans && b.0 != sid))
  }

  function SetInvite(s: State, sid: ServerId, user: UserId, code: Option<nat>): Result<State, Error> {
    match RoleProblem(s, sid, user, Admin)
    case Some(e) => Failure(e)
    case None =>
      if sid !in s.servers then Failure(InvalidInvite)
      else Success(s.(servers := s.servers[sid := s.servers[sid].(invite := code)]))
  }

  /** Joining by the invite code of server `sid`. */
  function Join(s: State, user: UserId, sid: ServerId, code: nat): Result<State, Error> {
    if sid !in s.servers || s.servers[sid].invite != Some(code) then Failure(InvalidInvite)
    else if (sid, user) in s.bans then Failure(Banned)
    else if (sid, user) in s.members then Failure(AlreadyMember)
    else Success(s.(members := s.members[(sid, user) := Member]))
  }

  function Leave(s: State, sid: ServerId, user: UserId): Result<State, Error> {
    if (sid, user) !in s.members then Failure(NotAMember)
    else if s.default == Some(sid) then Failure(IsDefault)
    else if s.members[(sid, user)] == Owner then Failure(OwnerCannotLeave)
    else Success(s.(members := s.members - {(sid, user)}))
  }

  function UpdateRole(s: State, sid: ServerId, actor: UserId, target: UserId, role: Role): Result<State, Error> {
    match RoleProblem(s, sid, actor, Admin)
    case Some(e) => Failure(e)
    case None =>
      if role == Owner then Failure(CannotAssignOwner)
      else if (sid, target) !in s.members then Failure(NoSuchMember)
      else
        match TargetProblem(s.members[(sid, actor)], s.members[(sid, target)])
        case Some(e) => Failure(e)
        case None => Success(s.(members := s.members[(sid, target) := role]))
  }

  function Kick(s: State, sid: ServerId, actor: UserId, target: UserId): Result<State, Error> {
    match RoleProblem(s, sid, actor, Admin)
    case Some(e) => Failure(e)
    case None =>
      if actor == target then Failure(TargetIsSelf)
      else if (sid, target) !in s.members then Failure(NoSuchMember)
      else
        match TargetProblem(s.members[(sid, actor)], s.members[(sid, target)])
        case Some(e) => Failure(e)
        case None => Success(s.(members := s.members - {(sid, target)}))
  }

  function Transfer(s: State, sid: ServerId, actor: UserId, target: UserId): Result<State, Error> {
    match RoleProblem(s, sid, actor, Owner)
    case Some(e) => Failure(e)
    case None =>
      if actor == target then Failure(AlreadyOwner)
      else if (sid, target) !in s.members then Failure(NoSuchMember)
      else
        Success(s.(
          members := s.members[(sid, actor) := Admin][(sid, target) := Owner],
          servers := if sid in s.servers then s.servers[sid := s.servers[sid].(owner := target)] else s.servers))
  }

  /** A ban also stops people who are not members yet. */
  function Ban(s: State, sid: ServerId, actor: UserId, target: UserId): Result<State, Error> {
    match RoleProblem(s, sid, actor, Admin)
    case Some(e) => Failure(e)
    case None =>
      if actor == target then Failure(TargetIsSelf)
      else if s.default == Some(sid) then Failure(IsDefault)
      else
        var problem := if (sid, target) in s.members
          then TargetProblem(s.members[(sid, actor)], s.members[(sid, target)]) else None;
        match problem
        case Some(e) => Failure(e)
        case None => Success(s.(members := s.members - {(sid, target)}, bans := s.bans + {(sid, target)}))
  }

  function Unban(s: State, sid: ServerId, actor: UserId, target: UserId): Result<State, Error> {
    match RoleProblem(s, sid, actor, Admin)
    case Some(e) => Failure(e)
    case None =>
      if (sid, target) !in s.bans then Failure(NoSuchBan)
      else Success(s.(bans := s.bans - {(sid, target)}))
  }

  // ---- runs ----

  datatype Event =
    | Creates(sid: ServerId, actor: UserId)
    | Registers(actor: UserId)
    | Removes(sid: ServerId, actor: UserId)
    | Invites(sid: ServerId, actor: UserId, code: Option<nat>)
    | Joins(sid: ServerId, actor: UserId, token: nat)
    | Leaves(sid: ServerId, actor: UserId)
    | Promotes(sid: ServerId, actor: UserId, target: UserId, role: Role)
    | Kicks(sid: ServerId, actor: UserId, target: UserId)
    | HandsOver(sid: ServerId, actor: UserId, target: UserId)
    | Bans(sid: ServerId, actor: UserId, target: UserId)
    | Unbans(sid: ServerId, actor: UserId, target: UserId)

  /** A new server has an id that nothing refers to yet. */
  ghost predicate Fresh(s: State, sid: ServerId) {
    && sid !in s.servers && s.default != Some(sid)
    && (forall k :: k in s.members ==> k.0 != sid)
    && (forall b :: b in s.bans ==> b.0 != sid)
  }

  function Kept(r: Result<State, Error>, s: State): State {
    match r
    case Success(t) => t
    case Failure(_) => s
  }

  function Step(s: State, e: Event): State {
    match e
    case Creates(sid, actor) => Create(s, sid, actor)
    case Registers(actor) => AddToDefault(s, actor)
    case Removes(sid, actor) => Kept(Remove(s, sid, actor), s)
    case Invites(sid, actor, code) => Kept(SetInvite(s, sid, actor, code), s)
    case Joins(sid, actor, code) => Kept(Join(s, actor, sid, code), s)
    case Leaves(sid, actor) => Kept(Leave(s, sid, actor), s)
    case Promotes(sid, actor, target, role) => Kept(UpdateRole(s, sid, actor, target, role), s)
    case Kicks(sid, actor, target) => Kept(Kick(s, sid, actor, target), s)
    case HandsOver(sid, actor, target) => Kept(Transfer(s, sid, actor, target), s)
    case Bans(sid, actor, target) => Kept(Ban(s, sid, actor, target), s)
    case Unbans(sid, actor, target) => Kept(Unban(s, sid, actor, target), s)
  }

  // ---- what holds in every state ----

  /** The recorded owner is a member with the role OWNER, and nobody else has that role. */
  ghost predicate OneOwner(s: State) {
    && (forall sid :: sid in s.servers ==> (sid, s.servers[sid].owner) in s.members)
    && (forall sid, u :: (sid, u) in s.members ==>
         sid in s.servers && (s.members[(sid, u)] == Owner <==> s.servers[sid].owner == u))
  }

  /** Nobody is banned from a server they are a member of; the default server bans nobody. */
  ghost predicate BansOk(s: State) {
    && (forall b :: b in s.bans ==> b !in s.members)
    && (s.default.Some? ==> s.default.value in s.servers && forall b :: b in s.bans ==> b.0 != s.default.value)
  }

  ghost predicate Sound(s: State) { OneOwner(s) && BansOk(s) }

  lemma OwnersStay(s: State, e: Event)
    requires OneOwner(s) && BansOk(s) && (e.Creates? ==> Fresh(s, e.sid))
    ensures OneOwner(Step(s, e))
  {
  }

  lemma BansStay(s: State, e: Event)
    requires OneOwner(s) && BansOk(s) && (e.Creates? ==> Fresh(s, e.sid))
    ensures BansOk(Step(s, e)) && Step(s, e).default == s.default
  {
  }

  lemma StepKeeps(s: State, e: Event)
    requires Sound(s) && (e.Creates? ==> Fresh(s, e.sid))
    ensures Sound(Step(s, e))
    ensures Step(s, e).default == s.default
  {
    OwnersStay(s, e);
    BansStay(s, e);
    hide OneOwner, BansOk, Step, Fresh;
  }

  ghost predicate Run(states: seq<State>, events: seq<Event>) {
    && |states| == |events| + 1
    && forall i :: 0 <= i < |events| ==>
         (events[i].Creates? ==> Fresh(states[i], events[i].sid)) && states[i + 1] == Step(states[i], events[i])
  }

  /** Along every run each server has exactly one owner, and no user is both banned and a member. */
  lemma {:induction false} EveryRunIsSound(states: seq<State>, events: seq<Event>)
    requires Run(states, events) && Sound(states[0])
    ensures Sound(states[|events|])
    decreases |events|
  {
    hide Sound, Step, Fresh;
    if events != [] {
      var last := |events| - 1;
      EveryRunIsSound(states[..|events|], events[..last]);
      StepKeeps(states[last], events[last]);
    }
  }

  // ---- who can do what to whom ----

  ghost predicate RoleIs(s: State, sid: ServerId, u: UserId, r: Role) {
    (sid, u) in s.members && s.members[(sid, u)] == r
  }

  /**
   * Whoever is not the owner cannot change, remove or ban anybody else at or above their own
   * role: their role stays and no ban is added.
   */
  lemma NobodyReachesUp(s: State, e: Event, sid: ServerId, u: UserId)
    requires Sound(s) && (e.Creates? ==> Fresh(s, e.sid))
    requires (sid, u) in s.members && e.actor != u
    requires !RoleIs(s, sid, e.actor, Owner)
    requires (sid, e.actor) in s.members ==> Rank(s.members[(sid, u)]) >= Rank(s.members[(sid, e.actor)])
    ensures RoleIs(Step(s, e), sid, u, s.members[(sid, u)])
    ensures (sid, u) !in Step(s, e).bans
  {
  }

  /** The owner of a server changes only when the owner hands it over or deletes the server. */
  lemma OwnershipMovesOnlyByOwner(s: State, e: Event, sid: ServerId)
    requires Sound(s) && (e.Creates? ==> Fresh(s, e.sid)) && sid in s.servers
    ensures var t := Step(s, e);
      || (sid in t.servers && t.servers[sid].owner == s.servers[sid].owner)
      || (e.HandsOver? && e.sid == sid && e.actor == s.servers[sid].owner
           && sid in t.servers && t.servers[sid].owner == e.target && RoleIs(t, sid, e.actor, Admin))
      || (e.Removes? && e.sid == sid && e.actor == s.servers[sid].owner && Fresh(t, sid))
  {
  }

  /** A banned user cannot get back in until the ban is lifted by an admin or the owner. */
  lemma BannedStayOut(s: State, e: Event, sid: ServerId, u: UserId)
    requires Sound(s) && (e.Creates? ==> Fresh(s, e.sid)) && (sid, u) in s.bans
    ensures var t := Step(s, e);
      || ((sid, u) in t.bans && (sid, u) !in t.members)
      || (e.Unbans? && e.sid == sid && e.target == u
           && (sid, e.actor) in s.members && s.members[(sid, e.actor)] != Member)
      || (e.Removes? && e.sid == sid && RoleIs(s, sid, e.actor, Owner) && Fresh(t, sid))
  {
  }

  // ---- what each operation does, and when ----

  /** The owner may touch anybody but the owner, an admin only plain members. */
  predicate MayTouch(actor: Role, target: Role) {
    (actor == Owner && target != Owner) || (actor == Admin && target == Member)
  }

  ghost predicate Manages(s: State, sid: ServerId, u: UserId) { RoleIs(s, sid, u, Owner) || RoleIs(s, sid, u, Admin) }

  ghost predicate ManagesOver(s: State, sid: ServerId, actor: UserId, target: UserId) {
    (sid, actor) in s.members && (sid, target) in s.members && MayTouch(s.members[(sid, actor)], s.members[(sid, target)])
  }

  /** Nothing but the membership of `u` in `sid` changed. */
  ghost predicate OnlyMember(s: State, t: State, sid: ServerId, u: UserId) {
    && t == s.(members := t.members)
    && forall k :: k != (sid, u) ==> (k in t.members <==> k in s.members) && (k in s.members ==> t.members[k] == s.members[k])
  }

  lemma KickExact(s: State, sid: ServerId, actor: UserId, target: UserId)
    ensures var r := Kick(s, sid, actor, target);
      && (r.Success? <==> actor != target && ManagesOver(s, sid, actor, target))
      && (r.Success? ==> OnlyMember(s, r.value, sid, target) && (sid, target) !in r.value.members)
  {
  }

  /** A new role is given exactly below the actor's own, and never that of the owner. */
  lemma RoleExact(s: State, sid: ServerId, actor: UserId, target: UserId, role: Role)
    ensures var r := UpdateRole(s, sid, actor, target, role);
      && (r.Success? <==> role != Owner && ManagesOver(s, sid, actor, target))
      && (r.Success? ==> OnlyMember(s, r.value, sid, target) && RoleIs(r.value, sid, target, role))
  {
  }

  /** A ban puts its target out and on record, whether they were a member or not. */
  lemma BanExact(s: State, sid: ServerId, actor: UserId, target: UserId)
    ensures var r := Ban(s, sid, actor, target);
      && (r.Success? <==>
           && actor != target && s.default != Some(sid) && Manages(s, sid, actor)
           && ((sid, target) in s.members ==> ManagesOver(s, sid, actor, target)))
      && (r.Success? ==>
           && OnlyMember(s, r.value.(bans := s.bans), sid, target) && (sid, target) !in r.value.members
           && forall b :: b in r.value.bans <==> b in s.bans || b == (sid, target))
  {
  }

  lemma UnbanExact(s: State, sid: ServerId, actor: UserId, target: UserId)
    ensures var r := Unban(s, sid, actor, target);
      && (r.Success? <==> Manages(s, sid, actor) && (sid, target) in s.bans)
      && (r.Success? ==> r.value == s.(bans := r.value.bans) && forall b :: b in r.value.bans <==> b in s.bans && b != (sid, target))
  {
  }

  /** Only the owner hands over, to another member; the two swap places at the top and nobody else moves. */
  lemma TransferExact(s: State, sid: ServerId, actor: UserId, target: UserId)
    requires Sound(s)
    ensures var r := Transfer(s, sid, actor, target);
      && (r.Success? <==> RoleIs(s, sid, actor, Owner) && actor != target && (sid, target) in s.members)
      && (r.Success? ==>
           && sid in s.servers && r.value.servers == s.servers[sid := s.servers[sid].(owner := target)]
           && r.value.bans == s.bans && r.value.default == s.default
           && RoleIs(r.value, sid, actor, Admin) && RoleIs(r.value, sid, target, Owner)
           && forall k :: k != (sid, actor) && k != (sid, target) ==>
                (k in r.value.members <==> k in s.members) && (k in s.members ==> r.value.members[k] == s.members[k]))
  {
  }

  /** The invite code lets in exactly those who are neither members nor banned, as plain members. */
  lemma JoinExact(s: State, user: UserId, sid: ServerId, code: nat)
    ensures var r := Join(s, user, sid, code);
      && (r.Success? <==>
           sid in s.servers && s.servers[sid].invite == Some(code) && (sid, user) !in s.bans && (sid, user) !in s.members)
      && (r.Success? ==> OnlyMember(s, r.value, sid, user) && RoleIs(r.value, sid, user, Member))
  {
  }

  lemma LeaveExact(s: State, sid: ServerId, user: UserId)
    ensures var r := Leave(s, sid, user);
      && (r.Success? <==> (sid, user) in s.members && s.default != Some(sid) && !RoleIs(s, sid, user, Owner))
      && (r.Success? ==> OnlyMember(s, r.value, sid, user) && (sid, user) !in r.value.members)
  {
  }

  /** A deleted server leaves nothing behind, and nothing else goes with it. */
  lemma RemoveExact(s: State, sid: ServerId, user: UserId)
    ensures var r := Remove(s, sid, user);
      && (r.Success? <==> RoleIs(s, sid, user, Owner) && s.default != Some(sid))
      && (r.Success? ==>
           && Fresh(r.value, sid)
           && (forall x :: x != sid ==> (x in r.value.servers <==> x in s.servers) && (x in s.servers ==> r.value.servers[x] == s.servers[x]))
           && (forall k: (ServerId, UserId) :: k.0 != sid ==> (k in r.value.members <==> k in s.members) && (k in s.members ==> r.value.members[k] == s.members[k]))
           && (forall b: (ServerId, UserId) :: b.0 != sid ==> (b in r.value.bans <==> b in s.bans)))
  {
  }

  lemma InviteExact(s: State, sid: ServerId, user: UserId, code: Option<nat>)
    requires Sound(s)
    ensures var r := SetInvite(s, sid, user, code);
      && (r.Success? <==> Manages(s, sid, user))
      && (r.Success? ==> sid in s.servers && r.value == s.(servers := s.servers[sid := Server(s.servers[sid].owner, code)]))
  {
  }

  /** A new server belongs to its creator alone; a new user is a plain member of the default server alone. */
  lemma NewcomersExact(s: State, sid: ServerId, user: UserId)
    requires Fresh(s, sid)
    ensures var t := Create(s, sid, user);
      && OnlyMember(s.(servers := t.servers), t, sid, user) && RoleIs(t, sid, user, Owner)
      && t.servers == s.servers[sid := Server(user, None)]
    ensures var t := AddToDefault(s, user);
      && (s.default == None ==> t == s)
      && (s.default.Some? ==>
           && OnlyMember(s, t, s.default.value, user) && (s.default.value, user) in t.members
           && (if (s.default.value, user) in s.members then t == s else RoleIs(t, s.default.value, user, Member)))
  {
  }

  // ---- the service ----

  class ServersService {
    var servers: map<ServerId, Server>
    var members: map<(ServerId, UserId), Role>
    var bans: set<(ServerId, UserId)>
    const default: Option<ServerId>

    function View(): State
      reads this
    {
      State(servers, members, bans, default)
    }

    ghost predicate Did(before: State, outcome: Result<State, Error>, r: Result<(), Error>)
      reads this
    {
      match outcome
      case Success(t) => View() == t && r == Success(())
      case Failure(e) => View() == before && r == Failure(e)
    }

    /** A store with nothing but its default server, if there is one. */
    constructor (default: Option<ServerId>, owner: UserId)
      ensures Sound(View()) && this.default == default
    {
      this.default := default;
      servers := if default.Some? then map[default.value := Server(owner, None)] else map[];
      members := if default.Some? then map[(default.value, owner) := Owner] else map[];
      bans := {};
    }

    method DoUpdateRole(sid: ServerId, actor: UserId, target: UserId, role: Role) returns (r: Result<(), Error>)
      requires Sound(View())
      modifies this
      ensures Sound(View()) && Did(old(View()), UpdateRole(old(View()), sid, actor, target, role), r)
    {
      StepKeeps(View(), Promotes(sid, actor, target, role));
      hide Sound;
      var problem := RoleProblem(View(), sid, actor, Admin);
      if problem.Some? {
        return Failure(problem.value);
      }
      if role == Owner {
        return Failure(CannotAssignOwner);
      }
      if (sid, target) !in members {
        return Failure(NoSuchMember);
      }
      problem := TargetProblem(members[(sid, actor)], members[(sid, target)]);
      if problem.Some? {
        return Failure(problem.value);
      }
      members := members[(sid, target) := role];
      r := Success(());
    }

    method DoKick(sid: ServerId, actor: UserId, target: UserId) returns (r: Result<(), Error>)
      requires Sound(View())
      modifies this
      ensures Sound(View()) && Did(old(View()), Kick(old(View()), sid, actor, target), r)
    {
      StepKeeps(View(), Kicks(sid, actor, target));
      hide Sound;
      var problem := RoleProblem(View(), sid, actor, Admin);
      if problem.Some? {
        return Failure(problem.value);
      }
      if actor == target {
        return Failure(TargetIsSelf);
      }
      if (sid, target) !in members {
        return Failure(NoSuchMember);
      }
      problem := TargetProblem(members[(sid, actor)], members[(sid, target)]);
      if problem.Some? {
        return Failure(problem.value);
      }
      members := members - {(sid, target)};
      r := Success(());
    }

    method DoTransfer(sid: ServerId, actor: UserId, target: UserId) returns (r: Result<(), Error>)
      requires Sound(View())
      modifies this
      ensures Sound(View()) && Did(old(View()), Transfer(old(View()), sid, actor, target), r)
    {
      StepKeeps(View(), HandsOver(sid, actor, target));
      hide Sound;
      var problem := RoleProblem(View(), sid, actor, Owner);
      if problem.Some? {
        return Failure(problem.value);
      }
      if actor == target {
        return Failure(AlreadyOwner);
      }
      if (sid, target) !in members {
        return Failure(NoSuchMember);
      }
      members := members[(sid, actor) := Admin];
      members := members[(sid, target) := Owner];
      if sid in servers {
        servers := servers[sid := servers[sid].(owner := target)];
      }
      r := Success(());
    }

    method DoBan(sid: ServerId, actor: UserId, target: UserId) returns (r: Result<(), Error>)
      requires Sound(View())
      modifies this
      ensures Sound(View()) && Did(old(View()), Ban(old(View()), sid, actor, target), r)
    {
      StepKeeps(View(), Bans(sid, actor, target));
      hide Sound;
      var problem := RoleProblem(View(), sid, actor, Admin);
      if problem.Some? {
        return Failure(problem.value);
      }
      if actor == target {
        return Failure(TargetIsSelf);
      }
      if default == Some(sid) {
        return Failure(IsDefault);
      }
      if (sid, target) in members {
        problem := TargetProblem(members[(sid, actor)], members[(sid, target)]);
        if problem.Some? {
          return Failure(problem.value);
        }
      }
      members := members - {(sid, target)};
      bans := bans + {(sid, target)};
      r := Success(());
    }

    method DoJoin(user: UserId, sid: ServerId, code: nat) returns (r: Result<(), Error>)
      requires Sound(View())
      modifies this
      ensures Sound(View()) && Did(old(View()), Join(old(View()), user, sid, code), r)
    {
      StepKeeps(View(), Joins(sid, user, code));
      hide Sound;
      if sid !in servers || servers[sid].invite != Some(code) {
        return Failure(InvalidInvite);
      }
      if (sid, user) in bans {
        return Failure(Banned);
      }
      if (sid, user) in members {
        return Failure(AlreadyMember);
      }
      members := members[(sid, user) := Member];
      r := Success(());
    }

    method DoLeave(sid: ServerId, user: UserId) returns (r: Result<(), Error>)
      requires Sound(View())
      modifies this
      ensures Sound(View()) && Did(old(View()), Leave(old(View()), sid, user), r)
    {
      StepKeeps(View(), Leaves(sid, user));
      hide Sound;
      if (sid, user) !in members {
        return Failure(NotAMember);
      }
      if default == Some(sid) {
        return Failure(IsDefault);
      }
      if members[(sid, user)] == Owner {
        return Failure(OwnerCannotLeave);
      }
      members := members - {(sid, user)};
      r := Success(());
    }

    method DoCreate(sid: ServerId, user: UserId)
      requires Sound(View()) && Fresh(View(), sid)
      modifies this
      ensures Sound(View()) && View() == Create(old(View()), sid, user)
    {
      StepKeeps(View(), Creates(sid, user));
      hide Sound;
      servers := servers[sid := Server(user, None)];
      members := members[(sid, user) := Owner];
    }

    /** Every new user joins the default server. */
    method AddUserToDefault(user: UserId)
      requires Sound(View())
      modifies this
      ensures Sound(View()) && View() == AddToDefault(old(View()), user)
    {
      StepKeeps(View(), Registers(user));
      hide Sound;
      if default.Some? && (default.value, user) !in members {
        members := members[(default.value, user) := Member];
      }
    }

    method DoUnban(sid: ServerId, actor: UserId, target: UserId) returns (r: Result<(), Error>)
      requires Sound(View())
      modifies this
      ensures Sound(View()) && Did(old(View()), Unban(old(View()), sid, actor, target), r)
    {
      StepKeeps(View(), Unbans(sid, actor, target));
      hide Sound;
      var problem := RoleProblem(View(), sid, actor, Admin);
      if problem.Some? {
        return Failure(problem.value);
      }
      if (sid, target) !in bans {
        return Failure(NoSuchBan);
      }
      bans := bans - {(sid, target)};
      r := Success(());
    }

    method DoRemove(sid: ServerId, user: UserId) returns (r: Result<(), Error>)
      requires Sound(View())
      modifies this
      ensures Sound(View()) && Did(old(View()), Remove(old(View()), sid, user), r)
    {
      StepKeeps(View(), Removes(sid, user));
      hide Sound;
      var problem := RoleProblem(View(), sid, user, Owner);
      if problem.Some? {
        return Failure(problem.value);
      }
      if default == Some(sid) {
        return Failure(IsDefault);
      }
      servers := servers - {sid};
      members := map k | k in members && k.0 != sid :: members[k];
      bans := set b | b in bans && b.0 != sid;
      r := Success(());
    }
  }
}
