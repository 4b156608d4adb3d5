/**
 * Every interleaving of players joining and leaving queues with instances reading, claiming
 * and cleaning up (src/games/caro/caro-matchmaking.service.ts,
 * src/games/bomberman/bomberman-matchmaking.service.ts): no queue entry is ever part of two
 * matches, every match is the closest group its instance saw, and exactly which steps put a
 * player at two tables or leave a waiting player out of the hash.
 */
module MatchQueues {
  import opened Wrappers
  import opened Sorting
  import opened Matchmaking

  /** An entry of a queue; its ticket was issued when it was put there. */
  datatype Entry = Entry(rp: int, ticket: nat)

  type Queue = map<UserId, Entry>

  /** What an instance read: for whom it looks for players, the rank points it measures from, and a queue. */
  datatype Search = Search(key: nat, me: UserId, mine: int, seen: seq<Listed>)

  /** What an instance is about to claim, or has claimed and not yet cleaned up. */
  datatype Plan = Plan(search: Search, chosen: seq<UserId>, claimed: bool)

  datatype Formed = Formed(users: seq<UserId>, tickets: seq<nat>, search: Search)

  /**
   * Queue CARO is the two-player queue of Caro; queues 2, 3 and 4 are the Bomberman tables,
   * and `meta` is the Bomberman hash that remembers which table a user is queued for.
   */
  datatype State = State(
    queues: map<nat, Queue>, meta: map<UserId, nat>, issued: nat, plans: map<nat, Plan>, formed: seq<Formed>)

  const CARO: nat := 0

  predicate IsSize(size: nat) { 2 <= size <= 4 }

  predicate IsKey(key: nat) { key == CARO || IsSize(key) }

  function EmptyQueues(): map<nat, Queue> { map[CARO := map[], 2 := map[], 3 := map[], 4 := map[]] }

  function Start(): State { State(EmptyQueues(), map[], 0, map[], []) }

  // ---- the steps ----

  function Put(s: State, key: nat, user: UserId, rp: int): State
    requires key in s.queues
  {
    var q: Queue := s.queues[key];
    s.(queues := s.queues[key := q[user := Entry(rp, s.issued)]], issued := s.issued + 1)
  }

  function Drop(s: State, key: nat, user: UserId): State {
    if key in s.queues then s.(queues := s.queues[key := s.queues[key] - {user}]) else s
  }

  function Unname(s: State, user: UserId): State { s.(meta := s.meta - {user}) }

  /** The last command of a join: one transaction that queues the user and names the table. */
  function Enter(s: State, user: UserId, size: nat, rp: int): State
    requires size in s.queues
  {
    Put(s, size, user, rp).(meta := s.meta[user := size])
  }

  /** Leaves the table the hash names, or every table when it names none. */
  function LeaveTables(s: State, user: UserId): State {
    Unname(if user in s.meta then Drop(s, s.meta[user], user) else Drop(Drop(Drop(s, 2, user), 3, user), 4, user), user)
  }

  /** One table at a time: leave first, then queue. */
  function JoinTable(s: State, user: UserId, size: nat, rp: int): State
    requires size in s.queues
  {
    var out := LeaveTables(s, user);
    if size !in out.queues then s else Enter(out, user, size, rp)
  }

  function TicketsOf(q: Queue, users: seq<UserId>): (r: seq<nat>)
    requires forall u :: u in users ==> u in q
    ensures |r| == |users|
    ensures forall i :: 0 <= i < |users| ==> users[i] in q && r[i] == q[users[i]].ticket
  {
    assert forall i :: 0 <= i < |users| ==> users[i] in users;
    seq(|users|, i requires 0 <= i < |users| => q[users[i]].ticket)
  }

  predicate AllQueued(q: Queue, users: seq<UserId>) { forall u :: u in users ==> u in q }

  function RemoveAll(q: Queue, users: seq<UserId>): (r: Queue)
    ensures forall u :: u in r <==> u in q && u !in users
    ensures forall u :: u in r ==> r[u] == q[u]
    decreases |users|
  {
    if users == [] then q else RemoveAll(q - {users[0]}, users[1..])
  }

  /** The atomic script: all of them or none. */
  function Claim(s: State, id: nat): State
    requires id in s.plans
  {
    var p := s.plans[id];
    var key := p.search.key;
    if p.claimed || key !in s.queues || !AllQueued(s.queues[key], p.chosen) then s
    else
      s.(queues := s.queues[key := RemoveAll(s.queues[key], p.chosen)],
         plans := s.plans[id := p.(claimed := true)],
         formed := s.formed + [Formed(p.chosen, TicketsOf(s.queues[key], p.chosen), p.search)])
  }

  function ForgetAll(meta: map<UserId, nat>, users: seq<UserId>): map<UserId, nat>
    decreases |users|
  {
    if users == [] then meta else ForgetAll(meta - {users[0]}, users[1..])
  }

  /** The hash entries of a formed match go later than its queue entries. */
  function CleanUp(s: State, id: nat): State
    requires id in s.plans
  {
    var p := s.plans[id];
    if p.claimed && IsSize(p.search.key) then s.(meta := ForgetAll(s.meta, p.chosen)) else s
  }

  /**
   * Joins and leaves are steps as a whole (TableJoin, TableLeave), or command by command
   * (Unqueue, Forget, Admit), in which case anything may happen in between.
   */
  datatype Event =
    | CaroJoin(user: UserId, rp: int)
    | CaroLeave(user: UserId)
    | TableJoin(user: UserId, size: nat, rp: int)
    | TableLeave(user: UserId)
    | Unqueue(user: UserId, size: nat)
    | Forget(user: UserId)
    | Admit(user: UserId, size: nat, rp: int)
    | Decide(id: nat, search: Search, chosen: seq<UserId>)
    | Take(id: nat)
    | Clean(id: nat)

  /** `all` lists exactly the users of the queue, with their rank points. */
  ghost predicate Shows(q: Queue, all: seq<Listed>) {
    && Listing(all)
    && (forall x :: x in all ==> x.user in q && q[x.user].rp == x.rp)
    && (forall u :: u in q ==> u in UsersOf(all))
  }

  /** The choice the two services make from what they read. */
  ghost predicate Picked(search: Search, chosen: seq<UserId>) {
    if search.key == CARO
    then exists i: nat :: Nearest(search.seen, search.me, search.mine, i) && chosen == [search.me, search.seen[i].user]
    else
      && Choose(search.seen, search.me, search.key) == Some(chosen)
      && search.mine == search.seen[FindMe(search.seen, search.me).value].rp
  }

  /** Tables have 2 to 4 players, plans are new, and a plan is made from what its queue holds at that moment. */
  ghost predicate Allowed(s: State, e: Event) {
    match e
    case TableJoin(_, size, _) => IsSize(size)
    case Admit(_, size, _) => IsSize(size)
    case Decide(id, search, chosen) =>
      id !in s.plans && IsKey(search.key) && search.key in s.queues
      && Shows(s.queues[search.key], search.seen) && Picked(search, chosen)
    case Take(id) => id in s.plans
    case Clean(id) => id in s.plans
    case _ => true
  }

  ghost function Step(s: State, e: Event): State
    requires s.queues.Keys == EmptyQueues().Keys && Allowed(s, e)
  {
    match e
    case CaroJoin(user, rp) => Put(s, CARO, user, rp)
    case CaroLeave(user) => Drop(s, CARO, user)
    case TableJoin(user, size, rp) => JoinTable(s, user, size, rp)
    case TableLeave(user) => LeaveTables(s, user)
    case Unqueue(user, size) => Drop(s, size, user)
    case Forget(user) => Unname(s, user)
    case Admit(user, size, rp) => Enter(s, user, size, rp)
    case Decide(id, search, chosen) => s.(plans := s.plans[id := Plan(search, chosen, false)])
    case Take(id) => Claim(s, id)
    case Clean(id) => CleanUp(s, id)
  }

  // ---- what holds in every state ----

  ghost predicate InQueue(s: State, key: nat, user: UserId) { key in s.queues && user in s.queues[key] }

  ghost function TicketOf(s: State, key: nat, user: UserId): nat
    requires InQueue(s, key, user)
  {
    s.queues[key][user].ticket
  }

  ghost predicate RanksAs(s: State, key: nat, user: UserId, rp: int) {
    InQueue(s, key, user) && s.queues[key][user].rp == rp
  }

  /** Tickets in queues were issued, are all different, and belong to no match. */
  ghost predicate TicketsOk(s: State) {
    && (forall key, u :: InQueue(s, key, u) ==> TicketOf(s, key, u) < s.issued)
    && (forall key, u, key', u' :: InQueue(s, key, u) && InQueue(s, key', u') && (key != key' || u != u') ==>
         TicketOf(s, key, u) != TicketOf(s, key', u'))
    && (forall key, u, i :: InQueue(s, key, u) && 0 <= i < |s.formed| ==> TicketOf(s, key, u) !in s.formed[i].tickets)
  }

  /** No ticket is in two matches, nor twice in one; a match has one ticket for each of its players. */
  ghost predicate FormedOk(formed: seq<Formed>, issued: nat) {
    && (forall i :: 0 <= i < |formed| ==>
         Distinct(formed[i].users) && Distinct(formed[i].tickets) && |formed[i].users| == |formed[i].tickets|)
    && (forall i, t :: 0 <= i < |formed| && t in formed[i].tickets ==> t < issued)
    && (forall i, j, t :: 0 <= i < j < |formed| && t in formed[i].tickets ==> t !in formed[j].tickets)
  }

  /** What was claimed is what the services choose. */
  ghost predicate PlansOk(s: State) {
    && (forall id :: id in s.plans ==> PlanOk(s.plans[id].search, s.plans[id].chosen))
    && (forall i :: 0 <= i < |s.formed| ==> PlanOk(s.formed[i].search, s.formed[i].users))
  }

  ghost predicate PlanOk(search: Search, chosen: seq<UserId>) {
    IsKey(search.key) && Listing(search.seen) && Picked(search, chosen)
  }

  ghost predicate Sound(s: State) {
    && s.queues.Keys == EmptyQueues().Keys
    && TicketsOk(s) && FormedOk(s.formed, s.issued) && PlansOk(s)
  }

  /** A user waits at one table at most, and at no other than the one the hash names. */
  ghost predicate OneTable(s: State) {
    && (forall u :: u in s.meta ==> IsSize(s.meta[u]))
    && (forall a, b, u :: IsSize(a) && IsSize(b) && InQueue(s, a, u) && InQueue(s, b, u) ==> a == b)
    && (forall a, u :: IsSize(a) && InQueue(s, a, u) && u in s.meta ==> a == s.meta[u])
  }

  /** Whoever waits at a table is in the hash, so the service answers that they are queued. */
  ghost predicate Known(s: State) {
    forall a, u :: IsSize(a) && InQueue(s, a, u) ==> u in s.meta
  }

  // ---- the effect of each step on the queues ----

  /** Taking entries out of queues endangers nothing. */
  lemma FewerEntries(s: State, t: State)
    requires Sound(s) && t == s.(queues := t.queues, meta := t.meta) && t.queues.Keys == s.queues.Keys
    requires forall key, u :: InQueue(t, key, u) ==> InQueue(s, key, u) && t.queues[key][u] == s.queues[key][u]
    ensures Sound(t)
  {
    hide PlanOk;
  }

  lemma FewerTables(s: State, t: State)
    requires OneTable(s) && forall key, u :: InQueue(t, key, u) ==> InQueue(s, key, u)
    requires forall u :: u in t.meta ==> u in s.meta && t.meta[u] == s.meta[u]
    ensures OneTable(t)
  {
  }

  lemma DropRemoves(s: State, key: nat, user: UserId)
    ensures var t := Drop(s, key, user);
      && t == s.(queues := t.queues) && t.queues.Keys == s.queues.Keys
      && (forall k, u :: InQueue(t, k, u) <==> InQueue(s, k, u) && !(k == key && u == user))
      && forall k, u :: InQueue(t, k, u) ==> t.queues[k][u] == s.queues[k][u]
  {
  }

  lemma DropKeeps(s: State, key: nat, user: UserId)
    requires Sound(s)
    ensures Sound(Drop(s, key, user))
  {
    DropRemoves(s, key, user);
    hide Sound, Drop, InQueue;
    FewerEntries(s, Drop(s, key, user));
  }

  lemma UnnameRemoves(s: State, user: UserId)
    ensures forall k, u :: InQueue(Unname(s, user), k, u) <==> InQueue(s, k, u)
    ensures Sound(s) ==> Sound(Unname(s, user))
  {
    if Sound(s) {
      FewerEntries(s, Unname(s, user));
    }
  }

  /** The tables a leaving user is taken from: the one the hash names, or all of them. */
  predicate Leaves(s: State, key: nat, user: UserId) { if user in s.meta then key == s.meta[user] else IsSize(key) }

  lemma LeavingRemoves(s: State, user: UserId)
    requires s.queues.Keys == EmptyQueues().Keys
    ensures var t := LeaveTables(s, user);
      && t == s.(queues := t.queues, meta := s.meta - {user}) && t.queues.Keys == s.queues.Keys
      && (forall k, u :: InQueue(t, k, u) <==> InQueue(s, k, u) && !(u == user && Leaves(s, k, user)))
      && forall k, u :: InQueue(t, k, u) ==> t.queues[k][u] == s.queues[k][u]
  {
    if user in s.meta {
      DropRemoves(s, s.meta[user], user);
    } else {
      DropRemoves(s, 2, user);
      DropRemoves(Drop(s, 2, user), 3, user);
      DropRemoves(Drop(Drop(s, 2, user), 3, user), 4, user);
    }
    hide Drop;
  }

  lemma LeavingKeeps(s: State, user: UserId)
    requires Sound(s)
    ensures Sound(LeaveTables(s, user))
  {
    LeavingRemoves(s, user);
    hide LeaveTables, InQueue, TicketsOk, FormedOk, PlansOk;
    FewerEntries(s, LeaveTables(s, user));
  }

  /** After leaving, a user who waited at one table waits at none, whatever the hash had forgotten. */
  lemma LeavingClears(s: State, user: UserId)
    requires Sound(s) && OneTable(s)
    ensures var t := LeaveTables(s, user);
      && OneTable(t) && user !in t.meta && t.queues.Keys == s.queues.Keys
      && forall size :: IsSize(size) ==> !InQueue(t, size, user)
  {
    LeavingRemoves(s, user);
    hide TicketsOk, FormedOk, LeaveTables, InQueue, EmptyQueues;
    FewerTables(s, LeaveTables(s, user));
  }

  /** Putting an entry into a queue adds that entry and touches no other. */
  lemma PutAdds(s: State, key: nat, user: UserId, rp: int)
    requires key in s.queues
    ensures var t := Put(s, key, user, rp);
      && InQueue(t, key, user) && TicketOf(t, key, user) == s.issued && RanksAs(t, key, user, rp)
      && forall k, u :: (k != key || u != user) ==>
           (InQueue(t, k, u) <==> InQueue(s, k, u)) && (InQueue(s, k, u) ==> TicketOf(t, k, u) == TicketOf(s, k, u))
  {
  }

  lemma PutTickets(s: State, key: nat, user: UserId, rp: int)
    requires Sound(s) && IsKey(key)
    ensures key in s.queues && TicketsOk(Put(s, key, user, rp)) && FormedOk(s.formed, s.issued + 1)
  {
    assert key in s.queues;
    PutAdds(s, key, user, rp);
    var t := Put(s, key, user, rp);
    hide PlansOk, InQueue, TicketOf;
    forall k, u, i | InQueue(t, k, u) && 0 <= i < |t.formed| ensures TicketOf(t, k, u) !in t.formed[i].tickets {
      if k == key && u == user {
        assert forall x :: x in s.formed[i].tickets ==> x < s.issued;
      }
    }
  }

  lemma PutRest(s: State, key: nat, user: UserId, rp: int)
    requires key in s.queues
    ensures var t := Put(s, key, user, rp);
      t == s.(queues := t.queues, issued := s.issued + 1) && t.queues.Keys == s.queues.Keys
  {
  }

  lemma PutKeeps(s: State, key: nat, user: UserId, rp: int)
    requires Sound(s) && IsKey(key)
    ensures key in s.queues && Sound(Put(s, key, user, rp))
  {
    PutTickets(s, key, user, rp);
    PutRest(s, key, user, rp);
    hide TicketsOk, FormedOk, PlanOk, Put;
  }

  lemma EnterKeeps(s: State, user: UserId, size: nat, rp: int)
    requires Sound(s) && IsSize(size)
    ensures size in s.queues && Sound(Enter(s, user, size, rp))
  {
    PutKeeps(s, size, user, rp);
    var put := Put(s, size, user, rp);
    assert forall k, u :: InQueue(Enter(s, user, size, rp), k, u) == InQueue(put, k, u);
    hide Put, FormedOk, PlansOk;
  }

  /** Entering a table leaves a user at one table exactly when they wait at no other. */
  lemma EnterTables(s: State, user: UserId, size: nat, rp: int)
    requires OneTable(s) && IsSize(size) && size in s.queues
    ensures var t := Enter(s, user, size, rp);
      && (OneTable(t) <==> forall b :: IsSize(b) && b != size ==> !InQueue(s, b, user))
      && (Known(s) ==> Known(t))
      && t.formed == s.formed
  {
    PutAdds(s, size, user, rp);
    var put, t := Put(s, size, user, rp), Enter(s, user, size, rp);
    assert forall k, u :: InQueue(t, k, u) == InQueue(put, k, u);
    assert InQueue(t, size, user);
    hide InQueue, Put, TicketOf;
  }

  lemma JoinEnters(s: State, user: UserId, size: nat, rp: int)
    requires s.queues.Keys == EmptyQueues().Keys && IsSize(size)
    ensures size in LeaveTables(s, user).queues
    ensures JoinTable(s, user, size, rp) == Enter(LeaveTables(s, user), user, size, rp)
  {
    LeavingRemoves(s, user);
    hide LeaveTables, Enter, InQueue;
  }

  /** After a join the user waits at that table alone, with those rank points, and the hash names it. */
  lemma JoinQueues(s: State, user: UserId, size: nat, rp: int)
    requires Sound(s) && OneTable(s) && IsSize(size)
    ensures size in s.queues
    ensures var t := JoinTable(s, user, size, rp);
      && RanksAs(t, size, user, rp) && user in t.meta && t.meta[user] == size
      && forall b :: IsSize(b) && b != size ==> !InQueue(t, b, user)
  {
    assert size in s.queues;
    LeavingClears(s, user);
    JoinEnters(s, user, size, rp);
    var out := LeaveTables(s, user);
    PutAdds(out, size, user, rp);
    var put, t := Put(out, size, user, rp), Enter(out, user, size, rp);
    assert forall k, u :: InQueue(t, k, u) == InQueue(put, k, u);
    hide LeaveTables, TicketsOk, FormedOk, PlansOk, OneTable;
  }

  lemma ClaimTickets(s: State, key: nat, chosen: seq<UserId>)
    requires Sound(s) && key in s.queues && AllQueued(s.queues[key], chosen) && Distinct(chosen)
    ensures var tickets := TicketsOf(s.queues[key], chosen);
      && Distinct(tickets)
      && (forall t :: t in tickets ==> t < s.issued)
      && (forall t, i :: t in tickets && 0 <= i < |s.formed| ==> t !in s.formed[i].tickets)
      && forall k, u :: InQueue(s, k, u) && (k != key || u !in chosen) ==> TicketOf(s, k, u) !in tickets
  {
    hide FormedOk, PlansOk;
    var q, tickets := s.queues[key], TicketsOf(s.queues[key], chosen);
    forall i | 0 <= i < |chosen| ensures InQueue(s, key, chosen[i]) && tickets[i] == TicketOf(s, key, chosen[i]) {
      assert chosen[i] in chosen;
    }
    forall i, j | 0 <= i < j < |tickets| ensures tickets[i] != tickets[j] {
      assert chosen[i] != chosen[j];
    }
    forall k, u | InQueue(s, k, u) && (k != key || u !in chosen) ensures TicketOf(s, k, u) !in tickets {
      forall i | 0 <= i < |tickets| ensures tickets[i] != TicketOf(s, k, u) {
        assert chosen[i] in chosen;
      }
    }
  }

  /** Whoever is chosen is chosen once. */
  lemma PickedDistinct(search: Search, chosen: seq<UserId>)
    requires PlanOk(search, chosen)
    ensures Distinct(chosen)
  {
    if search.key != CARO {
      ChosenAreClosest(search.seen, search.me, search.key);
    }
  }

  /** A claim forms a match of entries nobody else has, or changes nothing at all. */
  lemma ClaimKeeps(s: State, id: nat)
    requires Sound(s) && id in s.plans
    ensures var t := Claim(s, id);
      && Sound(t)
      && (t == s || (|t.formed| == |s.formed| + 1 && t.formed[..|s.formed|] == s.formed
           && t.formed[|s.formed|].users == s.plans[id].chosen && t.formed[|s.formed|].search == s.plans[id].search
           && forall u :: u in s.plans[id].chosen ==> !InQueue(t, s.plans[id].search.key, u)))
  {
    var t, p := Claim(s, id), s.plans[id];
    if t != s {
      PickedDistinct(p.search, p.chosen);
      ClaimTickets(s, p.search.key, p.chosen);
      ClaimRemoves(s, id);
      FormedStays(s, t, TicketsOf(s.queues[p.search.key], p.chosen));
      ClaimedTicketsOk(s, t, p.search.key, p.chosen);
      hide TicketsOk, FormedOk, PlanOk, RemoveAll, InQueue, TicketOf;
      assert forall i :: 0 <= i < |s.formed| ==> t.formed[i] == s.formed[i];
    }
  }

  /** What a successful claim takes out. */
  lemma ClaimRemoves(s: State, id: nat)
    requires id in s.plans && Claim(s, id) != s
    ensures var t, p := Claim(s, id), s.plans[id];
      && t.queues.Keys == s.queues.Keys && t.meta == s.meta
      && (forall k, u :: InQueue(t, k, u) <==> InQueue(s, k, u) && (k != p.search.key || u !in p.chosen))
      && forall k, u :: InQueue(t, k, u) ==> TicketOf(t, k, u) == TicketOf(s, k, u)
  {
    hide TicketsOf;
  }

  lemma ClaimedTicketsOk(s: State, t: State, key: nat, chosen: seq<UserId>)
    requires TicketsOk(s) && t.issued == s.issued && |t.formed| == |s.formed| + 1 && t.formed[..|s.formed|] == s.formed
    requires forall k, u :: InQueue(t, k, u) <==> InQueue(s, k, u) && (k != key || u !in chosen)
    requires forall k, u :: InQueue(t, k, u) ==> TicketOf(t, k, u) == TicketOf(s, k, u)
    requires forall k, u :: InQueue(s, k, u) && (k != key || u !in chosen) ==>
      TicketOf(s, k, u) !in t.formed[|s.formed|].tickets
    ensures TicketsOk(t)
  {
    hide InQueue, TicketOf;
    forall k, u, i | InQueue(t, k, u) && 0 <= i < |t.formed| ensures TicketOf(t, k, u) !in t.formed[i].tickets {
      assert i < |s.formed| ==> t.formed[i] == s.formed[i];
    }
  }

  lemma FormedStays(s: State, t: State, tickets: seq<nat>)
    requires FormedOk(s.formed, s.issued) && |t.formed| == |s.formed| + 1 && t.formed[..|s.formed|] == s.formed
    requires t.formed[|s.formed|].tickets == tickets && Distinct(tickets) && (forall x :: x in tickets ==> x < s.issued)
    requires Distinct(t.formed[|s.formed|].users) && |t.formed[|s.formed|].users| == |tickets|
    requires forall x, i :: x in tickets && 0 <= i < |s.formed| ==> x !in s.formed[i].tickets
    ensures FormedOk(t.formed, s.issued)
  {
    assert forall i :: 0 <= i < |s.formed| ==> t.formed[i] == s.formed[i];
    hide Distinct;
  }

  lemma {:induction false} ForgetsOnly(meta: map<UserId, nat>, users: seq<UserId>)
    ensures forall u :: u in ForgetAll(meta, users) <==> u in meta && u !in users
    ensures forall u :: u in ForgetAll(meta, users) ==> ForgetAll(meta, users)[u] == meta[u]
    decreases |users|
  {
    if users != [] {
      assert users == [users[0]] + users[1..];
      ForgetsOnly(meta - {users[0]}, users[1..]);
    }
  }

  lemma CleanRemoves(s: State, id: nat)
    requires id in s.plans
    ensures var t, p := CleanUp(s, id), s.plans[id];
      && t == s.(meta := t.meta)
      && (forall k, u :: InQueue(t, k, u) <==> InQueue(s, k, u))
      && (forall u :: u in t.meta <==> u in s.meta && !(p.claimed && IsSize(p.search.key) && u in p.chosen))
      && (forall u :: u in t.meta ==> t.meta[u] == s.meta[u])
  {
    ForgetsOnly(s.meta, s.plans[id].chosen);
    hide ForgetAll;
  }

  lemma CleanKeeps(s: State, id: nat)
    requires Sound(s) && id in s.plans
    ensures Sound(CleanUp(s, id))
  {
    CleanRemoves(s, id);
    hide TicketsOk, FormedOk, PlansOk, CleanUp;
    FewerEntries(s, CleanUp(s, id));
  }

  lemma DecideRest(s: State, id: nat, p: Plan)
    ensures var t := s.(plans := s.plans[id := p]);
      forall k, u :: InQueue(t, k, u) == InQueue(s, k, u)
  {
  }

  lemma DecideKeeps(s: State, id: nat, p: Plan)
    requires Sound(s) && PlanOk(p.search, p.chosen)
    ensures Sound(s.(plans := s.plans[id := p]))
  {
    DecideRest(s, id, p);
    hide PlanOk;
  }

  // ---- no entry is consumed twice ----

  lemma StepKeeps(s: State, e: Event)
    requires Sound(s) && Allowed(s, e)
    ensures Sound(Step(s, e)) && s.formed <= Step(s, e).formed
  {
    hide TicketsOk, FormedOk, PlansOk;
    match e
    case CaroJoin(user, rp) => PutKeeps(s, CARO, user, rp);
    case CaroLeave(user) => DropKeeps(s, CARO, user);
    case TableJoin(user, size, rp) =>
      LeavingKeeps(s, user);
      JoinEnters(s, user, size, rp);
      EnterKeeps(LeaveTables(s, user), user, size, rp);
      LeavingRemoves(s, user);
    case TableLeave(user) =>
      LeavingKeeps(s, user);
      LeavingRemoves(s, user);
    case Unqueue(user, size) => DropKeeps(s, size, user);
    case Forget(user) => UnnameRemoves(s, user);
    case Admit(user, size, rp) => EnterKeeps(s, user, size, rp);
    case Decide(id, search, chosen) => DecideKeeps(s, id, Plan(search, chosen, false));
    case Take(id) => ClaimKeeps(s, id);
    case Clean(id) => CleanKeeps(s, id);
  }

  /** The caller was queued with exactly these rank points at some of these states. */
  ghost predicate WasRank(states: seq<State>, search: Search) {
    exists j :: 0 <= j < |states| && RanksAs(states[j], search.key, search.me, search.mine)
  }

  /**
   * In Caro an instance reads the caller's rank points first and the queue later, with
   * anything in between; at the tables both come from one reading (see Picked).
   */
  ghost predicate Measured(states: seq<State>, e: Event) {
    e.Decide? && e.search.key == CARO ==> WasRank(states, e.search)
  }

  ghost predicate Run(states: seq<State>, events: seq<Event>) {
    && |states| == |events| + 1
    && forall i :: 0 <= i < |events| ==>
         states[i].queues.Keys == EmptyQueues().Keys && Allowed(states[i], events[i])
         && Measured(states[..i + 1], events[i]) && states[i + 1] == Step(states[i], events[i])
  }

  lemma RunFront(states: seq<State>, events: seq<Event>)
    requires Run(states, events) && events != []
    ensures Run(states[..|events|], events[..|events| - 1])
  {
    var front, before := states[..|events|], events[..|events| - 1];
    forall i | 0 <= i < |before| ensures Measured(front[..i + 1], before[i]) {
      assert front[..i + 1] == states[..i + 1];
    }
    hide Step, Allowed, Measured, EmptyQueues;
  }

  /** In every interleaving, even command by command, no queue entry is part of two matches. */
  lemma {:induction false} EntriesAreConsumedOnce(states: seq<State>, events: seq<Event>)
    requires Run(states, events) && states[0] == Start()
    ensures Sound(states[|events|])
    decreases |events|
  {
    hide Sound, Step;
    if events == [] {
      assert Sound(Start()) by { StartIsSound(); }
    } else {
      var last := |events| - 1;
      RunFront(states, events);
      EntriesAreConsumedOnce(states[..|events|], events[..last]);
      StepKeeps(states[last], events[last]);
    }
  }

  lemma StartIsSound()
    ensures Sound(Start()) && OneTable(Start()) && Known(Start())
  {
    assert forall k, u :: !InQueue(Start(), k, u);
  }

  // ---- every match is the closest group that was seen ----

  /** In Caro the caller finds the other player; at a table everybody in the group was found. */
  ghost predicate Found(m: Formed, u: UserId) { u in m.users && (m.search.key == CARO ==> u != m.search.me) }

  /** Nobody who was seen and left out was closer to the caller's rank points than anybody chosen. */
  ghost predicate Closest(m: Formed) {
    && Distinct(m.users)
    && |m.users| == (if m.search.key == CARO then 2 else m.search.key)
    && (if m.search.key == CARO then m.search.me in m.users else Listed(m.search.me, m.search.mine) in m.search.seen)
    && forall x, y :: x in m.search.seen && y in m.search.seen && Found(m, x.user) && y.user !in m.users ==>
         Distance(x.rp, m.search.mine) <= Distance(y.rp, m.search.mine)
  }

  lemma PickedIsClosest(m: Formed)
    requires PlanOk(m.search, m.users)
    ensures Closest(m)
  {
    var all, users, mine := m.search.seen, m.users, m.search.mine;
    PickedDistinct(m.search, users);
    forall x, y | x in all && y in all && Found(m, x.user) && y.user !in users
      ensures Distance(x.rp, mine) <= Distance(y.rp, mine)
    {
      var i :| 0 <= i < |all| && all[i] == x;
      var k :| 0 <= k < |all| && all[k] == y;
      if m.search.key == CARO {
        var n: nat :| Nearest(all, m.search.me, mine, n) && users == [m.search.me, all[n].user];
        assert UsersOf(all)[i] == UsersOf(all)[n];
        assert i == n;
        assert users[0] in users;
        assert y.user != m.search.me;
      } else {
        ChosenAreClosest(all, m.search.me, m.search.key);
      }
    }
    if m.search.key != CARO {
      ChosenAreClosest(all, m.search.me, m.search.key);
      assert all[FindMe(all, m.search.me).value] in all;
    } else {
      assert users[0] in users;
    }
  }

  ghost predicate QueueShows(s: State, search: Search) {
    search.key in s.queues && Shows(s.queues[search.key], search.seen)
  }

  /** A search measured from the rank points its caller was queued with, and saw what its queue held then or later. */
  ghost predicate WasRead(states: seq<State>, search: Search) {
    exists i, j :: 0 <= i <= j < |states|
      && RanksAs(states[i], search.key, search.me, search.mine) && QueueShows(states[j], search)
  }

  lemma ReadBefore(states: seq<State>, n: nat, search: Search)
    requires n <= |states| && WasRead(states[..n], search)
    ensures WasRead(states, search)
  {
    var i, j :| 0 <= i <= j < n && RanksAs(states[..n][i], search.key, search.me, search.mine) && QueueShows(states[..n][j], search);
    assert states[..n][i] == states[i] && states[..n][j] == states[j];
  }

  lemma PlansAfter(s: State, e: Event)
    requires Sound(s) && Allowed(s, e)
    ensures var t := Step(s, e);
      && (forall id :: id in t.plans ==>
           (id in s.plans && t.plans[id].search == s.plans[id].search) || (e.Decide? && id == e.id && t.plans[id].search == e.search))
      && (forall i :: 0 <= i < |t.formed| ==>
           (i < |s.formed| && t.formed[i] == s.formed[i])
           || (e.Take? && e.id in s.plans && t.formed[i].search == s.plans[e.id].search))
  {
    hide TicketsOk, FormedOk, PlansOk;
    match e
    case TableJoin(user, size, rp) =>
      JoinEnters(s, user, size, rp);
      LeavingRemoves(s, user);
    case TableLeave(user) => LeavingRemoves(s, user);
    case Take(id) => ClaimKeeps(s, id);
    case _ =>
  }

  /**
   * Every match formed in any run is the group closest to the rank points its caller was queued
   * with, among what the queue held at that point of the run (in Caro at that point or later).
   */
  lemma {:induction false} MatchesAreClosest(states: seq<State>, events: seq<Event>)
    requires Run(states, events) && states[0] == Start()
    ensures forall id :: id in states[|events|].plans ==> WasRead(states, states[|events|].plans[id].search)
    ensures forall i :: 0 <= i < |states[|events|].formed| ==>
      Closest(states[|events|].formed[i]) && WasRead(states, states[|events|].formed[i].search)
    decreases |events|
  {
    hide Sound, Step, Closest, WasRead, Shows, Picked, Measured;
    if events != [] {
      var last := |events| - 1;
      var s, e, t := states[last], events[last], states[|events|];
      RunFront(states, events);
      EntriesAreConsumedOnce(states, events);
      EntriesAreConsumedOnce(states[..|events|], events[..last]);
      MatchesAreClosest(states[..|events|], events[..last]);
      PlansAfter(s, e);
      forall search | WasRead(states[..|events|], search) ensures WasRead(states, search) {
        ReadBefore(states, |events|, search);
      }
      if e.Decide? {
        ReadNow(states, last, e);
      }
      forall i | 0 <= i < |t.formed| ensures Closest(t.formed[i]) {
        FormedPlanOk(t, i);
        PickedIsClosest(t.formed[i]);
      }
    }
  }

  lemma ReadNow(states: seq<State>, n: nat, e: Event)
    requires n < |states| && e.Decide? && Allowed(states[n], e) && Measured(states[..n + 1], e)
    ensures WasRead(states, e.search)
  {
    var search := e.search;
    assert QueueShows(states[n], search);
    if search.key == CARO {
      var k :| 0 <= k < n + 1 && RanksAs(states[..n + 1][k], search.key, search.me, search.mine);
      assert RanksAs(states[k], search.key, search.me, search.mine);
    } else {
      var mine := search.seen[FindMe(search.seen, search.me).value];
      assert mine in search.seen;
      assert RanksAs(states[n], search.key, search.me, search.mine);
    }
  }

  lemma FormedPlanOk(s: State, i: nat)
    requires Sound(s) && i < |s.formed|
    ensures PlanOk(s.formed[i].search, s.formed[i].users)
  {
  }

  // ---- exactly when players are at two tables, or forgotten ----

  /** A join's last command runs although the user has got to another table meanwhile. */
  ghost predicate Doubles(s: State, e: Event) {
    e.Admit? && exists b :: IsSize(b) && b != e.size && InQueue(s, b, e.user)
  }

  /** Entries of the hash are deleted although their user waits at a table (again). */
  ghost predicate Forgets(s: State, e: Event) {
    || (e.Clean? && e.id in s.plans && s.plans[e.id].claimed && IsSize(s.plans[e.id].search.key)
        && exists a, u :: IsSize(a) && u in s.plans[e.id].chosen && InQueue(s, a, u))
    || (e.Forget? && exists a :: IsSize(a) && InQueue(s, a, e.user))
  }

  lemma OneTableIff(s: State, e: Event)
    requires Sound(s) && OneTable(s) && Allowed(s, e)
    ensures OneTable(Step(s, e)) <==> !Doubles(s, e)
  {
    hide TicketsOk, FormedOk, PlansOk;
    match e
    case CaroJoin(user, rp) =>
      PutAdds(s, CARO, user, rp);
      PutRest(s, CARO, user, rp);
      CaroIsNoTable(s, Put(s, CARO, user, rp), user);
    case CaroLeave(user) =>
      DropRemoves(s, CARO, user);
      FewerTables(s, Drop(s, CARO, user));
    case TableJoin(user, size, rp) =>
      LeavingClears(s, user);
      JoinEnters(s, user, size, rp);
      EnterTables(LeaveTables(s, user), user, size, rp);
    case TableLeave(user) => LeavingClears(s, user);
    case Unqueue(user, size) =>
      DropRemoves(s, size, user);
      FewerTables(s, Drop(s, size, user));
    case Forget(user) =>
      UnnameRemoves(s, user);
      FewerTables(s, Unname(s, user));
    case Admit(user, size, rp) => EnterTables(s, user, size, rp);
    case Decide(id, search, chosen) =>
      DecideRest(s, id, Plan(search, chosen, false));
      FewerTables(s, Step(s, e));
    case Take(id) =>
      if Claim(s, id) != s {
        ClaimRemoves(s, id);
        FewerTables(s, Claim(s, id));
      }
    case Clean(id) =>
      CleanRemoves(s, id);
      FewerTables(s, CleanUp(s, id));
  }

  lemma CaroIsNoTable(s: State, t: State, user: UserId)
    requires OneTable(s) && t.meta == s.meta
    requires forall k, u :: k != CARO || u != user ==> (InQueue(t, k, u) <==> InQueue(s, k, u))
    ensures OneTable(t) && (Known(s) ==> Known(t))
  {
    hide InQueue;
  }

  /**
   * A step makes the hash forget a waiting player exactly when it deletes entries of users who
   * are at a table at that moment: a clean-up after one of its players queued again, or a
   * leave whose last command comes after a join. No other step does.
   */
  lemma KnownIff(s: State, e: Event)
    requires Sound(s) && OneTable(s) && Known(s) && Allowed(s, e)
    ensures Known(Step(s, e)) <==> !Forgets(s, e)
  {
    hide TicketsOk, FormedOk, PlansOk;
    match e
    case CaroJoin(user, rp) =>
      PutAdds(s, CARO, user, rp);
      PutRest(s, CARO, user, rp);
      CaroIsNoTable(s, Put(s, CARO, user, rp), user);
    case CaroLeave(user) => DropRemoves(s, CARO, user);
    case TableJoin(user, size, rp) =>
      LeavingStaysKnown(s, user);
      LeavingClears(s, user);
      JoinEnters(s, user, size, rp);
      EnterTables(LeaveTables(s, user), user, size, rp);
    case TableLeave(user) => LeavingStaysKnown(s, user);
    case Unqueue(user, size) => DropRemoves(s, size, user);
    case Forget(user) => UnnameRemoves(s, user);
    case Admit(user, size, rp) => EnterTables(s, user, size, rp);
    case Decide(id, search, chosen) => DecideRest(s, id, Plan(search, chosen, false));
    case Take(id) =>
      if Claim(s, id) != s {
        ClaimRemoves(s, id);
      }
    case Clean(id) =>
      CleanRemoves(s, id);
      CleanKnownIff(s, id);
  }

  lemma LeavingStaysKnown(s: State, user: UserId)
    requires Sound(s) && OneTable(s) && Known(s)
    ensures Known(LeaveTables(s, user))
  {
    LeavingRemoves(s, user);
    hide TicketsOk, FormedOk, PlansOk, LeaveTables, InQueue;
  }

  lemma CleanKnownIff(s: State, id: nat)
    requires Known(s) && id in s.plans
    ensures Known(CleanUp(s, id)) <==> !Forgets(s, Clean(id))
  {
    CleanRemoves(s, id);
    hide InQueue, CleanUp;
  }

  ghost predicate Agreeing(states: seq<State>, n: nat)
    requires n < |states|
  {
    forall i :: 0 <= i <= n ==> OneTable(states[i]) && Known(states[i])
  }

  ghost predicate Careful(states: seq<State>, events: seq<Event>, n: nat)
    requires n <= |events| && n < |states|
  {
    forall i :: 0 <= i < n ==> !Doubles(states[i], events[i]) && !Forgets(states[i], events[i])
  }

  /**
   * A run, command by command or not, keeps every player at one table and every waiting player
   * in the hash exactly when none of its steps doubles or forgets.
   */
  lemma {:induction false} AlwaysKnownIff(states: seq<State>, events: seq<Event>)
    requires Run(states, events) && states[0] == Start()
    ensures Agreeing(states, |events|) <==> Careful(states, events, |events|)
    decreases |events|
  {
    hide Sound, Step, OneTable, Known, Doubles, Forgets, Allowed;
    if events == [] {
      StartIsSound();
    } else {
      var last := |events| - 1;
      var front, before := states[..|events|], events[..last];
      RunFront(states, events);
      AlwaysKnownIff(front, before);
      EntriesAreConsumedOnce(front, before);
      assert forall i :: 0 <= i < |events| ==> front[i] == states[i];
      assert forall i :: 0 <= i < last ==> before[i] == events[i];
      assert Agreeing(states, last) <==> Agreeing(front, last);
      assert Careful(states, events, last) <==> Careful(front, before, last);
      assert Agreeing(states, last + 1) <==> Agreeing(states, last) && OneTable(states[last + 1]) && Known(states[last + 1]);
      assert Careful(states, events, last + 1) <==>
        Careful(states, events, last) && !Doubles(states[last], events[last]) && !Forgets(states[last], events[last]);
      if OneTable(states[last]) && Known(states[last]) {
        OneTableIff(states[last], events[last]);
        KnownIff(states[last], events[last]);
      }
    }
  }

  // ---- both happen ----

  /** Two players are matched, and one of them queues again before the match is cleaned up. */
  ghost function LateCleanUp(): seq<Event> {
    [TableJoin(1, 2, 0), TableJoin(2, 2, 0), Decide(0, PairSearch(), [1, 2]), Take(0), TableJoin(1, 3, 0), Clean(0)]
  }

  ghost function PairSearch(): Search { Search(2, 1, 0, [Listed(1, 0), Listed(2, 0)]) }

  ghost function Pair(): Queue { map[1 := Entry(0, 0), 2 := Entry(0, 1)] }

  lemma PairSorted()
    ensures ByDistance([Listed(1, 0), Listed(2, 0)], 0) == [Listed(1, 0), Listed(2, 0)]
    ensures FindMe([Listed(1, 0), Listed(2, 0)], 1) == Some(0)
  {
    var all := [Listed(1, 0), Listed(2, 0)];
    assert all[..1] == [Listed(1, 0)] && [Listed(1, 0)][..0] == [];
    assert ByDistance([Listed(1, 0)], 0) == [Listed(1, 0)];
    assert [Listed(1, 0)][1..] == [];
  }

  lemma PairIsPicked()
    ensures Picked(PairSearch(), [1, 2])
  {
    hide ByDistance, FindMe, Nearest;
    var all := [Listed(1, 0), Listed(2, 0)];
    PairSorted();
    assert UsersOf(all) == [1, 2];
    assert all[..2] == all;
  }

  lemma PairIsShown()
    ensures Shows(Pair(), PairSearch().seen)
  {
    var users := UsersOf([Listed(1, 0), Listed(2, 0)]);
    assert users == [1, 2];
    assert users[0] in users && users[1] in users;
  }

  lemma DropAbsent(s: State, key: nat, user: UserId)
    requires !InQueue(s, key, user)
    ensures Drop(s, key, user) == s
  {
    if key in s.queues {
      assert s.queues[key] - {user} == s.queues[key];
      assert s.queues[key := s.queues[key]] == s.queues;
    }
  }

  lemma FirstJoin(s: State, user: UserId, size: nat)
    requires size in s.queues && user !in s.meta && forall k :: IsSize(k) ==> !InQueue(s, k, user)
    ensures JoinTable(s, user, size, 0) == Enter(s, user, size, 0)
  {
    DropAbsent(s, 2, user);
    DropAbsent(s, 3, user);
    DropAbsent(s, 4, user);
    assert s.meta - {user} == s.meta;
    hide Drop, InQueue, Enter;
  }

  /**
   * The hash is cleaned after the claim, so the player is then at a table the hash does not
   * know about: asked whether they are queued, the service says no.
   */
  lemma LateCleanUpForgets() returns (states: seq<State>)
    ensures Run(states, LateCleanUp()) && states[0] == Start()
    ensures Forgets(states[5], Clean(0)) && InQueue(states[6], 3, 1) && 1 !in states[6].meta
  {
    hide *;
    FirstQueues();
    SecondQueues();
    DecideOnPair();
    PairIsTaken();
    OneQueuesAgain();
    LateForgotten();
    LateEvents();
    states := [Start(), Once(), Queued(), Planned(), Taken(), Again(), CleanUp(Again(), 0)];
    GoesIsRun(states, LateCleanUp());
  }

  lemma LateEvents()
    ensures LateCleanUp() ==
      [TableJoin(1, 2, 0), TableJoin(2, 2, 0), Decide(0, PairSearch(), [1, 2]), Take(0), TableJoin(1, 3, 0), Clean(0)]
    ensures PairSearch().key != CARO
  {
  }

  ghost predicate Goes(s: State, e: Event, t: State) {
    s.queues.Keys == EmptyQueues().Keys && Allowed(s, e) && t == Step(s, e)
  }

  ghost function Planned(): State { Queued().(plans := map[0 := Plan(PairSearch(), [1, 2], false)]) }

  ghost function Once(): State { State(EmptyQueues()[2 := map[1 := Entry(0, 0)]], map[1 := 2], 1, map[], []) }

  ghost function Queued(): State { State(EmptyQueues()[2 := Pair()], map[1 := 2, 2 := 2], 2, map[], []) }

  ghost function Taken(): State {
    State(EmptyQueues(), map[1 := 2, 2 := 2], 2, map[0 := Plan(PairSearch(), [1, 2], true)],
      [Formed([1, 2], [0, 1], PairSearch())])
  }

  ghost function Again(): State {
    Taken().(queues := EmptyQueues()[3 := map[1 := Entry(0, 2)]], meta := map[1 := 3, 2 := 2], issued := 3)
  }

  lemma FirstQueues()
    ensures Goes(Start(), TableJoin(1, 2, 0), Once())
  {
    FirstJoin(Start(), 1, 2);
    hide JoinTable;
  }

  lemma SecondQueues()
    ensures Goes(Once(), TableJoin(2, 2, 0), Queued())
  {
    FirstJoin(Once(), 2, 2);
    hide JoinTable;
  }

  lemma DecideOnPair()
    ensures Goes(Queued(), Decide(0, PairSearch(), [1, 2]), Planned())
  {
    PairIsPicked();
    PairIsShown();
    hide Picked, Shows;
  }

  lemma PairIsTaken()
    ensures Goes(Planned(), Take(0), Taken())
  {
    assert RemoveAll(Pair(), [1, 2]) == map[];
    assert TicketsOf(Pair(), [1, 2]) == [0, 1];
    hide RemoveAll, TicketsOf;
  }

  lemma OneQueuesAgain()
    ensures Goes(Taken(), TableJoin(1, 3, 0), Again())
  {
    DropAbsent(Taken(), 2, 1);
    hide Drop;
    assert Taken().meta - {1} == map[2 := 2];
  }

  lemma LateForgotten()
    ensures 0 in Again().plans
    ensures Goes(Again(), Clean(0), CleanUp(Again(), 0)) && Forgets(Again(), Clean(0))
    ensures InQueue(CleanUp(Again(), 0), 3, 1) && 1 !in CleanUp(Again(), 0).meta
  {
    assert InQueue(Again(), 3, 1);
    assert [1, 2][0] in [1, 2];
    CleanRemoves(Again(), 0);
    hide CleanUp;
  }

  /** Two joins of one user at the same time: both look and leave before either enters. */
  ghost function TwoJoins(): seq<Event> {
    [Unqueue(1, 2), Unqueue(1, 3), Unqueue(1, 4), Forget(1), Unqueue(1, 2), Unqueue(1, 3), Unqueue(1, 4), Forget(1),
     Admit(1, 2, 0), Admit(1, 3, 0)]
  }

  lemma NothingToLeave(k: nat)
    ensures Goes(Start(), Unqueue(1, k), Start()) && Goes(Start(), Forget(1), Start())
  {
    DropAbsent(Start(), k, 1);
    hide Drop;
    assert Start().meta - {1} == Start().meta;
  }

  lemma EntersTwice()
    ensures Goes(Start(), Admit(1, 2, 0), Once())
    ensures 3 in Once().queues && Goes(Once(), Admit(1, 3, 0), Enter(Once(), 1, 3, 0))
    ensures InQueue(Once(), 2, 1) && InQueue(Enter(Once(), 1, 3, 0), 2, 1) && InQueue(Enter(Once(), 1, 3, 0), 3, 1)
  {
  }

  lemma TwoJoinsGo()
    ensures |TwoJoins()| == 10 && forall i :: 0 <= i < 8 ==> Goes(Start(), TwoJoins()[i], Start())
    ensures TwoJoins()[8] == Admit(1, 2, 0) && TwoJoins()[9] == Admit(1, 3, 0)
    ensures forall i :: 0 <= i < 10 ==> !TwoJoins()[i].Decide?
  {
    hide Goes;
    NothingToLeave(2);
    NothingToLeave(3);
    NothingToLeave(4);
  }

  lemma GoesIsRun(states: seq<State>, events: seq<Event>)
    requires |states| == |events| + 1
    requires forall i :: 0 <= i < |events| ==> Goes(states[i], events[i], states[i + 1])
    requires forall i :: 0 <= i < |events| && events[i].Decide? ==> events[i].search.key != CARO
    ensures Run(states, events)
  {
    hide Step, Allowed, EmptyQueues, WasRank;
    forall i | 0 <= i < |events|
      ensures states[i].queues.Keys == EmptyQueues().Keys && Allowed(states[i], events[i])
      ensures Measured(states[..i + 1], events[i]) && states[i + 1] == Step(states[i], events[i])
    {
      assert Goes(states[i], events[i], states[i + 1]);
    }
  }

  /** The user then waits at two tables. */
  lemma TwoJoinsAtOnce() returns (states: seq<State>)
    ensures Run(states, TwoJoins()) && states[0] == Start()
    ensures |TwoJoins()| == 10 && Doubles(states[9], TwoJoins()[9])
    ensures InQueue(states[10], 2, 1) && InQueue(states[10], 3, 1)
  {
    hide Goes, TwoJoins, InQueue, Enter, Start, Once, Run;
    TwoJoinsGo();
    EntersTwice();
    states := seq(9, _ => Start()) + [Once(), Enter(Once(), 1, 3, 0)];
    GoesIsRun(states, TwoJoins());
    assert IsSize(2);
  }

  // ---- the store ----

  /** The sorted sets and the hash, with the operations instances perform on them; `issued` only numbers the entries. */
  class Store {
    var queues: map<nat, Queue>
    var meta: map<UserId, nat>
    var issued: nat

    ghost function View(plans: map<nat, Plan>, formed: seq<Formed>): State
      reads this
    {
      State(queues, meta, issued, plans, formed)
    }

    constructor ()
      ensures View(map[], []) == Start()
    {
      queues, meta, issued := EmptyQueues(), map[], 0;
    }

    method RemoveFrom(key: nat, user: UserId)
      modifies `queues
      ensures View(map[], []) == Drop(old(View(map[], [])), key, user)
    {
      if key in queues {
        queues := queues[key := queues[key] - {user}];
      }
    }

    method Dequeue(user: UserId)
      modifies `queues, `meta
      ensures View(map[], []) == LeaveTables(old(View(map[], [])), user)
    {
      if user in meta {
        RemoveFrom(meta[user], user);
      } else {
        RemoveFrom(2, user);
        RemoveFrom(3, user);
        RemoveFrom(4, user);
      }
      meta := meta - {user};
    }

    method Enqueue(user: UserId, size: nat, rp: int)
      requires queues.Keys == EmptyQueues().Keys && IsSize(size)
      modifies this
      ensures View(map[], []) == JoinTable(old(View(map[], [])), user, size, rp)
    {
      LeavingRemoves(View(map[], []), user);
      Dequeue(user);
      var q: Queue := queues[size];
      queues := queues[size := q[user := Entry(rp, issued)]];
      meta := meta[user := size];
      issued := issued + 1;
    }

    /** The claim script: first every player is looked up, and only then are they removed. */
    method EvalClaim(key: nat, chosen: seq<UserId>) returns (claimed: bool)
      requires key in queues
      modifies `queues
      ensures claimed == AllQueued(old(queues)[key], chosen)
      ensures queues == if claimed then old(queues)[key := RemoveAll(old(queues)[key], chosen)] else old(queues)
    {
      for i := 0 to |chosen|
        invariant forall k :: 0 <= k < i ==> chosen[k] in queues[key]
      {
        if chosen[i] !in queues[key] {
          return false;
        }
      }
      var q := queues[key];
      for i := 0 to |chosen|
        invariant RemoveAll(q, chosen[i..]) == RemoveAll(queues[key], chosen)
      {
        q := q - {chosen[i]};
      }
      queues := queues[key := q];
      claimed := true;
    }
  }
}
