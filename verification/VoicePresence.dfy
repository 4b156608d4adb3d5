/**
 * Who is in which voice channel, kept in several keys of a shared store
 * (src/voice-gateway/voice-presence.service.ts). Each script and each multi command is one
 * atomic step.
 */
module VoicePresence {

  type ChannelId = nat
  type UserId = nat
  type SocketId = nat

  /** `sockets` has no entry for an empty set, as the store drops empty sets. */
  datatype State = State(
    channels: map<ChannelId, set<UserId>>,
    pointer: map<UserId, ChannelId>,
    sockets: map<(ChannelId, UserId), set<SocketId>>,
    mic: set<(ChannelId, UserId)>)

  function MembersOf(s: State, ch: ChannelId): set<UserId> { if ch in s.channels then s.channels[ch] else {} }

  function SocketsOf(s: State, ch: ChannelId, u: UserId): set<SocketId> {
    if (ch, u) in s.sockets then s.sockets[(ch, u)] else {}
  }

  function WithMembers(s: State, ch: ChannelId, members: set<UserId>): State {
    s.(channels := if members == {} then s.channels - {ch} else s.channels[ch := members])
  }

  function WithSockets(s: State, ch: ChannelId, u: UserId, sockets: set<SocketId>): State {
    s.(sockets := if sockets == {} then s.sockets - {(ch, u)} else s.sockets[(ch, u) := sockets])
  }

  datatype Joined = Joined(isNew: bool, full: bool, count: nat)

  // ---- the scripts ----

  function Join(s: State, ch: ChannelId, u: UserId, socket: SocketId, limit: int): (State, Joined) {
    var members := MembersOf(s, ch);
    if u !in members && limit > 0 && |members| >= limit then (s, Joined(false, true, |members|))
    else
      var t := WithSockets(
        WithMembers(s, ch, members + {u}).(pointer := s.pointer[u := ch]),
        ch, u, SocketsOf(s, ch, u) + {socket});
      (t, Joined(u !in members, false, |members + {u}|))
  }

  function RemoveSocket(s: State, ch: ChannelId, u: UserId, socket: SocketId): (State, bool) {
    var left := SocketsOf(s, ch, u) - {socket};
    var t := WithSockets(s, ch, u, left);
    if left != {} then (t, false)
    else
      (WithMembers(t, ch, MembersOf(t, ch) - {u}).(
         mic := t.mic - {(ch, u)},
         pointer := if u in t.pointer && t.pointer[u] == ch then t.pointer - {u} else t.pointer), true)
  }

  /** Takes the user out of one channel, and forgets their pointer whichever channel it names. */
  function RemoveUser(s: State, ch: ChannelId, u: UserId): State {
    WithSockets(WithMembers(s, ch, MembersOf(s, ch) - {u}), ch, u, {}).(
      mic := s.mic - {(ch, u)},
      pointer := s.pointer - {u})
  }

  // ---- the keys agree ----

  /**
   * A user is in a channel's member set exactly when they have a socket there; a pointer names
   * a channel the user is in.
   */
  ghost predicate Agree(s: State) {
    && (forall ch, u :: u in MembersOf(s, ch) <==> SocketsOf(s, ch, u) != {})
    && (forall u :: u in s.pointer ==> u in MembersOf(s, s.pointer[u]))
  }

  /** Channels with a positive limit have at most that many members. */
  ghost predicate Within(s: State, limits: map<ChannelId, int>) {
    forall ch :: ch in limits && limits[ch] > 0 ==> |MembersOf(s, ch)| <= limits[ch]
  }

  lemma MembersAfter(s: State, ch: ChannelId, members: set<UserId>)
    ensures forall c :: MembersOf(WithMembers(s, ch, members), c) == if c == ch then members else MembersOf(s, c)
  {
  }

  lemma SocketsAfter(s: State, ch: ChannelId, u: UserId, sockets: set<SocketId>)
    ensures forall c, v ::
      SocketsOf(WithSockets(s, ch, u, sockets), c, v) == if c == ch && v == u then sockets else SocketsOf(s, c, v)
  {
  }

  /** `t` is `s` with the sockets of one user in one channel replaced, and their membership to match. */
  ghost predicate Changed(s: State, t: State, ch: ChannelId, u: UserId, live: set<SocketId>) {
    && (forall c :: MembersOf(t, c) ==
         if c != ch then MembersOf(s, c) else if live == {} then MembersOf(s, ch) - {u} else MembersOf(s, ch) + {u})
    && (forall c, v :: SocketsOf(t, c, v) == if c == ch && v == u then live else SocketsOf(s, c, v))
  }

  /** Such a change keeps the keys in agreement as long as no pointer is left behind. */
  lemma ChangedAgrees(s: State, t: State, ch: ChannelId, u: UserId, live: set<SocketId>)
    requires Agree(s) && Changed(s, t, ch, u, live)
    requires forall v :: v in t.pointer ==>
      (v in s.pointer && t.pointer[v] == s.pointer[v]) || (v == u && t.pointer[v] == ch && live != {})
    requires live == {} && u in t.pointer ==> t.pointer[u] != ch
    ensures Agree(t)
  {
    hide MembersOf, SocketsOf;
  }

  lemma ChangedWithin(s: State, t: State, ch: ChannelId, u: UserId, live: set<SocketId>, limits: map<ChannelId, int>)
    requires Within(s, limits) && Changed(s, t, ch, u, live)
    requires live != {} && u !in MembersOf(s, ch) && ch in limits && limits[ch] > 0 ==> |MembersOf(s, ch)| < limits[ch]
    ensures Within(t, limits)
  {
    hide MembersOf, SocketsOf;
    assert MembersOf(t, ch) == if live == {} then MembersOf(s, ch) - {u} else MembersOf(s, ch) + {u};
    SmallerMembership(MembersOf(s, ch), u);
    OneMoreMember(MembersOf(s, ch), u);
  }

  lemma SmallerMembership(a: set<UserId>, u: UserId)
    ensures |a - {u}| <= |a|
  {
  }

  lemma OneMoreMember(a: set<UserId>, u: UserId)
    ensures |a + {u}| == if u in a then |a| else |a| + 1
  {
    assert u in a ==> a + {u} == a;
  }

  lemma JoinChanges(s: State, ch: ChannelId, u: UserId, socket: SocketId, limit: int)
    requires !Join(s, ch, u, socket, limit).1.full
    ensures var t := Join(s, ch, u, socket, limit).0;
      && Changed(s, t, ch, u, SocketsOf(s, ch, u) + {socket}) && t.pointer == s.pointer[u := ch]
      && SocketsOf(s, ch, u) + {socket} != {}
  {
    var members := MembersOf(s, ch);
    var entered := WithMembers(s, ch, members + {u}).(pointer := s.pointer[u := ch]);
    MembersAfter(s, ch, members + {u});
    SocketsAfter(entered, ch, u, SocketsOf(s, ch, u) + {socket});
    assert socket in SocketsOf(s, ch, u) + {socket};
    assert forall c :: MembersOf(Join(s, ch, u, socket, limit).0, c) == MembersOf(entered, c);
    assert forall c :: MembersOf(entered, c) == MembersOf(WithMembers(s, ch, members + {u}), c);
    assert forall c, v :: SocketsOf(entered, c, v) == SocketsOf(s, c, v);
    hide MembersOf, SocketsOf, WithMembers, WithSockets;
  }

  lemma JoinKeeps(s: State, ch: ChannelId, u: UserId, socket: SocketId, limits: map<ChannelId, int>)
    requires Agree(s) && Within(s, limits)
    ensures var limit := if ch in limits then limits[ch] else 0;
      var (t, joined) := Join(s, ch, u, socket, limit);
      && Agree(t) && Within(t, limits)
      && joined.count == |MembersOf(t, ch)|
      && (joined.full ==> t == s && limit > 0 && |MembersOf(s, ch)| == limit && u !in MembersOf(s, ch))
      && (!joined.full ==>
           u in MembersOf(t, ch) && Changed(s, t, ch, u, SocketsOf(s, ch, u) + {socket}) && t.pointer == s.pointer[u := ch])
      && (joined.isNew <==> u in MembersOf(t, ch) && u !in MembersOf(s, ch))
  {
    var limit := if ch in limits then limits[ch] else 0;
    var (t, joined) := Join(s, ch, u, socket, limit);
    assert joined.full ==> t == s && |MembersOf(s, ch)| >= limit > 0 && u !in MembersOf(s, ch);
    if !joined.full {
      JoinChanges(s, ch, u, socket, limit);
      hide MembersOf, SocketsOf, WithMembers, WithSockets, Agree, Within;
      ChangedAgrees(s, t, ch, u, SocketsOf(s, ch, u) + {socket});
      ChangedWithin(s, t, ch, u, SocketsOf(s, ch, u) + {socket}, limits);
      assert MembersOf(t, ch) == MembersOf(s, ch) + {u};
    }
  }

  lemma RemoveSocketChanges(s: State, ch: ChannelId, u: UserId, socket: SocketId)
    requires Agree(s)
    ensures var (t, gone) := RemoveSocket(s, ch, u, socket);
      var left := SocketsOf(s, ch, u) - {socket};
      && Changed(s, t, ch, u, left) && (gone <==> left == {})
      && t.pointer == if gone && u in s.pointer && s.pointer[u] == ch then s.pointer - {u} else s.pointer
  {
    hide MembersOf, SocketsOf, WithMembers, WithSockets, Agree, Changed;
    if SocketsOf(s, ch, u) - {socket} == {} {
      LastSocketChanges(s, ch, u, socket);
    } else {
      OtherSocketsChange(s, ch, u, socket);
    }
    RemoveSocketPointer(s, ch, u, socket);
  }

  lemma RemoveSocketPointer(s: State, ch: ChannelId, u: UserId, socket: SocketId)
    ensures var (t, gone) := RemoveSocket(s, ch, u, socket);
      && (gone <==> SocketsOf(s, ch, u) - {socket} == {})
      && t.pointer == if gone && u in s.pointer && s.pointer[u] == ch then s.pointer - {u} else s.pointer
  {
  }

  lemma OtherSocketsChange(s: State, ch: ChannelId, u: UserId, socket: SocketId)
    requires Agree(s) && SocketsOf(s, ch, u) - {socket} != {}
    ensures Changed(s, RemoveSocket(s, ch, u, socket).0, ch, u, SocketsOf(s, ch, u) - {socket})
  {
    var left := SocketsOf(s, ch, u) - {socket};
    NothingLeft(s, ch, u, socket);
    SocketsAfter(s, ch, u, left);
    assert RemoveSocket(s, ch, u, socket).0 == WithSockets(s, ch, u, left);
    assert forall c :: MembersOf(WithSockets(s, ch, u, left), c) == MembersOf(s, c);
    assert MembersOf(s, ch) + {u} == MembersOf(s, ch);
    hide MembersOf, SocketsOf, WithMembers, WithSockets, RemoveSocket;
  }

  lemma LastSocketChanges(s: State, ch: ChannelId, u: UserId, socket: SocketId)
    requires SocketsOf(s, ch, u) - {socket} == {}
    ensures Changed(s, RemoveSocket(s, ch, u, socket).0, ch, u, {})
  {
    var shorter := WithSockets(s, ch, u, {});
    var t := RemoveSocket(s, ch, u, socket).0;
    SocketsAfter(s, ch, u, {});
    MembersAfter(shorter, ch, MembersOf(s, ch) - {u});
    assert forall c :: MembersOf(shorter, c) == MembersOf(s, c);
    assert forall c :: MembersOf(t, c) == MembersOf(WithMembers(shorter, ch, MembersOf(s, ch) - {u}), c);
    assert forall c, v :: SocketsOf(t, c, v) == SocketsOf(shorter, c, v);
    hide MembersOf, SocketsOf, WithMembers, WithSockets, RemoveSocket;
  }

  lemma RemoveSocketKeeps(s: State, ch: ChannelId, u: UserId, socket: SocketId, limits: map<ChannelId, int>)
    requires Agree(s) && Within(s, limits)
    ensures var (t, gone) := RemoveSocket(s, ch, u, socket);
      && Agree(t) && Within(t, limits)
      && SocketsOf(t, ch, u) == SocketsOf(s, ch, u) - {socket}
      && (gone <==> u !in MembersOf(t, ch))
      && Changed(s, t, ch, u, SocketsOf(s, ch, u) - {socket})
      && (forall c, v :: (c != ch || v != u) ==> (v in MembersOf(t, c) <==> v in MembersOf(s, c)))
      && t.pointer == if gone && u in s.pointer && s.pointer[u] == ch then s.pointer - {u} else s.pointer
  {
    RemoveSocketChanges(s, ch, u, socket);
    hide MembersOf, SocketsOf, RemoveSocket, Agree, Within;
    var t, left := RemoveSocket(s, ch, u, socket).0, SocketsOf(s, ch, u) - {socket};
    ChangedAgrees(s, t, ch, u, left);
    ChangedWithin(s, t, ch, u, left, limits);
    NothingLeft(s, ch, u, socket);
  }

  lemma NothingLeft(s: State, ch: ChannelId, u: UserId, socket: SocketId)
    requires Agree(s)
    ensures SocketsOf(s, ch, u) - {socket} != {} ==> u in MembersOf(s, ch)
  {
    assert SocketsOf(s, ch, u) == {} ==> SocketsOf(s, ch, u) - {socket} == {};
  }

  lemma RemoveUserKeeps(s: State, ch: ChannelId, u: UserId, limits: map<ChannelId, int>)
    requires Agree(s) && Within(s, limits)
    ensures var t := RemoveUser(s, ch, u);
      && Agree(t) && Within(t, limits)
      && u !in MembersOf(t, ch) && Changed(s, t, ch, u, {}) && t.pointer == s.pointer - {u}
      && (forall c, v :: (c != ch || v != u) ==> (v in MembersOf(t, c) <==> v in MembersOf(s, c)))
  {
    var t := RemoveUser(s, ch, u);
    RemoveUserChanges(s, ch, u);
    hide MembersOf, SocketsOf, Agree, Within, WithMembers, WithSockets;
    ChangedAgrees(s, t, ch, u, {});
    ChangedWithin(s, t, ch, u, {}, limits);
  }

  lemma RemoveUserChanges(s: State, ch: ChannelId, u: UserId)
    ensures Changed(s, RemoveUser(s, ch, u), ch, u, {}) && RemoveUser(s, ch, u).pointer == s.pointer - {u}
  {
    var t := RemoveUser(s, ch, u);
    var out := WithMembers(s, ch, MembersOf(s, ch) - {u});
    MembersAfter(s, ch, MembersOf(s, ch) - {u});
    SocketsAfter(out, ch, u, {});
    assert forall c :: MembersOf(t, c) == MembersOf(out, c);
    assert forall c, v :: SocketsOf(out, c, v) == SocketsOf(s, c, v);
    assert forall c, v :: SocketsOf(t, c, v) == SocketsOf(WithSockets(out, ch, u, {}), c, v);
    hide MembersOf, SocketsOf, WithMembers, WithSockets;
  }

  /** Taking away a socket of somebody who has none there is reported as that user leaving, and changes no membership. */
  lemma UnknownSocketReportsLeaving(s: State, ch: ChannelId, u: UserId, socket: SocketId)
    requires Agree(s) && u !in MembersOf(s, ch)
    ensures RemoveSocket(s, ch, u, socket).1
    ensures forall c :: MembersOf(RemoveSocket(s, ch, u, socket).0, c) == MembersOf(s, c)
    ensures RemoveSocket(s, ch, u, socket).0.pointer == s.pointer
  {
    assert SocketsOf(s, ch, u) == {};
    assert MembersOf(s, ch) - {u} == MembersOf(s, ch);
  }

  /** The report that a user left is true exactly when they were there: the script does not check. */
  lemma ReportIsTrueIff(s: State, ch: ChannelId, u: UserId, socket: SocketId)
    requires Agree(s)
    ensures var (t, gone) := RemoveSocket(s, ch, u, socket);
      (gone <==> u in MembersOf(s, ch) && u !in MembersOf(t, ch)) <==> u in MembersOf(s, ch)
  {
    RemoveSocketKeeps(s, ch, u, socket, map[]);
    if u !in MembersOf(s, ch) {
      UnknownSocketReportsLeaving(s, ch, u, socket);
    }
    hide MembersOf, SocketsOf, RemoveSocket, Agree;
  }

  // ---- runs ----

  datatype Event =
    | Joins(ch: ChannelId, u: UserId, socket: SocketId)
    | Drops(ch: ChannelId, u: UserId, socket: SocketId)
    | Expels(ch: ChannelId, u: UserId)

  function Step(s: State, e: Event, limits: map<ChannelId, int>): State {
    match e
    case Joins(ch, u, socket) => Join(s, ch, u, socket, if ch in limits then limits[ch] else 0).0
    case Drops(ch, u, socket) => RemoveSocket(s, ch, u, socket).0
    case Expels(ch, u) => RemoveUser(s, ch, u)
  }

  ghost predicate Run(states: seq<State>, events: seq<Event>, limits: map<ChannelId, int>) {
    && |states| == |events| + 1
    && forall i :: 0 <= i < |events| ==> states[i + 1] == Step(states[i], events[i], limits)
  }

  const NOBODY := State(map[], map[], map[], {})

  /** In every run the keys agree and no channel exceeds its limit. */
  lemma {:induction false} KeysAlwaysAgree(states: seq<State>, events: seq<Event>, limits: map<ChannelId, int>)
    requires Run(states, events, limits) && states[0] == NOBODY
    ensures Agree(states[|events|]) && Within(states[|events|], limits)
    decreases |events|
  {
    if events != [] {
      var last := |events| - 1;
      KeysAlwaysAgree(states[..|events|], events[..last], limits);
      hide Agree, Within, Join, RemoveSocket, RemoveUser;
      match events[last]
      case Joins(ch, u, socket) => JoinKeeps(states[last], ch, u, socket, limits);
      case Drops(ch, u, socket) => RemoveSocketKeeps(states[last], ch, u, socket, limits);
      case Expels(ch, u) => RemoveUserKeeps(states[last], ch, u, limits);
    }
  }

  // ---- the service ----

  class Presence {
    var channels: map<ChannelId, set<UserId>>
    var pointer: map<UserId, ChannelId>
    var sockets: map<(ChannelId, UserId), set<SocketId>>
    var mic: set<(ChannelId, UserId)>

    function View(): State
      reads this
    {
      State(channels, pointer, sockets, mic)
    }

    constructor ()
      ensures View() == NOBODY && Agree(View())
    {
      channels, pointer, sockets, mic := map[], map[], map[], {};
    }

    /** The store's SADD and SREM on a channel's member set. */
    method SetMembers(ch: ChannelId, members: set<UserId>)
      modifies `channels
      ensures View() == WithMembers(old(View()), ch, members)
    {
      channels := if members == {} then channels - {ch} else channels[ch := members];
    }

    method SetSockets(ch: ChannelId, u: UserId, live: set<SocketId>)
      modifies `sockets
      ensures View() == WithSockets(old(View()), ch, u, live)
    {
      sockets := if live == {} then sockets - {(ch, u)} else sockets[(ch, u) := live];
    }

    method JoinChannel(ch: ChannelId, u: UserId, socket: SocketId, limit: int) returns (r: Joined)
      modifies this
      ensures (View(), r) == Join(old(View()), ch, u, socket, limit)
    {
      var members := MembersOf(View(), ch);
      var isMember := u in members;
      if !isMember {
        if limit > 0 && |members| >= limit {
          return Joined(false, true, |members|);
        }
      }
      SetMembers(ch, members + {u});
      pointer := pointer[u := ch];
      var live := SocketsOf(View(), ch, u);
      SetSockets(ch, u, live + {socket});
      r := Joined(!isMember, false, |members + {u}|);
    }

    method DropSocket(ch: ChannelId, u: UserId, socket: SocketId) returns (gone: bool)
      modifies this
      ensures (View(), gone) == RemoveSocket(old(View()), ch, u, socket)
    {
      var left := SocketsOf(View(), ch, u) - {socket};
      SetSockets(ch, u, left);
      if left == {} {
        SetMembers(ch, MembersOf(View(), ch) - {u});
        mic := mic - {(ch, u)};
        if u in pointer && pointer[u] == ch {
          pointer := pointer - {u};
        }
        return true;
      }
      gone := false;
    }

    method Expel(ch: ChannelId, u: UserId)
      modifies this
      ensures View() == RemoveUser(old(View()), ch, u)
    {
      SetMembers(ch, MembersOf(View(), ch) - {u});
      SetSockets(ch, u, {});
      mic := mic - {(ch, u)};
      pointer := pointer - {u};
    }
  }
}
