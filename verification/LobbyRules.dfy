/**
  What happens inside one lobby, as functions on its state (src/lobby.c, src/lobby.h).

  Clients and lobbies are known here only by identity, as `object` references. The classes in Lobby.dfy carry the same
  state in fields and are proved to change it exactly as these functions say.
 */
module LobbyRules {
  import opened Options
  import opened Elections

  const LOBBY_MAX_CLIENTS := 12
  const LOBBY_MAX_IN_TEAM := 4

  datatype Kind = DefaultLobby | Game | Ep3Game

  /** The packet types that may wait during a burst, and everything else. */
  datatype Command = GameCommand0 | GameCommand2 | GameCommandD | OtherCommand

  datatype Packet = Packet(src: object, command: Command, body: int)

  /** One `send_sync_register` carrying a client count. */
  datatype CountSync = CountSync(to: object, reg: nat, count: int)

  /** What is fixed when a lobby is created. */
  datatype Terms = Terms(lobbyId: nat, kind: Kind, maxClients: nat, difficulty: nat, battle: bool, challenge: bool,
                         legitMode: bool)

  datatype Flags = Flags(bursting: bool, questing: bool, questSel: bool, tempUnavail: bool, onlyOne: bool, dcOnly: bool,
                         pcOnly: bool, v1Only: bool, gcAllowed: bool, singlePlayer: bool, hasNpc: bool)

  /** Quest flags and, per slot, the register in which the member wants the client count. */
  datatype Quest = Quest(joinable: bool, data: bool, countRegs: seq<nat>)

  /** `waiting` and `resend` are the two packet queues. */
  datatype Queues = Queues(waiting: seq<Packet>, resend: seq<Packet>)

  /** What an observer of the run remembers: count updates sent; packets accepted into `waiting`, disposed
      of by a drain, and handed to a handler by a drain; whether the last election found only members that
      joined in the very second; whether an NTE load cut a burst short while packets waited; who entered by
      override; whether the team is a PC team not listed yet; whether its creator was sent elsewhere. */
  datatype History = History(syncs: seq<CountSync>, accepted: seq<Packet>, disposed: seq<Packet>, handled: seq<Packet>,
                             leaderless: bool, nteCleared: bool, overriders: set<object>, pending: bool,
                             strayed: bool)

  datatype LobbyState = LobbyState(
    terms: Terms,
    version: Version,
    v2: bool,
    slots: seq<object?>,
    count: int,
    leader: nat,
    minLevel: int,
    maxLevel: int,
    flags: Flags,
    quest: Quest,
    queues: Queues,
    history: History)

  // ---------------------------------------------------------------- counting slots

  /** The number of occupied slots. */
  ghost function Seated(slots: seq<object?>): nat {
    if slots == [] then 0 else (if slots[0] != null then 1 else 0) + Seated(slots[1..])
  }

  lemma {:induction false} SeatedUpdate(slots: seq<object?>, i: nat, c: object?)
    requires i < |slots|
    ensures Seated(slots[i := c]) ==
            Seated(slots) - (if slots[i] != null then 1 else 0) + (if c != null then 1 else 0)
  {
    if i == 0 {
      assert slots[i := c][1..] == slots[1..];
    } else {
      assert slots[i := c][1..] == slots[1..][i - 1 := c];
      SeatedUpdate(slots[1..], i - 1, c);
    }
  }

  /** Pigeonhole: with fewer members than slots, some slot below the limit is empty. */
  lemma {:induction false} RoomMeansFreeSlot(slots: seq<object?>, limit: nat)
    requires limit <= |slots|
    requires Seated(slots) < limit
    ensures exists i :: 0 <= i < limit && slots[i] == null
  {
    if slots[0] == null {
      assert slots[0] == null;
    } else {
      RoomMeansFreeSlot(slots[1..], limit - 1);
      var i :| 0 <= i < limit - 1 && slots[1..][i] == null;
      assert slots[i + 1] == null;
    }
  }

  lemma {:induction false} SeatedZero(slots: seq<object?>)
    ensures Seated(slots) == 0 <==> forall i :: 0 <= i < |slots| ==> slots[i] == null
  {
    if slots != [] {
      SeatedZero(slots[1..]);
      assert forall i :: 1 <= i < |slots| ==> slots[i] == slots[1..][i - 1];
      if Seated(slots) == 0 {
        forall i | 0 <= i < |slots| ensures slots[i] == null {
          if i > 0 { assert slots[1..][i - 1] == null; }
        }
      }
    }
  }

  // ---------------------------------------------------------------- count subscriptions

  ghost predicate SubscribersSeated(slots: seq<object?>, regs: seq<nat>) {
    |regs| == LOBBY_MAX_IN_TEAM <= |slots| &&
    forall k :: 0 <= k < |regs| && regs[k] != 0 ==> slots[k] != null
  }

  ghost function SyncSlot(slots: seq<object?>, regs: seq<nat>, count: int, k: nat): seq<CountSync>
    requires SubscribersSeated(slots, regs) && k < LOBBY_MAX_IN_TEAM
  {
    if regs[k] != 0 then [CountSync(slots[k], regs[k], count)] else []
  }

  /** What one round of count updates sends, in slot order. */
  ghost function CountSyncs(slots: seq<object?>, regs: seq<nat>, count: int): seq<CountSync>
    requires SubscribersSeated(slots, regs)
  {
    SyncSlot(slots, regs, count, 0) + SyncSlot(slots, regs, count, 1) +
    SyncSlot(slots, regs, count, 2) + SyncSlot(slots, regs, count, 3)
  }

  /** The latest count a client was told in a register, if any. */
  ghost function LastSent(log: seq<CountSync>, c: object, reg: nat): Option<int> {
    if log == [] then None
    else if log[|log| - 1].to == c && log[|log| - 1].reg == reg then Some(log[|log| - 1].count)
    else LastSent(log[..|log| - 1], c, reg)
  }

  lemma {:induction false} LastSentInBatch(log: seq<CountSync>, batch: seq<CountSync>, c: object, reg: nat, count: int)
    requires forall k :: 0 <= k < |batch| ==> batch[k].count == count
    requires exists k :: 0 <= k < |batch| && batch[k].to == c && batch[k].reg == reg
    ensures LastSent(log + batch, c, reg) == Some(count)
  {
    var all := log + batch;
    var last := |batch| - 1;
    assert all[|all| - 1] == batch[last];
    if batch[last].to != c || batch[last].reg != reg {
      assert all[..|all| - 1] == log + batch[..last];
      LastSentInBatch(log, batch[..last], c, reg, count);
    }
  }

  /** After a round of updates the latest count in the register every subscriber asked for is the one just sent. */
  lemma RoundReachesSubscribers(log: seq<CountSync>, slots: seq<object?>, regs: seq<nat>, count: int)
    requires SubscribersSeated(slots, regs)
    ensures forall k :: 0 <= k < LOBBY_MAX_IN_TEAM && regs[k] != 0 ==>
              LastSent(log + CountSyncs(slots, regs, count), slots[k], regs[k]) == Some(count)
  {
    var s0 := SyncSlot(slots, regs, count, 0);
    var s1 := SyncSlot(slots, regs, count, 1);
    var s2 := SyncSlot(slots, regs, count, 2);
    var batch := CountSyncs(slots, regs, count);
    forall k | 0 <= k < LOBBY_MAX_IN_TEAM && regs[k] != 0
      ensures LastSent(log + batch, slots[k], regs[k]) == Some(count)
    {
      var at := if k == 0 then 0 else if k == 1 then |s0| else if k == 2 then |s0 + s1| else |s0 + s1 + s2|;
      assert batch[at].to == slots[k] && batch[at].reg == regs[k];
      LastSentInBatch(log, batch, slots[k], regs[k], count);
    }
  }

  // ---------------------------------------------------------------- burst queue

  /** What a drain hands on: packets in order, up to and including the first one that fails. */
  ghost function Delivered(queue: seq<Packet>, accepts: Packet -> bool): seq<Packet> {
    if queue == [] then []
    else if !accepts(queue[0]) then [queue[0]]
    else [queue[0]] + Delivered(queue[1..], accepts)
  }

  ghost predicate AllAccepted(queue: seq<Packet>, accepts: Packet -> bool) {
    queue == [] || (accepts(queue[0]) && AllAccepted(queue[1..], accepts))
  }

  /** A drain hands on a prefix of the queue, in order and each packet once: all of it when every handler
      accepts its packet, and otherwise up to and including the first packet that is refused. */
  lemma {:induction false} DeliveredIsFifo(queue: seq<Packet>, accepts: Packet -> bool)
    ensures var d := Delivered(queue, accepts);
            && d <= queue
            && (forall k :: 0 <= k < |d| - 1 ==> accepts(d[k]))
            && (AllAccepted(queue, accepts) ==> d == queue)
            && (!AllAccepted(queue, accepts) ==> d != [] && !accepts(d[|d| - 1]))
    ensures AllAccepted(queue, accepts) <==> forall k :: 0 <= k < |queue| ==> accepts(queue[k])
  {
    if queue != [] && accepts(queue[0]) {
      DeliveredIsFifo(queue[1..], accepts);
      var d := Delivered(queue, accepts);
      assert d[1..] == Delivered(queue[1..], accepts);
      forall k | 0 <= k < |d| - 1 ensures accepts(d[k]) {
        if k > 0 { assert d[k] == d[1..][k - 1]; }
      }
      assert queue == [queue[0]] + queue[1..];
      if forall k :: 0 <= k < |queue| ==> accepts(queue[k]) {
        forall k | 0 <= k < |queue[1..]| ensures accepts(queue[1..][k]) { assert accepts(queue[k + 1]); }
      }
      if AllAccepted(queue, accepts) {
        forall k | 0 <= k < |queue| ensures accepts(queue[k]) { if k > 0 { assert accepts(queue[1..][k - 1]); } }
      }
    }
  }

  predicate Resendable(p: Packet) {
    p.command == GameCommand2 || p.command == GameCommandD
  }

  /** What is sent again: packets in order, up to one that is of the wrong type or just after one that cannot be
      sent. */
  ghost function Resent(queue: seq<Packet>, sends: Packet -> bool): seq<Packet> {
    if queue == [] || !Resendable(queue[0]) then []
    else if !sends(queue[0]) then [queue[0]]
    else [queue[0]] + Resent(queue[1..], sends)
  }

  ghost predicate AllResent(queue: seq<Packet>, sends: Packet -> bool) {
    queue == [] || (Resendable(queue[0]) && sends(queue[0]) && AllResent(queue[1..], sends))
  }

  /** Sending again goes through a prefix of the queue, in order and each packet once; everything gets through
      exactly when all packets are of a type that may be sent again and could be. */
  lemma {:induction false} ResentIsFifo(queue: seq<Packet>, sends: Packet -> bool)
    ensures var d := Resent(queue, sends);
            && d <= queue
            && (forall k :: 0 <= k < |d| ==> Resendable(d[k]))
            && (forall k :: 0 <= k < |d| - 1 ==> sends(d[k]))
            && (AllResent(queue, sends) ==> d == queue)
    ensures AllResent(queue, sends) <==> forall k :: 0 <= k < |queue| ==> Resendable(queue[k]) && sends(queue[k])
  {
    if queue != [] && Resendable(queue[0]) && sends(queue[0]) {
      var rest := queue[1..];
      ResentIsFifo(rest, sends);
      var d := Resent(queue, sends);
      assert queue == [queue[0]] + rest && d == [queue[0]] + Resent(rest, sends);
      assert forall k :: 1 <= k < |queue| ==> queue[k] == rest[k - 1];
      if forall k :: 0 <= k < |queue| ==> Resendable(queue[k]) && sends(queue[k]) {
        forall k | 0 <= k < |rest| ensures Resendable(rest[k]) && sends(rest[k]) {
          assert rest[k] == queue[k + 1];
        }
      }
    }
  }

  // ---------------------------------------------------------------- invariants of one lobby

  ghost predicate Shape(l: LobbyState) {
    && |l.slots| == LOBBY_MAX_CLIENTS && |l.quest.countRegs| == LOBBY_MAX_IN_TEAM
    && 1 <= l.terms.maxClients <= LOBBY_MAX_CLIENTS
    && (l.terms.kind != DefaultLobby ==> l.terms.maxClients <= LOBBY_MAX_IN_TEAM)
    && (l.terms.kind == Game && PreGamecube(l.version) ==> 2 <= l.terms.maxClients)
    && (forall i :: l.terms.maxClients <= i < LOBBY_MAX_CLIENTS ==> l.slots[i] == null)
    && l.count == Seated(l.slots)
  }

  /** Only members are subscribed, and while a quest runs each was last told the present count, in its register. */
  ghost predicate Subscribed(l: LobbyState) {
    && |l.slots| == LOBBY_MAX_CLIENTS && SubscribersSeated(l.slots, l.quest.countRegs)
    && (l.terms.kind == DefaultLobby ==> !l.flags.questing)
    && (l.quest.data ==> l.flags.questing)
    && (!l.flags.questing ==> l.quest.countRegs == [0, 0, 0, 0])
    && forall k :: 0 <= k < LOBBY_MAX_IN_TEAM && l.quest.countRegs[k] != 0 ==>
         LastSent(l.history.syncs, l.slots[k], l.quest.countRegs[k]) == Some(l.count)
  }

  /** Packets wait only while somebody bursts (or an NTE load cut the burst short), and every packet
      ever accepted was either disposed of by a drain, in order, or is still waiting. */
  ghost predicate Queued(l: LobbyState) {
    && (l.queues.waiting != [] ==> l.flags.bursting || l.history.nteCleared)
    && l.history.accepted == l.history.disposed + l.queues.waiting
  }

  /** The leader seat is held by a member. */
  ghost predicate LeaderPresent(l: LobbyState) {
    l.leader < |l.slots| && l.slots[l.leader] != null
  }

  /** The leader seat of a non-empty lobby is occupied, unless the last election found nobody electable. */
  ghost predicate Led(l: LobbyState) {
    l.count != 0 && !l.history.leaderless ==> LeaderPresent(l)
  }

  /** Flags and levels that policy commands may leave. */
  ghost predicate Limits(l: LobbyState) {
    && (l.flags.singlePlayer ==> l.count <= 1)
    && (l.flags.onlyOne ==> l.count <= 1)
    && (l.terms.kind != DefaultLobby ==> RequiredLevel(l.terms.difficulty) <= l.minLevel <= l.maxLevel <= 200)
    && (l.terms.kind == DefaultLobby ==>
          !l.flags.singlePlayer && !l.flags.onlyOne && !l.flags.v1Only && !l.flags.dcOnly && !l.flags.pcOnly)
    && (l.history.pending ==> l.count == 0 && l.terms.maxClients == 4)
  }

  ghost predicate Sound(l: LobbyState) {
    Shape(l) && Subscribed(l) && Queued(l) && Led(l) && Limits(l)
  }

  lemma OverridersKeepSound(l: LobbyState, over: set<object>)
    requires Sound(l)
    ensures Sound(l.(history := l.history.(overriders := over)))
  {
  }

  // ---------------------------------------------------------------- creation

  ghost function NewLobby(terms: Terms, version: Version, v2: bool, singlePlayer: bool, pending: bool): LobbyState {
    LobbyState(terms, version, v2, seq(LOBBY_MAX_CLIENTS, _ => null), 0, if terms.kind == Game then 1 else 0,
      if terms.kind == DefaultLobby then 0 else if terms.kind == Game then RequiredLevel(terms.difficulty) else 1,
      if terms.kind == DefaultLobby then 9001 else 200,
      Flags(false, false, false, false, terms.kind == Game, false, false, false, false, singlePlayer, false),
      Quest(false, false, [0, 0, 0, 0]), Queues([], []),
      History([], [], [], [], false, false, {}, pending, false))
  }

  ghost predicate GoodTerms(terms: Terms, version: Version, singlePlayer: bool) {
    && terms.maxClients == (if terms.kind == DefaultLobby then LOBBY_MAX_CLIENTS else if singlePlayer then 1 else 4)
    && (singlePlayer ==> terms.kind == Game && version == BB)
    && terms.difficulty < 4 && (terms.kind == Ep3Game ==> terms.difficulty == 0)
  }

  lemma NewLobbySound(terms: Terms, version: Version, v2: bool, singlePlayer: bool, pending: bool)
    requires GoodTerms(terms, version, singlePlayer) && (pending ==> terms.maxClients == 4)
    ensures Sound(NewLobby(terms, version, v2, singlePlayer, pending))
  {
    SeatedZero(NewLobby(terms, version, v2, singlePlayer, pending).slots);
  }

  // ---------------------------------------------------------------- entering

  ghost function LowestFree(slots: seq<object?>, limit: nat, from: nat): (slot: nat)
    requires limit <= |slots|
    requires exists i :: from <= i < limit && slots[i] == null
    ensures from <= slot < limit && slots[slot] == null
    ensures forall i :: from <= i < slot ==> slots[i] != null
    decreases limit - from
  {
    if slots[from] == null then from else LowestFree(slots, limit, from + 1)
  }

  /** Slot 1 goes first in a pre-Gamecube team. */
  ghost predicate SlotOneFirst(l: LobbyState)
    requires |l.slots| == LOBBY_MAX_CLIENTS
  {
    PreGamecube(l.version) && l.terms.kind == Game && l.slots[1] == null
  }

  ghost function NextSlot(l: LobbyState): (slot: nat)
    requires Shape(l) && l.count < l.terms.maxClients
    ensures slot < l.terms.maxClients && l.slots[slot] == null
  {
    RoomMeansFreeSlot(l.slots, l.terms.maxClients);
    if SlotOneFirst(l) then 1 else LowestFree(l.slots, l.terms.maxClients, 0)
  }

  /** Send the count to every subscriber when a quest is running. */
  ghost function Announce(l: LobbyState): LobbyState
    requires SubscribersSeated(l.slots, l.quest.countRegs)
  {
    if l.flags.questing
    then l.(history := l.history.(syncs := l.history.syncs + CountSyncs(l.slots, l.quest.countRegs, l.count)))
    else l
  }

  /** A second client clears the only-one flag. */
  ghost function Crowd(l: LobbyState): LobbyState {
    if l.count == 0 then l else l.(flags := l.flags.(onlyOne := false))
  }

  ghost function Occupy(l: LobbyState, c: object, slot: nat): LobbyState
    requires slot < |l.slots|
  {
    l.(slots := l.slots[slot := c], count := l.count + 1)
  }

  /** The first client leads. */
  ghost function Promote(l: LobbyState, slot: nat): LobbyState {
    if l.count != 1 then l else l.(leader := slot, history := l.history.(leaderless := false))
  }

  /** The state just before the count is announced. */
  ghost function Settle(l: LobbyState, c: object, slot: nat): LobbyState
    requires slot < |l.slots|
  {
    Promote(Occupy(Crowd(l), c, slot), slot)
  }

  /** `c` takes slot `slot`. */
  ghost function Take(l: LobbyState, c: object, slot: nat): LobbyState
    requires slot < |l.slots| && SubscribersSeated(l.slots, l.quest.countRegs)
  {
    Announce(Settle(l, c, slot))
  }

  ghost function Enter(l: LobbyState, c: object): LobbyState
    requires Shape(l) && Subscribed(l) && l.count < l.terms.maxClients
  {
    Take(l, c, NextSlot(l))
  }

  lemma AnnounceSubscribes(l: LobbyState)
    requires Shape(l) && SubscribersSeated(l.slots, l.quest.countRegs)
    requires l.terms.kind == DefaultLobby ==> !l.flags.questing
    requires l.quest.data ==> l.flags.questing
    requires !l.flags.questing ==> l.quest.countRegs == [0, 0, 0, 0]
    ensures Subscribed(Announce(l))
  {
    RoundReachesSubscribers(l.history.syncs, l.slots, l.quest.countRegs, l.count);
  }

  /** Announcing the count changes nothing else. */
  lemma AnnounceKeepsRest(l: LobbyState)
    requires SubscribersSeated(l.slots, l.quest.countRegs)
    ensures var r := Announce(l);
            && (Shape(l) ==> Shape(r)) && (Queued(l) ==> Queued(r)) && (Led(l) ==> Led(r)) && (Limits(l) ==> Limits(r))
            && r.slots == l.slots && r.count == l.count && r.history.leaderless == l.history.leaderless
  {
  }

  lemma AnnouncedIsSound(l: LobbyState)
    requires Shape(l) && SubscribersSeated(l.slots, l.quest.countRegs) && Queued(l) && Led(l) && Limits(l)
    requires l.terms.kind == DefaultLobby ==> !l.flags.questing
    requires l.quest.data ==> l.flags.questing
    requires !l.flags.questing ==> l.quest.countRegs == [0, 0, 0, 0]
    ensures Sound(Announce(l)) && Announce(l).slots == l.slots && Announce(l).count == l.count
    ensures Announce(l).history.leaderless == l.history.leaderless
  {
    AnnounceSubscribes(l);
    AnnounceKeepsRest(l);
  }

  lemma SettleKeepsRest(l: LobbyState, c: object, slot: nat)
    requires Sound(l) && slot < l.terms.maxClients && l.slots[slot] == null && !l.history.pending
    requires l.flags.singlePlayer ==> l.count == 0
    ensures var r := Settle(l, c, slot);
            && Queued(r) && Led(r) && Limits(r) && SubscribersSeated(r.slots, r.quest.countRegs)
            && (r.terms.kind == DefaultLobby ==> !r.flags.questing) && (r.quest.data ==> r.flags.questing)
            && (!r.flags.questing ==> r.quest.countRegs == [0, 0, 0, 0]) && r.slots == l.slots[slot := c]
  {
    SeatedZero(l.slots);
  }

  lemma SettleKeepsShape(l: LobbyState, c: object, slot: nat)
    requires Shape(l) && slot < l.terms.maxClients && l.slots[slot] == null
    ensures Shape(Settle(l, c, slot)) && Settle(l, c, slot).count == l.count + 1
  {
    SeatedUpdate(l.slots, slot, c);
  }

  /** Entering a lobby that has room, and that is not a single-player team with somebody in it, keeps every
      invariant of the lobby. */
  lemma EnterKeepsSound(l: LobbyState, c: object)
    requires Sound(l) && l.count < l.terms.maxClients && !l.history.pending
    requires l.flags.singlePlayer ==> l.count == 0
    ensures Sound(Enter(l, c)) && Enter(l, c).count == l.count + 1
    ensures Enter(l, c).slots == l.slots[NextSlot(l) := c]
  {
    var slot := NextSlot(l);
    var l1 := Settle(l, c, slot);
    SettleKeepsShape(l, c, slot);
    SettleKeepsRest(l, c, slot);
    AnnouncedIsSound(l1);
  }

  // ---------------------------------------------------------------- leaving

  /** Pre-Gamecube teams that admit Gamecube players elect with the cross-play rule. */
  ghost predicate CrossPlay(l: LobbyState) {
    PreGamecube(l.version) && l.flags.gcAllowed
  }

  /** The election held when the leader goes; `seats` shows who sits where. */
  ghost function Replace(l: LobbyState, seats: seq<Seat>, now: int): LobbyState {
    var r := if CrossPlay(l) then CrossElection(seats, l.leader, now) else Election(seats, l.leader, now, false);
    Crown(if CrossPlay(l) && Election(seats, l.leader, now, true) == -1 then TurnGamecube(l) else l, r)
  }

  ghost function TurnGamecube(l: LobbyState): LobbyState {
    l.(version := GC, flags := l.flags.(gcAllowed := false))
  }

  ghost function Crown(l: LobbyState, elected: int): LobbyState {
    l.(leader := if elected < 0 then 0 else elected, history := l.history.(leaderless := elected == -1 && l.count != 1))
  }

  ghost function Clear(l: LobbyState, slot: nat): LobbyState
    requires slot < |l.slots|
  {
    l.(slots := l.slots[slot := null], count := l.count - 1)
  }

  /** Empty a slot; in a team also drop the slot's subscription and announce the new count. */
  ghost function Vacate(l: LobbyState, slot: nat): LobbyState
    requires slot < |l.slots| && Subscribed(l)
    requires l.terms.kind != DefaultLobby ==> slot < LOBBY_MAX_IN_TEAM
  {
    var l1 := Clear(l, slot);
    if l.terms.kind == DefaultLobby then l1
    else Announce(l1.(quest := l.quest.(countRegs := l.quest.countRegs[slot := 0])))
  }

  ghost function Leave(l: LobbyState, slot: nat, seats: seq<Seat>, now: int): LobbyState
    requires Subscribed(l) && slot < LOBBY_MAX_CLIENTS
    requires l.terms.kind != DefaultLobby ==> slot < LOBBY_MAX_IN_TEAM
  {
    Vacate(if slot == l.leader then Replace(l, seats, now) else l, slot)
  }

  /** `seats` agrees with the slots on which are held. */
  ghost predicate SeatsMatch(slots: seq<object?>, seats: seq<Seat>) {
    |seats| == |slots| && forall i :: 0 <= i < |slots| ==> (seats[i].Held? <==> slots[i] != null)
  }

  /** An election picks a member other than the one leaving, and touches nothing but the leader seat and, when
      no pre-Gamecube member is left, the team's version. */
  lemma ReplaceLeads(l: LobbyState, seats: seq<Seat>, now: int)
    requires Sound(l) && SeatsMatch(l.slots, seats)
    ensures var r := Replace(l, seats, now);
            && r.slots == l.slots && r.count == l.count && r.quest == l.quest && r.history.syncs == l.history.syncs
            && Shape(r) && Queued(r) && Limits(r) && r.terms == l.terms && r.flags.questing == l.flags.questing
            && (l.count != 1 && !r.history.leaderless ==>
                  r.leader < |l.slots| && r.leader != l.leader && l.slots[r.leader] != null)
  {
    var pre, any := Election(seats, l.leader, now, true), Election(seats, l.leader, now, false);
    assert pre != -1 ==> Eligible(seats, l.leader, now, true, pre);
    assert any != -1 ==> Eligible(seats, l.leader, now, false, any);
  }

  lemma VacateKeepsSound(l: LobbyState, slot: nat)
    requires Shape(l) && Subscribed(l) && Queued(l) && Limits(l)
    requires slot < LOBBY_MAX_CLIENTS && l.slots[slot] != null
    requires l.terms.kind != DefaultLobby ==> slot < LOBBY_MAX_IN_TEAM
    requires l.count != 1 && !l.history.leaderless ==>
               l.leader < |l.slots| && l.leader != slot && l.slots[l.leader] != null
    ensures Sound(Vacate(l, slot))
    ensures var r := Vacate(l, slot);
            r.slots == l.slots[slot := null] && r.count == l.count - 1 && r.history.leaderless == l.history.leaderless
  {
    var l1 := Clear(l, slot);
    ClearKeeps(l, slot);
    if l.terms.kind != DefaultLobby {
      var l2 := l1.(quest := l.quest.(countRegs := l.quest.countRegs[slot := 0]));
      assert SubscribersSeated(l2.slots, l2.quest.countRegs);
      AnnouncedIsSound(l2);
    }
  }

  lemma ClearKeeps(l: LobbyState, slot: nat)
    requires Shape(l) && Subscribed(l) && Queued(l) && Limits(l)
    requires slot < LOBBY_MAX_CLIENTS && l.slots[slot] != null
    requires l.count != 1 && !l.history.leaderless ==>
               l.leader < |l.slots| && l.leader != slot && l.slots[l.leader] != null
    ensures var r := Clear(l, slot); Shape(r) && Queued(r) && Limits(r) && Led(r)
    ensures l.terms.kind == DefaultLobby ==> Subscribed(Clear(l, slot))
  {
    SeatedUpdate(l.slots, slot, null);
  }

  /** Leaving keeps every invariant of the lobby: the count, the subscriptions, and a seated leader. */
  lemma LeaveKeepsSound(l: LobbyState, slot: nat, seats: seq<Seat>, now: int)
    requires Sound(l) && slot < LOBBY_MAX_CLIENTS && l.slots[slot] != null
    requires SeatsMatch(l.slots, seats)
    ensures l.terms.kind != DefaultLobby ==> slot < LOBBY_MAX_IN_TEAM
    ensures Sound(Leave(l, slot, seats, now))
    ensures var r := Leave(l, slot, seats, now);
            && r.slots == l.slots[slot := null] && r.count == l.count - 1
            && r.history.leaderless == (if slot == l.leader then Replace(l, seats, now) else l).history.leaderless
  {
    SeatedUpdate(l.slots, slot, null);
    if slot == l.leader {
      ReplaceLeads(l, seats, now);
      VacateKeepsSound(Replace(l, seats, now), slot);
    } else {
      VacateKeepsSound(l, slot);
    }
  }

  /** The leader seat after a departure: if it is the leader that goes, what the election makes of it. */
  lemma LeaveCrowns(l: LobbyState, slot: nat, seats: seq<Seat>, now: int)
    requires Subscribed(l) && slot < LOBBY_MAX_CLIENTS && SeatsMatch(l.slots, seats)
    requires l.terms.kind != DefaultLobby ==> slot < LOBBY_MAX_IN_TEAM
    ensures var r := Leave(l, slot, seats, now);
            && r.slots == l.slots[slot := null] && r.count == l.count - 1
            && r.leader == if slot == l.leader then SeatAfter(seats, slot, now, CrossPlay(l)) else l.leader
  {
  }

  /** A departure leaves an occupied leader seat exactly if it is not the leader that goes, or somebody else joined at
      an earlier second, or slot 0 is held by somebody else. */
  lemma LeaveKeepsLeader(l: LobbyState, slot: nat, seats: seq<Seat>, now: int)
    requires Subscribed(l) && slot < LOBBY_MAX_CLIENTS && SeatsMatch(l.slots, seats)
    requires l.terms.kind != DefaultLobby ==> slot < LOBBY_MAX_IN_TEAM
    requires slot != l.leader ==> LeaderPresent(l)
    ensures LeaderPresent(Leave(l, slot, seats, now)) <==>
              slot != l.leader || SomeoneEarlier(seats, l.leader, now) || (l.leader != 0 && l.slots[0] != null)
  {
    LeaveCrowns(l, slot, seats, now);
    if slot == l.leader {
      DepartureKeepsLeader(seats, slot, now, CrossPlay(l));
      var s := SeatAfter(seats, slot, now, CrossPlay(l));
      assert s < |seats| ==> (seats[slot := Vacant][s].Held? <==> l.slots[slot := null][s] != null);
    }
  }

  /** When the clock has moved on since every join, a departure leaves no team leaderless. */
  lemma TimelyDepartureKeepsLeader(l: LobbyState, slot: nat, seats: seq<Seat>, now: int)
    requires Sound(l) && slot < LOBBY_MAX_CLIENTS && l.slots[slot] != null && SeatsMatch(l.slots, seats)
    requires l.terms.kind != DefaultLobby ==> slot < LOBBY_MAX_IN_TEAM
    requires forall i :: 0 <= i < |seats| && seats[i].Held? ==> seats[i].joinTime < now
    requires !l.history.leaderless
    ensures var r := Leave(l, slot, seats, now);
            !r.history.leaderless && (r.count != 0 ==> r.leader < |r.slots| && r.slots[r.leader] != null)
  {
    LeaveKeepsSound(l, slot, seats, now);
    var r := Leave(l, slot, seats, now);
    if slot == l.leader && l.count != 1 {
      SeatedZero(r.slots);
      var i :| 0 <= i < |r.slots| && r.slots[i] != null;
      assert i != slot && seats[i].Held?;
      SomeoneElected(l, seats, now, i);
    }
  }

  lemma SomeoneElected(l: LobbyState, seats: seq<Seat>, now: int, i: nat)
    requires Eligible(seats, l.leader, now, false, i)
    ensures !Replace(l, seats, now).history.leaderless
  {
    var e := Election(seats, l.leader, now, false);
    assert e != -1;
  }

  // ---------------------------------------------------------------- bursts

  ghost function Drain(l: LobbyState, accepts: Packet -> bool): LobbyState {
    l.(queues := l.queues.(waiting := []),
       history := l.history.(disposed := l.history.disposed + l.queues.waiting,
                             handled := l.history.handled + Delivered(l.queues.waiting, accepts),
                             nteCleared := false))
  }

  /** Clear the bursting flag and handle what waited. */
  ghost function EndBurst(l: LobbyState, accepts: Packet -> bool): LobbyState {
    Drain(l.(flags := l.flags.(bursting := false)), accepts)
  }

  lemma EndBurstKeepsSound(l: LobbyState, accepts: Packet -> bool)
    requires Sound(l)
    ensures Sound(EndBurst(l, accepts)) && EndBurst(l, accepts).queues.waiting == []
  {
  }

  ghost function EnqueueResult(l: LobbyState, p: Packet): int {
    if !l.flags.bursting then -1 else if p.command == OtherCommand then -2 else 0
  }

  ghost function Enqueue(l: LobbyState, p: Packet, forResend: bool): LobbyState {
    if EnqueueResult(l, p) != 0 then l
    else if forResend then l.(queues := l.queues.(resend := l.queues.resend + [p]))
    else l.(queues := l.queues.(waiting := l.queues.waiting + [p]),
            history := l.history.(accepted := l.history.accepted + [p]))
  }

  lemma EnqueueKeepsSound(l: LobbyState, p: Packet, forResend: bool)
    requires Sound(l)
    ensures Sound(Enqueue(l, p, forResend))
  {
    assert l.history.disposed + (l.queues.waiting + [p]) == (l.history.disposed + l.queues.waiting) + [p];
  }

  /** The NTE end-of-load message clears the flag and leaves the queue alone. */
  ghost function NteLoaded(l: LobbyState): LobbyState {
    l.(flags := l.flags.(bursting := false),
       history := l.history.(nteCleared := l.history.nteCleared || l.queues.waiting != []))
  }

  /** The one clearing of the flag that does not drain leaves packets stranded exactly when some waited. */
  lemma NteLoadStrandsPackets(l: LobbyState)
    requires Sound(l)
    ensures Sound(NteLoaded(l))
    ensures var r := NteLoaded(l);
            (r.queues.waiting != [] && !r.flags.bursting) <==> l.queues.waiting != []
  {
  }

  // ---------------------------------------------------------------- quests and commands

  ghost function StartQuest(l: LobbyState, joinable: bool, data: bool): LobbyState {
    l.(flags := l.flags.(questing := true, questSel := false),
       quest := l.quest.(joinable := l.quest.joinable || joinable, data := l.quest.data || data))
  }

  /** A member asks for the client count in register `reg`, and is told it at once. */
  ghost function Subscribe(l: LobbyState, c: object, slot: nat, reg: nat): LobbyState
    requires slot < |l.quest.countRegs|
  {
    l.(quest := l.quest.(countRegs := l.quest.countRegs[slot := reg]),
       history := l.history.(syncs := l.history.syncs + [CountSync(c, reg, l.count)]))
  }

  lemma SubscribeKeepsSound(l: LobbyState, c: object, slot: nat, reg: nat)
    requires Sound(l) && l.quest.data && slot < LOBBY_MAX_IN_TEAM && l.slots[slot] == c
    ensures Sound(Subscribe(l, c, slot, reg))
  {
    var r := Subscribe(l, c, slot, reg);
    var log := r.history.syncs;
    forall k | 0 <= k < LOBBY_MAX_IN_TEAM && r.quest.countRegs[k] != 0
      ensures LastSent(log, l.slots[k], r.quest.countRegs[k]) == Some(l.count)
    {
      assert log[..|log| - 1] == l.history.syncs;
    }
  }
}
