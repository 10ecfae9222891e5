/**
  The lobby and client objects of a block (src/lobby.c, src/lobby.h, src/clients.h).

  A lobby's slots and registers are inline arrays of the C struct, without an identity of their own; here
  they are sequence-valued fields that the methods reassign, as are the packet queues. The flag word is one
  field. `View` shows an object's fields as the state LobbyRules and BlockRules talk about.
 */
module Lobbies {
  import opened Elections
  import opened LobbyRules
  import opened BlockRules
  import Commands

  class Client {
    const version: Version
    const nte: bool
    const gcProtect: bool
    /** Zero-based level, and whether the class is one that version 1 teams refuse. */
    const level: nat
    const lateClass: bool

    var curLobby: Lobby?
    var clientId: nat
    var joinTime: int
    var bursting: bool
    var waitQping: bool
    var override: bool
    /** A PC team created but not yet listed, waiting for the player's menu choice. */
    var createLobby: Lobby?

    ghost function View(): ClientState
      reads this
    {
      ClientState(version, nte, gcProtect, level, lateClass, curLobby, clientId, joinTime, bursting, waitQping,
                  override, createLobby)
    }

    constructor (version: Version, nte: bool, gcProtect: bool, level: nat, lateClass: bool)
      ensures View() == ClientState(version, nte, gcProtect, level, lateClass, null, 0, 0, false, false, false, null)
    {
      this.version, this.nte, this.gcProtect := version, nte, gcProtect;
      this.level, this.lateClass := level, lateClass;
      curLobby, createLobby, clientId, joinTime := null, null, 0, 0;
      bursting, waitQping, override := false, false, false;
    }

    /** The client is in slot `slot` of `l` from now on. */
    method MoveTo(l: Lobby, slot: nat, now: int)
      modifies this`curLobby, this`clientId, this`joinTime
      ensures View() == old(View()).(lobby := l, slot := slot, joinTime := now)
    {
      curLobby, clientId, joinTime := l, slot, now;
    }

    /** Forget the current lobby if it is `l`. */
    method Forget(l: Lobby)
      modifies this`curLobby, this`clientId
      ensures View() == if old(curLobby) == l then old(View()).(lobby := null, slot := 0) else old(View())
    {
      if curLobby == l {
        curLobby, clientId := null, 0;
      }
    }
  }

  ghost function SeatsIn(slots: seq<Client?>): (seats: seq<Seat>)
    reads slots
    ensures |seats| == |slots|
    ensures forall i :: 0 <= i < |slots| ==>
              seats[i] == if slots[i] == null then Vacant else Held(slots[i].joinTime, slots[i].version)
  {
    if slots == [] then []
    else [if slots[0] == null then Vacant else Held(slots[0].joinTime, slots[0].version)] + SeatsIn(slots[1..])
  }

  class Lobby {
    const terms: Terms

    var version: Version
    var v2: bool
    var clients: seq<Client?>
    var numClients: int
    var leaderId: nat
    var minLevel: int
    var maxLevel: int
    var flags: Flags
    var qJoin: bool
    var qData: bool
    var qcountReg: seq<nat>
    var pktQueue: seq<Packet>
    var burstQueue: seq<Packet>
    ghost var history: History

    ghost function View(): LobbyState
      reads this
    {
      LobbyState(terms, version, v2, clients, numClients, leaderId, minLevel, maxLevel, flags,
                 Quest(qJoin, qData, qcountReg), Queues(pktQueue, burstQueue), history)
    }

    constructor (terms: Terms, version: Version, v2: bool, singlePlayer: bool, ghost pending: bool, ghost strayed: bool)
      ensures View() == var s := NewLobby(terms, version, v2, singlePlayer, pending);
                        s.(history := s.history.(strayed := strayed))
    {
      this.terms, this.version, this.v2 := terms, version, v2;
      clients := seq(LOBBY_MAX_CLIENTS, _ => null);
      numClients := 0;
      leaderId := if terms.kind == Game then 1 else 0;
      minLevel := if terms.kind == DefaultLobby then 0
                  else if terms.kind == Game then RequiredLevel(terms.difficulty) else 1;
      maxLevel := if terms.kind == DefaultLobby then 9001 else 200;
      flags := Flags(false, false, false, false, terms.kind == Game, false, false, false, false, singlePlayer, false);
      qJoin, qData, qcountReg := false, false, [0, 0, 0, 0];
      pktQueue, burstQueue := [], [];
      history := History([], [], [], [], false, false, {}, pending, strayed);
      new;
      assert clients == NewLobby(terms, version, v2, singlePlayer, pending).slots;
    }

    // -------------------------------------------------------------- members

    /** Tell the member in slot `k`, if it is subscribed, the current number of clients. */
    method SendCount(k: nat)
      requires SubscribersSeated(clients, qcountReg) && k < LOBBY_MAX_IN_TEAM
      modifies this`history
      ensures history == old(history).(syncs := old(history.syncs) + SyncSlot(clients, qcountReg, numClients, k))
    {
      if qcountReg[k] != 0 {
        history := history.(syncs := history.syncs + [CountSync(clients[k], qcountReg[k], numClients)]);
      }
    }

    /** While a quest runs, tell every subscriber the current number of clients. */
    method SendCounts()
      requires SubscribersSeated(clients, qcountReg)
      modifies this`history
      ensures View() == Announce(old(View()))
    {
      if flags.questing {
        ghost var start := history.syncs;
        ghost var s0 := SyncSlot(clients, qcountReg, numClients, 0);
        ghost var s1 := SyncSlot(clients, qcountReg, numClients, 1);
        ghost var s2 := SyncSlot(clients, qcountReg, numClients, 2);
        SendCount(0);
        SendCount(1);
        assert history.syncs == start + (s0 + s1);
        SendCount(2);
        assert history.syncs == start + (s0 + s1 + s2);
        SendCount(3);
        assert history.syncs == start + CountSyncs(clients, qcountReg, numClients);
      }
    }

    /** Put a client into the lobby. Fails, changing nothing, exactly when the lobby is full. */
    method AddClientLocked(c: Client, now: int, ghost byOverride: bool) returns (rc: int)
      requires Shape(View()) && Subscribed(View())
      modifies this`clients, this`numClients, this`leaderId, this`flags, this`history
      modifies c`curLobby, c`clientId, c`joinTime
      ensures rc == if old(numClients) >= terms.maxClients then -1 else 0
      ensures rc == -1 ==> unchanged(this) && unchanged(c)
      ensures rc == 0 ==> View() == Entered(old(View()), c, byOverride)
      ensures rc == 0 ==> c.View() == old(c.View()).(lobby := this, slot := NextSlot(old(View())), joinTime := now)
    {
      if numClients >= terms.maxClients {
        return -1;
      }
      var slot := FindSlot();
      Enroll(c, slot, byOverride);
      c.MoveTo(this, slot, now);
      return 0;
    }

    /** Everything that happens to the lobby itself when `c` takes slot `slot`. */
    method Enroll(c: Client, slot: nat, ghost byOverride: bool)
      requires |clients| == LOBBY_MAX_CLIENTS && slot < LOBBY_MAX_CLIENTS && SubscribersSeated(clients, qcountReg)
      modifies this`clients, this`numClients, this`leaderId, this`flags, this`history
      ensures View() == NoteOverride(Take(old(View()), c, slot), c, byOverride)
    {
      TakeSlot(c, slot);
      SendCounts();
      history := history.(overriders := if byOverride then history.overriders + {c} else history.overriders - {c});
    }

    /** Where the next client goes. That the search for an empty slot succeeds below capacity makes the
        original's "terribly wrong" exit unreachable. */
    method FindSlot() returns (slot: nat)
      requires Shape(View()) && numClients < terms.maxClients
      ensures slot == NextSlot(View())
    {
      if clients[1] == null && PreGamecube(version) && terms.kind == Game {
        return 1;
      }
      RoomMeansFreeSlot(clients, terms.maxClients);
      slot := 0;
      while clients[slot] != null
        invariant slot <= LowestFree(clients, terms.maxClients, 0)
        decreases terms.maxClients - slot
      {
        slot := slot + 1;
      }
    }

    /** The assignments the original repeats for both ways of choosing a slot. */
    method TakeSlot(c: Client, slot: nat)
      requires |clients| == LOBBY_MAX_CLIENTS && slot < LOBBY_MAX_CLIENTS
      modifies this`clients, this`numClients, this`leaderId, this`flags, this`history
      ensures View() == Settle(old(View()), c, slot)
    {
      if numClients != 0 {
        flags := flags.(onlyOne := false);
      }
      clients := clients[slot := c];
      numClients := numClients + 1;
      if numClients == 1 {
        leaderId := slot;
        history := history.(leaderless := false);
      }
    }

    /** Either election loop: the member, other than the leader, that joined first and before `now`. */
    method FindEarliest(ghost seats: seq<Seat>, now: int, preGamecubeOnly: bool) returns (earliest: int)
      requires |clients| == LOBBY_MAX_CLIENTS && terms.maxClients <= LOBBY_MAX_CLIENTS
      requires forall i :: terms.maxClients <= i < LOBBY_MAX_CLIENTS ==> clients[i] == null
      requires seats == SeatsIn(clients)
      ensures earliest == Election(seats, leaderId, now, preGamecubeOnly)
    {
      earliest := -1;
      var earliestTime := now;
      var i := 0;
      while i < terms.maxClients
        invariant 0 <= i <= terms.maxClients
        invariant ElectedBelow(seats, leaderId, now, preGamecubeOnly, i, earliest)
        invariant earliestTime == if earliest == -1 then now else seats[earliest].joinTime
      {
        ElectedStep(seats, leaderId, now, preGamecubeOnly, i, earliest);
        if i == leaderId {
        } else if clients[i] != null && clients[i].joinTime < earliestTime &&
                  (preGamecubeOnly ==> PreGamecube(clients[i].version)) {
          earliest, earliestTime := i, clients[i].joinTime;
        }
        i := i + 1;
      }
      ElectedRest(seats, leaderId, now, preGamecubeOnly, i, earliest);
    }

    method ElectLeaderLocked(now: int) returns (earliest: int)
      requires Shape(View())
      ensures earliest == Election(SeatsIn(clients), leaderId, now, false)
    {
      earliest := FindEarliest(SeatsIn(clients), now, false);
    }

    /** A pre-Gamecube member if there is one to choose; otherwise the team turns into a Gamecube team. */
    method ElectLeaderCrossLocked(now: int) returns (earliest: int)
      requires Shape(View())
      modifies this`flags, this`version
      ensures earliest == CrossElection(old(SeatsIn(clients)), leaderId, now)
      ensures if Election(old(SeatsIn(clients)), leaderId, now, true) != -1
              then flags == old(flags) && version == old(version)
              else flags == old(flags).(gcAllowed := false) && version == GC
    {
      earliest := ElectCross(SeatsIn(clients), now);
    }

    method ElectCross(ghost seats: seq<Seat>, now: int) returns (earliest: int)
      requires |clients| == LOBBY_MAX_CLIENTS && terms.maxClients <= LOBBY_MAX_CLIENTS && seats == SeatsIn(clients)
      requires forall i :: terms.maxClients <= i < LOBBY_MAX_CLIENTS ==> clients[i] == null
      modifies this`flags, this`version
      ensures earliest == CrossElection(seats, leaderId, now)
      ensures if Election(seats, leaderId, now, true) != -1 then flags == old(flags) && version == old(version)
              else flags == old(flags).(gcAllowed := false) && version == GC
    {
      earliest := FindEarliest(seats, now, true);
      if earliest == -1 {
        flags, version := flags.(gcAllowed := false), GC;
        earliest := FindEarliest(seats, now, false);
      }
    }

    /** Take a client out of the lobby. The result is -1 when the client was not in that slot, 1 when a
        team became empty, and 0 otherwise. */
    method RemoveClientLocked(c: Client, clientId: nat, now: int) returns (rc: int)
      requires Shape(View()) && Subscribed(View()) && clientId < LOBBY_MAX_CLIENTS
      modifies this`clients, this`numClients, this`leaderId, this`version, this`flags, this`qcountReg, this`history
      modifies c`curLobby, c`clientId
      ensures rc == if old(clients)[clientId] != c then -1
                    else if terms.kind != DefaultLobby && numClients == 0 then 1 else 0
      ensures rc == -1 ==> unchanged(this) && unchanged(c)
      ensures rc != -1 ==>
                && (terms.kind != DefaultLobby ==> clientId < LOBBY_MAX_IN_TEAM)
                && View() == Leave(old(View()), clientId, old(SeatsIn(clients)), now)
                && c.View() == if old(c.curLobby) == this then old(c.View()).(lobby := null, slot := 0)
                  else old(c.View())
    {
      if clients[clientId] != c {
        return -1;
      }
      if clientId == leaderId {
        ReplaceLeader(now);
      }
      VacateSlot(c, clientId);
      return if terms.kind == DefaultLobby then 0 else if numClients == 0 then 1 else 0;
    }

    /** The same for a member known to be in its slot, with the outcome named. */
    method LetGo(c: Client, clientId: nat, now: int, ghost left: LobbyState) returns (delete: int)
      requires Shape(View()) && Subscribed(View()) && clientId < LOBBY_MAX_CLIENTS && clients[clientId] == c
      requires terms.kind != DefaultLobby ==> clientId < LOBBY_MAX_IN_TEAM
      requires left == Leave(View(), clientId, SeatsIn(clients), now)
      modifies this`clients, this`numClients, this`leaderId, this`version, this`flags, this`qcountReg, this`history
      modifies c`curLobby, c`clientId
      ensures View() == left && delete == if terms.kind != DefaultLobby && left.count == 0 then 1 else 0
      ensures c.View() == if old(c.curLobby) == this then old(c.View()).(lobby := null, slot := 0) else old(c.View())
    {
      delete := RemoveClientLocked(c, clientId, now);
    }

    method ReplaceLeader(now: int)
      requires Shape(View())
      modifies this`leaderId, this`version, this`flags, this`history
      ensures View() == Replace(old(View()), old(SeatsIn(clients)), now)
    {
      var newLeader := Elect(now);
      CrownLeader(newLeader);
    }

    method Elect(now: int) returns (newLeader: int)
      requires Shape(View())
      modifies this`version, this`flags
      ensures var s, seats := old(View()), old(SeatsIn(clients));
              && newLeader == (if CrossPlay(s) then CrossElection(seats, s.leader, now)
                               else Election(seats, s.leader, now, false))
              && View() == if CrossPlay(s) && Election(seats, s.leader, now, true) == -1 then TurnGamecube(s) else s
    {
      if PreGamecube(version) && flags.gcAllowed {
        newLeader := ElectLeaderCrossLocked(now);
      } else {
        newLeader := ElectLeaderLocked(now);
      }
    }

    method CrownLeader(newLeader: int)
      requires newLeader >= -1
      modifies this`leaderId, this`history
      ensures View() == Crown(old(View()), newLeader)
    {
      if newLeader == -1 {
        leaderId := 0;
      } else {
        leaderId := newLeader;
      }
      history := history.(leaderless := newLeader == -1 && numClients != 1);
    }

    method VacateSlot(c: Client, clientId: nat)
      requires |clients| == LOBBY_MAX_CLIENTS && Subscribed(View()) && clientId < LOBBY_MAX_CLIENTS
      requires terms.kind != DefaultLobby ==> clientId < LOBBY_MAX_IN_TEAM
      modifies this`clients, this`numClients, this`qcountReg, this`history, c`curLobby, c`clientId
      ensures View() == Vacate(old(View()), clientId)
      ensures c.View() == if old(c.curLobby) == this then old(c.View()).(lobby := null, slot := 0) else old(c.View())
    {
      clients := clients[clientId := null];
      numClients := numClients - 1;
      assert View() == Clear(old(View()), clientId);
      c.Forget(this);
      if terms.kind != DefaultLobby {
        qcountReg := qcountReg[clientId := 0];
        SendCounts();
      }
    }

    // -------------------------------------------------------------- bursts

    /** Handle the packets queued during a burst; they are all gone afterwards. */
    method HandleDoneBurst(accepts: Packet -> bool) returns (rc: int)
      modifies this`pktQueue, this`history
      ensures View() == Drain(old(View()), accepts)
      ensures rc == if AllAccepted(old(pktQueue), accepts) then 0 else -1
    {
      rc := 0;
      ghost var queue, disposed, handled := pktQueue, [], [];
      while pktQueue != []
        invariant rc == 0 || rc == -1
        invariant history == old(history)
        invariant disposed + pktQueue == queue
        invariant Delivered(queue, accepts) == if rc == 0 then handled + Delivered(pktQueue, accepts) else handled
        invariant AllAccepted(queue, accepts) <==> rc == 0 && AllAccepted(pktQueue, accepts)
        decreases |pktQueue|
      {
        ghost var before := pktQueue;
        var p := pktQueue[0];
        pktQueue := pktQueue[1..];
        assert before == [p] + pktQueue;
        if rc == 0 {
          handled := handled + [p];
          if !accepts(p) {
            rc := -1;
          }
        }
        disposed := disposed + [p];
      }
      assert disposed == queue && handled == Delivered(queue, accepts) by {
        assert disposed + [] == disposed && handled + [] == handled;
      }
      history := history.(disposed := history.disposed + disposed, handled := history.handled + handled,
                          nteCleared := false);
    }

    /** The burst is over, and the packets that waited for its end are handled. */
    method EndBurst(accepts: Packet -> bool) returns (rc: int)
      modifies this`flags, this`pktQueue, this`history
      ensures View() == LobbyRules.EndBurst(old(View()), accepts)
      ensures rc == if AllAccepted(old(pktQueue), accepts) then 0 else -1
    {
      flags := flags.(bursting := false);
      rc := HandleDoneBurst(accepts);
    }

    /** Re-send the packets of a quest burst to the client that has just loaded the quest; `resent` are those that were
        tried. */
    method ResendBurst(sends: Packet -> bool) returns (rc: int, resent: seq<Packet>)
      modifies this`burstQueue
      ensures burstQueue == [] && resent == Resent(old(burstQueue), sends)
      ensures rc == if AllResent(old(burstQueue), sends) then 0 else -1
    {
      rc, resent := 0, [];
      ghost var queue := burstQueue;
      while burstQueue != []
        invariant rc == 0 || rc == -1
        invariant Resent(queue, sends) == if rc == 0 then resent + Resent(burstQueue, sends) else resent
        invariant AllResent(queue, sends) <==> rc == 0 && AllResent(burstQueue, sends)
        decreases |burstQueue|
      {
        var p := burstQueue[0];
        burstQueue := burstQueue[1..];
        if rc == 0 {
          if Resendable(p) {
            resent := resent + [p];
            if !sends(p) {
              rc := -1;
            }
          } else {
            rc := -1;
          }
        }
      }
    }

    /** Someone has loaded the quest: the burst is over, what was to be sent again is, and what waited is handled. */
    method EndQuestBurst(sends: Packet -> bool, accepts: Packet -> bool) returns (resent: seq<Packet>, rc: int)
      modifies this`flags, this`pktQueue, this`burstQueue, this`history
      ensures View() == Commands.EndQuestBurst(old(View()), accepts)
      ensures resent == Resent(old(burstQueue), sends)
      ensures rc == if AllAccepted(old(pktQueue), accepts) then 0 else -1
    {
      flags := flags.(bursting := false);
      var _, r := ResendBurst(sends);
      resent := r;
      rc := HandleDoneBurst(accepts);
    }

    /** Queue a packet for when the burst ends. */
    method EnqueuePktEx(p: Packet, toBurstQueue: bool) returns (rc: int)
      modifies this`pktQueue, this`burstQueue, this`history
      ensures rc == EnqueueResult(old(View()), p)
      ensures View() == Enqueue(old(View()), p, toBurstQueue)
    {
      if !flags.bursting {
        return -1;
      }
      if p.command != GameCommand0 && p.command != GameCommand2 && p.command != GameCommandD {
        return -2;
      }
      if !toBurstQueue {
        pktQueue := pktQueue + [p];
        history := history.(accepted := history.accepted + [p]);
      } else {
        burstQueue := burstQueue + [p];
      }
      return 0;
    }

    /** The burst is over as far as the flag goes; what waited stays where it is. */
    method CutBurst()
      modifies this`flags, this`history
      ensures View() == NteLoaded(old(View()))
    {
      flags := flags.(bursting := false);
      history := history.(nteCleared := history.nteCleared || pktQueue != []);
    }

    // -------------------------------------------------------------- what members do

    /** `/minlvl level`, said by the member in `slot`. */
    method SetMinLevel(slot: nat, level: int)
      modifies this`minLevel
      ensures View() == Commands.MinLevel(old(View()), slot, level)
    {
      if terms.kind == DefaultLobby {
        return;
      }
      if leaderId != slot {
        return;
      }
      if level > 200 || level < 1 {
        return;
      }
      if level < RequiredLevel(terms.difficulty) {
        return;
      }
      if level > maxLevel {
        return;
      }
      minLevel := level;
    }

    /** `/maxlvl level` */
    method SetMaxLevel(slot: nat, level: int)
      modifies this`maxLevel
      ensures View() == Commands.MaxLevel(old(View()), slot, level)
    {
      if terms.kind == DefaultLobby || leaderId != slot || level > 200 || level < 1 || level < minLevel {
        return;
      }
      maxLevel := level;
    }

    /** Whether every member is of one of the given versions. `people` shows who the members are. */
    method AllMembersAre(versions: set<Version>, ghost people: map<object, ClientState>) returns (all: bool)
      requires Shape(View()) && MembersIn(people)
      ensures all <==> Commands.AllOf(View(), people, versions)
    {
      var i := 0;
      while i < terms.maxClients
        invariant 0 <= i <= terms.maxClients
        invariant forall k :: 0 <= k < i && clients[k] != null ==> clients[k].version in versions
      {
        if clients[i] != null && clients[i].version !in versions {
          assert View().slots[i] == clients[i];
          return false;
        }
        i := i + 1;
      }
      return true;
    }

    ghost predicate MembersIn(people: map<object, ClientState>)
      reads this
    {
      forall i :: 0 <= i < |clients| && clients[i] != null ==>
        clients[i] in people && people[clients[i] as object].version == clients[i].version
    }

    /** `/dconly [off]` */
    method SetDcOnly(slot: nat, off: bool, ghost people: map<object, ClientState>)
      requires Shape(View()) && MembersIn(people)
      modifies this`flags
      ensures View() == Commands.DcOnly(old(View()), people, slot, off)
    {
      if terms.kind != Game || leaderId != slot {
        return;
      }
      if off {
        flags := flags.(dcOnly := false);
        return;
      }
      var all := AllMembersAre({DCv1, DCv2}, people);
      if all {
        flags := flags.(dcOnly := true);
      }
    }

    /** `/v1only [off]` */
    method SetV1Only(slot: nat, off: bool, ghost people: map<object, ClientState>)
      requires Shape(View()) && MembersIn(people)
      modifies this`flags
      ensures View() == Commands.V1Only(old(View()), people, slot, off)
    {
      if terms.kind != Game || leaderId != slot {
        return;
      }
      if off {
        flags := flags.(v1Only := false);
        return;
      }
      var all := AllMembersAre({DCv1}, people);
      if all {
        flags := flags.(v1Only := true);
      }
    }

    /** `/allowgc [off]`, said by the member in `slot`. */
    method AllowGamecube(slot: nat, gm: bool, off: bool)
      modifies this`flags
      ensures View() == Commands.AllowGc(old(View()), slot, gm, off)
    {
      if !gm {
        return;
      }
      if terms.kind != Game || leaderId != slot {
        return;
      }
      if off {
        flags := flags.(gcAllowed := false);
        return;
      }
      if flags.dcOnly || flags.pcOnly || flags.v1Only {
        return;
      }
      flags := flags.(gcAllowed := true);
    }

    /** A member opens the list of quests, or closes it again. */
    method ChooseQuest(begin: bool)
      modifies this`flags
      ensures View() == Commands.SelectQuest(old(View()), begin)
    {
      if terms.kind == Game {
        flags := flags.(questSel := begin);
      }
    }

    /** A quest begins, but not while somebody is bursting. */
    method SetupQuest(joinable: bool, data: bool)
      modifies this`flags, this`qJoin, this`qData
      ensures View() == Commands.LoadQuest(old(View()), joinable, data)
    {
      if terms.kind != Game || flags.bursting {
        return;
      }
      flags := flags.(questing := true, questSel := false);
      qJoin := qJoin || joinable;
      qData := qData || data;
    }

    /** `/npc`, its arguments checked by the caller. */
    method BringNpc(goodArguments: bool)
      modifies this`flags
      ensures View() == Commands.AddNpc(old(View()), goodArguments)
    {
      if terms.kind != Game || numClients != 1 || terms.battle || terms.challenge || flags.questing {
        return;
      }
      if goodArguments {
        flags := flags.(singlePlayer := true, hasNpc := true);
      }
    }

    /** A quest asks, for the member in `slot`, to be told the client count in register `reg`. */
    method GetClientCountUpdates(c: Client, slot: nat, reg: nat)
      requires slot < |qcountReg|
      modifies this`qcountReg, this`history
      ensures View() == Commands.AskCount(old(View()), c, slot, reg)
    {
      if qData && reg <= 255 {
        qcountReg := qcountReg[slot := reg];
        history := history.(syncs := history.syncs + [CountSync(c, reg, numClients)]);
      }
    }
  }
}
