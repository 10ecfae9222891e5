/**
  What entering and leaving do to a lobby, told field by field (src/lobby.c:802-1025).
 */
module LobbyEffects {
  import opened Elections
  import opened LobbyRules

  // ---------------------------------------------------------------- count updates

  /** `ks` are the slots that have subscribed, in order. */
  ghost predicate AreSubscribed(ks: seq<nat>, regs: seq<nat>) {
    && (forall i, j :: 0 <= i < j < |ks| ==> ks[i] < ks[j])
    && (forall i :: 0 <= i < |ks| ==> ks[i] < |regs| && regs[ks[i]] != 0)
    && forall k: nat :: k < |regs| && regs[k] != 0 ==> k in ks
  }

  /** `sent` is one message to every subscriber, in slot order, with the count for the register it asked for. */
  ghost predicate IsRound(sent: seq<CountSync>, slots: seq<object?>, regs: seq<nat>, count: int) {
    exists ks: seq<nat> :: AreSubscribed(ks, regs) && AreSent(sent, ks, slots, regs, count)
  }

  ghost predicate AreSent(sent: seq<CountSync>, ks: seq<nat>, slots: seq<object?>, regs: seq<nat>, count: int) {
    |sent| == |ks| && forall i :: 0 <= i < |ks| ==> IsSent(sent[i], ks[i], slots, regs, count)
  }

  ghost predicate IsSent(m: CountSync, k: nat, slots: seq<object?>, regs: seq<nat>, count: int) {
    k < |slots| && k < |regs| && m.to == slots[k] && m.reg == regs[k] && m.count == count
  }

  function Subscribers(regs: seq<nat>, n: nat): seq<nat>
    requires n <= |regs|
  {
    if n == 0 then [] else if regs[n - 1] != 0 then Subscribers(regs, n - 1) + [n - 1] else Subscribers(regs, n - 1)
  }

  lemma {:induction false} SubscribersUpTo(regs: seq<nat>, n: nat)
    requires n <= |regs|
    ensures AreSubscribed(Subscribers(regs, n), regs[..n])
  {
    if n > 0 {
      var k := n - 1;
      SubscribersUpTo(regs, k);
      assert regs[..n] == regs[..k] + [regs[k]];
      OneMoreSubscriber(Subscribers(regs, k), regs[..k], regs[k]);
    }
  }

  lemma OneMoreSubscriber(ks: seq<nat>, regs: seq<nat>, reg: nat)
    requires AreSubscribed(ks, regs)
    ensures AreSubscribed(if reg != 0 then ks + [|regs|] else ks, regs + [reg])
  {
    var longer := regs + [reg];
    assert forall k: nat :: k < |regs| ==> longer[k] == regs[k];
    if reg != 0 {
      NextSubscribes(ks, regs, longer);
    } else {
      assert forall k: nat :: k < |longer| && longer[k] != 0 ==> k < |regs|;
    }
  }

  lemma NextSubscribes(ks: seq<nat>, regs: seq<nat>, longer: seq<nat>)
    requires AreSubscribed(ks, regs) && |longer| == |regs| + 1 && longer[|regs|] != 0
    requires forall k: nat :: k < |regs| ==> longer[k] == regs[k]
    ensures AreSubscribed(ks + [|regs|], longer)
  {
    var more := ks + [|regs|];
    assert forall i :: 0 <= i < |ks| ==> more[i] == ks[i] && ks[i] < |regs|;
    forall k: nat | k < |longer| && longer[k] != 0
      ensures k in more
    {
      if k < |regs| {
        assert k in ks;
      } else {
        assert more[|ks|] == k;
      }
    }
  }

  ghost function SyncsUpTo(slots: seq<object?>, regs: seq<nat>, count: int, n: nat): seq<CountSync>
    requires SubscribersSeated(slots, regs) && n <= LOBBY_MAX_IN_TEAM
  {
    if n == 0 then [] else SyncsUpTo(slots, regs, count, n - 1) + SyncSlot(slots, regs, count, n - 1)
  }

  lemma {:induction false} SentUpTo(slots: seq<object?>, regs: seq<nat>, count: int, n: nat)
    requires SubscribersSeated(slots, regs) && n <= LOBBY_MAX_IN_TEAM
    ensures AreSent(SyncsUpTo(slots, regs, count, n), Subscribers(regs, n), slots, regs, count)
  {
    if n > 0 {
      var k := n - 1;
      SentUpTo(slots, regs, count, k);
      OneMoreSent(slots, regs, count, SyncsUpTo(slots, regs, count, k), Subscribers(regs, k), k);
    }
  }

  lemma OneMoreSent(slots: seq<object?>, regs: seq<nat>, count: int, sent: seq<CountSync>, ks: seq<nat>, k: nat)
    requires SubscribersSeated(slots, regs) && k < LOBBY_MAX_IN_TEAM && AreSent(sent, ks, slots, regs, count)
    ensures AreSent(sent + SyncSlot(slots, regs, count, k), if regs[k] != 0 then ks + [k] else ks, slots, regs, count)
  {
  }

  lemma AllSyncs(slots: seq<object?>, regs: seq<nat>, count: int)
    requires SubscribersSeated(slots, regs)
    ensures CountSyncs(slots, regs, count) == SyncsUpTo(slots, regs, count, LOBBY_MAX_IN_TEAM)
  {
    var s0, s1 := SyncSlot(slots, regs, count, 0), SyncSlot(slots, regs, count, 1);
    var s2, s3 := SyncSlot(slots, regs, count, 2), SyncSlot(slots, regs, count, 3);
    assert SyncsUpTo(slots, regs, count, 1) == [] + s0 == s0;
    assert SyncsUpTo(slots, regs, count, 2) == s0 + s1;
    assert SyncsUpTo(slots, regs, count, 3) == s0 + s1 + s2;
    assert SyncsUpTo(slots, regs, count, 4) == s0 + s1 + s2 + s3;
  }

  lemma RoundIsSent(slots: seq<object?>, regs: seq<nat>, count: int, sent: seq<CountSync>)
    requires SubscribersSeated(slots, regs) && sent == CountSyncs(slots, regs, count)
    ensures IsRound(sent, slots, regs, count)
  {
    var ks := Subscribers(regs, |regs|);
    AllSyncs(slots, regs, count);
    SubscribersUpTo(regs, |regs|);
    SentUpTo(slots, regs, count, |regs|);
    assert regs[..|regs|] == regs;
    assert AreSubscribed(ks, regs) && AreSent(sent, ks, slots, regs, count);
  }

  /** The messages added to the log, if any: a round while a quest runs, and nothing otherwise. */
  ghost predicate Told(before: LobbyState, after: LobbyState) {
    && before.history.syncs <= after.history.syncs
    && var sent := after.history.syncs[|before.history.syncs|..];
       if before.flags.questing then IsRound(sent, after.slots, after.quest.countRegs, after.count) else sent == []
  }

  lemma AnnounceTells(l: LobbyState)
    requires SubscribersSeated(l.slots, l.quest.countRegs)
    ensures Told(l, Announce(l)) && Announce(l).(history := l.history) == l
    ensures Announce(l).history == l.history.(syncs := Announce(l).history.syncs)
  {
    var log, sent := l.history.syncs, CountSyncs(l.slots, l.quest.countRegs, l.count);
    RoundIsSent(l.slots, l.quest.countRegs, l.count, sent);
    assert (log + sent)[|log|..] == sent;
  }

  // ---------------------------------------------------------------- entering

  /** Slot 1 of a pre-Gamecube team is taken first, and otherwise the lowest empty one. */
  ghost predicate IsFirstFree(l: LobbyState, slot: nat) {
    slot < |l.slots| && l.slots[slot] == null &&
    if l.version in {DCv1, DCv2, PC} && l.terms.kind == Game && 1 < |l.slots| && l.slots[1] == null then slot == 1
    else forall i :: 0 <= i < slot ==> l.slots[i] != null
  }

  /** Entering fills the first free slot, counts one more, makes the first to enter the leader, ends the "only one" of a
      team with a second, and tells the subscribers. Nothing else changes. */
  lemma EnterDoes(l: LobbyState, c: object)
    requires Shape(l) && Subscribed(l) && l.count < l.terms.maxClients
    ensures var r := Enter(l, c);
            exists slot: nat :: IsFirstFree(l, slot) && HasEntered(l, r, c, slot)
    ensures Told(l, Enter(l, c))
  {
    FirstFreeIsNext(l);
    TakeDoes(l, c, NextSlot(l));
  }

  lemma TakeDoes(l: LobbyState, c: object, slot: nat)
    requires slot < |l.slots| && l.slots[slot] == null && SubscribersSeated(l.slots, l.quest.countRegs)
    ensures HasEntered(l, Take(l, c, slot), c, slot) && Told(l, Take(l, c, slot))
  {
    SettlingEnters(l, c, slot);
    AnnounceTells(Settle(l, c, slot));
  }

  lemma FirstFreeIsNext(l: LobbyState)
    requires Shape(l) && l.count < l.terms.maxClients
    ensures IsFirstFree(l, NextSlot(l))
  {
  }

  lemma SettlingEnters(l: LobbyState, c: object, slot: nat)
    requires slot < |l.slots|
    ensures HasEntered(l, Settle(l, c, slot), c, slot) && Settle(l, c, slot).history.syncs == l.history.syncs
  {
  }

  ghost predicate HasEntered(l: LobbyState, r: LobbyState, c: object, slot: nat) {
    && slot < |l.slots| && r.slots == l.slots[slot := c] && r.count == l.count + 1
    && r.leader == (if l.count == 0 then slot else l.leader)
    && r.flags == l.flags.(onlyOne := l.flags.onlyOne && l.count == 0)
    && r == l.(slots := r.slots, count := r.count, leader := r.leader, flags := r.flags, history := r.history)
    && r.history == l.history.(syncs := r.history.syncs, leaderless := l.history.leaderless && l.count != 0)
  }

  // ---------------------------------------------------------------- leaving

  /** Leaving empties the slot, counts one less, in a team drops the slot's subscription, and tells the other
      subscribers. Only the departure of the leader changes who leads, or the version of the team. */
  lemma LeaveDoes(l: LobbyState, slot: nat, seats: seq<Seat>, now: int)
    requires Subscribed(l) && slot < LOBBY_MAX_CLIENTS
    requires l.terms.kind != DefaultLobby ==> slot < LOBBY_MAX_IN_TEAM
    ensures var r := Leave(l, slot, seats, now);
            && r.slots == l.slots[slot := null] && r.count == l.count - 1
            && r.quest == (if l.terms.kind == DefaultLobby then l.quest
                           else l.quest.(countRegs := l.quest.countRegs[slot := 0]))
            && r == l.(slots := r.slots, count := r.count, quest := r.quest, leader := r.leader, version := r.version,
                       flags := r.flags, history := r.history)
            && (slot != l.leader ==> r.leader == l.leader && r.version == l.version && r.flags == l.flags)
            && r.history == l.history.(syncs := r.history.syncs, leaderless := r.history.leaderless)
    ensures Told(l, Leave(l, slot, seats, now))
  {
    var l0 := if slot == l.leader then Replace(l, seats, now) else l;
    var l1 := Clear(l0, slot);
    if l.terms.kind != DefaultLobby {
      AnnounceTells(l1.(quest := l.quest.(countRegs := l.quest.countRegs[slot := 0])));
    }
  }

  /** Who can be elected: anybody else that joined before now, and in an election of pre-Gamecube members
      only those. */
  lemma WhoIsEligible(seats: seq<Seat>, leader: nat, now: int, i: nat)
    ensures Eligible(seats, leader, now, false, i) <==>
              i < |seats| && i != leader && seats[i].Held? && seats[i].joinTime < now
    ensures Eligible(seats, leader, now, true, i) <==>
              Eligible(seats, leader, now, false, i) && seats[i].version in {DCv1, DCv2, PC}
  {
  }

  /** Nobody among those that could have been elected joined before `s`, or in the same second in a lower slot. */
  ghost predicate IsFirst(seats: seq<Seat>, leader: nat, now: int, preGamecubeOnly: bool, s: nat) {
    && Eligible(seats, leader, now, preGamecubeOnly, s)
    && forall i :: Eligible(seats, leader, now, preGamecubeOnly, i) ==>
         seats[s].joinTime < seats[i].joinTime || (seats[s].joinTime == seats[i].joinTime && s <= i)
  }

  lemma ElectedIsFirst(seats: seq<Seat>, leader: nat, now: int, preGamecubeOnly: bool)
    ensures var e := Election(seats, leader, now, preGamecubeOnly);
            if exists i :: Eligible(seats, leader, now, preGamecubeOnly, i)
            then e >= 0 && IsFirst(seats, leader, now, preGamecubeOnly, e) else e == -1
  {
    var e := Election(seats, leader, now, preGamecubeOnly);
    assert e != -1 ==> Eligible(seats, leader, now, preGamecubeOnly, e);
  }

  lemma VacatingKeepsLead(l: LobbyState, slot: nat)
    requires Subscribed(l) && slot < LOBBY_MAX_CLIENTS
    requires l.terms.kind != DefaultLobby ==> slot < LOBBY_MAX_IN_TEAM
    ensures var r := Vacate(l, slot); r.leader == l.leader && r.version == l.version && r.flags == l.flags
  {
  }

  /** Who leads after the leader has left. In a pre-Gamecube team with Gamecube players allowed it is the pre-Gamecube
      member that joined first, if there is one to elect; if there is none, the team becomes a Gamecube team. Otherwise
      it is whoever joined first, and with nobody to elect the seat is slot 0. */
  lemma LeaderLeaves(l: LobbyState, slot: nat, seats: seq<Seat>, now: int)
    requires Subscribed(l) && slot < LOBBY_MAX_CLIENTS && slot == l.leader
    requires l.terms.kind != DefaultLobby ==> slot < LOBBY_MAX_IN_TEAM
    ensures var r, cross := Leave(l, slot, seats, now), l.version in {DCv1, DCv2, PC} && l.flags.gcAllowed;
            if cross && exists i :: Eligible(seats, slot, now, true, i) then
              IsFirst(seats, slot, now, true, r.leader) && r.version == l.version && r.flags == l.flags
            else
              && (if exists i :: Eligible(seats, slot, now, false, i) then IsFirst(seats, slot, now, false, r.leader)
                  else r.leader == 0)
              && r.version == (if cross then GC else l.version)
              && r.flags == (if cross then l.flags.(gcAllowed := false) else l.flags)
  {
    ElectedIsFirst(seats, slot, now, true);
    ElectedIsFirst(seats, slot, now, false);
    VacatingKeepsLead(Replace(l, seats, now), slot);
  }

  // ---------------------------------------------------------------- a new lobby

  /** A new lobby is empty. Default lobbies admit everybody; teams admit the levels their difficulty asks for, up to
      200, Episode 3 teams any up to 200. */
  lemma NewLobbyIs(terms: Terms, version: Version, v2: bool, singlePlayer: bool, pending: bool)
    ensures var r := NewLobby(terms, version, v2, singlePlayer, pending);
            && r.terms == terms && r.version == version && r.v2 == v2 && r.count == 0
            && |r.slots| == 12 && (forall i :: 0 <= i < 12 ==> r.slots[i] == null)
            && r.leader == (if terms.kind == Game then 1 else 0)
            && r.minLevel == (if terms.kind == DefaultLobby then 0 else if terms.kind == Ep3Game then 1
                              else RequiredLevel(terms.difficulty))
            && r.maxLevel == (if terms.kind == DefaultLobby then 9001 else 200)
            && r.flags == Flags(false, false, false, false, terms.kind == Game, false, false, false, false,
                                singlePlayer, false)
            && !r.quest.joinable && !r.quest.data && r.quest.countRegs == [0, 0, 0, 0]
            && r.queues.waiting == [] && r.queues.resend == []
  {
  }

  // ---------------------------------------------------------------- bursts and quests

  /** What a drain hands to the handlers: the queue, or as much of it as there is up to the first packet refused. */
  ghost predicate IsDelivery(d: seq<Packet>, queue: seq<Packet>, accepts: Packet -> bool) {
    && d <= queue && (forall k :: 0 <= k < |d| - 1 ==> accepts(d[k]))
    && (d == queue || (d != [] && !accepts(d[|d| - 1])))
  }

  /** The end of a burst clears the flag and handles what waited; of the queues only that of waiting packets, which is
      then empty, is touched, and nothing else of the lobby. */
  lemma BurstEnds(l: LobbyState, accepts: Packet -> bool)
    ensures var r := EndBurst(l, accepts);
            && r == l.(flags := l.flags.(bursting := false), queues := Queues([], l.queues.resend),
                       history := r.history)
            && r.history.accepted == l.history.accepted
            && r.history.disposed == l.history.disposed + l.queues.waiting
            && |l.history.handled| <= |r.history.handled|
            && r.history.handled[..|l.history.handled|] == l.history.handled
            && IsDelivery(r.history.handled[|l.history.handled|..], l.queues.waiting, accepts)
  {
    var d := Delivered(l.queues.waiting, accepts);
    DeliveredIsFifo(l.queues.waiting, accepts);
    assert EndBurst(l, accepts).history.handled[|l.history.handled|..] == d;
  }

  /** A packet waits, behind the others of its queue, only during a burst and only if it is of one of three types. */
  lemma EnqueueDoes(l: LobbyState, p: Packet, forResend: bool)
    ensures var r, rc := Enqueue(l, p, forResend), EnqueueResult(l, p);
            var kind := p.command in {GameCommand0, GameCommand2, GameCommandD};
            && (rc == -1 <==> !l.flags.bursting) && (rc == -2 <==> l.flags.bursting && !kind) && rc in {0, -1, -2}
            && (rc != 0 ==> r == l)
            && (rc == 0 && forResend ==> r == l.(queues := Queues(l.queues.waiting, l.queues.resend + [p])))
            && (rc == 0 && !forResend ==>
                  r == l.(queues := Queues(l.queues.waiting + [p], l.queues.resend), history := r.history) &&
                  r.history == l.history.(accepted := l.history.accepted + [p]))
  {
  }

  /** The newcomer is sent, in order, the packets kept for it, up to the first that is of neither of the two private
      types or could not be sent; there was none such if and only if the whole queue has been sent. */
  lemma ResendDoes(queue: seq<Packet>, sends: Packet -> bool)
    ensures AllResent(queue, sends) <==>
              forall k :: 0 <= k < |queue| ==> queue[k].command in {GameCommand2, GameCommandD} && sends(queue[k])
    ensures var d := Resent(queue, sends);
            && d <= queue
            && (forall k :: 0 <= k < |d| ==> d[k].command in {GameCommand2, GameCommandD})
            && (forall k :: 0 <= k < |d| - 1 ==> sends(d[k]))
            && (AllResent(queue, sends) ==> d == queue)
  {
    ResentIsFifo(queue, sends);
  }

  /** A quest that starts ends the selection, and allows later joins, or asks for data, if it or an earlier one did. */
  lemma QuestStarts(l: LobbyState, joinable: bool, data: bool)
    ensures var r := StartQuest(l, joinable, data);
            && r == l.(flags := r.flags, quest := r.quest)
            && r.flags == l.flags.(questing := true, questSel := false)
            && (r.quest.joinable <==> joinable || l.quest.joinable) && (r.quest.data <==> data || l.quest.data)
            && r.quest.countRegs == l.quest.countRegs
  {
  }
}
