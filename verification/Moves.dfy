/**
  Entering, changing and leaving lobbies, as functions on a block's state, and the proof that each keeps the
  block's invariant (src/lobby.c:1027-1323).
 */
module Moves {
  import opened Elections
  import opened LobbyRules
  import opened BlockRules

  datatype Outcome = Outcome(block: BlockState, rc: int)

  // ---------------------------------------------------------------- any default lobby

  ghost predicate Open(l: LobbyState) {
    l.terms.kind == DefaultLobby && l.count < l.terms.maxClients
  }

  /** Version 1 clients do not see lobbies above 10. */
  ghost predicate Visible(version: Version, l: LobbyState) {
    !(version == DCv1 && l.terms.lobbyId > 10)
  }

  ghost predicate Suits(b: BlockState, c: object, l: object)
    requires c in b.clients
  {
    l in b.lobbies && Visible(b.clients[c].version, b.lobbies[l]) && Open(b.lobbies[l])
  }

  /** The first listed lobby the client may be put into. */
  ghost function FirstOpen(b: BlockState, c: object, from: nat): (i: nat)
    requires c in b.clients && from <= |b.listed|
    ensures from <= i <= |b.listed|
    ensures forall j :: from <= j < i ==> !Suits(b, c, b.listed[j])
    ensures i < |b.listed| ==> Suits(b, c, b.listed[i])
    decreases |b.listed| - from
  {
    if from == |b.listed| || Suits(b, c, b.listed[from]) then from else FirstOpen(b, c, from + 1)
  }

  lemma FirstOpenIsUnique(b: BlockState, c: object, i: nat)
    requires c in b.clients && i <= |b.listed|
    requires forall j :: 0 <= j < i ==> !Suits(b, c, b.listed[j])
    requires i < |b.listed| ==> Suits(b, c, b.listed[i])
    ensures i == FirstOpen(b, c, 0)
  {
    var f := FirstOpen(b, c, 0);
    assert !(i < f) && !(f < i);
  }

  /** A requested default lobby with room, or else the first one that suits. */
  ghost function AnyLobby(b: BlockState, c: object, req: object?): (l: object?)
    requires c in b.clients && (req != null ==> req in b.listed)
    ensures l != null ==> l in b.listed && (l in b.lobbies ==> Open(b.lobbies[l]))
  {
    if req != null && req in b.lobbies && Open(b.lobbies[req]) then req
    else
      var i := FirstOpen(b, c, 0);
      if i == |b.listed| then null else b.listed[i]
  }

  ghost function AddToAny(b: BlockState, c: object, req: object?, now: int): Outcome
    requires Core(b) && c in b.clients && (req != null ==> req in b.listed)
  {
    var l := AnyLobby(b, c, req);
    if l == null then Outcome(b, 1)
    else
      assert l in b.lobbies && Sound(b.lobbies[l]);
      Outcome(Join(b, c, l, now, false), 0)
  }

  lemma AddToAnyKeepsInv(b: BlockState, c: object, req: object?, now: int)
    requires Core(b) && c in b.clients && b.clients[c].lobby == null && (req != null ==> req in b.listed)
    requires InhabitedBut(b, {})
    ensures Inv(AddToAny(b, c, req, now).block)
  {
    var l := AnyLobby(b, c, req);
    if l != null {
      assert l in b.lobbies && Sound(b.lobbies[l]);
      JoinKeepsCore(b, c, l, now, false);
      JoinKeepsInhabited(b, c, l, now, false, {});
    }
  }

  lemma JoinKeepsInhabited(b: BlockState, c: object, l: object, now: int, byOverride: bool, xs: set<object>)
    requires Core(b) && c in b.clients && l in b.lobbies && b.lobbies[l].count < b.lobbies[l].terms.maxClients
    requires InhabitedBut(b, xs)
    ensures Shape(b.lobbies[l]) && Subscribed(b.lobbies[l])
    ensures InhabitedBut(Join(b, c, l, now, byOverride), xs - {l})
  {
    assert Sound(b.lobbies[l]);
    EnterFrame(b.lobbies[l], c);
  }

  // ---------------------------------------------------------------- changing lobbies

  /** The first reason, in the order they are checked, for not letting a client in; 0 if there is none. */
  ghost function Refusal(l: LobbyState, me: ClientState, legit: bool): int {
    if VersionRefusal(l, me) != 0 then VersionRefusal(l, me) else OtherRefusal(l, me, legit)
  }

  ghost function VersionRefusal(l: LobbyState, me: ClientState): int {
    if l.terms.kind == Game && l.version == DCv1 && me.lateClass then -15
    else if l.flags.singlePlayer && l.count != 0 then -14
    else if l.flags.pcOnly && me.version != PC && !me.override then -13
    else if l.flags.v1Only && me.version != DCv1 && !me.override then -12
    else if l.flags.dcOnly && me.version != DCv1 && me.version != DCv2 && !me.override then -11
    else 0
  }

  ghost function OtherRefusal(l: LobbyState, me: ClientState, legit: bool): int {
    if l.flags.tempUnavail then -10
    else if l.flags.bursting then -3
    else if l.flags.questing && !l.quest.joinable then -7
    else if l.flags.questSel then -8
    else if l.minLevel > me.level + 1 && !me.override then -4
    else if l.maxLevel < me.level + 1 && !me.override then -5
    else if me.version == DCv1 && l.v2 then -6
    else if l.terms.kind == Game && l.terms.legitMode && !legit && !me.override then -9
    else 0
  }

  /** Entering a team starts a burst. */
  ghost function Arrive(b: BlockState, c: object, l: object): BlockState {
    if c !in b.clients || l !in b.lobbies || b.lobbies[l].terms.kind == DefaultLobby then b
    else b.(lobbies := b.lobbies[l := b.lobbies[l].(flags := b.lobbies[l].flags.(bursting := true))],
            clients := b.clients[c := b.clients[c].(bursting := true)])
  }

  lemma ArriveKeepsInv(b: BlockState, c: object, l: object, xs: set<object>)
    requires Core(b) && c in b.clients && l in b.lobbies && InhabitedBut(b, xs)
    ensures Core(Arrive(b, c, l)) && InhabitedBut(Arrive(b, c, l), xs) && Arrive(b, c, l).listed == b.listed
  {
    var s := b.lobbies[l];
    if s.terms.kind != DefaultLobby {
      var t, me := s.(flags := s.flags.(bursting := true)), b.clients[c].(bursting := true);
      BurstKeepsSound(s);
      PutFlagsKeepsInv(b, l, t, xs);
      PutClientKeepsCore(Put(b, l, t), c, me);
      assert Arrive(b, c, l) == PutClient(Put(b, l, t), c, me);
    }
  }

  lemma BurstKeepsSound(l: LobbyState)
    requires Sound(l)
    ensures Sound(l.(flags := l.flags.(bursting := true)))
  {
  }

  /** A change inside one lobby that admits nobody and restricts nobody. */
  lemma PutFlagsKeepsInv(b: BlockState, l: object, t: LobbyState, xs: set<object>)
    requires Core(b) && l in b.lobbies && SameMembers(b.lobbies[l], t) && SameRules(b.lobbies[l], t) && Sound(t)
    requires InhabitedBut(b, xs)
    ensures Core(Put(b, l, t)) && InhabitedBut(Put(b, l, t), xs)
  {
    assert Admission(b.lobbies[l], b.clients);
    SameRulesAdmission(b.lobbies[l], t, b.clients);
    PutKeepsCore(b, l, t);
    PutKeepsInhabited(b, l, t, xs);
  }

  lemma SameRulesAdmission(s: LobbyState, t: LobbyState, clients: map<object, ClientState>)
    requires Admission(s, clients) && SameRules(s, t) && t.slots == s.slots
    ensures Admission(t, clients)
  {
    forall i | 0 <= i < |t.slots| && t.slots[i] != null && t.slots[i] in clients
      ensures Admitted(t, t.slots[i], clients[t.slots[i] as object].version)
    {
      assert Admitted(s, s.slots[i], clients[s.slots[i] as object].version);
    }
  }

  /** What becomes of a client whose request gets `refusal` as its first reason for refusal. */
  ghost function Decide(b: BlockState, c: object, req: object, refusal: int, byOverride: bool, now: int): Outcome
    requires Core(b) && c in b.clients && req in b.listed
  {
    if b.clients[c].lobby == null then
      var any := AddToAny(b, c, req, now);
      Outcome(any.block, if any.rc != 0 then -11 else 0)
    else if refusal != 0 then Outcome(b, refusal)
    else if b.clients[c].lobby == req then Outcome(Arrive(b, c, req), 0)
    else if b.lobbies[req].count >= b.lobbies[req].terms.maxClients then Outcome(b, -1)
    else Outcome(Relocate(b, c, req, now, byOverride), 0)
  }

  /** A request to enter a lobby uses up the override, whatever comes of it. */
  ghost function ChangeLobby(b: BlockState, c: object, req: object, legit: bool, now: int): Outcome
    requires Core(b) && c in b.clients && req in b.listed
  {
    var me := b.clients[c];
    PutClientKeepsCore(b, c, me.(override := false));
    Decide(PutClient(b, c, me.(override := false)), c, req, Refusal(b.lobbies[req], me, legit), me.override, now)
  }

  lemma ChangeLobbyUnfolds(b: BlockState, c: object, req: object, legit: bool, now: int)
    requires Core(b) && c in b.clients && req in b.listed
    ensures var me := b.clients[c]; var b1 := PutClient(b, c, me.(override := false));
            && Core(b1) && c in b1.clients && req in b1.listed && req in b.lobbies
            && ChangeLobby(b, c, req, legit, now) ==
              Decide(b1, c, req, Refusal(b.lobbies[req], me, legit), me.override, now)
  {
    PutClientKeepsCore(b, c, b.clients[c].(override := false));
  }

  /** The move itself, the burst it starts, and the end of a team it leaves empty. */
  ghost function Relocate(b: BlockState, c: object, req: object, now: int, byOverride: bool): BlockState
    requires Core(b) && c in b.clients && b.clients[c].lobby != null && req in b.lobbies && req != b.clients[c].lobby
    requires b.lobbies[req].count < b.lobbies[req].terms.maxClients
  {
    DestroyIfEmpty(Arrive(Move(b, c, req, now, byOverride), c, req), b.clients[c].lobby)
  }

  /** Sit down in the new lobby first, then get up in the old one. */
  ghost function Move(b: BlockState, c: object, req: object, now: int, byOverride: bool): BlockState
    requires Core(b) && c in b.clients && b.clients[c].lobby != null && req in b.lobbies && req != b.clients[c].lobby
    requires b.lobbies[req].count < b.lobbies[req].terms.maxClients
  {
    Located(b, c);
    assert Sound(b.lobbies[req]);
    Part(Join(b, c, req, now, byOverride), c, b.clients[c].slot, b.clients[c].lobby, now)
  }

  /** The election of a departing leader does not look at the seat being vacated. */
  lemma LeaveIgnoresOwnSeat(l: LobbyState, slot: nat, seats: seq<Seat>, others: seq<Seat>, now: int)
    requires Subscribed(l) && slot < LOBBY_MAX_CLIENTS
    requires l.terms.kind != DefaultLobby ==> slot < LOBBY_MAX_IN_TEAM
    requires |seats| == |others| && forall i :: 0 <= i < |seats| && i != slot ==> seats[i] == others[i]
    ensures Leave(l, slot, seats, now) == Leave(l, slot, others, now)
  {
    if slot == l.leader {
      SameElection(seats, others, slot, now, true);
      SameElection(seats, others, slot, now, false);
    }
  }

  lemma SameElection(seats: seq<Seat>, others: seq<Seat>, leader: nat, now: int, preGamecubeOnly: bool)
    requires |seats| == |others| && forall i :: 0 <= i < |seats| && i != leader ==> seats[i] == others[i]
    ensures Election(seats, leader, now, preGamecubeOnly) == Election(others, leader, now, preGamecubeOnly)
  {
    var e := Election(seats, leader, now, preGamecubeOnly);
    forall i
      ensures Eligible(seats, leader, now, preGamecubeOnly, i) == Eligible(others, leader, now, preGamecubeOnly, i)
    {
    }
    ElectionIsUnique(others, leader, now, preGamecubeOnly, e);
  }

  /** Moving by joining first and leaving second has the effect of leaving first and joining second, although
      in between the client sits in two lobbies at once. */
  lemma MoveIsLeaveThenJoin(b: BlockState, c: object, req: object, now: int, byOverride: bool)
    requires Core(b) && c in b.clients && b.clients[c].lobby != null && req in b.lobbies && req != b.clients[c].lobby
    requires b.lobbies[req].count < b.lobbies[req].terms.maxClients
    ensures var l, slot := b.clients[c].lobby as object, b.clients[c].slot;
            && l in b.lobbies && Subscribed(b.lobbies[l]) && slot < LOBBY_MAX_CLIENTS
            && (b.lobbies[l].terms.kind != DefaultLobby ==> slot < LOBBY_MAX_IN_TEAM)
            && Shape(b.lobbies[req]) && Subscribed(b.lobbies[req])
            && Move(b, c, req, now, byOverride) == Join(Part(b, c, slot, l, now), c, req, now, byOverride)
  {
    Located(b, c);
    assert Sound(b.lobbies[req]);
    var l, slot := b.clients[c].lobby as object, b.clients[c].slot;
    var entered, taken := Entered(b.lobbies[req], c, byOverride), NextSlot(b.lobbies[req]);
    MoveUnfolds(b, c, req, now, byOverride);
    LeavingUnaffected(b, c, req, entered, taken, now);
    var left := Leave(b.lobbies[l], slot, SeatsOf(b.lobbies[l].slots, b.clients), now);
    SitThenRise(b, c, req, entered, taken, now, l, left);
    EnterThere(Rise(b, c, l, left), b, c, req, now, byOverride);
  }

  lemma EnterThere(p: BlockState, b: BlockState, c: object, req: object, now: int, byOverride: bool)
    requires c in p.clients && req in p.lobbies && req in b.lobbies && p.lobbies[req] == b.lobbies[req]
    requires Shape(b.lobbies[req]) && Subscribed(b.lobbies[req])
               && b.lobbies[req].count < b.lobbies[req].terms.maxClients
    ensures Join(p, c, req, now, byOverride) ==
            Sit(p, c, req, Entered(b.lobbies[req], c, byOverride), NextSlot(b.lobbies[req]), now)
  {
  }

  /** That a client already sits elsewhere makes no difference to its departure. */
  lemma LeavingUnaffected(b: BlockState, c: object, req: object, s: LobbyState, taken: nat, now: int)
    requires Core(b) && c in b.clients && b.clients[c].lobby != null
    ensures var l, slot := b.clients[c].lobby as object, b.clients[c].slot;
            && l in b.lobbies && Subscribed(b.lobbies[l]) && slot < LOBBY_MAX_CLIENTS
            && (b.lobbies[l].terms.kind != DefaultLobby ==> slot < LOBBY_MAX_IN_TEAM)
            && Leave(b.lobbies[l], slot, SeatsOf(b.lobbies[l].slots, Sit(b, c, req, s, taken, now).clients), now) ==
               Leave(b.lobbies[l], slot, SeatsOf(b.lobbies[l].slots, b.clients), now)
  {
    Located(b, c);
    var l, slot := b.clients[c].lobby as object, b.clients[c].slot;
    OnlySeat(b, c);
    SeatsAfterSit(b, c, req, s, taken, now, b.lobbies[l].slots, slot);
    var seats := SeatsOf(b.lobbies[l].slots, b.clients);
    var others := SeatsOf(b.lobbies[l].slots, Sit(b, c, req, s, taken, now).clients);
    LeaveIgnoresOwnSeat(b.lobbies[l], slot, seats, others, now);
  }

  lemma SeatsAfterSit(b: BlockState, c: object, req: object, s: LobbyState, taken: nat, now: int,
                      slots: seq<object?>, own: nat)
    requires c in b.clients && forall i :: 0 <= i < |slots| && i != own ==> slots[i] != c
    ensures forall i :: 0 <= i < |slots| && i != own ==>
              SeatsOf(slots, Sit(b, c, req, s, taken, now).clients)[i] == SeatsOf(slots, b.clients)[i]
  {
  }

  lemma SitThenRise(b: BlockState, c: object, req: object, s: LobbyState, taken: nat, now: int, l: object,
                    left: LobbyState)
    requires c in b.clients && b.clients[c].lobby == l && req != l
    ensures Rise(Sit(b, c, req, s, taken, now), c, l, left) == Sit(Rise(b, c, l, left), c, req, s, taken, now)
  {
    assert b.lobbies[req := s][l := left] == b.lobbies[l := left][req := s];
  }

  /** A move spelled out: joining does not change the lobby that is about to be left. */
  lemma MoveUnfolds(b: BlockState, c: object, req: object, now: int, byOverride: bool)
    requires Core(b) && c in b.clients && b.clients[c].lobby != null && req in b.lobbies && req != b.clients[c].lobby
    requires b.lobbies[req].count < b.lobbies[req].terms.maxClients
    ensures var l, slot := b.clients[c].lobby as object, b.clients[c].slot;
            && Shape(b.lobbies[req]) && Subscribed(b.lobbies[req])
            && l in b.lobbies && Subscribed(b.lobbies[l]) && slot < LOBBY_MAX_CLIENTS
            && (b.lobbies[l].terms.kind != DefaultLobby ==> slot < LOBBY_MAX_IN_TEAM)
            && var j := Join(b, c, req, now, byOverride);
               Move(b, c, req, now, byOverride) ==
               Rise(j, c, l, Leave(b.lobbies[l], slot, SeatsOf(b.lobbies[l].slots, j.clients), now))
  {
    Located(b, c);
    assert Sound(b.lobbies[req]);
  }

  /** `m` is `b` after `c` has moved from slot `slot` of lobby `l`, which is `was`, to `req`. */
  ghost predicate IsMove(b: BlockState, m: BlockState, c: object, l: object, was: LobbyState, slot: nat, req: object,
                         now: int, byOverride: bool)
    requires c in b.clients && req in b.lobbies && Subscribed(was) && slot < LOBBY_MAX_CLIENTS
    requires was.terms.kind != DefaultLobby ==> slot < LOBBY_MAX_IN_TEAM
    requires Shape(b.lobbies[req]) && Subscribed(b.lobbies[req])
               && b.lobbies[req].count < b.lobbies[req].terms.maxClients
  {
    var j := Join(b, c, req, now, byOverride);
    m == Rise(j, c, l, Leave(was, slot, SeatsOf(was.slots, j.clients), now))
  }

  /** A move, and what follows it, with its outcome named. */
  lemma MoveNamed(b: BlockState, c: object, req: object, now: int, byOverride: bool) returns (m: BlockState)
    requires Core(b) && c in b.clients && b.clients[c].lobby != null && req in b.lobbies && req != b.clients[c].lobby
    requires b.lobbies[req].count < b.lobbies[req].terms.maxClients
    ensures var l, slot := b.clients[c].lobby as object, b.clients[c].slot;
            && Shape(b.lobbies[req]) && Subscribed(b.lobbies[req])
            && l in b.lobbies && Subscribed(b.lobbies[l]) && slot < LOBBY_MAX_CLIENTS
            && (b.lobbies[l].terms.kind != DefaultLobby ==> slot < LOBBY_MAX_IN_TEAM)
            && IsMove(b, m, c, l, b.lobbies[l], slot, req, now, byOverride)
            && Relocate(b, c, req, now, byOverride) == DestroyIfEmpty(Arrive(m, c, req), l)
  {
    MoveUnfolds(b, c, req, now, byOverride);
    m := Move(b, c, req, now, byOverride);
  }

  lemma OnlySeat(b: BlockState, c: object)
    requires Seating(b) && c in b.clients && b.clients[c].lobby != null
    ensures var l, slot := b.clients[c].lobby as object, b.clients[c].slot;
            forall i :: 0 <= i < |b.lobbies[l].slots| && i != slot ==> b.lobbies[l].slots[i] != c
  {
  }

  lemma PartKeepsInhabited(b: BlockState, c: object, now: int, xs: set<object>)
    requires Core(b) && c in b.clients && b.clients[c].lobby != null && InhabitedBut(b, xs)
    ensures var l, slot := b.clients[c].lobby as object, b.clients[c].slot;
            && l in b.lobbies && Subscribed(b.lobbies[l]) && slot < LOBBY_MAX_CLIENTS
            && (b.lobbies[l].terms.kind != DefaultLobby ==> slot < LOBBY_MAX_IN_TEAM)
            && InhabitedBut(Part(b, c, slot, l, now), xs + {l})
  {
    Located(b, c);
  }

  lemma DestroyIfEmptyKeepsInv(b: BlockState, l: object)
    requires Core(b) && l in b.listed && InhabitedBut(b, {l})
    ensures l in b.lobbies && Inv(DestroyIfEmpty(b, l))
  {
    if b.lobbies[l].terms.kind != DefaultLobby && b.lobbies[l].count == 0 {
      DestroyKeepsCore(b, l);
      DestroyKeepsInhabited(b, l, {l});
      assert {l} - {l} == {};
    } else {
      assert Sound(b.lobbies[l]);
    }
  }

  /** The steps of a move, each keeping the invariant; only the lobby left behind may be empty in between. */
  lemma MoveKeepsCore(b: BlockState, c: object, req: object, now: int, byOverride: bool)
    requires Core(b) && c in b.clients && b.clients[c].lobby != null && req in b.listed && req != b.clients[c].lobby
    requires InhabitedBut(b, {req})
    requires b.lobbies[req].count < b.lobbies[req].terms.maxClients
    requires b.lobbies[req].flags.singlePlayer ==> b.lobbies[req].count == 0
    requires byOverride || MayEnter(b.lobbies[req], b.clients[c].version)
    ensures var r := Move(b, c, req, now, byOverride);
            && Core(r) && InhabitedBut(r, {b.clients[c].lobby as object}) && r.listed == b.listed
            && c in r.clients && req in r.lobbies && b.clients[c].lobby in r.lobbies
  {
    var l, slot := b.clients[c].lobby as object, b.clients[c].slot;
    MoveIsLeaveThenJoin(b, c, req, now, byOverride);
    PartKeepsCore(b, c, now);
    PartKeepsInhabited(b, c, now, {req});
    var p := Part(b, c, slot, l, now);
    PartKeepsOthers(b, c, now, req);
    ArrivalKeepsCore(p, c, req, now, byOverride, l);
  }

  lemma PartKeepsOthers(b: BlockState, c: object, now: int, req: object)
    requires Core(b) && c in b.clients && b.clients[c].lobby != null && req in b.listed && req != b.clients[c].lobby
    ensures var l, slot := b.clients[c].lobby as object, b.clients[c].slot;
            && l in b.lobbies && Subscribed(b.lobbies[l]) && slot < LOBBY_MAX_CLIENTS
            && (b.lobbies[l].terms.kind != DefaultLobby ==> slot < LOBBY_MAX_IN_TEAM)
            && var p := Part(b, c, slot, l, now);
               p.listed == b.listed && req in p.lobbies && p.lobbies[req] == b.lobbies[req] && l in p.lobbies &&
               c in p.clients && p.clients[c] == b.clients[c].(lobby := null, slot := 0)
  {
    Located(b, c);
  }

  lemma ArrivalKeepsCore(p: BlockState, c: object, req: object, now: int, byOverride: bool, l: object)
    requires Core(p) && c in p.clients && p.clients[c].lobby == null && req in p.listed && l in p.lobbies
    requires InhabitedBut(p, {req} + {l})
    requires p.lobbies[req].count < p.lobbies[req].terms.maxClients
    requires p.lobbies[req].flags.singlePlayer ==> p.lobbies[req].count == 0
    requires byOverride || MayEnter(p.lobbies[req], p.clients[c].version)
    ensures Shape(p.lobbies[req]) && Subscribed(p.lobbies[req])
    ensures var r := Join(p, c, req, now, byOverride);
            && Core(r) && InhabitedBut(r, {l}) && r.listed == p.listed
            && c in r.clients && req in r.lobbies && l in r.lobbies
  {
    JoinKeepsCore(p, c, req, now, byOverride);
    JoinKeepsInhabited(p, c, req, now, byOverride, {req} + {l});
    assert {req} + {l} - {req} <= {l};
  }

  lemma RelocateKeepsInv(b: BlockState, c: object, req: object, now: int, byOverride: bool)
    requires Core(b) && c in b.clients && b.clients[c].lobby != null && req in b.listed && req != b.clients[c].lobby
    requires InhabitedBut(b, {req})
    requires b.lobbies[req].count < b.lobbies[req].terms.maxClients
    requires b.lobbies[req].flags.singlePlayer ==> b.lobbies[req].count == 0
    requires byOverride || MayEnter(b.lobbies[req], b.clients[c].version)
    ensures Inv(Relocate(b, c, req, now, byOverride))
  {
    MoveKeepsCore(b, c, req, now, byOverride);
    var b1 := Move(b, c, req, now, byOverride);
    ArriveKeepsInv(b1, c, req, {b.clients[c].lobby as object});
    DestroyIfEmptyKeepsInv(Arrive(b1, c, req), b.clients[c].lobby);
  }

  /** Whom a lobby lets in. The override takes the place of the team's policy, of the level limits and of the
      legit check, but of nothing else. */
  ghost predicate Welcome(l: LobbyState, me: ClientState, legit: bool) {
    && (me.override || MayEnter(l, me.version))
    && (me.override || l.minLevel <= me.level + 1 <= l.maxLevel)
    && (me.override || legit || l.terms.kind != Game || !l.terms.legitMode)
    && (l.flags.singlePlayer ==> l.count == 0)
    && !l.flags.tempUnavail && !l.flags.bursting && !l.flags.questSel && (l.flags.questing ==> l.quest.joinable)
    && !(me.version == DCv1 && l.v2) && !(me.lateClass && l.terms.kind == Game && l.version == DCv1)
  }

  /** There is no reason to refuse a client exactly if it is welcome. */
  lemma RefusalIsExact(l: LobbyState, me: ClientState, legit: bool)
    ensures Refusal(l, me, legit) == 0 <==> Welcome(l, me, legit)
    ensures -15 <= Refusal(l, me, legit) <= 0
  {
  }

  /** A client that is in a lobby gets where it wants exactly if it is welcome there and there is room, or it is
      there already. */
  lemma AdmittedExactly(b: BlockState, c: object, req: object, legit: bool, now: int)
    requires Core(b) && c in b.clients && req in b.listed && b.clients[c].lobby != null
    ensures var o, l := ChangeLobby(b, c, req, legit, now), b.lobbies[req];
            && (o.rc == 0 <==>
                  Welcome(l, b.clients[c], legit) && (b.clients[c].lobby == req || l.count < l.terms.maxClients))
            && c in o.block.clients && o.block.clients[c].lobby == (if o.rc == 0 then req else b.clients[c].lobby)
  {
    var me, l := b.clients[c], b.lobbies[req];
    var b1 := PutClient(b, c, me.(override := false));
    ChangeLobbyUnfolds(b, c, req, legit, now);
    RefusalIsExact(l, me, legit);
    if Welcome(l, me, legit) && me.lobby != req && l.count < l.terms.maxClients {
      RelocateMovesClient(b1, c, req, now, me.override);
    }
  }

  /** The codes a request can end with. */
  lemma ResultInRange(b: BlockState, c: object, req: object, legit: bool, now: int)
    requires Core(b) && c in b.clients && req in b.listed
    ensures -15 <= ChangeLobby(b, c, req, legit, now).rc <= 0
  {
    ChangeLobbyUnfolds(b, c, req, legit, now);
    RefusalIsExact(b.lobbies[req], b.clients[c], legit);
  }

  lemma DecideKeepsInv(b: BlockState, c: object, req: object, refusal: int, byOverride: bool, now: int)
    requires Inv(b) && c in b.clients && req in b.listed
    requires refusal == 0 ==> (byOverride || MayEnter(b.lobbies[req], b.clients[c].version))
                              && (b.lobbies[req].flags.singlePlayer ==> b.lobbies[req].count == 0)
    ensures Inv(Decide(b, c, req, refusal, byOverride, now).block)
  {
    if b.clients[c].lobby == null {
      AddToAnyKeepsInv(b, c, req, now);
    } else if refusal == 0 {
      if b.clients[c].lobby == req {
        ArriveKeepsInv(b, c, req, {});
      } else if b.lobbies[req].count < b.lobbies[req].terms.maxClients {
        RelocateKeepsInv(b, c, req, now, byOverride);
      }
    }
  }

  /** A request to change lobbies keeps the invariant, whatever its outcome. */
  lemma ChangeLobbyKeepsInv(b: BlockState, c: object, req: object, legit: bool, now: int)
    requires Inv(b) && c in b.clients && req in b.listed
    ensures Inv(ChangeLobby(b, c, req, legit, now).block)
  {
    var me := b.clients[c];
    PutClientKeepsInv(b, c, me.(override := false));
    RefusalIsExact(b.lobbies[req], me, legit);
    var b1 := PutClient(b, c, me.(override := false));
    DecideKeepsInv(b1, c, req, Refusal(b.lobbies[req], me, legit), me.override, now);
  }

  lemma PutClientKeepsInv(b: BlockState, c: object, s: ClientState)
    requires Inv(b) && c in b.clients && SamePlace(b.clients[c], s)
    ensures Inv(PutClient(b, c, s))
  {
    PutClientKeepsCore(b, c, s);
  }

  /** A client that is in a lobby and is refused stays exactly where it was: only its override is used up. */
  lemma RefusalChangesNothing(b: BlockState, c: object, req: object, legit: bool, now: int)
    requires Inv(b) && c in b.clients && req in b.listed
    ensures var o := ChangeLobby(b, c, req, legit, now);
            o.rc < 0 ==> o.block == PutClient(b, c, b.clients[c].(override := false))
  {
  }

  /** A completed move: the client is in the new lobby, which has one member more; the old one has one less,
      or was a team and is gone. */
  lemma RelocateMovesClient(b: BlockState, c: object, req: object, now: int, byOverride: bool)
    requires Core(b) && c in b.clients && b.clients[c].lobby != null && req in b.lobbies && req != b.clients[c].lobby
    requires b.lobbies[req].count < b.lobbies[req].terms.maxClients
    ensures var r, l := Relocate(b, c, req, now, byOverride), b.clients[c].lobby as object;
            && c in r.clients && r.clients[c].lobby == req && r.clients[c].joinTime == now
            && req in r.lobbies && r.lobbies[req].count == b.lobbies[req].count + 1
            && l in b.lobbies
            && (l in r.lobbies ==> r.lobbies[l].count == b.lobbies[l].count - 1)
            && (l !in r.lobbies <==> b.lobbies[l].terms.kind != DefaultLobby && b.lobbies[l].count == 1)
  {
    MoveIsLeaveThenJoin(b, c, req, now, byOverride);
    Located(b, c);
    var l, slot := b.clients[c].lobby as object, b.clients[c].slot;
    var left := Leave(b.lobbies[l], slot, SeatsOf(b.lobbies[l].slots, b.clients), now);
    LeaveFrame(b.lobbies[l], slot, SeatsOf(b.lobbies[l].slots, b.clients), now);
    EnterFrame(b.lobbies[req], c);
    MovedClient(Rise(b, c, l, left), c, req, Entered(b.lobbies[req], c, byOverride), NextSlot(b.lobbies[req]), now, l);
  }

  lemma MovedClient(p: BlockState, c: object, req: object, s: LobbyState, taken: nat, now: int, l: object)
    requires c in p.clients && l in p.lobbies && req in p.lobbies && req != l
    ensures var r := DestroyIfEmpty(Arrive(Sit(p, c, req, s, taken, now), c, req), l);
            && c in r.clients && r.clients[c].lobby == req && r.clients[c].joinTime == now
            && req in r.lobbies && r.lobbies[req].count == s.count
            && (if p.lobbies[l].terms.kind != DefaultLobby && p.lobbies[l].count == 0 then l !in r.lobbies
                else l in r.lobbies && r.lobbies[l] == p.lobbies[l])
  {
  }
}
