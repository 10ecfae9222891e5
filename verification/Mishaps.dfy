/**
  Runs that start with the opening of a block and end badly: each theorem about runs that holds only under a condition
  is met here by a run that breaks it. Everybody in them plays version 1. Who sends packets does not play the trial
  edition, whose packets are never held back.
 */
module Mishaps {
  import opened Attendance
  import opened BlockRules
  import opened Commands
  import opened Departures
  import opened Elections
  import opened Leadership
  import opened LobbyRules
  import opened Moves
  import opened Runs
  import opened TeamIds
  import opened Teams
  import opened Waiting

  /** A run together with the state it has reached. */
  ghost predicate Reaches(d: object, states: seq<BlockState>, requests: seq<Request>, b: BlockState) {
    IsRun(states, requests) && states[0] == Opened([d]) && states[|requests|] == b
  }

  lemma RunGrows(states: seq<BlockState>, requests: seq<Request>, r: Request, after: BlockState)
    requires IsRun(states, requests) && Next(states[|requests|], r, after)
    ensures IsRun(states + [after], requests + [r])
  {
    var more, asked := states + [after], requests + [r];
    forall i | 0 <= i < |asked| ensures Next(more[i], asked[i], more[i + 1]) {
      var j := i + 1;
      if i < |requests| {
        assert more[i] == states[i] && more[j] == states[j] && asked[i] == requests[i];
      } else {
        assert more[i] == states[i] && more[j] == after && asked[i] == r;
      }
    }
  }

  /** One more request. */
  lemma Asked(d: object, states: seq<BlockState>, requests: seq<Request>, b: BlockState, r: Request, after: BlockState)
      returns (more: seq<BlockState>, asked: seq<Request>)
    requires Reaches(d, states, requests, b) && Next(b, r, after)
    ensures Reaches(d, more, asked, after) && more == states + [after] && asked == requests + [r]
  {
    RunGrows(states, requests, r, after);
    more, asked := states + [after], requests + [r];
  }

  // ---------------------------------------------------------------- lobbies without restrictions

  /** Nothing keeps a version 1 client of the lowest level out, and nothing waits. */
  ghost predicate Plain(l: LobbyState) {
    && l.version == DCv1 && !l.v2 && !l.terms.legitMode && l.minLevel <= 1 <= l.maxLevel && l.queues.waiting == []
    && !l.flags.questing && !l.flags.questSel && !l.flags.tempUnavail && !l.flags.dcOnly && !l.flags.pcOnly
    && !l.flags.v1Only && !l.flags.gcAllowed && !l.flags.singlePlayer
  }

  /** A client with nothing remarkable about it. */
  ghost predicate Guest(me: ClientState, nte: bool) {
    && me.version == DCv1 && me.nte == nte && !me.gcProtect && me.level == 0 && !me.lateClass
    && !me.override && me.created == null && !me.waitQping
  }

  lemma PlainLetsIn(l: LobbyState, me: ClientState, nte: bool, legit: bool)
    requires Plain(l) && !l.flags.bursting && l.count < l.terms.maxClients && Guest(me, nte)
    ensures LetIn(l, me, legit)
  {
  }

  lemma EnteredIsPlain(l: LobbyState, c: object, byOverride: bool)
    requires Plain(l) && Shape(l) && Subscribed(l) && l.count < l.terms.maxClients
    ensures var r := Entered(l, c, byOverride);
            && Plain(r) && r.flags.bursting == l.flags.bursting && r.terms == l.terms && r.count == l.count + 1
            && r.slots == l.slots[NextSlot(l) := c] && r.leader == if l.count == 0 then NextSlot(l) else l.leader
  {
  }

  lemma LeftIsPlain(l: LobbyState, slot: nat, seats: seq<Seat>, now: int)
    requires Plain(l) && Subscribed(l) && slot < LOBBY_MAX_CLIENTS
    requires l.terms.kind != DefaultLobby ==> slot < LOBBY_MAX_IN_TEAM
    ensures var r := Leave(l, slot, seats, now);
            Plain(r) && r.flags.bursting == l.flags.bursting && r.terms == l.terms && r.count == l.count - 1
  {
  }

  // ---------------------------------------------------------------- two guests in the default lobby

  /** Both guests have come into the lobby in the same second; `p` leads. */
  ghost predicate Gathered(b: BlockState, d: object, p: object, q: object, nte: bool, now: int) {
    && Inv(b) && p != q && b.clients.Keys == {p, q} && b.listed == [d] && b.lobbies.Keys == {d}
    && b.nextId == FIRST_TEAM_ID
    && Guest(b.clients[p], false) && Guest(b.clients[q], nte)
    && SitsAt(b.clients[p], d, 0, now) && SitsAt(b.clients[q], d, 1, now)
    && Plain(b.lobbies[d]) && !b.lobbies[d].flags.bursting && b.lobbies[d].terms == NewDefaultLobby(1).terms
    && b.lobbies[d].count == 2 && b.lobbies[d].leader == 0
  }

  ghost predicate SitsAt(me: ClientState, l: object, slot: nat, now: int) {
    me.lobby == l && me.slot == slot && me.joinTime == now && !me.bursting
  }

  lemma OneOpened(d: object)
    ensures Inv(Opened([d])) && Opened([d]).clients == map[] && Opened([d]).nextId == FIRST_TEAM_ID
    ensures Opened([d]).listed == [d] && Opened([d]).lobbies == map[d := NewDefaultLobby(1)]
  {
    var none: seq<object> := [];
    assert [d][..0] == none;
    assert Opened(none) == BlockState(map[], map[], [], 0, FIRST_TEAM_ID);
    OpenedInv([d]);
    assert Opened([d]) == Insert(Opened(none), d, NewDefaultLobby(1));
  }

  /** Entering a default lobby with room. */
  lemma EntersDefault(b: BlockState, c: object, d: object, now: int) returns (after: BlockState)
    requires Inv(b) && c in b.clients && b.clients[c].lobby == null && d in b.listed && d in b.lobbies
    requires b.lobbies[d].terms.kind == DefaultLobby && b.lobbies[d].count < b.lobbies[d].terms.maxClients
    ensures Shape(b.lobbies[d]) && Subscribed(b.lobbies[d])
    ensures after == Sit(b, c, d, Entered(b.lobbies[d], c, false), NextSlot(b.lobbies[d]), now)
    ensures Inv(after) && Next(b, Travels(c, EnterAny(d, now)), after)
  {
    assert Sound(b.lobbies[d]);
    after := AddToAny(b, c, d, now).block;
    AddToAnyKeepsInv(b, c, d, now);
    EnteringIsStep(b, c, d, now, after);
  }

  lemma EnteringIsStep(b: BlockState, c: object, d: object, now: int, after: BlockState)
    requires Core(b) && c in b.clients && b.clients[c].lobby == null && d in b.listed
    requires after == AddToAny(b, c, d, now).block
    ensures Next(b, Travels(c, EnterAny(d, now)), after)
  {
    var t := EnterAny(d, now);
    assert Step(b, Travels(c, t)) == StepTravel(b, c, t);
  }

  ghost function Hello(c: object, nte: bool): Request {
    Connects(c, DCv1, nte, false, 0, false)
  }

  /** Two guests have come to the block, and are nowhere yet. */
  ghost predicate Come(b: BlockState, d: object, p: object, q: object, nte: bool) {
    && Inv(b) && p != q && b.clients.Keys == {p, q} && b.listed == [d] && b.lobbies.Keys == {d}
    && b.nextId == FIRST_TEAM_ID && b.lobbies[d] == NewDefaultLobby(1)
    && Guest(b.clients[p], false) && Guest(b.clients[q], nte)
    && b.clients[p].lobby == null && b.clients[q].lobby == null && !b.clients[p].bursting && !b.clients[q].bursting
  }

  lemma Comes(b: BlockState, c: object, nte: bool) returns (after: BlockState)
    requires Inv(b) && c !in b.clients
    ensures after == Connect(b, c, DCv1, nte, false, 0, false) && Inv(after) && Next(b, Hello(c, nte), after)
  {
    after := Connect(b, c, DCv1, nte, false, 0, false);
    ConnectKeepsInv(b, c, DCv1, nte, false, 0, false);
  }

  lemma BothCome(d: object, p: object, q: object, nte: bool)
      returns (states: seq<BlockState>, requests: seq<Request>, b: BlockState)
    requires p != q
    ensures Reaches(d, states, requests, b) && Come(b, d, p, q, nte)
  {
    OneOpened(d);
    var b0 := Opened([d]);
    var b1 := Comes(b0, p, false);
    b := Comes(b1, q, nte);
    states, requests := Asked(d, [b0], [], b0, Hello(p, false), b1);
    states, requests := Asked(d, states, requests, b1, Hello(q, nte), b);
  }

  lemma FirstSits(l: LobbyState, p: object)
    requires l == NewDefaultLobby(1) && Sound(l)
    ensures Plain(l) && l.count == 0 < l.terms.maxClients && NextSlot(l) == 0
    ensures var r := Entered(l, p, false);
            && Plain(r) && r.leader == 0 && r.count == 1 && r.terms == l.terms && !r.flags.bursting
            && r.slots == l.slots[0 := p]
  {
    EnteredIsPlain(l, p, false);
  }

  lemma SecondSits(l: LobbyState, p: object, q: object)
    requires Sound(l) && Plain(l) && l.terms == NewDefaultLobby(1).terms && l.count == 1 && l.leader == 0
    requires l.slots == NewDefaultLobby(1).slots[0 := p] && !l.flags.bursting
    ensures NextSlot(l) == 1
    ensures var r := Entered(l, q, false);
            Plain(r) && r.leader == 0 && r.count == 2 && r.terms == l.terms && !r.flags.bursting
  {
    EnteredIsPlain(l, q, false);
  }

  /** One of them has entered the default lobby. */
  ghost predicate HalfGathered(b: BlockState, d: object, p: object, q: object, nte: bool, now: int) {
    && Inv(b) && p != q && b.clients.Keys == {p, q} && b.listed == [d] && b.lobbies.Keys == {d}
    && b.nextId == FIRST_TEAM_ID
    && Guest(b.clients[p], false) && Guest(b.clients[q], nte) && SitsAt(b.clients[p], d, 0, now)
    && b.clients[q].lobby == null && !b.clients[q].bursting
    && Plain(b.lobbies[d]) && !b.lobbies[d].flags.bursting && b.lobbies[d].terms == NewDefaultLobby(1).terms
    && b.lobbies[d].count == 1 && b.lobbies[d].leader == 0 && b.lobbies[d].slots == NewDefaultLobby(1).slots[0 := p]
  }

  lemma FirstSat(b: BlockState, d: object, p: object, q: object, nte: bool, now: int, s: LobbyState, after: BlockState)
    requires Come(b, d, p, q, nte) && after == Sit(b, p, d, s, 0, now) && Inv(after)
    requires Plain(s) && s.leader == 0 && s.count == 1 && s.terms == NewDefaultLobby(1).terms && !s.flags.bursting
    requires s.slots == NewDefaultLobby(1).slots[0 := p]
    ensures HalfGathered(after, d, p, q, nte, now)
  {
  }

  lemma FirstEnters(b: BlockState, d: object, p: object, q: object, nte: bool, now: int) returns (after: BlockState)
    requires Come(b, d, p, q, nte)
    ensures HalfGathered(after, d, p, q, nte, now) && Next(b, Travels(p, EnterAny(d, now)), after)
  {
    assert d in b.listed && Sound(b.lobbies[d]);
    FirstSits(b.lobbies[d], p);
    after := EntersDefault(b, p, d, now);
    FirstSat(b, d, p, q, nte, now, Entered(b.lobbies[d], p, false), after);
  }

  lemma SecondEnters(b: BlockState, d: object, p: object, q: object, nte: bool, now: int) returns (after: BlockState)
    requires HalfGathered(b, d, p, q, nte, now)
    ensures Gathered(after, d, p, q, nte, now) && Next(b, Travels(q, EnterAny(d, now)), after)
  {
    assert d in b.listed && Sound(b.lobbies[d]);
    SecondSits(b.lobbies[d], p, q);
    after := EntersDefault(b, q, d, now);
  }

  /** Two guests in the default lobby. */
  lemma BothGather(d: object, p: object, q: object, nte: bool, now: int)
      returns (states: seq<BlockState>, requests: seq<Request>, b: BlockState)
    requires p != q
    ensures Reaches(d, states, requests, b) && Gathered(b, d, p, q, nte, now)
  {
    var b0: BlockState;
    states, requests, b0 := BothCome(d, p, q, nte);
    var b1 := FirstEnters(b0, d, p, q, nte, now);
    b := SecondEnters(b1, d, p, q, nte, now);
    states, requests := Asked(d, states, requests, b0, Travels(p, EnterAny(d, now)), b1);
    states, requests := Asked(d, states, requests, b1, Travels(q, EnterAny(d, now)), b);
  }

  // ---------------------------------------------------------------- the leader leaves too soon

  lemma LeadsAlone(b: BlockState, d: object, p: object, q: object, nte: bool, now: int)
    requires Gathered(b, d, p, q, nte, now)
    ensures Abandons(b, p, now)
  {
    var seats := SeatsOf(b.lobbies[d].slots, b.clients);
    forall i | 0 <= i < |seats| && seats[i].Held? ensures seats[i].joinTime == now {
      assert b.clients[b.lobbies[d].slots[i] as object].joinTime == now;
    }
  }

  /** The leader that goes in the very second the others came leaves them without a leader. */
  lemma SameSecondDeparture(d: object, p: object, q: object, now: int, accepts: Packet -> bool)
      returns (states: seq<BlockState>, requests: seq<Request>)
    requires p != q
    ensures IsRun(states, requests) && states[0] == Opened([d]) && !AlwaysLed(states)
  {
    var b: BlockState;
    states, requests, b := BothGather(d, p, q, false, now);
    var k, go := |requests|, Travels(p, Go(now, accepts));
    LeadsAlone(b, d, p, q, false, now);
    states, requests := Asked(d, states, requests, b, go, Step(b, go));
    assert Beheads(states[k], requests[k]);
    RunsHaveLeadersExactly([d], states, requests);
  }

  // ---------------------------------------------------------------- one guest bursting into the team of the other

  /** `c` has left `l`, which has become `left`, and sat down bursting in `req`, which has become `s`. */
  ghost predicate HasMovedToTeam(r: BlockState, b: BlockState, c: object, l: object, left: LobbyState, req: object,
                                 s: LobbyState, taken: nat, now: int)
    requires c in b.clients
  {
    && r.listed == b.listed && r.clients.Keys == b.clients.Keys && l in r.lobbies && req in r.lobbies
    && (forall x <- b.clients | x != c :: r.clients[x] == b.clients[x])
    && r.lobbies[l] == left && r.lobbies[req] == s.(flags := s.flags.(bursting := true))
    && r.clients[c] == b.clients[c].(lobby := req, slot := taken, joinTime := now, bursting := true)
  }

  /** A move from a default lobby to a team, spelled out. */
  lemma MovesToTeam(b: BlockState, c: object, req: object, now: int, byOverride: bool)
    requires Core(b) && c in b.clients && b.clients[c].lobby != null && req in b.lobbies && req != b.clients[c].lobby
    requires b.lobbies[req].count < b.lobbies[req].terms.maxClients && b.lobbies[req].terms.kind != DefaultLobby
    requires b.clients[c].lobby in b.lobbies ==> b.lobbies[b.clients[c].lobby as object].terms.kind == DefaultLobby
    ensures var l, slot := b.clients[c].lobby as object, b.clients[c].slot;
            && l in b.lobbies && Subscribed(b.lobbies[l]) && slot < LOBBY_MAX_CLIENTS
            && Shape(b.lobbies[req]) && Subscribed(b.lobbies[req])
            && var left := Leave(b.lobbies[l], slot, SeatsOf(b.lobbies[l].slots, b.clients), now);
               var r, there := Relocate(b, c, req, now, byOverride), Entered(b.lobbies[req], c, byOverride);
               HasMovedToTeam(r, b, c, l, left, req, there, NextSlot(b.lobbies[req]), now)
  {
    MoveIsLeaveThenJoin(b, c, req, now, byOverride);
    Located(b, c);
    var l, slot := b.clients[c].lobby as object, b.clients[c].slot;
    var left := Leave(b.lobbies[l], slot, SeatsOf(b.lobbies[l].slots, b.clients), now);
    LeaveFrame(b.lobbies[l], slot, SeatsOf(b.lobbies[l].slots, b.clients), now);
    EnterFrame(b.lobbies[req], c);
    EnterThere(Rise(b, c, l, left), b, c, req, now, byOverride);
    MovedToTeam(b, c, req, Entered(b.lobbies[req], c, byOverride), NextSlot(b.lobbies[req]), now, l, left);
  }

  lemma MovedToTeam(b: BlockState, c: object, req: object, s: LobbyState, taken: nat, now: int, l: object,
                    left: LobbyState)
    requires c in b.clients && b.clients[c].lobby == l && l in b.lobbies && req in b.lobbies && req != l
    requires left.terms.kind == DefaultLobby && s.terms.kind != DefaultLobby
    ensures HasMovedToTeam(DestroyIfEmpty(Arrive(Sit(Rise(b, c, l, left), c, req, s, taken, now), c, req), l),
                           b, c, l, left, req, s, taken, now)
  {
    var sat := Sit(Rise(b, c, l, left), c, req, s, taken, now);
    assert sat.lobbies[l] == left && sat.lobbies[req] == s && sat.clients.Keys == b.clients.Keys;
    assert sat.clients[c] == b.clients[c].(lobby := req, slot := taken, joinTime := now);
  }

  /** `p` is in its team, `bursting` or not, and `q` still in the default lobby. */
  ghost predicate Founded(b: BlockState, d: object, p: object, q: object, nte: bool, team: object, bursting: bool) {
    && Inv(b) && p != q && d != team && b.clients.Keys == {p, q} && d in b.listed && team in b.listed
    && Guest(b.clients[p], false) && Guest(b.clients[q], nte)
    && b.clients[p].lobby == team && b.clients[p].bursting == bursting
    && b.clients[q].lobby == d && !b.clients[q].bursting
    && PlainWith(b, d, DefaultLobby, 1, false) && PlainWith(b, team, Game, 1, bursting)
  }

  ghost predicate PlainWith(b: BlockState, l: object, kind: Kind, count: int, bursting: bool) {
    && l in b.lobbies && Plain(b.lobbies[l]) && b.lobbies[l].terms.kind == kind && b.lobbies[l].count == count
    && b.lobbies[l].flags.bursting == bursting && b.lobbies[l].terms.maxClients == if kind == Game then 4 else 12
  }

  const GAME := GameRequest(0, false, false, false, false, false)

  lemma MovedGuest(b: BlockState, c: object, d: object, team: object, now: int)
    requires Core(b) && c in b.clients && b.clients[c].lobby == d && d != team
    requires d in b.lobbies && PlainWith(b, d, DefaultLobby, b.lobbies[d].count, false)
    requires team in b.lobbies && PlainWith(b, team, Game, b.lobbies[team].count, false) && b.lobbies[team].count < 4
    ensures var r, me := Relocate(b, c, team, now, false), b.clients[c];
            && r.listed == b.listed && r.clients.Keys == b.clients.Keys
            && (forall x <- b.clients | x != c :: r.clients[x] == b.clients[x])
            && r.clients[c] == me.(lobby := team, slot := r.clients[c].slot, joinTime := now, bursting := true)
            && PlainWith(r, d, DefaultLobby, b.lobbies[d].count - 1, false)
            && PlainWith(r, team, Game, b.lobbies[team].count + 1, true)
  {
    MovesToTeam(b, c, team, now, false);
    EnteredIsPlain(b.lobbies[team], c, false);
    LeftIsPlain(b.lobbies[d], b.clients[c].slot, SeatsOf(b.lobbies[d].slots, b.clients), now);
    var r := Relocate(b, c, team, now, false);
    assert r.clients[c].bursting && r.lobbies[team].flags.bursting;
  }

  /** A guest's new team. */
  lemma NewTeamIsPlain(b: BlockState, p: object, id: nat)
    requires p in b.clients && Guest(b.clients[p], false)
    ensures var s := NewGame(b, p, GAME, id);
            Plain(s) && s.terms == GameTerms(GAME, id) && s.count == 0 && !s.flags.bursting
  {
  }

  lemma NoOverrideToUse(b: BlockState, c: object)
    requires c in b.clients && !b.clients[c].override
    ensures PutClient(b, c, b.clients[c].(override := false)) == b
  {
    assert b.clients[c := b.clients[c]] == b.clients;
  }

  /** A guest that asks to join a plain team moves there. */
  lemma GuestJoins(b: BlockState, c: object, nte: bool, team: object, now: int)
    requires Core(b) && c in b.clients && Guest(b.clients[c], nte) && b.clients[c].lobby != null
    requires team in b.listed && team != b.clients[c].lobby && PlainWith(b, team, Game, b.lobbies[team].count, false)
    requires b.lobbies[team].count < 4
    ensures JoinGame(b, c, team, true, now) == Outcome(Relocate(b, c, team, now, false), 0)
  {
    NoOverrideToUse(b, c);
    ChangeLobbyUnfolds(b, c, team, true, now);
    PlainLetsIn(b.lobbies[team], b.clients[c], nte, true);
    RefusalIsExact(b.lobbies[team], b.clients[c], true);
  }

  lemma TeamCanBeMade(b: BlockState, d: object, p: object)
    requires Core(b) && b.listed == [d] && d in b.lobbies && b.lobbies[d].terms.lobbyId == 1
    requires b.nextId == FIRST_TEAM_ID
    ensures InRange(b.nextId) && HasFree(UsedIds(b))
  {
    assert UsedIds(b) == {1} by {
      assert b.lobbies[b.listed[0]].terms.lobbyId == 1;
    }
    FewTeamsLeaveFreeId(UsedIds(b));
  }

  /** The block just after `p`'s team has been listed, and before `p` joins it. */
  ghost predicate Listed(i: BlockState, d: object, p: object, q: object, nte: bool, team: object) {
    && Core(i) && p != q && d != team && i.clients.Keys == {p, q} && d in i.listed && team in i.listed
    && Guest(i.clients[p], false) && Guest(i.clients[q], nte)
    && i.clients[p].lobby == d && i.clients[q].lobby == d && !i.clients[q].bursting
    && PlainWith(i, d, DefaultLobby, 2, false) && PlainWith(i, team, Game, 0, false)
  }

  lemma IsListed(b: BlockState, b1: BlockState, d: object, p: object, q: object, nte: bool, team: object, now: int,
                 s: LobbyState)
    requires Gathered(b, d, p, q, nte, now) && d != team && b1 == b.(nextId := b1.nextId)
    requires Plain(s) && s.terms == GameTerms(GAME, s.terms.lobbyId) && s.count == 0 && !s.flags.bursting
    requires Core(Insert(b1, team, s))
    ensures Listed(Insert(b1, team, s), d, p, q, nte, team)
  {
    var i := Insert(b1, team, s);
    assert i.listed == [d, team] && i.listed[0] == d && i.listed[1] == team;
    assert i.lobbies[d] == b.lobbies[d] && i.lobbies[team] == s;
  }

  lemma AsksForTeam(b: BlockState, d: object, p: object, q: object, nte: bool, team: object, now: int,
                    after: BlockState)
    requires Gathered(b, d, p, q, nte, now) && d != team
    ensures team !in b.lobbies && GoodRequest(DCv1, GAME) && InRange(b.nextId) && HasFree(UsedIds(b))
    ensures after == CreateGame(b, p, team, GAME, true, now) ==>
              Next(b, Builds(p, Create(team, GAME, true, now)), after)
  {
    TeamCanBeMade(b, d, p);
  }

  lemma JoinsOwnTeam(i: BlockState, d: object, p: object, q: object, nte: bool, team: object, now: int)
      returns (after: BlockState)
    requires Listed(i, d, p, q, nte, team) && Inv(JoinOwn(i, p, team, true, now))
    ensures Founded(after, d, p, q, nte, team, true) && after == JoinOwn(i, p, team, true, now)
  {
    GuestJoins(i, p, false, team, now);
    MovedGuest(i, p, d, team, now);
    after := Relocate(i, p, team, now, false);
  }

  lemma MakesTeam(b: BlockState, d: object, p: object, q: object, nte: bool, team: object, now: int)
      returns (after: BlockState)
    requires Gathered(b, d, p, q, nte, now) && d != team
    ensures Founded(after, d, p, q, nte, team, true) && Next(b, Builds(p, Create(team, GAME, true, now)), after)
  {
    TeamCanBeMade(b, d, p);
    CreateGameUnfolds(b, p, team, GAME, true, now);
    CreateGameKeepsInv(b, p, team, GAME, true, now);
    var id := NextFree(UsedIds(b), b.nextId);
    NewTeamIsPlain(b, p, id);
    var b1, s := b.(nextId := After(id)), NewGame(b, p, GAME, id);
    IsListed(b, b1, d, p, q, nte, team, now, s);
    after := JoinsOwnTeam(Insert(b1, team, s), d, p, q, nte, team, now);
    AsksForTeam(b, d, p, q, nte, team, now, after);
  }

  lemma EndsBurst(b: BlockState, d: object, p: object, q: object, nte: bool, team: object, accepts: Packet -> bool)
      returns (after: BlockState)
    requires Founded(b, d, p, q, nte, team, true)
    ensures Founded(after, d, p, q, nte, team, false) && Next(b, Signals(p, BurstDone(accepts)), after)
  {
    DoneBurstKeepsInv(b, p, accepts);
    var done, me := EndBurst(b.lobbies[team], accepts), b.clients[p].(bursting := false);
    after := PutClient(Put(b, team, done), p, me);
    assert after == DoneBurst(b, p, accepts);
    BurstEnded(b, d, p, q, nte, team, done, me, after);
  }

  lemma BurstEnded(b: BlockState, d: object, p: object, q: object, nte: bool, team: object, done: LobbyState,
                   me: ClientState, r: BlockState)
    requires Founded(b, d, p, q, nte, team, true) && me == b.clients[p].(bursting := false)
    requires Plain(done) && done.terms == b.lobbies[team].terms && done.count == 1 && !done.flags.bursting
    requires r == PutClient(Put(b, team, done), p, me) && Inv(r)
    ensures Founded(r, d, p, q, nte, team, false)
  {
    assert r.lobbies[d] == b.lobbies[d] && r.clients[q] == b.clients[q];
  }

  /** `q` is bursting into `p`'s team, where `waiting` packets wait, and nobody else is on the block. */
  ghost predicate Joining(b: BlockState, d: object, p: object, q: object, nte: bool, team: object,
                          waiting: seq<Packet>) {
    && Inv(b) && p != q && d != team && b.clients.Keys == {p, q} && d in b.listed
    && Guest(b.clients[p], false) && Guest(b.clients[q], nte)
    && b.clients[p].lobby == team && !b.clients[p].bursting && b.clients[q].lobby == team && b.clients[q].bursting
    && PlainWith(b, d, DefaultLobby, 0, false)
    && team in b.lobbies && BurstingTeam(b.lobbies[team], waiting)
  }

  ghost predicate BurstingTeam(l: LobbyState, waiting: seq<Packet>) {
    && l.flags.bursting && !l.flags.questing && l.terms.kind == Game && l.count == 2 && l.queues.waiting == waiting
  }

  lemma JoinsPlain(b: BlockState, c: object, nte: bool, team: object, now: int) returns (after: BlockState)
    requires Inv(b) && c in b.clients && Guest(b.clients[c], nte) && b.clients[c].lobby != null
    requires team in b.listed && team != b.clients[c].lobby && PlainWith(b, team, Game, b.lobbies[team].count, false)
    requires b.lobbies[team].count < 4
    ensures after == Relocate(b, c, team, now, false) && Inv(after)
    ensures Next(b, Travels(c, JoinTeam(team, true, now)), after)
  {
    GuestJoins(b, c, nte, team, now);
    after := JoinGame(b, c, team, true, now).block;
    JoinIsStep(b, c, team, now, after);
    JoinedInv(b, c, team, now, after);
  }

  lemma JoinIsStep(b: BlockState, c: object, team: object, now: int, after: BlockState)
    requires Core(b) && c in b.clients && team in b.listed && after == JoinGame(b, c, team, true, now).block
    ensures Next(b, Travels(c, JoinTeam(team, true, now)), after)
  {
    var t := JoinTeam(team, true, now);
    assert StepTravel(b, c, t) == after;
    assert Step(b, Travels(c, t)) == StepTravel(b, c, t);
  }

  lemma JoinedInv(b: BlockState, c: object, team: object, now: int, after: BlockState)
    requires Inv(b) && c in b.clients && team in b.listed && after == JoinGame(b, c, team, true, now).block
    ensures Inv(after)
  {
    ChangeLobbyKeepsInv(b, c, team, true, now);
  }

  lemma JoinsOther(b: BlockState, d: object, p: object, q: object, nte: bool, team: object, now: int)
      returns (after: BlockState)
    requires Founded(b, d, p, q, nte, team, false)
    ensures Joining(after, d, p, q, nte, team, []) && Next(b, Travels(q, JoinTeam(team, true, now)), after)
  {
    MovedGuest(b, q, d, team, now);
    after := JoinsPlain(b, q, nte, team, now);
    HasJoined(b, d, p, q, nte, team, now, after);
  }

  lemma HasJoined(b: BlockState, d: object, p: object, q: object, nte: bool, team: object, now: int, r: BlockState)
    requires Founded(b, d, p, q, nte, team, false) && Inv(r) && r.listed == b.listed
    requires r.clients.Keys == b.clients.Keys && r.clients[p] == b.clients[p]
    requires r.clients[q] == b.clients[q].(lobby := team, slot := r.clients[q].slot, joinTime := now, bursting := true)
    requires PlainWith(r, d, DefaultLobby, 0, false) && PlainWith(r, team, Game, 2, true)
    ensures Joining(r, d, p, q, nte, team, [])
  {
  }

  /** A guest bursting into the team of another. */
  lemma OneJoins(d: object, p: object, q: object, nte: bool, team: object, now: int, accepts: Packet -> bool)
      returns (states: seq<BlockState>, requests: seq<Request>, b: BlockState)
    requires p != q && d != team
    ensures Reaches(d, states, requests, b) && Joining(b, d, p, q, nte, team, [])
  {
    var b0: BlockState;
    states, requests, b0 := BothGather(d, p, q, nte, now);
    var b1 := MakesTeam(b0, d, p, q, nte, team, now);
    var b2 := EndsBurst(b1, d, p, q, nte, team, accepts);
    b := JoinsOther(b2, d, p, q, nte, team, now);
    states, requests := Asked(d, states, requests, b0, Builds(p, Create(team, GAME, true, now)), b1);
    states, requests := Asked(d, states, requests, b1, Signals(p, BurstDone(accepts)), b2);
    states, requests := Asked(d, states, requests, b2, Travels(q, JoinTeam(team, true, now)), b);
  }

  // ---------------------------------------------------------------- packets and bursts that go wrong

  ghost function Speech(p: object, body: int): Packet {
    Packet(p, GameCommand0, body)
  }

  ghost function Says(p: object, body: int): Request {
    Signals(p, SendPacket(GameCommand0, body, false))
  }

  /** A packet `p` sends meanwhile waits behind the others. */
  lemma Speaks(b: BlockState, d: object, p: object, q: object, nte: bool, team: object, waiting: seq<Packet>, body: int)
      returns (after: BlockState)
    requires Joining(b, d, p, q, nte, team, waiting)
    ensures Joining(after, d, p, q, nte, team, waiting + [Speech(p, body)]) && Next(b, Says(p, body), after)
  {
    HoldBackKeepsInv(b, p, GameCommand0, body, false);
    var s := Enqueue(b.lobbies[team], Speech(p, body), false);
    after := Put(b, team, s);
    assert after == HoldBack(b, p, GameCommand0, body, false);
  }

  lemma NewcomerStrands(b: BlockState, d: object, p: object, q: object, team: object)
    requires Joining(b, d, p, q, true, team, [] + [Speech(p, 0)])
    ensures Strands(b, Signals(q, NteLoadDone))
  {
    assert b.lobbies[team].queues.waiting[0] == Speech(p, 0);
  }

  /** A trial edition client joins a team, another member sends something, and the newcomer has loaded: what was sent
      waits in a team that no longer bursts. */
  lemma TrialEditionStrands(d: object, p: object, q: object, team: object, now: int, accepts: Packet -> bool)
      returns (states: seq<BlockState>, requests: seq<Request>)
    requires p != q && d != team
    ensures IsRun(states, requests) && states[0] == Opened([d])
    ensures !forall i :: 0 <= i < |states| ==> WaitingIsBursting(states[i])
  {
    var b: BlockState;
    states, requests, b := OneJoins(d, p, q, true, team, now, accepts);
    var b1 := Speaks(b, d, p, q, true, team, [], 0);
    states, requests := Asked(d, states, requests, b, Says(p, 0), b1);
    var k, loaded := |requests|, Signals(q, NteLoadDone);
    states, requests := Asked(d, states, requests, b1, loaded, Step(b1, loaded));
    assert states[k] == b1 && requests[k] == loaded;
    NewcomerStrands(b1, d, p, q, team);
    PacketsWaitForBursts([d], states, requests);
  }

  lemma FirstIsRefused(b: BlockState, d: object, p: object, q: object, team: object, verdict: Packet -> bool)
    requires Joining(b, d, p, q, false, team, [] + [Speech(p, 0)] + [Speech(p, 1)]) && !verdict(Speech(p, 0))
    ensures Loses(b, Signals(q, BurstDone(verdict)))
  {
    var waiting := b.lobbies[team].queues.waiting;
    assert waiting[0] == Speech(p, 0) && |waiting| == 2;
    assert Refuses(waiting, verdict);
  }

  /** Two packets wait when the burst ends, and the handler of the first refuses it: the second is never handled. */
  lemma RefusedPacketLoses(d: object, p: object, q: object, team: object, now: int, accepts: Packet -> bool,
                           verdict: Packet -> bool)
      returns (states: seq<BlockState>, requests: seq<Request>)
    requires p != q && d != team && !verdict(Speech(p, 0))
    ensures IsRun(states, requests) && states[0] == Opened([d])
    ensures !forall i :: 0 <= i < |states| ==> AllHandled(states[i])
  {
    var b: BlockState;
    states, requests, b := OneJoins(d, p, q, false, team, now, accepts);
    var b1 := Speaks(b, d, p, q, false, team, [], 0);
    var b2 := Speaks(b1, d, p, q, false, team, [] + [Speech(p, 0)], 1);
    states, requests := Asked(d, states, requests, b, Says(p, 0), b1);
    states, requests := Asked(d, states, requests, b1, Says(p, 1), b2);
    var k, done := |requests|, Signals(q, BurstDone(verdict));
    states, requests := Asked(d, states, requests, b2, done, Step(b2, done));
    assert states[k] == b2 && requests[k] == done;
    FirstIsRefused(b2, d, p, q, team, verdict);
    WhatWaitedIsHandled([d], states, requests);
  }

  lemma SenderGoes(b: BlockState, d: object, p: object, q: object, team: object, now: int, accepts: Packet -> bool)
    requires Joining(b, d, p, q, false, team, [] + [Speech(p, 0)])
    ensures Orphans(b, Travels(p, Go(now, accepts)))
  {
    assert b.lobbies[team].queues.waiting[0].src == p;
    assert Sent(b.lobbies[team].queues.waiting, p) && WaitsOn(b, p, team);
  }

  /** A member sends something while another bursts, and disconnects: the packet waits on without its sender. */
  lemma DepartedSender(d: object, p: object, q: object, team: object, now: int, accepts: Packet -> bool)
      returns (states: seq<BlockState>, requests: seq<Request>)
    requires p != q && d != team
    ensures IsRun(states, requests) && states[0] == Opened([d])
    ensures !forall i :: 0 <= i < |states| ==> SendersHere(states[i])
  {
    var b: BlockState;
    states, requests, b := OneJoins(d, p, q, false, team, now, accepts);
    var b1 := Speaks(b, d, p, q, false, team, [], 0);
    states, requests := Asked(d, states, requests, b, Says(p, 0), b1);
    var k, go := |requests|, Travels(p, Go(now, accepts));
    states, requests := Asked(d, states, requests, b1, go, Step(b1, go));
    assert states[k] == b1 && requests[k] == go;
    SenderGoes(b1, d, p, q, team, now, accepts);
    SendersStay([d], states, requests);
  }

  lemma NewcomerDeserts(b: BlockState, d: object, p: object, q: object, team: object, now: int)
    requires Joining(b, d, p, q, false, team, [])
    ensures Deserts(b, Travels(q, Change(d, true, now)))
  {
    PlainLetsIn(b.lobbies[d], b.clients[q], false, true);
    assert BurstsAlone(b, q);
  }

  /** The member that bursts goes back to the default lobby: the team goes on bursting without anybody who would end
      it. */
  lemma DesertedBurst(d: object, p: object, q: object, team: object, now: int, accepts: Packet -> bool)
      returns (states: seq<BlockState>, requests: seq<Request>)
    requires p != q && d != team
    ensures IsRun(states, requests) && states[0] == Opened([d])
    ensures !forall i :: 0 <= i < |states| ==> AllAttended(states[i])
  {
    var b: BlockState;
    states, requests, b := OneJoins(d, p, q, false, team, now, accepts);
    var k, back := |requests|, Travels(q, Change(d, true, now));
    states, requests := Asked(d, states, requests, b, back, Step(b, back));
    assert states[k] == b && requests[k] == back;
    NewcomerDeserts(b, d, p, q, team, now);
    BurstsAreAttended([d], states, requests);
  }
}
