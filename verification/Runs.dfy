/**
  Whole runs of a block: any sequence of requests, starting from a block with only its default lobbies.
 */
module Runs {
  import opened Elections
  import opened LobbyRules
  import opened TeamIds
  import opened BlockRules
  import opened Moves
  import opened Teams
  import opened Commands

  /** Where a client goes. `now` is the clock reading the request sees; `accepts` tells which waiting packets
      their handlers accept. */
  datatype Travel =
    | Go(now: int, accepts: Packet -> bool)
    | LeaveGame(now: int, accepts: Packet -> bool)
    | EnterAny(wish: object?, now: int)
    | Change(lobby: object, legit: bool, now: int)
    | JoinTeam(lobby: object, legit: bool, now: int)

  /** The teams a client makes; `team` is the lobby to be made. */
  datatype Build =
    | Create(team: object, game: GameRequest, legit: bool, now: int)
    | CreateEp3(team: object, viewBattle: bool, legit: bool, now: int)
    | Pick(choice: nat, legit: bool, now: int)

  datatype Signal =
    | BurstDone(accepts: Packet -> bool)
    | Ping(accepts: Packet -> bool)
    | NteLoadDone
    | SendPacket(command: Command, body: int, forResend: bool)
    | SetOverride(on: bool)

  /** What a client does inside its lobby. */
  datatype Action =
    | SetMinLevel(limit: int)
    | SetMaxLevel(limit: int)
    | SetDcOnly(off: bool)
    | SetV1Only(off: bool)
    | AllowGamecube(gm: bool, off: bool)
    | BringNpc(goodArguments: bool)
    | ChooseQuest(begin: bool)
    | BeginQuest(joinable: bool, data: bool)
    | AskForCount(reg: nat)

  datatype Request =
    | Connects(c: object, version: Version, nte: bool, gcProtect: bool, level: nat, lateClass: bool)
    | Travels(c: object, travel: Travel)
    | Builds(c: object, build: Build)
    | Signals(c: object, signal: Signal)
    | Acts(c: object, action: Action)

  // ---------------------------------------------------------------- one request

  ghost function StepTravel(b: BlockState, c: object, t: Travel): BlockState
    requires Core(b) && c in b.clients
  {
    match t
    case Go(now, accepts) => Disconnect(b, c, now, accepts)
    case LeaveGame(now, accepts) => RemovePlayer(b, c, now, accepts)
    case EnterAny(wish, now) =>
      if b.clients[c].lobby != null || (wish != null && wish !in b.listed) then b else AddToAny(b, c, wish, now).block
    case Change(l, legit, now) =>
      if l !in b.listed || b.clients[c].gcProtect then b else ChangeLobby(b, c, l, legit, now).block
    case JoinTeam(l, legit, now) =>
      if l !in b.listed then b else JoinGame(b, c, l, legit, now).block
  }

  lemma StepTravelKeepsInv(b: BlockState, c: object, t: Travel)
    requires Inv(b) && c in b.clients
    ensures Inv(StepTravel(b, c, t))
  {
    match t
    case Go(now, accepts) => DisconnectKeepsInv(b, c, now, accepts);
    case LeaveGame(now, accepts) => RemovePlayerKeepsInv(b, c, now, accepts);
    case EnterAny(wish, now) =>
      if b.clients[c].lobby == null && (wish != null ==> wish in b.listed) { AddToAnyKeepsInv(b, c, wish, now); }
    case Change(l, legit, now) => if l in b.listed { ChangeLobbyKeepsInv(b, c, l, legit, now); }
    case JoinTeam(l, legit, now) => if l in b.listed { ChangeLobbyKeepsInv(b, c, l, legit, now); }
  }

  /** A creation is attempted only for a lobby that does not exist yet and while team IDs are left. */
  ghost function StepBuild(b: BlockState, c: object, t: Build): BlockState
    requires Core(b) && c in b.clients
  {
    match t
    case Create(team, game, legit, now) =>
      if team in b.lobbies || !GoodRequest(b.clients[c].version, game) || !InRange(b.nextId)
        || !HasFree(UsedIds(b)) then b
      else CreateGame(b, c, team, game, legit, now)
    case CreateEp3(team, view, legit, now) =>
      if team in b.lobbies || b.clients[c].version != EP3 then b else CreateEp3Game(b, c, team, view, legit, now)
    case Pick(choice, legit, now) => PickGameType(b, c, choice, legit, now)
  }

  lemma StepBuildKeepsInv(b: BlockState, c: object, t: Build)
    requires Inv(b) && c in b.clients
    ensures Inv(StepBuild(b, c, t))
  {
    match t
    case Create(team, game, legit, now) =>
      if team !in b.lobbies && GoodRequest(b.clients[c].version, game) && InRange(b.nextId) && HasFree(UsedIds(b)) {
        CreateGameKeepsInv(b, c, team, game, legit, now);
      }
    case CreateEp3(team, view, legit, now) =>
      if team !in b.lobbies { CreateEp3GameKeepsInv(b, c, team, view, legit, now); }
    case Pick(choice, legit, now) => PickGameTypeKeepsInv(b, c, choice, legit, now);
  }

  ghost function StepSignal(b: BlockState, c: object, t: Signal): BlockState
    requires Core(b) && c in b.clients
  {
    match t
    case BurstDone(accepts) => DoneBurst(b, c, accepts)
    case Ping(accepts) => QuestPing(b, c, accepts)
    case NteLoadDone => NteDone(b, c)
    case SendPacket(command, body, forResend) => HoldBack(b, c, command, body, forResend)
    case SetOverride(on) => PutClient(b, c, b.clients[c].(override := on))
  }

  lemma StepSignalKeepsInv(b: BlockState, c: object, t: Signal)
    requires Inv(b) && c in b.clients
    ensures Inv(StepSignal(b, c, t))
  {
    match t
    case BurstDone(accepts) => DoneBurstKeepsInv(b, c, accepts);
    case Ping(accepts) => QuestPingKeepsInv(b, c, accepts);
    case NteLoadDone => NteDoneKeepsInv(b, c);
    case SendPacket(command, body, forResend) => HoldBackKeepsInv(b, c, command, body, forResend);
    case SetOverride(on) => PutClientKeepsInv(b, c, b.clients[c].(override := on));
  }

  /** What an action makes of lobby `l` when the client in `slot` takes it. */
  ghost function Apply(l: LobbyState, clients: map<object, ClientState>, c: object, slot: nat, a: Action): LobbyState {
    match a
    case SetMinLevel(limit) => MinLevel(l, slot, limit)
    case SetMaxLevel(limit) => MaxLevel(l, slot, limit)
    case SetDcOnly(off) => DcOnly(l, clients, slot, off)
    case SetV1Only(off) => V1Only(l, clients, slot, off)
    case AllowGamecube(gm, off) => AllowGc(l, slot, gm, off)
    case BringNpc(good) => AddNpc(l, good)
    case ChooseQuest(begin) => SelectQuest(l, begin)
    case BeginQuest(joinable, data) => LoadQuest(l, joinable, data)
    case AskForCount(reg) => AskCount(l, c, slot, reg)
  }

  lemma ApplyKeepsSound(l: LobbyState, clients: map<object, ClientState>, c: object, slot: nat, a: Action)
    requires Sound(l) && slot < LOBBY_MAX_CLIENTS && l.slots[slot] == c
    requires l.terms.kind != DefaultLobby ==> slot < LOBBY_MAX_IN_TEAM
    ensures Sound(Apply(l, clients, c, slot, a))
  {
    match a
    case SetMinLevel(limit) => LevelCommandsKeepSound(l, slot, limit);
    case SetMaxLevel(limit) => LevelCommandsKeepSound(l, slot, limit);
    case SetDcOnly(off) => FlagCommandsKeepSound(l, slot, clients, off);
    case SetV1Only(off) => FlagCommandsKeepSound(l, slot, clients, off);
    case AllowGamecube(gm, off) => OtherCommandsKeepSound(l, slot, gm, off, false);
    case BringNpc(good) => OtherCommandsKeepSound(l, slot, false, false, good);
    case ChooseQuest(begin) => QuestsKeepSound(l, begin, false, false);
    case BeginQuest(joinable, data) => QuestsKeepSound(l, false, joinable, data);
    case AskForCount(reg) => if l.quest.data && reg <= 255 { SubscribeKeepsSound(l, c, slot, reg); }
  }

  lemma ApplyKeepsMembers(l: LobbyState, clients: map<object, ClientState>, c: object, slot: nat, a: Action)
    ensures SameMembers(l, Apply(l, clients, c, slot, a))
  {
  }

  lemma ApplyKeepsRules(l: LobbyState, clients: map<object, ClientState>, c: object, slot: nat, a: Action)
    requires !a.SetDcOnly? && !a.SetV1Only?
    ensures SameRules(l, Apply(l, clients, c, slot, a))
  {
    match a
    case SetMinLevel(limit) => assert SameRules(l, MinLevel(l, slot, limit));
    case SetMaxLevel(limit) => assert SameRules(l, MaxLevel(l, slot, limit));
    case AllowGamecube(gm, off) => assert SameRules(l, AllowGc(l, slot, gm, off));
    case BringNpc(good) => assert SameRules(l, AddNpc(l, good));
    case ChooseQuest(begin) => assert SameRules(l, SelectQuest(l, begin));
    case BeginQuest(joinable, data) => assert SameRules(l, LoadQuest(l, joinable, data));
    case AskForCount(reg) => assert SameRules(l, AskCount(l, c, slot, reg));
  }

  lemma ApplyKeepsAdmission(l: LobbyState, clients: map<object, ClientState>, c: object, slot: nat, a: Action)
    requires Admission(l, clients)
    ensures Admission(Apply(l, clients, c, slot, a), clients)
    ensures SameMembers(l, Apply(l, clients, c, slot, a))
  {
    ApplyKeepsMembers(l, clients, c, slot, a);
    match a
    case SetDcOnly(off) => RestrictionsKeepAdmission(l, clients, slot, off);
    case SetV1Only(off) => RestrictionsKeepAdmission(l, clients, slot, off);
    case _ =>
      ApplyKeepsRules(l, clients, c, slot, a);
      SameRulesAdmission(l, Apply(l, clients, c, slot, a), clients);
  }

  ghost function StepAction(b: BlockState, c: object, a: Action): BlockState
    requires Core(b) && c in b.clients
  {
    if b.clients[c].lobby == null || b.clients[c].lobby !in b.lobbies then b
    else
      var l := b.clients[c].lobby as object;
      Put(b, l, Apply(b.lobbies[l], b.clients, c, b.clients[c].slot, a))
  }

  lemma StepActionKeepsInv(b: BlockState, c: object, a: Action)
    requires Inv(b) && c in b.clients
    ensures Inv(StepAction(b, c, a))
  {
    if b.clients[c].lobby != null {
      Located(b, c);
      var l := b.clients[c].lobby as object;
      assert Admission(b.lobbies[l], b.clients);
      ApplyKeepsSound(b.lobbies[l], b.clients, c, b.clients[c].slot, a);
      ApplyKeepsAdmission(b.lobbies[l], b.clients, c, b.clients[c].slot, a);
      WithinKeepsInv(b, l, Apply(b.lobbies[l], b.clients, c, b.clients[c].slot, a));
    }
  }

  /** One request. Requests of clients that are not there are dropped. */
  ghost function Step(b: BlockState, r: Request): BlockState
    requires Core(b)
  {
    if r.Connects? then
      if r.c in b.clients then b else Connect(b, r.c, r.version, r.nte, r.gcProtect, r.level, r.lateClass)
    else if r.c !in b.clients then b
    else match r
    case Travels(c, t) => StepTravel(b, c, t)
    case Builds(c, t) => StepBuild(b, c, t)
    case Signals(c, t) => StepSignal(b, c, t)
    case Acts(c, a) => StepAction(b, c, a)
  }

  /** Every request keeps the invariant. */
  lemma StepKeepsInv(b: BlockState, r: Request)
    requires Inv(b)
    ensures Inv(Step(b, r))
  {
    if r.Connects? {
      if r.c !in b.clients { ConnectKeepsInv(b, r.c, r.version, r.nte, r.gcProtect, r.level, r.lateClass); }
    } else if r.c in b.clients {
      match r
      case Travels(c, t) => StepTravelKeepsInv(b, c, t);
      case Builds(c, t) => StepBuildKeepsInv(b, c, t);
      case Signals(c, t) => StepSignalKeepsInv(b, c, t);
      case Acts(c, a) => StepActionKeepsInv(b, c, a);
    }
  }

  // ---------------------------------------------------------------- runs

  ghost predicate Next(b: BlockState, r: Request, after: BlockState) {
    Core(b) ==> after == Step(b, r)
  }

  /** The states a block goes through while it serves the requests in order. */
  ghost predicate IsRun(states: seq<BlockState>, requests: seq<Request>) {
    && |states| == |requests| + 1
    && forall i :: 0 <= i < |requests| ==> Next(states[i], requests[i], states[i + 1])
  }

  lemma {:induction false} RunKeepsInv(states: seq<BlockState>, requests: seq<Request>, i: nat)
    requires IsRun(states, requests) && Inv(states[0]) && i < |states|
    ensures Inv(states[i])
  {
    if i > 0 {
      var k := i - 1;
      RunKeepsInv(states, requests, k);
      assert Next(states[k], requests[k], states[k + 1]);
      StepKeepsInv(states[k], requests[k]);
    }
  }

  // ---------------------------------------------------------------- a fresh block

  ghost predicate Distinct(refs: seq<object>) {
    forall i, j :: 0 <= i < j < |refs| ==> refs[i] != refs[j]
  }

  /** A block with nobody in it and default lobbies numbered from 1. */
  ghost function Opened(refs: seq<object>): BlockState {
    if refs == [] then BlockState(map[], map[], [], 0, FIRST_TEAM_ID)
    else Insert(Opened(refs[..|refs| - 1]), refs[|refs| - 1], NewDefaultLobby(|refs|))
  }

  ghost function NewDefaultLobby(id: nat): LobbyState {
    NewLobby(Terms(id, DefaultLobby, LOBBY_MAX_CLIENTS, 0, false, false, false), DCv1, false, false, false)
  }

  lemma OneMoreOpened(refs: seq<object>, l: object)
    ensures Opened(refs + [l]) == Insert(Opened(refs), l, NewDefaultLobby(|refs| + 1))
  {
    var more := refs + [l];
    LastOpened(more, refs, l);
  }

  lemma LastOpened(more: seq<object>, refs: seq<object>, l: object)
    requires |more| == |refs| + 1 && more[..|refs|] == refs && more[|refs|] == l
    ensures Opened(more) == Insert(Opened(refs), l, NewDefaultLobby(|more|))
  {
    assert more[..|more| - 1] == refs;
  }

  lemma {:induction false} OpenedInv(refs: seq<object>)
    requires Distinct(refs)
    ensures Inv(Opened(refs)) && forall l: object :: l in Opened(refs).lobbies ==> l in refs
  {
    if refs != [] {
      var init, last := refs[..|refs| - 1], refs[|refs| - 1];
      OpenedInv(init);
      NewLobbySound(Terms(|refs|, DefaultLobby, LOBBY_MAX_CLIENTS, 0, false, false, false), DCv1, false, false, false);
      InsertKeepsCore(Opened(init), last, NewDefaultLobby(|refs|));
      InsertKeepsInhabited(Opened(init), last, NewDefaultLobby(|refs|));
    }
  }

  /** Whatever clients ask for, from the opening of the block on, its invariant holds after every request. */
  lemma EveryRunIsCoherent(refs: seq<object>, states: seq<BlockState>, requests: seq<Request>)
    requires Distinct(refs) && IsRun(states, requests) && states[0] == Opened(refs)
    ensures forall i :: 0 <= i < |states| ==> Inv(states[i])
  {
    OpenedInv(refs);
    forall i | 0 <= i < |states| ensures Inv(states[i]) {
      RunKeepsInv(states, requests, i);
    }
  }

  // ---------------------------------------------------------------- what the invariant says about counts

  ghost function Occupants(slots: seq<object?>): set<object> {
    if slots == [] then {}
    else (if slots[0] != null then {slots[0] as object} else {}) + Occupants(slots[1..])
  }

  lemma {:induction false} OccupantsCounted(slots: seq<object?>)
    requires forall i, j :: 0 <= i < j < |slots| && slots[i] != null ==> slots[i] != slots[j]
    ensures |Occupants(slots)| == Seated(slots)
    ensures forall i :: 0 <= i < |slots| && slots[i] != null ==> slots[i] in Occupants(slots)
    ensures forall c <- Occupants(slots) :: exists i :: 0 <= i < |slots| && slots[i] == c
  {
    if slots != [] {
      var rest := slots[1..];
      assert forall i :: 0 <= i < |rest| ==> rest[i] == slots[i + 1];
      OccupantsCounted(rest);
      if slots[0] != null {
        assert slots[0] !in Occupants(rest);
      }
      forall i | 0 <= i < |slots| && slots[i] != null ensures slots[i] in Occupants(slots) {
        if i > 0 { assert rest[i - 1] == slots[i]; }
      }
    }
  }

  /** A lobby's count is the number of clients that believe they are in it. */
  lemma CountIsNumberOfClients(b: BlockState, l: object)
    requires Inv(b) && l in b.lobbies
    ensures b.lobbies[l].count == |set c: object | c in b.clients && b.clients[c].lobby == l|
  {
    var slots := b.lobbies[l].slots;
    assert Sound(b.lobbies[l]);
    MembersDiffer(b, l);
    OccupantsCounted(slots);
    ClaimedAreOccupants(b, l, Occupants(slots));
  }

  lemma ClaimedAreOccupants(b: BlockState, l: object, occupants: set<object>)
    requires Seating(b) && l in b.lobbies
    requires forall i :: 0 <= i < |b.lobbies[l].slots| && b.lobbies[l].slots[i] != null ==>
               b.lobbies[l].slots[i] in occupants
    requires forall c <- occupants :: exists i :: 0 <= i < |b.lobbies[l].slots| && b.lobbies[l].slots[i] == c
    ensures occupants == set c: object | c in b.clients && b.clients[c].lobby == l
  {
    forall c: object | c in b.clients && b.clients[c].lobby == l ensures c in occupants {
      assert b.lobbies[l].slots[b.clients[c].slot] == c;
    }
  }

  lemma MembersDiffer(b: BlockState, l: object)
    requires Seating(b) && l in b.lobbies
    ensures var slots := b.lobbies[l].slots;
            forall i, j :: 0 <= i < j < |slots| && slots[i] != null ==> slots[i] != slots[j]
  {
  }
}
