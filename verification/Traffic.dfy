/**
  What requests do to the packets that wait in a block's lobbies: which of them queue or handle packets, and that all
  others carry the queues along as they are.
 */
module Traffic {
  import opened Elections
  import opened LobbyRules
  import opened TeamIds
  import opened BlockRules
  import opened Moves
  import opened Teams
  import Commands
  import opened Runs

  ghost predicate SameTraffic(s: LobbyState, t: LobbyState) {
    && t.queues.waiting == s.queues.waiting && t.history.nteCleared == s.history.nteCleared
    && t.history.disposed == s.history.disposed && t.history.handled == s.history.handled
  }

  ghost predicate NoTraffic(s: LobbyState) {
    s.queues.waiting == [] && !s.history.nteCleared && s.history.disposed == [] && s.history.handled == []
  }

  ghost predicate QuietAt(r: BlockState, b: BlockState, x: object)
    requires x in r.lobbies
  {
    if x in b.lobbies then SameTraffic(b.lobbies[x], r.lobbies[x]) else NoTraffic(r.lobbies[x])
  }

  /** From `b` to `r` no packet was queued or handled. */
  ghost predicate Carried(r: BlockState, b: BlockState) {
    forall x: object :: x in r.lobbies ==> QuietAt(r, b, x)
  }

  /** And nobody came or went. */
  ghost predicate Quiet(r: BlockState, b: BlockState) {
    r.clients.Keys == b.clients.Keys && Carried(r, b)
  }

  /** And no lobby was made. */
  ghost predicate Still(r: BlockState, b: BlockState) {
    r.lobbies.Keys <= b.lobbies.Keys && Quiet(r, b)
  }

  lemma CarriedOn(s: BlockState, r: BlockState, b: BlockState)
    requires s.lobbies.Keys <= r.lobbies.Keys && Carried(s, r) && Carried(r, b)
    ensures Carried(s, b)
  {
    forall x: object | x in s.lobbies ensures QuietAt(s, b, x) {
      assert x in s.lobbies.Keys && x in r.lobbies.Keys;
      assert QuietAt(s, r, x) && QuietAt(r, b, x);
    }
  }

  lemma QuietAgain(s: BlockState, r: BlockState, b: BlockState)
    requires Still(s, r) && Quiet(r, b)
    ensures Quiet(s, b) && (Still(r, b) ==> Still(s, b))
  {
    CarriedOn(s, r, b);
  }

  /** Changing one lobby, but not its traffic, and clients that are there. */
  lemma ChangedQuietly(r: BlockState, b: BlockState, l: object)
    requires l in b.lobbies && l in r.lobbies && r.lobbies == b.lobbies[l := r.lobbies[l]]
    requires SameTraffic(b.lobbies[l], r.lobbies[l]) && r.clients.Keys == b.clients.Keys
    ensures Still(r, b)
  {
  }

  lemma FewerQuietly(r: BlockState, b: BlockState)
    requires r.clients.Keys == b.clients.Keys
    requires forall x: object :: x in r.lobbies ==> x in b.lobbies && r.lobbies[x] == b.lobbies[x]
    ensures Still(r, b)
  {
  }

  lemma NewQuietly(r: BlockState, b: BlockState, l: object, s: LobbyState)
    requires r.clients.Keys == b.clients.Keys && r.lobbies == b.lobbies[l := s] && l !in b.lobbies && NoTraffic(s)
    ensures Quiet(r, b)
  {
  }

  lemma EnterTraffic(l: LobbyState, c: object, byOverride: bool)
    requires Shape(l) && Subscribed(l) && l.count < l.terms.maxClients
    ensures SameTraffic(l, Entered(l, c, byOverride))
  {
    TakeTraffic(l, c, NextSlot(l));
  }

  lemma TakeTraffic(l: LobbyState, c: object, slot: nat)
    requires slot < |l.slots| && SubscribersSeated(l.slots, l.quest.countRegs) && l.slots[slot] == null
    ensures SubscribersSeated(l.slots[slot := c], l.quest.countRegs) && SameTraffic(l, Take(l, c, slot))
  {
  }

  lemma LeaveTraffic(l: LobbyState, slot: nat, seats: seq<Seat>, now: int)
    requires Subscribed(l) && slot < LOBBY_MAX_CLIENTS
    requires l.terms.kind != DefaultLobby ==> slot < LOBBY_MAX_IN_TEAM
    ensures SameTraffic(l, Leave(l, slot, seats, now))
  {
  }

  lemma JoinQuietly(b: BlockState, c: object, l: object, now: int, byOverride: bool)
    requires Core(b) && c in b.clients && l in b.lobbies && b.lobbies[l].count < b.lobbies[l].terms.maxClients
    ensures Shape(b.lobbies[l]) && Subscribed(b.lobbies[l]) && Still(Join(b, c, l, now, byOverride), b)
  {
    assert Sound(b.lobbies[l]);
    EnterTraffic(b.lobbies[l], c, byOverride);
    ChangedQuietly(Join(b, c, l, now, byOverride), b, l);
  }

  lemma PartQuietly(b: BlockState, c: object, slot: nat, l: object, now: int)
    requires c in b.clients && l in b.lobbies && Subscribed(b.lobbies[l]) && slot < LOBBY_MAX_CLIENTS
    requires b.lobbies[l].terms.kind != DefaultLobby ==> slot < LOBBY_MAX_IN_TEAM
    ensures Still(Part(b, c, slot, l, now), b)
  {
    LeaveTraffic(b.lobbies[l], slot, SeatsOf(b.lobbies[l].slots, b.clients), now);
    ChangedQuietly(Part(b, c, slot, l, now), b, l);
  }

  lemma ArriveQuietly(b: BlockState, c: object, l: object)
    ensures Still(Arrive(b, c, l), b)
  {
    if c in b.clients && l in b.lobbies && b.lobbies[l].terms.kind != DefaultLobby {
      ChangedQuietly(Arrive(b, c, l), b, l);
    } else {
      FewerQuietly(b, b);
    }
  }

  lemma RelocateQuietly(b: BlockState, c: object, req: object, now: int, byOverride: bool)
    requires Core(b) && c in b.clients && b.clients[c].lobby != null && req in b.lobbies && req != b.clients[c].lobby
    requires b.lobbies[req].count < b.lobbies[req].terms.maxClients
    ensures Still(Relocate(b, c, req, now, byOverride), b)
  {
    MoveUnfolds(b, c, req, now, byOverride);
    JoinQuietly(b, c, req, now, byOverride);
    var l, slot := b.clients[c].lobby as object, b.clients[c].slot;
    var j, m := Join(b, c, req, now, byOverride), Move(b, c, req, now, byOverride);
    PartQuietly(j, c, slot, l, now);
    QuietAgain(m, j, b);
    ConcludeQuietly(m, b, c, req, l);
  }

  lemma ConcludeQuietly(m: BlockState, b: BlockState, c: object, req: object, l: object)
    requires Still(m, b)
    ensures Still(DestroyIfEmpty(Arrive(m, c, req), l), b)
  {
    var a := Arrive(m, c, req);
    ArriveQuietly(m, c, req);
    QuietAgain(a, m, b);
    FewerQuietly(DestroyIfEmpty(a, l), a);
    QuietAgain(DestroyIfEmpty(a, l), a, b);
  }

  lemma AddToAnyQuietly(b: BlockState, c: object, req: object?, now: int)
    requires Core(b) && c in b.clients && (req != null ==> req in b.listed)
    ensures Still(AddToAny(b, c, req, now).block, b)
  {
    var l := AnyLobby(b, c, req);
    if l == null {
      FewerQuietly(b, b);
    } else {
      assert l in b.lobbies && Sound(b.lobbies[l]);
      JoinQuietly(b, c, l, now, false);
    }
  }

  lemma DecideQuietly(b: BlockState, c: object, req: object, refusal: int, byOverride: bool, now: int)
    requires Core(b) && c in b.clients && req in b.listed
    ensures Still(Decide(b, c, req, refusal, byOverride, now).block, b)
  {
    FewerQuietly(b, b);
    if b.clients[c].lobby == null {
      AddToAnyQuietly(b, c, req, now);
    } else if refusal == 0 {
      if b.clients[c].lobby == req {
        ArriveQuietly(b, c, req);
      } else if b.lobbies[req].count < b.lobbies[req].terms.maxClients {
        RelocateQuietly(b, c, req, now, byOverride);
      }
    }
  }

  lemma ChangeLobbyQuietly(b: BlockState, c: object, req: object, legit: bool, now: int)
    requires Core(b) && c in b.clients && req in b.listed
    ensures Still(ChangeLobby(b, c, req, legit, now).block, b)
  {
    var me := b.clients[c];
    var b1 := PutClient(b, c, me.(override := false));
    ChangeLobbyUnfolds(b, c, req, legit, now);
    FewerQuietly(b1, b);
    DecideQuietly(b1, c, req, Refusal(b.lobbies[req], me, legit), me.override, now);
    QuietAgain(ChangeLobby(b, c, req, legit, now).block, b1, b);
  }

  lemma JoinOwnQuietly(b: BlockState, c: object, l: object, legit: bool, now: int)
    requires Core(b) && c in b.clients && l in b.listed
    ensures Still(JoinGame(b, c, l, legit, now).block, b) && Still(JoinOwn(b, c, l, legit, now), b)
  {
    FewerQuietly(b, b);
    ChangeLobbyQuietly(b, c, l, legit, now);
    var o := JoinGame(b, c, l, legit, now);
    FewerQuietly(Destroy(o.block, l), o.block);
    QuietAgain(Destroy(o.block, l), o.block, b);
  }

  lemma LaunchQuietly(b: BlockState, c: object, l: object, s: LobbyState, legit: bool, now: int)
    requires c in b.clients && Core(Insert(b, l, s))
    requires if l in b.lobbies then SameTraffic(b.lobbies[l], s) else NoTraffic(s)
    ensures Quiet(JoinOwn(Insert(b, l, s), c, l, legit, now), b)
  {
    var r := Insert(b, l, s);
    if l !in b.lobbies {
      NewQuietly(r, b, l, s);
    } else {
      ChangedQuietly(r, b, l);
    }
    JoinOwnQuietly(r, c, l, legit, now);
    QuietAgain(JoinOwn(r, c, l, legit, now), r, b);
  }

  lemma NewGameTraffic(b: BlockState, c: object, p: GameRequest, id: nat)
    requires c in b.clients
    ensures NoTraffic(NewGame(b, c, p, id))
  {
  }

  lemma HoldQuietly(b: BlockState, c: object, l: object, s: LobbyState)
    requires c in b.clients && l !in b.lobbies && NoTraffic(s)
    ensures Quiet(Hold(b, c, l, s), b)
  {
  }

  lemma SameLobbiesQuietly(r: BlockState, b1: BlockState, b: BlockState)
    requires Quiet(r, b1) && b1.lobbies == b.lobbies && b1.clients.Keys == b.clients.Keys
    ensures Quiet(r, b)
  {
    forall x: object | x in r.lobbies ensures QuietAt(r, b, x) {
      assert QuietAt(r, b1, x);
    }
  }

  lemma CreateGameQuietly(b: BlockState, c: object, l: object, p: GameRequest, legit: bool, now: int)
    requires Inv(b) && c in b.clients && l !in b.lobbies && GoodRequest(b.clients[c].version, p)
    requires InRange(b.nextId) && HasFree(UsedIds(b))
    ensures Quiet(CreateGame(b, c, l, p, legit, now), b)
  {
    CreateGameUnfolds(b, c, l, p, legit, now);
    var id := NextFree(UsedIds(b), b.nextId);
    NewGameTraffic(b, c, p, id);
    MadeQuietly(b, b.(nextId := After(id)), c, l, NewGame(b, c, p, id), legit, now, CreateGame(b, c, l, p, legit, now));
  }

  /** Whatever becomes of a team just made. */
  lemma MadeQuietly(b: BlockState, b1: BlockState, c: object, l: object, s: LobbyState, legit: bool, now: int,
                    r: BlockState)
    requires c in b.clients && l !in b.lobbies && NoTraffic(s)
    requires b1.lobbies == b.lobbies && b1.clients == b.clients
    requires r == b || r == Hold(b1, c, l, s)
               || (Core(Insert(b1, l, s)) && r == JoinOwn(Insert(b1, l, s), c, l, legit, now))
    ensures Quiet(r, b)
  {
    if r == b {
      FewerQuietly(b, b);
    } else if r == Hold(b1, c, l, s) {
      HoldQuietly(b1, c, l, s);
      SameLobbiesQuietly(r, b1, b);
    } else {
      LaunchQuietly(b1, c, l, s, legit, now);
      SameLobbiesQuietly(r, b1, b);
    }
  }

  lemma CreateEp3GameQuietly(b: BlockState, c: object, l: object, viewBattle: bool, legit: bool, now: int)
    requires Inv(b) && c in b.clients && l !in b.lobbies
    ensures Quiet(CreateEp3Game(b, c, l, viewBattle, legit, now), b)
  {
    CreateEp3GameUnfolds(b, c, l, viewBattle, legit, now);
    LaunchQuietly(b, c, l, NewEp3Game(b, c, viewBattle), legit, now);
  }

  lemma ChosenTraffic(l: LobbyState, choice: nat, strayed: bool)
    ensures SameTraffic(l, Chosen(l, choice, strayed))
  {
  }

  lemma PickQuietly(b: BlockState, c: object, choice: nat, legit: bool, now: int)
    requires Inv(b) && c in b.clients
    ensures Quiet(PickGameType(b, c, choice, legit, now), b)
  {
    if b.clients[c].created == null {
      FewerQuietly(b, b);
    } else {
      var l := b.clients[c].created as object;
      PickUnfolds(b, c, choice, legit, now);
      ChosenTraffic(b.lobbies[l], choice, b.clients[c].lobby == null);
      PublishedQuietly(b, PutClient(b, c, b.clients[c].(created := null)), c, l, Choice(b, c, choice), legit, now);
    }
  }

  lemma PublishedQuietly(b: BlockState, b1: BlockState, c: object, l: object, s: LobbyState, legit: bool, now: int)
    requires c in b.clients && l in b.lobbies && SameTraffic(b.lobbies[l], s) && Core(Insert(b1, l, s))
    requires b1.lobbies == b.lobbies && b1.clients.Keys == b.clients.Keys
    ensures Quiet(JoinOwn(Insert(b1, l, s), c, l, legit, now), b)
  {
    LaunchQuietly(b1, c, l, s, legit, now);
    SameLobbiesQuietly(JoinOwn(Insert(b1, l, s), c, l, legit, now), b1, b);
  }

  lemma BuildQuietly(b: BlockState, c: object, t: Build)
    requires Inv(b) && c in b.clients
    ensures Quiet(StepBuild(b, c, t), b)
  {
    FewerQuietly(b, b);
    match t
    case Create(team, game, legit, now) =>
      if team !in b.lobbies && GoodRequest(b.clients[c].version, game) && InRange(b.nextId) && HasFree(UsedIds(b)) {
        CreateGameQuietly(b, c, team, game, legit, now);
      }
    case CreateEp3(team, view, legit, now) =>
      if team !in b.lobbies { CreateEp3GameQuietly(b, c, team, view, legit, now); }
    case Pick(choice, legit, now) => PickQuietly(b, c, choice, legit, now);
  }

  lemma ApplyTraffic(l: LobbyState, clients: map<object, ClientState>, c: object, slot: nat, a: Action)
    ensures SameTraffic(l, Apply(l, clients, c, slot, a))
  {
  }

  lemma ActionQuietly(b: BlockState, c: object, a: Action)
    requires Core(b) && c in b.clients
    ensures Still(StepAction(b, c, a), b)
  {
    FewerQuietly(b, b);
    if b.clients[c].lobby != null && b.clients[c].lobby in b.lobbies {
      var l := b.clients[c].lobby as object;
      ApplyTraffic(b.lobbies[l], b.clients, c, b.clients[c].slot, a);
      ChangedQuietly(StepAction(b, c, a), b, l);
    }
  }

  // ---------------------------------------------------------------- what requests do to packets

  /** The lobby whose waiting packets are handled when a client leaves it without entering another. */
  ghost function DrainedByLeaving(b: BlockState, c: object): (l: object?)
    ensures l != null ==> l in b.lobbies
  {
    if c in b.clients && b.clients[c].bursting && b.clients[c].lobby in b.lobbies then b.clients[c].lobby else null
  }

  /** When a client has loaded. */
  ghost function DrainedByDone(b: BlockState, c: object): (l: object?)
    ensures l != null ==> l in b.lobbies
  {
    if c !in b.clients || b.clients[c].lobby !in b.lobbies then null
    else
      var l := b.lobbies[b.clients[c].lobby as object];
      if l.terms.kind == DefaultLobby || l.flags.questing then null else b.clients[c].lobby
  }

  /** And when it answers the ping sent after a quest. */
  ghost function DrainedByPing(b: BlockState, c: object): (l: object?)
    ensures l != null ==> l in b.lobbies
  {
    if c in b.clients && b.clients[c].waitQping && b.clients[c].lobby in b.lobbies then b.clients[c].lobby else null
  }

  /** The lobby whose waiting packets a request has handled, if any. */
  ghost function Drained(b: BlockState, r: Request): (l: object?)
    ensures l != null ==> l in b.lobbies
  {
    match r
    case Travels(c, Go(_, _)) => DrainedByLeaving(b, c)
    case Travels(c, LeaveGame(_, _)) => DrainedByLeaving(b, c)
    case Signals(c, BurstDone(_)) => DrainedByDone(b, c)
    case Signals(c, Ping(_)) => DrainedByPing(b, c)
    case _ => null
  }

  /** Which packets their handlers then accept. */
  ghost function Verdict(r: Request): Packet -> bool {
    match r
    case Travels(_, Go(_, accepts)) => accepts
    case Travels(_, LeaveGame(_, accepts)) => accepts
    case Signals(_, BurstDone(accepts)) => accepts
    case Signals(_, Ping(accepts)) => accepts
    case _ => _ => true
  }

  /** The trial edition's end of loading, from somebody in a team. */
  ghost predicate CutsShort(b: BlockState, c: object) {
    && c in b.clients && b.clients[c].nte && b.clients[c].version == DCv1 && b.clients[c].lobby in b.lobbies
    && b.lobbies[b.clients[c].lobby as object].terms.kind != DefaultLobby
  }

  /** The block once the packets waiting in `l`, if that is a lobby, have been handled. */
  ghost function Drain1(b: BlockState, l: object?, accepts: Packet -> bool): BlockState
    requires l != null ==> l in b.lobbies
  {
    if l == null then b else Put(b, l, Drain(b.lobbies[l as object], accepts))
  }

  /** What a request does to the packets of a block. */
  ghost function Relayed(b: BlockState, r: Request): BlockState
    requires Core(b)
  {
    match r
    case Signals(c, NteLoadDone) =>
      if CutsShort(b, c) then Put(b, b.clients[c].lobby, NteLoaded(b.lobbies[b.clients[c].lobby as object])) else b
    case Signals(c, SendPacket(command, body, forResend)) =>
      if c in b.clients then Commands.HoldBack(b, c, command, body, forResend) else b
    case _ => Drain1(b, Drained(b, r), Verdict(r))
  }

  lemma RemovePlayerRelays(b: BlockState, c: object, now: int, accepts: Packet -> bool)
    requires Inv(b) && c in b.clients
    ensures Still(RemovePlayer(b, c, now, accepts), Drain1(b, DrainedByLeaving(b, c), accepts))
  {
    FewerQuietly(b, b);
    if b.clients[c].lobby != null {
      Located(b, c);
      var l, slot := b.clients[c].lobby as object, b.clients[c].slot;
      if b.clients[c].bursting {
        BurstEndQuietly(b, l, accepts);
        WithdrawnQuietly(Put(b, l, EndBurst(b.lobbies[l], accepts)), Drain1(b, l, accepts), c, slot, l, now);
      } else {
        WithdrawnQuietly(b, b, c, slot, l, now);
      }
    }
  }

  /** Out of the lobby, and the end of a team left empty. */
  lemma WithdrawnQuietly(b1: BlockState, m: BlockState, c: object, slot: nat, l: object, now: int)
    requires c in b1.clients && l in b1.lobbies && Subscribed(b1.lobbies[l]) && slot < LOBBY_MAX_CLIENTS
    requires b1.lobbies[l].terms.kind != DefaultLobby ==> slot < LOBBY_MAX_IN_TEAM
    requires Still(b1, m)
    ensures Still(DestroyIfEmpty(Part(b1, c, slot, l, now), l), m)
  {
    PartQuietly(b1, c, slot, l, now);
    var p := Part(b1, c, slot, l, now);
    QuietAgain(p, b1, m);
    FewerQuietly(DestroyIfEmpty(p, l), p);
    QuietAgain(DestroyIfEmpty(p, l), p, m);
  }

  lemma BurstEndQuietly(b: BlockState, l: object, accepts: Packet -> bool)
    requires l in b.lobbies
    ensures Still(Put(b, l, EndBurst(b.lobbies[l], accepts)), Drain1(b, l, accepts))
    ensures Still(Put(b, l, Commands.EndQuestBurst(b.lobbies[l], accepts)), Drain1(b, l, accepts))
  {
    var d := Drain1(b, l, accepts);
    var e, q := EndBurst(b.lobbies[l], accepts), Commands.EndQuestBurst(b.lobbies[l], accepts);
    assert b.lobbies[l := e] == d.lobbies[l := e];
    assert b.lobbies[l := q] == d.lobbies[l := q];
    ChangedQuietly(Put(b, l, e), d, l);
    ChangedQuietly(Put(b, l, q), d, l);
  }

  lemma TravelRelays(b: BlockState, c: object, t: Travel)
    requires Inv(b) && c in b.clients && !t.Go? && !t.LeaveGame?
    ensures Quiet(StepTravel(b, c, t), b)
  {
    FewerQuietly(b, b);
    match t
    case EnterAny(wish, now) => if wish != null ==> wish in b.listed { AddToAnyQuietly(b, c, wish, now); }
    case Change(l, legit, now) => if l in b.listed { ChangeLobbyQuietly(b, c, l, legit, now); }
    case JoinTeam(l, legit, now) => if l in b.listed { JoinOwnQuietly(b, c, l, legit, now); }
  }

  lemma DisconnectRelays(b: BlockState, c: object, now: int, accepts: Packet -> bool)
    requires Inv(b) && c in b.clients
    ensures Carried(Disconnect(b, c, now, accepts), Drain1(b, DrainedByLeaving(b, c), accepts))
    ensures Disconnect(b, c, now, accepts).clients.Keys == b.clients.Keys - {c}
  {
    var r, m := RemovePlayer(b, c, now, accepts), Drain1(b, DrainedByLeaving(b, c), accepts);
    RemovePlayerRelays(b, c, now, accepts);
    assert r.clients.Keys == b.clients.Keys;
    ForgetCarries(r, c);
    CarriedOn(Forget(r, c), r, m);
  }

  lemma ForgetCarries(b: BlockState, c: object)
    ensures Carried(Forget(b, c), b) && Forget(b, c).clients.Keys == b.clients.Keys - {c}
    ensures Forget(b, c).lobbies.Keys <= b.lobbies.Keys
  {
  }

  lemma PutClientQuietly(b: BlockState, m: BlockState, c: object, s: ClientState)
    requires c in b.clients && Quiet(b, m)
    ensures Quiet(PutClient(b, c, s), m)
  {
    forall x: object | x in b.lobbies ensures QuietAt(PutClient(b, c, s), m, x) {
      assert QuietAt(b, m, x);
    }
  }

  lemma DoneBurstRelays(b: BlockState, c: object, accepts: Packet -> bool)
    requires Inv(b) && c in b.clients
    ensures Quiet(Commands.DoneBurst(b, c, accepts), Drain1(b, DrainedByDone(b, c), accepts))
  {
    var me := b.clients[c];
    FewerQuietly(b, b);
    if me.lobby != null && me.lobby in b.lobbies {
      var l := me.lobby as object;
      BurstEndQuietly(b, l, accepts);
      PutClientQuietly(b, b, c, me.(waitQping := true));
      PutClientQuietly(Put(b, l, EndBurst(b.lobbies[l], accepts)), Drain1(b, l, accepts), c, me.(bursting := false));
    }
  }

  lemma PingRelays(b: BlockState, c: object, accepts: Packet -> bool)
    requires Inv(b) && c in b.clients
    ensures Quiet(Commands.QuestPing(b, c, accepts), Drain1(b, DrainedByPing(b, c), accepts))
  {
    var me := b.clients[c];
    FewerQuietly(b, b);
    if me.lobby != null && me.lobby in b.lobbies {
      var l := me.lobby as object;
      BurstEndQuietly(b, l, accepts);
      PutClientQuietly(Put(b, l, Commands.EndQuestBurst(b.lobbies[l], accepts)), Drain1(b, l, accepts),
                       c, me.(bursting := false, waitQping := false));
    }
  }

  lemma NteDoneRelays(b: BlockState, c: object)
    requires Inv(b) && c in b.clients
    ensures Quiet(Commands.NteDone(b, c), Relayed(b, Signals(c, NteLoadDone)))
  {
    var me := b.clients[c];
    FewerQuietly(b, b);
    if CutsShort(b, c) {
      var m := Put(b, me.lobby, NteLoaded(b.lobbies[me.lobby as object]));
      FewerQuietly(m, m);
      PutClientQuietly(m, m, c, me.(bursting := false));
    }
  }

  lemma SignalRelays(b: BlockState, c: object, t: Signal)
    requires Inv(b) && c in b.clients
    ensures Quiet(StepSignal(b, c, t), Relayed(b, Signals(c, t)))
  {
    match t
    case BurstDone(accepts) => DoneBurstRelays(b, c, accepts);
    case Ping(accepts) => PingRelays(b, c, accepts);
    case NteLoadDone => NteDoneRelays(b, c);
    case SendPacket(command, body, forResend) =>
      var r := Commands.HoldBack(b, c, command, body, forResend);
      FewerQuietly(r, r);
    case SetOverride(on) =>
      FewerQuietly(PutClient(b, c, b.clients[c].(override := on)), b);
  }

  ghost predicate Goes(r: Request) {
    r.Travels? && r.travel.Go?
  }

  /** Who is on the block afterwards. */
  ghost function PeopleAfter(b: BlockState, r: Request): set<object> {
    if r.Connects? then b.clients.Keys + {r.c} else if Goes(r) then b.clients.Keys - {r.c} else b.clients.Keys
  }

  /** Block `after` is what a request may make of `b` as far as packets and people go. */
  ghost predicate Follows(b: BlockState, r: Request, after: BlockState)
    requires Core(b)
  {
    Carried(after, Relayed(b, r)) && after.clients.Keys == PeopleAfter(b, r)
  }

  lemma ConnectRelays(b: BlockState, r: Request)
    requires Core(b) && r.Connects?
    ensures Follows(b, r, Step(b, r))
  {
  }

  lemma StepTravelRelays(b: BlockState, c: object, t: Travel)
    requires Inv(b) && c in b.clients
    ensures Follows(b, Travels(c, t), StepTravel(b, c, t))
  {
    match t
    case Go(now, accepts) => DisconnectRelays(b, c, now, accepts);
    case LeaveGame(now, accepts) => RemovePlayerRelays(b, c, now, accepts);
    case _ => TravelRelays(b, c, t);
  }

  lemma StepBuildRelays(b: BlockState, c: object, t: Build)
    requires Inv(b) && c in b.clients
    ensures Follows(b, Builds(c, t), StepBuild(b, c, t))
  {
    BuildQuietly(b, c, t);
  }

  lemma StepActionRelays(b: BlockState, c: object, a: Action)
    requires Inv(b) && c in b.clients
    ensures Follows(b, Acts(c, a), StepAction(b, c, a))
  {
    ActionQuietly(b, c, a);
  }

  lemma StepSignalRelays(b: BlockState, c: object, t: Signal)
    requires Inv(b) && c in b.clients
    ensures Follows(b, Signals(c, t), StepSignal(b, c, t))
  {
    SignalRelays(b, c, t);
  }

  lemma DroppedRelays(b: BlockState, r: Request)
    requires Core(b) && !r.Connects? && r.c !in b.clients
    ensures Follows(b, r, b)
  {
  }

  /** Apart from what it relays, a request touches no packets; and only a disconnection makes a client go. */
  lemma StepRelays(b: BlockState, r: Request)
    requires Inv(b)
    ensures Follows(b, r, Step(b, r))
  {
    if r.Connects? {
      ConnectRelays(b, r);
    } else if r.c !in b.clients {
      DroppedRelays(b, r);
    } else {
      match r
      case Travels(c, t) => StepTravelRelays(b, c, t);
      case Builds(c, t) => StepBuildRelays(b, c, t);
      case Signals(c, t) => StepSignalRelays(b, c, t);
      case Acts(c, a) => StepActionRelays(b, c, a);
    }
  }

  /** What a request may do to one lobby's packets. */
  ghost predicate RelayedTo(s: LobbyState, t: LobbyState, b: BlockState, r: Request) {
    || t == s || t == Drain(s, Verdict(r)) || t == NteLoaded(s)
    || (r.Signals? && r.signal.SendPacket? && r.c in b.clients &&
        t == Enqueue(s, Packet(r.c, r.signal.command, r.signal.body), r.signal.forResend))
  }

  lemma RelayedAt(b: BlockState, r: Request, x: object)
    requires Core(b) && x in Relayed(b, r).lobbies
    ensures x in b.lobbies && RelayedTo(b.lobbies[x], Relayed(b, r).lobbies[x], b, r)
  {
    match r
    case Signals(c, NteLoadDone) =>
      RelayedAtCut(b, c, x);
    case Signals(c, SendPacket(command, body, forResend)) =>
      if c in b.clients {
        RelayedAtSend(b, c, command, body, forResend, x);
      }
    case _ =>
      RelayedAtDrain(b, Drained(b, r), Verdict(r), x);
  }

  lemma RelayedAtCut(b: BlockState, c: object, x: object)
    requires Core(b) && x in Relayed(b, Signals(c, NteLoadDone)).lobbies
    ensures x in b.lobbies
    ensures var t := Relayed(b, Signals(c, NteLoadDone)).lobbies[x]; t == b.lobbies[x] || t == NteLoaded(b.lobbies[x])
  {
  }

  lemma RelayedAtSend(b: BlockState, c: object, command: Command, body: int, forResend: bool, x: object)
    requires Core(b) && c in b.clients && x in Commands.HoldBack(b, c, command, body, forResend).lobbies
    ensures x in b.lobbies
    ensures var t := Commands.HoldBack(b, c, command, body, forResend).lobbies[x];
            t == b.lobbies[x] || t == Enqueue(b.lobbies[x], Packet(c, command, body), forResend)
  {
  }

  lemma RelayedAtDrain(b: BlockState, l: object?, accepts: Packet -> bool, x: object)
    requires (l != null ==> l in b.lobbies) && x in Drain1(b, l, accepts).lobbies
    ensures x in b.lobbies
    ensures var t := Drain1(b, l, accepts).lobbies[x]; t == b.lobbies[x] || t == Drain(b.lobbies[x], accepts)
  {
  }

  lemma RelayedClients(b: BlockState, r: Request)
    requires Core(b)
    ensures Relayed(b, r).clients == b.clients
  {
  }
}
