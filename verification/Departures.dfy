/**
  Which requests take a client out of the lobby it is in, told from the state before the request.
 */
module Departures {
  import opened Elections
  import opened LobbyRules
  import opened TeamIds
  import opened BlockRules
  import opened Moves
  import opened Teams
  import opened Runs

  /** A client that is somewhere else is let into a lobby. */
  ghost predicate LetIn(l: LobbyState, me: ClientState, legit: bool) {
    !me.gcProtect && Welcome(l, me, legit) && l.count < l.terms.maxClients
  }

  /** The client gets the team it asks for, at once. */
  ghost predicate Founds(b: BlockState, c: object, team: object, p: GameRequest)
    requires c in b.clients
  {
    var me := b.clients[c];
    && team !in b.lobbies && GoodRequest(me.version, p) && InRange(b.nextId) && HasFree(UsedIds(b))
    && (me.level + 1 >= RequiredLevel(p.difficulty) || me.override) && !Deferred(me.version, me.nte, p)
  }

  /** The request takes its client, which is in a lobby, to another one. */
  ghost predicate Shifts(b: BlockState, r: Request) {
    && !r.Connects? && r.c in b.clients && b.clients[r.c].lobby != null
    && var me := b.clients[r.c];
       match r
       case Travels(_, Change(l, legit, _)) => ShiftsTo(b, me, l, legit)
       case Travels(_, JoinTeam(l, legit, _)) => ShiftsTo(b, me, l, legit)
       case Builds(c, Create(team, p, legit, _)) =>
         Founds(b, c, team, p) && LetIn(NewGame(b, c, p, b.nextId), me, legit)
       case Builds(c, CreateEp3(team, view, legit, _)) =>
         team !in b.lobbies && me.version == EP3 && LetIn(NewEp3Game(b, c, view), me, legit)
       case Builds(_, Pick(choice, legit, _)) =>
         me.created != null && me.created in b.lobbies &&
         LetIn(Chosen(b.lobbies[me.created as object], choice, false), me, legit)
       case _ => false
  }

  ghost predicate ShiftsTo(b: BlockState, me: ClientState, l: object, legit: bool) {
    l in b.listed && l in b.lobbies && l != me.lobby && LetIn(b.lobbies[l], me, legit)
  }

  /** The request takes its client out of the lobby it is in, and into none. */
  ghost predicate Quits(b: BlockState, r: Request) {
    r.Travels? && (r.travel.Go? || r.travel.LeaveGame?) && r.c in b.clients && b.clients[r.c].lobby != null
  }

  /** A team that ends as soon as a member leaves. */
  ghost predicate LastMember(b: BlockState, l: object) {
    l in b.lobbies && b.lobbies[l].terms.kind != DefaultLobby && b.lobbies[l].count == 1
  }

  /** What a new team asks of its creator comes down to this. */
  lemma OwnWelcome(b: BlockState, c: object, p: GameRequest, id: nat, legit: bool)
    requires c in b.clients && GoodRequest(b.clients[c].version, p)
    ensures var me := b.clients[c];
            LetIn(NewGame(b, c, p, id), me, legit) <==>
              && !me.gcProtect && (me.override || RequiredLevel(p.difficulty) <= me.level + 1 <= 200)
              && (me.override || legit || !p.legitMode)
              && !(me.version == DCv1 && p.v2) && !(me.lateClass && TeamVersion(me.version, p.v2) == DCv1)
  {
  }

  // ---------------------------------------------------------------- where the client is afterwards

  /** In `after`, `c` has left its lobby of `b` exactly if `moved`, is then in another, and its old lobby has gone
      exactly if it was the last member of a team. */
  ghost predicate PlacedAs(after: BlockState, b: BlockState, c: object, moved: bool) {
    && c in b.clients && b.clients[c].lobby != null && c in after.clients
    && (moved <==> after.clients[c].lobby != b.clients[c].lobby)
    && (moved ==> after.clients[c].lobby != null)
    && (moved ==> (b.clients[c].lobby in after.lobbies <==> !LastMember(b, b.clients[c].lobby)))
  }

  lemma RelocatePlaces(b: BlockState, c: object, req: object, now: int, byOverride: bool)
    requires Core(b) && c in b.clients && b.clients[c].lobby != null && req in b.lobbies && req != b.clients[c].lobby
    requires b.lobbies[req].count < b.lobbies[req].terms.maxClients
    ensures PlacedAs(Relocate(b, c, req, now, byOverride), b, c, true)
  {
    RelocateMovesClient(b, c, req, now, byOverride);
  }

  /** The override has no bearing on that. */
  lemma PlacesBefore(after: BlockState, m: BlockState, b: BlockState, c: object, moved: bool)
    requires PlacedAs(after, m, c, moved) && c in b.clients && b.clients[c].lobby == m.clients[c].lobby
    requires LastMember(m, b.clients[c].lobby) == LastMember(b, b.clients[c].lobby)
    ensures PlacedAs(after, b, c, moved)
  {
  }

  lemma ChangePlaces(b: BlockState, c: object, req: object, legit: bool, now: int)
    requires Core(b) && c in b.clients && req in b.listed && b.clients[c].lobby != null && !b.clients[c].gcProtect
    ensures PlacedAs(ChangeLobby(b, c, req, legit, now).block, b, c, ShiftsTo(b, b.clients[c], req, legit))
  {
    var me, l := b.clients[c], b.lobbies[req];
    var b1 := PutClient(b, c, me.(override := false));
    ChangeLobbyUnfolds(b, c, req, legit, now);
    RefusalIsExact(l, me, legit);
    if ShiftsTo(b, me, req, legit) {
      RelocatePlaces(b1, c, req, now, me.override);
      PlacesBefore(ChangeLobby(b, c, req, legit, now).block, b1, b, c, true);
    }
  }

  lemma JoinOwnPlaces(b: BlockState, c: object, l: object, legit: bool, now: int)
    requires Core(b) && c in b.clients && l in b.listed && b.clients[c].lobby != null && b.lobbies[l].count == 0
    ensures PlacedAs(JoinOwn(b, c, l, legit, now), b, c, LetIn(b.lobbies[l], b.clients[c], legit))
  {
    var me := b.clients[c];
    var b1 := PutClient(b, c, me.(override := false));
    EmptyTeamIsElsewhere(b, c, l);
    if LetIn(b.lobbies[l], me, legit) {
      RefusalIsExact(b.lobbies[l], me, legit);
      WelcomeOwn(b, c, l, legit, now);
      RelocatePlaces(b1, c, l, now, me.override);
      PlacesBefore(JoinOwn(b, c, l, legit, now), b1, b, c, true);
    } else {
      RefusedOwnStays(b, c, l, legit, now);
    }
  }

  lemma RefusedOwnStays(b: BlockState, c: object, l: object, legit: bool, now: int)
    requires Core(b) && c in b.clients && l in b.listed && b.clients[c].lobby != null && b.lobbies[l].count == 0
    requires b.clients[c].lobby != l && b.lobbies[l].count < b.lobbies[l].terms.maxClients
    requires !LetIn(b.lobbies[l], b.clients[c], legit)
    ensures var r := JoinOwn(b, c, l, legit, now); c in r.clients && r.clients[c].lobby == b.clients[c].lobby
  {
    if !b.clients[c].gcProtect {
      ChangeLobbyUnfolds(b, c, l, legit, now);
      RefusalIsExact(b.lobbies[l], b.clients[c], legit);
    }
  }

  lemma LaunchPlaces(b: BlockState, b1: BlockState, c: object, l: object, s: LobbyState, legit: bool, now: int)
    requires Core(b) && c in b.clients && b.clients[c].lobby != null && s.count == 0 && Core(Insert(b1, l, s))
    requires b1.lobbies == b.lobbies && c in b1.clients && l !in b.listed
    requires b1.clients[c].(created := null) == b.clients[c].(created := null)
    ensures l in Insert(b1, l, s).listed
    ensures PlacedAs(JoinOwn(Insert(b1, l, s), c, l, legit, now), b, c, LetIn(s, b.clients[c], legit))
  {
    var i := Insert(b1, l, s);
    assert i.listed[|b1.listed|] == l;
    Located(b, c);
    JoinOwnPlaces(i, c, l, legit, now);
    PlacesBefore(JoinOwn(i, c, l, legit, now), i, b, c, LetIn(s, i.clients[c], legit));
  }

  lemma StaysPut(b: BlockState, c: object)
    requires c in b.clients && b.clients[c].lobby != null
    ensures PlacedAs(b, b, c, false)
  {
  }

  lemma HoldPlaces(b: BlockState, b1: BlockState, c: object, l: object, s: LobbyState)
    requires c in b.clients && b.clients[c].lobby != null && b1.clients == b.clients
    ensures PlacedAs(Hold(b1, c, l, s), b, c, false)
  {
  }

  lemma SameLetIn(b: BlockState, c: object, p: GameRequest, id: nat, other: nat, legit: bool)
    requires c in b.clients
    ensures LetIn(NewGame(b, c, p, id), b.clients[c], legit) == LetIn(NewGame(b, c, p, other), b.clients[c], legit)
  {
  }

  lemma CreateGamePlaces(b: BlockState, c: object, l: object, p: GameRequest, legit: bool, now: int)
    requires Inv(b) && c in b.clients && b.clients[c].lobby != null
    requires l !in b.lobbies && GoodRequest(b.clients[c].version, p) && InRange(b.nextId) && HasFree(UsedIds(b))
    ensures PlacedAs(CreateGame(b, c, l, p, legit, now), b, c,
                     Founds(b, c, l, p) && LetIn(NewGame(b, c, p, b.nextId), b.clients[c], legit))
  {
    var me, id := b.clients[c], NextFree(UsedIds(b), b.nextId);
    var b1, s := b.(nextId := After(id)), NewGame(b, c, p, id);
    CreateGameUnfolds(b, c, l, p, legit, now);
    if me.level + 1 < RequiredLevel(p.difficulty) && !me.override {
      StaysPut(b, c);
    } else if Deferred(me.version, me.nte, p) {
      HoldPlaces(b, b1, c, l, s);
    } else {
      SameLetIn(b, c, p, id, b.nextId, legit);
      LaunchPlaces(b, b1, c, l, s, legit, now);
    }
  }

  lemma CreateEp3GamePlaces(b: BlockState, c: object, l: object, viewBattle: bool, legit: bool, now: int)
    requires Inv(b) && c in b.clients && b.clients[c].lobby != null && l !in b.lobbies
    ensures PlacedAs(CreateEp3Game(b, c, l, viewBattle, legit, now), b, c,
                     LetIn(NewEp3Game(b, c, viewBattle), b.clients[c], legit))
  {
    CreateEp3GameUnfolds(b, c, l, viewBattle, legit, now);
    LaunchPlaces(b, b, c, l, NewEp3Game(b, c, viewBattle), legit, now);
  }

  lemma ChosenLetIn(l: LobbyState, choice: nat, strayed: bool, me: ClientState, legit: bool)
    ensures LetIn(Chosen(l, choice, strayed), me, legit) == LetIn(Chosen(l, choice, false), me, legit)
  {
  }

  lemma SameButCreated(me: ClientState, s: LobbyState, legit: bool)
    ensures LetIn(s, me.(created := null), legit) == LetIn(s, me, legit)
  {
  }

  lemma PickPlaces(b: BlockState, c: object, choice: nat, legit: bool, now: int)
    requires Inv(b) && c in b.clients && b.clients[c].lobby != null && b.clients[c].created != null
    ensures b.clients[c].created in b.lobbies
    ensures PlacedAs(PickGameType(b, c, choice, legit, now), b, c,
                     LetIn(Chosen(b.lobbies[b.clients[c].created as object], choice, false), b.clients[c], legit))
  {
    var l := b.clients[c].created as object;
    var b1, s := PutClient(b, c, b.clients[c].(created := null)), Choice(b, c, choice);
    assert Sound(b.lobbies[l]) && l !in b.listed;
    PickUnfolds(b, c, choice, legit, now);
    ChosenLetIn(b.lobbies[l], choice, b.clients[c].lobby == null, b.clients[c], legit);
    LaunchPlaces(b, b1, c, l, s, legit, now);
  }

  lemma BuildPlaces(b: BlockState, c: object, t: Build)
    requires Inv(b) && c in b.clients && b.clients[c].lobby != null
    ensures PlacedAs(StepBuild(b, c, t), b, c, Shifts(b, Builds(c, t)))
  {
    StaysPut(b, c);
    match t
    case Create(team, p, legit, now) =>
      if team !in b.lobbies && GoodRequest(b.clients[c].version, p) && InRange(b.nextId) && HasFree(UsedIds(b)) {
        CreateGamePlaces(b, c, team, p, legit, now);
      }
    case CreateEp3(team, view, legit, now) =>
      if team !in b.lobbies && b.clients[c].version == EP3 { CreateEp3GamePlaces(b, c, team, view, legit, now); }
    case Pick(choice, legit, now) =>
      if b.clients[c].created != null { PickPlaces(b, c, choice, legit, now); }
  }

  lemma TravelPlaces(b: BlockState, c: object, t: Travel)
    requires Inv(b) && c in b.clients && b.clients[c].lobby != null && !t.Go? && !t.LeaveGame?
    ensures PlacedAs(StepTravel(b, c, t), b, c, Shifts(b, Travels(c, t)))
  {
    StaysPut(b, c);
    match t
    case Change(l, legit, now) =>
      if l in b.listed && !b.clients[c].gcProtect { ChangePlaces(b, c, l, legit, now); }
    case JoinTeam(l, legit, now) =>
      if l in b.listed && !b.clients[c].gcProtect { ChangePlaces(b, c, l, legit, now); }
    case _ =>
  }

  lemma SignalPlaces(b: BlockState, c: object, t: Signal)
    requires Core(b) && c in b.clients && b.clients[c].lobby != null
    ensures PlacedAs(StepSignal(b, c, t), b, c, false)
  {
    var after := StepSignal(b, c, t);
    match t
    case BurstDone(accepts) => assert after.clients[c].lobby == b.clients[c].lobby;
    case Ping(accepts) => assert after.clients[c].lobby == b.clients[c].lobby;
    case NteLoadDone => assert after.clients[c].lobby == b.clients[c].lobby;
    case SendPacket(_, _, _) => assert after.clients == b.clients;
    case SetOverride(on) =>
  }

  /** A request takes a client to another lobby exactly when it meets the condition. */
  lemma ShiftsExactly(b: BlockState, r: Request)
    requires Inv(b) && !r.Connects? && r.c in b.clients && b.clients[r.c].lobby != null && !Quits(b, r)
    ensures PlacedAs(Step(b, r), b, r.c, Shifts(b, r))
  {
    match r
    case Travels(c, t) => TravelPlaces(b, c, t);
    case Builds(c, t) => BuildPlaces(b, c, t);
    case Signals(c, t) => SignalPlaces(b, c, t);
    case Acts(c, a) => assert Step(b, r).clients == b.clients;
  }

  /** A client that quits leaves its lobby standing exactly if it was not the last member of a team. */
  lemma QuitsExactly(b: BlockState, r: Request)
    requires Inv(b) && Quits(b, r)
    ensures var l := b.clients[r.c].lobby as object; l in Step(b, r).lobbies <==> !LastMember(b, l)
    ensures r.c in Step(b, r).clients ==> Step(b, r).clients[r.c].lobby == null
  {
    RemovePlayerLeaves(b, r.c, r.travel.now, r.travel.accepts);
    RemovePlayerPlaces(b, r.c, r.travel.now, r.travel.accepts);
  }

  lemma RemovePlayerLeaves(b: BlockState, c: object, now: int, accepts: Packet -> bool)
    requires Inv(b) && c in b.clients && b.clients[c].lobby != null
    ensures var l, created, r := b.clients[c].lobby as object, b.clients[c].created, RemovePlayer(b, c, now, accepts);
            && (l in r.lobbies <==> !LastMember(b, l)) && l != created
            && forall x: object :: x != l ==>
                 (x in r.lobbies <==> x in b.lobbies) && (x in b.lobbies ==> r.lobbies[x] == b.lobbies[x])
  {
    Located(b, c);
    var l, slot := b.clients[c].lobby as object, b.clients[c].slot;
    var was := if b.clients[c].bursting then EndBurst(b.lobbies[l], accepts) else b.lobbies[l];
    LeaveFrame(was, slot, SeatsOf(was.slots, b.clients), now);
    assert !b.lobbies[l].history.pending;
  }
}
