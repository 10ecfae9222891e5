/**
  Leadership over whole runs: exactly which requests leave a lobby that is not empty without anybody in its leader
  seat.
 */
module Leadership {
  import opened Elections
  import opened LobbyRules
  import opened TeamIds
  import opened BlockRules
  import opened Moves
  import opened Teams
  import opened Runs
  import opened Departures

  ghost predicate WellLed(l: LobbyState) {
    l.count != 0 ==> LeaderPresent(l)
  }

  /** Every lobby that is not empty has somebody in its leader seat. */
  ghost predicate AllHaveLeaders(b: BlockState) {
    forall l: object {:trigger WellLed(b.lobbies[l])} :: l in b.lobbies ==> WellLed(b.lobbies[l])
  }

  // ---------------------------------------------------------------- who leaves nobody to lead

  /** Whoever is in `slot` leads, is not alone, and has no successor: nobody else joined at an earlier second, and
      slot 0 is not held by somebody else. */
  ghost predicate NoSuccessor(l: LobbyState, slot: nat, seats: seq<Seat>, now: int) {
    && slot == l.leader && l.count != 1 && !SomeoneEarlier(seats, l.leader, now)
    && !(l.leader != 0 && 0 < |l.slots| && l.slots[0] != null)
  }

  /** If `c` left now, its lobby would be left without a leader. */
  ghost predicate Abandons(b: BlockState, c: object, now: int) {
    && c in b.clients && b.clients[c].lobby != null && b.clients[c].lobby in b.lobbies
    && var s := b.lobbies[b.clients[c].lobby as object];
       NoSuccessor(s, b.clients[c].slot, SeatsOf(s.slots, b.clients), now)
  }

  /** The clock reading a request sees; those that make nobody leave need none. */
  function ClockOf(r: Request): int {
    match r
    case Travels(_, Go(now, _)) => now
    case Travels(_, LeaveGame(now, _)) => now
    case Travels(_, EnterAny(_, now)) => now
    case Travels(_, Change(_, _, now)) => now
    case Travels(_, JoinTeam(_, _, now)) => now
    case Builds(_, Create(_, _, _, now)) => now
    case Builds(_, CreateEp3(_, _, _, now)) => now
    case Builds(_, Pick(_, _, now)) => now
    case _ => 0
  }

  /** The request takes a leader without a successor away from the others. */
  ghost predicate Beheads(b: BlockState, r: Request) {
    (Shifts(b, r) || Quits(b, r)) && Abandons(b, r.c, ClockOf(r))
  }

  // ---------------------------------------------------------------- changes to one lobby

  /** One lobby has become something that is as well, or as badly, led. */
  lemma Swapped(p: map<object, LobbyState>, b: BlockState, after: BlockState, l: object, s: LobbyState)
    requires p == b.lobbies && after.lobbies == p[l := s]
    requires if l in p then WellLed(p[l]) == WellLed(s) else WellLed(s)
    ensures AllHaveLeaders(after) <==> AllHaveLeaders(b)
  {
    forall x: object | x != l && x in p ensures WellLed(after.lobbies[x]) == WellLed(p[x]) {
    }
    if AllHaveLeaders(after) {
      forall x: object | x in b.lobbies ensures WellLed(b.lobbies[x]) {
        assert WellLed(after.lobbies[x]);
      }
    }
    if AllHaveLeaders(b) {
      forall x: object | x in after.lobbies ensures WellLed(after.lobbies[x]) {
        assert x in b.lobbies ==> WellLed(b.lobbies[x]);
      }
    }
  }

  /** A lobby that was well led has gone. */
  lemma Dropped(b: BlockState, after: BlockState, l: object)
    requires after.lobbies == b.lobbies - {l} && (l in b.lobbies ==> WellLed(b.lobbies[l]))
    ensures AllHaveLeaders(after) <==> AllHaveLeaders(b)
  {
    if AllHaveLeaders(after) {
      forall x: object | x in b.lobbies ensures WellLed(b.lobbies[x]) {
        assert x != l ==> x in after.lobbies && WellLed(after.lobbies[x]);
      }
    }
    if AllHaveLeaders(b) {
      forall x: object | x in after.lobbies ensures WellLed(after.lobbies[x]) {
        assert WellLed(b.lobbies[x]);
      }
    }
  }

  lemma EmptiedGoes(b: BlockState, l: object)
    ensures AllHaveLeaders(DestroyIfEmpty(b, l)) <==> AllHaveLeaders(b)
  {
    if DestroyIfEmpty(b, l) != b {
      Dropped(b, Destroy(b, l), l);
    }
  }

  lemma EnteredIsLed(l: LobbyState, c: object, byOverride: bool)
    requires Shape(l) && Subscribed(l) && l.count < l.terms.maxClients && WellLed(l)
    ensures WellLed(Entered(l, c, byOverride))
  {
  }

  lemma BurstIsLed(b: BlockState, c: object, l: object)
    ensures AllHaveLeaders(Arrive(b, c, l)) <==> AllHaveLeaders(b)
  {
    var after := Arrive(b, c, l);
    if after != b {
      Swapped(b.lobbies, b, after, l, after.lobbies[l]);
    }
  }

  // ---------------------------------------------------------------- leaving and moving

  /** Getting up. */
  lemma PartHeads(b: BlockState, c: object, now: int)
    requires Core(b) && AllHaveLeaders(b) && c in b.clients && b.clients[c].lobby != null
    ensures var l, slot := b.clients[c].lobby as object, b.clients[c].slot;
            && l in b.lobbies && Subscribed(b.lobbies[l]) && slot < LOBBY_MAX_CLIENTS
            && (b.lobbies[l].terms.kind != DefaultLobby ==> slot < LOBBY_MAX_IN_TEAM)
            && (AllHaveLeaders(Part(b, c, slot, l, now)) <==> !Abandons(b, c, now))
  {
    Located(b, c);
    var l, slot := b.clients[c].lobby as object, b.clients[c].slot;
    var s, seats := b.lobbies[l], SeatsOf(b.lobbies[l].slots, b.clients);
    SeatsMatchSlots(b, l);
    assert WellLed(s);
    LeaveKeepsLeader(s, slot, seats, now);
    LeaveFrame(s, slot, seats, now);
    var after, left := Part(b, c, slot, l, now), Leave(s, slot, seats, now);
    assert after.lobbies == b.lobbies[l := left];
    if WellLed(left) {
      Swapped(b.lobbies, b, after, l, left);
    } else {
      assert !WellLed(after.lobbies[l]);
    }
  }

  /** Sitting down in a lobby that is well led. */
  lemma JoinHeads(b: BlockState, c: object, l: object, now: int, byOverride: bool)
    requires c in b.clients && l in b.lobbies && WellLed(b.lobbies[l])
    requires Shape(b.lobbies[l]) && Subscribed(b.lobbies[l]) && b.lobbies[l].count < b.lobbies[l].terms.maxClients
    ensures AllHaveLeaders(Join(b, c, l, now, byOverride)) <==> AllHaveLeaders(b)
  {
    var s := Entered(b.lobbies[l], c, byOverride);
    EnteredIsLed(b.lobbies[l], c, byOverride);
    Swapped(b.lobbies, b, Join(b, c, l, now, byOverride), l, s);
  }

  lemma RelocateHeads(b: BlockState, c: object, req: object, now: int, byOverride: bool)
    requires Core(b) && AllHaveLeaders(b) && c in b.clients && b.clients[c].lobby != null
    requires req in b.listed && req != b.clients[c].lobby && b.lobbies[req].count < b.lobbies[req].terms.maxClients
    ensures AllHaveLeaders(Relocate(b, c, req, now, byOverride)) <==> !Abandons(b, c, now)
  {
    MoveIsLeaveThenJoin(b, c, req, now, byOverride);
    PartHeads(b, c, now);
    PartKeepsOthers(b, c, now, req);
    var p := Part(b, c, b.clients[c].slot, b.clients[c].lobby, now);
    assert WellLed(b.lobbies[req]);
    JoinHeads(p, c, req, now, byOverride);
    var m := Move(b, c, req, now, byOverride);
    BurstIsLed(m, c, req);
    EmptiedGoes(Arrive(m, c, req), b.clients[c].lobby);
  }

  lemma AddToAnyHeads(b: BlockState, c: object, req: object?, now: int)
    requires Core(b) && AllHaveLeaders(b) && c in b.clients && (req != null ==> req in b.listed)
    ensures AllHaveLeaders(AddToAny(b, c, req, now).block)
  {
    var l := AnyLobby(b, c, req);
    if l != null {
      assert l in b.lobbies && Sound(b.lobbies[l]) && WellLed(b.lobbies[l]);
      JoinHeads(b, c, l, now, false);
    }
  }

  /** Whether a client would leave its lobby headless is a matter of its lobby and of the members' places. */
  lemma SameAbandons(b: BlockState, m: BlockState, c: object, now: int)
    requires c in b.clients && c in m.clients && b.clients[c].lobby == m.clients[c].lobby
    requires b.clients[c].slot == m.clients[c].slot
    requires b.clients[c].lobby != null ==>
               b.clients[c].lobby in b.lobbies && b.clients[c].lobby in m.lobbies &&
               SameSeats(b.lobbies[b.clients[c].lobby as object], m.lobbies[b.clients[c].lobby as object])
    requires forall d: object :: d in b.clients <==> d in m.clients
    requires forall d: object :: d in b.clients ==>
               b.clients[d].joinTime == m.clients[d].joinTime && b.clients[d].version == m.clients[d].version
    ensures Abandons(b, c, now) == Abandons(m, c, now)
  {
    if b.clients[c].lobby != null {
      var l := b.clients[c].lobby as object;
      assert SeatsOf(b.lobbies[l].slots, b.clients) == SeatsOf(m.lobbies[l].slots, m.clients);
    }
  }

  ghost predicate SameSeats(s: LobbyState, t: LobbyState) {
    t.slots == s.slots && t.count == s.count && t.leader == s.leader
  }

  lemma OwnChangeAbandons(b: BlockState, c: object, s: ClientState, now: int)
    requires Core(b) && c in b.clients && s.lobby == b.clients[c].lobby && s.slot == b.clients[c].slot
    requires s.joinTime == b.clients[c].joinTime && s.version == b.clients[c].version
    ensures Abandons(PutClient(b, c, s), c, now) == Abandons(b, c, now)
  {
    SameAbandons(b, PutClient(b, c, s), c, now);
  }

  lemma ChangeHeads(b: BlockState, c: object, req: object, legit: bool, now: int)
    requires Core(b) && AllHaveLeaders(b) && c in b.clients && req in b.listed && !b.clients[c].gcProtect
    ensures AllHaveLeaders(ChangeLobby(b, c, req, legit, now).block) <==>
              !(b.clients[c].lobby != null && ShiftsTo(b, b.clients[c], req, legit) && Abandons(b, c, now))
  {
    var me, l := b.clients[c], b.lobbies[req];
    var b1 := PutClient(b, c, me.(override := false));
    ChangeLobbyUnfolds(b, c, req, legit, now);
    assert AllHaveLeaders(b1);
    if me.lobby == null {
      AddToAnyHeads(b1, c, req, now);
    } else {
      RefusalIsExact(l, me, legit);
      if ShiftsTo(b, me, req, legit) {
        RelocateHeads(b1, c, req, now, me.override);
        OwnChangeAbandons(b, c, me.(override := false), now);
      } else if Refusal(l, me, legit) == 0 && me.lobby == req {
        BurstIsLed(b1, c, req);
      }
    }
  }

  lemma RemovePlayerHeads(b: BlockState, c: object, now: int, accepts: Packet -> bool)
    requires Inv(b) && AllHaveLeaders(b) && c in b.clients
    ensures AllHaveLeaders(RemovePlayer(b, c, now, accepts)) <==> !Abandons(b, c, now)
  {
    if b.clients[c].lobby != null {
      Located(b, c);
      var l, slot := b.clients[c].lobby as object, b.clients[c].slot;
      var b1 := if b.clients[c].bursting then Put(b, l, EndBurst(b.lobbies[l], accepts)) else b;
      EndBurstKeepsInv(b, l, accepts);
      Swapped(b.lobbies, b, Put(b, l, EndBurst(b.lobbies[l], accepts)), l, EndBurst(b.lobbies[l], accepts));
      SameAbandons(b, b1, c, now);
      PartHeads(b1, c, now);
      EmptiedGoes(Part(b1, c, slot, l, now), l);
    }
  }

  lemma DisconnectHeads(b: BlockState, c: object, now: int, accepts: Packet -> bool)
    requires Inv(b) && AllHaveLeaders(b) && c in b.clients
    ensures AllHaveLeaders(Disconnect(b, c, now, accepts)) <==> !Abandons(b, c, now)
  {
    var r := RemovePlayer(b, c, now, accepts);
    RemovePlayerHeads(b, c, now, accepts);
    RemovePlayerKeepsInv(b, c, now, accepts);
    RemovePlayerPlaces(b, c, now, accepts);
    var created := b.clients[c].created;
    if created != null {
      assert Sound(r.lobbies[created]);
      Dropped(r, Disconnect(b, c, now, accepts), created);
    }
  }

  // ---------------------------------------------------------------- new teams

  lemma JoinOwnHeads(b: BlockState, c: object, l: object, legit: bool, now: int)
    requires Core(b) && AllHaveLeaders(b) && c in b.clients && l in b.listed && b.lobbies[l].count == 0
    requires b.lobbies[l].terms.kind != DefaultLobby
    ensures AllHaveLeaders(JoinOwn(b, c, l, legit, now)) <==>
              !(b.clients[c].lobby != null && LetIn(b.lobbies[l], b.clients[c], legit) && Abandons(b, c, now))
  {
    var me, o := b.clients[c], JoinGame(b, c, l, legit, now);
    if me.gcProtect {
      Dropped(b, Destroy(b, l), l);
    } else {
      ChangeHeads(b, c, l, legit, now);
      if me.lobby != null {
        EmptyTeamIsElsewhere(b, c, l);
      }
      if o.rc != 0 {
        FailedOwnStays(b, c, l, legit, now);
        Dropped(o.block, Destroy(o.block, l), l);
      }
    }
  }

  lemma FailedOwnStays(b: BlockState, c: object, l: object, legit: bool, now: int)
    requires Core(b) && c in b.clients && l in b.listed && b.lobbies[l].count == 0 && !b.clients[c].gcProtect
    requires b.lobbies[l].terms.kind != DefaultLobby && JoinGame(b, c, l, legit, now).rc != 0
    ensures var r := JoinGame(b, c, l, legit, now).block; l in r.lobbies && r.lobbies[l] == b.lobbies[l]
  {
    ChangeLobbyUnfolds(b, c, l, legit, now);
    if b.clients[c].lobby != null {
      EmptyTeamIsElsewhere(b, c, l);
    }
  }

  lemma InsertHeads(b: BlockState, b1: BlockState, l: object, s: LobbyState)
    requires AllHaveLeaders(b) && b1.lobbies == b.lobbies && s.count == 0
    ensures AllHaveLeaders(Insert(b1, l, s))
  {
    var i := Insert(b1, l, s);
    forall x: object | x in i.lobbies ensures WellLed(i.lobbies[x]) {
      assert x != l ==> WellLed(b.lobbies[x]);
    }
  }

  lemma InsertAbandons(b: BlockState, i: BlockState, c: object, l: object, s: LobbyState, now: int)
    requires Core(b) && c in b.clients && l !in b.listed && i.lobbies == b.lobbies[l := s]
    requires i.clients == b.clients || i.clients == b.clients[c := b.clients[c].(created := null)]
    ensures Abandons(i, c, now) == Abandons(b, c, now)
  {
    if b.clients[c].lobby != null {
      Located(b, c);
    }
    SameAbandons(b, i, c, now);
  }

  lemma LaunchHeads(b: BlockState, b1: BlockState, c: object, l: object, s: LobbyState, legit: bool, now: int)
    requires Core(b) && AllHaveLeaders(b) && c in b.clients && s.count == 0 && s.terms.kind != DefaultLobby
    requires b1.lobbies == b.lobbies && c in b1.clients && l !in b.listed && Core(Insert(b1, l, s))
    requires b1.clients == b.clients || b1.clients == b.clients[c := b.clients[c].(created := null)]
    ensures l in Insert(b1, l, s).listed
    ensures AllHaveLeaders(JoinOwn(Insert(b1, l, s), c, l, legit, now)) <==>
              !(b.clients[c].lobby != null && LetIn(s, b.clients[c], legit) && Abandons(b, c, now))
  {
    var i := Insert(b1, l, s);
    assert i.listed[|b1.listed|] == l;
    InsertHeads(b, b1, l, s);
    InsertAbandons(b, i, c, l, s, now);
    JoinOwnHeads(i, c, l, legit, now);
    SameButCreated(b.clients[c], s, legit);
  }

  lemma HoldHeads(b: BlockState, b1: BlockState, c: object, l: object, s: LobbyState)
    requires AllHaveLeaders(b) && b1.lobbies == b.lobbies && c in b1.clients && l !in b.lobbies && s.count == 0
    ensures AllHaveLeaders(Hold(b1, c, l, s))
  {
    Swapped(b.lobbies, b, Hold(b1, c, l, s), l, s);
  }

  lemma CreateGameHeads(b: BlockState, c: object, l: object, p: GameRequest, legit: bool, now: int)
    requires Inv(b) && AllHaveLeaders(b) && c in b.clients
    requires l !in b.lobbies && GoodRequest(b.clients[c].version, p) && InRange(b.nextId) && HasFree(UsedIds(b))
    ensures AllHaveLeaders(CreateGame(b, c, l, p, legit, now)) <==>
              !(b.clients[c].lobby != null && Founds(b, c, l, p) &&
                LetIn(NewGame(b, c, p, b.nextId), b.clients[c], legit) && Abandons(b, c, now))
  {
    var me, id := b.clients[c], NextFree(UsedIds(b), b.nextId);
    var b1, s := b.(nextId := After(id)), NewGame(b, c, p, id);
    CreateGameUnfolds(b, c, l, p, legit, now);
    if me.level + 1 < RequiredLevel(p.difficulty) && !me.override {
    } else if Deferred(me.version, me.nte, p) {
      HoldHeads(b, b1, c, l, s);
    } else {
      SameLetIn(b, c, p, id, b.nextId, legit);
      LaunchHeads(b, b1, c, l, s, legit, now);
    }
  }

  lemma CreateEp3GameHeads(b: BlockState, c: object, l: object, viewBattle: bool, legit: bool, now: int)
    requires Inv(b) && AllHaveLeaders(b) && c in b.clients && l !in b.lobbies
    ensures AllHaveLeaders(CreateEp3Game(b, c, l, viewBattle, legit, now)) <==>
              !(b.clients[c].lobby != null && LetIn(NewEp3Game(b, c, viewBattle), b.clients[c], legit) &&
                Abandons(b, c, now))
  {
    CreateEp3GameUnfolds(b, c, l, viewBattle, legit, now);
    LaunchHeads(b, b, c, l, NewEp3Game(b, c, viewBattle), legit, now);
  }

  lemma PickHeads(b: BlockState, c: object, choice: nat, legit: bool, now: int)
    requires Inv(b) && AllHaveLeaders(b) && c in b.clients && b.clients[c].created != null
    ensures b.clients[c].created in b.lobbies
    ensures var s := Chosen(b.lobbies[b.clients[c].created as object], choice, false);
            AllHaveLeaders(PickGameType(b, c, choice, legit, now)) <==>
              !(b.clients[c].lobby != null && LetIn(s, b.clients[c], legit) && Abandons(b, c, now))
  {
    var l := b.clients[c].created as object;
    var b1, s := PutClient(b, c, b.clients[c].(created := null)), Choice(b, c, choice);
    assert Sound(b.lobbies[l]) && l !in b.listed;
    PickUnfolds(b, c, choice, legit, now);
    ChosenLetIn(b.lobbies[l], choice, b.clients[c].lobby == null, b.clients[c], legit);
    LaunchHeads(b, b1, c, l, s, legit, now);
  }

  // ---------------------------------------------------------------- every request

  lemma CreateHeads(b: BlockState, c: object, t: Build)
    requires Inv(b) && AllHaveLeaders(b) && c in b.clients && t.Create?
    ensures AllHaveLeaders(StepBuild(b, c, t)) <==> !Beheads(b, Builds(c, t))
  {
    var team, p := t.team, t.game;
    if team !in b.lobbies && GoodRequest(b.clients[c].version, p) && InRange(b.nextId) && HasFree(UsedIds(b)) {
      CreateGameHeads(b, c, team, p, t.legit, t.now);
    }
  }

  lemma Ep3Beheads(b: BlockState, c: object, t: Build)
    requires c in b.clients && t.CreateEp3?
    ensures Beheads(b, Builds(c, t)) <==>
              && b.clients[c].lobby != null && t.team !in b.lobbies && b.clients[c].version == EP3
              && LetIn(NewEp3Game(b, c, t.viewBattle), b.clients[c], t.legit) && Abandons(b, c, t.now)
  {
  }

  lemma CreateEp3Heads(b: BlockState, c: object, t: Build)
    requires Inv(b) && AllHaveLeaders(b) && c in b.clients && t.CreateEp3?
    ensures AllHaveLeaders(StepBuild(b, c, t)) <==> !Beheads(b, Builds(c, t))
  {
    Ep3Beheads(b, c, t);
    if t.team !in b.lobbies && b.clients[c].version == EP3 {
      CreateEp3GameHeads(b, c, t.team, t.viewBattle, t.legit, t.now);
      assert StepBuild(b, c, t) == CreateEp3Game(b, c, t.team, t.viewBattle, t.legit, t.now);
    } else {
      assert StepBuild(b, c, t) == b;
    }
  }

  lemma PickBeheads(b: BlockState, c: object, t: Build)
    requires c in b.clients && t.Pick?
    ensures var me := b.clients[c];
            Beheads(b, Builds(c, t)) <==>
              && me.lobby != null && me.created != null && me.created in b.lobbies
              && LetIn(Chosen(b.lobbies[me.created as object], t.choice, false), me, t.legit) && Abandons(b, c, t.now)
  {
  }

  lemma PickingHeads(b: BlockState, c: object, t: Build)
    requires Inv(b) && AllHaveLeaders(b) && c in b.clients && t.Pick?
    ensures AllHaveLeaders(StepBuild(b, c, t)) <==> !Beheads(b, Builds(c, t))
  {
    PickBeheads(b, c, t);
    if b.clients[c].created != null {
      PickHeads(b, c, t.choice, t.legit, t.now);
      assert StepBuild(b, c, t) == PickGameType(b, c, t.choice, t.legit, t.now);
    } else {
      assert StepBuild(b, c, t) == b;
    }
  }

  lemma BuildHeads(b: BlockState, c: object, t: Build)
    requires Inv(b) && AllHaveLeaders(b) && c in b.clients
    ensures AllHaveLeaders(StepBuild(b, c, t)) <==> !Beheads(b, Builds(c, t))
  {
    match t
    case Create(_, _, _, _) => CreateHeads(b, c, t);
    case CreateEp3(_, _, _, _) => CreateEp3Heads(b, c, t);
    case Pick(_, _, _) => PickingHeads(b, c, t);
  }

  lemma LeavingHeads(b: BlockState, c: object, t: Travel)
    requires Inv(b) && AllHaveLeaders(b) && c in b.clients && (t.Go? || t.LeaveGame?)
    ensures AllHaveLeaders(StepTravel(b, c, t)) <==> !Beheads(b, Travels(c, t))
  {
    if t.Go? {
      DisconnectHeads(b, c, t.now, t.accepts);
    } else {
      RemovePlayerHeads(b, c, t.now, t.accepts);
    }
  }

  lemma AskedHeads(b: BlockState, c: object, t: Travel)
    requires Inv(b) && AllHaveLeaders(b) && c in b.clients && (t.Change? || t.JoinTeam?)
    ensures AllHaveLeaders(StepTravel(b, c, t)) <==>
              !(b.clients[c].lobby != null && ShiftsTo(b, b.clients[c], t.lobby, t.legit) && Abandons(b, c, t.now))
  {
    if t.lobby in b.listed && !b.clients[c].gcProtect {
      ChangeHeads(b, c, t.lobby, t.legit, t.now);
    }
  }

  lemma ChangingHeads(b: BlockState, c: object, t: Travel)
    requires Inv(b) && AllHaveLeaders(b) && c in b.clients && (t.Change? || t.JoinTeam?)
    ensures AllHaveLeaders(StepTravel(b, c, t)) <==> !Beheads(b, Travels(c, t))
  {
    var after := StepTravel(b, c, t);
    AskedHeads(b, c, t);
    AskedBeheads(b, c, t);
  }

  lemma AskedBeheads(b: BlockState, c: object, t: Travel)
    requires c in b.clients && (t.Change? || t.JoinTeam?)
    ensures Beheads(b, Travels(c, t)) <==>
              b.clients[c].lobby != null && ShiftsTo(b, b.clients[c], t.lobby, t.legit) && Abandons(b, c, t.now)
  {
  }

  lemma TravelHeads(b: BlockState, c: object, t: Travel)
    requires Inv(b) && AllHaveLeaders(b) && c in b.clients
    ensures AllHaveLeaders(StepTravel(b, c, t)) <==> !Beheads(b, Travels(c, t))
  {
    if t.EnterAny? {
      if t.wish != null ==> t.wish in b.listed {
        AddToAnyHeads(b, c, t.wish, t.now);
      }
    } else if t.Go? || t.LeaveGame? {
      LeavingHeads(b, c, t);
    } else {
      ChangingHeads(b, c, t);
    }
  }

  /** A change inside a lobby that leaves its members and its leader alone. */
  lemma WithinHeads(b: BlockState, l: object, s: LobbyState, after: BlockState)
    requires l in b.lobbies && SameSeats(b.lobbies[l], s) && after.lobbies == b.lobbies[l := s]
    ensures AllHaveLeaders(after) <==> AllHaveLeaders(b)
  {
    Swapped(b.lobbies, b, after, l, s);
  }

  lemma SignalWithin(b: BlockState, c: object, t: Signal, l: object)
    requires Core(b) && c in b.clients && l == b.clients[c].lobby && StepSignal(b, c, t).lobbies != b.lobbies
    ensures l in b.lobbies && l in StepSignal(b, c, t).lobbies
    ensures var s := StepSignal(b, c, t).lobbies[l];
            SameSeats(b.lobbies[l], s) && StepSignal(b, c, t).lobbies == b.lobbies[l := s]
  {
  }

  lemma SignalHeads(b: BlockState, c: object, t: Signal)
    requires Core(b) && AllHaveLeaders(b) && c in b.clients
    ensures AllHaveLeaders(StepSignal(b, c, t))
  {
    var after := StepSignal(b, c, t);
    if after.lobbies != b.lobbies {
      var l := b.clients[c].lobby as object;
      SignalWithin(b, c, t, l);
      WithinHeads(b, l, after.lobbies[l], after);
    }
  }

  lemma ApplyKeepsSeats(l: LobbyState, clients: map<object, ClientState>, c: object, slot: nat, a: Action)
    ensures SameSeats(l, Apply(l, clients, c, slot, a))
  {
  }

  lemma ActionHeads(b: BlockState, c: object, a: Action)
    requires Core(b) && AllHaveLeaders(b) && c in b.clients
    ensures AllHaveLeaders(StepAction(b, c, a))
  {
    var me := b.clients[c];
    if me.lobby != null && me.lobby in b.lobbies {
      var l := me.lobby as object;
      ApplyKeepsSeats(b.lobbies[l], b.clients, c, me.slot, a);
      WithinHeads(b, l, Apply(b.lobbies[l], b.clients, c, me.slot, a), StepAction(b, c, a));
    }
  }

  /** From a block in which every lobby that is not empty has a leader, a request leads to such a block exactly when it
      does not take a leader without a successor away from others. */
  lemma StepKeepsLeaders(b: BlockState, r: Request)
    requires Inv(b) && AllHaveLeaders(b)
    ensures AllHaveLeaders(Step(b, r)) <==> !Beheads(b, r)
  {
    if r.Connects? {
      assert Step(b, r).lobbies == b.lobbies;
    } else if r.c in b.clients {
      match r
      case Travels(c, t) => TravelHeads(b, c, t);
      case Builds(c, t) => BuildHeads(b, c, t);
      case Signals(c, t) => SignalHeads(b, c, t);
      case Acts(c, a) => ActionHeads(b, c, a);
    }
  }

  // ---------------------------------------------------------------- runs

  ghost predicate AlwaysLed(states: seq<BlockState>) {
    forall i :: 0 <= i < |states| ==> AllHaveLeaders(states[i])
  }

  ghost predicate NeverBeheads(states: seq<BlockState>, requests: seq<Request>) {
    forall i :: 0 <= i < |requests| && i < |states| ==> !Beheads(states[i], requests[i])
  }

  lemma {:induction false} LedUpTo(states: seq<BlockState>, requests: seq<Request>, i: nat)
    requires IsRun(states, requests) && Inv(states[0]) && AllHaveLeaders(states[0]) && i < |states|
    requires NeverBeheads(states, requests)
    ensures AllHaveLeaders(states[i])
  {
    if i > 0 {
      var k := i - 1;
      LedUpTo(states, requests, k);
      RunKeepsInv(states, requests, k);
      assert Next(states[k], requests[k], states[k + 1]);
      StepKeepsLeaders(states[k], requests[k]);
    }
  }

  /** In a run from the opening of the block, every lobby that is not empty has somebody in its leader seat all along
      exactly when no request takes a leader without a successor away from others. */
  lemma RunsHaveLeadersExactly(refs: seq<object>, states: seq<BlockState>, requests: seq<Request>)
    requires Distinct(refs) && IsRun(states, requests) && states[0] == Opened(refs)
    ensures AlwaysLed(states) <==> NeverBeheads(states, requests)
  {
    OpenedInv(refs);
    OpenedLed(refs);
    if NeverBeheads(states, requests) {
      forall i | 0 <= i < |states| ensures AllHaveLeaders(states[i]) {
        LedUpTo(states, requests, i);
      }
    }
    if AlwaysLed(states) {
      forall i | 0 <= i < |requests| ensures !Beheads(states[i], requests[i]) {
        RunKeepsInv(states, requests, i);
        var next := i + 1;
        assert AllHaveLeaders(states[i]) && AllHaveLeaders(states[next]);
        assert Next(states[i], requests[i], states[next]);
        StepKeepsLeaders(states[i], requests[i]);
      }
    }
  }

  lemma {:induction false} OpenedLed(refs: seq<object>)
    ensures AllHaveLeaders(Opened(refs))
  {
    if refs != [] {
      var init, last := refs[..|refs| - 1], refs[|refs| - 1];
      OpenedLed(init);
      var s := NewDefaultLobby(|refs|);
      forall l: object | l in Opened(refs).lobbies ensures WellLed(Opened(refs).lobbies[l]) {
        assert l != last ==> WellLed(Opened(init).lobbies[l]);
      }
    }
  }

  // ---------------------------------------------------------------- time passes

  /** Everybody who is in a lobby got there before `now`. */
  ghost predicate ClockAhead(b: BlockState, now: int) {
    forall c <- b.clients | b.clients[c].lobby != null :: b.clients[c].joinTime < now
  }

  /** Whoever leaves does so later than everybody joined. */
  ghost predicate Timely(b: BlockState, r: Request) {
    Shifts(b, r) || Quits(b, r) ==> ClockAhead(b, ClockOf(r))
  }

  /** With time having passed there always is a successor. */
  lemma TimelyHasSuccessor(b: BlockState, c: object, now: int)
    requires Inv(b) && c in b.clients && ClockAhead(b, now)
    ensures !Abandons(b, c, now)
  {
    if b.clients[c].lobby != null {
      Located(b, c);
      var l, slot := b.clients[c].lobby as object, b.clients[c].slot;
      var s := b.lobbies[l];
      var seats, others := SeatsOf(s.slots, b.clients), s.slots[slot := null];
      SeatedUpdate(s.slots, slot, null);
      SeatedZero(others);
      if s.count != 1 {
        var i :| 0 <= i < |others| && others[i] != null;
        assert b.clients[s.slots[i] as object].lobby == l;
        assert slot == s.leader ==> Eligible(seats, s.leader, now, false, i);
      }
    }
  }

  /** In a run in which time passes between each join and the next departure, every lobby that is not empty has
      somebody in its leader seat. */
  lemma TimelyRunsHaveLeaders(refs: seq<object>, states: seq<BlockState>, requests: seq<Request>)
    requires Distinct(refs) && IsRun(states, requests) && states[0] == Opened(refs)
    requires forall i :: 0 <= i < |requests| ==> Timely(states[i], requests[i])
    ensures AlwaysLed(states)
  {
    OpenedInv(refs);
    forall i | 0 <= i < |requests| && i < |states| ensures !Beheads(states[i], requests[i]) {
      RunKeepsInv(states, requests, i);
      if Shifts(states[i], requests[i]) || Quits(states[i], requests[i]) {
        TimelyHasSuccessor(states[i], requests[i].c, ClockOf(requests[i]));
      }
    }
    RunsHaveLeadersExactly(refs, states, requests);
  }
}
