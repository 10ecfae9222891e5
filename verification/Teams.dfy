/**
  Making and unmaking teams, bursts, quests and the leader's commands, as functions on a block's state
  (src/lobby.c, src/block.c, src/commands.c, src/quest_functions.c).
 */
module Teams {
  import opened Elections
  import opened LobbyRules
  import opened TeamIds
  import opened BlockRules
  import opened Moves

  // ---------------------------------------------------------------- leaving altogether

  /** A client leaves its lobby without entering another; a burst it leaves behind is over. */
  ghost function RemovePlayer(b: BlockState, c: object, now: int, accepts: Packet -> bool): BlockState
    requires Core(b) && c in b.clients
  {
    if b.clients[c].lobby == null then b
    else
      var l := b.clients[c].lobby as object;
      Located(b, c);
      var b1 := if b.clients[c].bursting then Put(b, l, EndBurst(b.lobbies[l], accepts)) else b;
      DestroyIfEmpty(Part(b1, c, b.clients[c].slot, l, now), l)
  }

  lemma EndBurstKeepsInv(b: BlockState, l: object, accepts: Packet -> bool)
    requires Inv(b) && l in b.lobbies
    ensures Inv(Put(b, l, EndBurst(b.lobbies[l], accepts)))
  {
    assert Sound(b.lobbies[l]);
    EndBurstKeepsSound(b.lobbies[l], accepts);
    PutFlagsKeepsInv(b, l, EndBurst(b.lobbies[l], accepts), {});
  }

  lemma PartAndDestroyKeepsInv(b: BlockState, c: object, now: int)
    requires Inv(b) && c in b.clients && b.clients[c].lobby != null
    ensures var l, slot := b.clients[c].lobby as object, b.clients[c].slot;
            && l in b.lobbies && Subscribed(b.lobbies[l]) && slot < LOBBY_MAX_CLIENTS
            && (b.lobbies[l].terms.kind != DefaultLobby ==> slot < LOBBY_MAX_IN_TEAM)
            && Inv(DestroyIfEmpty(Part(b, c, slot, l, now), l))
  {
    Located(b, c);
    PartKeepsCore(b, c, now);
    PartKeepsInhabited(b, c, now, {});
    var l, slot := b.clients[c].lobby as object, b.clients[c].slot;
    assert {} + {l} == {l};
    DestroyIfEmptyKeepsInv(Part(b, c, slot, l, now), l);
  }

  lemma RemovePlayerKeepsInv(b: BlockState, c: object, now: int, accepts: Packet -> bool)
    requires Inv(b) && c in b.clients
    ensures Inv(RemovePlayer(b, c, now, accepts))
  {
    if b.clients[c].lobby != null {
      Located(b, c);
      var l := b.clients[c].lobby as object;
      if b.clients[c].bursting {
        EndBurstKeepsInv(b, l, accepts);
        PartAndDestroyKeepsInv(Put(b, l, EndBurst(b.lobbies[l], accepts)), c, now);
      } else {
        PartAndDestroyKeepsInv(b, c, now);
      }
    }
  }

  /** The only client whose state changes is the one that leaves, and it ends up nowhere. */
  lemma RemovePlayerPlaces(b: BlockState, c: object, now: int, accepts: Packet -> bool)
    requires Core(b) && c in b.clients
    ensures var r := RemovePlayer(b, c, now, accepts);
            r.clients == if b.clients[c].lobby == null then b.clients
                         else b.clients[c := b.clients[c].(lobby := null, slot := 0)]
  {
    if b.clients[c].lobby != null {
      Located(b, c);
    }
  }

  /** A client comes to the block. */
  ghost function Connect(b: BlockState, c: object, version: Version, nte: bool, gcProtect: bool, level: nat,
                         lateClass: bool): BlockState {
    PutClient(b, c, ClientState(version, nte, gcProtect, level, lateClass, null, 0, 0, false, false, false, null))
  }

  lemma ConnectKeepsInv(b: BlockState, c: object, version: Version, nte: bool, gcProtect: bool, level: nat,
                        lateClass: bool)
    requires Inv(b) && c !in b.clients
    ensures Inv(Connect(b, c, version, nte, gcProtect, level, lateClass))
  {
    var r := Connect(b, c, version, nte, gcProtect, level, lateClass);
    ConnectKeepsSeating(b, c, r.clients[c]);
    ConnectKeepsDeferring(b, c, r.clients[c]);
    ConnectKeepsAdmission(b, c, r.clients[c]);
  }

  lemma ConnectKeepsSeating(b: BlockState, c: object, s: ClientState)
    requires Seating(b) && c !in b.clients && s.lobby == null
    ensures Seating(PutClient(b, c, s))
  {
  }

  lemma ConnectKeepsDeferring(b: BlockState, c: object, s: ClientState)
    requires Deferring(b) && c !in b.clients && s.created == null
    ensures Deferring(PutClient(b, c, s))
  {
  }

  lemma ConnectKeepsAdmission(b: BlockState, c: object, s: ClientState)
    requires Seating(b) && AllAdmitted(b) && c !in b.clients
    ensures AllAdmitted(PutClient(b, c, s))
  {
  }

  /** A client goes: out of its lobby, off the block, and with it a team it never listed. */
  ghost function Disconnect(b: BlockState, c: object, now: int, accepts: Packet -> bool): BlockState
    requires Core(b) && c in b.clients
  {
    Forget(RemovePlayer(b, c, now, accepts), c)
  }

  ghost function Forget(b: BlockState, c: object): BlockState {
    if c !in b.clients then b
    else b.(clients := b.clients - {c},
            lobbies := if b.clients[c].created != null then b.lobbies - {b.clients[c].created as object} else b.lobbies)
  }

  lemma ForgetKeepsSeating(b: BlockState, c: object)
    requires Seating(b) && Listing(b) && Deferring(b) && c in b.clients && b.clients[c].lobby == null
    ensures Seating(Forget(b, c))
  {
  }

  lemma ForgetKeepsRegistry(b: BlockState, c: object)
    requires Listing(b) && Deferring(b) && c in b.clients
    ensures Listing(Forget(b, c)) && Deferring(Forget(b, c))
  {
    GamesSame(b.listed, b.lobbies, Forget(b, c).lobbies);
  }

  lemma ForgetKeepsInv(b: BlockState, c: object)
    requires Inv(b) && c in b.clients && b.clients[c].lobby == null
    ensures Inv(Forget(b, c))
  {
    ForgetKeepsSeating(b, c);
    ForgetKeepsRegistry(b, c);
    var r := Forget(b, c);
    assert AllSound(r);
    assert AllAdmitted(r);
  }

  lemma DisconnectKeepsInv(b: BlockState, c: object, now: int, accepts: Packet -> bool)
    requires Inv(b) && c in b.clients
    ensures Inv(Disconnect(b, c, now, accepts)) && c !in Disconnect(b, c, now, accepts).clients
  {
    RemovePlayerKeepsInv(b, c, now, accepts);
    RemovePlayerPlaces(b, c, now, accepts);
    ForgetKeepsInv(RemovePlayer(b, c, now, accepts), c);
  }

  // ---------------------------------------------------------------- creating teams

  datatype GameRequest = GameRequest(difficulty: nat, battle: bool, challenge: bool, v2: bool, singlePlayer: bool,
                                     legitMode: bool)

  ghost function UsedIds(b: BlockState): set<nat> {
    set i | 0 <= i < |b.listed| && b.listed[i] in b.lobbies :: b.lobbies[b.listed[i]].terms.lobbyId
  }

  /** The version a team gets from its creator's; Xbox counts as Gamecube, and V2 may ask for V1. */
  function TeamVersion(version: Version, v2: bool): Version {
    if version == Xbox then GC else if version == DCv2 && !v2 then DCv1 else version
  }

  /** A PC team whose creator is still to be asked about version 1 compatibility. */
  predicate Deferred(version: Version, nte: bool, p: GameRequest) {
    version == PC && !p.battle && !p.challenge && p.difficulty != 3 && !nte
  }

  ghost predicate GoodRequest(version: Version, p: GameRequest) {
    p.difficulty < 4 && (p.singlePlayer ==> version == BB)
  }

  ghost function JoinGame(b: BlockState, c: object, l: object, legit: bool, now: int): Outcome
    requires Core(b) && c in b.clients && l in b.listed
  {
    if b.clients[c].gcProtect then Outcome(b, -1) else ChangeLobby(b, c, l, legit, now)
  }

  /** The creator joins the team just listed; if that fails the team is destroyed. */
  ghost function JoinOwn(b: BlockState, c: object, l: object, legit: bool, now: int): BlockState
    requires Core(b) && c in b.clients && l in b.listed
  {
    var o := JoinGame(b, c, l, legit, now);
    if o.rc != 0 then Destroy(o.block, l) else o.block
  }

  lemma FailureKeepsList(b: BlockState, c: object, l: object, legit: bool, now: int)
    requires Core(b) && c in b.clients && l in b.listed
    ensures JoinGame(b, c, l, legit, now).rc != 0 ==> JoinGame(b, c, l, legit, now).block.listed == b.listed
  {
    if !b.clients[c].gcProtect {
      ChangeLobbyUnfolds(b, c, l, legit, now);
      var me := b.clients[c];
      FailedDecision(PutClient(b, c, me.(override := false)), c, l, Refusal(b.lobbies[l], me, legit), me.override, now);
    }
  }

  lemma FailedDecision(b: BlockState, c: object, l: object, refusal: int, byOverride: bool, now: int)
    requires Core(b) && c in b.clients && l in b.listed
    ensures Decide(b, c, l, refusal, byOverride, now).rc != 0 ==>
              Decide(b, c, l, refusal, byOverride, now).block.listed == b.listed
  {
    if b.clients[c].lobby == null {
    } else if refusal != 0 {
    } else if b.clients[c].lobby == l || b.lobbies[l].count < b.lobbies[l].terms.maxClients {
      assert Decide(b, c, l, refusal, byOverride, now).rc == 0;
    }
  }

  function GameTerms(p: GameRequest, id: nat): Terms {
    Terms(id, Game, if p.singlePlayer then 1 else 4, p.difficulty, p.battle, p.challenge, p.legitMode)
  }

  ghost function NewGame(b: BlockState, c: object, p: GameRequest, id: nat): LobbyState
    requires c in b.clients
  {
    var me := b.clients[c];
    var s := NewLobby(GameTerms(p, id), TeamVersion(me.version, p.v2), p.v2, p.singlePlayer,
                      Deferred(me.version, me.nte, p));
    s.(history := s.history.(strayed := me.lobby == null))
  }

  ghost function CreateGame(b: BlockState, c: object, l: object, p: GameRequest, legit: bool, now: int): BlockState
    requires Core(b) && c in b.clients && l !in b.lobbies && GoodRequest(b.clients[c].version, p)
    requires InRange(b.nextId) && HasFree(UsedIds(b))
  {
    var me := b.clients[c];
    if me.level + 1 < RequiredLevel(p.difficulty) && !me.override then b
    else
      var id := NextFree(UsedIds(b), b.nextId);
      var b1 := b.(nextId := After(id));
      var s := NewGame(b, c, p, id);
      NewGameKeepsCore(b1, c, l, p, id);
      if Deferred(me.version, me.nte, p) then Hold(b1, c, l, s)
      else JoinOwn(Insert(b1, l, s), c, l, legit, now)
  }

  lemma CreateGameUnfolds(b: BlockState, c: object, l: object, p: GameRequest, legit: bool, now: int)
    requires Core(b) && c in b.clients && l !in b.lobbies && GoodRequest(b.clients[c].version, p)
    requires InRange(b.nextId) && HasFree(UsedIds(b))
    ensures var me := b.clients[c];
            var id := NextFree(UsedIds(b), b.nextId);
            var b1, s := b.(nextId := After(id)), NewGame(b, c, p, id);
            && l !in b1.lobbies && l !in b1.listed
            && (!Deferred(me.version, me.nte, p) ==> Core(Insert(b1, l, s)))
            && CreateGame(b, c, l, p, legit, now) ==
               if me.level + 1 < RequiredLevel(p.difficulty) && !me.override then b
               else if Deferred(me.version, me.nte, p) then Hold(b1, c, l, s)
               else JoinOwn(Insert(b1, l, s), c, l, legit, now)
  {
    var id := NextFree(UsedIds(b), b.nextId);
    NewGameKeepsCore(b.(nextId := After(id)), c, l, p, id);
  }

  /** Keep a team unlisted until its creator has answered. */
  ghost function Hold(b: BlockState, c: object, l: object, s: LobbyState): BlockState
    requires c in b.clients
  {
    b.(lobbies := b.lobbies[l := s], clients := b.clients[c := b.clients[c].(created := l)])
  }

  lemma NewGameSound(b: BlockState, c: object, p: GameRequest, id: nat)
    requires c in b.clients && GoodRequest(b.clients[c].version, p)
    ensures Sound(NewGame(b, c, p, id)) && NewGame(b, c, p, id).count == 0
  {
    var me := b.clients[c];
    var version, deferred := TeamVersion(me.version, p.v2), Deferred(me.version, me.nte, p);
    NewLobbySound(GameTerms(p, id), version, p.v2, p.singlePlayer, deferred);
    StrayKeepsSound(NewLobby(GameTerms(p, id), version, p.v2, p.singlePlayer, deferred), me.lobby == null);
  }

  lemma StrayKeepsSound(l: LobbyState, strayed: bool)
    requires Sound(l)
    ensures Sound(l.(history := l.history.(strayed := strayed)))
  {
  }

  lemma NewGameKeepsCore(b: BlockState, c: object, l: object, p: GameRequest, id: nat)
    requires Core(b) && c in b.clients && l !in b.lobbies && GoodRequest(b.clients[c].version, p)
    ensures !Deferred(b.clients[c].version, b.clients[c].nte, p) ==> Core(Insert(b, l, NewGame(b, c, p, id)))
  {
    NewGameSound(b, c, p, id);
    if !Deferred(b.clients[c].version, b.clients[c].nte, p) {
      InsertKeepsCore(b, l, NewGame(b, c, p, id));
    }
  }

  lemma HoldKeepsSeating(b: BlockState, c: object, l: object, s: LobbyState)
    requires Seating(b) && Listing(b) && c in b.clients && l !in b.lobbies
    requires forall i :: 0 <= i < |s.slots| ==> s.slots[i] == null
    ensures Seating(Hold(b, c, l, s))
  {
  }

  lemma HoldKeepsRegistry(b: BlockState, c: object, l: object, s: LobbyState)
    requires Listing(b) && Deferring(b) && c in b.clients && l !in b.lobbies
    requires s.history.pending && s.terms.kind == Game
    ensures Listing(Hold(b, c, l, s)) && Deferring(Hold(b, c, l, s))
  {
    GamesSame(b.listed, b.lobbies, b.lobbies[l := s]);
  }

  lemma HoldKeepsInv(b: BlockState, c: object, l: object, s: LobbyState)
    requires Inv(b) && c in b.clients && l !in b.lobbies && Sound(s) && s.count == 0 && s.history.pending
    requires s.terms.kind == Game
    ensures Inv(Hold(b, c, l, s))
  {
    SeatedZero(s.slots);
    HoldKeepsSeating(b, c, l, s);
    HoldKeepsRegistry(b, c, l, s);
    HoldKeepsAdmission(b, c, l, s);
  }

  lemma HoldKeepsAdmission(b: BlockState, c: object, l: object, s: LobbyState)
    requires AllAdmitted(b) && AllSound(b) && c in b.clients && l !in b.lobbies && Sound(s)
    requires forall i :: 0 <= i < |s.slots| ==> s.slots[i] == null
    ensures AllAdmitted(Hold(b, c, l, s)) && AllSound(Hold(b, c, l, s))
  {
  }

  /** Joining the team one has just made: it ends up inhabited, destroyed, or known to be strayed from. */
  lemma JoinOwnKeepsInv(b: BlockState, c: object, l: object, legit: bool, now: int)
    requires Core(b) && InhabitedBut(b, {l}) && c in b.clients && l in b.listed
    requires b.lobbies[l].terms.kind != DefaultLobby && b.lobbies[l].count == 0
    requires b.clients[c].lobby == null ==> b.lobbies[l].history.strayed
    ensures Inv(JoinOwn(b, c, l, legit, now))
  {
    var me := b.clients[c];
    var b0 := PutClient(b, c, me.(override := false));
    PutClientKeepsCore(b, c, me.(override := false));
    assert InhabitedBut(b0, {l});
    if me.gcProtect {
      AbandonKeepsInv(b, l);
    } else if me.lobby == null {
      StrayingKeepsInv(b0, c, l, now);
    } else if Refusal(b.lobbies[l], me, legit) != 0 {
      AbandonKeepsInv(b0, l);
    } else {
      FirstMemberKeepsInv(b, c, l, legit, now);
    }
  }

  lemma FirstMemberKeepsInv(b: BlockState, c: object, l: object, legit: bool, now: int)
    requires Core(b) && InhabitedBut(b, {l}) && c in b.clients && l in b.listed
    requires b.lobbies[l].terms.kind != DefaultLobby && b.lobbies[l].count == 0
    requires b.clients[c].lobby != null && Refusal(b.lobbies[l], b.clients[c], legit) == 0
    ensures ChangeLobby(b, c, l, legit, now).rc == 0 && Inv(ChangeLobby(b, c, l, legit, now).block)
  {
    var me := b.clients[c];
    var b0 := PutClient(b, c, me.(override := false));
    PutClientKeepsCore(b, c, me.(override := false));
    assert InhabitedBut(b0, {l});
    RefusalIsExact(b.lobbies[l], me, legit);
    EmptyTeamIsElsewhere(b, c, l);
    RelocateKeepsInv(b0, c, l, now, me.override);
  }

  lemma EmptyTeamIsElsewhere(b: BlockState, c: object, l: object)
    requires Core(b) && c in b.clients && b.clients[c].lobby != null && l in b.listed && b.lobbies[l].count == 0
    ensures b.clients[c].lobby != l && b.lobbies[l].count < b.lobbies[l].terms.maxClients
  {
    assert Sound(b.lobbies[l]);
    Located(b, c);
  }

  lemma DestroyedIsUnlisted(b: BlockState, l: object)
    requires Listing(b)
    ensures l !in Destroy(b, l).listed
  {
    WithoutMembers(b.listed, l);
  }

  lemma RefusedOwn(b: BlockState, c: object, l: object, legit: bool, now: int)
    requires Core(b) && c in b.clients && l in b.listed && b.clients[c].lobby != null
    requires b.clients[c].gcProtect || Refusal(b.lobbies[l], b.clients[c], legit) != 0
    ensures l !in JoinOwn(b, c, l, legit, now).listed
  {
    var me := b.clients[c];
    var b1 := PutClient(b, c, me.(override := false));
    if me.gcProtect {
      DestroyedIsUnlisted(b, l);
    } else {
      ChangeLobbyUnfolds(b, c, l, legit, now);
      RefusalIsExact(b.lobbies[l], me, legit);
      DestroyedIsUnlisted(b1, l);
    }
  }

  /** The creator that is let in moves over. */
  lemma WelcomeOwn(b: BlockState, c: object, l: object, legit: bool, now: int)
    requires Core(b) && c in b.clients && l in b.listed && b.clients[c].lobby != null && b.lobbies[l].count == 0
    requires !b.clients[c].gcProtect && Refusal(b.lobbies[l], b.clients[c], legit) == 0
    ensures var me := b.clients[c]; var b1 := PutClient(b, c, me.(override := false));
            && Core(b1) && c in b1.clients && l in b1.lobbies && l != me.lobby
            && b1.lobbies[l].count < b1.lobbies[l].terms.maxClients
            && JoinOwn(b, c, l, legit, now) == Relocate(b1, c, l, now, me.override)
  {
    ChangeLobbyUnfolds(b, c, l, legit, now);
    EmptyTeamIsElsewhere(b, c, l);
  }

  lemma StrayingKeepsInv(b: BlockState, c: object, l: object, now: int)
    requires Core(b) && InhabitedBut(b, {l}) && c in b.clients && b.clients[c].lobby == null && l in b.listed
    requires b.lobbies[l].terms.kind != DefaultLobby && b.lobbies[l].count == 0 && b.lobbies[l].history.strayed
    ensures Inv(AddToAny(b, c, l, now).block) && Inv(Destroy(AddToAny(b, c, l, now).block, l))
  {
    assert Inhabited(b.lobbies[l]);
    assert InhabitedBut(b, {});
    AddToAnyKeepsInv(b, c, l, now);
    AddToAnyLeavesTeams(b, c, l, now);
    AbandonKeepsInv(AddToAny(b, c, l, now).block, l);
  }

  lemma AbandonKeepsInv(b: BlockState, l: object)
    requires Core(b) && InhabitedBut(b, {l}) && l in b.listed
    requires b.lobbies[l].terms.kind != DefaultLobby && b.lobbies[l].count == 0
    ensures Inv(Destroy(b, l))
  {
    DestroyKeepsCore(b, l);
    DestroyKeepsInhabited(b, l, {l});
    assert {l} - {l} == {};
  }

  /** Putting a client into a default lobby does not touch a team. */
  lemma AddToAnyLeavesTeams(b: BlockState, c: object, l: object, now: int)
    requires Core(b) && c in b.clients && l in b.listed && b.lobbies[l].terms.kind != DefaultLobby
    ensures var r := AddToAny(b, c, l, now).block;
            r.listed == b.listed && l in r.lobbies && r.lobbies[l] == b.lobbies[l]
  {
  }

  /** How many are in `l`, a team just listed, if it still is. */
  ghost predicate Occupied(r: BlockState, l: object, count: int) {
    l in r.listed ==> l in r.lobbies && r.lobbies[l].count == count
  }

  /** A creator in no lobby is put into a default lobby, or nowhere, and the team stays empty. */
  lemma StrayOwn(b: BlockState, c: object, l: object, legit: bool, now: int)
    requires Core(b) && c in b.clients && l in b.listed && b.clients[c].lobby == null
    requires b.lobbies[l].terms.kind != DefaultLobby && b.lobbies[l].count == 0
    ensures Occupied(JoinOwn(b, c, l, legit, now), l, 0)
    ensures !b.clients[c].gcProtect ==>
              (l in JoinOwn(b, c, l, legit, now).listed <==> AnyLobby(b, c, l) != null)
  {
    var me := b.clients[c];
    var b1 := PutClient(b, c, me.(override := false));
    if me.gcProtect {
      DestroyedIsUnlisted(b, l);
    } else {
      ChangeLobbyUnfolds(b, c, l, legit, now);
      AddToAnyLeavesTeams(b1, c, l, now);
      SameChoice(b, b1, c, l, 0);
      if AddToAny(b1, c, l, now).rc != 0 {
        DestroyedIsUnlisted(b1, l);
      }
    }
  }

  lemma {:induction false} SameChoice(b: BlockState, b1: BlockState, c: object, l: object, from: nat)
    requires c in b.clients && c in b1.clients && b1.listed == b.listed && b1.lobbies == b.lobbies && l in b.listed
    requires b1.clients[c].version == b.clients[c].version && from <= |b.listed|
    ensures FirstOpen(b1, c, from) == FirstOpen(b, c, from)
    ensures from == 0 ==> AnyLobby(b1, c, l) == AnyLobby(b, c, l)
    decreases |b.listed| - from
  {
    if from < |b.listed| {
      SameChoice(b, b1, c, l, from + 1);
    }
  }

  lemma CreateGameKeepsInv(b: BlockState, c: object, l: object, p: GameRequest, legit: bool, now: int)
    requires Inv(b) && c in b.clients && l !in b.lobbies && GoodRequest(b.clients[c].version, p)
    requires InRange(b.nextId) && HasFree(UsedIds(b))
    ensures Inv(CreateGame(b, c, l, p, legit, now))
  {
    var me, id := b.clients[c], NextFree(UsedIds(b), b.nextId);
    var b1, s := b.(nextId := After(id)), NewGame(b, c, p, id);
    NewGameSound(b, c, p, id);
    CreateGameUnfolds(b, c, l, p, legit, now);
    assert Inv(b1);
    if Deferred(me.version, me.nte, p) {
      HoldKeepsInv(b1, c, l, s);
    } else {
      LaunchKeepsInv(b1, c, l, s, legit, now);
    }
  }

  /** Listing a team just made and letting its creator join. */
  lemma LaunchKeepsInv(b: BlockState, c: object, l: object, s: LobbyState, legit: bool, now: int)
    requires Inv(b) && c in b.clients && l !in b.lobbies && Sound(s) && s.count == 0 && !s.history.pending
    requires s.terms.kind != DefaultLobby && s.history.strayed == (b.clients[c].lobby == null)
    ensures l in Insert(b, l, s).listed && Core(Insert(b, l, s)) && Inv(JoinOwn(Insert(b, l, s), c, l, legit, now))
  {
    InsertKeepsCore(b, l, s);
    InsertKeepsInhabited(b, l, s);
    assert Insert(b, l, s).listed[|b.listed|] == l;
    JoinOwnKeepsInv(Insert(b, l, s), c, l, legit, now);
  }

  // ---------------------------------------------------------------- Episode 3 and deferred PC teams

  ghost function CreateEp3Game(b: BlockState, c: object, l: object, viewBattle: bool, legit: bool, now: int): BlockState
    requires Core(b) && c in b.clients && l !in b.lobbies
  {
    var s := NewEp3Game(b, c, viewBattle);
    NewEp3GameSound(b, c, viewBattle);
    InsertKeepsCore(b, l, s);
    JoinOwn(Insert(b, l, s), c, l, legit, now)
  }

  ghost function NewEp3Game(b: BlockState, c: object, viewBattle: bool): LobbyState
    requires c in b.clients
  {
    var s := NewLobby(Terms(Ep3Id(UsedIds(b)), Ep3Game, 4, 0, viewBattle, false, false), EP3, false, false, false);
    s.(history := s.history.(strayed := b.clients[c].lobby == null))
  }

  lemma CreateEp3GameUnfolds(b: BlockState, c: object, l: object, viewBattle: bool, legit: bool, now: int)
    requires Core(b) && c in b.clients && l !in b.lobbies
    ensures var s := NewEp3Game(b, c, viewBattle);
            && l !in b.listed && Core(Insert(b, l, s))
            && CreateEp3Game(b, c, l, viewBattle, legit, now) == JoinOwn(Insert(b, l, s), c, l, legit, now)
  {
    NewEp3GameSound(b, c, viewBattle);
    InsertKeepsCore(b, l, NewEp3Game(b, c, viewBattle));
  }

  lemma NewEp3GameSound(b: BlockState, c: object, viewBattle: bool)
    requires c in b.clients
    ensures Sound(NewEp3Game(b, c, viewBattle)) && NewEp3Game(b, c, viewBattle).count == 0
  {
    var terms := Terms(Ep3Id(UsedIds(b)), Ep3Game, 4, 0, viewBattle, false, false);
    NewLobbySound(terms, EP3, false, false, false);
    StrayKeepsSound(NewLobby(terms, EP3, false, false, false), b.clients[c].lobby == null);
  }

  lemma CreateEp3GameKeepsInv(b: BlockState, c: object, l: object, viewBattle: bool, legit: bool, now: int)
    requires Inv(b) && c in b.clients && l !in b.lobbies
    ensures Inv(CreateEp3Game(b, c, l, viewBattle, legit, now))
  {
    NewEp3GameSound(b, c, viewBattle);
    CreateEp3GameUnfolds(b, c, l, viewBattle, legit, now);
    LaunchKeepsInv(b, c, l, NewEp3Game(b, c, viewBattle), legit, now);
  }

  /** The menu answers: 0 lowers the team to version 1, 2 restricts it to PC, anything else leaves it open. */
  ghost function Chosen(l: LobbyState, choice: nat, strayed: bool): LobbyState {
    var s := if choice == 0 then l.(v2 := false, version := DCv1)
             else if choice == 2 then l.(flags := l.flags.(pcOnly := true)) else l;
    s.(history := s.history.(pending := false, strayed := strayed))
  }

  /** What the answer makes of `c`'s deferred team. */
  ghost function Choice(b: BlockState, c: object, choice: nat): LobbyState
    requires Deferring(b) && c in b.clients && b.clients[c].created != null
  {
    Chosen(b.lobbies[b.clients[c].created as object], choice, b.clients[c].lobby == null)
  }

  /** The creator of a deferred PC team has answered: the team is listed and joined. */
  ghost function PickGameType(b: BlockState, c: object, choice: nat, legit: bool, now: int): BlockState
    requires Core(b) && c in b.clients
  {
    if b.clients[c].created == null then b
    else
      var l := b.clients[c].created as object;
      PublishKeepsCore(b, c, choice);
      JoinOwn(Publish(b, c, choice), c, l, legit, now)
  }

  ghost function Publish(b: BlockState, c: object, choice: nat): BlockState
    requires Core(b) && c in b.clients && b.clients[c].created != null
  {
    Release(b, c, b.clients[c].created, Choice(b, c, choice))
  }

  /** Lobby `l`, until now `c`'s deferred team, is listed as `s`. */
  ghost function Release(b: BlockState, c: object, l: object, s: LobbyState): BlockState
    requires c in b.clients
  {
    Insert(PutClient(b, c, b.clients[c].(created := null)), l, s)
  }

  lemma ReleaseAfterPut(b: BlockState, c: object, l: object, s: LobbyState)
    requires c in b.clients && l in b.lobbies
    ensures Release(Put(b, l, s), c, l, s) == Release(b, c, l, s) && Put(b, l, s).lobbies[l] == s
  {
    assert b.lobbies[l := s][l := s] == b.lobbies[l := s];
  }

  lemma ChosenSound(l: LobbyState, choice: nat, strayed: bool)
    requires Sound(l) && l.terms.kind == Game && l.history.pending
    ensures Sound(Chosen(l, choice, strayed)) && SeatsEmpty(Chosen(l, choice, strayed))
    ensures SeatsEmpty(l) && Chosen(l, choice, strayed).terms == l.terms && Chosen(l, choice, strayed).count == 0
  {
    SeatedZero(l.slots);
  }

  ghost predicate SeatsEmpty(l: LobbyState) {
    forall i :: 0 <= i < |l.slots| ==> l.slots[i] == null
  }

  lemma ReleaseKeepsSeating(b: BlockState, c: object, l: object, s: LobbyState)
    requires Seating(b) && Listing(b) && c in b.clients && l in b.lobbies && l !in b.listed
    requires SeatsEmpty(b.lobbies[l]) && SeatsEmpty(s)
    ensures Seating(Release(b, c, l, s))
  {
  }

  lemma ReleaseKeepsRegistry(b: BlockState, c: object, l: object, s: LobbyState)
    requires Listing(b) && Deferring(b) && c in b.clients && b.clients[c].created == l && l in b.lobbies
               && l !in b.listed
    requires s.terms == b.lobbies[l].terms && !s.history.pending
    ensures Listing(Release(b, c, l, s)) && Deferring(Release(b, c, l, s))
  {
    InsertKeepsListing(PutClient(b, c, b.clients[c].(created := null)), l, s);
  }

  lemma ReleaseKeepsAdmission(b: BlockState, c: object, l: object, s: LobbyState)
    requires AllAdmitted(b) && c in b.clients && l in b.lobbies && SeatsEmpty(s)
    ensures AllAdmitted(Release(b, c, l, s))
  {
  }

  lemma ReleaseKeepsInhabited(b: BlockState, c: object, l: object, s: LobbyState)
    requires InhabitedBut(b, {}) && c in b.clients && Listing(b)
    ensures InhabitedBut(Release(b, c, l, s), {l})
  {
    var r := Release(b, c, l, s);
    forall i | 0 <= i < |r.listed| && r.listed[i] !in {l} && r.listed[i] in r.lobbies
      ensures Inhabited(r.lobbies[r.listed[i]])
    {
      assert r.listed[i] == b.listed[i];
    }
  }

  lemma PublishKeepsCore(b: BlockState, c: object, choice: nat)
    requires Core(b) && c in b.clients && b.clients[c].created != null
    ensures var l, r := b.clients[c].created as object, Publish(b, c, choice);
            && Core(r) && l in r.listed && c in r.clients && r.lobbies[l].count == 0
            && r.lobbies[l].terms.kind == Game
            && r.lobbies[l].history.strayed == (b.clients[c].lobby == null) && r.clients[c].lobby == b.clients[c].lobby
    ensures InhabitedBut(b, {}) ==> InhabitedBut(Publish(b, c, choice), {b.clients[c].created as object})
  {
    var l := b.clients[c].created as object;
    assert Sound(b.lobbies[l]) && l !in b.listed;
    var s := Chosen(b.lobbies[l], choice, b.clients[c].lobby == null);
    ChosenSound(b.lobbies[l], choice, b.clients[c].lobby == null);
    ReleaseKeepsSeating(b, c, l, s);
    ReleaseKeepsRegistry(b, c, l, s);
    ReleaseKeepsAdmission(b, c, l, s);
    if InhabitedBut(b, {}) {
      ReleaseKeepsInhabited(b, c, l, s);
    }
  }

  lemma PickUnfolds(b: BlockState, c: object, choice: nat, legit: bool, now: int)
    requires Core(b) && c in b.clients && b.clients[c].created != null
    ensures var l, r := b.clients[c].created as object, Release(b, c, b.clients[c].created, Choice(b, c, choice));
            && l in b.lobbies && b.lobbies[l].terms.kind == Game
            && Core(r) && l in r.listed && c in r.clients
            && PickGameType(b, c, choice, legit, now) == JoinOwn(r, c, l, legit, now)
  {
    PublishKeepsCore(b, c, choice);
  }

  lemma PickGameTypeKeepsInv(b: BlockState, c: object, choice: nat, legit: bool, now: int)
    requires Inv(b) && c in b.clients
    ensures Inv(PickGameType(b, c, choice, legit, now))
  {
    if b.clients[c].created != null {
      PublishKeepsCore(b, c, choice);
      JoinOwnKeepsInv(Publish(b, c, choice), c, b.clients[c].created, legit, now);
    }
  }
}
