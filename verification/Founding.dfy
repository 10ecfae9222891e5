/**
  What becomes of a team just made: whether it is on the block's list, and whether anybody is in it.
 */
module Founding {
  import opened Elections
  import opened LobbyRules
  import opened TeamIds
  import opened BlockRules
  import opened Moves
  import opened Teams
  import opened Runs
  import opened Identity

  /** A team still listed after its creator tried to join it has one member if the creator was in a lobby, and
      none if it was not. */
  lemma OwnIsOccupied(b: BlockState, c: object, l: object, legit: bool, now: int)
    requires Core(b) && c in b.clients && l in b.listed
    requires b.lobbies[l].terms.kind != DefaultLobby && b.lobbies[l].count == 0
    ensures Occupied(JoinOwn(b, c, l, legit, now), l, if b.clients[c].lobby == null then 0 else 1)
  {
    var me := b.clients[c];
    if me.lobby == null {
      StrayOwn(b, c, l, legit, now);
    } else if me.gcProtect || Refusal(b.lobbies[l], me, legit) != 0 {
      RefusedOwn(b, c, l, legit, now);
    } else {
      WelcomeOwn(b, c, l, legit, now);
      MovedOwn(PutClient(b, c, me.(override := false)), c, l, now, me.override);
    }
  }

  lemma MovedOwn(b: BlockState, c: object, l: object, now: int, byOverride: bool)
    requires Core(b) && c in b.clients && b.clients[c].lobby != null && l in b.lobbies && l != b.clients[c].lobby
    requires b.lobbies[l].count == 0 && b.lobbies[l].count < b.lobbies[l].terms.maxClients
    ensures Occupied(Relocate(b, c, l, now, byOverride), l, 1)
  {
    RelocateMovesClient(b, c, l, now, byOverride);
  }

  lemma InsertedIsListed(b: BlockState, l: object, s: LobbyState)
    ensures l in Insert(b, l, s).listed && Insert(b, l, s).lobbies[l] == s && Insert(b, l, s).clients == b.clients
  {
    assert Insert(b, l, s).listed[|b.listed|] == l;
  }

  lemma LaunchIsOccupied(b: BlockState, c: object, l: object, s: LobbyState, legit: bool, now: int)
    requires c in b.clients && Core(Insert(b, l, s)) && s.terms.kind != DefaultLobby && s.count == 0
    ensures l in Insert(b, l, s).listed
    ensures Occupied(JoinOwn(Insert(b, l, s), c, l, legit, now), l, if b.clients[c].lobby == null then 0 else 1)
  {
    InsertedIsListed(b, l, s);
    OwnIsOccupied(Insert(b, l, s), c, l, legit, now);
  }

  /** A team that is on the list when its making is over is empty exactly if its creator was in no lobby. */
  lemma CreatedGameIsOccupied(b: BlockState, c: object, l: object, p: GameRequest, legit: bool, now: int)
    requires Inv(b) && c in b.clients && l !in b.lobbies && GoodRequest(b.clients[c].version, p)
    requires InRange(b.nextId) && HasFree(UsedIds(b))
    ensures Occupied(CreateGame(b, c, l, p, legit, now), l, if b.clients[c].lobby == null then 0 else 1)
  {
    var me, id := b.clients[c], NextFree(UsedIds(b), b.nextId);
    CreateGameUnfolds(b, c, l, p, legit, now);
    assert l !in b.listed;
    if (me.level + 1 >= RequiredLevel(p.difficulty) || me.override) && !Deferred(me.version, me.nte, p) {
      NewGameSound(b, c, p, id);
      LaunchIsOccupied(b.(nextId := After(id)), c, l, NewGame(b, c, p, id), legit, now);
    }
  }

  lemma CreatedEp3GameIsOccupied(b: BlockState, c: object, l: object, viewBattle: bool, legit: bool, now: int)
    requires Inv(b) && c in b.clients && l !in b.lobbies
    ensures Occupied(CreateEp3Game(b, c, l, viewBattle, legit, now), l, if b.clients[c].lobby == null then 0 else 1)
  {
    CreateEp3GameUnfolds(b, c, l, viewBattle, legit, now);
    NewEp3GameSound(b, c, viewBattle);
    LaunchIsOccupied(b, c, l, NewEp3Game(b, c, viewBattle), legit, now);
  }

  lemma PickedGameIsOccupied(b: BlockState, c: object, choice: nat, legit: bool, now: int)
    requires Inv(b) && c in b.clients && b.clients[c].created != null
    ensures Occupied(PickGameType(b, c, choice, legit, now), b.clients[c].created,
                     if b.clients[c].lobby == null then 0 else 1)
  {
    PublishKeepsCore(b, c, choice);
    PickUnfolds(b, c, choice, legit, now);
    OwnIsOccupied(Publish(b, c, choice), c, b.clients[c].created, legit, now);
  }

  // ---------------------------------------------------------------- an empty team

  /** A client that has just come to a block with one default lobby. */
  ghost function Newcomer(d: object, c: object, version: Version, level: nat): BlockState {
    Connect(Opened([d]), c, version, false, false, level, false)
  }

  lemma NewcomerInv(d: object, c: object, version: Version, level: nat)
    ensures var b := Newcomer(d, c, version, level);
            && Inv(b) && b.listed == [d] && b.lobbies == map[d := NewDefaultLobby(1)] && b.nextId == FIRST_TEAM_ID
            && c in b.clients && b.clients[c].lobby == null && UsedIds(b) == {1}
  {
    var none: seq<object> := [];
    assert [d][..0] == none;
    assert Opened(none) == BlockState(map[], map[], [], 0, FIRST_TEAM_ID);
    OpenedInv([d]);
    assert Opened([d]) == Insert(Opened(none), d, NewDefaultLobby(1));
    ConnectKeepsInv(Opened([d]), c, version, false, false, level, false);
    var b := Newcomer(d, c, version, level);
    assert b.lobbies[b.listed[0]].terms.lobbyId == 1;
  }

  /** The client of a later version that makes a team before it has been put into any lobby: the team is listed, and
      nobody is in it. */
  lemma NewcomersTeamIsEmpty(d: object, c: object, l: object, p: GameRequest, level: nat, now: int)
    requires l != d && p.difficulty < 4 && !p.singlePlayer && level + 1 >= RequiredLevel(p.difficulty)
    ensures var b := Newcomer(d, c, GC, level);
            && Inv(b) && c in b.clients && l !in b.lobbies && GoodRequest(b.clients[c].version, p)
            && InRange(b.nextId) && HasFree(UsedIds(b))
            && var r := CreateGame(b, c, l, p, true, now); l in r.listed && l in r.lobbies && r.lobbies[l].count == 0
  {
    var b, me := Newcomer(d, c, GC, level), Newcomer(d, c, GC, level).clients[c];
    NewcomerInv(d, c, GC, level);
    FewTeamsLeaveFreeId(UsedIds(b));
    var id := NextFree(UsedIds(b), b.nextId);
    var b1, s := b.(nextId := After(id)), NewGame(b, c, p, id);
    CreateGameUnfolds(b, c, l, p, true, now);
    NewGameSound(b, c, p, id);
    InsertedIsListed(b1, l, s);
    StrayOwn(Insert(b1, l, s), c, l, true, now);
    assert Suits(Insert(b1, l, s), c, d) && Insert(b1, l, s).listed[0] == d;
  }

  // ---------------------------------------------------------------- two teams, one ID

  /** A team that is not the one left or entered is not touched by a move, and other clients are not either. */
  lemma RelocateKeepsRest(b: BlockState, c: object, req: object, now: int, byOverride: bool, x: object, d: object)
    requires Core(b) && c in b.clients && b.clients[c].lobby != null && req in b.listed && req != b.clients[c].lobby
    requires b.lobbies[req].count < b.lobbies[req].terms.maxClients
    requires x in b.lobbies && x != req && x != b.clients[c].lobby && d != c && d in b.clients
    ensures var r := Relocate(b, c, req, now, byOverride);
            && x in r.lobbies && r.lobbies[x] == b.lobbies[x] && d in r.clients && r.clients[d] == b.clients[d]
            && req in r.listed && req in r.lobbies && r.lobbies[req].terms == b.lobbies[req].terms
  {
    MoveUnfolds(b, c, req, now, byOverride);
    EnterFrame(b.lobbies[req], c);
    var l, slot := b.clients[c].lobby as object, b.clients[c].slot;
    var j := Join(b, c, req, now, byOverride);
    var left := Leave(b.lobbies[l], slot, SeatsOf(b.lobbies[l].slots, j.clients), now);
    MovedRest(b, j, c, req, l, left, x, d);
  }

  lemma MovedRest(b: BlockState, j: BlockState, c: object, req: object, l: object, left: LobbyState, x: object,
                  d: object)
    requires Listing(b) && c in j.clients && req in b.listed && req in j.lobbies && l != req
    requires x in j.lobbies && x != req && x != l && d != c && d in j.clients
    requires j.listed == b.listed
    ensures var r := DestroyIfEmpty(Arrive(Rise(j, c, l, left), c, req), l);
            && x in r.lobbies && r.lobbies[x] == j.lobbies[x] && d in r.clients && r.clients[d] == j.clients[d]
            && req in r.listed && req in r.lobbies && r.lobbies[req].terms == j.lobbies[req].terms
  {
    WithoutMembers(b.listed, l);
  }

  /** A seated Episode 3 client that is not held back by its level enters the team it makes. */
  lemma Ep3IsWelcome(b: BlockState, e: object, viewBattle: bool, legit: bool)
    requires e in b.clients && b.clients[e].level < 200
    ensures Refusal(NewEp3Game(b, e, viewBattle), b.clients[e], legit) == 0
  {
  }

  /** The team of such a client is listed with the lowest free ID, and teams not listed yet stay as they are. */
  lemma Ep3TeamIsListed(b: BlockState, e: object, m: object, viewBattle: bool, legit: bool, now: int, x: object,
                        d: object)
    requires Inv(b) && e in b.clients && m !in b.lobbies && b.clients[e].lobby != null
    requires !b.clients[e].gcProtect && b.clients[e].level < 200
    requires x in b.lobbies && x !in b.listed && d != e && d in b.clients
    ensures var r := CreateEp3Game(b, e, m, viewBattle, legit, now);
            && m in r.listed && m in r.lobbies && r.lobbies[m].terms.lobbyId == Ep3Id(UsedIds(b))
            && x in r.lobbies && r.lobbies[x] == b.lobbies[x] && d in r.clients && r.clients[d] == b.clients[d]
  {
    var s := NewEp3Game(b, e, viewBattle);
    CreateEp3GameUnfolds(b, e, m, viewBattle, legit, now);
    NewEp3GameSound(b, e, viewBattle);
    InsertedIsListed(b, m, s);
    Ep3IsWelcome(b, e, viewBattle, legit);
    Located(b, e);
    OwnIsListed(Insert(b, m, s), e, m, legit, now, x, d);
  }

  /** A creator that is let in leaves the team listed, and others as they are. */
  lemma OwnIsListed(b: BlockState, e: object, m: object, legit: bool, now: int, x: object, d: object)
    requires Core(b) && e in b.clients && m in b.listed && b.clients[e].lobby != null && b.lobbies[m].count == 0
    requires !b.clients[e].gcProtect && Refusal(b.lobbies[m], b.clients[e], legit) == 0
    requires x in b.lobbies && x != m && x != b.clients[e].lobby && d != e && d in b.clients
    ensures var r := JoinOwn(b, e, m, legit, now);
            && m in r.listed && m in r.lobbies && r.lobbies[m].terms == b.lobbies[m].terms
            && x in r.lobbies && r.lobbies[x] == b.lobbies[x] && d in r.clients && r.clients[d] == b.clients[d]
  {
    WelcomeOwn(b, e, m, legit, now);
    RelocateKeepsRest(PutClient(b, e, b.clients[e].(override := false)), e, m, now, b.clients[e].override, x, d);
  }

  /** A PC team held back. */
  lemma TeamIsHeld(b: BlockState, c: object, l: object, p: GameRequest, legit: bool, now: int)
    requires Inv(b) && c in b.clients && l !in b.lobbies && GoodRequest(b.clients[c].version, p)
    requires InRange(b.nextId) && HasFree(UsedIds(b))
    requires Deferred(b.clients[c].version, b.clients[c].nte, p)
    requires b.clients[c].level + 1 >= RequiredLevel(p.difficulty) || b.clients[c].override
    ensures var r := CreateGame(b, c, l, p, legit, now);
            && r.listed == b.listed && UsedIds(r) == UsedIds(b) && l !in r.listed && l in r.lobbies
            && r.clients == b.clients[c := b.clients[c].(created := l)]
            && r.lobbies[l].terms.lobbyId == NextFree(UsedIds(b), b.nextId)
  {
    CreateGameUnfolds(b, c, l, p, legit, now);
  }

  /** A PC client makes a team that is held back, and then a seated Episode 3 client makes one: if the next ID in turn
      was 0x21 and free, the two teams have the same ID, and listing the first will make them share it. */
  lemma HeldTeamClashes(b: BlockState, c: object, l: object, p: GameRequest, e: object, m: object, viewBattle: bool,
                        legit: bool, now: int)
    requires Inv(b) && b.nextId == 0x21 && 0x21 !in UsedIds(b) && c != e && l != m && l !in b.lobbies && m !in b.lobbies
    requires c in b.clients && b.clients[c].version == PC && !b.clients[c].nte
    requires p.difficulty < 3 && !p.battle && !p.challenge && !p.singlePlayer
    requires b.clients[c].level + 1 >= RequiredLevel(p.difficulty)
    requires e in b.clients && b.clients[e].version == EP3 && b.clients[e].lobby != null
    requires !b.clients[e].gcProtect && b.clients[e].level < 200
    ensures GoodRequest(b.clients[c].version, p) && InRange(b.nextId) && HasFree(UsedIds(b))
    ensures var held := CreateGame(b, c, l, p, legit, now);
            && Inv(held) && e in held.clients && m !in held.lobbies
            && Taken(CreateEp3Game(held, e, m, viewBattle, legit, now), c)
  {
    assert InRange(0x21);
    DeferredIdCanBeTaken(UsedIds(b));
    NextFreeIsUnique(UsedIds(b), 0x21, 0x21, NextFree(UsedIds(b), 0x21));
    Ep3IdIsUnique(UsedIds(b), 0x21);
    CreateGameKeepsInv(b, c, l, p, legit, now);
    TeamIsHeld(b, c, l, p, legit, now);
    var held := CreateGame(b, c, l, p, legit, now);
    assert m !in held.lobbies by {
      CreateGameUnfolds(b, c, l, p, legit, now);
    }
    Ep3TeamIsListed(held, e, m, viewBattle, legit, now, l, c);
    ListedTwice(CreateEp3Game(held, e, m, viewBattle, legit, now), c, l, m);
  }

  lemma ListedTwice(r: BlockState, c: object, l: object, m: object)
    requires c in r.clients && r.clients[c].created == l && l in r.lobbies && m in r.listed && m in r.lobbies
    requires r.lobbies[l].terms.lobbyId == r.lobbies[m].terms.lobbyId && r.clients[c].lobby != m
    ensures Taken(r, c)
  {
    var i :| 0 <= i < |r.listed| && r.listed[i] == m;
    assert SharesId(r, r.listed[i], l) && !GoesWith(r, c, r.listed[i]);
  }
}
