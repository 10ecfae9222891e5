/**
  Team IDs over whole runs: exactly when listed lobbies have IDs of their own, which a deferred team listed after
  somebody else has been given its ID does not.
 */
module Identity {
  import opened Elections
  import opened LobbyRules
  import opened TeamIds
  import opened BlockRules
  import opened Moves
  import opened Teams
  import opened Runs
  import opened Departures

  /** Different listed lobbies have different IDs. */
  ghost predicate OwnIds(b: BlockState) {
    forall i, j :: 0 <= i < |b.listed| && 0 <= j < |b.listed| && b.listed[i] != b.listed[j] ==>
      DifferentIds(b, b.listed[i], b.listed[j])
  }

  ghost predicate DifferentIds(b: BlockState, x: object, y: object) {
    x in b.lobbies && y in b.lobbies ==> b.lobbies[x].terms.lobbyId != b.lobbies[y].terms.lobbyId
  }

  /** What `r` lists was listed in `b`, under the same ID. */
  ghost predicate Within(r: BlockState, b: BlockState) {
    forall i :: 0 <= i < |r.listed| ==> ListedAlike(r, b, r.listed[i])
  }

  ghost predicate ListedAlike(r: BlockState, b: BlockState, x: object) {
    x in b.listed && (x in r.lobbies ==> x in b.lobbies && r.lobbies[x].terms == b.lobbies[x].terms)
  }

  lemma WithinKeepsOwnIds(r: BlockState, b: BlockState)
    requires Within(r, b) && OwnIds(b)
    ensures OwnIds(r)
  {
    forall i, j | 0 <= i < |r.listed| && 0 <= j < |r.listed| && r.listed[i] != r.listed[j]
      ensures DifferentIds(r, r.listed[i], r.listed[j])
    {
      assert ListedAlike(r, b, r.listed[i]) && ListedAlike(r, b, r.listed[j]);
      var k :| 0 <= k < |b.listed| && b.listed[k] == r.listed[i];
      var m :| 0 <= m < |b.listed| && b.listed[m] == r.listed[j];
      assert DifferentIds(b, b.listed[k], b.listed[m]);
    }
  }

  lemma WithinAgain(s: BlockState, r: BlockState, b: BlockState)
    requires Within(s, r) && Within(r, b)
    ensures Within(s, b)
  {
    forall i | 0 <= i < |s.listed| ensures ListedAlike(s, b, s.listed[i]) {
      assert ListedAlike(s, r, s.listed[i]);
      var k :| 0 <= k < |r.listed| && r.listed[k] == s.listed[i];
      assert ListedAlike(r, b, r.listed[k]);
    }
  }

  /** Changing one lobby, but not its terms, and any clients. */
  lemma ChangedWithin(r: BlockState, b: BlockState, l: object)
    requires r.listed == b.listed && l in b.lobbies && l in r.lobbies && r.lobbies == b.lobbies[l := r.lobbies[l]]
    requires r.lobbies[l].terms == b.lobbies[l].terms
    ensures Within(r, b)
  {
  }

  lemma SameWithin(r: BlockState, b: BlockState)
    requires r.listed == b.listed && r.lobbies == b.lobbies
    ensures Within(r, b)
  {
  }

  lemma {:induction false} WithoutIn(list: seq<object>, x: object)
    ensures forall i :: 0 <= i < |Without(list, x)| ==> Without(list, x)[i] in list
  {
    if list != [] && list[0] != x {
      var w := Without(list[1..], x);
      WithoutIn(list[1..], x);
      assert Without(list, x) == [list[0]] + w;
      assert forall y <- list[1..] :: y in list;
    }
  }

  lemma DestroyedWithin(b: BlockState, l: object)
    ensures Within(Destroy(b, l), b) && Within(DestroyIfEmpty(b, l), b)
  {
    WithoutIn(b.listed, l);
  }

  lemma JoinWithin(b: BlockState, c: object, l: object, now: int, byOverride: bool)
    requires Core(b) && c in b.clients && l in b.lobbies && b.lobbies[l].count < b.lobbies[l].terms.maxClients
    ensures Shape(b.lobbies[l]) && Subscribed(b.lobbies[l]) && Within(Join(b, c, l, now, byOverride), b)
  {
    assert Sound(b.lobbies[l]);
    EnterFrame(b.lobbies[l], c);
    ChangedWithin(Join(b, c, l, now, byOverride), b, l);
  }

  lemma PartWithin(b: BlockState, c: object, slot: nat, l: object, now: int)
    requires c in b.clients && l in b.lobbies && Subscribed(b.lobbies[l]) && slot < LOBBY_MAX_CLIENTS
    requires b.lobbies[l].terms.kind != DefaultLobby ==> slot < LOBBY_MAX_IN_TEAM
    ensures Within(Part(b, c, slot, l, now), b)
  {
    LeaveFrame(b.lobbies[l], slot, SeatsOf(b.lobbies[l].slots, b.clients), now);
    ChangedWithin(Part(b, c, slot, l, now), b, l);
  }

  lemma RelocateWithin(b: BlockState, c: object, req: object, now: int, byOverride: bool)
    requires Core(b) && c in b.clients && b.clients[c].lobby != null && req in b.lobbies && req != b.clients[c].lobby
    requires b.lobbies[req].count < b.lobbies[req].terms.maxClients
    ensures Within(Relocate(b, c, req, now, byOverride), b)
  {
    MoveUnfolds(b, c, req, now, byOverride);
    JoinWithin(b, c, req, now, byOverride);
    var l, slot := b.clients[c].lobby as object, b.clients[c].slot;
    var j, m := Join(b, c, req, now, byOverride), Move(b, c, req, now, byOverride);
    PartWithin(j, c, slot, l, now);
    WithinAgain(m, j, b);
    ArriveWithin(m, c, req);
    var a := Arrive(m, c, req);
    WithinAgain(a, m, b);
    DestroyedWithin(a, l);
    WithinAgain(Relocate(b, c, req, now, byOverride), a, b);
  }

  lemma ArriveWithin(b: BlockState, c: object, l: object)
    ensures Within(Arrive(b, c, l), b)
  {
  }

  lemma AddToAnyWithin(b: BlockState, c: object, req: object?, now: int)
    requires Core(b) && c in b.clients && (req != null ==> req in b.listed)
    ensures Within(AddToAny(b, c, req, now).block, b)
  {
    var l := AnyLobby(b, c, req);
    if l == null {
      SameWithin(b, b);
    } else {
      assert l in b.lobbies && Sound(b.lobbies[l]);
      JoinWithin(b, c, l, now, false);
    }
  }

  lemma DecideWithin(b: BlockState, c: object, req: object, refusal: int, byOverride: bool, now: int)
    requires Core(b) && c in b.clients && req in b.listed
    ensures Within(Decide(b, c, req, refusal, byOverride, now).block, b)
  {
    SameWithin(b, b);
    if b.clients[c].lobby == null {
      AddToAnyWithin(b, c, req, now);
    } else if refusal == 0 {
      if b.clients[c].lobby == req {
        ArriveWithin(b, c, req);
      } else if b.lobbies[req].count < b.lobbies[req].terms.maxClients {
        RelocateWithin(b, c, req, now, byOverride);
      }
    }
  }

  lemma ChangeLobbyWithin(b: BlockState, c: object, req: object, legit: bool, now: int)
    requires Core(b) && c in b.clients && req in b.listed
    ensures Within(ChangeLobby(b, c, req, legit, now).block, b)
  {
    var me := b.clients[c];
    var b1 := PutClient(b, c, me.(override := false));
    ChangeLobbyUnfolds(b, c, req, legit, now);
    SameWithin(b1, b);
    DecideWithin(b1, c, req, Refusal(b.lobbies[req], me, legit), me.override, now);
    WithinAgain(ChangeLobby(b, c, req, legit, now).block, b1, b);
  }

  lemma JoinOwnWithin(b: BlockState, c: object, l: object, legit: bool, now: int)
    requires Core(b) && c in b.clients && l in b.listed
    ensures Within(JoinGame(b, c, l, legit, now).block, b) && Within(JoinOwn(b, c, l, legit, now), b)
  {
    SameWithin(b, b);
    ChangeLobbyWithin(b, c, l, legit, now);
    var o := JoinGame(b, c, l, legit, now);
    DestroyedWithin(o.block, l);
    WithinAgain(Destroy(o.block, l), o.block, b);
  }

  lemma RemovePlayerWithin(b: BlockState, c: object, now: int, accepts: Packet -> bool)
    requires Inv(b) && c in b.clients
    ensures Within(RemovePlayer(b, c, now, accepts), b)
  {
    SameWithin(b, b);
    if b.clients[c].lobby != null {
      Located(b, c);
      var l, slot := b.clients[c].lobby as object, b.clients[c].slot;
      var b1 := if b.clients[c].bursting then Put(b, l, EndBurst(b.lobbies[l], accepts)) else b;
      if b.clients[c].bursting {
        ChangedWithin(b1, b, l);
      }
      PartWithin(b1, c, slot, l, now);
      var p := Part(b1, c, slot, l, now);
      WithinAgain(p, b1, b);
      DestroyedWithin(p, l);
      WithinAgain(DestroyIfEmpty(p, l), p, b);
    }
  }

  lemma ForgetWithin(b: BlockState, c: object)
    requires Listing(b)
    ensures Within(Forget(b, c), b)
  {
  }

  lemma DisconnectWithin(b: BlockState, c: object, now: int, accepts: Packet -> bool)
    requires Inv(b) && c in b.clients
    ensures Within(Disconnect(b, c, now, accepts), b)
  {
    var r := RemovePlayer(b, c, now, accepts);
    RemovePlayerWithin(b, c, now, accepts);
    RemovePlayerKeepsInv(b, c, now, accepts);
    ForgetWithin(r, c);
    WithinAgain(Forget(r, c), r, b);
  }

  // ---------------------------------------------------------------- listing

  /** Whether `l` may be listed under the ID `id`. */
  ghost predicate Unlisted(b: BlockState, id: nat) {
    id !in UsedIds(b)
  }

  /** Listing one more lobby keeps IDs apart exactly if no listed lobby has its ID. */
  lemma InsertKeepsOwnIds(b: BlockState, l: object, s: LobbyState)
    requires Listing(b) && OwnIds(b) && l !in b.listed && (l in b.lobbies ==> s.terms == b.lobbies[l].terms)
    ensures OwnIds(Insert(b, l, s)) <==> Unlisted(b, s.terms.lobbyId)
  {
    var r, id := Insert(b, l, s), s.terms.lobbyId;
    assert r.listed[|b.listed|] == l;
    if Unlisted(b, id) {
      forall i, j | 0 <= i < |r.listed| && 0 <= j < |r.listed| && r.listed[i] != r.listed[j]
        ensures DifferentIds(r, r.listed[i], r.listed[j])
      {
        if i < |b.listed| && j < |b.listed| {
          assert DifferentIds(b, b.listed[i], b.listed[j]);
        } else {
          var k := if i < |b.listed| then i else j;
          assert b.lobbies[b.listed[k]].terms.lobbyId in UsedIds(b);
        }
      }
    } else {
      var k :| 0 <= k < |b.listed| && b.listed[k] in b.lobbies && b.lobbies[b.listed[k]].terms.lobbyId == id;
      assert r.listed[k] == b.listed[k] && !DifferentIds(r, r.listed[k], r.listed[|b.listed|]);
    }
  }

  lemma LaunchKeepsOwnIds(b: BlockState, c: object, l: object, s: LobbyState, legit: bool, now: int)
    requires Listing(b) && OwnIds(b) && c in b.clients && l !in b.listed
               && (l in b.lobbies ==> s.terms == b.lobbies[l].terms)
    requires Core(Insert(b, l, s)) && Unlisted(b, s.terms.lobbyId)
    ensures OwnIds(JoinOwn(Insert(b, l, s), c, l, legit, now))
  {
    InsertKeepsOwnIds(b, l, s);
    JoinOwnWithin(Insert(b, l, s), c, l, legit, now);
    WithinKeepsOwnIds(JoinOwn(Insert(b, l, s), c, l, legit, now), Insert(b, l, s));
  }

  lemma CreateGameKeepsOwnIds(b: BlockState, c: object, l: object, p: GameRequest, legit: bool, now: int)
    requires Inv(b) && OwnIds(b) && c in b.clients && l !in b.lobbies && GoodRequest(b.clients[c].version, p)
    requires InRange(b.nextId) && HasFree(UsedIds(b))
    ensures OwnIds(CreateGame(b, c, l, p, legit, now))
  {
    CreateGameUnfolds(b, c, l, p, legit, now);
    var me, id := b.clients[c], NextFree(UsedIds(b), b.nextId);
    var b1, s := b.(nextId := After(id)), NewGame(b, c, p, id);
    SameWithin(b1, b);
    WithinKeepsOwnIds(b1, b);
    assert UsedIds(b1) == UsedIds(b);
    if me.level + 1 < RequiredLevel(p.difficulty) && !me.override {
    } else if Deferred(me.version, me.nte, p) {
      HeldWithin(b1, c, l, s);
      WithinKeepsOwnIds(Hold(b1, c, l, s), b1);
    } else {
      LaunchKeepsOwnIds(b1, c, l, s, legit, now);
    }
  }

  lemma HeldWithin(b: BlockState, c: object, l: object, s: LobbyState)
    requires Listing(b) && c in b.clients && l !in b.lobbies
    ensures Within(Hold(b, c, l, s), b)
  {
  }

  lemma CreateEp3GameKeepsOwnIds(b: BlockState, c: object, l: object, viewBattle: bool, legit: bool, now: int)
    requires Inv(b) && OwnIds(b) && c in b.clients && l !in b.lobbies
    ensures OwnIds(CreateEp3Game(b, c, l, viewBattle, legit, now))
  {
    CreateEp3GameUnfolds(b, c, l, viewBattle, legit, now);
    LaunchKeepsOwnIds(b, c, l, NewEp3Game(b, c, viewBattle), legit, now);
  }

  /** A deferred team is about to be listed whose ID somebody else has by now. */
  ghost predicate Clash(b: BlockState, c: object) {
    && c in b.clients && b.clients[c].created != null && b.clients[c].created in b.lobbies
    && !Unlisted(b, b.lobbies[b.clients[c].created as object].terms.lobbyId)
  }

  /** The lobby a client is in will be gone once it has moved on. */
  ghost predicate GoesWith(b: BlockState, c: object, x: object)
    requires c in b.clients
  {
    b.clients[c].lobby == x && LastMember(b, x)
  }

  ghost predicate SharesId(b: BlockState, x: object, l: object) {
    x in b.lobbies && l in b.lobbies && b.lobbies[x].terms.lobbyId == b.lobbies[l].terms.lobbyId
  }

  /** The ID of the client's deferred team is by now that of a listed one, which is not one the client leaves empty. */
  ghost predicate Taken(b: BlockState, c: object) {
    && c in b.clients && b.clients[c].created != null
    && exists i :: 0 <= i < |b.listed| && SharesId(b, b.listed[i], b.clients[c].created) && !GoesWith(b, c, b.listed[i])
  }

  /** Once its creator has answered, a deferred team stays listed: the creator is let in, or, if it is in no lobby, put
      into one. */
  ghost predicate Lists(b: BlockState, c: object, choice: nat, legit: bool) {
    && c in b.clients && b.clients[c].created != null && b.clients[c].created in b.lobbies
    && var me := b.clients[c];
       if me.lobby != null then LetIn(Chosen(b.lobbies[me.created as object], choice, false), me, legit)
       else !me.gcProtect && exists i :: 0 <= i < |b.listed| && Suits(b, c, b.listed[i])
  }

  lemma RelocateLists(b: BlockState, c: object, req: object, now: int, byOverride: bool)
    requires Core(b) && c in b.clients && b.clients[c].lobby != null && req in b.lobbies && req != b.clients[c].lobby
    requires b.lobbies[req].count < b.lobbies[req].terms.maxClients
    ensures var l := b.clients[c].lobby as object;
            Relocate(b, c, req, now, byOverride).listed == if LastMember(b, l) then Without(b.listed, l) else b.listed
  {
    RelocateMovesClient(b, c, req, now, byOverride);
  }

  /** What is listed after a creator in a lobby has been let into its team, or turned away from it. */
  lemma JoinOwnLists(b: BlockState, c: object, l: object, legit: bool, now: int)
    requires Core(b) && c in b.clients && l in b.listed && b.lobbies[l].count == 0 && b.clients[c].lobby != null
    ensures var me, r := b.clients[c], JoinOwn(b, c, l, legit, now).listed;
            if LetIn(b.lobbies[l], me, legit) then
              r == if LastMember(b, me.lobby) then Without(b.listed, me.lobby) else b.listed
            else l !in r
  {
    var me := b.clients[c];
    var b1 := PutClient(b, c, me.(override := false));
    EmptyTeamIsElsewhere(b, c, l);
    RefusalIsExact(b.lobbies[l], me, legit);
    if LetIn(b.lobbies[l], me, legit) {
      WelcomeOwn(b, c, l, legit, now);
      RelocateLists(b1, c, l, now, me.override);
    } else {
      RefusedOwn(b, c, l, legit, now);
    }
  }

  /** And after one in no lobby has been put into a lobby. */
  lemma StrayOwnLists(b: BlockState, c: object, l: object, legit: bool, now: int)
    requires Core(b) && c in b.clients && l in b.listed && b.clients[c].lobby == null
    requires b.lobbies[l].terms.kind != DefaultLobby && b.lobbies[l].count == 0
    ensures var r := JoinOwn(b, c, l, legit, now).listed;
            if !b.clients[c].gcProtect && AnyLobby(b, c, l) != null then r == b.listed else l !in r
  {
    StrayOwn(b, c, l, legit, now);
    var me := b.clients[c];
    if me.gcProtect {
      DestroyedIsUnlisted(b, l);
    } else if AnyLobby(b, c, l) != null {
      var b1 := PutClient(b, c, me.(override := false));
      ChangeLobbyUnfolds(b, c, l, legit, now);
      SameChoice(b, b1, c, l, 0);
      AddToAnyLeavesTeams(b1, c, l, now);
    }
  }

  /** A lobby that is no default lobby has no say in where a client is put. */
  lemma AnyIsSuited(b: BlockState, i: BlockState, c: object, l: object)
    requires c in b.clients && c in i.clients && i.clients[c].version == b.clients[c].version && l !in b.listed
    requires i.listed == b.listed + [l] && l in i.lobbies && i.lobbies[l].terms.kind != DefaultLobby
    requires i.lobbies == b.lobbies[l := i.lobbies[l]]
    ensures AnyLobby(i, c, l) != null <==> exists k :: 0 <= k < |b.listed| && Suits(b, c, b.listed[k])
  {
    var f := FirstOpen(i, c, 0);
    assert !Suits(i, c, l) && i.listed[|b.listed|] == l;
    forall k | 0 <= k < |b.listed|
      ensures i.listed[k] == b.listed[k] && Suits(i, c, i.listed[k]) == Suits(b, c, b.listed[k])
    {
      assert b.listed[k] != l;
    }
    if f < |i.listed| {
      assert Suits(b, c, b.listed[f]);
    }
    if k :| 0 <= k < |b.listed| && Suits(b, c, b.listed[k]) {
      assert Suits(i, c, i.listed[k]);
    }
  }

  /** Whether IDs are apart is a matter of whether the new team, and another one of its ID, are on the list. */
  lemma ApartAfter(b: BlockState, i: BlockState, r: BlockState, l: object)
    requires OwnIds(b) && Listing(r) && Within(r, i) && l !in b.listed && l in b.lobbies && l in i.lobbies
    requires i.listed == b.listed + [l] && i.lobbies == b.lobbies[l := i.lobbies[l]]
    requires i.lobbies[l].terms == b.lobbies[l].terms
    ensures OwnIds(r) <==> l !in r.listed || !exists x: object :: x in r.listed && x in b.listed && SharesId(b, x, l)
  {
    forall k | 0 <= k < |r.listed|
      ensures r.listed[k] in i.listed && r.listed[k] in b.lobbies && r.listed[k] in r.lobbies
      ensures r.lobbies[r.listed[k]].terms == b.lobbies[r.listed[k]].terms
    {
      assert ListedAlike(r, i, r.listed[k]);
    }
    if l in r.listed {
      if x: object :| x in r.listed && x in b.listed && SharesId(b, x, l) {
        var k :| 0 <= k < |r.listed| && r.listed[k] == x;
        var m :| 0 <= m < |r.listed| && r.listed[m] == l;
        assert !DifferentIds(r, r.listed[k], r.listed[m]);
        return;
      }
    }
    forall k, m | 0 <= k < |r.listed| && 0 <= m < |r.listed| && r.listed[k] != r.listed[m]
      ensures DifferentIds(r, r.listed[k], r.listed[m])
    {
      ApartPair(b, r, l, r.listed[k], r.listed[m]);
    }
  }

  lemma ApartPair(b: BlockState, r: BlockState, l: object, x: object, y: object)
    requires OwnIds(b) && x != y && x in r.listed && y in r.listed && x in b.lobbies && y in b.lobbies
    requires l in b.lobbies && (x == l || x in b.listed) && (y == l || y in b.listed)
    requires x in r.lobbies && y in r.lobbies
    requires r.lobbies[x].terms == b.lobbies[x].terms && r.lobbies[y].terms == b.lobbies[y].terms
    requires l !in r.listed || !exists z: object :: z in r.listed && z in b.listed && SharesId(b, z, l)
    ensures DifferentIds(r, x, y)
  {
    if x == l {
      assert !SharesId(b, y, l);
    } else if y == l {
      assert !SharesId(b, x, l);
    } else {
      var k :| 0 <= k < |b.listed| && b.listed[k] == x;
      var m :| 0 <= m < |b.listed| && b.listed[m] == y;
      assert DifferentIds(b, b.listed[k], b.listed[m]);
    }
  }

  /** What is left of the list `i` once `gone`, if that is a lobby, has been taken off it. */
  ghost predicate ListedBut(r: seq<object>, i: seq<object>, gone: object?) {
    (forall x <- r :: x in i && x != gone) && forall x <- i | x != gone :: x in r
  }

  lemma OneOrNoneGone(list: seq<object>, y: object)
    requires forall i, j :: 0 <= i < j < |list| ==> list[i] != list[j]
    ensures ListedBut(Without(list, y), list, y) && ListedBut(list, list, null)
  {
    WithoutMembers(list, y);
  }

  lemma SeatedPickLists(i: BlockState, c: object, l: object, legit: bool, now: int)
    requires Core(i) && c in i.clients && l in i.listed && i.lobbies[l].count == 0 && i.clients[c].lobby != null
    ensures var me, r := i.clients[c], JoinOwn(i, c, l, legit, now).listed;
            if LetIn(i.lobbies[l], me, legit)
            then ListedBut(r, i.listed, if LastMember(i, me.lobby) then me.lobby else null) else l !in r
  {
    JoinOwnLists(i, c, l, legit, now);
    OneOrNoneGone(i.listed, i.clients[c].lobby);
  }

  lemma StrayPickLists(b: BlockState, i: BlockState, c: object, l: object, legit: bool, now: int)
    requires Core(i) && c in b.clients && c in i.clients && i.clients[c] == b.clients[c].(created := null)
    requires b.clients[c].lobby == null && i.listed == b.listed + [l] && l !in b.listed && l in i.lobbies
    requires i.lobbies == b.lobbies[l := i.lobbies[l]]
    requires i.lobbies[l].terms.kind != DefaultLobby && i.lobbies[l].count == 0
    ensures l in i.listed
    ensures var r := JoinOwn(i, c, l, legit, now).listed;
            if !b.clients[c].gcProtect && exists k :: 0 <= k < |b.listed| && Suits(b, c, b.listed[k])
            then r == i.listed else l !in r
  {
    assert i.listed[|b.listed|] == l;
    AnyIsSuited(b, i, c, l);
    StrayOwnLists(i, c, l, legit, now);
  }

  /** What is on the list after the creator of a deferred team has answered. */
  lemma PickLists(b: BlockState, c: object, choice: nat, legit: bool, now: int)
    requires Inv(b) && c in b.clients && b.clients[c].created != null
    ensures var me, l, r := b.clients[c], b.clients[c].created as object, PickGameType(b, c, choice, legit, now).listed;
            && (l in r <==> Lists(b, c, choice, legit)) && l !in b.listed
            && (l in r ==> ListedBut(r, b.listed + [l],
                                     if me.lobby != null && LastMember(b, me.lobby) then me.lobby else null))
  {
    var me, l := b.clients[c], b.clients[c].created as object;
    var s, i := Choice(b, c, choice), Release(b, c, b.clients[c].created, Choice(b, c, choice));
    PublishKeepsCore(b, c, choice);
    PickUnfolds(b, c, choice, legit, now);
    assert l !in b.listed && i.listed == b.listed + [l];
    if me.lobby != null {
      Located(b, c);
      SeatedPickLists(i, c, l, legit, now);
      ChosenLetIn(b.lobbies[l], choice, false, me, legit);
      SameButCreated(me, s, legit);
    } else {
      StrayPickLists(b, i, c, l, legit, now);
    }
  }

  /** Listing a deferred team makes two listed lobbies share an ID exactly when it stays listed and its ID is taken. */
  lemma PickKeepsOwnIds(b: BlockState, c: object, choice: nat, legit: bool, now: int)
    requires Inv(b) && OwnIds(b) && c in b.clients
    ensures OwnIds(PickGameType(b, c, choice, legit, now)) <==> !(Taken(b, c) && Lists(b, c, choice, legit))
  {
    if b.clients[c].created != null {
      var l := b.clients[c].created as object;
      var i, r := Release(b, c, b.clients[c].created, Choice(b, c, choice)), PickGameType(b, c, choice, legit, now);
      PickUnfolds(b, c, choice, legit, now);
      PickLists(b, c, choice, legit, now);
      PickGameTypeKeepsInv(b, c, choice, legit, now);
      JoinOwnWithin(i, c, l, legit, now);
      ApartAfter(b, i, r, l);
      if l in r.listed {
        var me := b.clients[c];
        TakenStays(b, r, c, l, if me.lobby != null && LastMember(b, me.lobby) then me.lobby else null);
      }
    }
  }

  lemma TakenStays(b: BlockState, r: BlockState, c: object, l: object, gone: object?)
    requires c in b.clients && b.clients[c].created == l && l !in b.listed && ListedBut(r.listed, b.listed + [l], gone)
    requires var l0 := b.clients[c].lobby; gone == if l0 != null && LastMember(b, l0) then l0 else null
    ensures Taken(b, c) <==> exists x: object :: x in r.listed && x in b.listed && SharesId(b, x, l)
  {
    if Taken(b, c) {
      var k :| 0 <= k < |b.listed| && SharesId(b, b.listed[k], l) && !GoesWith(b, c, b.listed[k]);
      assert b.listed[k] in r.listed;
    }
    if x: object :| x in r.listed && x in b.listed && SharesId(b, x, l) {
      var k :| 0 <= k < |b.listed| && b.listed[k] == x;
    }
  }

  // ---------------------------------------------------------------- runs

  ghost predicate Clashes(b: BlockState, r: Request) {
    r.Builds? && r.build.Pick? && Taken(b, r.c) && Lists(b, r.c, r.build.choice, r.build.legit)
  }

  lemma TravelKeepsOwnIds(b: BlockState, c: object, t: Travel)
    requires Inv(b) && OwnIds(b) && c in b.clients
    ensures OwnIds(StepTravel(b, c, t))
  {
    SameWithin(b, b);
    match t {
      case Go(now, accepts) => DisconnectWithin(b, c, now, accepts);
      case LeaveGame(now, accepts) => RemovePlayerWithin(b, c, now, accepts);
      case EnterAny(wish, now) => if wish != null ==> wish in b.listed { AddToAnyWithin(b, c, wish, now); }
      case Change(l, legit, now) => if l in b.listed { ChangeLobbyWithin(b, c, l, legit, now); }
      case JoinTeam(l, legit, now) => if l in b.listed { JoinOwnWithin(b, c, l, legit, now); }
    }
    WithinKeepsOwnIds(StepTravel(b, c, t), b);
  }

  lemma BuildKeepsOwnIds(b: BlockState, c: object, t: Build)
    requires Inv(b) && OwnIds(b) && c in b.clients
    ensures OwnIds(StepBuild(b, c, t)) <==> !Clashes(b, Builds(c, t))
  {
    match t
    case Create(team, game, legit, now) =>
      if team !in b.lobbies && GoodRequest(b.clients[c].version, game) && InRange(b.nextId) && HasFree(UsedIds(b)) {
        CreateGameKeepsOwnIds(b, c, team, game, legit, now);
      }
    case CreateEp3(team, view, legit, now) =>
      if team !in b.lobbies { CreateEp3GameKeepsOwnIds(b, c, team, view, legit, now); }
    case Pick(choice, legit, now) => PickKeepsOwnIds(b, c, choice, legit, now);
  }

  lemma SignalWithin(b: BlockState, c: object, t: Signal)
    requires Core(b) && c in b.clients
    ensures Within(StepSignal(b, c, t), b)
  {
    var r := StepSignal(b, c, t);
    SameWithin(b, b);
    if r.lobbies == b.lobbies {
      SameWithin(r, b);
    } else {
      ChangedWithin(r, b, b.clients[c].lobby);
    }
  }

  lemma ActionWithin(b: BlockState, c: object, a: Action)
    requires Core(b) && c in b.clients
    ensures Within(StepAction(b, c, a), b)
  {
    SameWithin(b, b);
    if b.clients[c].lobby != null && b.clients[c].lobby in b.lobbies {
      var l := b.clients[c].lobby as object;
      ApplyKeepsAdmission(b.lobbies[l], b.clients, c, b.clients[c].slot, a);
    }
  }

  /** From a block whose listed lobbies have IDs of their own, a request leads to such a block exactly when it does not
      list, for good, a team whose ID is taken. */
  lemma StepKeepsOwnIds(b: BlockState, r: Request)
    requires Inv(b) && OwnIds(b)
    ensures OwnIds(Step(b, r)) <==> !Clashes(b, r)
  {
    SameWithin(b, b);
    if r.Connects? {
      SameWithin(Step(b, r), b);
      WithinKeepsOwnIds(Step(b, r), b);
    } else if r.c in b.clients {
      match r
      case Travels(c, t) => TravelKeepsOwnIds(b, c, t);
      case Builds(c, t) => BuildKeepsOwnIds(b, c, t);
      case Signals(c, t) => SignalWithin(b, c, t); WithinKeepsOwnIds(StepSignal(b, c, t), b);
      case Acts(c, a) => ActionWithin(b, c, a); WithinKeepsOwnIds(StepAction(b, c, a), b);
    }
  }

  /** The default lobbies of a block are numbered from 1. */
  lemma {:induction false} OpenedIds(refs: seq<object>)
    requires Distinct(refs)
    ensures Opened(refs).listed == refs
    ensures forall i :: 0 <= i < |refs| ==> NumberedFrom1(Opened(refs), refs, i)
  {
    if refs != [] {
      var last := |refs| - 1;
      var init := refs[..last];
      OpenedIds(init);
      NumberOneMore(Opened(init), init, refs[last], Opened(refs).lobbies[refs[last]]);
      assert refs == init + [refs[last]];
    }
  }

  lemma NumberOneMore(b: BlockState, init: seq<object>, last: object, s: LobbyState)
    requires (forall i :: 0 <= i < |init| ==> NumberedFrom1(b, init, i)) && s.terms.lobbyId == |init| + 1
    requires forall i :: 0 <= i < |init| ==> init[i] != last
    ensures forall i :: 0 <= i <= |init| ==> NumberedFrom1(Insert(b, last, s), init + [last], i)
  {
    forall i | 0 <= i <= |init| ensures NumberedFrom1(Insert(b, last, s), init + [last], i) {
      if i < |init| {
        assert NumberedFrom1(b, init, i);
      }
    }
  }

  ghost predicate NumberedFrom1(b: BlockState, refs: seq<object>, i: nat)
    requires i < |refs|
  {
    refs[i] in b.lobbies && b.lobbies[refs[i]].terms.lobbyId == i + 1
  }

  lemma OpenedOwnIds(refs: seq<object>)
    requires Distinct(refs)
    ensures OwnIds(Opened(refs))
  {
    OpenedIds(refs);
    var b := Opened(refs);
    forall i, j | 0 <= i < |b.listed| && 0 <= j < |b.listed| && b.listed[i] != b.listed[j]
      ensures DifferentIds(b, b.listed[i], b.listed[j])
    {
      assert NumberedFrom1(b, refs, i) && NumberedFrom1(b, refs, j);
    }
  }

  lemma {:induction false} RunKeepsOwnIds(states: seq<BlockState>, requests: seq<Request>, i: nat)
    requires IsRun(states, requests) && Inv(states[0]) && OwnIds(states[0]) && i < |states|
    requires forall k :: 0 <= k < i ==> !Clashes(states[k], requests[k])
    ensures Inv(states[i]) && OwnIds(states[i])
  {
    if i > 0 {
      var k := i - 1;
      RunKeepsOwnIds(states, requests, k);
      assert Next(states[k], requests[k], states[k + 1]);
      StepKeepsInv(states[k], requests[k]);
      StepKeepsOwnIds(states[k], requests[k]);
    }
  }

  /** In a run from the opening of the block, listed lobbies have IDs of their own all along exactly when no request
      lists, for good, a deferred team whose ID is taken. */
  lemma EveryRunHasOwnIds(refs: seq<object>, states: seq<BlockState>, requests: seq<Request>)
    requires Distinct(refs) && IsRun(states, requests) && states[0] == Opened(refs)
    ensures (forall i :: 0 <= i < |states| ==> OwnIds(states[i])) <==>
              forall k :: 0 <= k < |requests| ==> !Clashes(states[k], requests[k])
  {
    OpenedInv(refs);
    OpenedOwnIds(refs);
    if forall k :: 0 <= k < |requests| ==> !Clashes(states[k], requests[k]) {
      forall i | 0 <= i < |states| ensures OwnIds(states[i]) {
        RunKeepsOwnIds(states, requests, i);
      }
    }
    if forall i :: 0 <= i < |states| ==> OwnIds(states[i]) {
      forall k | 0 <= k < |requests| ensures !Clashes(states[k], requests[k]) {
        RunKeepsInv(states, requests, k);
        var next := k + 1;
        assert OwnIds(states[k]) && OwnIds(states[next]);
        assert Next(states[k], requests[k], states[next]);
        StepKeepsOwnIds(states[k], requests[k]);
      }
    }
  }

  /** At the moment of listing that is a matter of the ID alone. */
  lemma ClashingMeansSharing(b: BlockState, c: object, choice: nat)
    requires Inv(b) && OwnIds(b) && c in b.clients && b.clients[c].created != null
    ensures OwnIds(Publish(b, c, choice)) <==> !Clash(b, c)
  {
    var l := b.clients[c].created as object;
    var b1 := PutClient(b, c, b.clients[c].(created := null));
    var s := Choice(b, c, choice);
    SameWithin(b1, b);
    WithinKeepsOwnIds(b1, b);
    assert UsedIds(b1) == UsedIds(b) && b1.lobbies == b.lobbies && l !in b1.listed;
    InsertKeepsOwnIds(b1, l, s);
  }
}
