/**
  A team's burst flag and the members that are bursting, over whole runs: exactly when a team that turns everybody away
  because of a burst has somebody in it who can end it.
 */
module Attendance {
  import opened Elections
  import opened LobbyRules
  import opened TeamIds
  import opened BlockRules
  import opened Moves
  import opened Teams
  import opened Commands
  import opened Departures
  import opened Runs

  /** `c` is bursting in lobby `x`. */
  ghost predicate BurstsIn(b: BlockState, c: object, x: object) {
    c in b.clients && b.clients[c].lobby == x && b.clients[c].bursting
  }

  ghost predicate Attended(b: BlockState, x: object)
    requires x in b.lobbies
  {
    b.lobbies[x].flags.bursting ==> exists c: object :: c in b.clients && BurstsIn(b, c, x)
  }

  /** Wherever the burst flag is set, a member is bursting. */
  ghost predicate AllAttended(b: BlockState) {
    forall x: object :: x in b.lobbies ==> Attended(b, x)
  }

  ghost predicate OthersBurst(b: BlockState, c: object, x: object) {
    exists d: object :: d in b.clients && d != c && BurstsIn(b, d, x)
  }

  /** `c`, the only one bursting in a team, is in another lobby afterwards, and the team goes on. */
  ghost predicate Leaves(b: BlockState, c: object, after: BlockState) {
    && c in b.clients && b.clients[c].lobby != null && b.clients[c].lobby in b.lobbies && b.clients[c].bursting
    && b.lobbies[b.clients[c].lobby as object].flags.bursting && !OthersBurst(b, c, b.clients[c].lobby)
    && c in after.clients && after.clients[c].lobby != null && after.clients[c].lobby != b.clients[c].lobby
    && b.clients[c].lobby in after.lobbies
  }

  /** `c` is in a lobby whose burst flag is set, and the only one bursting there. */
  ghost predicate BurstsAlone(b: BlockState, c: object) {
    && c in b.clients && b.clients[c].lobby != null && b.clients[c].lobby in b.lobbies && b.clients[c].bursting
    && b.lobbies[b.clients[c].lobby as object].flags.bursting && !OthersBurst(b, c, b.clients[c].lobby)
  }

  /** The only one bursting in a team with others in it, or in a default lobby, is let in elsewhere. */
  ghost predicate Deserts(b: BlockState, r: Request) {
    !r.Connects? && BurstsAlone(b, r.c) && Shifts(b, r) && !LastMember(b, b.clients[r.c].lobby)
  }

  lemma DesertsExactly(b: BlockState, r: Request)
    requires Inv(b) && !r.Connects? && r.c in b.clients
    ensures Leaves(b, r.c, Step(b, r)) <==> Deserts(b, r)
  {
    if b.clients[r.c].lobby != null {
      if Quits(b, r) {
        QuitsExactly(b, r);
      } else {
        ShiftsExactly(b, r);
      }
    }
  }

  // ---------------------------------------------------------------- requests that move a client

  ghost predicate OthersStay(after: BlockState, b: BlockState, c: object) {
    && (forall d: object :: d in b.clients && d != c ==>
          d in after.clients && after.clients[d].lobby == b.clients[d].lobby
          && after.clients[d].bursting == b.clients[d].bursting)
    && forall d: object :: d in after.clients && d != c ==> d in b.clients
  }

  ghost predicate FlagKept(after: BlockState, b: BlockState, x: object)
    requires x in after.lobbies
  {
    if x in b.lobbies then after.lobbies[x].flags.bursting == b.lobbies[x].flags.bursting
    else !after.lobbies[x].flags.bursting
  }

  /** From `b` to `after` only `c` moves, and at most the lobby it enters has its flag set, by `c` bursting. */
  ghost predicate Moved(after: BlockState, b: BlockState, c: object) {
    && OthersStay(after, b, c) && c in b.clients && c in after.clients
    && (b.clients[c].bursting ==> after.clients[c].bursting)
    && (after.clients[c].lobby == b.clients[c].lobby || after.clients[c].lobby != null)
    && forall x: object :: x in after.lobbies ==> FlagKept(after, b, x) || BurstsIn(after, c, x)
  }

  /** From `b` to `after` nobody moves, and no flag changes. */
  ghost predicate Unmoved(after: BlockState, b: BlockState, c: object) {
    && OthersStay(after, b, c) && c in b.clients && c in after.clients && b.lobbies.Keys <= after.lobbies.Keys
    && after.clients[c].bursting == b.clients[c].bursting && after.clients[c].lobby == b.clients[c].lobby
    && forall x: object :: x in after.lobbies ==> FlagKept(after, b, x)
  }

  lemma MovedExactly(after: BlockState, b: BlockState, c: object)
    requires Moved(after, b, c) && AllAttended(b)
    ensures AllAttended(after) <==> !Leaves(b, c, after)
  {
    if Leaves(b, c, after) {
      var l := b.clients[c].lobby as object;
      assert FlagKept(after, b, l);
      forall d: object | d in after.clients ensures !BurstsIn(after, d, l) {
        assert d != c ==> !BurstsIn(b, d, l);
      }
      assert !Attended(after, l);
    } else {
      forall x: object | x in after.lobbies ensures Attended(after, x) {
        StillAttended(after, b, c, x);
      }
    }
  }

  lemma StillAttended(after: BlockState, b: BlockState, c: object, x: object)
    requires Moved(after, b, c) && AllAttended(b) && !Leaves(b, c, after) && x in after.lobbies
    ensures Attended(after, x)
  {
    if after.lobbies[x].flags.bursting && !BurstsIn(after, c, x) {
      assert FlagKept(after, b, x) && Attended(b, x);
      var d: object :| d in b.clients && BurstsIn(b, d, x);
      if d != c {
        assert BurstsIn(after, d, x);
      } else if OthersBurst(b, c, x) {
        var e: object :| e in b.clients && e != c && BurstsIn(b, e, x);
        assert BurstsIn(after, e, x);
      }
    }
  }

  lemma UnmovedThenMoved(after: BlockState, m: BlockState, b: BlockState, c: object)
    requires Unmoved(m, b, c) && Moved(after, m, c)
    ensures Moved(after, b, c)
  {
    forall x: object | x in after.lobbies ensures FlagKept(after, b, x) || BurstsIn(after, c, x) {
      if !BurstsIn(after, c, x) {
        assert FlagKept(after, m, x);
        assert x in m.lobbies ==> FlagKept(m, b, x);
        assert x !in m.lobbies ==> x !in b.lobbies.Keys;
      }
    }
  }

  lemma MovedThenFewer(after: BlockState, m: BlockState, b: BlockState, c: object)
    requires Moved(m, b, c) && after.clients == m.clients
    requires forall x: object :: x in after.lobbies ==> x in m.lobbies && after.lobbies[x] == m.lobbies[x]
    ensures Moved(after, b, c)
  {
    forall x: object | x in after.lobbies ensures FlagKept(after, b, x) || BurstsIn(after, c, x) {
      assert FlagKept(m, b, x) || BurstsIn(m, c, x);
    }
  }

  lemma NobodyMoved(b: BlockState, c: object)
    requires c in b.clients
    ensures Moved(b, b, c) && Unmoved(b, b, c)
  {
  }

  lemma EnterKeepsFlag(l: LobbyState, c: object, byOverride: bool)
    requires Shape(l) && Subscribed(l) && l.count < l.terms.maxClients
    ensures Entered(l, c, byOverride).flags.bursting == l.flags.bursting
  {
  }

  lemma LeaveKeepsFlag(l: LobbyState, slot: nat, seats: seq<Seat>, now: int)
    requires Subscribed(l) && slot < LOBBY_MAX_CLIENTS
    requires l.terms.kind != DefaultLobby ==> slot < LOBBY_MAX_IN_TEAM
    ensures Leave(l, slot, seats, now).flags.bursting == l.flags.bursting
  {
  }

  lemma JoinMoves(b: BlockState, c: object, l: object, now: int, byOverride: bool)
    requires Core(b) && c in b.clients && l in b.lobbies && b.lobbies[l].count < b.lobbies[l].terms.maxClients
    ensures Shape(b.lobbies[l]) && Subscribed(b.lobbies[l]) && Moved(Join(b, c, l, now, byOverride), b, c)
  {
    assert Sound(b.lobbies[l]);
    EnterKeepsFlag(b.lobbies[l], c, byOverride);
  }

  lemma ArriveMoves(b: BlockState, c: object, l: object)
    requires c in b.clients && b.clients[c].lobby == l
    ensures Moved(Arrive(b, c, l), b, c)
  {
  }

  /** The two lobbies of a move, and the client. */
  lemma ShiftMoves(b: BlockState, c: object, req: object, s: LobbyState, taken: nat, now: int, l: object,
                   left: LobbyState)
    requires c in b.clients && b.clients[c].lobby == l && l in b.lobbies && req in b.lobbies && req != l
    requires s.flags.bursting == b.lobbies[req].flags.bursting && left.flags.bursting == b.lobbies[l].flags.bursting
    ensures var m := Rise(Sit(b, c, req, s, taken, now), c, l, left);
            && Moved(m, b, c) && c in m.clients && m.clients[c].lobby == req
            && forall x: object :: x in m.lobbies ==> FlagKept(m, b, x)
  {
  }

  lemma ConcludeMoves(m: BlockState, b: BlockState, c: object, req: object, l: object)
    requires Moved(m, b, c) && m.clients[c].lobby == req && forall x: object :: x in m.lobbies ==> FlagKept(m, b, x)
    ensures Moved(DestroyIfEmpty(Arrive(m, c, req), l), b, c)
  {
    var a := Arrive(m, c, req);
    forall x: object | x in a.lobbies ensures FlagKept(a, b, x) || BurstsIn(a, c, x) {
      assert FlagKept(m, b, x);
    }
    MovedThenFewer(DestroyIfEmpty(a, l), a, b, c);
  }

  lemma RelocateMoves(b: BlockState, c: object, req: object, now: int, byOverride: bool)
    requires Core(b) && c in b.clients && b.clients[c].lobby != null && req in b.lobbies && req != b.clients[c].lobby
    requires b.lobbies[req].count < b.lobbies[req].terms.maxClients
    ensures Moved(Relocate(b, c, req, now, byOverride), b, c)
  {
    MoveUnfolds(b, c, req, now, byOverride);
    var l, slot := b.clients[c].lobby as object, b.clients[c].slot;
    var j := Join(b, c, req, now, byOverride);
    EnterKeepsFlag(b.lobbies[req], c, byOverride);
    LeaveKeepsFlag(b.lobbies[l], slot, SeatsOf(b.lobbies[l].slots, j.clients), now);
    ShiftMoves(b, c, req, Entered(b.lobbies[req], c, byOverride), NextSlot(b.lobbies[req]), now, l,
               Leave(b.lobbies[l], slot, SeatsOf(b.lobbies[l].slots, j.clients), now));
    ConcludeMoves(Move(b, c, req, now, byOverride), b, c, req, l);
  }

  lemma AddToAnyMoves(b: BlockState, c: object, req: object?, now: int)
    requires Core(b) && c in b.clients && (req != null ==> req in b.listed)
    ensures Moved(AddToAny(b, c, req, now).block, b, c)
  {
    var l := AnyLobby(b, c, req);
    NobodyMoved(b, c);
    if l != null {
      assert l in b.lobbies && Sound(b.lobbies[l]);
      JoinMoves(b, c, l, now, false);
    }
  }

  lemma DecideMoves(b: BlockState, c: object, req: object, refusal: int, byOverride: bool, now: int)
    requires Core(b) && c in b.clients && req in b.listed
    ensures Moved(Decide(b, c, req, refusal, byOverride, now).block, b, c)
  {
    NobodyMoved(b, c);
    if b.clients[c].lobby == null {
      AddToAnyMoves(b, c, req, now);
    } else if refusal == 0 {
      if b.clients[c].lobby == req {
        ArriveMoves(b, c, req);
      } else if b.lobbies[req].count < b.lobbies[req].terms.maxClients {
        RelocateMoves(b, c, req, now, byOverride);
      }
    }
  }

  lemma PutClientUnmoves(b: BlockState, c: object, t: ClientState)
    requires c in b.clients && t.bursting == b.clients[c].bursting && t.lobby == b.clients[c].lobby
    ensures Unmoved(PutClient(b, c, t), b, c)
  {
  }

  lemma ChangeLobbyMoves(b: BlockState, c: object, req: object, legit: bool, now: int)
    requires Core(b) && c in b.clients && req in b.listed
    ensures Moved(ChangeLobby(b, c, req, legit, now).block, b, c)
  {
    var me := b.clients[c];
    var b1 := PutClient(b, c, me.(override := false));
    ChangeLobbyUnfolds(b, c, req, legit, now);
    PutClientUnmoves(b, c, me.(override := false));
    DecideMoves(b1, c, req, Refusal(b.lobbies[req], me, legit), me.override, now);
    UnmovedThenMoved(ChangeLobby(b, c, req, legit, now).block, b1, b, c);
  }

  lemma JoinOwnMoves(b: BlockState, c: object, l: object, legit: bool, now: int)
    requires Core(b) && c in b.clients && l in b.listed
    ensures Moved(JoinGame(b, c, l, legit, now).block, b, c) && Moved(JoinOwn(b, c, l, legit, now), b, c)
  {
    NobodyMoved(b, c);
    ChangeLobbyMoves(b, c, l, legit, now);
    var o := JoinGame(b, c, l, legit, now);
    MovedThenFewer(Destroy(o.block, l), o.block, b, c);
  }

  lemma LaunchMoves(b: BlockState, b1: BlockState, c: object, l: object, s: LobbyState, legit: bool, now: int)
    requires c in b1.clients && Unmoved(b1, b, c) && Core(Insert(b1, l, s))
    requires if l in b1.lobbies then s.flags.bursting == b1.lobbies[l].flags.bursting else !s.flags.bursting
    ensures l in Insert(b1, l, s).listed && Moved(JoinOwn(Insert(b1, l, s), c, l, legit, now), b, c)
  {
    var i := Insert(b1, l, s);
    assert i.listed[|b1.listed|] == l;
    InsertUnmoves(b1, c, l, s);
    JoinOwnMoves(i, c, l, legit, now);
    UnmovedThenMoved(JoinOwn(i, c, l, legit, now), i, b1, c);
    UnmovedThenMoved(JoinOwn(i, c, l, legit, now), b1, b, c);
  }

  lemma InsertUnmoves(b: BlockState, c: object, l: object, s: LobbyState)
    requires c in b.clients
    requires if l in b.lobbies then s.flags.bursting == b.lobbies[l].flags.bursting else !s.flags.bursting
    ensures Unmoved(Insert(b, l, s), b, c)
  {
  }

  lemma HoldMoves(b: BlockState, b1: BlockState, c: object, l: object, s: LobbyState)
    requires c in b.clients && b1.lobbies == b.lobbies && b1.clients == b.clients && l !in b.lobbies
               && !s.flags.bursting
    ensures Moved(Hold(b1, c, l, s), b, c)
  {
  }

  lemma CreateGameMoves(b: BlockState, c: object, l: object, p: GameRequest, legit: bool, now: int)
    requires Inv(b) && c in b.clients && l !in b.lobbies && GoodRequest(b.clients[c].version, p)
    requires InRange(b.nextId) && HasFree(UsedIds(b))
    ensures Moved(CreateGame(b, c, l, p, legit, now), b, c)
  {
    var id := NextFree(UsedIds(b), b.nextId);
    CreateGameUnfolds(b, c, l, p, legit, now);
    MadeMoves(b, b.(nextId := After(id)), c, l, NewGame(b, c, p, id), legit, now, CreateGame(b, c, l, p, legit, now));
  }

  lemma MadeMoves(b: BlockState, b1: BlockState, c: object, l: object, s: LobbyState, legit: bool, now: int,
                  r: BlockState)
    requires c in b.clients && l !in b.lobbies && !s.flags.bursting
    requires b1.lobbies == b.lobbies && b1.clients == b.clients
    requires r == b || r == Hold(b1, c, l, s) || (l in Insert(b1, l, s).listed && Core(Insert(b1, l, s)) &&
                                                  r == JoinOwn(Insert(b1, l, s), c, l, legit, now))
    ensures Moved(r, b, c)
  {
    if r == b {
      NobodyMoved(b, c);
    } else if r == Hold(b1, c, l, s) {
      HoldMoves(b, b1, c, l, s);
    } else {
      SameUnmoved(b, b1, c);
      LaunchMoves(b, b1, c, l, s, legit, now);
    }
  }

  lemma SameUnmoved(b: BlockState, b1: BlockState, c: object)
    requires c in b.clients && b1.lobbies == b.lobbies && b1.clients == b.clients
    ensures Unmoved(b1, b, c)
  {
  }

  lemma CreateEp3GameMoves(b: BlockState, c: object, l: object, viewBattle: bool, legit: bool, now: int)
    requires Inv(b) && c in b.clients && l !in b.lobbies
    ensures Moved(CreateEp3Game(b, c, l, viewBattle, legit, now), b, c)
  {
    CreateEp3GameUnfolds(b, c, l, viewBattle, legit, now);
    NobodyMoved(b, c);
    LaunchMoves(b, b, c, l, NewEp3Game(b, c, viewBattle), legit, now);
  }

  lemma PickMoves(b: BlockState, c: object, choice: nat, legit: bool, now: int)
    requires Inv(b) && c in b.clients
    ensures Moved(PickGameType(b, c, choice, legit, now), b, c)
  {
    if b.clients[c].created == null {
      NobodyMoved(b, c);
    } else {
      var l := b.clients[c].created as object;
      PickUnfolds(b, c, choice, legit, now);
      PutClientUnmoves(b, c, b.clients[c].(created := null));
      ChosenKeepsFlag(b.lobbies[l], choice, b.clients[c].lobby == null);
      LaunchMoves(b, PutClient(b, c, b.clients[c].(created := null)), c, l, Choice(b, c, choice), legit, now);
    }
  }

  lemma ChosenKeepsFlag(l: LobbyState, choice: nat, strayed: bool)
    ensures Chosen(l, choice, strayed).flags.bursting == l.flags.bursting
  {
  }

  lemma BuildMoves(b: BlockState, c: object, t: Build)
    requires Inv(b) && c in b.clients
    ensures Moved(StepBuild(b, c, t), b, c)
  {
    NobodyMoved(b, c);
    match t
    case Create(team, game, legit, now) =>
      if team !in b.lobbies && GoodRequest(b.clients[c].version, game) && InRange(b.nextId) && HasFree(UsedIds(b)) {
        CreateGameMoves(b, c, team, game, legit, now);
      }
    case CreateEp3(team, view, legit, now) =>
      if team !in b.lobbies { CreateEp3GameMoves(b, c, team, view, legit, now); }
    case Pick(choice, legit, now) => PickMoves(b, c, choice, legit, now);
  }

  lemma TravelMoves(b: BlockState, c: object, t: Travel)
    requires Inv(b) && c in b.clients && !t.Go? && !t.LeaveGame?
    ensures Moved(StepTravel(b, c, t), b, c)
  {
    NobodyMoved(b, c);
    match t
    case EnterAny(wish, now) => if wish != null ==> wish in b.listed { AddToAnyMoves(b, c, wish, now); }
    case Change(l, legit, now) => if l in b.listed { ChangeLobbyMoves(b, c, l, legit, now); }
    case JoinTeam(l, legit, now) => if l in b.listed { JoinOwnMoves(b, c, l, legit, now); }
  }

  // ---------------------------------------------------------------- requests after which nobody is missing

  /** Lobby `l` has its flag no longer; everybody but `c` is as before, and so are the flags of other lobbies. */
  ghost predicate Ended(after: BlockState, b: BlockState, c: object, l: object) {
    && OthersStay(after, b, c) && c in b.clients && b.clients[c].lobby == l
    && forall x: object :: x in after.lobbies ==>
         x in b.lobbies && (if x == l then !after.lobbies[x].flags.bursting
                            else after.lobbies[x].flags.bursting == b.lobbies[x].flags.bursting)
  }

  lemma EndedIsAttended(after: BlockState, b: BlockState, c: object, l: object)
    requires Ended(after, b, c, l) && AllAttended(b)
    ensures AllAttended(after)
  {
    forall x: object | x in after.lobbies && after.lobbies[x].flags.bursting ensures Attended(after, x) {
      assert Attended(b, x);
      var d: object :| d in b.clients && BurstsIn(b, d, x);
      assert BurstsIn(after, d, x);
    }
  }

  /** `c` goes, and was not bursting; lobbies keep their flags or go. */
  ghost predicate Gone(after: BlockState, b: BlockState, c: object) {
    && OthersStay(after, b, c) && c in b.clients && (b.clients[c].lobby != null ==> !b.clients[c].bursting)
    && forall x: object :: x in after.lobbies ==>
         x in b.lobbies && after.lobbies[x].flags.bursting == b.lobbies[x].flags.bursting
  }

  lemma GoneIsAttended(after: BlockState, b: BlockState, c: object)
    requires Gone(after, b, c) && AllAttended(b)
    ensures AllAttended(after)
  {
    forall x: object | x in after.lobbies && after.lobbies[x].flags.bursting ensures Attended(after, x) {
      assert Attended(b, x);
      var d: object :| d in b.clients && BurstsIn(b, d, x);
      assert BurstsIn(after, d, x);
    }
  }

  lemma RemovePlayerEnds(b: BlockState, c: object, now: int, accepts: Packet -> bool)
    requires Inv(b) && c in b.clients
    ensures var r := RemovePlayer(b, c, now, accepts);
            if b.clients[c].lobby != null && b.clients[c].bursting then Ended(r, b, c, b.clients[c].lobby)
              else Gone(r, b, c)
    ensures c in RemovePlayer(b, c, now, accepts).clients
    ensures b.clients[c].lobby != null ==> RemovePlayer(b, c, now, accepts).clients[c].lobby == null
  {
    if b.clients[c].lobby != null {
      Located(b, c);
      var l, slot := b.clients[c].lobby as object, b.clients[c].slot;
      if b.clients[c].bursting {
        WithdrawnEnds(Put(b, l, EndBurst(b.lobbies[l], accepts)), b, c, slot, l, now);
      } else {
        WithdrawnEnds(b, b, c, slot, l, now);
      }
    }
  }

  /** Out of a lobby that has become what it is in `b1`. */
  lemma WithdrawnEnds(b1: BlockState, b: BlockState, c: object, slot: nat, l: object, now: int)
    requires c in b.clients && b.clients[c].lobby == l && l in b.lobbies && l in b1.lobbies
    requires b1 == Put(b, l, b1.lobbies[l]) && Subscribed(b1.lobbies[l]) && slot < LOBBY_MAX_CLIENTS
    requires b1.lobbies[l].terms.kind != DefaultLobby ==> slot < LOBBY_MAX_IN_TEAM
    ensures var r := DestroyIfEmpty(Part(b1, c, slot, l, now), l);
            && c in r.clients && r.clients[c].lobby == null
            && (!b1.lobbies[l].flags.bursting ==> Ended(r, b, c, l))
            && (b1.lobbies[l].flags.bursting == b.lobbies[l].flags.bursting && !b.clients[c].bursting ==> Gone(r, b, c))
  {
    var left := Leave(b1.lobbies[l], slot, SeatsOf(b1.lobbies[l].slots, b1.clients), now);
    LeaveKeepsFlag(b1.lobbies[l], slot, SeatsOf(b1.lobbies[l].slots, b1.clients), now);
    assert b.lobbies[l := b1.lobbies[l]][l := left] == b.lobbies[l := left];
    RiseEnds(DestroyIfEmpty(Part(b1, c, slot, l, now), l), b, c, l, left);
  }

  lemma RiseEnds(r: BlockState, b: BlockState, c: object, l: object, left: LobbyState)
    requires c in b.clients && b.clients[c].lobby == l && l in b.lobbies
    requires r.clients == b.clients[c := b.clients[c].(lobby := null, slot := 0)]
    requires r.lobbies == b.lobbies[l := left] || r.lobbies == b.lobbies[l := left] - {l}
    ensures !left.flags.bursting ==> Ended(r, b, c, l)
    ensures left.flags.bursting == b.lobbies[l].flags.bursting && !b.clients[c].bursting ==> Gone(r, b, c)
  {
  }

  lemma ForgetKeepsFlags(r: BlockState, b: BlockState, c: object, l: object)
    requires c in r.clients
    ensures Ended(r, b, c, l) ==> Ended(Forget(r, c), b, c, l)
    ensures Gone(r, b, c) ==> Gone(Forget(r, c), b, c)
  {
  }

  lemma LeavingIsAttended(b: BlockState, c: object, now: int, accepts: Packet -> bool)
    requires Inv(b) && c in b.clients && AllAttended(b)
    ensures AllAttended(RemovePlayer(b, c, now, accepts)) && AllAttended(Disconnect(b, c, now, accepts))
  {
    var r := RemovePlayer(b, c, now, accepts);
    RemovePlayerEnds(b, c, now, accepts);
    if b.clients[c].lobby != null && b.clients[c].bursting {
      ForgetKeepsFlags(r, b, c, b.clients[c].lobby);
      EndedIsAttended(r, b, c, b.clients[c].lobby);
      EndedIsAttended(Forget(r, c), b, c, b.clients[c].lobby);
    } else {
      ForgetKeepsFlags(r, b, c, c);
      GoneIsAttended(r, b, c);
      GoneIsAttended(Forget(r, c), b, c);
    }
  }

  lemma PutEnds(b: BlockState, c: object, l: object, s: LobbyState, t: ClientState)
    requires c in b.clients && b.clients[c].lobby == l && l in b.lobbies && !s.flags.bursting && AllAttended(b)
    ensures AllAttended(PutClient(Put(b, l, s), c, t))
  {
    EndedIsAttended(PutClient(Put(b, l, s), c, t), b, c, l);
  }

  lemma PutUnmoves(b: BlockState, c: object, l: object, s: LobbyState)
    requires c in b.clients && l in b.lobbies && s.flags.bursting == b.lobbies[l].flags.bursting && AllAttended(b)
    ensures AllAttended(Put(b, l, s))
  {
    MovedExactly(Put(b, l, s), b, c);
  }

  lemma QuietClientAttended(b: BlockState, c: object, t: ClientState)
    requires c in b.clients && t.lobby == b.clients[c].lobby && t.bursting == b.clients[c].bursting && AllAttended(b)
    ensures AllAttended(PutClient(b, c, t))
  {
    MovedExactly(PutClient(b, c, t), b, c);
  }

  lemma SignalIsAttended(b: BlockState, c: object, t: Signal)
    requires Inv(b) && c in b.clients && AllAttended(b)
    ensures AllAttended(StepSignal(b, c, t))
  {
    var me := b.clients[c];
    if t.SetOverride? {
      QuietClientAttended(b, c, me.(override := t.on));
    } else if me.lobby != null && me.lobby in b.lobbies {
      var l := me.lobby as object;
      match t {
        case BurstDone(accepts) =>
          PutEnds(b, c, l, EndBurst(b.lobbies[l], accepts), me.(bursting := false));
          QuietClientAttended(b, c, me.(waitQping := true));
        case Ping(accepts) =>
          PutEnds(b, c, l, EndQuestBurst(b.lobbies[l], accepts), me.(bursting := false, waitQping := false));
        case NteLoadDone => PutEnds(b, c, l, NteLoaded(b.lobbies[l]), me.(bursting := false));
        case SendPacket(command, body, forResend) =>
          if !Diverted(me) { PutUnmoves(b, c, l, Enqueue(b.lobbies[l], Packet(c, command, body), forResend)); }
        case _ =>
      }
    }
  }

  lemma ApplyKeepsFlag(l: LobbyState, clients: map<object, ClientState>, c: object, slot: nat, a: Action)
    ensures Apply(l, clients, c, slot, a).flags.bursting == l.flags.bursting
  {
    match a
    case SetMinLevel(limit) => assert MinLevel(l, slot, limit).flags == l.flags;
    case SetMaxLevel(limit) => assert MaxLevel(l, slot, limit).flags == l.flags;
    case SetDcOnly(off) => assert DcOnly(l, clients, slot, off).flags.bursting == l.flags.bursting;
    case SetV1Only(off) => assert V1Only(l, clients, slot, off).flags.bursting == l.flags.bursting;
    case AllowGamecube(gm, off) => assert AllowGc(l, slot, gm, off).flags.bursting == l.flags.bursting;
    case BringNpc(good) => assert AddNpc(l, good).flags.bursting == l.flags.bursting;
    case ChooseQuest(begin) => assert SelectQuest(l, begin).flags.bursting == l.flags.bursting;
    case BeginQuest(joinable, data) => assert LoadQuest(l, joinable, data).flags.bursting == l.flags.bursting;
    case AskForCount(reg) => assert AskCount(l, c, slot, reg).flags == l.flags;
  }

  lemma ActionIsAttended(b: BlockState, c: object, a: Action)
    requires Inv(b) && c in b.clients && AllAttended(b)
    ensures AllAttended(StepAction(b, c, a)) && StepAction(b, c, a).clients == b.clients
  {
    if b.clients[c].lobby != null && b.clients[c].lobby in b.lobbies {
      var l := b.clients[c].lobby as object;
      ApplyKeepsFlag(b.lobbies[l], b.clients, c, b.clients[c].slot, a);
      PutUnmoves(b, c, l, Apply(b.lobbies[l], b.clients, c, b.clients[c].slot, a));
    }
  }

  lemma ConnectIsAttended(b: BlockState, r: Request)
    requires Core(b) && r.Connects? && AllAttended(b)
    ensures AllAttended(Step(b, r))
  {
    MoreIsAttended(Step(b, r), b);
  }

  lemma MoreIsAttended(after: BlockState, b: BlockState)
    requires after.lobbies == b.lobbies && AllAttended(b)
    requires forall d: object :: d in b.clients ==> d in after.clients && after.clients[d] == b.clients[d]
    ensures AllAttended(after)
  {
    forall x: object | x in b.lobbies && b.lobbies[x].flags.bursting ensures Attended(after, x) {
      assert Attended(b, x);
      var d: object :| d in b.clients && BurstsIn(b, d, x);
      assert BurstsIn(after, d, x);
    }
  }

  lemma SignalStays(b: BlockState, c: object, t: Signal)
    requires Core(b) && c in b.clients
    ensures c in StepSignal(b, c, t).clients && StepSignal(b, c, t).clients[c].lobby == b.clients[c].lobby
  {
    match t
    case BurstDone(accepts) => assert DoneBurst(b, c, accepts).clients[c].lobby == b.clients[c].lobby;
    case Ping(accepts) => assert QuestPing(b, c, accepts).clients[c].lobby == b.clients[c].lobby;
    case NteLoadDone => assert NteDone(b, c).clients[c].lobby == b.clients[c].lobby;
    case SendPacket(command, body, forResend) => assert HoldBack(b, c, command, body, forResend).clients == b.clients;
    case SetOverride(on) =>
  }

  lemma TravelExactly(b: BlockState, c: object, t: Travel)
    requires Inv(b) && c in b.clients && AllAttended(b)
    ensures AllAttended(StepTravel(b, c, t)) <==> !Leaves(b, c, StepTravel(b, c, t))
  {
    match t
    case Go(now, accepts) =>
      LeavingIsAttended(b, c, now, accepts);
      DisconnectKeepsInv(b, c, now, accepts);
    case LeaveGame(now, accepts) =>
      LeavingIsAttended(b, c, now, accepts);
      RemovePlayerEnds(b, c, now, accepts);
    case _ =>
      TravelMoves(b, c, t);
      MovedExactly(StepTravel(b, c, t), b, c);
  }

  /** From a block in which every set flag has a bursting member, a request leads to such a block exactly unless the
      only one bursting in a lobby that goes on is let in elsewhere. */
  lemma StepIsAttended(b: BlockState, r: Request)
    requires Inv(b) && AllAttended(b)
    ensures AllAttended(Step(b, r)) <==> !Deserts(b, r)
  {
    if r.Connects? {
      ConnectIsAttended(b, r);
    } else if r.c in b.clients {
      DesertsExactly(b, r);
      match r
      case Travels(c, t) => TravelExactly(b, c, t);
      case Builds(c, t) =>
        BuildMoves(b, c, t);
        MovedExactly(StepBuild(b, c, t), b, c);
      case Signals(c, t) =>
        SignalIsAttended(b, c, t);
        SignalStays(b, c, t);
      case Acts(c, a) => ActionIsAttended(b, c, a);
    }
  }

  lemma {:induction false} AttendedUpTo(states: seq<BlockState>, requests: seq<Request>, i: nat)
    requires IsRun(states, requests) && Inv(states[0]) && AllAttended(states[0]) && i < |states|
    requires forall k :: 0 <= k < i ==> !Deserts(states[k], requests[k])
    ensures Inv(states[i]) && AllAttended(states[i])
  {
    if i > 0 {
      var k := i - 1;
      AttendedUpTo(states, requests, k);
      assert Next(states[k], requests[k], states[k + 1]);
      StepKeepsInv(states[k], requests[k]);
      StepIsAttended(states[k], requests[k]);
    }
  }

  lemma NotDeserted(b: BlockState, r: Request, after: BlockState)
    requires Inv(b) && Runs.Next(b, r, after) && AllAttended(b) && AllAttended(after)
    ensures !Deserts(b, r)
  {
    StepIsAttended(b, r);
  }

  lemma {:induction false} OpenedIsAttended(refs: seq<object>)
    ensures AllAttended(Opened(refs))
  {
    if refs != [] {
      OpenedIsAttended(refs[..|refs| - 1]);
      var b := Opened(refs[..|refs| - 1]);
      forall x: object | x in Opened(refs).lobbies ensures Attended(Opened(refs), x) {
        assert x in b.lobbies ==> Attended(b, x);
      }
    }
  }

  /** In every run a lobby whose burst flag is set has a bursting member, all along, exactly when nobody who is the only
      one bursting in a lobby that goes on is let in elsewhere. */
  lemma BurstsAreAttended(refs: seq<object>, states: seq<BlockState>, requests: seq<Request>)
    requires Distinct(refs) && IsRun(states, requests) && states[0] == Opened(refs)
    ensures (forall i :: 0 <= i < |states| ==> AllAttended(states[i])) <==>
              forall i :: 0 <= i < |requests| ==> !Deserts(states[i], requests[i])
  {
    OpenedInv(refs);
    OpenedIsAttended(refs);
    if forall i :: 0 <= i < |states| ==> AllAttended(states[i]) {
      forall i | 0 <= i < |requests| ensures !Deserts(states[i], requests[i]) {
        RunKeepsInv(states, requests, i);
        NotDeserted(states[i], requests[i], states[i + 1]);
      }
    }
    if forall i :: 0 <= i < |requests| ==> !Deserts(states[i], requests[i]) {
      forall i | 0 <= i < |states| ensures AllAttended(states[i]) {
        AttendedUpTo(states, requests, i);
      }
    }
  }
}
