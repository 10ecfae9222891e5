/**
  What requests do to a block, told field by field: who ends up where, and in which state a lobby is left (src/lobby.c,
  src/block.c, src/commands.c).
 */
module BlockEffects {
  import opened BlockRules
  import opened Commands
  import opened Elections
  import opened LobbyEffects
  import opened LobbyRules
  import opened Moves
  import opened TeamIds
  import opened Teams

  // ---------------------------------------------------------------- why a client is refused

  /** A client is refused for the first of these reasons that applies. The override silences those of the team's policy
      (-13 to -11, -9) and of levels (-4, -5), and no others. */
  lemma RefusalCodes(l: LobbyState, me: ClientState, legit: bool)
    ensures var rc, v1, bound := Refusal(l, me, legit), me.version == DCv1, !me.override;
            && (rc == -15 <==> l.terms.kind == Game && l.version == DCv1 && me.lateClass)
            && (rc == -14 <==> rc != -15 && l.flags.singlePlayer && l.count != 0)
            && (rc == -13 <==> rc !in {-15, -14} && bound && l.flags.pcOnly && me.version != PC)
            && (rc == -12 <==> rc !in {-15, -14, -13} && bound && l.flags.v1Only && !v1)
            && (rc == -11 <==> rc !in {-15, -14, -13, -12} && bound && l.flags.dcOnly && !v1 && me.version != DCv2)
            && (rc == -10 <==> (rc == 0 || -10 <= rc) && l.flags.tempUnavail)
            && (rc == -3 <==> (rc == 0 || -9 <= rc) && l.flags.bursting)
            && (rc == -7 <==> rc in {0, -9, -8, -7, -6, -5, -4} && l.flags.questing && !l.quest.joinable)
            && (rc == -8 <==> rc in {0, -9, -8, -6, -5, -4} && l.flags.questSel)
            && (rc == -4 <==> rc in {0, -9, -6, -5, -4} && bound && me.level + 1 < l.minLevel)
            && (rc == -5 <==> rc in {0, -9, -6, -5} && bound && l.maxLevel < me.level + 1)
            && (rc == -6 <==> rc in {0, -9, -6} && v1 && l.v2)
            && (rc == -9 <==> rc in {0, -9} && bound && l.terms.kind == Game && l.terms.legitMode && !legit)
            && rc in {0, -3, -4, -5, -6, -7, -8, -9, -10, -11, -12, -13, -14, -15}
  {
  }

  // ---------------------------------------------------------------- where a client is put

  /** A default lobby with room, and, for version 1 clients, not one of those above 10. */
  ghost predicate Accommodates(b: BlockState, l: object, version: Version) {
    && l in b.lobbies && b.lobbies[l].terms.kind == DefaultLobby && b.lobbies[l].count < b.lobbies[l].terms.maxClients
    && (version == DCv1 ==> b.lobbies[l].terms.lobbyId <= 10)
  }

  /** The lobby asked for, if it is a default lobby with room, whatever its number; or else the first on the list. */
  ghost predicate IsChoice(b: BlockState, version: Version, req: object?, l: object) {
    if req != null && Accommodates(b, req, GC) then l == req
    else exists i :: 0 <= i < |b.listed| && IsFirstListed(b, version, i, l)
  }

  ghost predicate IsFirstListed(b: BlockState, version: Version, i: nat, l: object) {
    && i < |b.listed| && b.listed[i] == l && Accommodates(b, l, version)
    && forall j :: 0 <= j < i ==> !Accommodates(b, b.listed[j], version)
  }

  /** `c` has sat down in slot `slot` of lobby `l`, and nothing else has happened to the block. */
  ghost predicate HasSatDown(b: BlockState, r: BlockState, c: object, l: object, slot: nat, now: int, byOverride: bool)
  {
    && c in b.clients && l in b.lobbies && l in r.lobbies && IsFirstFree(b.lobbies[l], slot)
    && r == b.(clients := b.clients[c := b.clients[c].(lobby := l, slot := slot, joinTime := now)],
               lobbies := b.lobbies[l := r.lobbies[l]])
    && HasBeenEntered(b.lobbies[l], r.lobbies[l], c, slot, byOverride)
  }

  ghost predicate HasBeenEntered(l: LobbyState, r: LobbyState, c: object, slot: nat, byOverride: bool) {
    && HasEntered(l, r.(history := r.history.(overriders := l.history.overriders)), c, slot) && Told(l, r)
    && r.history.overriders == if byOverride then l.history.overriders + {c} else l.history.overriders - {c}
  }

  lemma EnteredDoes(l: LobbyState, c: object, byOverride: bool)
    requires Shape(l) && Subscribed(l) && l.count < l.terms.maxClients
    ensures IsFirstFree(l, NextSlot(l)) && HasBeenEntered(l, Entered(l, c, byOverride), c, NextSlot(l), byOverride)
  {
    FirstFreeIsNext(l);
    TakeDoes(l, c, NextSlot(l));
    NotedDoes(l, Enter(l, c), c, NextSlot(l), byOverride);
  }

  lemma NotedDoes(l: LobbyState, e: LobbyState, c: object, slot: nat, byOverride: bool)
    requires HasEntered(l, e, c, slot) && Told(l, e)
    ensures HasBeenEntered(l, NoteOverride(e, c, byOverride), c, slot, byOverride)
  {
  }

  lemma JoinDoes(b: BlockState, c: object, l: object, now: int, byOverride: bool)
    requires c in b.clients && l in b.lobbies
    requires Shape(b.lobbies[l]) && Subscribed(b.lobbies[l]) && b.lobbies[l].count < b.lobbies[l].terms.maxClients
    ensures HasSatDown(b, Join(b, c, l, now, byOverride), c, l, NextSlot(b.lobbies[l]), now, byOverride)
  {
    EnteredDoes(b.lobbies[l], c, byOverride);
  }

  /** A client put into any default lobby sits in the one that is its turn; without any, nothing happens and the result
      says so. */
  lemma AddToAnyDoes(b: BlockState, c: object, req: object?, now: int)
    requires Core(b) && c in b.clients && (req != null ==> req in b.listed)
    ensures var o, v := AddToAny(b, c, req, now), b.clients[c].version;
            && o.rc in {0, 1}
            && (o.rc == 1 ==> o.block == b && forall i :: 0 <= i < |b.listed| ==> !Accommodates(b, b.listed[i], v))
            && (o.rc == 0 ==> exists l: object, slot: nat :: l in b.lobbies && slot < 12 && IsChoice(b, v, req, l) &&
                                                              HasSatDown(b, o.block, c, l, slot, now, false))
  {
    var l, v := AnyLobby(b, c, req), b.clients[c].version;
    SuitedAccommodate(b, c);
    if l != null {
      assert l in b.lobbies && Sound(b.lobbies[l]);
      JoinDoes(b, c, l, now, false);
      ChosenIsChoice(b, c, req, l);
      assert HasSatDown(b, AddToAny(b, c, req, now).block, c, l, NextSlot(b.lobbies[l]), now, false);
    } else {
      var f := FirstOpen(b, c, 0);
      assert f == |b.listed|;
    }
  }

  lemma SuitedAccommodate(b: BlockState, c: object)
    requires c in b.clients
    ensures forall l: object :: l in b.lobbies ==> (Suits(b, c, l) <==> Accommodates(b, l, b.clients[c].version))
    ensures forall i :: 0 <= i < |b.listed| ==>
              (Suits(b, c, b.listed[i]) <==> Accommodates(b, b.listed[i], b.clients[c].version))
  {
  }

  lemma ChosenIsChoice(b: BlockState, c: object, req: object?, l: object)
    requires Listing(b) && c in b.clients && (req != null ==> req in b.listed) && AnyLobby(b, c, req) == l
    ensures IsChoice(b, b.clients[c].version, req, l)
  {
    SuitedAccommodate(b, c);
    var f := FirstOpen(b, c, 0);
    if !(req != null && Accommodates(b, req, GC)) {
      assert b.listed[f] == l && IsFirstListed(b, b.clients[c].version, f, l);
    }
  }

  // ---------------------------------------------------------------- moving and leaving

  /** `r` is `b` without lobby `l`, which was at place `i` of the list. */
  ghost predicate HasEnded(b: BlockState, r: BlockState, l: object, i: nat) {
    && i < |b.listed| && b.listed[i] == l
    && r == b.(lobbies := b.lobbies - {l}, listed := b.listed[..i] + b.listed[i + 1..], numGames := b.numGames - 1)
  }

  lemma DestroyDoes(b: BlockState, l: object) returns (i: nat)
    requires Listing(b) && l in b.listed
    ensures HasEnded(b, Destroy(b, l), l, i)
  {
    i :| 0 <= i < |b.listed| && b.listed[i] == l;
    WithoutAt(b.listed, i);
  }

  /** A team that has become empty ends, and no other lobby. */
  ghost predicate Swept(b: BlockState, r: BlockState, l: object) {
    if l in b.lobbies && b.lobbies[l].terms.kind != DefaultLobby && b.lobbies[l].count == 0
    then exists i: nat :: i < |b.listed| && HasEnded(b, r, l, i) else r == b
  }

  lemma SweepDoes(b: BlockState, l: object)
    requires Listing(b) && l in b.listed
    ensures Swept(b, DestroyIfEmpty(b, l), l)
  {
    if DestroyIfEmpty(b, l) != b {
      var i := DestroyDoes(b, l);
    }
  }

  /** Block `m` is `b` after `c` has left its lobby, which has become `left`, and sat down in slot `slot` of lobby
      `req`, which has become `entered`, and bursts if it is a team. */
  ghost predicate HasMoved(b: BlockState, m: BlockState, c: object, req: object, slot: nat, now: int, byOverride: bool,
                           left: LobbyState, entered: LobbyState)
  {
    && c in b.clients && req in b.lobbies && b.clients[c].lobby != null && b.clients[c].lobby != req
    && IsFirstFree(b.lobbies[req], slot) && HasBeenEntered(b.lobbies[req], entered, c, slot, byOverride)
    && Moved(b, m, c, req, slot, now, left, entered)
  }

  ghost predicate Moved(b: BlockState, m: BlockState, c: object, req: object, slot: nat, now: int, left: LobbyState,
                        entered: LobbyState)
    requires c in b.clients && b.clients[c].lobby != null
  {
    var me, team := b.clients[c], entered.terms.kind != DefaultLobby;
    var there := WithBurst(entered, entered.flags.bursting || team);
    && m.listed == b.listed && m.numGames == b.numGames && m.nextId == b.nextId
    && m.lobbies == b.lobbies[me.lobby as object := left][req := there]
    && m.clients == b.clients[c := me.(lobby := req, slot := slot, joinTime := now, bursting := me.bursting || team)]
  }

  ghost function WithBurst(l: LobbyState, on: bool): LobbyState {
    l.(flags := l.flags.(bursting := on))
  }

  lemma ArriveDoes(b: BlockState, c: object, req: object)
    requires c in b.clients && req in b.lobbies
    ensures var team := b.lobbies[req].terms.kind != DefaultLobby;
            var l, me := b.lobbies[req], b.clients[c];
            Arrive(b, c, req) == b.(lobbies := b.lobbies[req := WithBurst(l, l.flags.bursting || team)],
                                    clients := b.clients[c := me.(bursting := me.bursting || team)])
  {
    var r := Arrive(b, c, req);
    assert b.lobbies[req := b.lobbies[req]] == b.lobbies && b.clients[c := b.clients[c]] == b.clients;
  }

  /** Moving to another lobby: out of the one, into the other, and the end of a team left empty. */
  lemma RelocateDoes(b: BlockState, c: object, req: object, now: int, byOverride: bool)
    returns (m: BlockState, left: LobbyState, entered: LobbyState)
    requires Core(b) && c in b.clients && b.clients[c].lobby != null && req in b.listed && req != b.clients[c].lobby
    requires b.lobbies[req].count < b.lobbies[req].terms.maxClients
    ensures var l, slot := b.clients[c].lobby as object, b.clients[c].slot;
            && l in b.lobbies && Subscribed(b.lobbies[l]) && slot < LOBBY_MAX_CLIENTS
            && (b.lobbies[l].terms.kind != DefaultLobby ==> slot < LOBBY_MAX_IN_TEAM)
            && left == Leave(b.lobbies[l], slot, SeatsOf(b.lobbies[l].slots, b.clients), now)
            && Shape(b.lobbies[req]) && HasMoved(b, m, c, req, NextSlot(b.lobbies[req]), now, byOverride, left, entered)
            && Swept(m, Relocate(b, c, req, now, byOverride), l)
  {
    MoveIsLeaveThenJoin(b, c, req, now, byOverride);
    Located(b, c);
    var l, slot := b.clients[c].lobby as object, b.clients[c].slot;
    left := Leave(b.lobbies[l], slot, SeatsOf(b.lobbies[l].slots, b.clients), now);
    LeaveFrame(b.lobbies[l], slot, SeatsOf(b.lobbies[l].slots, b.clients), now);
    var p := Rise(b, c, l, left);
    EnterThere(p, b, c, req, now, byOverride);
    m, entered := Arrive(Move(b, c, req, now, byOverride), c, req), Entered(b.lobbies[req], c, byOverride);
    EnteredDoes(b.lobbies[req], c, byOverride);
    MovedDoes(b, c, req, entered, NextSlot(b.lobbies[req]), now, l, left, m);
    SweptListing(b, req, l, left, m);
    SweepDoes(m, l);
  }

  lemma MovedDoes(b: BlockState, c: object, req: object, s: LobbyState, slot: nat, now: int, l: object,
                  left: LobbyState, m: BlockState)
    requires c in b.clients && b.clients[c].lobby == l && l in b.lobbies && req in b.lobbies && req != l
    requires m == Arrive(Sit(Rise(b, c, l, left), c, req, s, slot, now), c, req)
    ensures Moved(b, m, c, req, slot, now, left, s)
  {
    var sat, me, team := Sit(Rise(b, c, l, left), c, req, s, slot, now), b.clients[c], s.terms.kind != DefaultLobby;
    var there := WithBurst(s, s.flags.bursting || team);
    ArriveDoes(sat, c, req);
    SameUpdate(b.lobbies[l := left], req, s, there);
    var up, over := me.(lobby := null, slot := 0), me.(lobby := req, slot := slot, joinTime := now);
    SameUpdate(b.clients, c, up, over);
    SameUpdate(b.clients, c, over, over.(bursting := me.bursting || team));
  }

  lemma SameUpdate<K, V>(m: map<K, V>, k: K, u: V, v: V)
    ensures m[k := u][k := v] == m[k := v]
  {
  }

  lemma SweptListing(b: BlockState, req: object, l: object, left: LobbyState, m: BlockState)
    requires Listing(b) && l in b.lobbies && req in b.lobbies && m.listed == b.listed && m.numGames == b.numGames
    requires req in m.lobbies && m.lobbies == b.lobbies[l := left][req := m.lobbies[req]] && l != req
    requires SameRules(b.lobbies[l], left) && m.lobbies[req].terms == b.lobbies[req].terms
    requires m.lobbies[req].history.pending == b.lobbies[req].history.pending
    ensures Listing(m)
  {
    GamesSame(b.listed, b.lobbies, m.lobbies);
  }

  /** The result of asking for lobby `req`, for a client that is in a lobby: refused, there already, no room, or moved.
      In any case the override is used up. */
  lemma ChangeLobbyDoes(b: BlockState, c: object, req: object, legit: bool, now: int)
    requires Core(b) && c in b.clients && req in b.listed && b.clients[c].lobby != null
    ensures var o, me, l := ChangeLobby(b, c, req, legit, now), b.clients[c], b.lobbies[req];
            var b1 := b.(clients := b.clients[c := me.(override := false)]);
            var refusal := Refusal(l, me, legit);
            && (refusal != 0 ==> o == Outcome(b1, refusal))
            && (refusal == 0 && me.lobby == req ==> o == Outcome(Arrive(b1, c, req), 0))
            && (refusal == 0 && me.lobby != req && l.count >= l.terms.maxClients ==> o == Outcome(b1, -1))
            && (refusal == 0 && me.lobby != req && l.count < l.terms.maxClients ==>
                  o.rc == 0 && Core(b1) && o.block == Relocate(b1, c, req, now, me.override))
  {
    ChangeLobbyUnfolds(b, c, req, legit, now);
  }

  /** And for a client that is in none, which is put into any default lobby. */
  lemma StrayDoes(b: BlockState, c: object, req: object, legit: bool, now: int)
    requires Core(b) && c in b.clients && req in b.listed && b.clients[c].lobby == null
    ensures var o, me := ChangeLobby(b, c, req, legit, now), b.clients[c];
            var b1 := b.(clients := b.clients[c := me.(override := false)]);
            && (o.rc == -11 ==>
                  o.block == b1 && forall i :: 0 <= i < |b.listed| ==> !Accommodates(b, b.listed[i], me.version))
            && (o.rc == 0 ==> exists l: object, slot: nat :: l in b.lobbies && slot < 12 &&
                                IsChoice(b, me.version, req, l) && HasSatDown(b1, o.block, c, l, slot, now, false))
            && o.rc in {0, -11}
  {
    var b1 := b.(clients := b.clients[c := b.clients[c].(override := false)]);
    ChangeLobbyUnfolds(b, c, req, legit, now);
    AddToAnyDoes(b1, c, req, now);
    var v, o := b.clients[c].version, AddToAny(b1, c, req, now);
    if o.rc == 0 {
      var l: object, slot: nat :| l in b1.lobbies && slot < 12 && IsChoice(b1, v, req, l) &&
                                  HasSatDown(b1, o.block, c, l, slot, now, false);
      SameListChoice(b, b1, v, req, l);
    } else {
      forall i | 0 <= i < |b.listed| ensures !Accommodates(b, b.listed[i], v) {
        assert !Accommodates(b1, b1.listed[i], v);
      }
    }
  }

  lemma SameListChoice(b: BlockState, b1: BlockState, version: Version, req: object?, l: object)
    requires b1.lobbies == b.lobbies && b1.listed == b.listed && IsChoice(b1, version, req, l)
    ensures IsChoice(b, version, req, l)
  {
    if !(req != null && Accommodates(b, req, GC)) {
      var i :| 0 <= i < |b1.listed| && IsFirstListed(b1, version, i, l);
      forall j | 0 <= j < i ensures !Accommodates(b, b.listed[j], version) {
        assert !Accommodates(b1, b1.listed[j], version);
      }
      assert IsFirstListed(b, version, i, l);
    }
  }

  /** A client leaves its lobby and enters none: a burst of its own ends first, and a team left empty ends. */
  lemma RemovePlayerDoes(b: BlockState, c: object, now: int, accepts: Packet -> bool)
    requires Core(b) && c in b.clients
    ensures b.clients[c].lobby == null ==> RemovePlayer(b, c, now, accepts) == b
    ensures b.clients[c].lobby != null ==>
              var me, l := b.clients[c], b.clients[c].lobby as object;
              && l in b.lobbies
              && var was := if me.bursting then EndBurst(b.lobbies[l], accepts) else b.lobbies[l];
                 && Subscribed(was) && me.slot < LOBBY_MAX_CLIENTS
                 && (was.terms.kind != DefaultLobby ==> me.slot < LOBBY_MAX_IN_TEAM)
                 && var left := Leave(was, me.slot, SeatsOf(was.slots, b.clients), now);
                    Swept(b.(clients := b.clients[c := me.(lobby := null, slot := 0)], lobbies := b.lobbies[l := left]),
                          RemovePlayer(b, c, now, accepts), l)
  {
    if b.clients[c].lobby != null {
      Located(b, c);
      var me, l := b.clients[c], b.clients[c].lobby as object;
      var was := if me.bursting then EndBurst(b.lobbies[l], accepts) else b.lobbies[l];
      var left := Leave(was, me.slot, SeatsOf(was.slots, b.clients), now);
      LeaveFrame(was, me.slot, SeatsOf(was.slots, b.clients), now);
      var m := b.(clients := b.clients[c := me.(lobby := null, slot := 0)], lobbies := b.lobbies[l := left]);
      SameUpdate(b.lobbies, l, was, left);
      GamesSame(b.listed, b.lobbies, m.lobbies);
      SweepDoes(m, l);
    }
  }

  /** A client that disconnects leaves its lobby, and takes with it the team it has not listed. */
  lemma DisconnectDoes(b: BlockState, c: object, now: int, accepts: Packet -> bool)
    requires Core(b) && c in b.clients
    ensures var left, r, made := RemovePlayer(b, c, now, accepts), Disconnect(b, c, now, accepts), b.clients[c].created;
            r == left.(clients := left.clients - {c},
                       lobbies := if made == null then left.lobbies else left.lobbies - {made as object})
  {
    RemovePlayerPlaces(b, c, now, accepts);
  }

  /** A new client is nowhere, and has neither overridden anything nor made a team. */
  lemma ConnectDoes(b: BlockState, c: object, version: Version, nte: bool, gcProtect: bool, level: nat, lateClass: bool)
    ensures var r := Connect(b, c, version, nte, gcProtect, level, lateClass);
            && r == b.(clients := r.clients) && c in r.clients && r.clients - {c} == b.clients - {c}
            && var me := r.clients[c];
               && me.version == version && me.nte == nte && me.gcProtect == gcProtect && me.level == level
               && me.lateClass == lateClass && me.lobby == null && me.created == null
               && !me.bursting && !me.waitQping && !me.override
  {
  }

  // ---------------------------------------------------------------- bursts

  /** What the end of a burst does to a block: the client's lobby is `after`, and the client bursts no more. */
  ghost predicate BurstOver(b: BlockState, r: BlockState, c: object, waits: bool, resend: seq<Packet>,
                            accepts: Packet -> bool)
  {
    && c in b.clients && b.clients[c].lobby in b.lobbies && b.clients[c].lobby in r.lobbies
    && var l := b.clients[c].lobby as object;
       && r == b.(lobbies := b.lobbies[l := r.lobbies[l]],
                  clients := b.clients[c := b.clients[c].(bursting := false, waitQping := waits)])
       && LobbyBurstOver(b.lobbies[l], r.lobbies[l], resend, accepts)
  }

  /** The flag is off, nothing waits, and what waited has been disposed of and, up to a refusal, handled. */
  ghost predicate LobbyBurstOver(l: LobbyState, r: LobbyState, resend: seq<Packet>, accepts: Packet -> bool) {
    && r == l.(flags := l.flags.(bursting := false), queues := Queues([], resend), history := r.history)
    && r.history.disposed == l.history.disposed + l.queues.waiting
    && |l.history.handled| <= |r.history.handled|
    && r.history.handled[..|l.history.handled|] == l.history.handled
    && IsDelivery(r.history.handled[|l.history.handled|..], l.queues.waiting, accepts)
  }

  /** A client in a team has loaded. Without a quest that ends the burst; with one, the client is marked, and nothing
      else happens yet. Elsewhere nothing happens at all. */
  lemma DoneBurstDoes(b: BlockState, c: object, accepts: Packet -> bool)
    requires Core(b) && c in b.clients
    ensures var me, r := b.clients[c], DoneBurst(b, c, accepts);
            if me.lobby == null || me.lobby !in b.lobbies || b.lobbies[me.lobby as object].terms.kind == DefaultLobby
            then r == b && DoneBurstResult(b, c, accepts) == -1
            else
              var l := b.lobbies[me.lobby as object];
              && (l.flags.questing ==> r == b.(clients := b.clients[c := me.(waitQping := true)]))
              && (!l.flags.questing ==> BurstOver(b, r, c, me.waitQping, l.queues.resend, accepts))
              && (DoneBurstResult(b, c, accepts) == 0 <==>
                    l.flags.questing || forall k :: 0 <= k < |l.queues.waiting| ==> accepts(l.queues.waiting[k]))
              && DoneBurstResult(b, c, accepts) in {0, -1}
  {
    var me := b.clients[c];
    if me.lobby != null && me.lobby in b.lobbies {
      BurstEnds(b.lobbies[me.lobby as object], accepts);
      DeliveredIsFifo(b.lobbies[me.lobby as object].queues.waiting, accepts);
    }
  }

  /** The answer to a ping ends the burst of a client that is marked, what was to be sent again being gone as well, and
      takes the mark away; without the mark it changes nothing. */
  lemma QuestPingDoes(b: BlockState, c: object, accepts: Packet -> bool)
    requires Core(b) && c in b.clients
    ensures var me, r := b.clients[c], QuestPing(b, c, accepts);
            && (!me.waitQping ==> r == b && QuestPingResult(b, c, accepts) == 0)
            && (me.waitQping && (me.lobby == null || me.lobby !in b.lobbies) ==>
                  r == b && QuestPingResult(b, c, accepts) == -1)
            && (me.waitQping && me.lobby != null && me.lobby in b.lobbies ==>
                  && BurstOver(b, r, c, false, [], accepts)
                  && var waiting := b.lobbies[me.lobby as object].queues.waiting;
                     (QuestPingResult(b, c, accepts) == 0 <==> forall k :: 0 <= k < |waiting| ==> accepts(waiting[k])))
            && QuestPingResult(b, c, accepts) in {0, -1}
  {
    var me := b.clients[c];
    if me.lobby != null && me.lobby in b.lobbies {
      var l := b.lobbies[me.lobby as object];
      BurstEnds(l.(queues := l.queues.(resend := [])), accepts);
      DeliveredIsFifo(l.queues.waiting, accepts);
    }
  }

  /** Who joins a team with a quest has loaded and then answers the ping: only then is the burst over, for the team and
      for the client, and everything that waited has left both queues. */
  lemma QuestBurst(b: BlockState, c: object, loads: Packet -> bool, accepts: Packet -> bool)
    requires Inv(b) && c in b.clients && b.clients[c].lobby != null
    requires b.clients[c].lobby in b.lobbies ==> b.lobbies[b.clients[c].lobby as object].flags.questing
    ensures var m := DoneBurst(b, c, loads);
            && Core(m) && c in m.clients && m.lobbies == b.lobbies
            && BurstOver(b, QuestPing(m, c, accepts), c, false, [], accepts)
  {
    Located(b, c);
    DoneBurstKeepsInv(b, c, loads);
    DoneBurstDoes(b, c, loads);
    var m, me := DoneBurst(b, c, loads), b.clients[c];
    QuestPingDoes(m, c, accepts);
    SameUpdate(b.clients, c, me.(waitQping := true), me.(bursting := false, waitQping := false));
  }

  /** The trial edition's end of loading clears both flags and leaves the queue as it is. */
  lemma NteDoneDoes(b: BlockState, c: object)
    requires Core(b) && c in b.clients
    ensures var me, r := b.clients[c], NteDone(b, c);
            if me.nte && me.version == DCv1 && me.lobby in b.lobbies
               && b.lobbies[me.lobby as object].terms.kind != DefaultLobby
            then
              var l := b.lobbies[me.lobby as object];
              && me.lobby in r.lobbies
              && r == b.(lobbies := b.lobbies[me.lobby as object := r.lobbies[me.lobby as object]],
                         clients := b.clients[c := me.(bursting := false)])
              && r.lobbies[me.lobby as object] ==
                 l.(flags := l.flags.(bursting := false), history := r.lobbies[me.lobby as object].history)
              && r.lobbies[me.lobby as object].history.disposed == l.history.disposed
            else r == b
  {
  }

  /** A packet sent by a client in a lobby is queued there, unless it is of the trial edition or of Blue Burst. */
  lemma HoldBackDoes(b: BlockState, c: object, command: Command, body: int, forResend: bool)
    requires Core(b) && c in b.clients
    ensures var me, r := b.clients[c], HoldBack(b, c, command, body, forResend);
            if me.lobby == null || me.lobby !in b.lobbies || me.version == BB || (me.version == DCv1 && me.nte)
            then r == b
            else r == b.(lobbies := b.lobbies[me.lobby as object :=
                                      Enqueue(b.lobbies[me.lobby as object], Packet(c, command, body), forResend)])
  {
  }

  // ---------------------------------------------------------------- new teams

  /** A new team: its terms are those asked for; it is of its creator's version, except that Xbox counts as Gamecube and
      version 2 may ask for version 1; and a PC creator is still to be asked, unless that makes no difference. */
  lemma NewGameIs(b: BlockState, c: object, p: GameRequest, id: nat)
    requires c in b.clients
    ensures var me, s := b.clients[c], NewGame(b, c, p, id);
            && s.terms == Terms(id, Game, if p.singlePlayer then 1 else 4, p.difficulty, p.battle, p.challenge,
                                p.legitMode)
            && s.v2 == p.v2
            && (me.version == Xbox ==> s.version == GC)
            && (me.version == DCv2 ==> s.version == if p.v2 then DCv2 else DCv1)
            && (me.version !in {Xbox, DCv2} ==> s.version == me.version)
            && (s.history.pending <==>
                  me.version == PC && !me.nte && !p.battle && !p.challenge && p.difficulty != 3)
            && s.flags.singlePlayer == p.singlePlayer && s.count == 0
  {
  }

  /** The creator of a PC team answers 0 for version 1, 2 for PC only, and anything else for neither. */
  lemma ChosenIs(l: LobbyState, choice: nat, strayed: bool)
    ensures var r := Chosen(l, choice, strayed);
            && r == l.(version := r.version, v2 := r.v2, flags := r.flags, history := r.history)
            && r.flags == l.flags.(pcOnly := l.flags.pcOnly || choice == 2)
            && (choice == 0 ==> r.version == DCv1 && !r.v2) && (choice != 0 ==> r.version == l.version && r.v2 == l.v2)
            && !r.history.pending
  {
  }

  /** Version 1 clients can join a PC team whose creator answered 0, and only PC clients, unless by override, one whose
      creator answered 2. */
  lemma ChosenAdmits(l: LobbyState, choice: nat, strayed: bool, me: ClientState, legit: bool)
    requires me.version == DCv1 && !me.override
    ensures choice == 0 ==> Refusal(Chosen(l, choice, strayed), me, legit) != -6
    ensures choice == 2 ==> !Welcome(Chosen(l, choice, strayed), me, legit)
  {
  }

  /** Listing: at the end of the list, with one team more if it is one. */
  lemma InsertDoes(b: BlockState, l: object, s: LobbyState)
    ensures Insert(b, l, s) == b.(lobbies := b.lobbies[l := s], listed := b.listed + [l],
                                  numGames := if s.terms.kind == DefaultLobby then b.numGames else b.numGames + 1)
  {
  }

  /** Joining a team: not for a protected client, and otherwise as any lobby is entered. */
  lemma JoinGameDoes(b: BlockState, c: object, l: object, legit: bool, now: int)
    requires Core(b) && c in b.clients && l in b.listed
    ensures JoinGame(b, c, l, legit, now) == if b.clients[c].gcProtect then Outcome(b, -1)
                                             else ChangeLobby(b, c, l, legit, now)
    ensures var o := JoinGame(b, c, l, legit, now);
            if o.rc == 0 then JoinOwn(b, c, l, legit, now) == o.block
            else exists i: nat :: i < |b.listed| && HasEnded(o.block, JoinOwn(b, c, l, legit, now), l, i)
    ensures JoinOwn(b, c, l, legit, now).nextId == b.nextId
  {
    var o := JoinGame(b, c, l, legit, now);
    FailureKeepsList(b, c, l, legit, now);
    if o.rc != 0 {
      var i :| 0 <= i < |o.block.listed| && o.block.listed[i] == l;
      WithoutAt(b.listed, i);
      assert HasEnded(o.block, JoinOwn(b, c, l, legit, now), l, i);
    }
    ChangeKeepsNextId(b, c, l, legit, now);
  }

  lemma ChangeKeepsNextId(b: BlockState, c: object, l: object, legit: bool, now: int)
    requires Core(b) && c in b.clients && l in b.listed
    ensures ChangeLobby(b, c, l, legit, now).block.nextId == b.nextId
  {
    ChangeLobbyUnfolds(b, c, l, legit, now);
    var me := b.clients[c];
    var b1 := PutClient(b, c, me.(override := false));
    if me.lobby != null && Refusal(b.lobbies[l], me, legit) == 0 && me.lobby != l
       && b.lobbies[l].count < b.lobbies[l].terms.maxClients {
      MoveUnfolds(b1, c, l, now, me.override);
    }
  }

  /** Making a team: not below its level, except by override. Otherwise it has the next unused ID, and the search for
      the next one goes on behind it; it is held back where its creator is to be asked, and else listed for its creator
      to join, or to end if that fails. */
  lemma CreateGameDoes(b: BlockState, c: object, l: object, p: GameRequest, legit: bool, now: int)
    requires Inv(b) && c in b.clients && l !in b.lobbies && GoodRequest(b.clients[c].version, p)
    requires InRange(b.nextId) && HasFree(UsedIds(b))
    ensures var me, id, r := b.clients[c], NextFree(UsedIds(b), b.nextId), CreateGame(b, c, l, p, legit, now);
            var s, next := NewGame(b, c, p, id), if id == 0xFFFF then 0x20 else id + 1;
            var i := b.(nextId := next, lobbies := b.lobbies[l := s], listed := b.listed + [l],
                        numGames := b.numGames + 1);
            && (me.level + 1 < RequiredLevel(p.difficulty) && !me.override ==> r == b)
            && (me.level + 1 >= RequiredLevel(p.difficulty) || me.override ==>
                  if s.history.pending then
                    r == b.(nextId := next, lobbies := b.lobbies[l := s], clients := b.clients[c := me.(created := l)])
                  else Core(i) && l in i.listed && r == JoinOwn(i, c, l, legit, now) && r.nextId == next)
  {
    var me, id := b.clients[c], NextFree(UsedIds(b), b.nextId);
    var b1, s := b.(nextId := After(id)), NewGame(b, c, p, id);
    CreateGameUnfolds(b, c, l, p, legit, now);
    var i := Insert(b1, l, s);
    assert i.listed[|b.listed|] == l;
    if Core(i) {
      JoinGameDoes(i, c, l, legit, now);
    }
  }

  /** An Episode 3 team has the lowest unused ID above 0x20, room for four, and is listed for its creator to join. */
  lemma CreateEp3GameDoes(b: BlockState, c: object, l: object, viewBattle: bool, legit: bool, now: int)
    requires Core(b) && c in b.clients && l !in b.lobbies
    ensures var s := NewEp3Game(b, c, viewBattle);
            var i := b.(lobbies := b.lobbies[l := s], listed := b.listed + [l], numGames := b.numGames + 1);
            && IsEp3Id(UsedIds(b), s.terms.lobbyId) && s.terms.kind == Ep3Game && s.terms.maxClients == 4
            && s.terms.battle == viewBattle && s.version == EP3 && s.count == 0
            && Core(i) && l in i.listed
            && CreateEp3Game(b, c, l, viewBattle, legit, now) == JoinOwn(i, c, l, legit, now)
  {
    CreateEp3GameUnfolds(b, c, l, viewBattle, legit, now);
    assert (b.listed + [l])[|b.listed|] == l;
  }

  /** The deferred team becomes what its creator has answered, is listed, and is joined. */
  lemma PickDoes(b: BlockState, c: object, choice: nat, legit: bool, now: int)
    requires Core(b) && c in b.clients
    ensures b.clients[c].created == null ==> PickGameType(b, c, choice, legit, now) == b
    ensures b.clients[c].created != null ==>
              var me, l := b.clients[c], b.clients[c].created as object;
              && l in b.lobbies
              && var s := Chosen(b.lobbies[l], choice, me.lobby == null);
                 var i := b.(clients := b.clients[c := me.(created := null)], lobbies := b.lobbies[l := s],
                             listed := b.listed + [l], numGames := b.numGames + 1);
                 && Core(i) && l in i.listed && c in i.clients
                 && PickGameType(b, c, choice, legit, now) == JoinOwn(i, c, l, legit, now)
  {
    if b.clients[c].created != null {
      PickUnfolds(b, c, choice, legit, now);
    }
  }

  // ---------------------------------------------------------------- the leader's commands

  ghost predicate MayCommand(l: LobbyState, slot: nat) {
    slot == l.leader && l.terms.kind != DefaultLobby
  }

  /** The leader of a team sets its minimum level, from what the difficulty asks for up to the maximum, or its maximum,
      from the minimum up to 200. Nobody else does, and nothing else changes. */
  lemma LevelCommandsDo(l: LobbyState, slot: nat, level: int)
    ensures var r, given := MinLevel(l, slot, level), MayCommand(l, slot) && 1 <= level <= 200;
            r == l.(minLevel := if given && RequiredLevel(l.terms.difficulty) <= level <= l.maxLevel then level
                                else l.minLevel)
    ensures var r, given := MaxLevel(l, slot, level), MayCommand(l, slot) && 1 <= level <= 200;
            r == l.(maxLevel := if given && l.minLevel <= level then level else l.maxLevel)
  {
  }

  ghost predicate NobodyElse(l: LobbyState, clients: map<object, ClientState>, version: Version, other: Version) {
    forall i :: 0 <= i < |l.slots| && l.slots[i] != null && l.slots[i] in clients ==>
      clients[l.slots[i] as object].version == version || clients[l.slots[i] as object].version == other
  }

  /** The leader of a team restricts it to Dreamcast versions, or to version 1, if nobody else is in it; and lifts the
      restriction. */
  lemma RestrictionsDo(l: LobbyState, clients: map<object, ClientState>, slot: nat, off: bool)
    ensures var leads, r := slot == l.leader && l.terms.kind == Game, DcOnly(l, clients, slot, off);
            r == l.(flags := l.flags.(dcOnly := if leads && off then false
                                                else if leads && NobodyElse(l, clients, DCv1, DCv2) then true
                                                else l.flags.dcOnly))
    ensures var leads, r := slot == l.leader && l.terms.kind == Game, V1Only(l, clients, slot, off);
            r == l.(flags := l.flags.(v1Only := if leads && off then false
                                                else if leads && NobodyElse(l, clients, DCv1, DCv1) then true
                                                else l.flags.v1Only))
  {
    assert AllOf(l, clients, {DCv1, DCv2}) <==> NobodyElse(l, clients, DCv1, DCv2);
    assert AllOf(l, clients, {DCv1}) <==> NobodyElse(l, clients, DCv1, DCv1);
  }

  /** A GM who leads admits Gamecube players to a team without restrictions, and turns them away again. */
  lemma AllowGcDoes(l: LobbyState, slot: nat, gm: bool, off: bool)
    ensures var may := gm && slot == l.leader && l.terms.kind == Game;
            var free := !l.flags.dcOnly && !l.flags.pcOnly && !l.flags.v1Only;
            AllowGc(l, slot, gm, off) ==
            l.(flags := l.flags.(gcAllowed := if may && off then false else if may && free then true
                                              else l.flags.gcAllowed))
  {
  }

  /** An NPC comes to whoever is alone in an ordinary team without a quest, and nobody else can then join. */
  lemma AddNpcDoes(l: LobbyState, goodArguments: bool, me: ClientState, legit: bool)
    ensures var r := AddNpc(l, goodArguments);
            var comes := goodArguments && l.terms.kind == Game && l.count == 1 && !l.terms.battle && !l.terms.challenge
                         && !l.flags.questing;
            && (comes ==> r == l.(flags := l.flags.(singlePlayer := true, hasNpc := true)) && !Welcome(r, me, legit))
            && (!comes ==> r == l)
  {
  }

  /** While a quest is being chosen nobody can join a team; that ends when the choice does, or when the quest starts. */
  lemma QuestsDo(l: LobbyState, begin: bool, joinable: bool, data: bool, me: ClientState, legit: bool)
    ensures l.terms.kind == Game ==> SelectQuest(l, begin) == l.(flags := l.flags.(questSel := begin))
    ensures l.terms.kind == Game && begin ==> !Welcome(SelectQuest(l, begin), me, legit)
    ensures l.terms.kind != Game ==> SelectQuest(l, begin) == l
    ensures LoadQuest(l, joinable, data) ==
              if l.terms.kind == Game && !l.flags.bursting then StartQuest(l, joinable, data) else l
    ensures l.terms.kind == Game && !l.flags.bursting && !joinable && !l.quest.joinable ==>
              !Welcome(LoadQuest(l, joinable, data), me, legit)
  {
  }

  /** A member of a team whose quest has data is told the count in the register it names, at once and from then on. */
  lemma AskCountDoes(l: LobbyState, c: object, slot: nat, reg: nat)
    ensures var r := AskCount(l, c, slot, reg);
            if l.quest.data && reg <= 255 && slot < |l.quest.countRegs| then
              && r == l.(quest := r.quest, history := r.history)
              && r.quest == l.quest.(countRegs := l.quest.countRegs[slot := reg])
              && r.history == l.history.(syncs := l.history.syncs + [CountSync(c, reg, l.count)])
            else r == l
  {
  }
}
