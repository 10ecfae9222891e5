/**
  What requests do to a whole block, as functions on its state (src/lobby.c, src/block.c, src/commands.c),
  and the invariants that hold in every run.
 */
module BlockRules {
  import opened Elections
  import opened LobbyRules

  datatype ClientState = ClientState(
    version: Version, nte: bool, gcProtect: bool, level: nat, lateClass: bool,
    lobby: object?, slot: nat, joinTime: int,
    bursting: bool, waitQping: bool, override: bool,
    created: object?)

  /** `listed` is the block's list of lobbies, in order; `nextId` is where the next team ID is looked for. */
  datatype BlockState = BlockState(
    clients: map<object, ClientState>,
    lobbies: map<object, LobbyState>,
    listed: seq<object>,
    numGames: int,
    nextId: nat)

  ghost function SeatsOf(slots: seq<object?>, clients: map<object, ClientState>): (seats: seq<Seat>)
    ensures |seats| == |slots|
    ensures forall i :: 0 <= i < |slots| ==>
              seats[i] == if slots[i] == null || slots[i] as object !in clients then Vacant
                          else Held(clients[slots[i] as object].joinTime, clients[slots[i] as object].version)
  {
    seq(|slots|, i requires 0 <= i < |slots| =>
      if slots[i] == null || slots[i] as object !in clients then Vacant
      else Held(clients[slots[i] as object].joinTime, clients[slots[i] as object].version))
  }

  ghost function Games(list: seq<object>, lobbies: map<object, LobbyState>): nat {
    if list == [] then 0
    else
      var here := if list[0] in lobbies && lobbies[list[0]].terms.kind != DefaultLobby then 1 else 0;
      here + Games(list[1..], lobbies)
  }

  // ---------------------------------------------------------------- the invariant

  /** Slots and clients point at each other, and members sit in listed lobbies only. */
  ghost predicate Seating(b: BlockState) {
    && (forall l <- b.lobbies, i | 0 <= i < |b.lobbies[l].slots| && b.lobbies[l].slots[i] != null ::
          b.lobbies[l].slots[i] in b.clients &&
          b.clients[b.lobbies[l].slots[i] as object].lobby == l && b.clients[b.lobbies[l].slots[i] as object].slot == i)
    && (forall c <- b.clients | b.clients[c].lobby != null ::
          b.clients[c].lobby in b.listed && b.clients[c].lobby in b.lobbies &&
          b.clients[c].slot < |b.lobbies[b.clients[c].lobby].slots| &&
          b.lobbies[b.clients[c].lobby].slots[b.clients[c].slot] == c)
  }

  /** The list holds each lobby once, and `numGames` counts its teams. */
  ghost predicate Listing(b: BlockState) {
    && (forall i :: 0 <= i < |b.listed| ==> b.listed[i] in b.lobbies && !b.lobbies[b.listed[i]].history.pending)
    && (forall i, j :: 0 <= i < j < |b.listed| ==> b.listed[i] != b.listed[j])
    && b.numGames == Games(b.listed, b.lobbies)
  }

  /** A PC team waiting for its creator's menu choice is marked so, and is nobody else's. */
  ghost predicate Deferring(b: BlockState) {
    && (forall c <- b.clients | b.clients[c].created != null ::
          b.clients[c].created in b.lobbies && b.lobbies[b.clients[c].created].history.pending &&
          b.lobbies[b.clients[c].created].terms.kind == Game)
    && (forall c <- b.clients, d <- b.clients | c != d && b.clients[c].created != null ::
          b.clients[c].created != b.clients[d].created)
  }

  /** Members of a restricted team are of an admitted version unless they came in by override. */
  ghost predicate Admitted(l: LobbyState, c: object, version: Version) {
    c in l.history.overriders ||
    (&& (l.flags.v1Only ==> version == DCv1)
     && (l.flags.dcOnly ==> version == DCv1 || version == DCv2)
     && (l.flags.pcOnly ==> version == PC))
  }

  ghost predicate Admission(l: LobbyState, clients: map<object, ClientState>) {
    forall i | 0 <= i < |l.slots| && l.slots[i] != null && l.slots[i] in clients ::
      Admitted(l, l.slots[i], clients[l.slots[i] as object].version)
  }

  ghost predicate AllSound(b: BlockState) {
    forall l: object {:trigger Sound(b.lobbies[l])} :: l in b.lobbies ==> Sound(b.lobbies[l])
  }

  ghost predicate AllAdmitted(b: BlockState) {
    forall l <- b.lobbies :: Admission(b.lobbies[l], b.clients)
  }

  ghost predicate Core(b: BlockState) {
    && Seating(b) && Listing(b) && Deferring(b)
    && AllSound(b) && AllAdmitted(b)
  }

  /** A listed team, other than those in `xs`, is empty only if its creator was sent elsewhere. */
  ghost predicate InhabitedBut(b: BlockState, xs: set<object>) {
    forall i :: 0 <= i < |b.listed| && b.listed[i] !in xs && b.listed[i] in b.lobbies ==>
      Inhabited(b.lobbies[b.listed[i]])
  }

  ghost predicate Inhabited(l: LobbyState) {
    l.terms.kind == DefaultLobby || l.history.strayed || l.count > 0
  }

  ghost predicate Inv(b: BlockState) {
    Core(b) && InhabitedBut(b, {})
  }

  // ---------------------------------------------------------------- generic steps

  ghost function Put(b: BlockState, l: object, s: LobbyState): BlockState {
    b.(lobbies := b.lobbies[l := s])
  }

  ghost function PutClient(b: BlockState, c: object, s: ClientState): BlockState {
    b.(clients := b.clients[c := s])
  }

  lemma {:induction false} GamesSame(list: seq<object>, m: map<object, LobbyState>, n: map<object, LobbyState>)
    requires forall l <- list :: (l in m <==> l in n) && (l in m ==> m[l].terms.kind == n[l].terms.kind)
    ensures Games(list, m) == Games(list, n)
  {
    if list != [] {
      assert list[0] in list;
      GamesSame(list[1..], m, n);
    }
  }

  /** A change inside one lobby that leaves its members alone. */
  ghost predicate SameMembers(s: LobbyState, t: LobbyState) {
    && t.slots == s.slots && t.count == s.count && t.terms == s.terms
    && t.history.pending == s.history.pending && t.history.strayed == s.history.strayed
  }

  lemma PutKeepsSeating(b: BlockState, l: object, s: LobbyState)
    requires Seating(b) && l in b.lobbies && s.slots == b.lobbies[l].slots
    ensures Seating(Put(b, l, s))
  {
  }

  lemma PutKeepsListing(b: BlockState, l: object, s: LobbyState)
    requires Listing(b) && l in b.lobbies && SameMembers(b.lobbies[l], s)
    ensures Listing(Put(b, l, s))
  {
    GamesSame(b.listed, b.lobbies, Put(b, l, s).lobbies);
  }

  lemma PutKeepsDeferring(b: BlockState, l: object, s: LobbyState)
    requires Deferring(b) && l in b.lobbies && SameMembers(b.lobbies[l], s)
    ensures Deferring(Put(b, l, s))
  {
  }

  lemma PutKeepsCore(b: BlockState, l: object, s: LobbyState)
    requires Core(b) && l in b.lobbies && SameMembers(b.lobbies[l], s) && Sound(s) && Admission(s, b.clients)
    ensures Core(Put(b, l, s))
  {
    PutKeepsSeating(b, l, s);
    PutKeepsListing(b, l, s);
    PutKeepsDeferring(b, l, s);
  }

  lemma PutKeepsInhabited(b: BlockState, l: object, s: LobbyState, xs: set<object>)
    requires InhabitedBut(b, xs) && l in b.lobbies && SameMembers(b.lobbies[l], s)
    ensures InhabitedBut(Put(b, l, s), xs)
  {
  }

  ghost predicate SamePlace(s: ClientState, t: ClientState) {
    t.lobby == s.lobby && t.slot == s.slot && t.version == s.version && t.created == s.created
  }

  lemma PutClientKeepsSeating(b: BlockState, c: object, s: ClientState)
    requires Seating(b) && c in b.clients && SamePlace(b.clients[c], s)
    ensures Seating(PutClient(b, c, s))
  {
  }

  lemma PutClientKeepsDeferring(b: BlockState, c: object, s: ClientState)
    requires Deferring(b) && c in b.clients && SamePlace(b.clients[c], s)
    ensures Deferring(PutClient(b, c, s))
  {
  }

  lemma PutClientKeepsAdmission(b: BlockState, c: object, s: ClientState)
    requires AllAdmitted(b) && c in b.clients && SamePlace(b.clients[c], s)
    ensures AllAdmitted(PutClient(b, c, s))
  {
  }

  lemma PutClientKeepsCore(b: BlockState, c: object, s: ClientState)
    requires Core(b) && c in b.clients && SamePlace(b.clients[c], s)
    ensures Core(PutClient(b, c, s))
  {
    PutClientKeepsSeating(b, c, s);
    PutClientKeepsDeferring(b, c, s);
    PutClientKeepsAdmission(b, c, s);
  }

  // ---------------------------------------------------------------- joining and leaving

  /** Remember whether `c` entered with the override in force. */
  ghost function NoteOverride(l: LobbyState, c: object, byOverride: bool): LobbyState {
    var over := if byOverride then l.history.overriders + {c} else l.history.overriders - {c};
    l.(history := l.history.(overriders := over))
  }

  /** The lobby once `c` has entered it, remembering whether that took the override. */
  ghost function Entered(l: LobbyState, c: object, byOverride: bool): LobbyState
    requires Shape(l) && Subscribed(l) && l.count < l.terms.maxClients
  {
    NoteOverride(Enter(l, c), c, byOverride)
  }

  /** Record that `c` is now in slot `slot` of lobby `l`, whose state has become `s`. */
  ghost function Sit(b: BlockState, c: object, l: object, s: LobbyState, slot: nat, now: int): BlockState
    requires c in b.clients
  {
    b.(lobbies := b.lobbies[l := s],
       clients := b.clients[c := b.clients[c].(lobby := l, slot := slot, joinTime := now)])
  }

  /** Record that lobby `l` has become `s`, and that `c` is nowhere if that is where it was. */
  ghost function Rise(b: BlockState, c: object, l: object, s: LobbyState): BlockState
    requires c in b.clients
  {
    b.(lobbies := b.lobbies[l := s],
       clients := if b.clients[c].lobby != l then b.clients
                  else b.clients[c := b.clients[c].(lobby := null, slot := 0)])
  }

  /** `c`, at present in no lobby, sits down in lobby `l`. */
  ghost function Join(b: BlockState, c: object, l: object, now: int, byOverride: bool): BlockState
    requires c in b.clients && l in b.lobbies
    requires Shape(b.lobbies[l]) && Subscribed(b.lobbies[l]) && b.lobbies[l].count < b.lobbies[l].terms.maxClients
  {
    Sit(b, c, l, Entered(b.lobbies[l], c, byOverride), NextSlot(b.lobbies[l]), now)
  }

  /** `c` gets up from slot `slot` of lobby `l`. */
  ghost function Part(b: BlockState, c: object, slot: nat, l: object, now: int): BlockState
    requires c in b.clients && l in b.lobbies && Subscribed(b.lobbies[l]) && slot < LOBBY_MAX_CLIENTS
    requires b.lobbies[l].terms.kind != DefaultLobby ==> slot < LOBBY_MAX_IN_TEAM
  {
    Rise(b, c, l, Leave(b.lobbies[l], slot, SeatsOf(b.lobbies[l].slots, b.clients), now))
  }

  lemma SeatsMatchSlots(b: BlockState, l: object)
    requires Seating(b) && l in b.lobbies
    ensures SeatsMatch(b.lobbies[l].slots, SeatsOf(b.lobbies[l].slots, b.clients))
  {
  }

  /** Facts about where a seated client is. */
  lemma Located(b: BlockState, c: object)
    requires Core(b) && c in b.clients && b.clients[c].lobby != null
    ensures var l, slot := b.clients[c].lobby, b.clients[c].slot;
            && l in b.listed && l in b.lobbies && slot < LOBBY_MAX_CLIENTS && Sound(b.lobbies[l])
            && b.lobbies[l].slots[slot] == c && b.lobbies[l].count > 0
            && (b.lobbies[l].terms.kind != DefaultLobby ==> slot < LOBBY_MAX_IN_TEAM)
  {
    var l, slot := b.clients[c].lobby, b.clients[c].slot;
    var s := b.lobbies[l];
    assert Sound(s) && |s.slots| == LOBBY_MAX_CLIENTS;
    SeatedUpdate(s.slots, slot, null);
  }

  lemma UnseatKeepsSeating(b: BlockState, c: object, s: LobbyState)
    requires Seating(b) && c in b.clients && b.clients[c].lobby != null
    requires s.slots == b.lobbies[b.clients[c].lobby as object].slots[b.clients[c].slot := null]
    ensures Seating(b.(lobbies := b.lobbies[b.clients[c].lobby as object := s],
                       clients := b.clients[c := b.clients[c].(lobby := null, slot := 0)]))
  {
  }

  lemma SeatKeepsSeating(b: BlockState, c: object, l: object, slot: nat, now: int, s: LobbyState)
    requires Seating(b) && c in b.clients && b.clients[c].lobby == null && l in b.lobbies && l in b.listed
    requires slot < |b.lobbies[l].slots| && b.lobbies[l].slots[slot] == null
    requires s.slots == b.lobbies[l].slots[slot := c]
    ensures Seating(b.(lobbies := b.lobbies[l := s],
                       clients := b.clients[c := b.clients[c].(lobby := l, slot := slot, joinTime := now)]))
  {
  }

  /** Nothing but the members, and what follows from them, has changed. */
  ghost predicate SameRules(l: LobbyState, r: LobbyState) {
    && r.terms == l.terms
    && r.history.pending == l.history.pending && r.history.strayed == l.history.strayed
    && r.history.overriders == l.history.overriders
    && r.flags.v1Only == l.flags.v1Only && r.flags.dcOnly == l.flags.dcOnly && r.flags.pcOnly == l.flags.pcOnly
  }

  lemma ReplaceFrame(l: LobbyState, seats: seq<Seat>, now: int)
    ensures var r := Replace(l, seats, now);
            && SameRules(l, r) && r.slots == l.slots && r.count == l.count && r.quest == l.quest
            && Subscribed(l) == Subscribed(r)
  {
  }

  lemma VacateFrame(l: LobbyState, slot: nat)
    requires Subscribed(l) && slot < LOBBY_MAX_CLIENTS
    requires l.terms.kind != DefaultLobby ==> slot < LOBBY_MAX_IN_TEAM
    ensures var r := Vacate(l, slot); SameRules(l, r) && r.slots == l.slots[slot := null] && r.count == l.count - 1
  {
  }

  lemma LeaveFrame(l: LobbyState, slot: nat, seats: seq<Seat>, now: int)
    requires Subscribed(l) && slot < LOBBY_MAX_CLIENTS
    requires l.terms.kind != DefaultLobby ==> slot < LOBBY_MAX_IN_TEAM
    ensures var r := Leave(l, slot, seats, now);
            SameRules(l, r) && r.slots == l.slots[slot := null] && r.count == l.count - 1
  {
    ReplaceFrame(l, seats, now);
    VacateFrame(if slot == l.leader then Replace(l, seats, now) else l, slot);
  }

  lemma AnnounceFrame(l: LobbyState)
    requires SubscribersSeated(l.slots, l.quest.countRegs)
    ensures var r := Announce(l); SameRules(l, r) && r.slots == l.slots && r.count == l.count
  {
  }

  lemma SettleFrame(l: LobbyState, c: object, slot: nat)
    requires slot < |l.slots|
    ensures var r := Settle(l, c, slot); SameRules(l, r) && r.slots == l.slots[slot := c] && r.count == l.count + 1
  {
  }

  lemma EnterFrame(l: LobbyState, c: object)
    requires Shape(l) && Subscribed(l) && l.count < l.terms.maxClients
    ensures var r := Enter(l, c);
            SameRules(l, r) && r.slots == l.slots[NextSlot(l) := c] && r.count == l.count + 1
  {
    SettleFrame(l, c, NextSlot(l));
    AnnounceFrame(Settle(l, c, NextSlot(l)));
  }

  /** Changing one lobby's members, and where one client sits, leaves the registry alone. */
  lemma RegistryKept(b: BlockState, l: object, s: LobbyState, c: object, t: ClientState)
    requires Listing(b) && Deferring(b) && l in b.lobbies && c in b.clients
    requires s.terms == b.lobbies[l].terms && s.history.pending == b.lobbies[l].history.pending
    requires t.created == b.clients[c].created
    ensures var r := b.(lobbies := b.lobbies[l := s], clients := b.clients[c := t]); Listing(r) && Deferring(r)
  {
    GamesSame(b.listed, b.lobbies, b.lobbies[l := s]);
  }

  lemma AdmissionKept(b: BlockState, l: object, s: LobbyState, c: object, t: ClientState)
    requires AllAdmitted(b) && l in b.lobbies && c in b.clients && t.version == b.clients[c].version
    requires Admission(s, b.clients)
    ensures AllAdmitted(b.(lobbies := b.lobbies[l := s], clients := b.clients[c := t]))
  {
  }

  lemma CoreKept(b: BlockState, l: object, s: LobbyState, c: object, t: ClientState)
    requires Core(b) && l in b.lobbies && c in b.clients
    requires Sound(s) && s.terms == b.lobbies[l].terms && s.history.pending == b.lobbies[l].history.pending
    requires Admission(s, b.clients) && t.version == b.clients[c].version && t.created == b.clients[c].created
    requires Seating(b.(lobbies := b.lobbies[l := s], clients := b.clients[c := t]))
    ensures Core(b.(lobbies := b.lobbies[l := s], clients := b.clients[c := t]))
  {
    RegistryKept(b, l, s, c, t);
    AdmissionKept(b, l, s, c, t);
  }

  lemma LeaveKeepsAdmission(l: LobbyState, s: LobbyState, slot: nat, clients: map<object, ClientState>)
    requires Admission(l, clients) && SameRules(l, s) && slot < |l.slots| && s.slots == l.slots[slot := null]
    ensures Admission(s, clients)
  {
    forall i | 0 <= i < |s.slots| && s.slots[i] != null && s.slots[i] in clients
      ensures Admitted(s, s.slots[i], clients[s.slots[i] as object].version)
    {
      assert Admitted(l, l.slots[i], clients[l.slots[i] as object].version);
    }
  }

  lemma PartKeepsCore(b: BlockState, c: object, now: int)
    requires Core(b) && c in b.clients && b.clients[c].lobby != null
    ensures var l, slot := b.clients[c].lobby as object, b.clients[c].slot;
            && l in b.lobbies && Subscribed(b.lobbies[l]) && slot < LOBBY_MAX_CLIENTS
            && (b.lobbies[l].terms.kind != DefaultLobby ==> slot < LOBBY_MAX_IN_TEAM)
            && Core(Part(b, c, slot, l, now))
  {
    Located(b, c);
    var l, slot := b.clients[c].lobby as object, b.clients[c].slot;
    SeatsMatchSlots(b, l);
    var was, seats := b.lobbies[l], SeatsOf(b.lobbies[l].slots, b.clients);
    LeaveKeepsSound(was, slot, seats, now);
    LeaveFrame(was, slot, seats, now);
    var s := Leave(was, slot, seats, now);
    var t := b.clients[c].(lobby := null, slot := 0);
    UnseatKeepsSeating(b, c, s);
    assert Admission(was, b.clients);
    LeaveKeepsAdmission(was, s, slot, b.clients);
    CoreKept(b, l, s, c, t);
  }

  lemma EnteredKeepsSound(l: LobbyState, c: object, byOverride: bool)
    requires Sound(l) && l.count < l.terms.maxClients && !l.history.pending
    requires l.flags.singlePlayer ==> l.count == 0
    ensures Sound(Entered(l, c, byOverride))
  {
    EnterKeepsSound(l, c);
    OverridersKeepSound(Enter(l, c), Entered(l, c, byOverride).history.overriders);
  }

  lemma EnteredKeepsAdmission(l: LobbyState, c: object, byOverride: bool, clients: map<object, ClientState>)
    requires Shape(l) && Subscribed(l) && l.count < l.terms.maxClients
    requires Admission(l, clients) && c in clients && (byOverride || MayEnter(l, clients[c].version))
    requires forall i :: 0 <= i < |l.slots| ==> l.slots[i] != c
    ensures Admission(Entered(l, c, byOverride), clients)
  {
    EnterFrame(l, c);
    var s := Entered(l, c, byOverride);
    forall i | 0 <= i < |s.slots| && s.slots[i] != null && s.slots[i] in clients
      ensures Admitted(s, s.slots[i], clients[s.slots[i] as object].version)
    {
      if i != NextSlot(l) {
        assert Admitted(l, l.slots[i], clients[l.slots[i] as object].version);
      }
    }
  }

  lemma JoinKeepsCore(b: BlockState, c: object, l: object, now: int, byOverride: bool)
    requires Core(b) && c in b.clients && b.clients[c].lobby == null && l in b.lobbies && l in b.listed
    requires b.lobbies[l].count < b.lobbies[l].terms.maxClients
    requires b.lobbies[l].flags.singlePlayer ==> b.lobbies[l].count == 0
    requires byOverride || MayEnter(b.lobbies[l], b.clients[c].version)
    ensures Shape(b.lobbies[l]) && Subscribed(b.lobbies[l]) && Core(Join(b, c, l, now, byOverride))
  {
    var was := b.lobbies[l];
    assert Sound(was) && Admission(was, b.clients) && !was.history.pending;
    EnteredKeepsSound(was, c, byOverride);
    EnterFrame(was, c);
    NotAMember(b, c, l);
    EnteredKeepsAdmission(was, c, byOverride, b.clients);
    var s := Entered(was, c, byOverride);
    var t := b.clients[c].(lobby := l, slot := NextSlot(was), joinTime := now);
    SeatKeepsSeating(b, c, l, NextSlot(was), now, s);
    CoreKept(b, l, s, c, t);
  }

  ghost predicate MayEnter(l: LobbyState, version: Version) {
    && (l.flags.v1Only ==> version == DCv1)
    && (l.flags.dcOnly ==> version == DCv1 || version == DCv2)
    && (l.flags.pcOnly ==> version == PC)
  }

  lemma NotAMember(b: BlockState, c: object, l: object)
    requires Seating(b) && c in b.clients && b.clients[c].lobby == null && l in b.lobbies
    ensures forall i :: 0 <= i < |b.lobbies[l].slots| ==> b.lobbies[l].slots[i] != c
  {
  }

  // ---------------------------------------------------------------- the list of lobbies

  /** The list without its first occurrence of `x`. */
  ghost function Without(list: seq<object>, x: object): seq<object> {
    if list == [] then [] else if list[0] == x then list[1..] else [list[0]] + Without(list[1..], x)
  }

  lemma {:induction false} WithoutWithin(list: seq<object>, x: object)
    requires forall i, j :: 0 <= i < j < |list| ==> list[i] != list[j]
    ensures forall i :: 0 <= i < |Without(list, x)| ==> Without(list, x)[i] in list && Without(list, x)[i] != x
  {
    if list != [] {
      var rest := list[1..];
      assert forall i :: 0 <= i < |rest| ==> rest[i] == list[i + 1];
      WithoutWithin(rest, x);
    }
  }

  lemma {:induction false} WithoutKeeps(list: seq<object>, x: object, i: nat)
    requires i < |list| && list[i] != x
    ensures list[i] in Without(list, x)
  {
    if i > 0 {
      assert list[i] == list[1..][i - 1];
      WithoutKeeps(list[1..], x, i - 1);
    }
  }

  lemma {:induction false} WithoutDistinct(list: seq<object>, x: object)
    requires forall i, j :: 0 <= i < j < |list| ==> list[i] != list[j]
    ensures forall i, j :: 0 <= i < j < |Without(list, x)| ==> Without(list, x)[i] != Without(list, x)[j]
  {
    if list != [] {
      var rest, w := list[1..], Without(list[1..], x);
      assert forall i :: 0 <= i < |rest| ==> rest[i] == list[i + 1];
      WithoutDistinct(rest, x);
      WithoutWithin(rest, x);
      if list[0] != x {
        assert forall i :: 0 <= i < |w| ==> w[i] != list[0];
      }
    }
  }

  lemma WithoutMembers(list: seq<object>, x: object)
    requires forall i, j :: 0 <= i < j < |list| ==> list[i] != list[j]
    ensures var w := Without(list, x);
            && (forall i :: 0 <= i < |w| ==> w[i] in list && w[i] != x)
            && (forall i :: 0 <= i < |list| && list[i] != x ==> list[i] in w)
            && (forall i, j :: 0 <= i < j < |w| ==> w[i] != w[j])
  {
    WithoutWithin(list, x);
    WithoutDistinct(list, x);
    forall i | 0 <= i < |list| && list[i] != x ensures list[i] in Without(list, x) {
      WithoutKeeps(list, x, i);
    }
  }

  lemma {:induction false} WithoutAt(list: seq<object>, i: nat)
    requires i < |list| && forall j :: 0 <= j < i ==> list[j] != list[i]
    ensures Without(list, list[i]) == list[..i] + list[i + 1..]
  {
    if i > 0 {
      WithoutAt(list[1..], i - 1);
      assert list[..i] + list[i + 1..] == [list[0]] + (list[1..][..i - 1] + list[1..][i..]);
    } else {
      assert list[..0] + list[1..] == list[1..];
    }
  }

  lemma {:induction false} GamesWithout(list: seq<object>, x: object, lobbies: map<object, LobbyState>)
    requires x in list && x in lobbies && lobbies[x].terms.kind != DefaultLobby
    ensures Games(Without(list, x), lobbies) == Games(list, lobbies) - 1
  {
    if list[0] != x {
      GamesWithout(list[1..], x, lobbies);
      assert Without(list, x)[1..] == Without(list[1..], x);
    }
  }

  lemma {:induction false} GamesAppend(list: seq<object>, x: object, lobbies: map<object, LobbyState>)
    ensures Games(list + [x], lobbies) ==
            Games(list, lobbies) + if x in lobbies && lobbies[x].terms.kind != DefaultLobby then 1 else 0
  {
    if list != [] {
      assert (list + [x])[1..] == list[1..] + [x];
      GamesAppend(list[1..], x, lobbies);
    }
  }

  /** Unlist and free a team. */
  ghost function Destroy(b: BlockState, l: object): BlockState {
    b.(listed := Without(b.listed, l), numGames := b.numGames - 1, lobbies := b.lobbies - {l})
  }

  ghost function DestroyIfEmpty(b: BlockState, l: object): BlockState {
    if l in b.lobbies && b.lobbies[l].terms.kind != DefaultLobby && b.lobbies[l].count == 0 then Destroy(b, l) else b
  }

  lemma DestroyKeepsListing(b: BlockState, l: object)
    requires Listing(b) && l in b.listed && b.lobbies[l].terms.kind != DefaultLobby
    ensures Listing(Destroy(b, l))
    ensures forall i :: 0 <= i < |b.listed| && b.listed[i] != l ==> b.listed[i] in Destroy(b, l).listed
  {
    var w := Without(b.listed, l);
    WithoutMembers(b.listed, l);
    GamesWithout(b.listed, l, b.lobbies);
    GamesSame(w, b.lobbies, b.lobbies - {l});
  }

  lemma DestroyKeepsSeating(b: BlockState, l: object)
    requires Seating(b) && l in b.lobbies && forall i :: 0 <= i < |b.lobbies[l].slots| ==> b.lobbies[l].slots[i] == null
    requires forall i :: 0 <= i < |b.listed| && b.listed[i] != l ==> b.listed[i] in Destroy(b, l).listed
    ensures Seating(Destroy(b, l))
  {
  }

  lemma DestroyKeepsDeferring(b: BlockState, l: object)
    requires Deferring(b) && l in b.lobbies && !b.lobbies[l].history.pending
    ensures Deferring(Destroy(b, l))
  {
  }

  lemma DestroyKeepsCore(b: BlockState, l: object)
    requires Core(b) && l in b.listed && b.lobbies[l].terms.kind != DefaultLobby && b.lobbies[l].count == 0
    ensures Core(Destroy(b, l))
  {
    DestroyKeepsListing(b, l);
    assert Sound(b.lobbies[l]);
    SeatedZero(b.lobbies[l].slots);
    DestroyKeepsSeating(b, l);
    DestroyKeepsDeferring(b, l);
  }

  lemma DestroyKeepsInhabited(b: BlockState, l: object, xs: set<object>)
    requires Listing(b) && InhabitedBut(b, xs)
    ensures InhabitedBut(Destroy(b, l), xs - {l})
  {
    WithoutMembers(b.listed, l);
  }

  /** Put a new lobby on the block's list. */
  ghost function Insert(b: BlockState, l: object, s: LobbyState): BlockState {
    b.(lobbies := b.lobbies[l := s], listed := b.listed + [l],
       numGames := b.numGames + if s.terms.kind != DefaultLobby then 1 else 0)
  }

  lemma InsertKeepsListing(b: BlockState, l: object, s: LobbyState)
    requires Listing(b) && l !in b.listed && !s.history.pending
    requires l in b.lobbies ==> b.lobbies[l].terms.kind == s.terms.kind
    ensures Listing(Insert(b, l, s))
  {
    var r := Insert(b, l, s);
    GamesAppend(b.listed, l, r.lobbies);
    GamesSame(b.listed, b.lobbies, r.lobbies);
    forall i | 0 <= i < |r.listed| ensures r.listed[i] in r.lobbies && !r.lobbies[r.listed[i]].history.pending {
      if i < |b.listed| { assert r.listed[i] == b.listed[i]; }
    }
    forall i, j | 0 <= i < j < |r.listed| ensures r.listed[i] != r.listed[j] {
      assert r.listed[i] == b.listed[i];
      assert j < |b.listed| ==> r.listed[j] == b.listed[j];
    }
  }

  lemma InsertKeepsDeferring(b: BlockState, l: object, s: LobbyState)
    requires Deferring(b) && l !in b.lobbies
    ensures Deferring(Insert(b, l, s))
  {
  }

  lemma InsertKeepsSeating(b: BlockState, l: object, s: LobbyState)
    requires Seating(b) && (forall i :: 0 <= i < |s.slots| ==> s.slots[i] == null)
    requires l !in b.listed
    ensures Seating(Insert(b, l, s))
  {
  }

  /** A new, empty, team is listed. */
  lemma InsertKeepsCore(b: BlockState, l: object, s: LobbyState)
    requires Core(b) && l !in b.lobbies && Sound(s) && !s.history.pending
    requires s.count == 0
    ensures Core(Insert(b, l, s))
  {
    assert l !in b.listed;
    SeatedZero(s.slots);
    InsertKeepsListing(b, l, s);
    InsertKeepsSeating(b, l, s);
    InsertKeepsDeferring(b, l, s);
    assert AllAdmitted(Insert(b, l, s));
  }

  lemma InsertKeepsInhabited(b: BlockState, l: object, s: LobbyState)
    requires InhabitedBut(b, {}) && l !in b.lobbies && Listing(b)
    ensures InhabitedBut(Insert(b, l, s), {l})
  {
    var r := Insert(b, l, s);
    forall i | 0 <= i < |r.listed| && r.listed[i] !in {l} && r.listed[i] in r.lobbies
      ensures Inhabited(r.lobbies[r.listed[i]])
    {
      assert r.listed[i] == b.listed[i];
    }
  }
}
