/**
  A block: its clients, its list of lobbies, and the requests that move clients about (src/block.c, src/lobby.c).
  Each method is one request, handled atomically, and is proved to do to the block what the functions of
  Moves, Teams and Commands say.
 */
module Blocks {
  import opened Elections
  import opened TeamIds
  import opened LobbyRules
  import opened BlockRules
  import Moves
  import Teams
  import Commands
  import Runs
  import opened Lobbies

  const DEFAULT_LOBBIES := 20

  class Block {
    /** The block's lobby list, in order, and its count of teams. */
    var lobbies: seq<Lobby>
    var numGames: int
    var nextId: nat
    /** The clients on the block, and every lobby that exists, listed or not. */
    ghost var people: set<Client>
    ghost var all: set<Lobby>

    ghost function Clients(): map<object, ClientState>
      reads this`people, people
    {
      map c: Client | c in people :: (c as object) := c.View()
    }

    ghost function Lobbies(): map<object, LobbyState>
      reads this`all, all
    {
      map l: Lobby | l in all :: (l as object) := l.View()
    }

    ghost function View(): BlockState
      reads this, people, all
    {
      BlockState(Clients(), Lobbies(), lobbies, numGames, nextId)
    }

    ghost predicate Valid()
      reads this, people, all
    {
      Inv(View())
    }

    /** A block opens with twenty default lobbies. */
    constructor ()
      ensures Valid() && fresh(all) && people == {} && |lobbies| == DEFAULT_LOBBIES
      ensures View() == Runs.Opened(lobbies)
    {
      lobbies, numGames, nextId := [], 0, FIRST_TEAM_ID;
      people, all := {}, {};
      new;
      assert View() == Runs.Opened(lobbies);
      while |lobbies| < DEFAULT_LOBBIES
        invariant |lobbies| <= DEFAULT_LOBBIES && people == {} && fresh(all)
        invariant (forall l <- lobbies :: l in all) && Runs.Distinct(lobbies)
        invariant View() == Runs.Opened(lobbies)
      {
        Open(|lobbies| + 1);
      }
      Runs.OpenedInv(lobbies);
    }

    /** One more default lobby. */
    method Open(id: nat)
      requires id == |lobbies| + 1 && View() == Runs.Opened(lobbies)
      requires (forall l <- lobbies :: l in all) && Runs.Distinct(lobbies)
      modifies this`lobbies, this`numGames, this`all
      ensures |lobbies| == id && (forall l <- lobbies :: l in all) && Runs.Distinct(lobbies) && fresh(all - old(all))
      ensures View() == Runs.Opened(lobbies)
    {
      var l := MakeDefault(id);
      OpenMade(lobbies, l);
    }

    method OpenMade(ghost before: seq<Lobby>, l: Lobby)
      requires before == lobbies && View() == Runs.Opened(before)
      requires l !in all && l.View() == Runs.NewDefaultLobby(|before| + 1)
      requires (forall m <- before :: m in all) && Runs.Distinct(before)
      modifies this`lobbies, this`numGames, this`all
      ensures |lobbies| == |before| + 1 && all == old(all) + {l} && View() == Runs.Opened(lobbies)
      ensures (forall m <- lobbies :: m in all) && Runs.Distinct(lobbies)
    {
      Runs.OneMoreOpened(before, l);
      List(View(), Runs.NewDefaultLobby(|before| + 1), l);
    }

    method MakeDefault(id: nat) returns (l: Lobby)
      ensures fresh(l) && l.View() == Runs.NewDefaultLobby(id)
    {
      var terms := Terms(id, DefaultLobby, LOBBY_MAX_CLIENTS, 0, false, false, false);
      l := new Lobby(terms, DCv1, false, false, false, false);
    }

    /** A client comes to the block. */
    method Connect(version: Version, nte: bool, gcProtect: bool, level: nat, lateClass: bool) returns (c: Client)
      requires Valid()
      modifies this`people
      ensures Valid() && fresh(c) && people == old(people) + {c} && c !in old(View()).clients
      ensures View() == Teams.Connect(old(View()), c, version, nte, gcProtect, level, lateClass)
    {
      ghost var b := View();
      c := new Client(version, nte, gcProtect, level, lateClass);
      Teams.ConnectKeepsInv(b, c, version, nte, gcProtect, level, lateClass);
      Welcome(b, c);
    }

    method Welcome(ghost b: BlockState, c: Client)
      requires b == View() && c !in people
      modifies this`people
      ensures people == old(people) + {c} && View() == PutClient(b, c, c.View())
    {
      people := people + {c};
      ClientChanged(c);
      assert Lobbies() == old(Lobbies());
    }

    /** Only one client has changed, or come. */
    twostate lemma ClientChanged(new c: Client)
      requires people == old(people) + {c} && forall d <- old(people) :: d != c ==> d.View() == old(d.View())
      ensures Clients() == old(Clients())[c := c.View()]
    {
    }

    /** Only one lobby has changed, or been made. */
    twostate lemma LobbyChanged(new l: Lobby)
      requires all == old(all) + {l} && forall m <- old(all) :: m != l ==> m.View() == old(m.View())
      ensures Lobbies() == old(Lobbies())[l := l.View()]
    {
    }

    twostate lemma ClientGone(c: Client)
      requires people == old(people) - {c} && forall d <- people :: d.View() == old(d.View())
      ensures Clients() == old(Clients()) - {c}
    {
    }

    twostate lemma LobbyGone(l: Lobby?)
      requires all == old(all) - (if l == null then {} else {l}) && forall m <- all :: m.View() == old(m.View())
      ensures Lobbies() == if l == null then old(Lobbies()) else old(Lobbies()) - {l as object}
    {
    }

    /** What the invariant says of a listed lobby. */
    lemma Listed(l: Lobby)
      requires Core(View()) && l in lobbies
      ensures l in all && Sound(l.View()) && View().lobbies[l] == l.View()
    {
      var i :| 0 <= i < |lobbies| && lobbies[i] == l;
      assert View().listed[i] in View().lobbies;
      assert Sound(View().lobbies[l]);
    }

    lemma AllListed()
      requires Core(View())
      ensures forall l <- lobbies :: l in all
    {
      forall l <- lobbies ensures l in all {
        Listed(l);
      }
    }

    /** A lobby takes a client in. */
    method Admit(c: Client, l: Lobby, now: int, ghost byOverride: bool)
      requires c in people && l in all && Shape(l.View()) && Subscribed(l.View())
      requires l.numClients < l.terms.maxClients
      modifies all, c
      ensures View() == Join(old(View()), c, l, now, byOverride)
    {
      var _ := l.AddClientLocked(c, now, byOverride);
      ClientChanged(c);
      LobbyChanged(l);
    }

    /** A requested default lobby with room, or else the first one with room that the client can see. */
    method FindOpen(c: Client, req: Lobby?) returns (l: Lobby?)
      requires c in people && (req != null ==> req in lobbies) && forall l <- lobbies :: l in all
      ensures l == Moves.AnyLobby(View(), c, req)
    {
      if req != null {
        assert View().lobbies[req] == req.View();
        if req.terms.kind == DefaultLobby && req.numClients < req.terms.maxClients {
          return req;
        }
      }
      var i := FirstFit(View(), c);
      return if i == |lobbies| then null else lobbies[i];
    }

    /** The position in the list of the first lobby that suits. */
    method FirstFit(ghost b: BlockState, c: Client) returns (i: nat)
      requires b == View() && c in people && forall l <- lobbies :: l in all
      ensures i == Moves.FirstOpen(b, c, 0)
    {
      i := 0;
      while i < |lobbies|
        invariant 0 <= i <= |lobbies| && b == View()
        invariant forall j :: 0 <= j < i ==> !Moves.Suits(b, c, b.listed[j])
      {
        var here := Fits(c, lobbies[i]);
        if here {
          break;
        }
        i := i + 1;
      }
      Moves.FirstOpenIsUnique(b, c, i);
    }

    method Fits(c: Client, l: Lobby) returns (fits: bool)
      requires c in people && l in all
      ensures fits <==> Moves.Suits(View(), c, l)
    {
      assert View().lobbies[l] == l.View() && View().clients[c] == c.View();
      return !(c.version == DCv1 && l.terms.lobbyId > 10) && l.terms.kind == DefaultLobby
        && l.numClients < l.terms.maxClients;
    }

    /** Put a client that is in no lobby into any default lobby, preferably a requested one. */
    method AddToAny(c: Client, req: Lobby?, now: int) returns (rc: int)
      requires Core(View()) && c in people && (req != null ==> req in lobbies)
      modifies all, c
      ensures Moves.Outcome(View(), rc) == Moves.AddToAny(old(View()), c, req, now)
    {
      AllListed();
      var l := FindOpen(c, req);
      if l == null {
        return 1;
      }
      Listed(l);
      Admit(c, l, now, false);
      return 0;
    }

    // -------------------------------------------------------------- leaving

    /** The members' own records agree with what the lobby's slots show. */
    lemma SeatsAgree(l: Lobby)
      requires forall i :: 0 <= i < |l.clients| && l.clients[i] != null ==> l.clients[i] in people
      ensures SeatsIn(l.clients) == SeatsOf(l.View().slots, Clients())
    {
    }

    lemma MembersAreHere(l: Lobby)
      requires Seating(View()) && l in all
      ensures forall i :: 0 <= i < |l.clients| && l.clients[i] != null ==> l.clients[i] in people
    {
      var b := View();
      forall i | 0 <= i < |l.clients| && l.clients[i] != null ensures l.clients[i] in people {
        assert b.lobbies[l].slots[i] == l.clients[i];
        assert b.lobbies[l].slots[i] in b.clients;
      }
    }

    /** Where the invariant puts a client that is in a lobby. */
    lemma Here(c: Client)
      requires Core(View()) && c in people && c.curLobby != null
      ensures var l := c.curLobby;
              && l in all && l in lobbies && Sound(l.View()) && View().lobbies[l] == l.View()
              && c.clientId < LOBBY_MAX_CLIENTS && l.clients[c.clientId] == c
              && (l.terms.kind != DefaultLobby ==> c.clientId < LOBBY_MAX_IN_TEAM)
    {
      assert View().clients[c] == c.View();
      Located(View(), c);
    }

    /** A lobby lets a client go; `left` is what becomes of it. */
    method Depart(c: Client, slot: nat, l: Lobby, now: int, ghost left: LobbyState) returns (delete: int)
      requires c in people && l in all && Shape(l.View()) && Subscribed(l.View()) && slot < LOBBY_MAX_CLIENTS
      requires l.clients[slot] == c && (l.terms.kind != DefaultLobby ==> slot < LOBBY_MAX_IN_TEAM)
      requires left == Leave(l.View(), slot, SeatsIn(l.clients), now)
      modifies all, c
      ensures View() == Rise(old(View()), c, l, left)
      ensures delete == if l.terms.kind != DefaultLobby && left.count == 0 then 1 else 0
    {
      ghost var b := View();
      assert b.clients[c] == c.View();
      delete := LetGo(c, slot, l, now, left);
    }

    method LetGo(c: Client, slot: nat, l: Lobby, now: int, ghost left: LobbyState) returns (delete: int)
      requires c in people && l in all && Shape(l.View()) && Subscribed(l.View()) && slot < LOBBY_MAX_CLIENTS
      requires l.clients[slot] == c && (l.terms.kind != DefaultLobby ==> slot < LOBBY_MAX_IN_TEAM)
      requires left == Leave(l.View(), slot, SeatsIn(l.clients), now)
      modifies l, c
      ensures Clients() == old(Clients())[c := if old(c.curLobby) == l then old(c.View()).(lobby := null, slot := 0)
                                               else old(c.View())]
      ensures Lobbies() == old(Lobbies())[l := left]
      ensures delete == if l.terms.kind != DefaultLobby && left.count == 0 then 1 else 0
    {
      delete := l.LetGo(c, slot, now, left);
      ClientChanged(c);
      LobbyChanged(l);
    }

    /** Unlist a team and free it. */
    method DestroyLocked(l: Lobby)
      requires l in lobbies
      modifies this`lobbies, this`numGames, this`all
      ensures View() == Destroy(old(View()), l)
    {
      var i := 0;
      while lobbies[i] != l
        invariant 0 <= i < |lobbies| && l in lobbies[i..]
        invariant forall j :: 0 <= j < i ==> lobbies[j] != l
        decreases |lobbies| - i
      {
        i := i + 1;
      }
      WithoutAt(lobbies, i);
      lobbies := lobbies[..i] + lobbies[i + 1..];
      numGames := numGames - 1;
      all := all - {l};
      LobbyGone(l);
    }

    // -------------------------------------------------------------- changing lobbies

    /** Why a client may not enter, or 0. */
    method Reason(c: Client, req: Lobby, override: bool, legit: bool) returns (rc: int)
      ensures rc == Moves.Refusal(req.View(), c.View().(override := override), legit)
    {
      rc := ReasonOfVersion(c, req, override);
      if rc == 0 {
        rc := OtherReason(c, req, override, legit);
      }
    }

    method ReasonOfVersion(c: Client, req: Lobby, override: bool) returns (rc: int)
      ensures rc == Moves.VersionRefusal(req.View(), c.View().(override := override))
    {
      if req.terms.kind == Game && req.version == DCv1 && c.lateClass {
        return -15;
      }
      if req.flags.singlePlayer && req.numClients != 0 {
        return -14;
      }
      if req.flags.pcOnly && c.version != PC && !override {
        return -13;
      }
      if req.flags.v1Only && c.version != DCv1 && !override {
        return -12;
      }
      if req.flags.dcOnly && c.version != DCv1 && c.version != DCv2 && !override {
        return -11;
      }
      return 0;
    }

    method OtherReason(c: Client, req: Lobby, override: bool, legit: bool) returns (rc: int)
      ensures rc == Moves.OtherRefusal(req.View(), c.View().(override := override), legit)
    {
      if req.flags.tempUnavail {
        return -10;
      }
      if req.flags.bursting {
        return -3;
      }
      if req.flags.questing && !req.qJoin {
        return -7;
      } else if req.flags.questSel {
        return -8;
      }
      if req.minLevel > c.level + 1 && !override {
        return -4;
      }
      if req.maxLevel < c.level + 1 && !override {
        return -5;
      }
      if c.version == DCv1 && req.v2 {
        return -6;
      }
      if req.terms.kind == Game && req.terms.legitMode && !legit && !override {
        return -9;
      }
      return 0;
    }

    /** Entering a team starts a burst. */
    method Arrive(c: Client, l: Lobby)
      requires c in people && l in all
      modifies all, c
      ensures View() == Moves.Arrive(old(View()), c, l)
    {
      if l.terms.kind != DefaultLobby {
        l.flags := l.flags.(bursting := true);
        c.bursting := true;
        ClientChanged(c);
        LobbyChanged(l);
      }
    }

    /** Into the new lobby first, then out of the old one. */
    method Transfer(c: Client, slot: nat, l: Lobby, req: Lobby, now: int, ghost byOverride: bool) returns (delete: int)
      requires c in people && l in all && req in all && req != l && c.curLobby == l && c.clientId == slot
      requires Shape(l.View()) && Subscribed(l.View()) && slot < LOBBY_MAX_CLIENTS && l.clients[slot] == c
      requires l.terms.kind != DefaultLobby ==> slot < LOBBY_MAX_IN_TEAM
      requires forall i :: 0 <= i < |l.clients| && l.clients[i] != null ==> l.clients[i] in people
      requires Shape(req.View()) && Subscribed(req.View()) && req.numClients < req.terms.maxClients
      modifies all, c
      ensures var j := Join(old(View()), c, req, now, byOverride);
              && j.lobbies[l] == old(l.View())
              && View() == Rise(j, c, l, Leave(old(l.View()), slot, SeatsOf(old(l.View()).slots, j.clients), now))
      ensures delete == if l.terms.kind != DefaultLobby && l.View().count == 0 then 1 else 0
    {
      Admit(c, req, now, byOverride);
      assert View().lobbies[l] == l.View();
      SeatsAgree(l);
      ghost var left := Leave(l.View(), slot, SeatsIn(l.clients), now);
      delete := Depart(c, slot, l, now, left);
      assert View().lobbies[l] == l.View();
    }

    /** What a move may rely on. */
    lemma ReadyToMove(c: Client, l: Lobby, req: Lobby)
      requires Core(View()) && c in people && c.curLobby == l && req in lobbies
      ensures l in all && l in lobbies && req in all
      ensures Shape(l.View()) && Subscribed(l.View()) && Shape(req.View()) && Subscribed(req.View())
      ensures c.clientId < LOBBY_MAX_CLIENTS && l.clients[c.clientId] == c
      ensures l.terms.kind != DefaultLobby ==> c.clientId < LOBBY_MAX_IN_TEAM
      ensures forall i :: 0 <= i < |l.clients| && l.clients[i] != null ==> l.clients[i] in people
      ensures View().clients[c] == c.View() && View().lobbies[l] == l.View() && View().lobbies[req] == req.View()
    {
      Here(c);
      Listed(req);
      MembersAreHere(l);
      assert View().clients[c] == c.View();
    }

    /** Transfer, start of a burst, and the end of the old lobby if it was a team and is empty now. */
    method Relocate(c: Client, req: Lobby, now: int, ghost byOverride: bool)
      requires Core(View()) && c in people && c.curLobby != null && req in lobbies && req != c.curLobby
      requires req.numClients < req.terms.maxClients
      modifies this`lobbies, this`numGames, this`all, all, c
      ensures View() == Moves.Relocate(old(View()), c, req, now, byOverride)
    {
      ghost var b := View();
      var l: Lobby := c.curLobby;
      ReadyToMove(c, l, req);
      ghost var m := Moves.MoveNamed(b, c, req, now, byOverride);
      Carry(b, m, c, l, req, now, byOverride);
    }

    /** The same with the outcome of the transfer named. */
    method Carry(ghost b: BlockState, ghost m: BlockState, c: Client, l: Lobby, req: Lobby, now: int,
                 ghost byOverride: bool)
      requires b == View() && c in people && l in all && l in lobbies && req in all && req != l && c.curLobby == l
      requires Shape(l.View()) && Subscribed(l.View()) && c.clientId < LOBBY_MAX_CLIENTS && l.clients[c.clientId] == c
      requires l.terms.kind != DefaultLobby ==> c.clientId < LOBBY_MAX_IN_TEAM
      requires forall i :: 0 <= i < |l.clients| && l.clients[i] != null ==> l.clients[i] in people
      requires Shape(req.View()) && Subscribed(req.View()) && req.numClients < req.terms.maxClients
      requires c in b.clients && req in b.lobbies && b.lobbies[req] == req.View()
      requires Moves.IsMove(b, m, c, l, l.View(), c.clientId, req, now, byOverride)
      modifies this`lobbies, this`numGames, this`all, all, c
      ensures View() == DestroyIfEmpty(Moves.Arrive(m, c, req), l)
    {
      var delete := Transfer(c, c.clientId, l, req, now, byOverride);
      Conclude(c, l, req, delete);
    }

    method Conclude(c: Client, l: Lobby, req: Lobby, delete: int)
      requires c in people && l in all && req in all && l in lobbies && req != l
      requires delete == if l.terms.kind != DefaultLobby && l.View().count == 0 then 1 else 0
      modifies this`lobbies, this`numGames, this`all, all, c
      ensures View() == DestroyIfEmpty(Moves.Arrive(old(View()), c, req), l)
    {
      assert View().lobbies[l] == l.View();
      Arrive(c, req);
      assert View().lobbies[l] == l.View();
      if delete == 1 {
        DestroyLocked(l);
      }
    }

    /** Use up the override. */
    method ClearOverride(ghost b: BlockState, c: Client)
      requires b == View() && c in people
      modifies c`override
      ensures c in b.clients && View() == PutClient(b, c, b.clients[c].(override := false))
    {
      assert b.clients[c] == c.View();
      c.override := false;
      ClientChanged(c);
      assert Lobbies() == old(Lobbies());
    }

    /** The checks of a request to enter a lobby. */
    method Vet(ghost b: BlockState, c: Client, req: Lobby, legit: bool) returns (reason: int, override: bool)
      requires b == View() && Core(b) && c in people && req in lobbies
      ensures c in b.clients && req in b.lobbies
      ensures reason == Moves.Refusal(b.lobbies[req], b.clients[c], legit) && override == b.clients[c].override
    {
      assert b.clients[c] == c.View();
      Listed(req);
      override := c.override;
      reason := Reason(c, req, override, legit);
    }

    /** Move a client to the requested lobby if it is let in; otherwise only its override is used up. */
    method ChangeLobby(c: Client, req: Lobby, legit: bool, now: int) returns (rc: int)
      requires Core(View()) && c in people && req in lobbies
      modifies this`lobbies, this`numGames, this`all, all, c
      ensures Moves.Outcome(View(), rc) == Moves.ChangeLobby(old(View()), c, req, legit, now)
    {
      ghost var b := View();
      var reason, override := Vet(b, c, req, legit);
      Moves.ChangeLobbyUnfolds(b, c, req, legit, now);
      rc := Proceed(b, c, req, reason, override, now);
    }

    method Proceed(ghost b: BlockState, c: Client, req: Lobby, reason: int, override: bool, now: int) returns (rc: int)
      requires b == View() && c in people && req in lobbies && c in b.clients
      requires Core(PutClient(b, c, b.clients[c].(override := false)))
      modifies this`lobbies, this`numGames, this`all, all, c
      ensures Moves.Outcome(View(), rc) ==
              Moves.Decide(PutClient(b, c, b.clients[c].(override := false)), c, req, reason, override, now)
    {
      ClearOverride(b, c);
      rc := Decide(c, req, reason, override, now);
    }

    method Decide(c: Client, req: Lobby, reason: int, override: bool, now: int) returns (rc: int)
      requires Core(View()) && c in people && req in lobbies
      modifies this`lobbies, this`numGames, this`all, all, c
      ensures Moves.Outcome(View(), rc) == Moves.Decide(old(View()), c, req, reason, override, now)
    {
      assert View().clients[c] == c.View();
      Listed(req);
      if c.curLobby == null {
        rc := AddToAny(c, req, now);
        return if rc != 0 then -11 else 0;
      }
      if reason != 0 {
        return reason;
      }
      if c.curLobby == req {
        Arrive(c, req);
        return 0;
      }
      if req.numClients >= req.terms.maxClients {
        return -1;
      }
      Relocate(c, req, now, override);
      return 0;
    }

    // -------------------------------------------------------------- making teams

    /** Enter a team as far as that is possible, and say whether the inventory is numbered through for it: that is so
        after a success, but also after the one refusal whose test has no `else` behind it. */
    method JoinGame(c: Client, l: Lobby, legit: bool, now: int) returns (rc: int, renumbers: bool)
      requires Core(View()) && c in people && l in lobbies
      modifies this`lobbies, this`numGames, this`all, all, c
      ensures Moves.Outcome(View(), rc) == Teams.JoinGame(old(View()), c, l, legit, now)
      ensures renumbers <==> rc == 0 || rc == -15
    {
      assert View().clients[c] == c.View();
      if c.gcProtect {
        return -1, false;
      }
      Moves.ResultInRange(View(), c, l, legit, now);
      rc := ChangeLobby(c, l, legit, now);
      // The refusals from -14 to -1 exclude each other and the numbering; the test for -15 has no `else`.
      renumbers := !(-14 <= rc <= -1);
    }

    /** Join the team just listed, or destroy it again. */
    method JoinOwn(c: Client, l: Lobby, legit: bool, now: int)
      requires Core(View()) && c in people && l in lobbies
      modifies this`lobbies, this`numGames, this`all, all, c
      ensures View() == Teams.JoinOwn(old(View()), c, l, legit, now)
    {
      Teams.FailureKeepsList(View(), c, l, legit, now);
      var rc, _ := JoinGame(c, l, legit, now);
      if rc != 0 {
        DestroyLocked(l);
      }
    }

    /** The IDs the probing loop has to avoid. */
    method ListedIds() returns (used: set<nat>)
      ensures used == set k | 0 <= k < |lobbies| :: lobbies[k].terms.lobbyId
    {
      used := {};
      var i := 0;
      while i < |lobbies|
        invariant 0 <= i <= |lobbies|
        invariant used == set k | 0 <= k < i :: lobbies[k].terms.lobbyId
      {
        used := used + {lobbies[i].terms.lobbyId};
        i := i + 1;
      }
    }

    lemma UsedMeansListed(b: BlockState, used: set<nat>)
      requires b == View() && forall l <- lobbies :: l in all
      requires used == set k | 0 <= k < |lobbies| :: lobbies[k].terms.lobbyId
      ensures used == Teams.UsedIds(b)
    {
      forall k | 0 <= k < |lobbies|
        ensures b.listed[k] in b.lobbies && b.lobbies[b.listed[k]].terms.lobbyId == lobbies[k].terms.lobbyId
      {
        assert b.lobbies[lobbies[k]] == lobbies[k].View();
      }
    }

    /** Choose an ID for a new team. */
    method PickId(ghost b: BlockState) returns (id: nat)
      requires b == View() && Core(b) && InRange(nextId) && HasFree(Teams.UsedIds(b))
      modifies this`nextId
      ensures id == NextFree(Teams.UsedIds(b), b.nextId) && View() == b.(nextId := After(id))
    {
      var used := ListedIds();
      AllListed();
      UsedMeansListed(b, used);
      id := NextId(used);
    }

    method NextId(used: set<nat>) returns (id: nat)
      requires InRange(nextId) && HasFree(used)
      modifies this`nextId
      ensures id == NextFree(used, old(nextId)) && nextId == After(id)
    {
      id, nextId := AllocateId(used, nextId);
    }

    /** A new team, not yet known to the block. */
    method MakeGame(ghost b: BlockState, c: Client, p: Teams.GameRequest, id: nat) returns (l: Lobby)
      requires c in b.clients && b.clients[c] == c.View()
      ensures fresh(l) && l.View() == Teams.NewGame(b, c, p, id)
    {
      l := new Lobby(Teams.GameTerms(p, id), Teams.TeamVersion(c.version, p.v2), p.v2, p.singlePlayer,
                     Teams.Deferred(c.version, c.nte, p), c.curLobby == null);
    }

    /** Put a lobby on the block's list. */
    method List(ghost b: BlockState, ghost s: LobbyState, l: Lobby)
      requires b == View() && s == l.View() && l !in lobbies
      modifies this`lobbies, this`numGames, this`all
      ensures View() == Insert(b, l, s) && l in lobbies && l in all
      ensures lobbies == old(lobbies) + [l] && all == old(all) + {l}
    {
      lobbies := lobbies + [l];
      if l.terms.kind != DefaultLobby {
        numGames := numGames + 1;
      }
      all := all + {l};
      LobbyChanged(l);
    }

    /** Keep a team unlisted until its creator has answered. */
    method Hold(ghost b: BlockState, c: Client, l: Lobby)
      requires b == View() && c in people && l !in all
      modifies this`all, c`createLobby
      ensures c in b.clients && View() == Teams.Hold(b, c, l, l.View())
    {
      assert b.clients[c] == c.View();
      c.createLobby := l;
      all := all + {l};
      ClientChanged(c);
      LobbyChanged(l);
    }

    /** Make a team and join it. A client below the team's level without the override gets none. */
    method CreateGame(c: Client, p: Teams.GameRequest, legit: bool, now: int) returns (l: Lobby?)
      requires Valid() && c in people && Teams.GoodRequest(c.version, p)
      requires InRange(nextId) && HasFree(Teams.UsedIds(View()))
      modifies this`lobbies, this`numGames, this`all, this`nextId, all, c
      ensures Valid()
      ensures l == null <==> c.level + 1 < RequiredLevel(p.difficulty) && !old(c.override)
      ensures l == null ==> View() == old(View())
      ensures l != null ==> fresh(l) && c in old(View()).clients && l !in old(View()).lobbies &&
                            View() == Teams.CreateGame(old(View()), c, l, p, legit, now)
    {
      if c.level + 1 < RequiredLevel(p.difficulty) && !c.override {
        return null;
      }
      ghost var b := View();
      assert b.clients[c] == c.View();
      var id := PickId(b);
      l := MakeTeam(b, b.(nextId := After(id)), c, p, id, legit, now);
      Teams.CreateGameKeepsInv(b, c, l, p, legit, now);
    }

    method MakeTeam(ghost b: BlockState, ghost b1: BlockState, c: Client, p: Teams.GameRequest, id: nat, legit: bool,
                    now: int)
      returns (l: Lobby)
      requires b1 == View() && c in people && Core(b) && c in b.clients && b.clients[c] == c.View()
      requires Teams.GoodRequest(c.version, p) && InRange(b.nextId) && HasFree(Teams.UsedIds(b))
      requires c.level + 1 >= RequiredLevel(p.difficulty) || c.override
      requires id == NextFree(Teams.UsedIds(b), b.nextId) && b1 == b.(nextId := After(id))
      modifies this`lobbies, this`numGames, this`all, all, c
      ensures fresh(l) && l !in b.lobbies && View() == Teams.CreateGame(b, c, l, p, legit, now)
    {
      l := MakeGame(b, c, p, id);
      FoundTeam(b, b1, c, l, p, id, legit, now);
    }

    method FoundTeam(ghost b: BlockState, ghost b1: BlockState, c: Client, l: Lobby, p: Teams.GameRequest,
                     ghost id: nat, legit: bool, now: int)
      requires b1 == View() && c in people && l !in all && Core(b) && c in b.clients && b.clients[c] == c.View()
      requires Teams.GoodRequest(c.version, p) && InRange(b.nextId) && HasFree(Teams.UsedIds(b))
      requires c.level + 1 >= RequiredLevel(p.difficulty) || c.override
      requires id == NextFree(Teams.UsedIds(b), b.nextId) && b1 == b.(nextId := After(id))
      requires l.View() == Teams.NewGame(b, c, p, id)
      modifies this`lobbies, this`numGames, this`all, all, l, c
      ensures l !in b.lobbies && View() == Teams.CreateGame(b, c, l, p, legit, now)
    {
      Teams.CreateGameUnfolds(b, c, l, p, legit, now);
      Found(b1, Teams.NewGame(b, c, p, id), c, l, Teams.Deferred(c.version, c.nte, p), legit, now);
    }

    /** Hold back or launch a team just made. */
    method Found(ghost b: BlockState, ghost s: LobbyState, c: Client, l: Lobby, deferred: bool, legit: bool, now: int)
      requires b == View() && s == l.View() && l !in b.listed && l !in b.lobbies && c in people
      requires !deferred ==> Core(Insert(b, l, s))
      modifies this`lobbies, this`numGames, this`all, all, l, c
      ensures c in b.clients
      ensures View() == if deferred then Teams.Hold(b, c, l, s) else Teams.JoinOwn(Insert(b, l, s), c, l, legit, now)
    {
      if deferred {
        Hold(b, c, l);
      } else {
        Launch(b, s, c, l, legit, now);
      }
    }

    /** List a team and let its creator join it. */
    method Launch(ghost b: BlockState, ghost s: LobbyState, c: Client, l: Lobby, legit: bool, now: int)
      requires b == View() && s == l.View() && l !in lobbies && c in people && Core(Insert(b, l, s))
      modifies this`lobbies, this`numGames, this`all, all, l, c
      ensures c in b.clients && View() == Teams.JoinOwn(Insert(b, l, s), c, l, legit, now)
    {
      List(b, s, l);
      JoinOwn(c, l, legit, now);
    }

    /** Make an Episode 3 team and join it. Its ID is the lowest one free, `nextId` stays as it is. */
    method CreateEp3Game(c: Client, viewBattle: bool, legit: bool, now: int) returns (l: Lobby)
      requires Valid() && c in people
      modifies this`lobbies, this`numGames, this`all, all, c
      ensures Valid()
      ensures fresh(l) && c in old(View()).clients && l !in old(View()).lobbies
      ensures View() == Teams.CreateEp3Game(old(View()), c, l, viewBattle, legit, now)
    {
      ghost var b := View();
      assert b.clients[c] == c.View();
      l := MakeEp3Team(b, c, viewBattle, legit, now);
      Teams.CreateEp3GameKeepsInv(b, c, l, viewBattle, legit, now);
    }

    method MakeEp3Team(ghost b: BlockState, c: Client, viewBattle: bool, legit: bool, now: int) returns (l: Lobby)
      requires b == View() && c in people && Core(b) && c in b.clients && b.clients[c] == c.View()
      modifies this`lobbies, this`numGames, this`all, all, c
      ensures fresh(l) && l !in b.lobbies && View() == Teams.CreateEp3Game(b, c, l, viewBattle, legit, now)
    {
      l := MakeEp3Game(b, c, viewBattle);
      FoundEp3Team(b, c, l, viewBattle, legit, now);
    }

    method FoundEp3Team(ghost b: BlockState, c: Client, l: Lobby, viewBattle: bool, legit: bool, now: int)
      requires b == View() && c in people && l !in all && Core(b) && c in b.clients && b.clients[c] == c.View()
      requires l.View() == Teams.NewEp3Game(b, c, viewBattle)
      modifies this`lobbies, this`numGames, this`all, all, l, c
      ensures l !in b.lobbies && View() == Teams.CreateEp3Game(b, c, l, viewBattle, legit, now)
    {
      Teams.CreateEp3GameUnfolds(b, c, l, viewBattle, legit, now);
      Launch(b, Teams.NewEp3Game(b, c, viewBattle), c, l, legit, now);
    }

    method MakeEp3Game(ghost b: BlockState, c: Client, viewBattle: bool) returns (l: Lobby)
      requires b == View() && Core(b) && c in b.clients && b.clients[c] == c.View()
      ensures fresh(l) && l.View() == Teams.NewEp3Game(b, c, viewBattle)
    {
      AllListed();
      var used := ListedIds();
      UsedMeansListed(b, used);
      var id := AllocateEp3Id(used);
      Ep3IdIsUnique(used, id);
      l := new Lobby(Terms(id, Ep3Game, 4, 0, viewBattle, false, false), EP3, false, false, false, c.curLobby == null);
    }

    /** The creator of a held back PC team has chosen who may join. */
    method PickGameType(c: Client, choice: nat, legit: bool, now: int)
      requires Valid() && c in people
      modifies this`lobbies, this`numGames, this`all, all, c
      ensures Valid() && c in old(View()).clients
      ensures View() == Teams.PickGameType(old(View()), c, choice, legit, now)
    {
      ghost var b := View();
      assert b.clients[c] == c.View();
      Teams.PickGameTypeKeepsInv(b, c, choice, legit, now);
      if c.createLobby != null {
        Teams.PickUnfolds(b, c, choice, legit, now);
        PublishOwn(b, Teams.Choice(b, c, choice), c, c.createLobby, choice, legit, now);
      }
    }

    method PublishOwn(ghost b: BlockState, ghost s: LobbyState, c: Client, l: Lobby, choice: nat, legit: bool, now: int)
      requires b == View() && c in people && l in all && l.terms.kind == Game
      requires c.createLobby == l && Core(b) && c in b.clients && s == Teams.Choice(b, c, choice)
      requires Core(Teams.Release(b, c, l, s))
      modifies this`lobbies, this`numGames, this`all, all, c
      ensures l in Teams.Release(b, c, l, s).listed && c in Teams.Release(b, c, l, s).clients
      ensures View() == Teams.JoinOwn(Teams.Release(b, c, l, s), c, l, legit, now)
    {
      Publish(b, s, c, l, choice);
      JoinOwn(c, l, legit, now);
    }

    /** The answer is noted and the team listed; `s` is what becomes of the team. */
    method Publish(ghost b: BlockState, ghost s: LobbyState, c: Client, l: Lobby, choice: nat)
      requires b == View() && c in people && l in all && l.terms.kind == Game
      requires c.createLobby == l && Core(b) && c in b.clients && s == Teams.Choice(b, c, choice)
      modifies this`lobbies, this`numGames, all, c`createLobby
      ensures c in b.clients && View() == Teams.Release(b, c, l, s) && l in lobbies
    {
      assert b.lobbies[l] == l.View();
      Answer(b, l, choice, c.curLobby == null);
      Teams.ReleaseAfterPut(b, c, l, s);
      Release(Put(b, l, s), c, l);
    }

    method Answer(ghost b: BlockState, l: Lobby, choice: nat, ghost strayed: bool)
      requires b == View() && l in all
      modifies l
      ensures l in b.lobbies && View() == Put(b, l, Teams.Chosen(b.lobbies[l], choice, strayed))
    {
      assert b.lobbies[l] == l.View();
      Choose(l, choice, strayed);
      LobbyChanged(l);
    }

    /** The team is listed, and its creator has no team held back any more. */
    method Release(ghost b: BlockState, c: Client, l: Lobby)
      requires b == View() && c in people && l in all && l.terms.kind == Game
      modifies this`lobbies, this`numGames, c`createLobby
      ensures c in b.clients && l in b.lobbies && View() == Teams.Release(b, c, l, b.lobbies[l])
    {
      assert b.clients[c] == c.View();
      assert b.lobbies[l] == l.View();
      lobbies := lobbies + [l];
      numGames := numGames + 1;
      c.createLobby := null;
      ClientChanged(c);
      LobbyChanged(l);
    }

    method Choose(l: Lobby, choice: nat, ghost strayed: bool)
      modifies l
      ensures l.View() == Teams.Chosen(old(l.View()), choice, strayed)
    {
      if choice == 0 {
        l.v2 := false;
        l.version := DCv1;
      } else if choice == 2 {
        l.flags := l.flags.(pcOnly := true);
      }
      l.history := l.history.(pending := false, strayed := strayed);
    }

    // -------------------------------------------------------------- leaving

    /** The burst is over, and the packets that waited for its end are handled. */
    method EndBurst(ghost b: BlockState, l: Lobby, accepts: Packet -> bool) returns (rc: int)
      requires b == View() && l in all
      modifies l
      ensures l in b.lobbies && b.lobbies[l] == old(l.View())
      ensures View() == Put(b, l, LobbyRules.EndBurst(b.lobbies[l], accepts))
      ensures rc == if AllAccepted(b.lobbies[l].queues.waiting, accepts) then 0 else -1
    {
      assert b.lobbies[l] == l.View();
      rc := l.EndBurst(accepts);
      LobbyChanged(l);
    }

    /** A client leaves its lobby without entering another. */
    method RemovePlayer(c: Client, now: int, accepts: Packet -> bool)
      requires Valid() && c in people
      modifies this`lobbies, this`numGames, this`all, all, c
      ensures Valid() && c in old(View()).clients
      ensures View() == Teams.RemovePlayer(old(View()), c, now, accepts)
    {
      ghost var b := View();
      assert b.clients[c] == c.View();
      Teams.RemovePlayerKeepsInv(b, c, now, accepts);
      if c.curLobby != null {
        var l: Lobby := c.curLobby;
        ReadyToMove(c, l, l);
        TakeOut(b, c, l, now, accepts);
      }
    }

    /** End the burst it leaves behind, and let it go. */
    method TakeOut(ghost b: BlockState, c: Client, l: Lobby, now: int, accepts: Packet -> bool)
      requires b == View() && c in people && l in all && l in lobbies && c.curLobby == l
      requires Shape(l.View()) && Subscribed(l.View()) && c.clientId < LOBBY_MAX_CLIENTS && l.clients[c.clientId] == c
      requires l.terms.kind != DefaultLobby ==> c.clientId < LOBBY_MAX_IN_TEAM
      requires forall i :: 0 <= i < |l.clients| && l.clients[i] != null ==> l.clients[i] in people
      modifies this`lobbies, this`numGames, this`all, all, c
      ensures c in b.clients && l in b.lobbies
      ensures var b1 := if b.clients[c].bursting then Put(b, l, LobbyRules.EndBurst(b.lobbies[l], accepts)) else b;
              && Subscribed(b1.lobbies[l]) && b1.lobbies[l].terms == b.lobbies[l].terms
              && View() == DestroyIfEmpty(Part(b1, c, old(c.clientId), l, now), l)
    {
      assert b.clients[c] == c.View() && b.lobbies[l] == l.View();
      if c.bursting {
        var _ := EndBurst(b, l, accepts);
      }
      Withdraw(View(), c, c.clientId, l, now);
    }

    /** Up from slot `slot` of `l`, which ends if it was a team and is empty now. */
    method Withdraw(ghost b: BlockState, c: Client, slot: nat, l: Lobby, now: int)
      requires b == View() && c in people && l in all && l in lobbies && c.curLobby == l && c.clientId == slot
      requires Shape(l.View()) && Subscribed(l.View()) && slot < LOBBY_MAX_CLIENTS && l.clients[slot] == c
      requires l.terms.kind != DefaultLobby ==> slot < LOBBY_MAX_IN_TEAM
      requires forall i :: 0 <= i < |l.clients| && l.clients[i] != null ==> l.clients[i] in people
      modifies this`lobbies, this`numGames, this`all, all, c
      ensures c in b.clients && l in b.lobbies && Subscribed(b.lobbies[l]) && b.lobbies[l].terms == l.terms
      ensures View() == DestroyIfEmpty(Part(b, c, slot, l, now), l)
    {
      assert b.lobbies[l] == l.View();
      SeatsAgree(l);
      ghost var left := Leave(l.View(), slot, SeatsIn(l.clients), now);
      LeaveFrame(l.View(), slot, SeatsIn(l.clients), now);
      var delete := Depart(c, slot, l, now, left);
      if delete == 1 {
        DestroyLocked(l);
      }
    }

    /** A client disconnects; a team it made but never listed goes with it. */
    method Disconnect(c: Client, now: int, accepts: Packet -> bool)
      requires Valid() && c in people
      modifies this`lobbies, this`numGames, this`all, this`people, all, c
      ensures Valid() && c in old(View()).clients && c !in people
      ensures View() == Teams.Disconnect(old(View()), c, now, accepts)
    {
      ghost var b := View();
      Teams.DisconnectKeepsInv(b, c, now, accepts);
      RemovePlayer(c, now, accepts);
      ghost var m := Teams.RemovePlayer(b, c, now, accepts);
      Forget(m, c);
    }

    method Forget(ghost b: BlockState, c: Client)
      requires b == View() && c in people
      modifies this`all, this`people
      ensures View() == Teams.Forget(b, c) && c !in people
    {
      assert b.clients[c] == c.View();
      if c.createLobby != null {
        all := all - {c.createLobby};
      }
      people := people - {c};
      ClientGone(c);
      LobbyGone(c.createLobby);
    }

    // -------------------------------------------------------------- bursts

    method SetBurst(ghost b: BlockState, c: Client, bursting: bool, waitQping: bool)
      requires b == View() && c in people
      modifies c`bursting, c`waitQping
      ensures c in b.clients
      ensures View() == PutClient(b, c, b.clients[c].(bursting := bursting, waitQping := waitQping))
    {
      assert b.clients[c] == c.View();
      c.bursting, c.waitQping := bursting, waitQping;
      ClientChanged(c);
      assert Lobbies() == old(Lobbies());
    }

    /** The client says it has loaded. The result is -1 when that makes no sense or a waiting packet was refused. */
    method DoneBurst(c: Client, accepts: Packet -> bool) returns (rc: int)
      requires Valid() && c in people
      modifies all, c
      ensures Valid() && c in old(View()).clients
      ensures View() == Commands.DoneBurst(old(View()), c, accepts)
      ensures rc == Commands.DoneBurstResult(old(View()), c, accepts)
    {
      ghost var b := View();
      assert b.clients[c] == c.View();
      Commands.DoneBurstKeepsInv(b, c, accepts);
      if c.curLobby == null {
        return -1;
      }
      var l: Lobby := c.curLobby;
      Here(c);
      if l.terms.kind == DefaultLobby {
        return -1;
      }
      if !l.flags.questing {
        rc := EndBurst(b, l, accepts);
        SetBurst(View(), c, false, c.waitQping);
      } else {
        SetBurst(b, c, c.bursting, true);
        rc := 0;
      }
    }

    /** The client answers the ping sent after a quest: it has loaded that too. `sent` tells which packets can be
        sent to it again. */
    method QuestPing(c: Client, sent: Packet -> bool, accepts: Packet -> bool) returns (rc: int)
      requires Valid() && c in people
      modifies all, c
      ensures Valid() && c in old(View()).clients
      ensures View() == Commands.QuestPing(old(View()), c, accepts)
      ensures rc == Commands.QuestPingResult(old(View()), c, accepts)
    {
      ghost var b := View();
      assert b.clients[c] == c.View();
      Commands.QuestPingKeepsInv(b, c, accepts);
      rc := 0;
      if c.waitQping {
        if c.curLobby == null {
          return -1;
        }
        var l: Lobby := c.curLobby;
        Here(c);
        rc := EndQuestBurst(b, l, sent, accepts);
        SetBurst(View(), c, false, false);
      }
    }

    method EndQuestBurst(ghost b: BlockState, l: Lobby, sent: Packet -> bool, accepts: Packet -> bool) returns (rc: int)
      requires b == View() && l in all
      modifies l
      ensures l in b.lobbies && View() == Put(b, l, Commands.EndQuestBurst(b.lobbies[l], accepts))
      ensures rc == if AllAccepted(b.lobbies[l].queues.waiting, accepts) then 0 else -1
    {
      assert b.lobbies[l] == l.View();
      var _, r := l.EndQuestBurst(sent, accepts);
      rc := r;
      LobbyChanged(l);
    }

    /** The NTE end-of-load message: the burst is over, but nothing that waited is handled. */
    method NteDone(c: Client)
      requires Valid() && c in people
      modifies all, c
      ensures Valid() && c in old(View()).clients
      ensures View() == Commands.NteDone(old(View()), c)
    {
      ghost var b := View();
      assert b.clients[c] == c.View();
      Commands.NteDoneKeepsInv(b, c);
      if c.nte && c.version == DCv1 && c.curLobby != null {
        var l: Lobby := c.curLobby;
        Here(c);
        if l.terms.kind != DefaultLobby {
          CutBurst(b, l);
          SetBurst(View(), c, false, c.waitQping);
        }
      }
    }

    method CutBurst(ghost b: BlockState, l: Lobby)
      requires b == View() && l in all
      modifies l
      ensures l in b.lobbies && View() == Put(b, l, NteLoaded(b.lobbies[l]))
    {
      assert b.lobbies[l] == l.View();
      l.CutBurst();
      LobbyChanged(l);
    }

    /** A client sends a packet that has to wait. */
    method Enqueue(c: Client, p: Packet, toBurstQueue: bool) returns (rc: int)
      requires Valid() && c in people && p.src == c
      modifies all
      ensures Valid() && c in old(View()).clients
      ensures View() == Commands.Send(old(View()), c, p.command, p.body, toBurstQueue)
      ensures rc == Commands.SendResult(old(View()), c, p.command, p.body)
    {
      ghost var b := View();
      assert b.clients[c] == c.View();
      Commands.SendKeepsInv(b, c, p.command, p.body, toBurstQueue);
      rc := -1;
      if c.curLobby != null {
        var l: Lobby := c.curLobby;
        Here(c);
        rc := EnqueueIn(b, l, p, toBurstQueue);
      }
    }

    method EnqueueIn(ghost b: BlockState, l: Lobby, p: Packet, toBurstQueue: bool) returns (rc: int)
      requires b == View() && l in all
      modifies l
      ensures l in b.lobbies && View() == Put(b, l, LobbyRules.Enqueue(b.lobbies[l], p, toBurstQueue))
      ensures rc == EnqueueResult(b.lobbies[l], p)
    {
      assert b.lobbies[l] == l.View();
      rc := l.EnqueuePktEx(p, toBurstQueue);
      LobbyChanged(l);
    }
  }
}
