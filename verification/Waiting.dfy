/**
  Packets that wait for a burst to end, over whole runs: exactly when they wait during bursts only, when all of them
  are handled, and when their senders are still there.
 */
module Waiting {
  import opened LobbyRules
  import opened BlockRules
  import opened Departures
  import opened Runs
  import opened Teams
  import opened Traffic

  // ---------------------------------------------------------------- waiting only during bursts

  /** Packets wait in lobbies whose burst flag is set, and in no other. */
  ghost predicate WaitingIsBursting(b: BlockState) {
    forall x: object :: x in b.lobbies && b.lobbies[x].queues.waiting != [] ==> b.lobbies[x].flags.bursting
  }

  /** No burst was cut short while packets waited. */
  ghost predicate Calm(b: BlockState) {
    forall x: object :: x in b.lobbies ==> !b.lobbies[x].history.nteCleared
  }

  /** The trial edition's end of loading comes while packets wait in the sender's team. */
  ghost predicate Strands(b: BlockState, r: Request) {
    r.Signals? && r.signal.NteLoadDone? && CutsShort(b, r.c)
      && b.lobbies[b.clients[r.c].lobby as object].queues.waiting != []
  }

  lemma CarriedCalm(r: BlockState, b: BlockState)
    requires Carried(r, b) && Calm(b)
    ensures Calm(r)
  {
    forall x: object | x in r.lobbies ensures !r.lobbies[x].history.nteCleared {
      assert QuietAt(r, b, x);
    }
  }

  lemma RelayedCalm(b: BlockState, r: Request)
    requires Core(b) && Calm(b) && !Strands(b, r)
    ensures Calm(Relayed(b, r))
  {
    match r
    case Signals(c, NteLoadDone) =>
    case Signals(c, SendPacket(command, body, forResend)) =>
    case _ => DrainedCalm(b, Drained(b, r), Verdict(r));
  }

  lemma DrainedCalm(b: BlockState, l: object?, accepts: Packet -> bool)
    requires Calm(b) && (l != null ==> l in b.lobbies)
    ensures Calm(Drain1(b, l, accepts))
  {
  }

  lemma StepKeepsCalm(b: BlockState, r: Request)
    requires Inv(b) && Calm(b) && !Strands(b, r)
    ensures Calm(Step(b, r))
  {
    StepRelays(b, r);
    RelayedCalm(b, r);
    CarriedCalm(Step(b, r), Relayed(b, r));
  }

  lemma CalmIsBursting(b: BlockState)
    requires AllSound(b) && Calm(b)
    ensures WaitingIsBursting(b)
  {
    forall x: object | x in b.lobbies && b.lobbies[x].queues.waiting != [] ensures b.lobbies[x].flags.bursting {
      assert Sound(b.lobbies[x]);
    }
  }

  lemma StrandingShows(b: BlockState, r: Request)
    requires Inv(b) && Strands(b, r)
    ensures !WaitingIsBursting(Step(b, r))
  {
    var m, after := b.clients[r.c].lobby as object, Step(b, r);
    assert after.lobbies[m] == NteLoaded(b.lobbies[m]);
  }

  lemma {:induction false} CalmUpTo(states: seq<BlockState>, requests: seq<Request>, i: nat)
    requires IsRun(states, requests) && Inv(states[0]) && Calm(states[0]) && i < |states|
    requires forall k :: 0 <= k < i ==> !Strands(states[k], requests[k])
    ensures Inv(states[i]) && Calm(states[i])
  {
    if i > 0 {
      var k := i - 1;
      CalmUpTo(states, requests, k);
      assert Next(states[k], requests[k], states[k + 1]);
      StepKeepsInv(states[k], requests[k]);
      StepKeepsCalm(states[k], requests[k]);
    }
  }

  lemma {:induction false} OpenedIsQuiet(refs: seq<object>)
    ensures forall x: object :: x in Opened(refs).lobbies ==> NoTraffic(Opened(refs).lobbies[x])
    ensures Opened(refs).clients == map[]
  {
    if refs != [] {
      OpenedIsQuiet(refs[..|refs| - 1]);
    }
  }

  /** In every run packets wait in bursting lobbies only, all along, exactly when no trial edition client says it has
      loaded while packets wait in its team. */
  lemma PacketsWaitForBursts(refs: seq<object>, states: seq<BlockState>, requests: seq<Request>)
    requires Distinct(refs) && IsRun(states, requests) && states[0] == Opened(refs)
    ensures (forall i :: 0 <= i < |states| ==> WaitingIsBursting(states[i])) <==>
              forall i :: 0 <= i < |requests| ==> !Strands(states[i], requests[i])
  {
    OpenedInv(refs);
    OpenedIsQuiet(refs);
    if forall i :: 0 <= i < |states| ==> WaitingIsBursting(states[i]) {
      forall i | 0 <= i < |requests| ensures !Strands(states[i], requests[i]) {
        RunKeepsInv(states, requests, i);
        NotStranded(states[i], requests[i], states[i + 1]);
      }
    }
    if forall i :: 0 <= i < |requests| ==> !Strands(states[i], requests[i]) {
      forall i | 0 <= i < |states| ensures WaitingIsBursting(states[i]) {
        CalmUpTo(states, requests, i);
        CalmIsBursting(states[i]);
      }
    }
  }

  lemma NotStranded(b: BlockState, r: Request, after: BlockState)
    requires Inv(b) && Next(b, r, after) && WaitingIsBursting(after)
    ensures !Strands(b, r)
  {
    if Strands(b, r) {
      StrandingShows(b, r);
    }
  }

  // ---------------------------------------------------------------- handling what waited

  /** Every packet that left a queue was handled, in order. */
  ghost predicate AllHandled(b: BlockState) {
    forall x: object :: x in b.lobbies ==> b.lobbies[x].history.handled == b.lobbies[x].history.disposed
  }

  /** A packet is refused that has others behind it. */
  ghost predicate Refuses(queue: seq<Packet>, accepts: Packet -> bool) {
    exists k :: 0 <= k < |queue| - 1 && !accepts(queue[k])
  }

  /** Some handler refuses a packet with others behind it, and that is not because the last member of a team quits. */
  ghost predicate Loses(b: BlockState, r: Request) {
    var l := Drained(b, r);
    && l != null && Refuses(b.lobbies[l as object].queues.waiting, Verdict(r)) && !(Quits(b, r) && LastMember(b, l))
  }

  /** A queue is handled to its end exactly if no packet before the last is refused. */
  lemma RefusesExactly(queue: seq<Packet>, accepts: Packet -> bool)
    ensures Delivered(queue, accepts) == queue <==> !Refuses(queue, accepts)
  {
    var d := Delivered(queue, accepts);
    DeliveredIsFifo(queue, accepts);
    if d != queue {
      assert !accepts(d[|d| - 1]) && d[|d| - 1] == queue[|d| - 1];
    }
  }

  /** The lobby whose packets are handled goes on, unless its last member quits. */
  lemma DrainedGoesOn(b: BlockState, r: Request)
    requires Inv(b) && Drained(b, r) != null
    ensures Drained(b, r) in Step(b, r).lobbies <==> !(Quits(b, r) && LastMember(b, Drained(b, r)))
  {
    if Quits(b, r) {
      QuitsExactly(b, r);
    } else {
      match r
      case Signals(c, BurstDone(accepts)) =>
        assert Drained(b, r) in Commands.DoneBurst(b, c, accepts).lobbies;
      case Signals(c, Ping(accepts)) =>
        assert Drained(b, r) in Commands.QuestPing(b, c, accepts).lobbies;
      case _ =>
    }
  }

  lemma CarriedHandled(r: BlockState, b: BlockState)
    requires Carried(r, b) && forall x: object :: x in r.lobbies && x in b.lobbies ==>
               b.lobbies[x].history.handled == b.lobbies[x].history.disposed
    ensures AllHandled(r)
  {
    forall x: object | x in r.lobbies ensures r.lobbies[x].history.handled == r.lobbies[x].history.disposed {
      assert QuietAt(r, b, x);
    }
  }

  lemma DrainHandles(l: LobbyState, accepts: Packet -> bool)
    requires l.history.handled == l.history.disposed
    ensures var d := Drain(l, accepts);
            d.history.handled == d.history.disposed <==> Delivered(l.queues.waiting, accepts) == l.queues.waiting
  {
    var h, w := l.history.handled, l.queues.waiting;
    var v := Delivered(w, accepts);
    if h + v == h + w {
      assert (h + v)[|h|..] == v && (h + w)[|h|..] == w;
    }
  }

  /** A drain loses nothing exactly when the lobby does not go on or every packet is handled. */
  lemma DrainShows(after: BlockState, b: BlockState, l: object, accepts: Packet -> bool)
    requires AllHandled(b) && l in b.lobbies && Carried(after, Drain1(b, l, accepts))
    ensures var w := b.lobbies[l].queues.waiting;
            AllHandled(after) <==> (l in after.lobbies ==> Delivered(w, accepts) == w)
  {
    var m := Drain1(b, l, accepts);
    DrainHandles(b.lobbies[l], accepts);
    if l in after.lobbies {
      assert QuietAt(after, m, l);
    }
    if l in after.lobbies ==> Delivered(b.lobbies[l].queues.waiting, accepts) == b.lobbies[l].queues.waiting {
      CarriedHandled(after, m);
    }
  }

  lemma RelayedHandles(b: BlockState, r: Request)
    requires Core(b) && AllHandled(b) && Drained(b, r) == null
    ensures AllHandled(Relayed(b, r))
  {
    match r
    case Signals(c, NteLoadDone) =>
    case Signals(c, SendPacket(command, body, forResend)) =>
    case _ =>
      assert Relayed(b, r) == Drain1(b, null, Verdict(r)) == b;
  }

  lemma StepHandles(b: BlockState, r: Request)
    requires Inv(b) && AllHandled(b)
    ensures AllHandled(Step(b, r)) <==> !Loses(b, r)
  {
    var l := Drained(b, r);
    StepRelays(b, r);
    if l == null {
      RelayedHandles(b, r);
      CarriedHandled(Step(b, r), Relayed(b, r));
    } else {
      assert Relayed(b, r) == Drain1(b, l, Verdict(r));
      DrainShows(Step(b, r), b, l, Verdict(r));
      RefusesExactly(b.lobbies[l as object].queues.waiting, Verdict(r));
      DrainedGoesOn(b, r);
    }
  }

  lemma {:induction false} HandledUpTo(states: seq<BlockState>, requests: seq<Request>, i: nat)
    requires IsRun(states, requests) && Inv(states[0]) && AllHandled(states[0]) && i < |states|
    requires forall k :: 0 <= k < i ==> !Loses(states[k], requests[k])
    ensures Inv(states[i]) && AllHandled(states[i])
  {
    if i > 0 {
      var k := i - 1;
      HandledUpTo(states, requests, k);
      assert Next(states[k], requests[k], states[k + 1]);
      StepKeepsInv(states[k], requests[k]);
      StepHandles(states[k], requests[k]);
    }
  }

  lemma NotLost(b: BlockState, r: Request, after: BlockState)
    requires Inv(b) && Next(b, r, after) && AllHandled(b) && AllHandled(after)
    ensures !Loses(b, r)
  {
    StepHandles(b, r);
  }

  /** In every run everything that waited has been handled, in order and once, as soon as it is off the queue, exactly
      when no handler refuses a packet that has others behind it. */
  lemma WhatWaitedIsHandled(refs: seq<object>, states: seq<BlockState>, requests: seq<Request>)
    requires Distinct(refs) && IsRun(states, requests) && states[0] == Opened(refs)
    ensures (forall i :: 0 <= i < |states| ==> AllHandled(states[i])) <==>
              forall i :: 0 <= i < |requests| ==> !Loses(states[i], requests[i])
  {
    OpenedInv(refs);
    OpenedIsQuiet(refs);
    if forall i :: 0 <= i < |states| ==> AllHandled(states[i]) {
      forall i | 0 <= i < |requests| ensures !Loses(states[i], requests[i]) {
        RunKeepsInv(states, requests, i);
        NotLost(states[i], requests[i], states[i + 1]);
      }
    }
    if forall i :: 0 <= i < |requests| ==> !Loses(states[i], requests[i]) {
      forall i | 0 <= i < |states| ensures AllHandled(states[i]) {
        HandledUpTo(states, requests, i);
      }
    }
  }

  /** `s` is `t` with some packets left out. */
  ghost predicate Subsequence(s: seq<Packet>, t: seq<Packet>) {
    s == [] || (t != [] && ((s[0] == t[0] && Subsequence(s[1..], t[1..])) || Subsequence(s, t[1..])))
  }

  lemma {:induction false} SubsequenceLater(s: seq<Packet>, t: seq<Packet>, w: seq<Packet>)
    requires Subsequence(s, w)
    ensures Subsequence(s, t + w)
  {
    if t == [] {
      assert t + w == w;
    } else {
      SubsequenceLater(s, t[1..], w);
      assert (t + w)[1..] == t[1..] + w;
    }
  }

  lemma {:induction false} PrefixIsSubsequence(d: seq<Packet>, w: seq<Packet>)
    requires d <= w
    ensures Subsequence(d, w)
  {
    if d != [] {
      PrefixIsSubsequence(d[1..], w[1..]);
    }
  }

  lemma {:induction false} SubsequencesConcat(s: seq<Packet>, t: seq<Packet>, d: seq<Packet>, w: seq<Packet>)
    requires Subsequence(s, t) && Subsequence(d, w)
    ensures Subsequence(s + d, t + w)
  {
    if s == [] {
      assert s + d == d;
      SubsequenceLater(d, t, w);
    } else {
      assert (t + w)[1..] == t[1..] + w;
      if s[0] == t[0] && Subsequence(s[1..], t[1..]) {
        SubsequencesConcat(s[1..], t[1..], d, w);
        assert (s + d)[1..] == s[1..] + d;
      } else {
        SubsequencesConcat(s, t[1..], d, w);
      }
    }
  }

  ghost predicate InOrder(b: BlockState) {
    forall x: object :: x in b.lobbies ==> Subsequence(b.lobbies[x].history.handled, b.lobbies[x].history.disposed)
  }

  lemma DrainInOrder(l: LobbyState, accepts: Packet -> bool)
    requires Subsequence(l.history.handled, l.history.disposed)
    ensures Subsequence(Drain(l, accepts).history.handled, Drain(l, accepts).history.disposed)
  {
    var w := l.queues.waiting;
    DeliveredIsFifo(w, accepts);
    PrefixIsSubsequence(Delivered(w, accepts), w);
    SubsequencesConcat(l.history.handled, l.history.disposed, Delivered(w, accepts), w);
  }

  lemma CarriedInOrder(r: BlockState, b: BlockState)
    requires Carried(r, b) && InOrder(b)
    ensures InOrder(r)
  {
    forall x: object | x in r.lobbies ensures Subsequence(r.lobbies[x].history.handled, r.lobbies[x].history.disposed) {
      assert QuietAt(r, b, x);
    }
  }

  lemma RelayedInOrder(b: BlockState, r: Request)
    requires Core(b) && InOrder(b)
    ensures InOrder(Relayed(b, r))
  {
    var m := Relayed(b, r);
    forall x: object | x in m.lobbies ensures Subsequence(m.lobbies[x].history.handled, m.lobbies[x].history.disposed) {
      RelayedAt(b, r, x);
      LobbyInOrder(b.lobbies[x], m.lobbies[x], b, r);
    }
  }

  lemma LobbyInOrder(s: LobbyState, t: LobbyState, b: BlockState, r: Request)
    requires RelayedTo(s, t, b, r) && Subsequence(s.history.handled, s.history.disposed)
    ensures Subsequence(t.history.handled, t.history.disposed)
  {
    if t == Drain(s, Verdict(r)) {
      DrainInOrder(s, Verdict(r));
    }
  }

  lemma {:induction false} InOrderUpTo(states: seq<BlockState>, requests: seq<Request>, i: nat)
    requires IsRun(states, requests) && Inv(states[0]) && InOrder(states[0]) && i < |states|
    ensures Inv(states[i]) && InOrder(states[i])
  {
    if i > 0 {
      var k := i - 1;
      InOrderUpTo(states, requests, k);
      assert Next(states[k], requests[k], states[k + 1]);
      StepKeepsInv(states[k], requests[k]);
      StepRelays(states[k], requests[k]);
      RelayedInOrder(states[k], requests[k]);
      CarriedInOrder(states[i], Relayed(states[k], requests[k]));
    }
  }

  /** In every run the packets handled in a lobby are some of those accepted there that no longer wait, each once and
      in the order in which they came. */
  lemma HandledInOrder(refs: seq<object>, states: seq<BlockState>, requests: seq<Request>)
    requires Distinct(refs) && IsRun(states, requests) && states[0] == Opened(refs)
    ensures forall i, x: object :: 0 <= i < |states| && x in states[i].lobbies ==>
              var l := states[i].lobbies[x];
              && l.history.accepted == l.history.disposed + l.queues.waiting
              && Subsequence(l.history.handled, l.history.disposed)
  {
    OpenedInv(refs);
    OpenedIsQuiet(refs);
    forall i, x: object | 0 <= i < |states| && x in states[i].lobbies
      ensures states[i].lobbies[x].history.accepted ==
                states[i].lobbies[x].history.disposed + states[i].lobbies[x].queues.waiting
      ensures Subsequence(states[i].lobbies[x].history.handled, states[i].lobbies[x].history.disposed)
    {
      InOrderUpTo(states, requests, i);
      assert Sound(states[i].lobbies[x]);
    }
  }

  // ---------------------------------------------------------------- who sent them

  ghost predicate SendersAmong(queue: seq<Packet>, clients: map<object, ClientState>) {
    forall k :: 0 <= k < |queue| ==> queue[k].src in clients
  }

  /** Whoever sent a packet that still waits is still on the block. */
  ghost predicate SendersHere(b: BlockState) {
    forall x: object :: x in b.lobbies ==> SendersAmong(b.lobbies[x].queues.waiting, b.clients)
  }

  /** Packets waiting in `x` wait on when `c` disconnects: it is no team that `c` holds back, and not a lobby that `c`
      is the last to leave or that `c` was bursting in. */
  ghost predicate WaitsOn(b: BlockState, c: object, x: object)
    requires c in b.clients
  {
    var me := b.clients[c];
    x in b.lobbies && x != me.created && (x == me.lobby ==> !me.bursting && !LastMember(b, x))
  }

  /** A client disconnects while a packet of its waits somewhere and will go on waiting. */
  ghost predicate Orphans(b: BlockState, r: Request) {
    && Goes(r) && r.c in b.clients
    && exists x: object :: x in b.lobbies && Sent(b.lobbies[x].queues.waiting, r.c) && WaitsOn(b, r.c, x)
  }

  ghost predicate Sent(queue: seq<Packet>, c: object) {
    exists k :: 0 <= k < |queue| && queue[k].src == c
  }

  lemma CarriedSenders(r: BlockState, b: BlockState, x: object)
    requires Carried(r, b) && x in r.lobbies && SendersHere(b)
    ensures SendersAmong(r.lobbies[x].queues.waiting, b.clients)
  {
    assert QuietAt(r, b, x);
  }

  lemma RelayedSenders(b: BlockState, r: Request)
    requires Core(b) && SendersHere(b)
    ensures SendersHere(Relayed(b, r))
  {
    var m := Relayed(b, r);
    forall x: object | x in m.lobbies ensures SendersAmong(m.lobbies[x].queues.waiting, m.clients) {
      RelayedAt(b, r, x);
      RelayedClients(b, r);
      LobbySenders(b.lobbies[x], m.lobbies[x], b, r);
    }
  }

  lemma LobbySenders(s: LobbyState, t: LobbyState, b: BlockState, r: Request)
    requires RelayedTo(s, t, b, r) && SendersAmong(s.queues.waiting, b.clients)
    ensures SendersAmong(t.queues.waiting, b.clients)
  {
  }

  lemma StepKeepsSenders(b: BlockState, r: Request)
    requires Inv(b) && SendersHere(b)
    ensures SendersHere(Step(b, r)) <==> !Orphans(b, r)
  {
    var m, after := Relayed(b, r), Step(b, r);
    StepRelays(b, r);
    RelayedSenders(b, r);
    forall x: object | x in after.lobbies ensures SendersAmong(after.lobbies[x].queues.waiting, b.clients) {
      CarriedSenders(after, m, x);
      RelayedClients(b, r);
    }
    SendersAfter(b, r, after);
  }

  /** What waits in a lobby when a client has left it. */
  lemma QueueLeft(b: BlockState, c: object, now: int, accepts: Packet -> bool, x: object)
    requires Inv(b) && c in b.clients
    ensures var r := RemovePlayer(b, c, now, accepts);
            var ended := x == b.clients[c].lobby && b.clients[c].bursting;
            x in r.lobbies ==>
              x in b.lobbies && r.lobbies[x].queues.waiting == if ended then [] else b.lobbies[x].queues.waiting
  {
    var r, m := RemovePlayer(b, c, now, accepts), Drain1(b, DrainedByLeaving(b, c), accepts);
    RemovePlayerRelays(b, c, now, accepts);
    if x in r.lobbies {
      assert x in r.lobbies.Keys && x in m.lobbies.Keys;
      assert QuietAt(r, m, x);
    }
  }

  /** Which lobbies are left when a client has disconnected. */
  lemma LobbiesLeft(b: BlockState, c: object, now: int, accepts: Packet -> bool, x: object)
    requires Inv(b) && c in b.clients && x in b.lobbies
    ensures x in Disconnect(b, c, now, accepts).lobbies <==>
              x != b.clients[c].created && !(x == b.clients[c].lobby && LastMember(b, x))
  {
    var r := RemovePlayer(b, c, now, accepts);
    RemovePlayerPlaces(b, c, now, accepts);
    if b.clients[c].lobby != null {
      RemovePlayerLeaves(b, c, now, accepts);
    }
    assert x in Forget(r, c).lobbies <==> x in r.lobbies && x != b.clients[c].created;
  }

  lemma WaitsOnExactly(b: BlockState, c: object, now: int, accepts: Packet -> bool, x: object)
    requires Inv(b) && c in b.clients && x in b.lobbies
    ensures var after := Disconnect(b, c, now, accepts);
            x in after.lobbies && Sent(after.lobbies[x].queues.waiting, c) <==>
              Sent(b.lobbies[x].queues.waiting, c) && WaitsOn(b, c, x)
  {
    LobbiesLeft(b, c, now, accepts, x);
    QueueLeft(b, c, now, accepts, x);
  }

  /** A packet of the client waits after it has disconnected exactly if one will go on waiting. */
  lemma OrphansExactly(b: BlockState, r: Request)
    requires Inv(b) && Goes(r) && r.c in b.clients
    ensures var after := Step(b, r).lobbies;
            Orphans(b, r) <==> exists x: object :: x in after && Sent(after[x].queues.waiting, r.c)
  {
    var now, accepts := r.travel.now, r.travel.accepts;
    forall x: object | x in b.lobbies
      ensures x in Step(b, r).lobbies && Sent(Step(b, r).lobbies[x].queues.waiting, r.c) <==>
                Sent(b.lobbies[x].queues.waiting, r.c) && WaitsOn(b, r.c, x)
    {
      WaitsOnExactly(b, r.c, now, accepts, x);
    }
    forall x: object | x in Step(b, r).lobbies ensures x in b.lobbies {
      QueueLeft(b, r.c, now, accepts, x);
    }
  }

  lemma SendersAfter(b: BlockState, r: Request, after: BlockState)
    requires Inv(b) && after == Step(b, r)
    requires forall x: object :: x in after.lobbies ==> SendersAmong(after.lobbies[x].queues.waiting, b.clients)
    requires after.clients.Keys == PeopleAfter(b, r)
    ensures SendersHere(after) <==> !Orphans(b, r)
  {
    if Goes(r) && r.c in b.clients {
      OrphansExactly(b, r);
    }
    if Orphans(b, r) {
      var x: object :| x in after.lobbies && Sent(after.lobbies[x].queues.waiting, r.c);
      assert r.c !in after.clients;
      assert !SendersAmong(after.lobbies[x].queues.waiting, after.clients);
    } else {
      forall x: object | x in after.lobbies ensures SendersAmong(after.lobbies[x].queues.waiting, after.clients) {
        assert SendersAmong(after.lobbies[x].queues.waiting, b.clients);
        assert Goes(r) && r.c in b.clients ==> !Sent(after.lobbies[x].queues.waiting, r.c);
      }
    }
  }

  lemma {:induction false} SendersUpTo(states: seq<BlockState>, requests: seq<Request>, i: nat)
    requires IsRun(states, requests) && Inv(states[0]) && SendersHere(states[0]) && i < |states|
    requires forall k :: 0 <= k < i ==> !Orphans(states[k], requests[k])
    ensures Inv(states[i]) && SendersHere(states[i])
  {
    if i > 0 {
      var k := i - 1;
      SendersUpTo(states, requests, k);
      assert Next(states[k], requests[k], states[k + 1]);
      StepKeepsInv(states[k], requests[k]);
      StepKeepsSenders(states[k], requests[k]);
    }
  }

  lemma NotOrphaned(b: BlockState, r: Request, after: BlockState)
    requires Inv(b) && Next(b, r, after) && SendersHere(b) && SendersHere(after)
    ensures !Orphans(b, r)
  {
    StepKeepsSenders(b, r);
  }

  /** In every run the senders of waiting packets are still on the block, all along, exactly when nobody disconnects
      and leaves a packet waiting. */
  lemma SendersStay(refs: seq<object>, states: seq<BlockState>, requests: seq<Request>)
    requires Distinct(refs) && IsRun(states, requests) && states[0] == Opened(refs)
    ensures (forall i :: 0 <= i < |states| ==> SendersHere(states[i])) <==>
              forall i :: 0 <= i < |requests| ==> !Orphans(states[i], requests[i])
  {
    OpenedInv(refs);
    OpenedIsQuiet(refs);
    if forall i :: 0 <= i < |states| ==> SendersHere(states[i]) {
      forall i | 0 <= i < |requests| ensures !Orphans(states[i], requests[i]) {
        RunKeepsInv(states, requests, i);
        NotOrphaned(states[i], requests[i], states[i + 1]);
      }
    }
    if forall i :: 0 <= i < |requests| ==> !Orphans(states[i], requests[i]) {
      forall i | 0 <= i < |states| ensures SendersHere(states[i]) {
        SendersUpTo(states, requests, i);
      }
    }
  }
}
