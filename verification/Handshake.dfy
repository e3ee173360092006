/**
  The three-way handshake before a connection counts as open, with its
  resending and timeouts. The key exchange of encrypted connections is left
  at its first message.
 */
module Handshake {
  import opened Types

  const CONNECT_RETRY_COUNT: nat := 4
  const CONNECT_RETRY_DELAY: nat := 2000 * MILLISECOND

  datatype Opcode = NOT_STARTED | INITIAL_CLIENT | INITIAL_SERVER | AUTH_MSG | UNENCRYPTED_ACK | ERROR_OCCURRED

  datatype Result =
    | IN_PROGRESS | OK | CONNECT_FAILED
    | INCOMPATIBLE_PROTOCOL | INCOMPATIBLE_VERSION | INCOMPATIBLE_SECURITY
    | ALREADY_CONNECTED | REJECTED

  /** A handshake part; `magic` tells whether it comes from a peer of this kind at all. */
  datatype Msg = Msg(magic: bool, version: byte, opcode: Opcode, crypto: bool, problem: Result)

  datatype Side = Side(
    version: byte,
    crypto: bool,               // this side wants encryption
    expected: Opcode,
    result: Result,
    lastReply: Option<Msg>,
    resendNext: nat,
    attempts: nat,
    sent: seq<Msg>,             // everything sent so far
    ticks: nat)                 // how often the timer ran out so far
  {
    predicate Done() { result != IN_PROGRESS }
  }

  function Fresh(version: byte, crypto: bool): Side {
    Side(version, crypto, NOT_STARTED, IN_PROGRESS, None, 0, 0, [], 0)
  }

  function Part(h: Side, opcode: Opcode, problem: Result): Msg {
    Msg(true, h.version, opcode, h.crypto, problem)
  }

  function Replied(h: Side, m: Msg, retry: bool, now: nat): Side {
    h.(lastReply := Some(m), attempts := if retry then h.attempts else 1,
       resendNext := now + CONNECT_RETRY_DELAY, sent := h.sent + [m])
  }

  function Completed(h: Side, result: Result): Side {
    h.(result := result, lastReply := None)
  }

  function Refused(h: Side, problem: Result, now: nat): Side {
    Completed(Replied(h, Part(h, ERROR_OCCURRED, problem), false, now), problem)
  }

  function Begun(h: Side, now: nat): Side {
    Replied(h.(expected := INITIAL_SERVER), Part(h, INITIAL_CLIENT, IN_PROGRESS), false, now)
  }

  /** Takes in a handshake part; `rival` means the sender's identity is connected already. */
  function Handled(h: Side, m: Msg, rival: bool, now: nat): (h': Side)
    ensures h'.version == h.version && h'.crypto == h.crypto
  {
    if h.Done() then h
    else if !m.magic then Completed(h, INCOMPATIBLE_PROTOCOL)
    else if m.version != h.version then Refused(h, INCOMPATIBLE_VERSION, now)
    else if rival then Refused(h, ALREADY_CONNECTED, now)
    else if m.opcode == ERROR_OCCURRED then Completed(h, m.problem)
    else if h.expected == NOT_STARTED && m.opcode == INITIAL_CLIENT then
      if m.crypto != h.crypto then Refused(h, INCOMPATIBLE_SECURITY, now)
      else
        Replied(h.(expected := if h.crypto then AUTH_MSG else UNENCRYPTED_ACK),
                Part(h, INITIAL_SERVER, IN_PROGRESS), false, now)
    else if h.expected == UNENCRYPTED_ACK && m.opcode == UNENCRYPTED_ACK then Completed(h, OK)
    else if h.expected == INITIAL_SERVER && m.opcode == INITIAL_SERVER then
      if h.crypto then Replied(h.(expected := AUTH_MSG), Part(h, AUTH_MSG, IN_PROGRESS), false, now)
      else Replied(Completed(h, OK), Part(h, UNENCRYPTED_ACK, IN_PROGRESS), false, now)
    else h
  }

  /** The timer: sends the last part again, or gives up after the last attempt. */
  function Ticked(h: Side, now: nat, locked: bool): (h': Side)
    ensures h'.version == h.version && h'.crypto == h.crypto
  {
    if h.Done() || now < h.resendNext || !locked then h
    else
      var t := h.(attempts := h.attempts + 1, ticks := h.ticks + 1);
      if t.attempts > CONNECT_RETRY_COUNT then Completed(t, CONNECT_FAILED)
      else if t.lastReply.Some? then Replied(t, t.lastReply.value, true, now)
      else t
  }

  // --- Two sides and a network that loses, repeats and reorders ---

  datatype World = World(client: Side, server: Side)

  datatype Event =
    | ClientHears(which: nat, rival: bool)    // any part the server has sent
    | ServerHears(which: nat, rival: bool)
    | ClientTick(locked: bool)
    | ServerTick(locked: bool)

  predicate Possible(w: World, e: Event) {
    match e
    case ClientHears(i, _) => i < |w.server.sent|
    case ServerHears(i, _) => i < |w.client.sent|
    case _ => true
  }

  function Step(w: World, e: Event, now: nat): World
    requires Possible(w, e)
  {
    match e
    case ClientHears(i, rival) => w.(client := Handled(w.client, w.server.sent[i], rival, now))
    case ServerHears(i, rival) => w.(server := Handled(w.server, w.client.sent[i], rival, now))
    case ClientTick(locked) => w.(client := Ticked(w.client, now, locked))
    case ServerTick(locked) => w.(server := Ticked(w.server, now, locked))
  }

  datatype Timed = Timed(now: nat, event: Event)

  function Run(client: Side, server: Side, start: nat, log: seq<Timed>): Option<World> {
    if log == [] then Some(World(Begun(client, start), server))
    else
      var before, last := Run(client, server, start, log[..|log| - 1]), log[|log| - 1];
      if before.Some? && Possible(before.value, last.event) then Some(Step(before.value, last.event, last.now)) else None
  }

  // --- What the parts sent so far say about their sender ---

  ghost predicate ClientSaid(c: Side, m: Msg) {
    && m.magic && m.version == c.version && m.crypto == c.crypto
    && match m.opcode
       case INITIAL_CLIENT => true
       case AUTH_MSG => c.crypto && c.expected == AUTH_MSG
       case UNENCRYPTED_ACK => c.result == OK
       case ERROR_OCCURRED => c.Done() && c.result != OK && m.problem == c.result
       case _ => false
  }

  ghost predicate ServerSaid(s: Side, m: Msg) {
    && m.magic && m.version == s.version && m.crypto == s.crypto
    && match m.opcode
       case INITIAL_SERVER => s.expected != NOT_STARTED
       case ERROR_OCCURRED => s.Done() && s.result != OK && m.problem == s.result
       case _ => false
  }

  ghost predicate ClientSound(c: Side) {
    && (forall i :: 0 <= i < |c.sent| ==> ClientSaid(c, c.sent[i]))
    && (c.lastReply.Some? ==> c.lastReply.value in c.sent)
    && c.expected in {INITIAL_SERVER, AUTH_MSG} && (c.expected == AUTH_MSG ==> c.crypto)
    && (c.result == OK ==> !c.crypto)
  }

  ghost predicate ServerSound(s: Side) {
    && (forall i :: 0 <= i < |s.sent| ==> ServerSaid(s, s.sent[i]))
    && (s.lastReply.Some? ==> s.lastReply.value in s.sent)
    && s.expected in {NOT_STARTED, AUTH_MSG, UNENCRYPTED_ACK}
    && (s.expected != NOT_STARTED ==> (s.expected == AUTH_MSG <==> s.crypto))
  }

  /** How far each side can be, given the other. */
  ghost predicate InStep(c: Side, s: Side) {
    && (s.expected != NOT_STARTED ==> s.version == c.version && s.crypto == c.crypto)
    && (c.result == OK ==> s.expected == UNENCRYPTED_ACK)
    && (s.result == OK ==> c.result == OK)
  }

  ghost predicate Inv(w: World) {
    ClientSound(w.client) && ServerSound(w.server) && InStep(w.client, w.server)
  }

  lemma SaidMore(c: Side, c': Side, m: Msg)
    requires forall i :: 0 <= i < |c.sent| ==> ClientSaid(c', c.sent[i])
    requires c'.sent == c.sent + [m] && ClientSaid(c', m)
    ensures forall i :: 0 <= i < |c'.sent| ==> ClientSaid(c', c'.sent[i])
  {
    hide ClientSaid;
  }

  lemma ClientHandles(c: Side, s: Side, m: Msg, rival: bool, now: nat)
    requires ClientSound(c) && ServerSound(s) && InStep(c, s) && ServerSaid(s, m)
    ensures ClientSound(Handled(c, m, rival, now)) && InStep(Handled(c, m, rival, now), s)
  {
    var c' := Handled(c, m, rival, now);
    if |c'.sent| > |c.sent| {
      SaidMore(c, c', c'.sent[|c.sent|]);
    }
  }

  lemma ServerHandles(c: Side, s: Side, m: Msg, rival: bool, now: nat)
    requires ClientSound(c) && ServerSound(s) && InStep(c, s) && ClientSaid(c, m)
    ensures ServerSound(Handled(s, m, rival, now)) && InStep(c, Handled(s, m, rival, now))
  {
  }

  lemma ClientTicks(c: Side, s: Side, now: nat, locked: bool)
    requires ClientSound(c) && InStep(c, s)
    ensures ClientSound(Ticked(c, now, locked)) && InStep(Ticked(c, now, locked), s)
  {
  }

  lemma ServerTicks(c: Side, s: Side, now: nat, locked: bool)
    requires ServerSound(s) && InStep(c, s)
    ensures ServerSound(Ticked(s, now, locked)) && InStep(c, Ticked(s, now, locked))
  {
  }

  lemma StepKeeps(w: World, e: Event, now: nat)
    requires Inv(w) && Possible(w, e)
    ensures Inv(Step(w, e, now))
  {
    hide Handled, Ticked, InStep;
    match e
    case ClientHears(i, rival) => ClientHandles(w.client, w.server, w.server.sent[i], rival, now);
    case ServerHears(i, rival) => ServerHandles(w.client, w.server, w.client.sent[i], rival, now);
    case ClientTick(locked) => ClientTicks(w.client, w.server, now, locked);
    case ServerTick(locked) => ServerTicks(w.client, w.server, now, locked);
  }

  // --- Nothing is sent too often, and no side waits forever ---

  function Copies(sent: seq<Msg>, opcode: Opcode): nat {
    if sent == [] then 0
    else Copies(sent[..|sent| - 1], opcode) + if sent[|sent| - 1].opcode == opcode then 1 else 0
  }

  lemma CopiesOneMore(sent: seq<Msg>, m: Msg)
    ensures forall op :: Copies(sent + [m], op) == Copies(sent, op) + if m.opcode == op then 1 else 0
  {
    assert (sent + [m])[..|sent|] == sent;
  }

  /** While waiting: the part being repeated went out once per attempt, and the parts of later stages not at all. */
  ghost predicate Waiting(h: Side) {
    && h.attempts <= CONNECT_RETRY_COUNT
    && Copies(h.sent, ERROR_OCCURRED) == 0 && Copies(h.sent, UNENCRYPTED_ACK) == 0
    && (h.expected == NOT_STARTED ==> h.sent == [] && h.lastReply.None?)
    && (h.expected == INITIAL_SERVER ==> Copies(h.sent, AUTH_MSG) == 0)
    && (h.expected != NOT_STARTED ==> h.lastReply.Some?)
    && (h.lastReply.Some? ==> 1 <= Copies(h.sent, h.lastReply.value.opcode) == h.attempts)
  }

  /** How many more times the timer can run out, at most. */
  function Rank(h: Side): int {
    if h.Done() then 0
    else (if h.expected == NOT_STARTED || h.expected == INITIAL_SERVER then 9 else 5) - h.attempts
  }

  ghost predicate Paced(h: Side) {
    && (forall op :: Copies(h.sent, op) <= CONNECT_RETRY_COUNT)
    && (!h.Done() ==> Waiting(h))
    && h.ticks + Rank(h) <= 9
  }

  /** A part that was not sent before goes out. */
  lemma FirstCopy(sent: seq<Msg>, m: Msg)
    requires forall op :: Copies(sent, op) <= CONNECT_RETRY_COUNT
    requires Copies(sent, m.opcode) == 0
    ensures forall op :: Copies(sent + [m], op) <= CONNECT_RETRY_COUNT
    ensures forall op :: Copies(sent + [m], op) == if op == m.opcode then 1 else Copies(sent, op)
  {
    CopiesOneMore(sent, m);
    hide Copies;
  }

  lemma CompletedPaced(h: Side, result: Result)
    requires Paced(h) && result != IN_PROGRESS
    ensures Paced(Completed(h, result))
  {
    hide Copies;
  }

  /** A part that ends the handshake. */
  lemma LastPartPaced(h: Side, m: Msg, result: Result, now: nat)
    requires Paced(h) && !h.Done() && result != IN_PROGRESS && m.opcode in {ERROR_OCCURRED, UNENCRYPTED_ACK}
    ensures Paced(Completed(Replied(h, m, false, now), result)) && Paced(Replied(Completed(h, result), m, false, now))
  {
    FirstCopy(h.sent, m);
    hide Copies;
  }

  /** A part that opens the next stage. */
  lemma NextPartPaced(h: Side, expected: Opcode, m: Msg, now: nat)
    requires Paced(h) && !h.Done() && h.expected in {NOT_STARTED, INITIAL_SERVER}
    requires expected in {AUTH_MSG, UNENCRYPTED_ACK} && m.opcode !in {ERROR_OCCURRED, UNENCRYPTED_ACK}
    requires Copies(h.sent, m.opcode) == 0
    ensures Paced(Replied(h.(expected := expected), m, false, now))
  {
    FirstCopy(h.sent, m);
    hide Copies;
  }

  lemma NotYetSent(h: Side)
    requires Paced(h) && !h.Done()
    ensures h.expected == NOT_STARTED ==> Copies(h.sent, INITIAL_SERVER) == 0
    ensures h.expected == INITIAL_SERVER ==> Copies(h.sent, AUTH_MSG) == 0
  {
  }

  lemma RefusedPaced(h: Side, problem: Result, now: nat)
    requires Paced(h) && !h.Done() && problem != IN_PROGRESS
    ensures Paced(Refused(h, problem, now))
  {
    hide Paced, Copies;
    LastPartPaced(h, Part(h, ERROR_OCCURRED, problem), problem, now);
  }

  lemma HandledPaced(h: Side, m: Msg, rival: bool, now: nat)
    requires Paced(h) && (m.opcode == ERROR_OCCURRED ==> m.problem != IN_PROGRESS)
    ensures Paced(Handled(h, m, rival, now))
  {
    hide Paced, Copies, Completed, Replied, Refused;
    if h.Done() {
    } else if !m.magic {
      CompletedPaced(h, INCOMPATIBLE_PROTOCOL);
    } else if m.version != h.version {
      RefusedPaced(h, INCOMPATIBLE_VERSION, now);
    } else if rival {
      RefusedPaced(h, ALREADY_CONNECTED, now);
    } else if m.opcode == ERROR_OCCURRED {
      CompletedPaced(h, m.problem);
    } else {
      NotYetSent(h);
      if h.expected == NOT_STARTED {
        RefusedPaced(h, INCOMPATIBLE_SECURITY, now);
        NextPartPaced(h, if h.crypto then AUTH_MSG else UNENCRYPTED_ACK, Part(h, INITIAL_SERVER, IN_PROGRESS), now);
      } else if h.expected == INITIAL_SERVER {
        NextPartPaced(h, AUTH_MSG, Part(h, AUTH_MSG, IN_PROGRESS), now);
        LastPartPaced(h, Part(h, UNENCRYPTED_ACK, IN_PROGRESS), OK, now);
      } else {
        CompletedPaced(h, OK);
      }
    }
  }

  lemma TickedPaced(h: Side, now: nat, locked: bool)
    requires Paced(h)
    ensures Paced(Ticked(h, now, locked))
  {
    if h.lastReply.Some? {
      CopiesOneMore(h.sent, h.lastReply.value);
    }
    hide Copies;
  }

  /**
    A timer that runs out sends exactly one more copy of the last part, keeps
    it, and comes again two seconds later; after the fourth copy it sends
    nothing and gives up. Before its time, without the lock, or once the
    handshake is over, nothing happens.
   */
  lemma TimerExactly(h: Side, now: nat, locked: bool)
    ensures var t := Ticked(h, now, locked);
      if h.Done() || now < h.resendNext || !locked then t == h
      else if h.attempts < 4 then
        && !t.Done() && t.attempts == h.attempts + 1 && t.expected == h.expected && t.lastReply == h.lastReply
        && (h.lastReply.Some? ==> t.sent == h.sent + [h.lastReply.value] && t.resendNext == now + 2 * SECOND)
        && (h.lastReply.None? ==> t.sent == h.sent && t.resendNext == h.resendNext)
      else t.result == CONNECT_FAILED && t.sent == h.sent && t.lastReply.None?
  {
  }

  /** A timer that runs out while waiting brings the end nearer; nothing that arrives puts it off. */
  lemma RankFalls(h: Side, m: Msg, rival: bool, now: nat)
    requires Paced(h)
    ensures 0 <= Rank(Handled(h, m, rival, now)) <= Rank(h)
    ensures !h.Done() && now >= h.resendNext ==> 0 <= Rank(Ticked(h, now, true)) < Rank(h)
  {
    hide Copies;
  }

  // --- Every run ---

  lemma BeginningGood(client: Side, server: Side, start: nat)
    requires client == Fresh(client.version, client.crypto) && server == Fresh(server.version, server.crypto)
    ensures Inv(World(Begun(client, start), server)) && Paced(Begun(client, start)) && Paced(server)
  {
    var m := Part(client, INITIAL_CLIENT, IN_PROGRESS);
    assert forall op :: Copies([], op) == 0;
    FirstCopy([], m);
    assert Begun(client, start).sent == [m];
    hide Copies;
  }

  lemma ProblemsNamed(w: World)
    requires Inv(w)
    ensures forall i :: 0 <= i < |w.client.sent| ==> w.client.sent[i].opcode == ERROR_OCCURRED ==> w.client.sent[i].problem != IN_PROGRESS
    ensures forall i :: 0 <= i < |w.server.sent| ==> w.server.sent[i].opcode == ERROR_OCCURRED ==> w.server.sent[i].problem != IN_PROGRESS
  {
    hide InStep;
    forall i | 0 <= i < |w.client.sent| ensures w.client.sent[i].opcode == ERROR_OCCURRED ==> w.client.sent[i].problem != IN_PROGRESS {
      assert ClientSaid(w.client, w.client.sent[i]);
    }
    forall i | 0 <= i < |w.server.sent| ensures w.server.sent[i].opcode == ERROR_OCCURRED ==> w.server.sent[i].problem != IN_PROGRESS {
      assert ServerSaid(w.server, w.server.sent[i]);
    }
  }

  lemma {:induction false} AlwaysGood(client: Side, server: Side, start: nat, log: seq<Timed>)
    requires client == Fresh(client.version, client.crypto) && server == Fresh(server.version, server.crypto)
    requires Run(client, server, start, log).Some?
    ensures var w := Run(client, server, start, log).value;
      Inv(w) && Paced(w.client) && Paced(w.server)
    ensures var w := Run(client, server, start, log).value;
      && w.client.version == client.version && w.client.crypto == client.crypto
      && w.server.version == server.version && w.server.crypto == server.crypto
    decreases |log|
  {
    hide Inv, Paced, Handled, Ticked;
    if log == [] {
      BeginningGood(client, server, start);
    } else {
      var n := |log| - 1;
      AlwaysGood(client, server, start, log[..n]);
      var w, e, now := Run(client, server, start, log[..n]).value, log[n].event, log[n].now;
      StepKeeps(w, e, now);
      ProblemsNamed(w);
      match e
      case ClientHears(i, rival) => HandledPaced(w.client, w.server.sent[i], rival, now);
      case ServerHears(i, rival) => HandledPaced(w.server, w.client.sent[i], rival, now);
      case ClientTick(locked) => TickedPaced(w.client, now, locked);
      case ServerTick(locked) => TickedPaced(w.server, now, locked);
    }
  }

  /**
    In every run: the server only counts as connected when the client does; a
    connected client and its server agree on version and encryption; no part
    goes out more than four times; and a side whose timer ran out nine times is done.
   */
  lemma Agreement(client: Side, server: Side, start: nat, log: seq<Timed>)
    requires client == Fresh(client.version, client.crypto) && server == Fresh(server.version, server.crypto)
    requires Run(client, server, start, log).Some?
    ensures var w := Run(client, server, start, log).value;
      && (w.server.result == OK ==> w.client.result == OK)
      && (w.client.result == OK ==> client.version == server.version && client.crypto == server.crypto)
      && (forall op :: Copies(w.client.sent, op) <= CONNECT_RETRY_COUNT && Copies(w.server.sent, op) <= CONNECT_RETRY_COUNT)
      && (w.client.ticks >= 9 ==> w.client.Done()) && (w.server.ticks >= 9 ==> w.server.Done())
  {
    AlwaysGood(client, server, start, log);
    hide Run, Copies;
  }

  /**
    In every run: a side that waits for an answer keeps the part it waits on,
    and has sent one copy of it per attempt, at least one and at most four.
   */
  lemma CopiesAreAttempts(client: Side, server: Side, start: nat, log: seq<Timed>)
    requires client == Fresh(client.version, client.crypto) && server == Fresh(server.version, server.crypto)
    requires Run(client, server, start, log).Some?
    ensures var w := Run(client, server, start, log).value; Repeats(w.client) && Repeats(w.server)
  {
    AlwaysGood(client, server, start, log);
    hide Run, Copies;
  }

  ghost predicate Repeats(h: Side) {
    !h.Done() && h.expected != NOT_STARTED ==>
      && h.lastReply.Some?
      && 1 <= Copies(h.sent, h.lastReply.value.opcode) == h.attempts <= 4
  }

  /** In every run: how a side's handshake ended does not change any more, whatever else happens. */
  lemma {:induction false} EndIsFinal(client: Side, server: Side, start: nat, log: seq<Timed>, n: nat)
    requires n <= |log| && Run(client, server, start, log).Some?
    ensures Run(client, server, start, log[..n]).Some?
    ensures var before, after := Run(client, server, start, log[..n]).value, Run(client, server, start, log).value;
      && (before.client.Done() ==> after.client == before.client)
      && (before.server.Done() ==> after.server == before.server)
    decreases |log|
  {
    if n == |log| {
      assert log[..n] == log;
    } else {
      EndIsFinal(client, server, start, log[..|log| - 1], n);
      assert log[..|log| - 1][..n] == log[..n];
      hide Completed, Replied, Refused;
    }
  }

  /** A part that is not welcome ends the handshake, each for its own reason; one that is not awaited changes nothing. */
  lemma UnwelcomeParts(h: Side, m: Msg, rival: bool, now: nat)
    requires !h.Done()
    ensures var h' := Handled(h, m, rival, now);
      var known := m.magic && m.version == h.version && !rival && m.opcode != ERROR_OCCURRED;
      && (!m.magic ==> h'.result == INCOMPATIBLE_PROTOCOL && h'.sent == h.sent)
      && (m.magic && m.version != h.version ==> h'.result == INCOMPATIBLE_VERSION)
      && (m.magic && m.version == h.version && rival ==> h'.result == ALREADY_CONNECTED)
      && (known && h.expected == NOT_STARTED && m.opcode == INITIAL_CLIENT && m.crypto != h.crypto ==>
            h'.result == INCOMPATIBLE_SECURITY)
      && (known && m.opcode != (if h.expected == NOT_STARTED then INITIAL_CLIENT else h.expected) ==> h' == h)
  {
  }

  /** Whoever refuses says why, and the other side then ends for the same reason. */
  lemma RefusalIsMutual(h: Side, other: Side, m: Msg, rival: bool, now: nat, later: nat)
    requires !h.Done() && !other.Done() && m.magic && m.version == other.version
    requires Handled(h, m, rival, now).result in {INCOMPATIBLE_VERSION, INCOMPATIBLE_SECURITY, ALREADY_CONNECTED}
    requires m.opcode != ERROR_OCCURRED
    ensures var h' := Handled(h, m, rival, now);
      && h'.sent == h.sent + [h'.sent[|h.sent|]]
      && Handled(other, h'.sent[|h.sent|], false, later).result == h'.result
  {
  }

  lemma OneMore(client: Side, server: Side, start: nat, log: seq<Timed>, e: Timed)
    requires Run(client, server, start, log).Some? && Possible(Run(client, server, start, log).value, e.event)
    ensures Run(client, server, start, log + [e]) == Some(Step(Run(client, server, start, log).value, e.event, e.now))
  {
    assert (log + [e])[..|log|] == log;
  }

  /** The converse fails: with the last part lost, the client is connected and the server gives up. */
  lemma ClientMayBeAlone(version: byte) returns (log: seq<Timed>)
    ensures var r := Run(Fresh(version, false), Fresh(version, false), 0, log);
      r.Some? && r.value.client.result == OK && r.value.server.result == CONNECT_FAILED
  {
    var c, s := Fresh(version, false), Fresh(version, false);
    log := [];
    OneMore(c, s, 0, log, Timed(0, ServerHears(0, false)));
    log := log + [Timed(0, ServerHears(0, false))];
    OneMore(c, s, 0, log, Timed(0, ClientHears(0, false)));
    log := log + [Timed(0, ClientHears(0, false))];
    hide Run, Handled;
    for i := 1 to 5
      invariant Run(c, s, 0, log).Some?
      invariant var w := Run(c, s, 0, log).value;
        && w.client.result == OK
        && (if i < 5 then w.server.result == IN_PROGRESS && w.server.attempts == i && w.server.lastReply.Some?
                       && w.server.resendNext <= i * CONNECT_RETRY_DELAY
            else w.server.result == CONNECT_FAILED)
    {
      var e := Timed(i * CONNECT_RETRY_DELAY, ServerTick(true));
      OneMore(c, s, 0, log, e);
      log := log + [e];
    }
  }

  /** With the first request and the first answer lost, both sides still end up connected. */
  lemma LostPartsAreMadeGood(version: byte) returns (log: seq<Timed>)
    ensures var r := Run(Fresh(version, false), Fresh(version, false), 0, log);
      r.Some? && r.value.client.result == OK && r.value.server.result == OK
  {
    var c, s := Fresh(version, false), Fresh(version, false);
    var request, answer, ack := Part(c, INITIAL_CLIENT, IN_PROGRESS), Part(s, INITIAL_SERVER, IN_PROGRESS),
      Part(c, UNENCRYPTED_ACK, IN_PROGRESS);
    log := [];
    assert Run(c, s, 0, log) == Some(World(Begun(c, 0), s));
    hide Run;
    log := Then(c, s, log, Timed(2 * SECOND, ClientTick(true)));
    assert Run(c, s, 0, log).value.client.sent == [request, request];
    log := Then(c, s, log, Timed(2 * SECOND, ServerHears(1, false)));
    assert Run(c, s, 0, log).value.server.sent == [answer];
    log := Then(c, s, log, Timed(4 * SECOND, ServerTick(true)));
    assert Run(c, s, 0, log).value.server.sent == [answer, answer];
    log := Then(c, s, log, Timed(4 * SECOND, ClientHears(1, false)));
    assert Run(c, s, 0, log).value.client.sent == [request, request, ack];
    log := Then(c, s, log, Timed(4 * SECOND, ServerHears(2, false)));
  }

  lemma Then(c: Side, s: Side, log: seq<Timed>, e: Timed) returns (log': seq<Timed>)
    requires Run(c, s, 0, log).Some? && Possible(Run(c, s, 0, log).value, e.event)
    ensures Run(c, s, 0, log') == Some(Step(Run(c, s, 0, log).value, e.event, e.now))
  {
    OneMore(c, s, 0, log, e);
    log' := log + [e];
  }

  /** Once the client is connected, the part that connects the server is the acknowledgement and no other. */
  lemma AckConnects(w: World, i: nat, now: nat)
    requires Inv(w) && w.client.result == OK && !w.server.Done() && i < |w.client.sent|
    ensures Step(w, ServerHears(i, false), now).server.result == OK <==> w.client.sent[i].opcode == UNENCRYPTED_ACK
  {
    assert ClientSaid(w.client, w.client.sent[i]);
  }

  // --- In place ---

  class HandshakerThreeWay {
    const version: byte
    const crypto: bool
    var expected: Opcode
    var result: Result
    var lastReply: Option<Msg>
    var resendNext: nat
    var attempts: nat
    var sent: seq<Msg>
    ghost var ticks: nat

    ghost function View(): Side
      reads this
    {
      Side(version, crypto, expected, result, lastReply, resendNext, attempts, sent, ticks)
    }

    constructor (version: byte, crypto: bool)
      ensures View() == Fresh(version, crypto)
    {
      this.version, this.crypto := version, crypto;
      expected, result, lastReply, resendNext, attempts, sent, ticks := NOT_STARTED, IN_PROGRESS, None, 0, 0, [], 0;
    }

    method Reply(m: Msg, isRetry: bool, now: nat)
      modifies this`lastReply, this`attempts, this`resendNext, this`sent
      ensures View() == Replied(old(View()), m, isRetry, now)
    {
      lastReply := Some(m);
      if !isRetry {
        attempts := 1;
      }
      resendNext := now + CONNECT_RETRY_DELAY;
      sent := sent + [m];
    }

    method Complete(result: Result)
      modifies this`result, this`lastReply
      ensures View() == Completed(old(View()), result)
    {
      this.result := result;
      lastReply := None;
    }

    method ReplyWithError(problem: Result, now: nat)
      modifies this`lastReply, this`attempts, this`resendNext, this`sent, this`result
      ensures View() == Refused(old(View()), problem, now)
    {
      Reply(Msg(true, version, ERROR_OCCURRED, crypto, problem), false, now);
      Complete(problem);
    }

    method Begin(now: nat)
      modifies this`expected, this`lastReply, this`attempts, this`resendNext, this`sent
      ensures View() == Begun(old(View()), now)
    {
      expected := INITIAL_SERVER;
      Reply(Msg(true, version, INITIAL_CLIENT, crypto, IN_PROGRESS), false, now);
    }

    method Handle(m: Msg, rival: bool, now: nat)
      modifies this`expected, this`lastReply, this`attempts, this`resendNext, this`sent, this`result
      ensures View() == Handled(old(View()), m, rival, now)
    {
      if result != IN_PROGRESS { return; }
      if !m.magic {
        Complete(INCOMPATIBLE_PROTOCOL);
      } else if m.version != version {
        ReplyWithError(INCOMPATIBLE_VERSION, now);
      } else if rival {
        ReplyWithError(ALREADY_CONNECTED, now);
      } else if m.opcode == ERROR_OCCURRED {
        Complete(m.problem);
      } else if expected == NOT_STARTED && m.opcode == INITIAL_CLIENT {
        if m.crypto != crypto {
          ReplyWithError(INCOMPATIBLE_SECURITY, now);
        } else {
          expected := if crypto then AUTH_MSG else UNENCRYPTED_ACK;
          Reply(Msg(true, version, INITIAL_SERVER, crypto, IN_PROGRESS), false, now);
        }
      } else if expected == UNENCRYPTED_ACK && m.opcode == expected {
        Complete(OK);
      } else if expected == INITIAL_SERVER && m.opcode == expected {
        if crypto {
          expected := AUTH_MSG;
          Reply(Msg(true, version, AUTH_MSG, crypto, IN_PROGRESS), false, now);
        } else {
          Complete(OK);
          Reply(Msg(true, version, UNENCRYPTED_ACK, crypto, IN_PROGRESS), false, now);
        }
      }
    }

    method Update(now: nat, locked: bool)
      modifies this
      ensures View() == Ticked(old(View()), now, locked)
    {
      if result != IN_PROGRESS || now < resendNext || !locked { return; }
      ticks := ticks + 1;
      attempts := attempts + 1;
      if attempts > CONNECT_RETRY_COUNT {
        Complete(CONNECT_FAILED);
      } else if lastReply.Some? {
        Reply(lastReply.value, true, now);
      }
    }
  }
}
