/** Whole runs of the registration protocol: a waiting client gets its answer after a number of
    turns of the server that is known beforehand, and with more clients than places there are
    runs in which one is refused, for good. */
module RegistrationRuns {
  import opened Runs
  import opened Registry
  import opened Registration
  import opened RegistrationProof

  // ---------- the way of a request through the queue ----------

  /** The place of a client's first message, or the number of messages. */
  function Position(ms: seq<Msg>, pid: int): (p: nat)
    ensures p <= |ms|
  {
    if ms == [] || ms[0].pid == pid then 0 else 1 + Position(ms[1..], pid)
  }

  lemma {:induction false} PositionIn(ms: seq<Msg>, pid: int)
    ensures Position(ms, pid) < |ms| <==> From(ms, pid) != []
  {
    if ms != [] && ms[0].pid != pid { PositionIn(ms[1..], pid); }
  }

  lemma {:induction false} PositionAppend(ms: seq<Msg>, m: Msg, pid: int)
    requires From(ms, pid) != []
    ensures Position(ms + [m], pid) == Position(ms, pid)
  {
    assert (ms + [m])[1..] == ms[1..] + [m];
    if ms[0].pid != pid { PositionAppend(ms[1..], m, pid); }
  }

  lemma PositionTail(m: Msg, ms: seq<Msg>, pid: int)
    requires m.pid != pid
    ensures Position([m] + ms, pid) == 1 + Position(ms, pid)
  {
    assert ([m] + ms)[1..] == ms;
  }

  predicate Waits(s: State, c: nat) { c < |s.clients| && s.clients[c].pc.WaitReply? }

  /** The steps the server has to make until the answer is in the client's queue. */
  function TurnsLeft(s: State, c: nat): nat
    requires Waits(s, c)
  {
    if s.clients[c].inbox != [] then 0
    else 2 * Position(InFlight(s.server.pc, s.queue), s.clients[c].pid) + if s.server.pc.Got? then 1 else 2
  }

  predicate IsServers(a: Action) { a.Receive? || a.Handle? }

  lemma WaitingHas(s: State, c: nat)
    requires Inv(s) && Waits(s, c)
    ensures Outstanding(s.clients[c].pc.m, From(InFlight(s.server.pc, s.queue), s.clients[c].pid), s.clients[c].inbox)
  {
    hide From, PlaceOf;
    assert ClientAt(s, c);
  }

  lemma HandleTakesOneOff(s: State, c: nat)
    requires Inv(s) && Waits(s, c) && StepHandle(s).Some?
    ensures var s' := StepHandle(s).value;
            && Waits(s', c) && s'.clients[c].pc == s.clients[c].pc
            && TurnsLeft(s', c) == if TurnsLeft(s, c) == 0 then 0 else TurnsLeft(s, c) - 1
  {
    var s' := StepHandle(s).value;
    HandleKeepsPc(s, c);
    HandleKeepsInv(s);
    WaitingHas(s, c);
    WaitingHas(s', c);
    var m, pid := s.server.pc.m, s.clients[c].pid;
    hide Inv, From, StepHandle;
    FromTail(m, s.queue, pid);
    if m.pid != pid {
      PositionTail(m, s.queue, pid);
    } else {
      assert Position([m] + s.queue, pid) == 0;
    }
  }

  lemma HandleKeepsPc(s: State, c: nat)
    requires Inv(s) && c < |s.clients| && StepHandle(s).Some?
    ensures var s' := StepHandle(s).value;
            && c < |s'.clients| && s'.clients[c].pc == s.clients[c].pc && s'.clients[c].pid == s.clients[c].pid
            && s'.queue == s.queue && !s'.server.pc.Got?
  {
    hide FreePlace, Value, Inv, PlaceOf;
  }

  lemma ReceiveTakesOneOff(s: State, c: nat)
    requires Inv(s) && Waits(s, c) && StepReceive(s).Some?
    ensures var s' := StepReceive(s).value;
            && s'.clients == s.clients
            && TurnsLeft(s', c) == if TurnsLeft(s, c) == 0 then 0 else TurnsLeft(s, c) - 1
  {
    hide Inv, PlaceOf;
    assert s.queue == [s.queue[0]] + s.queue[1..];
  }

  /** What the rest of the world can do: append a message, or stop the server. */
  lemma OthersOnlyAppend(s: State, c: nat, a: Action)
    requires c < |s.clients| && s.clients[c].pc.WaitReply? && Next(s, a).Some? && !IsServers(a) && a != Moves(c)
    ensures var s' := Next(s, a).value;
            && c < |s'.clients| && s'.clients[c] == s.clients[c]
            && (s'.server.pc == Ended || s'.server.pc == s.server.pc)
            && (s'.queue == s.queue || exists m :: s'.queue == s.queue + [m])
  {
    hide StepClient, Sends, Take;
  }

  lemma OthersLeaveItAlone(s: State, c: nat, a: Action)
    requires Inv(s) && Waits(s, c) && Next(s, a).Some? && !IsServers(a) && a != Moves(c)
    ensures var s' := Next(s, a).value;
            && c < |s'.clients| && s'.clients[c] == s.clients[c]
            && (s'.server.pc != Ended ==> s'.server.pc == s.server.pc && TurnsLeft(s', c) == TurnsLeft(s, c))
  {
    hide Inv, From, PlaceOf, Position, Next;
    WaitingHas(s, c);
    OthersOnlyAppend(s, c, a);
    var s' := Next(s, a).value;
    if s'.server.pc != Ended && s'.queue != s.queue {
      var m :| s'.queue == s.queue + [m];
      var all := InFlight(s.server.pc, s.queue);
      assert InFlight(s.server.pc, s.queue + [m]) == all + [m];
      if s.clients[c].inbox == [] { PositionAppend(all, m, s.clients[c].pid); }
    }
  }

  /** One step: the server's brings the answer one step nearer, nobody else's pushes it back. */
  lemma TurnsAfter(s: State, c: nat, a: Action)
    requires Inv(s) && Waits(s, c) && Next(s, a).Some? && a != Moves(c) && Next(s, a).value.server.pc != Ended
    ensures var s' := Next(s, a).value;
            && s.server.pc != Ended && Waits(s', c) && s'.clients[c].pc == s.clients[c].pc
            && TurnsLeft(s', c) == if IsServers(a) && TurnsLeft(s, c) > 0 then TurnsLeft(s, c) - 1 else TurnsLeft(s, c)
  {
    hide Inv, TurnsLeft;
    if
    case a == Receive => ReceiveTakesOneOff(s, c);
    case a == Handle => HandleTakesOneOff(s, c);
    case !IsServers(a) => OthersLeaveItAlone(s, c, a);
  }

  /** How many steps of a schedule are the server's. */
  function ServerSteps(schedule: seq<Action>): nat {
    if schedule == [] then 0
    else ServerSteps(schedule[..|schedule| - 1]) + if IsServers(schedule[|schedule| - 1]) then 1 else 0
  }

  lemma {:induction false} TurnsAfterAll(s: State, c: nat, rest: seq<Action>, t: State)
    requires Inv(s) && Waits(s, c) && Exec(Next, s, rest) == Some(t) && Moves(c) !in rest && t.server.pc != Ended
    ensures Inv(t) && Waits(t, c) && t.clients[c].pc == s.clients[c].pc
    ensures TurnsLeft(t, c) == if TurnsLeft(s, c) <= ServerSteps(rest) then 0 else TurnsLeft(s, c) - ServerSteps(rest)
    decreases |rest|
  {
    hide Inv, TurnsLeft, Next;
    if rest != [] {
      var n := |rest| - 1;
      var m := Exec(Next, s, rest[..n]).value;
      EndedStays(m, rest[n]);
      TurnsAfterAll(s, c, rest[..n], m);
      StepKeepsInv(m, rest[n]);
      TurnsAfter(m, c, rest[n]);
    }
  }

  lemma EndedStays(s: State, a: Action)
    requires Next(s, a).Some?
    ensures s.server.pc == Ended ==> Next(s, a).value.server.pc == Ended
  {
  }

  /** The server's steps bring a waiting client its answer in time: after TurnsLeft of them, and
      that is at most twice the length of the queue and one, the answer to the client's request
      is the one message in its queue, whatever the other clients do in between. */
  lemma AnswerComesInTime(s0: State, first: seq<Action>, s: State, c: nat, rest: seq<Action>, t: State)
    requires Reaches(s0, first, s) && Waits(s, c)
    requires Exec(Next, s, rest) == Some(t) && Moves(c) !in rest && t.server.pc != Ended
    ensures TurnsLeft(s, c) <= 2 * |s.queue| + 1
    ensures Waits(t, c) && t.clients[c].pc == s.clients[c].pc
    ensures t.clients[c].inbox == if ServerSteps(rest) >= TurnsLeft(s, c) then [Answer(s.clients[c].pc.m)] else []
  {
    EveryRunKeepsInv(s0, first, s);
    TurnsAfterAll(s, c, rest, t);
    WaitingHas(s, c);
    WaitingHas(t, c);
    PositionIn(InFlight(s.server.pc, s.queue), s.clients[c].pid);
    hide Inv, From, Position;
  }

  /** And the server can make those steps: while one is left, it is enabled. */
  lemma ServerGoesOn(s0: State, first: seq<Action>, s: State, c: nat)
    requires Reaches(s0, first, s) && Waits(s, c) && TurnsLeft(s, c) > 0 && s.server.pc != Ended
    ensures StepReceive(s).Some? || StepHandle(s).Some?
  {
    ExactlyItsReply(s0, first, s, c);
    if s.server.pc.Got? { SenderIsFound(s0, first, s); }
  }

  /** The server ends exactly when it handles END or is interrupted between two messages. */
  lemma EndsIff(s: State, a: Action)
    requires s.server.pc != Ended && Next(s, a).Some?
    ensures Next(s, a).value.server.pc == Ended <==>
            (a == ServerInterrupt && s.server.pc == Idle) || (a == Handle && s.server.pc.Got? && s.server.pc.m.kind == End)
  {
    hide FreePlace, Value, Deliver, StepClient, Sends, Take;
  }

  /** While it runs the public queue never holds more than it has room for, and a client with
      something to send is kept from it only by a full queue. */
  lemma QueueWithinCapacity(s0: State, schedule: seq<Action>, s: State)
    requires Reaches(s0, schedule, s)
    ensures s.capacity == s0.capacity
    ensures s.server.pc != Ended ==> |s.queue| <= s.capacity
    ensures forall c :: 0 <= c < |s.clients| && Sends(s.clients[c]).Some? ==>
              (Next(s, Moves(c)).None? <==> s.server.pc != Ended && |s.queue| == s.capacity)
  {
    var fits := (m: State) => m.capacity == s0.capacity && (m.server.pc != Ended ==> |m.queue| <= m.capacity);
    forall m, a | fits(m) && Next(m, a).Some? ensures fits(Next(m, a).value) {
      StepFits(m, a);
    }
    hide Next;
    InvariantHolds(Next, fits, s0, schedule);
    forall c | 0 <= c < |s.clients| && Sends(s.clients[c]).Some?
      ensures Next(s, Moves(c)).None? <==> s.server.pc != Ended && |s.queue| == s.capacity
    {
      SendingStep(s, c);
    }
  }

  lemma StepFits(s: State, a: Action)
    requires Next(s, a).Some? && (s.server.pc != Ended ==> |s.queue| <= s.capacity)
    ensures var t := Next(s, a).value; t.capacity == s.capacity && (t.server.pc != Ended ==> |t.queue| <= t.capacity)
  {
    hide FreePlace, Value, Deliver, StepClient, Sends, Take, PlaceOf;
  }

  lemma SendingStep(s: State, c: nat)
    requires c < |s.clients| && Sends(s.clients[c]).Some?
    ensures Next(s, Moves(c)).None? <==> s.server.pc != Ended && |s.queue| >= s.capacity
  {
  }

  /** While the server runs the system can only come to rest with every client gone, or at its
      input, or refused: nobody else waits in vain. */
  lemma RestMeansDone(s0: State, schedule: seq<Action>, s: State, c: nat)
    requires Reaches(s0, schedule, s) && s0.capacity >= 1 && s.server.pc != Ended && c < |s.clients|
    requires StepReceive(s).None? && StepHandle(s).None? && Next(s, Moves(c)).None?
    ensures s.clients[c].pc == Gone || s.clients[c].pc == Input || Refused(s, c)
  {
    EveryRunKeepsInv(s0, schedule, s);
    QueueWithinCapacity(s0, schedule, s);
    if s.server.pc.Got? { SenderIsFound(s0, schedule, s); }
    assert s.queue == [] && s.server.pc == Idle;
    assert ClientAt(s, c);
    hide Inv;
  }

  /** What the world may do at any time: type to a client at its input, or give it no line, which
      brings it back to the test of its loop and changes nothing else; interrupt it there; and
      interrupt the server between two messages. */
  lemma WorldIsFree(s: State, c: nat, line: Line)
    requires c < |s.clients|
    ensures Next(s, Reads(c, line)).Some? <==> s.clients[c].pc == Input
    ensures Next(s, Reads(c, Wrong)).Some? ==>
              Next(s, Reads(c, Wrong)).value == s.(clients := s.clients[c := s.clients[c].(pc := Top, send := 0)])
    ensures Next(s, NoLine(c)) ==
            if s.clients[c].pc == Input then Some(s.(clients := s.clients[c := s.clients[c].(pc := Top)])) else None
    ensures Next(s, Interrupt(c)).Some? <==> s.clients[c].pc == Top || s.clients[c].pc == Input
    ensures Next(s, Interrupt(c)).Some? ==> Next(s, Interrupt(c)).value.clients[c] == s.clients[c].(stop := true)
    ensures Next(s, ServerInterrupt).Some? <==> s.server.pc == Idle
  {
  }

  // ---------- a full table ----------

  /** The table and the clients when the first n clients have been admitted, in order. */
  function Admitted(cs: seq<Client>, n: nat): seq<Client> {
    seq(|cs|, c requires 0 <= c < |cs| => if c < n then cs[c].(pc := WaitId, inbox := [Id(c)]) else cs[c])
  }

  function TableOf(cs: seq<Client>, n: nat): seq<Slot>
    requires n <= |cs|
  {
    seq(MAX_CLIENTS, i => if 0 <= i < n then Slot(cs[i].pid, cs[i].qid) else NO_CLIENT)
  }

  function Filled(s0: State, n: nat): State
    requires n <= |s0.clients|
  {
    State(s0.capacity, Server(Idle, TableOf(s0.clients, n), if n == 0 then 0 else n - 1), [], Admitted(s0.clients, n))
  }

  /** A client's START goes into the empty queue, is received and handled. */
  lemma StartIsHandled(s0: State, s: State, c: nat)
    requires CanReach(Next, s0, s) && s.server.pc == Idle && s.queue == [] && s.capacity >= 1
    requires c < |s.clients| && s.clients[c].pc == Begin && PlaceOf(s.server.slots, s.clients[c].pid).None?
    ensures var m := Msg(Start, s.clients[c].pid, Decimal(s.clients[c].qid));
            var h := s.(server := s.server.(pc := Got(m, |s.server.slots|)), clients := s.clients[c := s.clients[c].(pc := WaitId)]);
            StepHandle(h).Some? ==> CanReach(Next, s0, StepHandle(h).value)
  {
    var cl := s.clients[c];
    var m := Msg(Start, cl.pid, Decimal(cl.qid));
    var asked := s.(clients := s.clients[c := cl.(pc := WaitId)], queue := [m]);
    var got := asked.(server := s.server.(pc := Got(m, |s.server.slots|)), queue := []);
    hide CanReach, StepHandle, PlaceOf, Decimal;
    assert [] + [m] == [m] && [m][1..] == [];
    Onward(Next, s0, s, Moves(c), asked);
    Onward(Next, s0, asked, Receive, got);
    if StepHandle(got).Some? { Onward(Next, s0, got, Handle, StepHandle(got).value); }
  }

  lemma NotInTable(cs: seq<Client>, n: nat, c: nat)
    requires Distinct(cs) && n <= c < |cs|
    ensures PlaceOf(TableOf(cs, n), cs[c].pid).None?
    ensures n < MAX_CLIENTS ==> FreePlace(TableOf(cs, n), if n == 0 then 0 else n - 1) == Some(n)
    ensures n >= MAX_CLIENTS ==> FreePlace(TableOf(cs, n), MAX_CLIENTS - 1).None?
  {
    var slots := TableOf(cs, n);
    assert forall i :: 0 <= i < MAX_CLIENTS ==> slots[i].pid == if i < n then cs[i].pid else 0;
    assert forall i :: 0 <= i < |cs| ==> cs[i].pid != 0;
    FirstUnique(slots, cs[c].pid, None);
  }

  lemma StartTakesPlace(s: State, m: Msg, k: nat, qid: nat)
    requires s.server.pc.Got? && s.server.pc.m == m && m.kind == Start && m.text == Decimal(qid)
    requires s.server.next < |s.server.slots| && k < |s.server.slots| && FreePlace(s.server.slots, s.server.next) == Some(k)
    ensures StepHandle(s) == Some(s.(server := Server(Idle, s.server.slots[k := Slot(m.pid, qid)], k),
                                     clients := Deliver(s.clients, qid, Id(k))))
  {
    hide FreePlace, Decimal, Value, Deliver;
    ValueOfDecimal(qid);
  }

  lemma OneMoreAdmitted(s0: State, n: nat)
    requires Distinct(s0.clients) && s0.capacity >= 1 && n < MAX_CLIENTS && n < |s0.clients|
    requires s0.clients[n].pc == Begin && s0.clients[n].inbox == []
    requires CanReach(Next, s0, Filled(s0, n))
    ensures CanReach(Next, s0, Filled(s0, n + 1))
  {
    var s, cs := Filled(s0, n), s0.clients;
    var cl, slots, next := cs[n], TableOf(cs, n), if n == 0 then 0 else n - 1;
    var asked := Admitted(cs, n)[n := cl.(pc := WaitId)];
    var m := Msg(Start, cl.pid, Decimal(cl.qid));
    var h := State(s0.capacity, Server(Got(m, MAX_CLIENTS), slots, next), [], asked);
    NextAdmitted(cs, n);
    hide CanReach, FreePlace, PlaceOf, Decimal, Value, Deliver, Admitted, TableOf, StepHandle;
    NotInTable(cs, n, n);
    StartTakesPlace(h, m, n, cl.qid);
    StartIsHandled(s0, s, n);
  }

  lemma NextAdmitted(cs: seq<Client>, n: nat)
    requires Distinct(cs) && n < MAX_CLIENTS && n < |cs| && cs[n].inbox == []
    ensures |TableOf(cs, n)| == MAX_CLIENTS && |Admitted(cs, n)| == |cs| && Admitted(cs, n)[n] == cs[n]
    ensures TableOf(cs, n)[n := Slot(cs[n].pid, cs[n].qid)] == TableOf(cs, n + 1)
    ensures Deliver(Admitted(cs, n)[n := cs[n].(pc := WaitId)], cs[n].qid, Id(n)) == Admitted(cs, n + 1)
  {
    var asked := Admitted(cs, n)[n := cs[n].(pc := WaitId)];
    AlikeAdmitted(cs, asked, n);
    DeliverOne(asked, n, Id(n));
    assert cs[n].inbox + [Id(n)] == [Id(n)];
    assert asked[n := asked[n].(inbox := [Id(n)])] == Admitted(cs, n + 1);
  }

  lemma AlikeAdmitted(cs: seq<Client>, asked: seq<Client>, n: nat)
    requires Distinct(cs) && n < |cs| && asked == Admitted(cs, n)[n := cs[n].(pc := WaitId)]
    ensures Distinct(asked)
  {
    SameIdentities(cs, asked);
  }

  lemma {:induction false} FirstAreAdmitted(s0: State, n: nat)
    requires IsInit(s0) && s0.capacity >= 1 && n <= MAX_CLIENTS && n <= |s0.clients|
    ensures CanReach(Next, s0, Filled(s0, n))
  {
    if n == 0 {
      Standing(Next, s0);
      assert Admitted(s0.clients, 0) == s0.clients;
      assert TableOf(s0.clients, 0) == s0.server.slots;
    } else {
      FirstAreAdmitted(s0, n - 1);
      OneMoreAdmitted(s0, n - 1);
    }
  }

  /** With more clients than places somebody can be refused: if they come one after another, the
      client after the last place is. */
  lemma SomebodyIsRefused(s0: State)
    requires IsInit(s0) && s0.capacity >= 1 && |s0.clients| > MAX_CLIENTS
    ensures exists schedule, s :: Reaches(s0, schedule, s) && Refused(s, MAX_CLIENTS) && s.server.pc == Idle
  {
    var n := MAX_CLIENTS;
    FirstAreAdmitted(s0, n);
    var s, cs := Filled(s0, n), s0.clients;
    NotInTable(cs, n, n);
    StartIsHandled(s0, s, n);
    hide CanReach, FreePlace, PlaceOf, Decimal, Value;
    var t := s.(server := s.server.(next := 0), clients := s.clients[n := cs[n].(pc := WaitId)]);
    assert CanReach(Next, s0, t);
    assert Refused(t, n);
    ReachedBy(s0, t);
    var schedule :| Exec(Next, s0, schedule) == Some(t);
    assert Reaches(s0, schedule, t);
  }

  lemma ReachedBy(s0: State, t: State)
    requires CanReach(Next, s0, t)
    ensures exists schedule :: Exec(Next, s0, schedule) == Some(t)
  {
  }

  /** The server tells a refused client to try again later only on its own screen: in every
      continuation, also when places become free, the client gets no reply and makes no step. */
  lemma {:induction false} RefusedForGood(s0: State, first: seq<Action>, s: State, c: nat, rest: seq<Action>, t: State)
    requires Reaches(s0, first, s) && Refused(s, c) && Exec(Next, s, rest) == Some(t)
    ensures Refused(t, c) && t.clients[c].inbox == [] && Moves(c) !in rest
    decreases |rest|
  {
    hide Refused, Next, Inv;
    if rest == [] {
      EveryRunKeepsInv(s0, first, s);
    } else {
      var n := |rest| - 1;
      var m := Exec(Next, s, rest[..n]).value;
      RefusedForGood(s0, first, s, c, rest[..n], m);
      ExecConcat(Next, s0, first, rest[..n]);
      EveryRunKeepsInv(s0, first + rest[..n], m);
      RefusedStays(m, rest[n], c);
      StepKeepsInv(m, rest[n]);
      assert rest == rest[..n] + [rest[n]];
    }
    ExecConcat(Next, s0, first, rest);
    EveryRunKeepsInv(s0, first + rest, t);
    RefusedHasNothing(t, c);
  }

  lemma RefusedHasNothing(s: State, c: nat)
    requires Inv(s) && Refused(s, c)
    ensures c < |s.clients| && s.clients[c].inbox == []
  {
    hide From, PlaceOf;
    assert ClientAt(s, c);
  }
}
