/** What the registration protocol keeps, in every run and for any number of clients. */
module RegistrationProof {
  import opened Runs
  import opened Registry
  import opened Registration

  /** The messages on their way to the server's table, oldest first. */
  function InFlight(pc: ServerPc, queue: seq<Msg>): seq<Msg> {
    match pc case Got(m, _) => [m] + queue case Idle => queue case Ended => queue
  }

  /** Those of one client. */
  function From(ms: seq<Msg>, pid: int): seq<Msg> {
    if ms == [] then [] else (if ms[0].pid == pid then [ms[0]] else []) + From(ms[1..], pid)
  }

  lemma {:induction false} FromAppend(ms: seq<Msg>, m: Msg, pid: int)
    ensures From(ms + [m], pid) == From(ms, pid) + if m.pid == pid then [m] else []
  {
    if ms != [] {
      assert (ms + [m])[1..] == ms[1..] + [m];
      FromAppend(ms[1..], m, pid);
    }
  }

  lemma FromTail(m: Msg, ms: seq<Msg>, pid: int)
    ensures From([m] + ms, pid) == (if m.pid == pid then [m] else []) + From(ms, pid)
  {
    assert ([m] + ms)[1..] == ms;
  }

  predicate IsAsk(m: Msg, pid: int) { m.kind.Ask? && m.pid == pid }

  /** A request on its way, or its answer in the client's queue, and nothing else. */
  predicate Outstanding(m: Msg, sent: seq<Msg>, inbox: seq<Reply>) {
    (sent == [m] && inbox == []) || (sent == [] && inbox == [Answer(m)])
  }

  /** Nothing, or a request whose answer the client will not wait for. */
  predicate LeftBehind(pid: int, sent: seq<Msg>, inbox: seq<Reply>) {
    && |sent| + |inbox| <= 1
    && (sent != [] ==> IsAsk(sent[0], pid))
    && (inbox != [] ==> inbox[0].Answer? && IsAsk(inbox[0].to, pid))
  }

  predicate SaidEnd(pid: int, sent: seq<Msg>, inbox: seq<Reply>) {
    inbox == [] && (sent == [] || sent == [Msg(End, pid, "")])
  }

  predicate SaidStop(pid: int, place: Option<nat>, sent: seq<Msg>) {
    var stop := Msg(Stop, pid, "");
    || (sent == [] && place.None?)
    || (sent == [stop] && place.Some?)
    || (|sent| == 2 && IsAsk(sent[0], pid) && sent[1] == stop && place.Some?)
  }

  /** A client's place in the protocol: its control, its place in the table, its messages on
      their way and its private queue fit together. */
  predicate ClientOk(cl: Client, place: Option<nat>, sent: seq<Msg>) {
    match cl.pc
    case Begin => !cl.stop && cl.send == 0 && place.None? && sent == [] && cl.inbox == []
    case WaitId =>
      !cl.stop && cl.send == 0 &&
      if place.Some? then sent == [] && cl.inbox == [Id(place.value)]
      else cl.inbox == [] && (sent == [] || sent == [Msg(Start, cl.pid, Decimal(cl.qid))])
    case Top =>
      place == Some(cl.id) &&
      (if !cl.stop then cl.send == 0 && sent == [] && cl.inbox == []
       else if cl.send == 0 then LeftBehind(cl.pid, sent, cl.inbox)
       else SaidEnd(cl.pid, sent, cl.inbox))
    case Input => place == Some(cl.id) && cl.send == 0 && sent == [] && cl.inbox == []
    case Sending(m) =>
      && place == Some(cl.id) && cl.send == 0 && sent == [] && cl.inbox == [] && m.pid == cl.pid
      && (m.kind.Ask? || (m == Msg(End, cl.pid, "") && cl.stop))
    case WaitReply(m) => place == Some(cl.id) && IsAsk(m, cl.pid) && !cl.stop && Outstanding(m, sent, cl.inbox)
    case AtEnd =>
      place == Some(cl.id) && cl.stop &&
      (if cl.send == 0 then LeftBehind(cl.pid, sent, cl.inbox) else SaidEnd(cl.pid, sent, cl.inbox))
    case Gone =>
      && cl.inbox == []
      && if cl.send == 0 then SaidStop(cl.pid, place, sent) else place.Some? && SaidEnd(cl.pid, sent, cl.inbox)
  }

  predicate ClientAt(s: State, c: nat)
    requires c < |s.clients|
  {
    ClientOk(s.clients[c], PlaceOf(s.server.slots, s.clients[c].pid),
             From(InFlight(s.server.pc, s.queue), s.clients[c].pid))
  }

  /** No pid has two places, and every place taken belongs to a client and leads to its queue. */
  predicate TableOk(slots: seq<Slot>, clients: seq<Client>) {
    && |slots| == MAX_CLIENTS
    && (forall i, j :: 0 <= i < j < |slots| && slots[i].pid == slots[j].pid ==> slots[i].pid == 0)
    && (forall i, c :: 0 <= i < |slots| && 0 <= c < |clients| && slots[i].pid == clients[c].pid ==>
          slots[i].qid == clients[c].qid)
    && (forall i :: 0 <= i < |slots| && slots[i].pid != 0 ==> IsClient(slots[i].pid, clients))
  }

  predicate IsClient(pid: int, clients: seq<Client>) {
    exists c :: 0 <= c < |clients| && clients[c].pid == pid
  }

  predicate ServerOk(sv: Server) {
    && sv.next < |sv.slots|
    && (sv.pc.Got? ==>
          sv.pc.i == match PlaceOf(sv.slots, sv.pc.m.pid) case Some(k) => k case None => |sv.slots|)
  }

  predicate Inv(s: State) {
    && Distinct(s.clients)
    && TableOk(s.server.slots, s.clients)
    && ServerOk(s.server)
    && (forall m: Msg :: m in InFlight(s.server.pc, s.queue) ==> IsClient(m.pid, s.clients))
    && (forall c :: 0 <= c < |s.clients| ==> ClientAt(s, c))
  }

  lemma InitInv(s: State)
    requires IsInit(s)
    ensures Inv(s)
  {
  }

  /** Only what a client moves concerns changes: its own entry and its own messages. */
  lemma ClientMoveKeepsInv(s: State, c: nat, cl': Client, m: Option<Msg>)
    requires Inv(s) && c < |s.clients|
    requires cl'.pid == s.clients[c].pid && cl'.qid == s.clients[c].qid
    requires m.Some? ==> m.value.pid == cl'.pid
    requires ClientOk(cl', PlaceOf(s.server.slots, cl'.pid),
                      From(InFlight(s.server.pc, s.queue), cl'.pid) + if m.Some? then [m.value] else [])
    ensures Inv(s.(clients := s.clients[c := cl'], queue := s.queue + if m.Some? then [m.value] else []))
  {
    hide ClientOk, TableOk, ServerOk, PlaceOf, From;
    var extra := if m.Some? then [m.value] else [];
    var s' := s.(clients := s.clients[c := cl'], queue := s.queue + extra);
    var all := InFlight(s.server.pc, s.queue);
    assert InFlight(s'.server.pc, s'.queue) == all + extra;
    SameIdentities(s.clients, s'.clients);
    forall d | 0 <= d < |s.clients| ensures ClientAt(s', d) {
      var pid := s.clients[d].pid;
      assert From(all + extra, pid) == From(all, pid) + (if d == c then extra else []) by {
        if m.Some? { FromAppend(all, m.value, pid); }
        else { assert all + extra == all; assert From(all, pid) + [] == From(all, pid); }
      }
      assert ClientAt(s, d);
      if d != c { assert From(all, pid) + [] == From(all, pid); }
    }
    SameClients(s.server.slots, s.clients, s'.clients);
    forall x: Msg | x in all + extra ensures IsClient(x.pid, s'.clients) {
      if x in all {
        SamePids(x.pid, s.clients, s'.clients);
      } else {
        assert s'.clients[c].pid == x.pid;
      }
    }
  }

  predicate Alike(a: seq<Client>, b: seq<Client>) {
    |a| == |b| && forall c :: 0 <= c < |a| ==> a[c].pid == b[c].pid && a[c].qid == b[c].qid
  }

  lemma SameIdentities(a: seq<Client>, b: seq<Client>)
    requires Alike(a, b) && Distinct(a)
    ensures Distinct(b)
  {
  }

  lemma SamePids(pid: int, a: seq<Client>, b: seq<Client>)
    requires Alike(a, b) && IsClient(pid, a)
    ensures IsClient(pid, b)
  {
    var c :| 0 <= c < |a| && a[c].pid == pid;
    assert b[c].pid == pid;
  }

  lemma SameClients(slots: seq<Slot>, a: seq<Client>, b: seq<Client>)
    requires Alike(a, b) && TableOk(slots, a)
    ensures TableOk(slots, b)
  {
    forall i | 0 <= i < |slots| && slots[i].pid != 0 ensures IsClient(slots[i].pid, b) {
      SamePids(slots[i].pid, a, b);
    }
  }

  /** Each step of a client keeps its own part of the protocol. */
  lemma ClientStepOk(cl: Client, place: Option<nat>, sent: seq<Msg>)
    requires ClientOk(cl, place, sent) && StepClient(cl).Some?
    ensures ClientOk(StepClient(cl).value, place, sent + if Sends(cl).Some? then [Sends(cl).value] else [])
    ensures Sends(cl).Some? ==> Sends(cl).value.pid == cl.pid
    ensures StepClient(cl).value.pid == cl.pid && StepClient(cl).value.qid == cl.qid
  {
    assert sent + [] == sent;
  }

  lemma TakeOk(cl: Client, line: Line, place: Option<nat>, sent: seq<Msg>)
    requires ClientOk(cl, place, sent) && cl.pc == Input
    ensures ClientOk(Take(cl, line), place, sent)
    ensures ClientOk(cl.(pc := Top), place, sent)
  {
  }

  lemma InterruptOk(cl: Client, place: Option<nat>, sent: seq<Msg>)
    requires ClientOk(cl, place, sent) && (cl.pc == Top || cl.pc == Input)
    ensures ClientOk(cl.(stop := true), place, sent)
  {
  }

  lemma ClientActionsKeepInv(s: State, a: Action)
    requires Inv(s) && Next(s, a).Some? && (a.Moves? || a.Reads? || a.NoLine? || a.Interrupt?)
    ensures Inv(Next(s, a).value)
  {
    hide ClientOk, TableOk, ServerOk, From, PlaceOf, StepClient, Sends, Take;
    var c := a.c;
    var cl := s.clients[c];
    var place, sent := PlaceOf(s.server.slots, cl.pid), From(InFlight(s.server.pc, s.queue), cl.pid);
    assert ClientAt(s, c);
    assert s.queue + [] == s.queue && sent + [] == sent;
    match a {
      case Moves(_) =>
        ClientStepOk(cl, place, sent);
        ClientMoveKeepsInv(s, c, StepClient(cl).value, Sends(cl));
      case Reads(_, line) =>
        TakeOk(cl, line, place, sent);
        TakeSame(cl, line);
        ClientMoveKeepsInv(s, c, Take(cl, line), None);
      case NoLine(_) =>
        TakeOk(cl, Wrong, place, sent);
        ClientMoveKeepsInv(s, c, cl.(pc := Top), None);
      case Interrupt(_) =>
        InterruptOk(cl, place, sent);
        ClientMoveKeepsInv(s, c, cl.(stop := true), None);
    }
  }

  lemma TakeSame(cl: Client, line: Line)
    ensures Take(cl, line).pid == cl.pid && Take(cl, line).qid == cl.qid
  {
  }

  lemma ReceiveKeepsInv(s: State)
    requires Inv(s) && StepReceive(s).Some?
    ensures Inv(StepReceive(s).value)
  {
    hide ClientOk, TableOk, From;
    var s' := StepReceive(s).value;
    assert s.queue == [s.queue[0]] + s.queue[1..];
    assert InFlight(s'.server.pc, s'.queue) == InFlight(s.server.pc, s.queue);
    forall c | 0 <= c < |s.clients| ensures ClientAt(s', c) {
      assert ClientAt(s, c);
    }
  }

  lemma StopServingKeepsInv(s: State)
    requires Inv(s) && s.server.pc == Idle
    ensures Inv(s.(server := s.server.(pc := Ended)))
  {
    hide ClientOk, TableOk, From;
    var s' := s.(server := s.server.(pc := Ended));
    forall c | 0 <= c < |s.clients| ensures ClientAt(s', c) {
      assert ClientAt(s, c);
    }
  }

  /** Filling a free place gives it to that pid alone. */
  lemma PlaceFilled(slots: seq<Slot>, clients: seq<Client>, k: nat, c: nat, p: int)
    requires TableOk(slots, clients) && Distinct(clients) && c < |clients|
    requires k < |slots| && slots[k].pid == 0 && PlaceOf(slots, clients[c].pid).None? && p != 0
    ensures var slots' := slots[k := Slot(clients[c].pid, clients[c].qid)];
            && TableOk(slots', clients)
            && PlaceOf(slots', p) == if p == clients[c].pid then Some(k) else PlaceOf(slots, p)
  {
    var pid := clients[c].pid;
    var slots' := slots[k := Slot(pid, clients[c].qid)];
    assert forall i :: 0 <= i < |slots| ==> slots[i].pid != pid;
    assert IsClient(pid, clients);
    FirstUnique(slots', p, if p == pid then Some(k) else PlaceOf(slots, p));
  }

  lemma PlaceEmptied(slots: seq<Slot>, clients: seq<Client>, k: nat, p: int)
    requires TableOk(slots, clients) && Distinct(clients) && k < |slots| && slots[k].pid != 0 && p != 0
    ensures TableOk(slots[k := NO_CLIENT], clients)
    ensures PlaceOf(slots[k := NO_CLIENT], p) == if p == slots[k].pid then None else PlaceOf(slots, p)
  {
    FirstUnique(slots[k := NO_CLIENT], p, if p == slots[k].pid then None else PlaceOf(slots, p));
  }

  lemma FirstUnique(slots: seq<Slot>, p: int, r: Option<nat>)
    requires r.Some? ==> r.value < |slots| && slots[r.value].pid == p && forall i :: 0 <= i < r.value ==> slots[i].pid != p
    requires r.None? ==> forall i :: 0 <= i < |slots| ==> slots[i].pid != p
    ensures PlaceOf(slots, p) == r
  {
  }

  /** A queue name reaches exactly one client. */
  lemma DeliverOne(clients: seq<Client>, c: nat, r: Reply)
    requires Distinct(clients) && c < |clients|
    ensures Deliver(clients, clients[c].qid, r) ==
            if clients[c].pc == Gone then clients else clients[c := clients[c].(inbox := clients[c].inbox + [r])]
  {
  }

  /** The server's move on a message of client c: the rest is as before. */
  lemma HandleKeepsInv(s: State)
    requires Inv(s) && StepHandle(s).Some?
    ensures Inv(StepHandle(s).value)
  {
    hide ClientOk, TableOk, From, PlaceOf, FreePlace, Value;
    var m := s.server.pc.m;
    assert m in InFlight(s.server.pc, s.queue);
    var c :| 0 <= c < |s.clients| && s.clients[c].pid == m.pid;
    HandledOk(s, c);
    var s' := StepHandle(s).value;
    HandleIsLocal(s, c);
    SameIdentities(s.clients, s'.clients);
    forall d | 0 <= d < |s.clients| && d != c ensures ClientAt(s', d) {
      FromTail(m, s.queue, s.clients[d].pid);
      assert [] + From(s.queue, s.clients[d].pid) == From(s.queue, s.clients[d].pid);
      assert ClientAt(s, d);
    }
    forall x: Msg | x in InFlight(s'.server.pc, s'.queue) ensures IsClient(x.pid, s'.clients) {
      SamePids(x.pid, s.clients, s'.clients);
    }
  }

  /** Nobody but client c is affected by the step from s to s'. */
  predicate LocalTo(s: State, c: nat, s': State) {
    && s'.queue == s.queue && !s'.server.pc.Got?
    && Alike(s.clients, s'.clients)
    && TableOk(s'.server.slots, s'.clients) && ServerOk(s'.server)
    && forall d :: 0 <= d < |s.clients| && d != c ==>
         && s'.clients[d] == s.clients[d]
         && PlaceOf(s'.server.slots, s.clients[d].pid) == PlaceOf(s.server.slots, s.clients[d].pid)
  }

  /** The sender is told something and the table may change in its place. */
  lemma Told(s: State, c: nat, server: Server, r: Reply, s': State)
    requires Distinct(s.clients) && c < |s.clients|
    requires !server.pc.Got? && server.next < |server.slots| && TableOk(server.slots, s.clients)
    requires forall d :: 0 <= d < |s.clients| && d != c ==>
               PlaceOf(server.slots, s.clients[d].pid) == PlaceOf(s.server.slots, s.clients[d].pid)
    requires s' == s.(server := server) || s' == s.(server := server, clients := Deliver(s.clients, s.clients[c].qid, r))
    ensures LocalTo(s, c, s')
  {
    hide TableOk, PlaceOf, Deliver;
    DeliverOne(s.clients, c, r);
    SameClients(server.slots, s.clients, s'.clients);
  }

  lemma StartIsLocal(s: State, c: nat)
    requires Inv(s) && StepHandle(s).Some? && c < |s.clients| && s.clients[c].pid == s.server.pc.m.pid
    requires s.server.pc.m.kind == Start
    ensures LocalTo(s, c, StepHandle(s).value)
  {
    HeadIs(s, c);
    var slots, cl := s.server.slots, s.clients[c];
    assert cl.pid != 0 && forall d :: 0 <= d < |s.clients| && d != c ==> s.clients[d].pid != cl.pid && s.clients[d].pid != 0;
    hide TableOk, From, ClientAt, FreePlace, PlaceOf, Value, Decimal, Deliver, LocalTo;
    ValueOfDecimal(cl.qid);
    FreePlaceIff(slots, s.server.next);
    TableSize(slots, s.clients);
    if FreePlace(slots, s.server.next).Some? {
      var k := FreePlace(slots, s.server.next).value;
      PlaceFilled(slots, s.clients, k, c, cl.pid);
      forall d | 0 <= d < |s.clients| && d != c
        ensures PlaceOf(slots[k := Slot(cl.pid, cl.qid)], s.clients[d].pid) == PlaceOf(slots, s.clients[d].pid)
      {
        PlaceFilled(slots, s.clients, k, c, s.clients[d].pid);
      }
      Told(s, c, Server(Idle, slots[k := Slot(cl.pid, cl.qid)], k), Id(k), StepHandle(s).value);
    } else {
      Told(s, c, Server(Idle, slots, 0), Id(0), StepHandle(s).value);
    }
  }

  lemma RestIsLocal(s: State, c: nat)
    requires Inv(s) && StepHandle(s).Some? && c < |s.clients| && s.clients[c].pid == s.server.pc.m.pid
    requires s.server.pc.m.kind != Start
    ensures LocalTo(s, c, StepHandle(s).value)
  {
    HeadIs(s, c);
    var m, slots, i, cl := s.server.pc.m, s.server.slots, s.server.pc.i, s.clients[c];
    assert cl.pid != 0 && forall d :: 0 <= d < |s.clients| && d != c ==> s.clients[d].pid != cl.pid && s.clients[d].pid != 0;
    hide TableOk, From, ClientAt, FreePlace, PlaceOf, Value, Decimal, Deliver, LocalTo;
    QueueOfPlace(slots, s.clients, c);
    if m.kind == Stop {
      TableSize(slots, s.clients);
      PlaceEmptied(slots, s.clients, i, cl.pid);
      forall d | 0 <= d < |s.clients| && d != c
        ensures PlaceOf(slots[i := NO_CLIENT], s.clients[d].pid) == PlaceOf(slots, s.clients[d].pid)
      {
        PlaceEmptied(slots, s.clients, i, s.clients[d].pid);
      }
      Told(s, c, Server(Idle, slots[i := NO_CLIENT], s.server.next), Answer(m), StepHandle(s).value);
    } else {
      Told(s, c, Server(if m.kind == End then Ended else Idle, slots, s.server.next), Answer(m), StepHandle(s).value);
    }
  }

  lemma HandleIsLocal(s: State, c: nat)
    requires Inv(s) && StepHandle(s).Some? && c < |s.clients| && s.clients[c].pid == s.server.pc.m.pid
    ensures LocalTo(s, c, StepHandle(s).value)
  {
    hide Inv, LocalTo;
    if s.server.pc.m.kind == Start { StartIsLocal(s, c); } else { RestIsLocal(s, c); }
  }

  lemma TableSize(slots: seq<Slot>, clients: seq<Client>)
    requires TableOk(slots, clients)
    ensures |slots| == MAX_CLIENTS
  {
  }

  /** Where a registered client's place leads. */
  lemma QueueOfPlace(slots: seq<Slot>, clients: seq<Client>, c: nat)
    requires TableOk(slots, clients) && c < |clients| && PlaceOf(slots, clients[c].pid).Some?
    ensures var k := PlaceOf(slots, clients[c].pid).value;
            k < |slots| && slots[k] == Slot(clients[c].pid, clients[c].qid)
  {
  }

  /** The message the server has taken is the sender's oldest, and of a kind that fits. */
  lemma HeadIs(s: State, c: nat)
    requires Inv(s) && s.server.pc.Got? && c < |s.clients| && s.clients[c].pid == s.server.pc.m.pid
    ensures From(InFlight(s.server.pc, s.queue), s.clients[c].pid) == [s.server.pc.m] + From(s.queue, s.clients[c].pid)
    ensures var place := PlaceOf(s.server.slots, s.clients[c].pid);
            if s.server.pc.m.kind == Start
            then place.None? && s.server.pc.m.text == Decimal(s.clients[c].qid)
            else place.Some? && s.server.pc.i == place.value
  {
    hide From, PlaceOf, TableOk;
    FromTail(s.server.pc.m, s.queue, s.clients[c].pid);
    var sent := From(InFlight(s.server.pc, s.queue), s.clients[c].pid);
    assert sent[0] == s.server.pc.m;
    assert ClientAt(s, c);
  }

  /** What dealing with its oldest message makes of the sender. */
  lemma SenderAfter(cl: Client, place: Option<nat>, m: Msg, rest: seq<Msg>, k: nat)
    requires ClientOk(cl, place, [m] + rest)
    ensures m.kind == Start ==> ClientOk(cl, None, rest) && ClientOk(cl.(inbox := cl.inbox + [Id(k)]), Some(k), rest)
    ensures m.kind == Start ==> cl.pc != Gone
    ensures m.kind.Ask? ==> ClientOk(if cl.pc == Gone then cl else cl.(inbox := cl.inbox + [Answer(m)]), place, rest)
    ensures m.kind == End ==> ClientOk(cl, place, rest)
    ensures m.kind == Stop ==> ClientOk(cl, None, rest)
  {
    var sent := [m] + rest;
    assert sent[0] == m && sent[1..] == rest && |sent| == 1 + |rest|;
  }

  /** The sender itself, after its message has been dealt with. */
  lemma HandledOk(s: State, c: nat)
    requires Inv(s) && StepHandle(s).Some? && c < |s.clients| && s.clients[c].pid == s.server.pc.m.pid
    ensures |StepHandle(s).value.clients| == |s.clients|
    ensures ClientAt(StepHandle(s).value, c)
  {
    assert s.clients[c].pid != 0;
    hide TableOk, From, PlaceOf, FreePlace, ClientOk, Value, Decimal, Deliver, Distinct;
    var m, slots, cl := s.server.pc.m, s.server.slots, s.clients[c];
    var place, rest := PlaceOf(slots, cl.pid), From(s.queue, cl.pid);
    HeadIs(s, c);
    assert ClientAt(s, c);
    var k := if FreePlace(slots, s.server.next).Some? then FreePlace(slots, s.server.next).value else 0;
    SenderAfter(cl, place, m, rest, k);
    match m.kind {
      case Start =>
        ValueOfDecimal(cl.qid);
        FreePlaceIff(slots, s.server.next);
        if FreePlace(slots, s.server.next).Some? {
          DeliverOne(s.clients, c, Id(k));
          PlaceFilled(slots, s.clients, k, c, cl.pid);
        }
      case Ask(_) =>
        QueueOfPlace(slots, s.clients, c);
        DeliverOne(s.clients, c, Answer(m));
      case End =>
      case Stop =>
        QueueOfPlace(slots, s.clients, c);
        PlaceEmptied(slots, s.clients, s.server.pc.i, cl.pid);
    }
  }

  lemma StepKeepsInv(s: State, a: Action)
    requires Inv(s) && Next(s, a).Some?
    ensures Inv(Next(s, a).value)
  {
    match a {
      case Receive => ReceiveKeepsInv(s);
      case Handle => HandleKeepsInv(s);
      case ServerInterrupt => StopServingKeepsInv(s);
      case _ => ClientActionsKeepInv(s, a);
    }
  }

  ghost predicate Reaches(s0: State, schedule: seq<Action>, s: State) {
    IsInit(s0) && Exec(Next, s0, schedule) == Some(s)
  }

  lemma EveryRunKeepsInv(s0: State, schedule: seq<Action>, s: State)
    requires Reaches(s0, schedule, s)
    ensures Inv(s)
  {
    InitInv(s0);
    forall m, a | Inv(m) && Next(m, a).Some? ensures Inv(Next(m, a).value) {
      StepKeepsInv(m, a);
    }
    InvariantHolds(Next, Inv, s0, schedule);
  }

  /** Each pid has at most one place, and a client that has its number and has not said STOP
      has exactly the place of that number. */
  lemma OnePlaceEach(s0: State, schedule: seq<Action>, s: State)
    requires Reaches(s0, schedule, s)
    ensures forall i, j :: 0 <= i < j < |s.server.slots| && s.server.slots[i].pid == s.server.slots[j].pid ==>
              s.server.slots[i].pid == 0
    ensures forall c :: 0 <= c < |s.clients| && !(s.clients[c].pc in {Begin, WaitId, Gone}) ==>
              && s.clients[c].id < |s.server.slots|
              && s.server.slots[s.clients[c].id] == Slot(s.clients[c].pid, s.clients[c].qid)
  {
    EveryRunKeepsInv(s0, schedule, s);
    hide From;
    forall c | 0 <= c < |s.clients| && !(s.clients[c].pc in {Begin, WaitId, Gone})
      ensures s.clients[c].id < |s.server.slots| && s.server.slots[s.clients[c].id] == Slot(s.clients[c].pid, s.clients[c].qid)
    {
      assert ClientAt(s, c);
      QueueOfPlace(s.server.slots, s.clients, c);
    }
  }

  /** Every message but START finds its sender's place, so the server never looks beyond its
      table: a message taken can always be handled. */
  lemma SenderIsFound(s0: State, schedule: seq<Action>, s: State)
    requires Reaches(s0, schedule, s) && s.server.pc.Got?
    ensures |s.server.slots| == MAX_CLIENTS
    ensures var m, i := s.server.pc.m, s.server.pc.i;
            if m.kind == Start then i == MAX_CLIENTS else i < MAX_CLIENTS && s.server.slots[i].pid == m.pid
    ensures StepHandle(s).Some?
  {
    EveryRunKeepsInv(s0, schedule, s);
    hide From, ClientOk;
    var m := s.server.pc.m;
    assert m in InFlight(s.server.pc, s.queue);
    var c :| 0 <= c < |s.clients| && s.clients[c].pid == m.pid;
    HeadIs(s, c);
    FreePlaceIff(s.server.slots, s.server.next);
  }

  /** START is admitted exactly if a place is free: then the client gets its place and its
      number; otherwise it gets nothing. */
  lemma AdmittedIff(s0: State, schedule: seq<Action>, s: State, c: nat)
    requires Reaches(s0, schedule, s) && s.server.pc.Got? && s.server.pc.m.kind == Start
    requires c < |s.clients| && s.clients[c].pid == s.server.pc.m.pid
    ensures StepHandle(s).Some? && c < |StepHandle(s).value.clients| && |s.server.slots| == MAX_CLIENTS
    ensures var t := StepHandle(s).value;
            var free := exists i :: 0 <= i < MAX_CLIENTS && s.server.slots[i].pid == 0;
            && (free <==> PlaceOf(t.server.slots, s.clients[c].pid).Some?)
            && (if free then t.clients[c].inbox == [Id(PlaceOf(t.server.slots, s.clients[c].pid).value)]
                else t.clients == s.clients && t.server.slots == s.server.slots)
  {
    EveryRunKeepsInv(s0, schedule, s);
    SenderIsFound(s0, schedule, s);
    hide From, PlaceOf, ClientOk, FreePlace;
    var slots, cl := s.server.slots, s.clients[c];
    StartOk(s, c);
    ValueOfDecimal(cl.qid);
    FreePlaceIff(slots, s.server.next);
    if FreePlace(slots, s.server.next).Some? {
      var k := FreePlace(slots, s.server.next).value;
      DeliverOne(s.clients, c, Id(k));
      PlaceFilled(slots, s.clients, k, c, cl.pid);
    }
  }

  lemma StartOk(s: State, c: nat)
    requires Inv(s) && s.server.pc.Got? && s.server.pc.m.kind == Start
    requires c < |s.clients| && s.clients[c].pid == s.server.pc.m.pid
    ensures s.clients[c].pc == WaitId && s.clients[c].inbox == []
    ensures PlaceOf(s.server.slots, s.clients[c].pid).None? && s.server.pc.m.text == Decimal(s.clients[c].qid)
  {
    hide From, PlaceOf, TableOk;
    HeadIs(s, c);
    assert ClientAt(s, c);
  }

  /** A waiting client has one request outstanding, and what its queue holds is the answer to
      that request and nothing else. */
  lemma ExactlyItsReply(s0: State, schedule: seq<Action>, s: State, c: nat)
    requires Reaches(s0, schedule, s) && c < |s.clients| && s.clients[c].pc.WaitReply?
    ensures var m := s.clients[c].pc.m;
            var sent := From(InFlight(s.server.pc, s.queue), s.clients[c].pid);
            (sent == [m] && s.clients[c].inbox == []) || (sent == [] && s.clients[c].inbox == [Answer(m)])
  {
    EveryRunKeepsInv(s0, schedule, s);
    hide From, PlaceOf;
    assert ClientAt(s, c);
  }

  /** No private queue ever holds more than one message, so no reply of the server blocks; and
      of one client at most two messages are on their way, the second one being its STOP. */
  lemma AtMostOneOutstanding(s0: State, schedule: seq<Action>, s: State, c: nat)
    requires Reaches(s0, schedule, s) && c < |s.clients|
    ensures |s.clients[c].inbox| <= 1
    ensures var sent := From(InFlight(s.server.pc, s.queue), s.clients[c].pid);
            && |sent| <= 2
            && (|sent| == 2 ==> s.clients[c].pc == Gone && sent[1].kind == Stop && sent[0].kind.Ask?)
            && (sent != [] && s.clients[c].inbox != [] ==> false)
  {
    EveryRunKeepsInv(s0, schedule, s);
    hide From, PlaceOf;
    assert ClientAt(s, c);
  }

  /** A client whose START has been dealt with and who got no place. */
  predicate Refused(s: State, c: nat) {
    && c < |s.clients| && s.clients[c].pc == WaitId
    && PlaceOf(s.server.slots, s.clients[c].pid).None?
    && From(InFlight(s.server.pc, s.queue), s.clients[c].pid) == []
  }

  /** No step of anybody changes anything for a refused client, and it cannot move itself. */
  lemma RefusedStays(s: State, a: Action, c: nat)
    requires Inv(s) && Refused(s, c) && Next(s, a).Some?
    ensures Refused(Next(s, a).value, c)
    ensures a != Moves(c)
  {
    RefusedIsEmpty(s, c);
    hide Inv, From, PlaceOf, ClientAt, StepHandle, StepReceive;
    match a {
      case Receive => RefusedAtReceive(s, c);
      case Handle => RefusedAtHandle(s, c);
      case ServerInterrupt =>
      case _ => RefusedAtClient(s, a, c);
    }
  }

  lemma RefusedIsEmpty(s: State, c: nat)
    requires Inv(s) && Refused(s, c)
    ensures s.clients[c].inbox == []
  {
    hide PlaceOf, TableOk, From;
    assert ClientAt(s, c);
  }

  lemma RefusedAtReceive(s: State, c: nat)
    requires Refused(s, c) && StepReceive(s).Some?
    ensures Refused(StepReceive(s).value, c)
  {
    hide PlaceOf, From;
    assert s.queue == [s.queue[0]] + s.queue[1..];
  }

  lemma RefusedAtHandle(s: State, c: nat)
    requires Inv(s) && Refused(s, c) && StepHandle(s).Some?
    ensures Refused(StepHandle(s).value, c)
  {
    var m := s.server.pc.m;
    assert m in InFlight(s.server.pc, s.queue);
    var d :| 0 <= d < |s.clients| && s.clients[d].pid == m.pid;
    HandleIsLocal(s, d);
    hide Inv, PlaceOf, From, StepHandle, TableOk;
    FromTail(m, s.queue, s.clients[c].pid);
  }

  lemma RefusedAtClient(s: State, a: Action, c: nat)
    requires Inv(s) && Refused(s, c) && s.clients[c].inbox == [] && Next(s, a).Some?
    requires a.Moves? || a.Reads? || a.NoLine? || a.Interrupt?
    ensures Refused(Next(s, a).value, c) && a != Moves(c)
  {
    var all := InFlight(s.server.pc, s.queue);
    if a.Moves? && Sends(s.clients[a.c]).Some? {
      var m := Sends(s.clients[a.c]).value;
      SentByItself(s, a.c);
      FromAppend(all, m, s.clients[c].pid);
      assert InFlight(s.server.pc, s.queue + [m]) == all + [m];
    }
    assert a.c != c ==> s.clients[a.c].pid != s.clients[c].pid;
    hide Inv, PlaceOf, From, Sends, Take;
  }

  lemma SentByItself(s: State, d: nat)
    requires Inv(s) && d < |s.clients| && Sends(s.clients[d]).Some?
    ensures Sends(s.clients[d]).value.pid == s.clients[d].pid
  {
    hide From, PlaceOf;
    assert ClientAt(s, d);
  }
}
