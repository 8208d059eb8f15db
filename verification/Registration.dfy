/** Registration of clients at a server, and their requests: one public queue into the server,
    one private queue to each client.  One action is one queue operation of one process, with
    the local computation that goes with it. */
module Registration {
  import opened Runs
  import opened Registry

  datatype Op = Mirror | Add | Mul | Sub | Div | Time

  datatype Kind = Start | Ask(op: Op) | End | Stop

  datatype Msg = Msg(kind: Kind, pid: int, text: string)

  /** What the server sends: the place given to a new client, or the answer to a request,
      which it makes out of that request alone (and the clock). */
  datatype Reply = Id(place: nat) | Answer(to: Msg)

  datatype Pc =
    | Begin
    | WaitId              // receiving the reply to START
    | Top                 // while (!CLIENT_STOP)
    | Input               // getline
    | Sending(m: Msg)
    | WaitReply(m: Msg)
    | AtEnd               // after the loop
    | Gone                // the private queue is removed

  /** qid names the client's private queue; stop is CLIENT_STOP. */
  datatype Client = Client(pid: int, qid: nat, pc: Pc, stop: bool, send: nat, inbox: seq<Reply>, id: nat)

  datatype ServerPc = Idle | Got(m: Msg, i: nat) | Ended

  datatype Server = Server(pc: ServerPc, slots: seq<Slot>, next: nat)

  /** capacity bounds the public queue. */
  datatype State = State(capacity: nat, server: Server, queue: seq<Msg>, clients: seq<Client>)

  datatype Line = Request(op: Op, text: string) | EndLine | Wrong

  datatype Action =
    | Receive | Handle            // the server
    | ServerInterrupt             // SIGINT ends it between two messages
    | Moves(c: nat)
    | Reads(c: nat, line: Line)   // getline gives a line
    | NoLine(c: nat)              // getline gives none: interrupted, or at the end
    | Interrupt(c: nat)           // SIGINT in the client's input loop

  function PlaceOf(slots: seq<Slot>, pid: int): Option<nat> { FirstWith(slots, pid, 0, |slots|) }

  function Deliver(clients: seq<Client>, qid: int, r: Reply): (r': seq<Client>)
    ensures |r'| == |clients|
  {
    seq(|clients|, c requires 0 <= c < |clients| =>
      if clients[c].qid == qid && clients[c].pc != Gone then clients[c].(inbox := clients[c].inbox + [r]) else clients[c])
  }

  /** The server takes a message and looks its sender up. */
  function StepReceive(s: State): Option<State> {
    if s.server.pc != Idle || s.queue == [] then None
    else
      var m := s.queue[0];
      var i := match PlaceOf(s.server.slots, m.pid) case Some(k) => k case None => |s.server.slots|;
      Some(s.(server := s.server.(pc := Got(m, i)), queue := s.queue[1..]))
  }

  /** The switch over the message's type; a place beyond the table has no defined effect. */
  function StepHandle(s: State): Option<State> {
    if !s.server.pc.Got? || s.server.next >= |s.server.slots| then None
    else
      var m, i := s.server.pc.m, s.server.pc.i;
      var sv := s.server.(pc := Idle);
      match m.kind
      case Start =>
        (match FreePlace(sv.slots, sv.next)
         case None => Some(s.(server := sv.(next := 0)))
         case Some(k) =>
           if k >= |sv.slots| then None
           else
             Some(s.(server := sv.(next := k, slots := sv.slots[k := Slot(m.pid, Value(m.text))]),
                     clients := Deliver(s.clients, Value(m.text), Id(k)))))
      case Ask(op) =>
        if i >= |sv.slots| then None else Some(s.(server := sv, clients := Deliver(s.clients, sv.slots[i].qid, Answer(m))))
      case End => Some(s.(server := sv.(pc := Ended)))
      case Stop => if i >= |sv.slots| then None else Some(s.(server := sv.(slots := sv.slots[i := NO_CLIENT])))
  }

  /** A full queue blocks the sender; what is sent to a server that has ended is never read. */
  predicate MaySend(s: State) { s.server.pc == Ended || |s.queue| < s.capacity }

  /** What the client sends in this step, if anything. */
  function Sends(cl: Client): Option<Msg> {
    match cl.pc
    case Begin => Some(Msg(Start, cl.pid, Decimal(cl.qid)))
    case Sending(m) => Some(m)
    case AtEnd => if cl.send == 0 then Some(Msg(Stop, cl.pid, "")) else None
    case _ => None
  }

  function StepClient(cl: Client): Option<Client> {
    match cl.pc
    case Begin => Some(cl.(pc := WaitId))
    case WaitId =>
      if cl.inbox == [] then None
      else
        Some(cl.(pc := Top, inbox := cl.inbox[1..], id := match cl.inbox[0] case Id(k) => k case Answer(_) => 0))
    case Top => Some(cl.(pc := if cl.stop then AtEnd else Input))
    case Input => None
    case Sending(m) =>
      var sent := if m.kind == End then 2 else 1;
      Some(if cl.stop then cl.(pc := Top, send := sent - 1) else cl.(pc := WaitReply(m)))
    case WaitReply(m) => if cl.inbox == [] then None else Some(cl.(pc := Top, inbox := cl.inbox[1..], send := 0))
    case AtEnd => Some(cl.(pc := Gone, inbox := []))
    case Gone => None
  }

  /** What a line read makes of the client; the word END also ends its loop. */
  function Take(cl: Client, line: Line): Client {
    match line
    case Request(op, text) => cl.(pc := Sending(Msg(Ask(op), cl.pid, text)))
    case EndLine => cl.(pc := Sending(Msg(End, cl.pid, "")), stop := true)
    case Wrong => cl.(pc := Top, send := 0)
  }

  function Next(s: State, a: Action): Option<State> {
    match a
    case Receive => StepReceive(s)
    case Handle => StepHandle(s)
    case ServerInterrupt => if s.server.pc == Idle then Some(s.(server := s.server.(pc := Ended))) else None
    case Moves(c) =>
      if c >= |s.clients| then None
      else
        var cl := s.clients[c];
        (match StepClient(cl)
         case None => None
         case Some(cl') =>
           match Sends(cl)
           case None => Some(s.(clients := s.clients[c := cl']))
           case Some(m) =>
             if MaySend(s) then Some(s.(clients := s.clients[c := cl'], queue := s.queue + [m])) else None)
    case Reads(c, line) =>
      if c < |s.clients| && s.clients[c].pc == Input
      then Some(s.(clients := s.clients[c := Take(s.clients[c], line)])) else None
    case NoLine(c) =>
      if c < |s.clients| && s.clients[c].pc == Input
      then Some(s.(clients := s.clients[c := s.clients[c].(pc := Top)])) else None
    case Interrupt(c) =>
      if c < |s.clients| && (s.clients[c].pc == Top || s.clients[c].pc == Input)
      then Some(s.(clients := s.clients[c := s.clients[c].(stop := true)])) else None
  }

  /** Clients have distinct pids, none 0, and distinct queues. */
  predicate Distinct(clients: seq<Client>) {
    && (forall c :: 0 <= c < |clients| ==> clients[c].pid != 0)
    && (forall c, d :: 0 <= c < d < |clients| ==> clients[c].pid != clients[d].pid && clients[c].qid != clients[d].qid)
  }

  predicate IsInit(s: State) {
    && s.server == Server(Idle, seq(MAX_CLIENTS, _ => NO_CLIENT), 0)
    && s.queue == []
    && Distinct(s.clients)
    && forall c :: 0 <= c < |s.clients| ==>
         s.clients[c] == Client(s.clients[c].pid, s.clients[c].qid, Begin, false, 0, [], 0)
  }
}
