/** One turn of the server's loop on its table in memory: look the sender up, then act on the
    message's type. */
module RegistrationServer {
  import opened Runs
  import opened Registry
  import R = Registration

  /** A reply and the private queue it goes to. */
  datatype Outgoing = Outgoing(qid: int, reply: R.Reply)

  ghost function ServerOf(t: Table, pc: R.ServerPc): R.Server
    reads t, t.slots
  {
    R.Server(pc, t.slots[..], t.client_no)
  }

  /** What one turn does to the system: the message leaves the queue, the table changes and the
      reply, if any, is delivered. */
  ghost predicate TurnIs(before: R.Server, m: R.Msg, after: R.Server, out: Option<Outgoing>) {
    forall s: R.State :: s.server == before && s.queue != [] && s.queue[0] == m ==>
      && R.StepReceive(s).Some?
      && R.StepHandle(R.StepReceive(s).value) ==
         Some(s.(server := after, queue := s.queue[1..],
                 clients := if out.Some? then R.Deliver(s.clients, out.value.qid, out.value.reply) else s.clients))
  }

  method Serve(t: Table, m: R.Msg) returns (ended: bool, out: Option<Outgoing>)
    requires t.Valid()
    requires m.kind != R.Start ==> R.PlaceOf(t.slots[..], m.pid).Some?
    modifies t`client_no, t.slots
    ensures t.Valid()
    ensures TurnIs(old(ServerOf(t, R.Idle)), m, ServerOf(t, if ended then R.Ended else R.Idle), out)
  {
    ghost var slots, next := t.slots[..], t.client_no;
    var i := t.Lookup(m.pid);
    ended, out := false, None;
    match m.kind
    case Start =>
      FreePlaceIff(slots, next);
      var qid := StringToInt(m.text);
      var place := t.Admit(m.pid, qid);
      if place.Some? { out := Some(Outgoing(qid, R.Id(place.value))); }
    case Ask(_) => out := Some(Outgoing(t.slots[i].qid, R.Answer(m)));
    case End => ended := true;
    case Stop => t.Delete(i);
  }
}
