/** A client of the registration server in place: its control, the flags its input loop sets,
    and its private queue. */
module RegistrationClient {
  import opened Runs
  import opened Registration
  import Registry
  import RegistrationProof

  class Process {
    const pid: int
    const qid: nat
    var pc: Pc
    var CLIENT_STOP: bool
    var send: nat
    var inbox: seq<Reply>
    var id: nat

    constructor (pid: int, qid: nat)
      ensures View() == Client(pid, qid, Begin, false, 0, [], 0)
    {
      this.pid, this.qid := pid, qid;
      pc, CLIENT_STOP, send, inbox, id := Begin, false, 0, [], 0;
    }

    ghost function View(): Client
      reads this
    {
      Client(pid, qid, pc, CLIENT_STOP, send, inbox, id)
    }

    /** One step that waits for nothing but its own queue; `out` is what it sends. */
    method Step() returns (ok: bool, out: Option<Msg>)
      modifies this
      ensures StepClient(old(View())) == if ok then Some(View()) else None
      ensures !ok ==> View() == old(View())
      ensures ok ==> out == Sends(old(View()))
    {
      ok, out := true, None;
      match pc
      case Begin =>
        out := Some(Msg(Start, pid, Registry.Decimal(qid)));
        pc := WaitId;
      case WaitId =>
        ok := inbox != [];
        if ok {
          id := match inbox[0] case Id(k) => k case Answer(_) => 0;
          pc, inbox := Top, inbox[1..];
        }
      case Top => pc := if CLIENT_STOP then AtEnd else Input;
      case Input => ok := false;
      case Sending(m) =>
        out := Some(m);
        if CLIENT_STOP {
          send := if m.kind == End then 2 else 1;
          send := send - 1;
          pc := Top;
        } else {
          pc := WaitReply(m);
        }
      case WaitReply(_) =>
        ok := inbox != [];
        if ok { pc, inbox, send := Top, inbox[1..], 0; }
      case AtEnd =>
        if send == 0 { out := Some(Msg(Stop, pid, "")); }
        pc, inbox := Gone, [];
      case Gone => ok := false;
    }

    /** getline has returned this line. */
    method Read(line: Line)
      requires pc == Input
      modifies this
      ensures View() == Take(old(View()), line)
    {
      match line
      case Request(op, text) => pc := Sending(Msg(Ask(op), pid, text));
      case EndLine =>
        CLIENT_STOP := true;
        pc := Sending(Msg(End, pid, ""));
      case Wrong => pc, send := Top, 0;
    }

    /** getline has returned none. */
    method ReadNothing()
      requires pc == Input
      modifies this
      ensures View() == old(View()).(pc := Top)
    {
      pc := Top;
    }

    method Interrupt()
      modifies this
      ensures View() == old(View()).(stop := true)
    {
      CLIENT_STOP := true;
    }

    method Receive(r: Reply)
      modifies this
      ensures View() == old(View()).(inbox := old(inbox) + [r])
    {
      inbox := inbox + [r];
    }

    /** A step keeps the client in agreement with its place in the table and with its messages on
        their way, to which it adds what it sends. */
    method StepInProtocol(ghost place: Option<nat>, ghost sent: seq<Msg>) returns (ok: bool, out: Option<Msg>)
      requires RegistrationProof.ClientOk(View(), place, sent)
      modifies this
      ensures RegistrationProof.ClientOk(View(), place, sent + if ok && out.Some? then [out.value] else [])
      ensures ok && out.Some? ==> out.value.pid == pid
    {
      ghost var before := View();
      if StepClient(before).Some? { RegistrationProof.ClientStepOk(before, place, sent); }
      assert sent + [] == sent;
      hide RegistrationProof.ClientOk, StepClient, Sends;
      ok, out := Step();
    }
  }

  /** What the world does to a client: it lets it run, answers, types, or interrupts its input. */
  datatype Event = Go | Answers(r: Reply) | Types(line: Line) | NoLine | Sigint

  /** What the words of a line ask the client to say. */
  function MessageOf(pid: int, line: Line): Msg {
    match line
    case Request(op, text) => Msg(Ask(op), pid, text)
    case EndLine => Msg(End, pid, "")
    case Wrong => Msg(Stop, pid, "")
  }

  /** START, and then one message for each line typed, in order and with its own words. */
  function Said(pid: int, qid: nat, typed: seq<Line>): seq<Msg> {
    [Msg(Start, pid, Registry.Decimal(qid))] + seq(|typed|, k requires 0 <= k < |typed| => MessageOf(pid, typed[k]))
  }

  predicate EndsWithEnd(typed: seq<Line>) { typed != [] && typed[|typed| - 1] == EndLine }

  /** The lines are requests, and END at most the last. */
  predicate Sensible(typed: seq<Line>) {
    && (forall k :: 0 <= k < |typed| ==> typed[k] != Wrong)
    && (forall k :: 0 <= k < |typed| - 1 ==> typed[k].Request?)
  }

  /** The messages sent are exactly those typed, but for the one about to be sent; when the client
      is gone it has added STOP, unless END was its last word. */
  predicate Says(cl: Client, sent: seq<Msg>, typed: seq<Line>) {
    match cl.pc
    case Begin => sent == [] && typed == []
    case Sending(m) => sent + [m] == Said(cl.pid, cl.qid, typed)
    case Gone => sent == Said(cl.pid, cl.qid, typed) + if EndsWithEnd(typed) then [] else [Msg(Stop, cl.pid, "")]
    case _ => sent == Said(cl.pid, cl.qid, typed)
  }

  /** How END, an interrupt and the line after it show in the client; `late` counts the lines read
      once it has been stopped. */
  predicate Listens(cl: Client, typed: seq<Line>, late: nat) {
    && Sensible(typed) && late <= 1
    && (EndsWithEnd(typed) <==> cl.send == 1 || (cl.pc.Sending? && cl.pc.m.kind == End))
    && (EndsWithEnd(typed) ==> cl.stop && (cl.pc.Sending? || cl.pc == Top || cl.pc == AtEnd || cl.pc == Gone))
    && cl.send <= 1
    && (cl.pc == Begin || cl.pc == WaitId ==> typed == [])
    && (cl.pc == Begin || cl.pc == WaitId || cl.pc.WaitReply? ==> !cl.stop)
    && (cl.pc == AtEnd || cl.pc == Gone ==> cl.stop)
    && (cl.pc.Sending? ==> typed != [])
    && (cl.pc == Input || !cl.stop ==> late == 0)
  }

  /** A client is stopped by an interrupt or by the word END, and by nothing else. */
  predicate StoppedBy(cl: Client, typed: seq<Line>, interrupted: bool) {
    cl.stop <==> interrupted || EndsWithEnd(typed)
  }

  lemma StopsOnlySo(cl: Client, typed: seq<Line>, interrupted: bool, line: Line)
    requires StoppedBy(cl, typed, interrupted)
    ensures StepClient(cl).Some? ==> StoppedBy(StepClient(cl).value, typed, interrupted)
    ensures cl.pc == Input && !EndsWithEnd(typed) ==>
              StoppedBy(Take(cl, line), if line == Wrong then typed else typed + [line], interrupted)
    ensures StoppedBy(cl.(stop := true), typed, true)
  {
  }

  function Unanswered(cl: Client, n: int): int {
    if cl.pc == WaitId || cl.pc.WaitReply? then 1
    else if cl.pc == Input || cl.pc.Sending? || !cl.stop then 0
    else if cl.pc == Gone then (if n <= 1 then 1 else 2)
    else if cl.send == 1 then 1
    else if n <= 0 then 0 else 1
  }

  /** A client that waits has one message more sent than replies taken; one that does not, and
      has not been stopped, has had a reply to each. */
  predicate Talking(cl: Client, sent: seq<Msg>, taken: nat, typed: seq<Line>, late: nat) {
    && Says(cl, sent, typed) && Listens(cl, typed, late)
    && |sent| == taken + Unanswered(cl, |sent| - taken)
  }

  lemma StepSays(cl: Client, sent: seq<Msg>, typed: seq<Line>, late: nat)
    requires Says(cl, sent, typed) && Listens(cl, typed, late) && StepClient(cl).Some?
    ensures var d := StepClient(cl).value;
            && Says(d, if Sends(cl).Some? then sent + [Sends(cl).value] else sent, typed)
            && Listens(d, typed, late)
  {
    hide Registry.Decimal;
    if cl.pc.Sending? {
      var said := Said(cl.pid, cl.qid, typed);
      assert said[|said| - 1] == cl.pc.m;
      assert said[|said| - 1] == MessageOf(cl.pid, typed[|typed| - 1]);
    }
  }

  lemma StepTalks(cl: Client, sent: seq<Msg>, taken: nat, typed: seq<Line>, late: nat)
    requires Talking(cl, sent, taken, typed, late) && StepClient(cl).Some?
    ensures var d := StepClient(cl).value;
            Talking(d, if Sends(cl).Some? then sent + [Sends(cl).value] else sent,
                    if |d.inbox| < |cl.inbox| && d.pc != Gone then taken + 1 else taken, typed, late)
  {
    StepSays(cl, sent, typed, late);
    BeginsSilent(cl, sent, typed);
    hide Says, Said, Registry.Decimal;
  }

  lemma BeginsSilent(cl: Client, sent: seq<Msg>, typed: seq<Line>)
    requires Says(cl, sent, typed)
    ensures cl.pc == Begin ==> sent == []
  {
  }

  /** A line read by a client in its input loop. */
  lemma LineSays(cl: Client, sent: seq<Msg>, taken: nat, typed: seq<Line>, late: nat, line: Line)
    requires Talking(cl, sent, taken, typed, late) && cl.pc == Input
    ensures Talking(Take(cl, line), sent, taken, if line == Wrong then typed else typed + [line], if cl.stop then late + 1 else late)
  {
    hide Registry.Decimal;
    if line != Wrong {
      var more := typed + [line];
      assert Said(cl.pid, cl.qid, more) == Said(cl.pid, cl.qid, typed) + [MessageOf(cl.pid, line)];
    }
  }

  lemma EventTalks(cl: Client, sent: seq<Msg>, taken: nat, typed: seq<Line>, late: nat, r: Reply)
    requires Talking(cl, sent, taken, typed, late)
    ensures Talking(cl.(inbox := cl.inbox + [r]), sent, taken, typed, late)
    ensures cl.pc == Input ==> Talking(cl.(pc := Top), sent, taken, typed, late)
    ensures cl.pc == Top || cl.pc == Input ==> Talking(cl.(stop := true), sent, taken, typed, late)
  {
    hide Said, Registry.Decimal;
  }

  /** A client's life under any sequence of events.  `typed` are the lines it has read, but those
      it does not understand, which it answers with nothing: what it sends is START, then one
      message for each line in typing order and with that line's own words, and when it is gone
      STOP, unless END was its last word.  Until it is stopped it never sends with a reply
      outstanding; once it is it reads at most one more line, and at the most one request and the
      STOP are never answered. */
  method Session(pid: int, qid: nat, events: seq<Event>)
    returns (p: Process, sent: seq<Msg>, taken: nat, typed: seq<Line>, late: nat, interrupted: bool)
    ensures fresh(p) && p.pid == pid && p.qid == qid
    ensures p.pc == Begin ==> sent == [] && typed == []
    ensures p.pc.Sending? ==> sent + [p.pc.m] == Said(pid, qid, typed)
    ensures p.pc == Gone ==> sent == Said(pid, qid, typed) + if EndsWithEnd(typed) then [] else [Msg(Stop, pid, "")]
    ensures p.pc != Begin && !p.pc.Sending? && p.pc != Gone ==> sent == Said(pid, qid, typed)
    ensures Sensible(typed) && late <= 1
    ensures p.CLIENT_STOP <==> interrupted || EndsWithEnd(typed)
    ensures !p.CLIENT_STOP ==> |sent| == taken + if p.pc == WaitId || p.pc.WaitReply? then 1 else 0
    ensures taken <= |sent| <= taken + 2 && (|sent| == taken + 2 ==> p.pc == Gone)
  {
    hide Talking, Said, Registry.Decimal;
    p := new Process(pid, qid);
    sent, taken, typed, late, interrupted := [], 0, [], 0, false;
    NothingSaid(p.View());
    for k := 0 to |events|
      invariant fresh(p) && p.pid == pid && p.qid == qid
      invariant Talking(p.View(), sent, taken, typed, late) && StoppedBy(p.View(), typed, interrupted)
    {
      sent, taken, typed, late, interrupted := React(p, events[k], sent, taken, typed, late, interrupted);
    }
    Summary(p.View(), sent, taken, typed, late);
  }

  lemma NothingSaid(cl: Client)
    requires cl == Client(cl.pid, cl.qid, Begin, false, 0, [], 0)
    ensures Talking(cl, [], 0, [], 0)
  {
  }

  lemma Summary(cl: Client, sent: seq<Msg>, taken: nat, typed: seq<Line>, late: nat)
    requires Talking(cl, sent, taken, typed, late)
    ensures Says(cl, sent, typed) && Sensible(typed) && late <= 1
    ensures !cl.stop ==> |sent| == taken + if cl.pc == WaitId || cl.pc.WaitReply? then 1 else 0
    ensures taken <= |sent| <= taken + 2 && (|sent| == taken + 2 ==> cl.pc == Gone)
  {
    hide Says, Said;
  }

  lemma NotEndYet(cl: Client, sent: seq<Msg>, taken: nat, typed: seq<Line>, late: nat)
    requires Talking(cl, sent, taken, typed, late)
    ensures cl.pc == Input ==> !EndsWithEnd(typed)
  {
  }

  /** One event; one that does not apply is ignored. */
  method React(p: Process, e: Event, sent: seq<Msg>, taken: nat, typed: seq<Line>, late: nat, interrupted: bool)
    returns (sent': seq<Msg>, taken': nat, typed': seq<Line>, late': nat, interrupted': bool)
    requires Talking(p.View(), sent, taken, typed, late) && StoppedBy(p.View(), typed, interrupted)
    modifies p
    ensures Talking(p.View(), sent', taken', typed', late') && StoppedBy(p.View(), typed', interrupted')
    ensures interrupted' <==> interrupted || (e.Sigint? && (old(p.pc) == Top || old(p.pc) == Input))
    ensures typed' == typed + if e.Types? && e.line != Wrong && old(p.pc) == Input then [e.line] else []
    ensures late' == late + if e.Types? && old(p.pc) == Input && old(p.CLIENT_STOP) then 1 else 0
  {
    hide Talking;
    sent', taken', typed', late', interrupted' := sent, taken, typed, late, interrupted;
    ghost var before := p.View();
    EventTalks(before, sent, taken, typed, late, if e.Answers? then e.r else Id(0));
    StopsOnlySo(before, typed, interrupted, if e.Types? then e.line else Wrong);
    NotEndYet(before, sent, taken, typed, late);
    match e
    case Go =>
      if StepClient(before).Some? { StepTalks(before, sent, taken, typed, late); }
      hide StepClient, Sends;
      var waiting := |p.inbox|;
      var ok, out := p.Step();
      if ok && out.Some? { sent' := sent + [out.value]; }
      if ok && |p.inbox| < waiting && p.pc != Gone { taken' := taken + 1; }
    case Answers(r) => p.Receive(r);
    case Types(line) =>
      if p.pc == Input {
        LineSays(before, sent, taken, typed, late, line);
        hide Take;
        if line != Wrong { typed' := typed + [line]; }
        if p.CLIENT_STOP { late' := late + 1; }
        p.Read(line);
      }
    case NoLine => if p.pc == Input { p.ReadNothing(); }
    case Sigint =>
      if p.pc == Top || p.pc == Input {
        p.Interrupt();
        interrupted' := true;
      }
  }
}
