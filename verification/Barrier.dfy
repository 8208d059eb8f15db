/** A parent and N children that meet at a barrier made of signals: a child asks for permission
    with SIGUSR1; the K-th request releases the first K children together, each later one is
    released at once; a released child reports with a real-time signal and exits.  A semaphore
    shared by all passes one token round, which travels with SIGUSR1 and SIGCHLD.

    SIGUSR1, SIGUSR2 and SIGCHLD do not queue: a second one sent while the first is pending is
    lost (section 2.4.1 of XSH, IEEE Std 1003.1-2017).  A handler is not interrupted by its own
    signal but may be by another one, so the parent has a stack of running handlers. */
module Barrier {
  import opened Runs

  datatype ChildPc =
    | Asleep
    | WantsRequest        // first sem_wait
    | Requesting          // about to send SIGUSR1
    | Requested           // sent, not yet in pause
    | Paused
    | WantsExit           // pause has returned; last sem_wait
    | Exiting
    | Zombie
    | Reaped

  datatype Handler = NoHandler | WantsToken | HasToken | Reported

  /** usr2: SIGUSR2 is pending.  permits and worked are history: how often the child was sent
      SIGUSR2, and whether it has sent its real-time signal. */
  datatype Child = Child(pc: ChildPc, handler: Handler, usr2: bool, permits: nat, worked: bool)

  datatype Main =
    | Forking | Posting
    | Test                // while (n != N)
    | Checked             // the test said go on, pause not yet called
    | Pausing | Over

  datatype Phase = Record | Bulk(l: nat) | Single | Post

  datatype Frame = Usr1(c: nat, phase: Phase) | Chld(c: nat, reaped: bool)

  /** usr1 and chld: the sender of the pending signal; rt: real-time signals queued; handled is
      history: the senders of all requests handled, in order. */
  datatype Parent = Parent(main: Main, frames: seq<Frame>, usr1: Option<nat>, chld: Option<nat>, rt: nat,
                           n: nat, k: nat, buf: seq<nat>, handled: seq<nat>)

  datatype State = State(N: nat, K: nat, sem: nat, parent: Parent, children: seq<Child>)

  datatype Action =
    | MainMoves
    | TakeUsr1 | TakeChld | TakeRt       // a signal is delivered to the parent
    | HandlerMoves                       // the innermost handler of the parent
    | Reap(c: nat)                       // its wait() returns child c
    | ChildMoves(c: nat)
    | TakeUsr2(c: nat)                   // SIGUSR2 is delivered to child c

  /** pause returns when a handler has run. */
  function Wake(m: Main): Main { if m == Pausing then Test else m }

  function StepMain(s: State): Option<State> {
    var p := s.parent;
    if p.frames != [] then None
    else
      match p.main
      case Forking =>
        if |s.children| < s.N
        then Some(s.(children := s.children + [Child(Asleep, NoHandler, false, 0, false)]))
        else Some(s.(parent := p.(main := Posting)))
      case Posting => Some(s.(sem := s.sem + 1, parent := p.(main := Test)))
      case Test => Some(s.(parent := p.(main := if p.n == s.N then Over else Checked)))
      case Checked => Some(s.(parent := p.(main := Pausing)))
      case Pausing => None
      case Over => None
  }

  /** No handler of that signal is running. */
  predicate NoUsr1(frames: seq<Frame>) { forall i :: 0 <= i < |frames| ==> !frames[i].Usr1? }
  predicate NoChld(frames: seq<Frame>) { forall i :: 0 <= i < |frames| ==> !frames[i].Chld? }

  /** kill(c, SIGUSR2) */
  function Permit(children: seq<Child>, c: nat): (r: seq<Child>)
    ensures |r| == |children|
  {
    if c < |children| then children[c := children[c].(usr2 := true, permits := children[c].permits + 1)] else children
  }

  /** One step of the handler on top of the stack. */
  function StepHandler(s: State): Option<State> {
    var p := s.parent;
    if p.frames == [] then None
    else
      var last := |p.frames| - 1;
      match p.frames[last]
      case Usr1(c, Record) =>
        var k := p.k + 1;
        var phase := if k > s.K then Single else if k == s.K then Bulk(0) else Post;
        if p.k < s.K && p.k >= |p.buf| then None
        else
          Some(s.(parent := p.(buf := if p.k < s.K then p.buf[p.k := c] else p.buf, k := k,
                               handled := p.handled + [c], frames := p.frames[last := Usr1(c, phase)])))
      case Usr1(c, Bulk(l)) =>
        if l < p.k
        then
          if l >= |p.buf| then None
          else
            Some(s.(children := Permit(s.children, p.buf[l]),
                    parent := p.(frames := p.frames[last := Usr1(c, Bulk(l + 1))])))
        else Some(s.(parent := p.(frames := p.frames[last := Usr1(c, Post)])))
      case Usr1(c, Single) =>
        Some(s.(children := Permit(s.children, c), parent := p.(frames := p.frames[last := Usr1(c, Post)])))
      case Usr1(c, Post) => Some(s.(sem := s.sem + 1, parent := p.(frames := p.frames[..last])))
      case Chld(c, false) => None
      case Chld(c, true) => Some(s.(sem := s.sem + 1, parent := p.(frames := p.frames[..last])))
  }

  function StepReap(s: State, c: nat): Option<State> {
    var p := s.parent;
    if p.frames == [] || c >= |s.children| || s.children[c].pc != Zombie then None
    else
      var last := |p.frames| - 1;
      match p.frames[last]
      case Chld(d, false) =>
        Some(s.(children := s.children[c := s.children[c].(pc := Reaped)],
                parent := p.(frames := p.frames[last := Chld(d, true)])))
      case _ => None
  }

  /** A child's step on its own fields: whether it takes the token (-1) or gives it (+1). */
  function StepChild(ch: Child): Option<(Child, int)> {
    match ch.handler
    case WantsToken => Some((ch.(handler := HasToken), -1))
    case HasToken => Some((ch.(handler := Reported, worked := true), 0))
    case Reported => Some((ch.(handler := NoHandler, pc := if ch.pc == Paused then WantsExit else ch.pc), 1))
    case NoHandler =>
      match ch.pc
      case Asleep => Some((ch.(pc := WantsRequest), 0))
      case WantsRequest => Some((ch.(pc := Requesting), -1))
      case Requesting => Some((ch.(pc := Requested), 0))
      case Requested => Some((ch.(pc := Paused), 0))
      case Paused => None
      case WantsExit => Some((ch.(pc := Exiting), -1))
      case Exiting => Some((ch.(pc := Zombie), 0))
      case Zombie => None
      case Reaped => None
  }

  /** The signal child c sends to the parent in this step. */
  function Signalled(p: Parent, ch: Child, c: nat): Parent {
    if ch.handler == HasToken then p.(rt := p.rt + 1)
    else if ch.handler != NoHandler then p
    else if ch.pc == Requesting then p.(usr1 := if p.usr1.None? then Some(c) else p.usr1)
    else if ch.pc == Exiting then p.(chld := if p.chld.None? then Some(c) else p.chld)
    else p
  }

  function StepOfChild(s: State, c: nat): Option<State> {
    if c >= |s.children| then None
    else
      match StepChild(s.children[c])
      case None => None
      case Some(t) =>
        if s.sem + t.1 < 0 then None
        else
          Some(s.(sem := s.sem + t.1, children := s.children[c := t.0], parent := Signalled(s.parent, s.children[c], c)))
  }

  /** SIGUSR2 finds its child between its request and its end, in pause or before it. */
  function StepUsr2(s: State, c: nat): Option<State> {
    if c >= |s.children| || !s.children[c].usr2 || s.children[c].handler != NoHandler then None
    else Some(s.(children := s.children[c := s.children[c].(usr2 := false, handler := WantsToken)]))
  }

  function Next(s: State, a: Action): Option<State> {
    var p := s.parent;
    if p.main == Over then None
    else
      match a
      case MainMoves => StepMain(s)
      case TakeUsr1 =>
        if p.usr1.Some? && NoUsr1(p.frames)
        then Some(s.(parent := p.(usr1 := None, frames := p.frames + [Usr1(p.usr1.value, Record)], main := Wake(p.main))))
        else None
      case TakeChld =>
        if p.chld.Some? && NoChld(p.frames)
        then Some(s.(parent := p.(chld := None, frames := p.frames + [Chld(p.chld.value, false)], main := Wake(p.main))))
        else None
      case TakeRt =>
        if p.rt > 0 then Some(s.(parent := p.(rt := p.rt - 1, n := p.n + 1, main := Wake(p.main)))) else None
      case HandlerMoves => StepHandler(s)
      case Reap(c) => StepReap(s, c)
      case ChildMoves(c) => StepOfChild(s, c)
      case TakeUsr2(c) => StepUsr2(s, c)
  }

  /** The semaphore starts at 1 and the parent has taken it before the first fork. */
  function Init(N: nat, K: nat): State {
    State(N, K, 0, Parent(Forking, [], None, None, 0, 0, 0, seq(N, _ => 0), []), [])
  }
}
