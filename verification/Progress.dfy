/** The measure of finish once it holds `b.m`, and the runs in which it never reaches cancel(). */
module Progress {
  import opened Session
  import E = Effects
  import C = ControllerProtocol
  import Growth

  // ---------- the measure ----------

  function LoopLeft(l: LoopPc): nat {
    match l
    case Select => 10
    case Want => 9
    case Held => 8
    case HeldError => 7
    case SendCompleted => 6
    case CloseCompleted => 5
    case Drain => 4
    case Clear => 3
    case Count => 2
    case CancelCtx => 1
    case LEnded => 0
  }

  function ReceiverLeft(r: ReceiverPc): nat {
    match r
    case Deliver(_) => 4
    case Recv => 3
    case DeliverLast(_) => 2
    case RClose => 1
    case _ => 0
  }

  /** Steps left for finish, the receiver and a peer that has not yet ended its stream. */
  function Left(s: Session): nat {
    LoopLeft(s.th.l) + ReceiverLeft(s.th.r) + 2 * |s.bc.peer.inbox| + if s.bc.peer.ended.None? then 1 else 0
  }

  /** The receiver is, or will be, busy handing a completion message to a loop that no longer listens. */
  predicate Doomed(s: Session) {
    s.th.r.Aborting() || ((s.th.r.Recv? || s.th.r.Deliver?) && Abort in s.bc.peer.inbox)
  }

  /** The peer says more than it had to say. */
  predicate Disturbing(s: Session, a: Action) {
    a.PeerReplies? && s.bc.peer.ended.None?
  }

  /** The peer does not cancel. */
  predicate Considerate(s: Session, a: Action) {
    a == PeerReplies(Abort) ==> s.bc.peer.ended.Some?
  }

  /** The receiver has nothing to do until the peer ends its stream. */
  predicate Idle(s: Session) {
    s.th.r.Recv? && s.bc.peer.inbox == [] && s.bc.peer.ended.None?
  }

  /** finish holds `b.m` and its end of msgChan is fed by a receiver that can end, or it is done. */
  ghost predicate Finishing(s: Session) {
    && C.Inv(s)
    && !Doomed(s)
    && (s.th.l.Holds() || s.bc.ctxDone)
    && (s.bc.ctxDone ==> s.th.l.LEnded?)
    && (s.th.r.REnded? ==> s.bc.peer.chanClosed)
  }

  // ---------- every step keeps it and none increases the measure ----------

  lemma ByHandler(s: Session, e: Env)
    requires Finishing(s)
    ensures var t := HandlerStep(s, e); Finishing(t) && Left(t) == Left(s)
  {
    hide C.Inv, HandlerStep;
    C.KeptByHandler(s, e);
    Growth.ByHandler(s, e);
  }

  /** What a step of the receiver does to the measure. */
  ghost predicate Receives(s: Session, t: Session) {
    && !Doomed(t) && t.bc.peer.ended == s.bc.peer.ended && Left(t) <= Left(s)
    && t.th.l == s.th.l && t.bc.ctxDone == s.bc.ctxDone
    && (s.bc.peer.chanClosed ==> t.bc.peer.chanClosed) && (t.th.r.REnded? ==> t.bc.peer.chanClosed)
    && (s.th.l.Drain? && !s.bc.peer.chanClosed && !Idle(s) ==> Left(t) < Left(s))
    && (Left(t) == Left(s) ==> Idle(t) == Idle(s) && t.bc.peer.chanClosed == s.bc.peer.chanClosed)
  }

  lemma ByRecv(s: Session)
    requires s.th.r.Recv? && !Doomed(s)
    ensures Receives(s, RecvStep(s))
  {
    if s.bc.peer.inbox != [] { assert s.bc.peer.inbox == [s.bc.peer.inbox[0]] + s.bc.peer.inbox[1..]; }
  }

  lemma ByOffer(s: Session, e: Env)
    requires (s.th.r.Deliver? || s.th.r.DeliverLast?) && !Doomed(s)
    requires s.th.l.Holds() ==> s.th.h != InRegister(RegisterWait)
    ensures Receives(s, ReceiverStep(s, e))
  {
    hide RecvStep, CancelStep;
  }

  lemma ByReceiver(s: Session, e: Env)
    requires Finishing(s)
    ensures var t := ReceiverStep(s, e); Finishing(t) && Receives(s, t)
  {
    hide C.Inv, CancelStep, RecvStep, Offer, Receives, Left, Doomed;
    C.Kept(s, Action.ByReceiver(e));
    if s.th.l.Holds() { NotWaiting(s); }
    if s.th.r.Recv? { ByRecv(s); }
    else if s.th.r.Deliver? || s.th.r.DeliverLast? { ByOffer(s, e); }
    else { ByClosing(s, e); }
    ReceivesMeans(s, ReceiverStep(s, e));
  }

  lemma ReceivesMeans(s: Session, t: Session)
    requires Receives(s, t)
    ensures !Doomed(t) && t.bc.peer.ended == s.bc.peer.ended && t.th.l == s.th.l && t.bc.ctxDone == s.bc.ctxDone
    ensures t.th.r.REnded? ==> t.bc.peer.chanClosed
  {
    hide Doomed, Left;
  }

  lemma ByClosing(s: Session, e: Env)
    requires !s.th.r.Recv? && !s.th.r.Deliver? && !s.th.r.DeliverLast? && !Doomed(s)
    requires s.th.r.REnded? ==> s.bc.peer.chanClosed
    ensures Receives(s, ReceiverStep(s, e))
  {
    hide CancelStep, RecvStep;
  }

  lemma NotWaiting(s: Session)
    requires C.Inv(s) && s.th.l.Holds()
    ensures !s.th.h.HoldsController() && s.th.h != InRegister(RegisterWait)
  {
    hide C.Scan;
  }

  lemma ByLoop(s: Session, pick: Pick, e: Env)
    requires Finishing(s)
    ensures var t := LoopStep(s, pick, e);
            && Finishing(t) && Left(t) <= Left(s) && (s.bc.ctxDone ==> t.bc.ctxDone)
            && (s.th.l.Drain? && !s.bc.peer.chanClosed ==> t == s)
            && (!s.bc.ctxDone && (!s.th.l.Drain? || s.bc.peer.chanClosed) ==> Left(t) < Left(s))
  {
    hide C.Inv, LoopStep, Doomed;
    C.Kept(s, Action.ByLoop(pick, e));
    LoopMoves(s, pick, e);
    SameReceiver(s, LoopStep(s, pick, e));
  }

  lemma LoopMoves(s: Session, pick: Pick, e: Env)
    requires s.th.l.Holds() || s.th.l.LEnded?
    ensures var t := LoopStep(s, pick, e);
            && t.th.r == s.th.r && t.bc.peer == s.bc.peer && (t.th.l.Holds() || t.bc.ctxDone || t == s)
            && (s.bc.ctxDone ==> t.bc.ctxDone) && (t.bc.ctxDone ==> t.th.l.LEnded? || t.bc.ctxDone == s.bc.ctxDone)
            && (s.th.l.LEnded? ==> t == s)
            && (s.th.l.Drain? && !s.bc.peer.chanClosed ==> t == s)
            && (s.th.l.Holds() && (!s.th.l.Drain? || s.bc.peer.chanClosed) ==> LoopLeft(t.th.l) < LoopLeft(s.th.l))
  {
    hide SelectStep;
  }

  lemma SameReceiver(s: Session, t: Session)
    requires t.th.r == s.th.r && t.bc.peer == s.bc.peer
    ensures Doomed(t) == Doomed(s)
  {
  }

  lemma ByOthers(s: Session, a: Action)
    requires Finishing(s) && !a.ByHandler? && !a.ByLoop? && !a.ByReceiver? && Considerate(s, a)
    ensures var t := Step(s, a);
            && Finishing(t) && Leaves(s, t) && Left(t) <= Left(s) + (if Disturbing(s, a) then 2 else 0)
            && (!Disturbing(s, a) && Left(t) == Left(s) ==> Idle(t) == Idle(s) && (a.PeerEnds? ==> s.bc.peer.ended.Some?))
  {
    hide C.Inv, TransportStep;
    C.Kept(s, a);
    if a.ByTransport? { E.TransportMeans(s, a.e); }
  }

  /** The loop's and the receiver's progress are untouched. */
  ghost predicate Leaves(s: Session, t: Session) {
    t.th.l == s.th.l && t.bc.peer.chanClosed == s.bc.peer.chanClosed && t.bc.ctxDone == s.bc.ctxDone
  }

  /** The loop can move. */
  predicate LoopFree(s: Session) {
    !s.th.l.Drain? || s.bc.peer.chanClosed
  }

  lemma Kept(s: Session, a: Action)
    requires Finishing(s) && Considerate(s, a)
    ensures var t := Step(s, a);
            && Finishing(t) && Left(t) <= Left(s) + (if Disturbing(s, a) then 2 else 0) && (s.bc.ctxDone ==> t.bc.ctxDone)
            && (!Disturbing(s, a) && Left(t) == Left(s) && !s.bc.ctxDone ==>
                  !t.bc.ctxDone && LoopFree(t) == LoopFree(s) && Idle(t) == Idle(s)
                  && (a.ByLoop? ==> !LoopFree(s)) && (a.ByReceiver? ==> LoopFree(s) || Idle(s))
                  && (a.PeerEnds? ==> s.bc.peer.ended.Some?))
  {
    hide Finishing, Left, Idle, HandlerStep, TransportStep, LoopStep, ReceiverStep;
    match a
    case ByHandler(e) => HandlerKept(s, e);
    case ByLoop(pick, e) => LoopKept(s, pick, e);
    case ByReceiver(e) => ReceiverKept(s, e);
    case _ => ByOthers(s, a);
  }

  lemma HandlerKept(s: Session, e: Env)
    requires Finishing(s)
    ensures var t := HandlerStep(s, e); Finishing(t) && Left(t) == Left(s) && Leaves(s, t) && Idle(t) == Idle(s)
  {
    hide Finishing, Left, HandlerStep;
    ByHandler(s, e);
    Growth.ByHandler(s, e);
  }

  lemma LoopKept(s: Session, pick: Pick, e: Env)
    requires Finishing(s)
    ensures var t := LoopStep(s, pick, e);
            && Finishing(t) && Left(t) <= Left(s) && (s.bc.ctxDone ==> t.bc.ctxDone)
            && (Left(t) == Left(s) && !s.bc.ctxDone ==> t == s && !LoopFree(s))
  {
    hide C.Inv, LoopStep;
    ByLoop(s, pick, e);
  }

  lemma ReceiverKept(s: Session, e: Env)
    requires Finishing(s)
    ensures var t := ReceiverStep(s, e);
            && Finishing(t) && Left(t) <= Left(s) && t.bc.ctxDone == s.bc.ctxDone
            && (Left(t) == Left(s) && !s.bc.ctxDone ==>
                  LoopFree(t) == LoopFree(s) && Idle(t) == Idle(s) && (LoopFree(s) || Idle(s)))
  {
    hide C.Inv, ReceiverStep;
    ByReceiver(s, e);
  }

  // ---------- continuing a run ----------

  function Exec(s: Session, actions: seq<Action>): Session
    decreases |actions|
  {
    if actions == [] then s else Exec(Step(s, actions[0]), actions[1..])
  }

  lemma {:induction false} RunThenExec(schedule: seq<Action>, more: seq<Action>)
    ensures Run(schedule + more) == Exec(Run(schedule), more)
    decreases |more|
  {
    hide Step;
    if more == [] {
      assert schedule + more == schedule;
    } else {
      var next := schedule + [more[0]];
      assert next[..|next| - 1] == schedule;
      assert schedule + more == next + more[1..];
      RunThenExec(next, more[1..]);
    }
  }

  function Flatten(rounds: seq<seq<Action>>): seq<Action> {
    if rounds == [] then [] else rounds[0] + Flatten(rounds[1..])
  }

  lemma {:induction false} ExecAppend(s: Session, a: seq<Action>, b: seq<Action>)
    ensures Exec(s, a + b) == Exec(Exec(s, a), b)
    decreases |a|
  {
    hide Step;
    if a == [] {
      assert a + b == b;
    } else {
      assert (a + b)[0] == a[0] && (a + b)[1..] == a[1..] + b;
      ExecAppend(Step(s, a[0]), a[1..], b);
    }
  }

  // ---------- which runs never finish ----------

  /** Simple facts of every reachable state about the end of the receiver and of finish. */
  ghost predicate Tidy(s: Session) {
    && (s.bc.peer.chanClosed <==> s.th.r.REnded?)
    && (s.bc.ctxDone ==> s.th.l.LEnded?)
    && (s.th.l.Clear? || s.th.l.Count? || s.th.l.CancelCtx? ==> s.bc.peer.chanClosed)
    && (s.th.r.DeliverLast? || s.th.r.RClose? || s.th.r.REnded? ==> s.bc.peer.inbox == [] && s.bc.peer.ended.Some?)
  }

  lemma TidyStep(s: Session, a: Action)
    requires Tidy(s)
    ensures Tidy(Step(s, a))
  {
    hide HandlerStep, TransportStep, CancelStep, SelectStep;
    match a
    case ByHandler(e) => Growth.ByHandler(s, e);
    case ByTransport(e) => E.TransportMeans(s, e);
    case ByLoop(pick, e) => if s.th.l.Select? { SelectMeans(s, pick); }
    case _ =>
  }

  lemma SelectMeans(s: Session, pick: Pick)
    requires s.th.l.Select?
    ensures var t := SelectStep(s, pick);
            && t.bc.peer == s.bc.peer && t.bc.ctxDone == s.bc.ctxDone
            && (t.th.l.Select? || t.th.l.Want?) && (t.th.r == s.th.r || (s.th.r.RPost? && t.th.r.Recv?))
  {
  }

  lemma {:induction false} TidyAlways(schedule: seq<Action>)
    ensures Tidy(Run(schedule))
  {
    hide Step;
    if schedule != [] {
      TidyAlways(schedule[..|schedule| - 1]);
      TidyStep(Run(schedule[..|schedule| - 1]), schedule[|schedule| - 1]);
    }
  }

  /** finish waits, or will wait, for the receiver, and the receiver for the loop. */
  ghost predicate Stuck(s: Session) {
    && Tidy(s) && Doomed(s) && !s.bc.ctxDone
    && !s.th.l.Select? && !s.th.l.Clear? && !s.th.l.Count? && !s.th.l.CancelCtx?
  }

  lemma StuckStep(s: Session, a: Action)
    requires Stuck(s)
    ensures Stuck(Step(s, a))
  {
    hide HandlerStep, TransportStep, CancelStep, SelectStep, Tidy;
    TidyStep(s, a);
    assert !s.bc.peer.chanClosed by { DoomedOpen(s); }
    match a
    case ByHandler(e) => Growth.ByHandler(s, e);
    case ByTransport(e) => E.TransportMeans(s, e);
    case ByReceiver(e) => StuckReceiver(s, e);
    case _ =>
  }

  lemma DoomedOpen(s: Session)
    requires Tidy(s) && Doomed(s)
    ensures !s.bc.peer.chanClosed
  {
  }

  lemma StuckReceiver(s: Session, e: Env)
    requires Stuck(s)
    ensures var t := ReceiverStep(s, e); Doomed(t) && t.th.l == s.th.l && t.bc.ctxDone == s.bc.ctxDone
  {
    hide Tidy, CancelStep;
    var q := s.bc.peer.inbox;
    if q != [] {
      assert q == [q[0]] + q[1..];
    }
  }

  lemma {:induction false} StuckForever(s: Session, actions: seq<Action>)
    requires Stuck(s)
    ensures Stuck(Exec(s, actions))
    decreases |actions|
  {
    hide Step, Stuck;
    if actions != [] {
      StuckStep(s, actions[0]);
      StuckForever(Step(s, actions[0]), actions[1..]);
    }
  }

  /** If a cancel of the controller is in the receiver's hands or still unread when the loop takes its last
      branch, or later, finish never reaches cancel(), under any schedule. */
  lemma DoomedNeverFinishes(schedule: seq<Action>, more: seq<Action>)
    requires var s := Run(schedule); (s.th.l.Want? || s.th.l.Holds()) && Doomed(s)
    ensures !Run(schedule + more).bc.ctxDone
  {
    hide Step, Exec;
    TidyAlways(schedule);
    DoomedOpen(Run(schedule));
    StuckForever(Run(schedule), more);
    RunThenExec(schedule, more);
  }

  /** The other deadlock: the loop has taken its last branch while the handler, holding `b.m`, is on its
      way to hand it an outcome. */
  ghost predicate Crossed(s: Session) {
    s.th.l.Want? && s.th.h.InReport? && !s.th.h.rep.Report? && s.bc.owner.Some? && !s.bc.ctxDone
  }

  lemma CrossedStep(s: Session, a: Action)
    requires Crossed(s)
    ensures Crossed(Step(s, a))
  {
    hide TransportStep, CancelStep, SelectStep;
    if a.ByTransport? { E.TransportMeans(s, a.e); }
  }

  lemma {:induction false} CrossedForever(s: Session, actions: seq<Action>)
    requires Crossed(s)
    ensures Crossed(Exec(s, actions))
    decreases |actions|
  {
    hide Step;
    if actions != [] {
      CrossedStep(s, actions[0]);
      CrossedForever(Step(s, actions[0]), actions[1..]);
    }
  }

  lemma ReportingHandlerBlocksFinish(schedule: seq<Action>, more: seq<Action>)
    requires var s := Run(schedule); s.th.l.Want? && s.th.h.InReport? && !s.th.h.rep.Report?
    ensures var t := Run(schedule + more); t.th.l.Want? && t.th.h.InReport? && !t.bc.ctxDone
  {
    hide Step, Exec, C.Scan;
    C.Always(schedule);
    TidyAlways(schedule);
    CrossedForever(Run(schedule), more);
    RunThenExec(schedule, more);
  }

  /** The handler offers the loop a message, on completeChan or on done, after its last branch. */
  predicate Unheard(s: Session) {
    && !s.th.l.Select?
    && ((s.th.h.InReport? && !s.th.h.rep.Report?) || (s.th.h.InClose? && s.th.h.close.DoneSend?))
  }

  /** The handler is inside the send itself. */
  predicate Sending(h: HandlerPc) {
    (h.InReport? && h.rep.Post?) || (h.InClose? && h.close.DoneSend?)
  }

  lemma UnheardStep(s: Session, a: Action)
    requires Unheard(s)
    ensures var t := Step(s, a); Unheard(t) && (Sending(s.th.h) ==> t.th.h == s.th.h)
  {
    hide TransportStep, CancelStep, SelectStep;
    if a.ByTransport? { E.TransportMeans(s, a.e); }
  }

  lemma {:induction false} UnheardForever(s: Session, actions: seq<Action>)
    requires Unheard(s)
    ensures var t := Exec(s, actions); Unheard(t) && (Sending(s.th.h) ==> t.th.h == s.th.h)
    decreases |actions|
  {
    hide Step;
    if actions != [] {
      UnheardStep(s, actions[0]);
      UnheardForever(Step(s, actions[0]), actions[1..]);
    }
  }

  /** Nobody else reads the two channels: a handler that is about to send on one of them when the loop has
      taken its last branch never gets past the send, and so its connection never goes on. */
  lemma LateSenderWaitsForever(schedule: seq<Action>, more: seq<Action>)
    requires Unheard(Run(schedule))
    ensures var s, t := Run(schedule), Run(schedule + more);
            Unheard(t) && t.th.h != InClose(Ended) && (Sending(s.th.h) ==> t.th.h == s.th.h)
  {
    hide Step, Exec;
    UnheardForever(Run(schedule), more);
    RunThenExec(schedule, more);
  }
}
