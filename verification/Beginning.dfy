/** Whether the frames to the controller begin with New: exactly when they must. */
module Beginning {
  import opened Frames
  import opened Session
  import C = ControllerProtocol
  import E = Effects
  import Growth
  import Snapshots
  import P = Progress
  import F = Finish

  predicate NewFirst(w: seq<ControllerFrame>) {
    w != [] ==> w[0].New?
  }

  /** On an empty wire nothing but New can come next: the stream is dead, registration is about to send, or the
      loop has ended. */
  predicate OnlyNew(s: Session) {
    !s.bc.stream.Live() || s.th.h == InRegister(RegisterSend) || s.th.l.LEnded?
  }

  ghost predicate BeginsWell(s: Session) {
    C.Inv(s) && NewFirst(s.bc.stream.wire) && (s.bc.stream.wire == [] ==> OnlyNew(s))
  }

  /** The first frame of any wire is New or Completed. */
  lemma FirstIs(s: Session)
    requires C.Inv(s) && |s.bc.stream.wire| == 1
    ensures s.bc.stream.wire[0].New? || s.bc.stream.wire[0].Completed?
  {
    hide C.Fits, C.WantOf, C.PastCompleted;
    var w := s.bc.stream.wire;
    assert w[..0] == [] && C.Scan([]) == C.Start;
    assert C.Scan(w) == C.Next(C.Start, w[0]);
  }

  /** While registration is about to send, finish does not hold `b.m`. */
  lemma NotReporting(s: Session)
    requires C.Inv(s) && s.th.h == InRegister(RegisterSend)
    ensures !s.th.l.SendCompleted?
  {
    hide C.Scan;
  }

  /** Registration's own step, and the steps of the others while it is about to send. */
  lemma StaysFirst(s: Session, a: Action)
    requires C.Inv(s) && s.bc.stream.wire == [] && OnlyNew(s) && Step(s, a).bc.stream.wire == []
    ensures OnlyNew(Step(s, a))
  {
    hide C.Inv, HandlerStep, TransportStep, LoopStep, ReceiverStep, WatchStep;
    if s.th.l.Holds() && s.th.h == InRegister(RegisterSend) { NoLoop(s); }
    if !s.bc.stream.Live() { Snapshots.SameCompleted(s, a); }
    match a
    case ByHandler(e) => if s.bc.stream.Live() { HandlerFirst(s, e); }
    case ByTransport(e) => E.TransportMeans(s, e);
    case ByLoop(pick, e) => E.LoopMeans(s, pick, e); EndedStays(s, pick, e);
    case ByReceiver(e) => E.ReceiverMeans(s, e);
    case _ =>
  }

  lemma NoLoop(s: Session)
    requires C.Inv(s) && s.th.h == InRegister(RegisterSend)
    ensures !s.th.l.Holds()
  {
    hide C.Scan;
  }

  lemma HandlerFirst(s: Session, e: Env)
    requires s.bc.stream.Live() && OnlyNew(s)
    ensures HandlerStep(s, e).bc.stream.wire != [] || OnlyNew(HandlerStep(s, e))
  {
    hide HandlerStep;
    Growth.ByHandler(s, e);
    if s.th.h == InRegister(RegisterSend) { Sends(s, e); }
  }

  lemma Sends(s: Session, e: Env)
    requires s.th.h == InRegister(RegisterSend) && s.bc.stream.Live()
    ensures var t := HandlerStep(s, e); t.bc.stream.wire != [] || !t.bc.stream.Live()
  {
  }

  lemma EndedStays(s: Session, pick: Pick, e: Env)
    ensures s.th.l.LEnded? ==> LoopStep(s, pick, e) == s
  {
    hide SelectStep;
  }

  lemma BeginsStep(s: Session, a: Action)
    requires BeginsWell(s)
    ensures BeginsWell(Step(s, a))
  {
    hide C.Inv, Step, OnlyNew;
    var w, v := s.bc.stream.wire, Step(s, a).bc.stream.wire;
    C.Kept(s, a);
    Growth.ByStep(s, a);
    if v == [] {
      StaysFirst(s, a);
    } else if w == [] {
      FirstIs(Step(s, a));
      NoCompleted(s, a);
      assert v[0] in v;
    } else {
      assert v[0] == v[..|w|][0];
    }
  }

  lemma NoCompleted(s: Session, a: Action)
    requires C.Inv(s) && OnlyNew(s)
    ensures forall f :: f in Step(s, a).bc.stream.wire && f.Completed? ==> f in s.bc.stream.wire
  {
    hide C.Inv, Step;
    if s.th.h == InRegister(RegisterSend) { NotReporting(s); }
    Snapshots.SameCompleted(s, a);
  }

  lemma {:induction false} BeginsForever(s: Session, actions: seq<Action>)
    requires BeginsWell(s)
    ensures NewFirst(P.Exec(s, actions).bc.stream.wire)
    decreases |actions|
  {
    hide Step, C.Inv, OnlyNew;
    if actions != [] {
      BeginsStep(s, actions[0]);
      BeginsForever(Step(s, actions[0]), actions[1..]);
    }
  }

  // ---------- otherwise Completed can come first ----------

  const GO := Env(true, [], More, 0, false, true)

  /** The client leaves and finish reports. */
  function ToReport(s: Session): Action {
    if s.th.l.Select? then (if s.clientGone then ByLoop(OnClientGone, GO) else ClientLeaves) else ByLoop(OnDone, GO)
  }

  function StepsToReport(s: Session): nat {
    2 * P.LoopLeft(s.th.l) + if s.clientGone then 0 else 1
  }

  ghost predicate Unbegun(s: Session) {
    C.Inv(s) && s.bc.stream.wire == [] && !OnlyNew(s)
  }

  /** Nobody holds `b.m` but finish, and it has not yet sent anything. */
  lemma UnbegunMeans(s: Session)
    requires Unbegun(s)
    ensures !s.th.l.Holds() ==> s.bc.owner.None?
    ensures s.th.l.Select? || s.th.l.Want? || s.th.l.Held? || s.th.l.HeldError? || s.th.l.SendCompleted?
  {
    assert C.Scan([]) == C.Start;
    hide C.Scan;
    match s.bc.owner
    case None =>
    case Some(me) => assert me.Handler? || me.Loop? || me.Receiver? || me.Disconnect?;
  }

  lemma ReportStep(s: Session)
    requires s.bc.stream.wire == [] && !OnlyNew(s) && (!s.th.l.Holds() ==> s.bc.owner.None?)
    requires s.th.l.Select? || s.th.l.Want? || s.th.l.Held? || s.th.l.HeldError? || s.th.l.SendCompleted?
    ensures var t := Step(s, ToReport(s));
            if s.th.l.SendCompleted? then t.bc.stream.wire != [] && t.bc.stream.wire[0].Completed?
            else t.bc.stream.wire == [] && !OnlyNew(t) && StepsToReport(t) < StepsToReport(s)
  {
  }

  lemma {:induction false} CompletedComes(s: Session) returns (actions: seq<Action>)
    requires Unbegun(s)
    ensures !NewFirst(P.Exec(s, actions).bc.stream.wire)
    decreases StepsToReport(s)
  {
    hide Step, P.Exec, C.Inv, OnlyNew, StepsToReport;
    var a := ToReport(s);
    UnbegunMeans(s);
    ReportStep(s);
    F.OneStep(s, a);
    actions := [a];
    if !s.th.l.SendCompleted? {
      C.Kept(s, a);
      var rest := CompletedComes(Step(s, a));
      actions := [a] + rest;
      P.ExecAppend(s, [a], rest);
    }
  }

  /** Nothing has been sent to the controller yet. In every continuation the first frame is New if and only if the
      stream is dead, registration holds `b.m` and is about to send, or the loop has ended. */
  lemma BeginsWithNewIff(schedule: seq<Action>)
    requires Run(schedule).bc.stream.wire == []
    ensures (forall more :: NewFirst(Run(schedule + more).bc.stream.wire)) <==> OnlyNew(Run(schedule))
  {
    hide Run, Step, P.Exec, C.Inv, OnlyNew;
    var s := Run(schedule);
    C.Always(schedule);
    if OnlyNew(s) {
      forall more ensures NewFirst(Run(schedule + more).bc.stream.wire) {
        BeginsForever(s, more);
        P.RunThenExec(schedule, more);
      }
    } else {
      var more := CompletedComes(s);
      P.RunThenExec(schedule, more);
      assert !NewFirst(Run(schedule + more).bc.stream.wire);
    }
  }
}
