/** Status code and error in the Completed frame of a session without an outcome: exactly when they differ. */
module Snapshots {
  import opened Frames
  import opened Session
  import opened LogWrites
  import E = Effects
  import C = ControllerProtocol
  import Growth
  import Opening
  import P = Progress
  import F = Finish
  import T = SessionTheorems

  // ---------- the log of a cancelled session ----------

  /** finish, without an outcome, is on its way to sending the log. */
  predicate Cancelling(s: Session) {
    s.bc.complete.None? && (s.th.l.Held? || s.th.l.HeldError? || s.th.l.SendCompleted?)
  }

  /** What finish has written so far is still there. */
  predicate Written(s: Session) {
    match s.th.l
    case Held => true
    case HeldError => s.rc.log.status == CANCELED_BY_BROWSER
    case _ => Agrees(s.rc.log)
  }

  /** The log will agree when it is sent. */
  ghost predicate Settled(s: Session) {
    Cancelling(s) && Written(s) && !CanWriteStatus(s)
  }

  /** finish, without an outcome, will send a log that agrees, or has sent one. */
  ghost predicate Good(s: Session) {
    && C.Inv(s) && !s.th.l.Select? && !s.th.l.Want?
    && (s.th.l.Held? || s.th.l.HeldError? || s.th.l.SendCompleted? ==> Settled(s))
    && (forall f :: f in s.bc.stream.wire && f.Completed? ==> Agrees(f.log))
  }

  lemma OwnedByLoop(s: Session)
    requires C.Inv(s) && s.th.l.Holds()
    ensures s.bc.owner == Some(Loop) && !s.th.h.HoldsController()
  {
    hide C.Scan;
  }

  /** A step of the controller's stream that adds no Completed frame, and nothing at all once it is dead. */
  ghost predicate Notice(st: Stream<ControllerFrame>, st': Stream<ControllerFrame>) {
    && (forall f :: f in st'.wire && f.Completed? ==> f in st.wire)
    && (!st.Live() ==> !st'.Live() && st'.wire == st.wire)
  }

  /** Only the loop puts a Completed on the wire. */
  lemma SameCompleted(s: Session, a: Action)
    requires !(a.ByLoop? && s.th.l.SendCompleted? && s.bc.stream.Live())
    ensures Notice(s.bc.stream, Step(s, a).bc.stream)
  {
    hide HandlerStep, TransportStep, CancelStep, SelectStep;
    match a
    case ByHandler(e) => HandlerNotices(s, e);
    case ByTransport(e) => E.TransportMeans(s, e);
    case ByLoop(pick, e) => if s.th.l.Select? { SelectNotices(s, pick); }
    case _ =>
  }

  lemma SelectNotices(s: Session, pick: Pick)
    ensures SelectStep(s, pick).bc.stream == s.bc.stream
  {
  }

  lemma HandlerNotices(s: Session, e: Env)
    ensures Notice(s.bc.stream, HandlerStep(s, e).bc.stream)
  {
    hide AfterChunk, CancelStep, RequestStep, ResponseStep, BodyStep, MetaStep;
    match s.th.h
    case InRequest(pc) => RequestNotices(s, pc, e);
    case InResponse(pc) => ResponseNotices(s, pc, e);
    case InBody(pc) => BodyNotices(s, pc, e);
    case InMeta(pc) => MetaNotices(s, pc, e);
    case _ =>
  }

  lemma RequestNotices(s: Session, pc: RequestPc, e: Env)
    ensures RequestStep(s, pc, e).bc == s.bc
  {
  }

  lemma ResponseNotices(s: Session, pc: ResponsePc, e: Env)
    ensures ResponseStep(s, pc, e).bc == s.bc
  {
  }

  lemma BodyNotices(s: Session, pc: BodyPc, e: Env)
    ensures Notice(s.bc.stream, BodyStep(s, pc, e).bc.stream)
  {
  }

  lemma MetaNotices(s: Session, pc: MetaPc, e: Env)
    ensures Notice(s.bc.stream, MetaStep(s, pc, e).bc.stream)
  {
  }

  lemma {:induction false} DeadForever(s: Session, actions: seq<Action>)
    requires !s.bc.stream.Live()
    ensures P.Exec(s, actions).bc.stream.wire == s.bc.stream.wire
    decreases |actions|
  {
    hide Step;
    if actions != [] {
      SameCompleted(s, actions[0]);
      DeadForever(Step(s, actions[0]), actions[1..]);
    }
  }

  lemma SentMeans(s: Session)
    requires C.Inv(s) && s.th.l.SendCompleted? && s.bc.complete.None?
    ensures s.rc.log.error == CANCELED_BY_BROWSER
  {
    hide C.Scan;
  }

  lemma GoodStep(s: Session, a: Action)
    requires Good(s)
    ensures Good(Step(s, a))
  {
    hide C.Inv, Settled, HandlerStep, TransportStep, LoopStep, ReceiverStep, DisconnectStep, PeerStep;
    C.Kept(s, a);
    if a.ByLoop? {
      GoodLoop(s, a.pick, a.e);
    } else {
      SameCompleted(s, a);
      LoopAlone(s, a);
      if s.th.l.Held? || s.th.l.HeldError? || s.th.l.SendCompleted? { GoodOthers(s, a); }
    }
  }

  lemma LoopAlone(s: Session, a: Action)
    requires !a.ByLoop?
    ensures Step(s, a).th.l == s.th.l && Step(s, a).bc.complete == s.bc.complete
  {
    hide HandlerStep, TransportStep, CancelStep;
    match a
    case ByHandler(e) => Growth.ByHandler(s, e);
    case ByTransport(e) => E.TransportMeans(s, e);
    case _ =>
  }

  lemma GoodLoop(s: Session, pick: Pick, e: Env)
    requires Good(s)
    ensures var t := LoopStep(s, pick, e);
            && !t.th.l.Select? && !t.th.l.Want?
            && (t.th.l.Held? || t.th.l.HeldError? || t.th.l.SendCompleted? ==> Settled(t))
            && forall f :: f in t.bc.stream.wire && f.Completed? ==> Agrees(f.log)
  {
    hide C.Inv, SelectStep;
  }

  lemma GoodOthers(s: Session, a: Action)
    requires Good(s) && (s.th.l.Held? || s.th.l.HeldError? || s.th.l.SendCompleted?) && !a.ByLoop?
    ensures Settled(Step(s, a))
  {
    hide C.Inv, CanWriteStatus, HandlerStep, TransportStep, ReceiverStep, DisconnectStep, PeerStep, Step;
    OwnedByLoop(s);
    NotEditing(s.th.h);
    if s.th.l.SendCompleted? { SentMeans(s); }
    LoopAlone(s, a);
    assert !CanWriteStatus(Step(s, a)) && Tame(s.rc.log, Step(s, a).rc.log) by { QuietStep(s, a); }
  }

  lemma NotEditing(h: HandlerPc)
    requires !h.HoldsController()
    ensures !Edits(h) && h != InRegister(RegisterWait)
  {
  }

  lemma QuietStep(s: Session, a: Action)
    requires !CanWriteStatus(s) && !Edits(s.th.h) && s.th.h != InRegister(RegisterWait) && !s.th.l.Drain? && !a.ByLoop?
    ensures !CanWriteStatus(Step(s, a)) && Tame(s.rc.log, Step(s, a).rc.log)
  {
    hide CanWriteStatus, HandlerStep, TransportStep, ReceiverStep, DisconnectStep, PeerStep;
    match a
    case ByHandler(e) => QuietHandler(s, e);
    case ByReceiver(e) => QuietReceiver(s, e);
    case _ => QuietOthers(s, a);
  }

  lemma {:induction false} GoodForever(s: Session, actions: seq<Action>)
    requires Good(s)
    ensures Good(P.Exec(s, actions))
    decreases |actions|
  {
    hide Step, Good;
    if actions != [] {
      GoodStep(s, actions[0]);
      GoodForever(Step(s, actions[0]), actions[1..]);
    }
  }

  // ---------- the exact condition ----------

  predicate CompletedAgrees(w: seq<ControllerFrame>) {
    forall f :: f in w && f.Completed? ==> Agrees(f.log)
  }

  /** finish has taken `b.m` in a session without an outcome. In every continuation the status code in its
      Completed frame equals the error, if and only if what finish has written so far is still in the log and
      the handler can no longer write a status code, or the stream is dead and nothing is reported at all. */
  lemma CompletedAgreesIff(schedule: seq<Action>)
    requires Cancelling(Run(schedule))
    ensures (forall more :: CompletedAgrees(Run(schedule + more).bc.stream.wire))
            <==> (Written(Run(schedule)) && !CanWriteStatus(Run(schedule))) || !Run(schedule).bc.stream.Live()
  {
    hide Run, Step, P.Exec, C.Inv, CanWriteStatus;
    var s := Run(schedule);
    C.Always(schedule);
    NoneSent(schedule);
    if !s.bc.stream.Live() {
      forall more ensures CompletedAgrees(Run(schedule + more).bc.stream.wire) {
        DeadForever(s, more);
        P.RunThenExec(schedule, more);
      }
    } else if Settled(s) {
      forall more ensures CompletedAgrees(Run(schedule + more).bc.stream.wire) {
        GoodForever(s, more);
        P.RunThenExec(schedule, more);
        GoodMeans(P.Exec(s, more));
      }
    } else {
      var more := Disagrees(schedule);
      assert !CompletedAgrees(Run(schedule + more).bc.stream.wire);
    }
  }

  lemma GoodMeans(s: Session)
    requires Good(s)
    ensures CompletedAgrees(s.bc.stream.wire)
  {
  }

  lemma NoneSent(schedule: seq<Action>)
    requires Cancelling(Run(schedule))
    ensures forall f :: f in Run(schedule).bc.stream.wire ==> !f.Completed?
  {
    C.Always(schedule);
    var s := Run(schedule);
    hide Run;
    T.ScanIsLegal(s.bc.stream.wire);
    NotFinished(s);
    var w := s.bc.stream.wire;
    forall f | f in w ensures !f.Completed? {
      var i :| 0 <= i < |w| && w[i] == f;
      assert T.LegalAt(w, i);
    }
  }

  lemma NotFinished(s: Session)
    requires C.Inv(s) && Cancelling(s)
    ensures !C.Scan(s.bc.stream.wire).Bad? && !C.Scan(s.bc.stream.wire).Finished?
  {
    hide C.Scan;
  }

  lemma {:induction false} Disagrees(schedule: seq<Action>) returns (more: seq<Action>)
    requires var s := Run(schedule); Cancelling(s) && s.bc.stream.Live() && !Settled(s)
    ensures !CompletedAgrees(Run(schedule + more).bc.stream.wire)
    decreases P.LoopLeft(Run(schedule).th.l)
  {
    hide Run, Step, P.Exec, CanWriteStatus;
    var a := Action.ByLoop(OnDone, OK_200);
    if Run(schedule).th.l.SendCompleted? {
      more := DisagreesNow(schedule);
    } else {
      var next := schedule + [a];
      P.RunThenExec(schedule, [a]);
      F.OneStep(Run(schedule), a);
      StillUnsettled(Run(schedule), a);
      var rest := Disagrees(next);
      more := [a] + rest;
      assert schedule + more == next + rest;
    }
  }

  lemma StillUnsettled(s: Session, a: Action)
    requires Cancelling(s) && !s.th.l.SendCompleted? && s.bc.stream.Live() && !Settled(s)
    requires a == Action.ByLoop(OnDone, OK_200)
    ensures var t := Step(s, a);
            Cancelling(t) && t.bc.stream.Live() && !Settled(t) && P.LoopLeft(t.th.l) < P.LoopLeft(s.th.l)
  {
  }

  lemma DisagreesNow(schedule: seq<Action>) returns (more: seq<Action>)
    requires var s := Run(schedule); s.th.l.SendCompleted? && s.bc.complete.None? && s.bc.stream.Live() && !Settled(s)
    ensures !CompletedAgrees(Run(schedule + more).bc.stream.wire)
  {
    hide Run, Step, P.Exec, CanWriteStatus, C.Inv, Opening.Inv;
    var s := Run(schedule);
    C.Always(schedule);
    Opening.Always(schedule);
    SentMeans(s);
    var send := Action.ByLoop(OnDone, OK_200);
    more := [];
    if Agrees(s.rc.log) {
      var first := CancelComes(s);
      var second := StatusComes(P.Exec(s, first));
      P.ExecAppend(s, first, second);
      more := first + second;
    } else {
      Nothing(s);
    }
    var t := P.Exec(s, more);
    F.OneStep(t, send);
    P.ExecAppend(s, more, [send]);
    P.RunThenExec(schedule, more + [send]);
    SendsIt(t, send);
    more := more + [send];
  }

  lemma SendsIt(s: Session, a: Action)
    requires s.th.l.SendCompleted? && s.bc.complete.None? && s.bc.stream.Live() && !Agrees(s.rc.log)
    requires a == Action.ByLoop(OnDone, OK_200)
    ensures !CompletedAgrees(Step(s, a).bc.stream.wire)
  {
    var w := Step(s, a).bc.stream.wire;
    assert w[|w| - 1] in w;
  }
}
