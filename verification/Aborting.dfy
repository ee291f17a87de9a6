/** A cancel of the controller and the archive: exactly when it keeps the response out of it. */
module Aborting {
  import opened Frames
  import opened Session
  import E = Effects
  import C = ControllerProtocol
  import W = WriterProtocol
  import Growth
  import Opening
  import P = Progress
  import F = Finish

  // ---------- once cancelled before SendMeta's check, never archived ----------

  /** SendMeta has passed its check of `canceled`. */
  predicate PastCheck(h: HandlerPc) {
    h.InMeta? && (h.meta.MetaLock? || h.meta.MetaSend? || h.meta.MetaClose?)
  }

  predicate Cut(s: Session) {
    s.cw.canceled && !s.cw.acked && !PastCheck(s.th.h)
  }

  lemma CutHandler(s: Session, e: Env)
    requires Cut(s)
    ensures Cut(HandlerStep(s, e))
  {
    hide RegisterStep, RequestStep, ResponseStep, BodyStep, MetaStep, ReportStep, FailStep, CloseStep;
    match s.th.h
    case InRegister(pc) => CutRegister(s, pc, e);
    case InRequest(pc) => CutRequest(s, pc, e);
    case InResponse(pc) => CutResponse(s, pc, e);
    case InBody(pc) => CutBody(s, pc, e);
    case InMeta(pc) => CutMeta(s, pc, e);
    case InReport(p, pc) => CutReport(s, p, pc, e);
    case InFail(code, pc) => CutFail(s, code, pc, e);
    case InClose(pc) => CutClose(s, pc, e);
  }

  lemma CutRegister(s: Session, pc: RegisterPc, e: Env)
    requires Cut(s)
    ensures Cut(RegisterStep(s, pc, e))
  {
  }

  lemma CutRequest(s: Session, pc: RequestPc, e: Env)
    requires Cut(s)
    ensures Cut(RequestStep(s, pc, e))
  {
  }

  lemma CutResponse(s: Session, pc: ResponsePc, e: Env)
    requires Cut(s)
    ensures Cut(ResponseStep(s, pc, e))
  {
  }

  lemma CutBody(s: Session, pc: BodyPc, e: Env)
    requires Cut(s)
    ensures Cut(BodyStep(s, pc, e))
  {
  }

  lemma CutMeta(s: Session, pc: MetaPc, e: Env)
    requires Cut(s) && s.th.h == InMeta(pc)
    ensures Cut(MetaStep(s, pc, e))
  {
  }

  lemma CutReport(s: Session, p: Purpose, pc: ReportPc, e: Env)
    requires Cut(s)
    ensures Cut(ReportStep(s, p, pc, e))
  {
  }

  lemma CutFail(s: Session, code: int, pc: FailPc, e: Env)
    requires Cut(s)
    ensures Cut(FailStep(s, code, pc, e))
  {
  }

  lemma CutClose(s: Session, pc: ClosePc, e: Env)
    requires Cut(s)
    ensures Cut(CloseStep(s, pc, e))
  {
  }

  lemma CutStep(s: Session, a: Action)
    requires Cut(s)
    ensures Cut(Step(s, a))
  {
    hide HandlerStep, TransportStep, LoopStep, ReceiverStep, WatchStep;
    match a
    case ByHandler(e) => CutHandler(s, e);
    case ByTransport(e) => CutTransport(s, e);
    case ByLoop(pick, e) => E.LoopMeans(s, pick, e);
    case ByReceiver(e) => CutReceiver(s, e);
    case ByDisconnect(e) => CutWatch(s.cw, s.th.d, e.ok);
    case _ =>
  }

  lemma CutTransport(s: Session, e: Env)
    ensures var t := TransportStep(s, e);
            t.cw.canceled == s.cw.canceled && t.cw.acked == s.cw.acked && t.th.h == s.th.h
  {
  }

  lemma CutReceiver(s: Session, e: Env)
    ensures var t := ReceiverStep(s, e);
            (s.cw.canceled ==> t.cw.canceled) && t.cw.acked == s.cw.acked && (PastCheck(t.th.h) ==> PastCheck(s.th.h))
  {
    hide CancelStep;
    if s.th.r.RCancelling? { CancelAcksNothing(s.cw, s.th.r.at, Receiver, e.ok); }
  }

  lemma CancelAcksNothing(w: Writer, at: CancelPc, me: Thread, ok: bool)
    ensures var w' := CancelStep(w, at, me, ok).0; w'.acked == w.acked && (w.canceled ==> w'.canceled)
  {
  }

  lemma CutWatch(w: Writer, d: DisconnectPc, ok: bool)
    ensures var w' := WatchStep(w, d, ok).0; w'.canceled == w.canceled && w'.acked == w.acked
  {
  }

  lemma {:induction false} CutForever(s: Session, actions: seq<Action>)
    requires Cut(s)
    ensures Cut(P.Exec(s, actions))
    decreases |actions|
  {
    hide Step, Cut;
    if actions != [] {
      CutStep(s, actions[0]);
      CutForever(Step(s, actions[0]), actions[1..]);
    }
  }

  /** A session that is cancelled before SendMeta checks for it is not archived, however the run goes on. */
  lemma CancelledIsNotArchived(schedule: seq<Action>, more: seq<Action>)
    requires Cut(Run(schedule))
    ensures !Run(schedule + more).cw.acked
  {
    hide Run, Step, P.Exec;
    CutForever(Run(schedule), more);
    P.RunThenExec(schedule, more);
  }

  // ---------- while finish holds b.m ----------

  /** finish holds `b.m` and waits for ever, so the handler cannot get past its next notification. */
  ghost predicate Jammed(s: Session) {
    && C.Inv(s) && P.Stuck(s) && s.th.l.Holds() && !s.cw.acked
    && (s.th.h.InMeta? ==> s.th.h.meta.NotifyAll?)
  }

  lemma LoopOwns(s: Session)
    requires C.Inv(s) && s.th.l.Holds()
    ensures s.bc.owner == Some(Loop) && !s.th.h.HoldsController()
  {
    hide C.Scan;
  }

  lemma JamHandler(s: Session, e: Env)
    requires s.bc.owner.Some? && !s.th.h.HoldsController() && !s.cw.acked
    requires s.th.h.InMeta? ==> s.th.h.meta.NotifyAll?
    ensures var t := HandlerStep(s, e); !t.cw.acked && (t.th.h.InMeta? ==> t.th.h.meta.NotifyAll?)
  {
    hide RegisterStep, RequestStep, ResponseStep, BodyStep, MetaStep, CloseStep;
    match s.th.h
    case InRegister(pc) => JamRegister(s, pc, e);
    case InRequest(pc) => JamRequest(s, pc, e);
    case InResponse(pc) => JamResponse(s, pc, e);
    case InBody(pc) => JamBody(s, pc, e);
    case InMeta(pc) => assert MetaStep(s, pc, e) == s by { JamMeta(s, pc, e); }
    case InClose(pc) => JamClose(s, pc, e);
    case _ =>
  }

  lemma JamRegister(s: Session, pc: RegisterPc, e: Env)
    requires s.th.h == InRegister(pc)
    ensures var t := RegisterStep(s, pc, e); t.cw.acked == s.cw.acked && !t.th.h.InMeta?
  {
  }

  lemma JamRequest(s: Session, pc: RequestPc, e: Env)
    ensures var t := RequestStep(s, pc, e); t.cw.acked == s.cw.acked && !t.th.h.InMeta?
  {
  }

  lemma JamResponse(s: Session, pc: ResponsePc, e: Env)
    ensures var t := ResponseStep(s, pc, e); t.cw.acked == s.cw.acked && !t.th.h.InMeta?
  {
  }

  lemma JamMeta(s: Session, pc: MetaPc, e: Env)
    requires pc.NotifyAll? && s.bc.owner.Some?
    ensures MetaStep(s, pc, e) == s
  {
  }

  lemma JamClose(s: Session, pc: ClosePc, e: Env)
    requires s.th.h == InClose(pc)
    ensures var t := CloseStep(s, pc, e); t.cw.acked == s.cw.acked && t.th.h.InClose?
  {
    hide CancelStep;
    if pc.Cancelling? { CancelAcksNothing(s.cw, pc.at, Handler, e.ok); }
  }

  lemma JamChunk(u: Session, res: ReadResult)
    ensures var t := AfterChunk(u, res); t.cw == u.cw && (t.th.h.InMeta? ==> t.th.h.meta.NotifyAll?)
  {
  }

  lemma JamBody(s: Session, pc: BodyPc, e: Env)
    requires s.th.h == InBody(pc)
    ensures var t := BodyStep(s, pc, e); t.cw.acked == s.cw.acked && (t.th.h.InMeta? ==> t.th.h.meta.NotifyAll?)
  {
    hide AfterChunk;
    JamChunk(s, e.res);
    if pc.Forward? || pc.ForwardSend? {
      var sent := SendW(s, Payload(RESPONSE, pc.chunk.data), e.ok);
      JamChunk(LoseResp(s), pc.chunk.res);
      JamChunk(if s.cw.stream.Live() && e.ok then sent else LoseResp(sent), pc.chunk.res);
    }
  }

  lemma JamStep(s: Session, a: Action)
    requires Jammed(s)
    ensures Jammed(Step(s, a))
  {
    hide C.Inv, P.Stuck, HandlerStep, TransportStep, LoopStep, ReceiverStep, WatchStep;
    C.Kept(s, a);
    P.StuckStep(s, a);
    LoopOwns(s);
    match a
    case ByHandler(e) => Growth.ByHandler(s, e); JamHandler(s, e);
    case ByTransport(e) => E.TransportMeans(s, e);
    case ByLoop(pick, e) => E.LoopMeans(s, pick, e); JamLoop(s, pick, e);
    case ByReceiver(e) => JamReceiver(s, e);
    case ByDisconnect(e) => CutWatch(s.cw, s.th.d, e.ok);
    case _ =>
  }

  lemma JamLoop(s: Session, pick: Pick, e: Env)
    requires P.Stuck(s) && s.th.l.Holds()
    ensures LoopStep(s, pick, e).th.l.Holds() && LoopStep(s, pick, e).th.h == s.th.h
  {
    hide P.Doomed, SelectStep, P.Tidy;
    assert !s.bc.peer.chanClosed by { P.DoomedOpen(s); }
  }

  lemma JamReceiver(s: Session, e: Env)
    requires s.th.l.Holds()
    ensures var t := ReceiverStep(s, e);
            t.cw.acked == s.cw.acked && t.th.l == s.th.l && (t.th.h.InMeta? ==> t.th.h == s.th.h)
  {
    hide CancelStep;
    if s.th.r.RCancelling? { CancelAcksNothing(s.cw, s.th.r.at, Receiver, e.ok); }
  }

  lemma {:induction false} JammedForever(s: Session, actions: seq<Action>)
    requires Jammed(s)
    ensures !P.Exec(s, actions).cw.acked
    decreases |actions|
  {
    hide Step, Jammed;
    if actions == [] {
      JammedMeans(s);
    } else {
      JamStep(s, actions[0]);
      JammedForever(Step(s, actions[0]), actions[1..]);
    }
  }

  lemma JammedMeans(s: Session)
    requires Jammed(s)
    ensures !s.cw.acked
  {
  }

  // ---------- otherwise it can still be archived ----------

  ghost predicate Reaches(s: Session, t: Session) {
    exists actions :: P.Exec(s, actions) == t
  }

  lemma Stays(s: Session)
    ensures Reaches(s, s)
  {
    assert P.Exec(s, []) == s;
  }

  lemma Go(s: Session, t: Session, a: Action) returns (u: Session)
    requires Reaches(s, t)
    ensures u == Step(t, a) && Reaches(s, u)
  {
    hide Step;
    var actions :| P.Exec(s, actions) == t;
    P.ExecAppend(s, actions, [a]);
    F.OneStep(t, a);
    assert P.Exec(s, actions + [a]) == Step(t, a);
    u := Step(t, a);
  }

  const GO := Env(true, [], More, 0, false, true)
  const AT_EOF := Env(true, [], Eof, 0, false, true)

  lemma ToBody(s: Session, t: Session) returns (u: Session)
    requires Reaches(s, t) && t.th.h == InRequest(Filtering) && t.cw == Init().cw && !t.rc.rcError
    requires t.th.t.TOff? && !t.rc.cached
    ensures Reaches(s, u) && u.th.h == InBody(Reading) && !u.rc.cached && u.bc == t.bc && u.th.l == t.th.l
    ensures u.cw.open && !u.cw.canceled && u.cw.gate == t.cw.gate && u.cw.stream.Live()
  {
    hide Reaches;
    u := Go(s, t, ByHandler(GO));
    u := Go(s, u, ByHandler(GO));
    u := Go(s, u, ByHandler(GO));
    u := Go(s, u, ByHandler(GO));
    u := Go(s, u, ByHandler(GO));
    u := Go(s, u, ByHandler(GO));
  }

  lemma ToArchive(s: Session, t: Session) returns (u: Session)
    requires Reaches(s, t) && t.th.h == InBody(Reading) && !t.rc.cached && t.bc.owner.None?
    requires t.cw.open && !t.cw.canceled && t.cw.gate == Gate(None, false, 0) && t.cw.stream.Live()
    ensures Reaches(s, u) && u.cw.acked
  {
    hide Reaches;
    u := Go(s, t, ByHandler(AT_EOF));
    u := Go(s, u, ByHandler(GO));
    if u.th.h.meta.NotifyAllSend? { u := Go(s, u, ByHandler(GO)); }
    u := Go(s, u, ByHandler(GO));
    u := Go(s, u, ByHandler(GO));
    u := Go(s, u, ByHandler(GO));
    u := Go(s, u, ByHandler(GO));
  }

  /** The request has been accepted, and SendMeta has not yet checked for a cancel. */
  predicate Undecided(h: HandlerPc) {
    h.InRequest? || h.InResponse? || h.InBody? || (h.InMeta? && !PastCheck(h))
  }

  lemma UndecidedMeans(schedule: seq<Action>)
    requires Undecided(Run(schedule).th.h)
    ensures var s := Run(schedule);
            && !s.cw.acked
            && (!s.cw.open ==> s.th.h == InRequest(Filtering) && s.cw == Init().cw && s.th.t.TOff? && !s.rc.cached)
  {
    W.Always(schedule);
    Opening.Always(schedule);
    NotAcked(Run(schedule));
    hide Run;
    if !Run(schedule).cw.open { Unopened(schedule); }
  }

  lemma Unopened(schedule: seq<Action>)
    requires Undecided(Run(schedule).th.h) && !Run(schedule).cw.open && Opening.Inv(Run(schedule))
    ensures var s := Run(schedule);
            s.th.h == InRequest(Filtering) && s.cw == Init().cw && s.th.t.TOff? && !s.rc.cached
  {
    hide Run;
    C.Always(schedule);
    NotCachedYet(Run(schedule));
  }

  lemma NotCachedYet(s: Session)
    requires C.Inv(s)
    ensures s.th.h.InRequest? ==> !s.rc.cached
  {
    hide C.Scan;
  }

  lemma NotAcked(s: Session)
    requires W.Inv(s) && Undecided(s.th.h)
    ensures !s.cw.acked
  {
    hide Frames.Sent, Terminals, HasMeta, OnlyRequest, Faithful;
  }

  /** The controller cancels an accepted request before SendMeta has checked for it. Whatever follows, the
      response is not archived, if and only if the content writer was open when the receiver looked, or
      finish already holds `b.m`. */
  lemma AbortKeepsOutIff(schedule: seq<Action>)
    requires var s := Run(schedule); s.th.r == RCancelling(CStart) && Undecided(s.th.h)
    ensures var s := Run(schedule);
            (forall e, more :: !Run(schedule + [Action.ByReceiver(e)] + more).cw.acked) <==> s.cw.open || s.th.l.Holds()
  {
    hide Run, Step, P.Exec, C.Inv, W.Inv, Reaches, PastCheck, P.Tidy, P.Stuck;
    var s := Run(schedule);
    UndecidedMeans(schedule);
    Opening.Always(schedule);
    if s.cw.open || s.th.l.Holds() {
      forall e, more ensures !Run(schedule + [Action.ByReceiver(e)] + more).cw.acked {
        KeptOut(schedule, e, more);
      }
    } else {
      var e, more := StillArchived(schedule);
      assert Run(schedule + [Action.ByReceiver(e)] + more).cw.acked;
    }
  }

  lemma KeptOut(schedule: seq<Action>, e: Env, more: seq<Action>)
    requires var s := Run(schedule); s.th.r == RCancelling(CStart) && Undecided(s.th.h) && !s.cw.acked
    requires Run(schedule).cw.open || Run(schedule).th.l.Holds()
    ensures !Run(schedule + [Action.ByReceiver(e)] + more).cw.acked
  {
    var s, a := Run(schedule), Action.ByReceiver(e);
    hide Run;
    P.RunThenExec(schedule, [a] + more);
    assert schedule + [a] + more == schedule + ([a] + more);
    assert ([a] + more)[1..] == more;
    assert P.Exec(s, [a] + more) == P.Exec(Step(s, a), more);
    if s.cw.open {
      assert Cut(Step(s, a));
      CutForever(Step(s, a), more);
    } else {
      C.Always(schedule);
      P.TidyAlways(schedule);
      UndecidedMeans(schedule);
      StartsJam(s);
      JammedForever(s, [a] + more);
    }
  }

  lemma StartsJam(s: Session)
    requires C.Inv(s) && P.Tidy(s) && s.th.l.Holds() && s.th.r.RCancelling? && !s.cw.acked && s.th.h == InRequest(Filtering)
    ensures Jammed(s)
  {
    hide C.Inv;
  }

  lemma StillArchived(schedule: seq<Action>) returns (e: Env, more: seq<Action>)
    requires var s := Run(schedule);
             && s.th.r == RCancelling(CStart) && !s.cw.open && !s.th.l.Holds() && !s.rc.rcError
             && s.th.h == InRequest(Filtering) && s.cw == Init().cw && s.th.t.TOff? && !s.rc.cached
    ensures Run(schedule + [Action.ByReceiver(e)] + more).cw.acked
  {
    e := GO;
    var s, a := Run(schedule), Action.ByReceiver(GO);
    C.Always(schedule);
    hide Run, Step, C.Inv, P.Exec;
    FreeLock(s);
    Looked(s);
    var t := Step(s, a);
    Stays(t);
    var u := ToBody(t, t);
    u := ToArchive(t, u);
    more :| P.Exec(t, more) == u;
    P.RunThenExec(schedule, [a] + more);
    P.ExecAppend(s, [a], more);
    F.OneStep(s, a);
    assert schedule + [a] + more == schedule + ([a] + more);
  }

  lemma Looked(s: Session)
    requires s.th.r == RCancelling(CStart) && !s.cw.open
    ensures var t := Step(s, Action.ByReceiver(GO));
            t.th == s.th.(r := REdit) && t.cw == s.cw && t.bc == s.bc && t.rc == s.rc
  {
  }

  lemma FreeLock(s: Session)
    requires C.Inv(s) && !s.th.l.Holds() && s.th.h == InRequest(Filtering)
    ensures s.bc.owner.None?
  {
    hide C.Scan;
    var me := if s.bc.owner.Some? then s.bc.owner.value else Handler;
    assert me.Handler? || me.Loop? || me.Receiver? || me.Disconnect?;
  }
}
