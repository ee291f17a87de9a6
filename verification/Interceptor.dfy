/** The response interceptor at its waiting points: the send on done, the cancel after a failed write, the wait for
    the content writer and the wait for finish. The exact condition under which it comes to its end. */
module Interceptor {
  import opened Frames
  import opened Session
  import E = Effects
  import C = ControllerProtocol
  import W = WriterProtocol
  import F = Finish
  import Growth
  import P = Progress

  // ---------- the condition ----------

  /** The interceptor waits: to be heard, for `c.m`, for the content writer or for finish. */
  predicate AtWait(h: HandlerPc) {
    h.InClose? &&
      match h.close
      case Cancelling(_, after) => after.ToWait?
      case DoneSend(_) => true
      case WaitWriter => true
      case WaitController => true
      case _ => false
  }

  /** finish has run, or has begun and no cancel of the controller will hold it up. */
  predicate Controlled(s: Session) {
    s.bc.ctxDone || ((s.th.l.Want? || s.th.l.Holds()) && !P.Doomed(s))
  }

  /** The content writer's context is done or will be: it was never opened, somebody has claimed its one terminal
      frame, or the client has gone and the watcher will claim it. */
  predicate Settles(s: Session) {
    !s.cw.open || s.cw.gate.done || s.clientGone
  }

  /** The interceptor comes to its end. At the send on done the loop still has to listen, and to have nothing else
      to listen to; after that the content writer has to be settled, by the interceptor's own cancel or somebody
      else's, and finish has to end. */
  predicate Returns(s: Session)
    requires AtWait(s.th.h)
  {
    match s.th.h.close
    case DoneSend(writeErr) =>
      s.th.l.Select? && !s.clientGone && !P.Doomed(s) && (writeErr || Settles(s))
    case WaitWriter => Controlled(s) && Settles(s)
    case _ => Controlled(s)
  }

  // ---------- what is always so ----------

  /** `c.m` is released with the context done; the watcher starts when the client has gone, and ends with the context
      done; the interceptor gets past its send on done only with the loop's last branch. */
  predicate Tail(s: Session) {
    && (s.cw.gate.done && s.cw.gate.owner.None? ==> s.cw.ctxDone)
    && (!s.th.d.DWait? ==> s.clientGone)
    && (s.th.d.DEnded? ==> s.cw.ctxDone)
    && (AtWait(s.th.h) && !s.th.h.close.DoneSend? ==> !s.th.l.Select?)
    && (s.bc.ctxDone ==> s.bc.peer.chanClosed)
  }

  predicate Released(w: Writer) {
    w.gate.done && w.gate.owner.None? ==> w.ctxDone
  }

  lemma HandlerReleases(s: Session, e: Env)
    requires Released(s.cw)
    ensures var t := HandlerStep(s, e); Released(t.cw) && (s.cw.ctxDone ==> t.cw.ctxDone)
    ensures AtWait(HandlerStep(s, e).th.h) && !HandlerStep(s, e).th.h.close.DoneSend? ==>
              AtWait(s.th.h) && !s.th.h.close.DoneSend?
  {
    hide RegisterStep, RequestStep, ResponseStep, BodyStep, MetaStep, ReportStep, FailStep, CloseStep, Released, AtWait;
    match s.th.h
    case InRegister(pc) => RegisterReleases(s, pc, e);
    case InRequest(pc) => RequestReleases(s, pc, e);
    case InResponse(pc) => ResponseReleases(s, pc, e);
    case InBody(pc) => BodyReleases(s, pc, e);
    case InMeta(pc) => MetaReleases(s, pc, e);
    case InReport(p, pc) => ReportReleases(s, p, pc, e);
    case InFail(code, pc) => FailReleases(s, code, pc, e);
    case InClose(pc) => CloseReleases(s, pc, e);
  }

  lemma RegisterReleases(s: Session, pc: RegisterPc, e: Env)
    requires Released(s.cw) && s.th.h == InRegister(pc)
    ensures var t := RegisterStep(s, pc, e); t.cw == s.cw && !AtWait(t.th.h)
  {
  }

  lemma RequestReleases(s: Session, pc: RequestPc, e: Env)
    requires Released(s.cw) && s.th.h == InRequest(pc)
    ensures var t := RequestStep(s, pc, e); Released(t.cw) && t.cw.ctxDone == s.cw.ctxDone && !AtWait(t.th.h)
  {
  }

  lemma ResponseReleases(s: Session, pc: ResponsePc, e: Env)
    requires Released(s.cw) && s.th.h == InResponse(pc)
    ensures var t := ResponseStep(s, pc, e); Released(t.cw) && t.cw.ctxDone == s.cw.ctxDone && !AtWait(t.th.h)
  {
  }

  lemma BodyReleases(s: Session, pc: BodyPc, e: Env)
    requires Released(s.cw) && s.th.h == InBody(pc)
    ensures var t := BodyStep(s, pc, e); Released(t.cw) && t.cw.ctxDone == s.cw.ctxDone && !AtWait(t.th.h)
  {
  }

  lemma MetaReleases(s: Session, pc: MetaPc, e: Env)
    requires Released(s.cw) && s.th.h == InMeta(pc)
    ensures var t := MetaStep(s, pc, e); Released(t.cw) && (s.cw.ctxDone ==> t.cw.ctxDone) && !AtWait(t.th.h)
  {
  }

  lemma ReportReleases(s: Session, p: Purpose, pc: ReportPc, e: Env)
    requires Released(s.cw) && s.th.h == InReport(p, pc)
    ensures var t := ReportStep(s, p, pc, e); t.cw == s.cw && !AtWait(t.th.h)
  {
  }

  lemma FailReleases(s: Session, code: int, pc: FailPc, e: Env)
    requires Released(s.cw) && s.th.h == InFail(code, pc)
    ensures var t := FailStep(s, code, pc, e); t.cw == s.cw && !AtWait(t.th.h)
  {
  }

  lemma CloseReleases(s: Session, pc: ClosePc, e: Env)
    requires Released(s.cw) && s.th.h == InClose(pc)
    ensures var t := CloseStep(s, pc, e);
            && Released(t.cw) && (s.cw.ctxDone ==> t.cw.ctxDone)
            && (AtWait(t.th.h) && !t.th.h.close.DoneSend? ==> AtWait(s.th.h) && !s.th.h.close.DoneSend?)
  {
  }

  lemma CancelReleases(w: Writer, at: CancelPc, me: Thread, ok: bool)
    requires Released(w)
    ensures var w' := CancelStep(w, at, me, ok).0; Released(w') && (w.ctxDone ==> w'.ctxDone)
  {
  }

  lemma TransportReleases(s: Session, e: Env)
    ensures var t := TransportStep(s, e);
            && t.cw == s.cw.(stream := t.cw.stream) && t.bc == s.bc && t.th == s.th.(t := t.th.t)
            && t.clientGone == s.clientGone
  {
    hide AfterRequestChunk;
    E.AfterRequestMeans(s, e.res);
    if s.th.t.TForward? || s.th.t.TForwardSend? {
      var sent := SendW(s, Payload(REQUEST, s.th.t.chunk.data), e.ok);
      E.AfterRequestMeans(LoseReq(s), s.th.t.chunk.res);
      E.AfterRequestMeans(if s.cw.stream.Live() && e.ok then sent else LoseReq(sent), s.th.t.chunk.res);
    }
  }

  lemma WatchReleases(w: Writer, d: DisconnectPc, ok: bool)
    requires Released(w) && (d.DEnded? ==> w.ctxDone)
    ensures var (w', d') := WatchStep(w, d, ok); Released(w') && (d'.DEnded? ==> w'.ctxDone)
  {
  }

  lemma TailKept(s: Session, a: Action)
    requires Tail(s) && P.Tidy(s)
    ensures Tail(Step(s, a))
  {
    hide HandlerStep, LoopStep, ReceiverStep, TransportStep, WatchStep;
    match a
    case ByHandler(e) => HandlerTail(s, e);
    case ByTransport(e) => TransportReleases(s, e);
    case ByLoop(pick, e) => LoopTail(s, pick, e);
    case ByReceiver(e) => ReceiverTail(s, e);
    case ByDisconnect(e) => WatchReleases(s.cw, s.th.d, e.ok);
    case _ =>
  }

  lemma HandlerTail(s: Session, e: Env)
    requires Tail(s)
    ensures Tail(HandlerStep(s, e))
  {
    hide HandlerStep, AtWait;
    HandlerReleases(s, e);
    Growth.ByHandler(s, e);
    HandlerAlone(s, e);
  }

  lemma HandlerAlone(s: Session, e: Env)
    ensures var t := HandlerStep(s, e); t.th.d == s.th.d && t.clientGone == s.clientGone
  {
    hide CancelStep, AfterChunk;
    if s.th.h.InBody? { BodyAlone(s, s.th.h.body, e); }
  }

  lemma BodyAlone(s: Session, pc: BodyPc, e: Env)
    ensures var t := BodyStep(s, pc, e); t.th.d == s.th.d && t.clientGone == s.clientGone
  {
  }

  lemma LoopTail(s: Session, pick: Pick, e: Env)
    requires Tail(s) && P.Tidy(s)
    ensures Tail(LoopStep(s, pick, e))
  {
    hide LoopStep, AtWait, P.Tidy;
    E.LoopMeans(s, pick, e);
    LoopWaits(s, pick, e);
    LoopEnds(s, pick, e);
  }

  lemma LoopWaits(s: Session, pick: Pick, e: Env)
    ensures var t := LoopStep(s, pick, e); t.th.h == s.th.h || !AtWait(t.th.h) || t.th.l.Want?
    ensures !s.th.l.Select? ==> !LoopStep(s, pick, e).th.l.Select? && LoopStep(s, pick, e).th.h == s.th.h
  {
  }

  lemma LoopEnds(s: Session, pick: Pick, e: Env)
    ensures var t := LoopStep(s, pick, e);
            t.bc.peer == s.bc.peer && (P.Tidy(s) && t.bc.ctxDone ==> s.bc.ctxDone || s.bc.peer.chanClosed)
  {
    hide SelectStep;
    if s.th.l.Select? { SelectEnds(s, pick); }
  }

  lemma SelectEnds(s: Session, pick: Pick)
    ensures var t := SelectStep(s, pick); t.bc.peer == s.bc.peer && t.bc.ctxDone == s.bc.ctxDone
  {
    hide Reported;
    if s.th.h.InReport? && s.th.h.rep.Post? {
      E.ReportedMeans(UnlockB(WithBc(s, Take(s.bc, s.th.h.rep.msg))), s.th.h.p, true);
    }
  }

  lemma ReceiverTail(s: Session, e: Env)
    requires Tail(s)
    ensures Tail(ReceiverStep(s, e))
  {
    hide CancelStep, AtWait;
    if s.th.r.RCancelling? { CancelReleases(s.cw, s.th.r.at, Receiver, e.ok); }
    AnswersWaitNot();
  }

  lemma AnswersWaitNot()
    ensures forall h: HandlerPc :: h.InFail? || h.InRequest? ==> !AtWait(h)
  {
  }

  lemma {:induction false} TailAlways(schedule: seq<Action>)
    ensures Tail(Run(schedule))
  {
    hide Step, P.Tidy;
    if schedule != [] {
      var before := schedule[..|schedule| - 1];
      TailAlways(before);
      P.TidyAlways(before);
      TailKept(Run(before), schedule[|schedule| - 1]);
    }
  }

  ghost predicate Sound(s: Session) {
    C.Inv(s) && W.Inv(s) && P.Tidy(s) && Tail(s)
  }

  lemma SoundKept(s: Session, a: Action)
    requires Sound(s)
    ensures Sound(Step(s, a))
  {
    hide C.Inv, W.Inv, P.Tidy, Tail, Step;
    C.Kept(s, a);
    W.Kept(s, a);
    P.TidyStep(s, a);
    TailKept(s, a);
  }

  lemma SoundAlways(schedule: seq<Action>)
    ensures Sound(Run(schedule))
  {
    hide Run, C.Inv, W.Inv, P.Tidy, Tail;
    C.Always(schedule);
    W.Always(schedule);
    P.TidyAlways(schedule);
    TailAlways(schedule);
  }

  // ---------- the way to the end ----------

  /** What the interceptor still has to do before it waits for finish, and the watcher before the context is done. */
  function Steps(h: HandlerPc): nat
    requires AtWait(h)
  {
    match h.close
    case DoneSend(_) => 6
    case Cancelling(at, _) => if at.CStart? then 5 else if at.CLock? then 4 else if at.CSend? then 3 else 2
    case WaitWriter => 1
    case _ => 0
  }

  function WatcherLeft(d: DisconnectPc): nat {
    match d
    case DWait => 5
    case DLock => 4
    case DSend => 3
    case DClose => 2
    case DFree => 1
    case DEnded => 0
  }

  function WriterLeft(s: Session): nat {
    if !AtWait(s.th.h) || s.th.h.close.WaitController? then 0 else Steps(s.th.h) + WatcherLeft(s.th.d)
  }

  /** Whose turn brings the interceptor closer to its wait for finish. */
  datatype Mover = LoopHears | HandlerMoves | WatcherMoves

  function MoverOf(s: Session): Mover
    requires AtWait(s.th.h)
  {
    match s.th.h.close
    case DoneSend(_) => LoopHears
    case Cancelling(at, _) => if at.CLock? && s.cw.gate.owner.Some? then WatcherMoves else HandlerMoves
    case _ => if !s.cw.open || s.cw.ctxDone then HandlerMoves else WatcherMoves
  }

  predicate IsTurn(m: Mover, a: Action) {
    match m
    case LoopHears => a.ByLoop? && a.pick.OnDone?
    case HandlerMoves => a.ByHandler?
    case WatcherMoves => a.ByDisconnect?
  }

  /** Nothing will keep the interceptor from its end. */
  ghost predicate OnWay(s: Session) {
    Sound(s) &&
    (s.th.h == InClose(Ended) ||
     (AtWait(s.th.h) &&
      if s.th.h.close.DoneSend? then
        s.th.l.Select? && !s.clientGone && !P.Doomed(s) && (s.th.h.close.writeErr || Settles(s))
      else
        F.OnCourse(s) && (s.th.h.close.WaitWriter? ==> Settles(s))))
  }

  /** A step of somebody who does not matter to the content writer. */
  predicate Aside(s: Session, t: Session) {
    && t.th.h == s.th.h && t.th.d == s.th.d && t.cw == s.cw.(stream := t.cw.stream) && t.clientGone == s.clientGone
  }

  ghost predicate Advances(s: Session, a: Action, t: Session)
    requires Late(s.th.h)
  {
    && OnWay(t) && (s.bc.ctxDone ==> t.bc.ctxDone) && Writes(s, a, t)
    && (AtWait(t.th.h) ==> F.TurnsLeft(t) <= F.TurnsLeft(s) + (if F.Disturbs(s, a) then 2 else 0))
  }

  predicate Late(h: HandlerPc) {
    AtWait(h) || h == InClose(Ended)
  }

  /** The way to the wait for finish gets no longer, and shorter with the mover's turn. */
  predicate Writes(s: Session, a: Action, t: Session)
    requires Late(s.th.h)
  {
    && Late(t.th.h) && WriterLeft(t) <= WriterLeft(s)
    && (WriterLeft(t) == WriterLeft(s) && WriterLeft(s) > 0 ==>
          AtWait(t.th.h) && MoverOf(t) == MoverOf(s) && !IsTurn(MoverOf(s), a))
    && (s.th.h == InClose(Ended) ==> t.th.h == s.th.h)
    && (s.th.h == InClose(WaitController) && s.bc.ctxDone && a.ByHandler? ==> t.th.h == InClose(Ended))
  }

  /** Once past the send on done, the interceptor is moved by its own steps only. */
  lemma Alone(s: Session, a: Action)
    requires Late(s.th.h) && (AtWait(s.th.h) && s.th.h.close.DoneSend? ==> !s.th.l.Select?) && !a.ByHandler?
    ensures Step(s, a).th.h == s.th.h
  {
    hide TransportStep, CancelStep, WatchStep;
    if a.ByTransport? { E.TransportMeans(s, a.e); }
  }

  lemma WritesHandler(s: Session, e: Env)
    requires Sound(s) && AtWait(s.th.h) && !s.th.h.close.DoneSend? && (s.th.h.close.WaitWriter? ==> Settles(s))
    ensures var t := HandlerStep(s, e);
            Writes(s, Action.ByHandler(e), t) && (t.th.h == InClose(WaitWriter) ==> Settles(t))
  {
    hide C.Inv, W.Inv, P.Tidy, Tail;
    if s.th.h.close.Cancelling? { ClaimedWhenClosing(s); }
  }

  lemma ClaimedWhenClosing(s: Session)
    requires W.Inv(s)
    ensures s.th.h.InClose? && s.th.h.close.Cancelling? && s.th.h.close.at.CClose? ==> s.cw.gate.done
  {
    hide Terminals, HasMeta, Faithful;
  }

  /** Whoever holds `c.m` then is the watcher. */
  lemma WatcherHolds(s: Session)
    requires Sound(s) && AtWait(s.th.h) && !P.Doomed(s) && s.cw.gate.owner.Some?
    requires s.th.h.close.Cancelling? ==> s.th.h.close.at.CLock?
    ensures s.clientGone && s.th.d != DWait && s.th.d != DLock && s.th.d != DEnded
  {
    hide C.Inv, P.Tidy, Terminals, HasMeta, Faithful;
    var me := s.cw.gate.owner.value;
    assert me.Handler? || me.Loop? || me.Receiver? || me.Disconnect?;
  }

  /** An unclaimed stream has no holder, and its watcher is not past its claim. */
  lemma Unheld(s: Session)
    requires Sound(s) && !s.cw.gate.done
    ensures s.cw.gate.owner.None? && !s.cw.ctxDone && (s.th.d.DWait? || s.th.d.DLock?)
  {
    hide C.Inv, P.Tidy, W.Lock, Terminals, HasMeta, Faithful;
    if s.cw.gate.owner.Some? { HeldIsClaimed(s); }
  }

  lemma HeldIsClaimed(s: Session)
    requires W.Inv(s) && s.cw.gate.owner.Some?
    ensures s.cw.gate.done
  {
    hide Terminals, HasMeta, Faithful;
    var me := s.cw.gate.owner.value;
    assert me.Handler? || me.Loop? || me.Receiver? || me.Disconnect?;
  }

  lemma WatcherCanMove(s: Session)
    requires Sound(s) && AtWait(s.th.h) && !s.th.h.close.DoneSend? && !P.Doomed(s)
    requires MoverOf(s).WatcherMoves? && (s.th.h.close.WaitWriter? ==> Settles(s))
    requires !s.th.h.close.WaitController?
    ensures s.clientGone && !s.th.d.DEnded? && (s.th.d.DWait? ==> s.cw.open) && (s.th.d.DLock? ==> s.cw.gate.owner.None?)
  {
    hide C.Inv, W.Inv, P.Tidy, P.Doomed;
    if s.cw.gate.owner.Some? { WatcherHolds(s); } else { Unheld2(s); }
  }

  lemma Unheld2(s: Session)
    requires Sound(s) && s.cw.gate.owner.None? && s.th.h == InClose(WaitWriter) && s.cw.open && !s.cw.ctxDone && Settles(s)
    ensures s.clientGone && (s.th.d.DWait? || s.th.d.DLock?)
  {
    hide C.Inv, W.Inv, P.Tidy;
    Unheld(s);
  }

  lemma WritesWatcher(s: Session, e: Env)
    requires Sound(s) && AtWait(s.th.h) && !s.th.h.close.DoneSend? && !P.Doomed(s)
    requires s.th.h.close.WaitWriter? ==> Settles(s)
    ensures var t := DisconnectStep(s, e);
            Writes(s, Action.ByDisconnect(e), t) && (t.th.h == InClose(WaitWriter) ==> Settles(t))
  {
    hide C.Inv, W.Inv, P.Tidy, P.Doomed, Sound;
    if MoverOf(s).WatcherMoves? && !s.th.h.close.WaitController? { WatcherCanMove(s); }
  }

  lemma WritesAside(s: Session, a: Action, t: Session)
    requires AtWait(s.th.h) && !s.th.h.close.DoneSend? && Aside(s, t) && !a.ByHandler? && !a.ByDisconnect?
    requires s.th.h.close.WaitWriter? ==> Settles(s)
    ensures Writes(s, a, t) && (t.th.h == InClose(WaitWriter) ==> Settles(t))
  {
  }

  lemma OthersAside(s: Session, a: Action)
    requires AtWait(s.th.h) && !s.th.l.Select? && !P.Doomed(s)
    requires !a.ByHandler? && !a.ByDisconnect? && !a.ClientLeaves?
    ensures Aside(s, Step(s, a))
  {
    hide TransportStep, CancelStep, LoopStep;
    Alone(s, a);
    if a.ByTransport? { TransportReleases(s, a.e); }
    if a.ByLoop? { E.LoopMeans(s, a.pick, a.e); }
  }

  lemma CourseIsCalm(s: Session)
    requires F.OnCourse(s)
    ensures !P.Doomed(s)
  {
    hide C.Inv, P.Tidy, P.Doomed, F.MayReport, F.Unanswered;
  }

  lemma WritesOn(s: Session, a: Action)
    requires Sound(s) && AtWait(s.th.h) && !s.th.h.close.DoneSend? && !P.Doomed(s)
    requires s.th.h.close.WaitWriter? ==> Settles(s)
    requires !a.ClientLeaves?
    ensures Writes(s, a, Step(s, a)) && (Step(s, a).th.h == InClose(WaitWriter) ==> Settles(Step(s, a)))
  {
    hide Sound, P.Doomed, Writes, HandlerStep, DisconnectStep, LoopStep, ReceiverStep, TransportStep, Settles, AtWait;
    if a.ByHandler? {
      WritesHandler(s, a.e);
    } else if a.ByDisconnect? {
      WritesWatcher(s, a.e);
    } else {
      LoopHasLeft(s);
      OthersAside(s, a);
      WritesAside(s, a, Step(s, a));
    }
  }

  lemma LoopHasLeft(s: Session)
    requires Sound(s) && AtWait(s.th.h) && !s.th.h.close.DoneSend?
    ensures !s.th.l.Select?
  {
    hide C.Inv, W.Inv, P.Tidy;
  }

  lemma AdvancesWaiting(s: Session, a: Action)
    requires OnWay(s) && AtWait(s.th.h) && !s.th.h.close.DoneSend?
    requires !a.ClientLeaves? && (a.ByLoop? ==> a.e.slot) && P.Considerate(s, a)
    ensures Advances(s, a, Step(s, a))
  {
    hide Step, Sound, F.OnCourse, F.TurnsLeft, P.Doomed, F.MoverOf, F.IsTurn, F.Disturbs, Settles, WriterLeft, MoverOf;
    SoundKept(s, a);
    CourseIsCalm(s);
    F.CourseKept(s, a);
    WritesOn(s, a);
    LoopHasLeft(s);
    NotBack(s, a);
  }

  lemma NotBack(s: Session, a: Action)
    requires AtWait(s.th.h) && !s.th.h.close.DoneSend? && !s.th.l.Select?
    ensures Step(s, a).th.h.InClose? && !Step(s, a).th.h.close.DoneSend?
  {
    hide CancelStep, TransportStep, WatchStep;
    if !a.ByHandler? { Alone(s, a); }
  }

  // ---------- the send on done ----------

  /** The loop listens, and hears nothing but the interceptor. */
  lemma AdvancesOffering(s: Session, a: Action)
    requires OnWay(s) && AtWait(s.th.h) && s.th.h.close.DoneSend?
    requires !a.ClientLeaves? && (a.ByLoop? ==> a.e.slot) && P.Considerate(s, a)
    ensures Advances(s, a, Step(s, a))
  {
    hide Sound, F.OnCourse, F.TurnsLeft, P.Doomed, Settles, LoopStep, ReceiverStep, TransportStep, F.Disturbs;
    SoundKept(s, a);
    match a
    case ByHandler(e) =>
    case ByTransport(e) => TransportReleases(s, e); SamePeer(s, Step(s, a)); Offered(s, a, Step(s, a));
    case ByLoop(pick, e) => Hearing(s, pick, e);
    case ByReceiver(e) => EndedIsClosed(s); OfferedReceiver(s, e); Offered(s, a, Step(s, a));
    case ByDisconnect(e) =>
    case _ => OfferedPeer(s, a); Offered(s, a, Step(s, a));
  }

  lemma EndedIsClosed(s: Session)
    requires Sound(s)
    ensures s.th.r.REnded? ==> s.bc.peer.chanClosed
  {
    hide C.Inv, W.Inv, Tail;
  }

  lemma Offered(s: Session, a: Action, t: Session)
    requires OnWay(s) && AtWait(s.th.h) && s.th.h.close.DoneSend? && Aside(s, t) && !a.ByLoop?
    requires Sound(t) && t.th.l == s.th.l && !P.Doomed(t) && (s.bc.ctxDone ==> t.bc.ctxDone)
    requires P.Left(t) <= P.Left(s) + (if F.Disturbs(s, a) then 2 else 0)
    ensures Advances(s, a, t)
  {
    hide Sound, F.OnCourse, P.Doomed, P.Left, F.Disturbs;
  }

  lemma SamePeer(s: Session, t: Session)
    requires t.th.l == s.th.l && t.th.r == s.th.r && t.bc.peer == s.bc.peer
    ensures P.Doomed(t) == P.Doomed(s) && P.Left(t) == P.Left(s)
  {
  }

  lemma OfferedReceiver(s: Session, e: Env)
    requires s.th.h.InClose? && s.th.l.Select? && !P.Doomed(s) && (s.th.r.REnded? ==> s.bc.peer.chanClosed)
    ensures var t := ReceiverStep(s, e);
            && Aside(s, t) && t.th.l == s.th.l && !P.Doomed(t) && t.bc.ctxDone == s.bc.ctxDone && P.Left(t) <= P.Left(s)
  {
    hide ReceiverStep, P.Doomed, P.Left;
    if s.th.r.Recv? { P.ByRecv(s); RecvStepIs(s, e); }
    else if s.th.r.Deliver? || s.th.r.DeliverLast? { P.ByOffer(s, e); }
    else { P.ByClosing(s, e); }
    E.ReceiverMeans(s, e);
    NotCancelling(s);
  }

  lemma RecvStepIs(s: Session, e: Env)
    requires s.th.r.Recv?
    ensures ReceiverStep(s, e) == RecvStep(s)
  {
    hide RecvStep;
  }

  lemma NotCancelling(s: Session)
    requires !P.Doomed(s)
    ensures !s.th.r.RCancelling?
  {
  }

  lemma OfferedPeer(s: Session, a: Action)
    requires !P.Doomed(s) && P.Considerate(s, a) && (a.PeerReplies? || a.PeerEnds?)
    ensures var t := Step(s, a);
            && Aside(s, t) && t.th.l == s.th.l && !P.Doomed(t) && t.bc.ctxDone == s.bc.ctxDone
            && P.Left(t) <= P.Left(s) + (if F.Disturbs(s, a) then 2 else 0)
  {
  }

  lemma Hearing(s: Session, pick: Pick, e: Env)
    requires OnWay(s) && AtWait(s.th.h) && s.th.h.close.DoneSend? && Sound(LoopStep(s, pick, e))
    ensures Advances(s, Action.ByLoop(pick, e), LoopStep(s, pick, e))
  {
    hide C.Inv, W.Inv, F.MayReport, F.Unanswered, P.Doomed, LoopStep, Tail;
    Heard(s, pick, e);
    var t := LoopStep(s, pick, e);
    SameReceiver(s, t);
    if t.th.l.Want? { NoReport(t); }
  }

  lemma NoReport(s: Session)
    requires s.th.h.InClose?
    ensures !F.MayReport(s) && !F.Unanswered(s) && F.Holding(s.th.h) == 0
  {
  }

  lemma SameReceiver(s: Session, t: Session)
    requires t.th.r == s.th.r && t.bc.peer == s.bc.peer
    ensures P.Doomed(t) == P.Doomed(s)
  {
  }

  lemma Heard(s: Session, pick: Pick, e: Env)
    requires s.th.l.Select? && AtWait(s.th.h) && s.th.h.close.DoneSend? && !s.clientGone && !P.Doomed(s)
    ensures var t := LoopStep(s, pick, e);
            && (!pick.OnDone? ==> t == s)
            && (pick.OnDone? ==>
                  t == GoL(GoH(s, InClose(if s.th.h.close.writeErr then Cancelling(CStart, ToWait) else WaitWriter)), Want))
  {
  }

  lemma Onward(s: Session, a: Action)
    requires OnWay(s) && !a.ClientLeaves? && (a.ByLoop? ==> a.e.slot) && P.Considerate(s, a)
    ensures Advances(s, a, Step(s, a))
  {
    hide Step, C.Inv, W.Inv, P.Tidy, Tail, F.OnCourse, F.TurnsLeft, P.Doomed, F.Disturbs, P.Considerate;
    if s.th.h == InClose(Ended) {
      SoundKept(s, a);
      EndedStays(s, a);
    } else if s.th.h.close.DoneSend? {
      AdvancesOffering(s, a);
    } else {
      AdvancesWaiting(s, a);
    }
  }

  lemma EndedStays(s: Session, a: Action)
    requires s.th.h == InClose(Ended) && P.Tidy(s)
    ensures Step(s, a).th.h == s.th.h && (s.bc.ctxDone ==> Step(s, a).bc.ctxDone)
  {
    hide TransportStep, CancelStep, WatchStep, P.Tidy;
    if a.ByTransport? { E.TransportMeans(s, a.e); }
  }

  // ---------- rounds ----------

  predicate HasTurn(m: Mover, actions: seq<Action>) {
    exists a :: a in actions && IsTurn(m, a)
  }

  /** The client does not leave now. */
  predicate Stays(actions: seq<Action>) {
    forall i :: 0 <= i < |actions| ==> !actions[i].ClientLeaves?
  }

  /** Besides loop, receiver and handler the watcher gets a turn too, and the loop one in which it looks at done. */
  predicate Heeded(round: seq<Action>) {
    F.FairRound(round) && HasTurn(LoopHears, round) && HasTurn(WatcherMoves, round) && Stays(round)
  }

  lemma {:induction false} NeverBack(s: Session, actions: seq<Action>)
    requires OnWay(s) && F.SlotSeen(actions) && F.Courteous(s, actions) && Stays(actions)
    ensures var t := P.Exec(s, actions);
            && OnWay(t) && (s.bc.ctxDone ==> t.bc.ctxDone) && WriterLeft(t) <= WriterLeft(s)
            && (s.th.h == InClose(Ended) ==> t.th.h == s.th.h)
            && (AtWait(t.th.h) ==> F.TurnsLeft(t) <= F.TurnsLeft(s) + 2 * F.Disturbances(s, actions))
    decreases |actions|
  {
    hide Step, Sound, F.OnCourse, F.TurnsLeft, F.Disturbs, P.Considerate, P.Doomed, WriterLeft, MoverOf, IsTurn, Settles;
    if actions != [] {
      Onward(s, actions[0]);
      assert F.SlotSeen(actions[1..]) && Stays(actions[1..]);
      NeverBack(Step(s, actions[0]), actions[1..]);
    }
  }

  lemma {:induction false} WriterCloser(s: Session, actions: seq<Action>)
    requires OnWay(s) && F.SlotSeen(actions) && F.Courteous(s, actions) && Stays(actions)
    requires WriterLeft(s) > 0 && AtWait(s.th.h) && HasTurn(MoverOf(s), actions)
    ensures WriterLeft(P.Exec(s, actions)) < WriterLeft(s)
    decreases |actions|
  {
    hide Step, OnWay, F.TurnsLeft, F.Disturbs, P.Considerate, WriterLeft, MoverOf, IsTurn, AtWait;
    var a, t := actions[0], Step(s, actions[0]);
    Onward(s, a);
    assert actions == [a] + actions[1..];
    assert F.SlotSeen(actions[1..]) && Stays(actions[1..]);
    if WriterLeft(t) < WriterLeft(s) {
      NeverBack(t, actions[1..]);
    } else {
      WriterCloser(t, actions[1..]);
    }
  }

  lemma {:induction false} LastTurn(s: Session, actions: seq<Action>)
    requires OnWay(s) && F.SlotSeen(actions) && F.Courteous(s, actions) && Stays(actions)
    requires s.bc.ctxDone && s.th.h == InClose(WaitController) && HasTurn(HandlerMoves, actions)
    ensures P.Exec(s, actions).th.h == InClose(Ended)
    decreases |actions|
  {
    hide Step, Sound, F.OnCourse, F.TurnsLeft, F.Disturbs, P.Considerate, P.Doomed, MoverOf, Settles;
    var a, t := actions[0], Step(s, actions[0]);
    Onward(s, a);
    assert actions == [a] + actions[1..];
    assert F.SlotSeen(actions[1..]) && Stays(actions[1..]);
    if t.th.h == InClose(Ended) {
      NeverBack(t, actions[1..]);
    } else {
      AtControllerStays(s, a);
      LastTurn(t, actions[1..]);
    }
  }

  lemma AtControllerStays(s: Session, a: Action)
    requires s.th.h == InClose(WaitController)
    ensures var t := Step(s, a); t.th.h == s.th.h || t.th.h == InClose(Ended)
  {
    hide TransportStep, CancelStep, WatchStep;
    if a.ByTransport? { E.TransportMeans(s, a.e); }
  }

  /** Rounds left: until the interceptor waits for finish, until finish ends, and one to notice. */
  function Rest(s: Session): nat {
    if s.th.h == InClose(Ended) then 0
    else WriterLeft(s) + (if s.bc.ctxDone then 0 else F.TurnsLeft(s)) + 1
  }

  lemma RoundReturns(s: Session, round: seq<Action>)
    requires OnWay(s) && Heeded(round) && F.Courteous(s, round) && F.PeerFair(s, round) && s.th.h != InClose(Ended)
    ensures var t := P.Exec(s, round);
            OnWay(t) && (t.th.h == InClose(Ended) || Rest(t) + 1 <= Rest(s) + 3 * F.Disturbances(s, round))
  {
    hide Sound, F.OnCourse, F.TurnsLeft, F.Disturbances, F.Courteous, F.PeerFair, P.Exec, P.Doomed, Settles, MoverOf,
         WriterLeft;
    NeverBack(s, round);
    HandlerHasTurn(round);
    if WriterLeft(s) > 0 {
      MoverHasTurn(s, round);
      WriterCloser(s, round);
    } else {
      NothingLeft(s);
      if s.bc.ctxDone {
        LastTurn(s, round);
      } else {
        F.RoundCloser(s, round);
      }
    }
  }

  lemma NothingLeft(s: Session)
    requires AtWait(s.th.h) && WriterLeft(s) == 0
    ensures s.th.h == InClose(WaitController)
  {
  }

  lemma HandlerHasTurn(round: seq<Action>)
    requires F.FairRound(round)
    ensures HasTurn(HandlerMoves, round)
  {
    var a :| a in round && F.IsTurn(F.HandlerMoves, a);
    assert IsTurn(HandlerMoves, a);
  }

  lemma MoverHasTurn(s: Session, round: seq<Action>)
    requires AtWait(s.th.h) && Heeded(round)
    ensures HasTurn(MoverOf(s), round)
  {
    hide F.FairRound;
    assert F.FairRound(round);
    HandlerHasTurn(round);
  }

  lemma {:induction false} RoundsReturn(s: Session, rounds: seq<seq<Action>>, k: nat)
    requires OnWay(s) && F.LockFair(s, rounds, k) && F.Polite(s, rounds) && |rounds| >= Rest(s) + 3 * k
    requires forall r :: r in rounds ==> Heeded(r)
    ensures P.Exec(s, P.Flatten(rounds)).th.h == InClose(Ended)
    decreases |rounds|
  {
    hide Step, OnWay, Rest, F.Disturbances, P.Exec, F.Courteous, F.PeerFair, F.FairRound, HasTurn;
    if s.th.h == InClose(Ended) {
      F.AllSeen(rounds);
      AllStay(rounds);
      F.PoliteThroughout(s, rounds);
      NeverBack(s, P.Flatten(rounds));
    } else {
      assert Rest(s) > 0 by { SomethingLeft(s); }
      var first, rest := rounds[0], rounds[1..];
      assert first in rounds;
      RoundReturns(s, first);
      P.ExecAppend(s, first, P.Flatten(rest));
      F.DisturbancesAppend(s, first, P.Flatten(rest));
      var t := P.Exec(s, first);
      EndedHasNone(t);
      RoundsReturn(t, rest, k - F.Disturbances(s, first));
    }
  }

  lemma SomethingLeft(s: Session)
    requires s.th.h != InClose(Ended)
    ensures Rest(s) > 0
  {
  }

  lemma EndedHasNone(s: Session)
    ensures s.th.h == InClose(Ended) ==> Rest(s) == 0
  {
  }

  lemma {:induction false} AllStay(rounds: seq<seq<Action>>)
    requires forall r :: r in rounds ==> Heeded(r)
    ensures Stays(P.Flatten(rounds))
  {
    hide F.FairRound, HasTurn;
    if rounds != [] {
      assert rounds[0] in rounds;
      AllStay(rounds[1..]);
    }
  }

  // ---------- without the condition ----------

  lemma StartsOnWay(s: Session)
    requires Sound(s) && AtWait(s.th.h) && Returns(s)
    ensures OnWay(s)
  {
    hide C.Inv, W.Inv, P.Doomed, Settles, F.MayReport, F.Unanswered;
    if !s.th.h.close.DoneSend? {
      NoReport(s);
      if s.bc.ctxDone { ClosedIsCalm(s); }
    }
  }

  lemma ClosedIsCalm(s: Session)
    requires P.Tidy(s) && s.bc.peer.chanClosed
    ensures !P.Doomed(s)
  {
  }

  /** finish will not end. */
  ghost predicate Halted(s: Session) {
    && AtWait(s.th.h) && !s.th.h.close.DoneSend? && !s.bc.ctxDone
    && (s.th.l.LEnded? || P.Stuck(s))
  }

  lemma HaltedStep(s: Session, a: Action)
    requires Halted(s)
    ensures Halted(Step(s, a))
  {
    hide P.Stuck, CancelStep, WatchStep, TransportStep;
    if P.Stuck(s) { P.StuckStep(s, a); StuckMeans(s); StuckMeans(Step(s, a)); }
    if a.ByTransport? { E.TransportMeans(s, a.e); }
  }

  lemma StuckMeans(s: Session)
    requires P.Stuck(s)
    ensures !s.bc.ctxDone && !s.th.l.Select?
  {
  }

  lemma {:induction false} HaltedForever(s: Session, actions: seq<Action>)
    requires Halted(s)
    ensures Halted(P.Exec(s, actions))
    decreases |actions|
  {
    hide Step, Halted;
    if actions != [] {
      HaltedStep(s, actions[0]);
      HaltedForever(Step(s, actions[0]), actions[1..]);
    }
  }

  /** Nobody has claimed the content writer's terminal frame, and nobody will. */
  ghost predicate Unclaimed(s: Session) {
    Sound(s) && s.th.h == InClose(WaitWriter) && s.cw.open && !s.cw.gate.done && !s.clientGone && !P.Doomed(s)
  }

  lemma CalmKept(s: Session, a: Action)
    requires !P.Doomed(s) && P.Considerate(s, a)
    ensures !P.Doomed(Step(s, a))
  {
    hide HandlerStep, TransportStep, CancelStep, LoopStep, WatchStep;
    match a
    case ByHandler(e) => Growth.ByHandler(s, e);
    case ByTransport(e) => E.TransportMeans(s, e);
    case ByLoop(pick, e) => E.LoopMeans(s, pick, e); LoopEnds(s, pick, e);
    case ByReceiver(e) => if s.bc.peer.inbox != [] { assert s.bc.peer.inbox == [s.bc.peer.inbox[0]] + s.bc.peer.inbox[1..]; }
    case _ =>
  }

  lemma UnclaimedStep(s: Session, a: Action)
    requires Unclaimed(s) && P.Considerate(s, a) && !a.ClientLeaves?
    ensures Unclaimed(Step(s, a))
  {
    hide Sound, P.Doomed, TransportStep, LoopStep, CancelStep, WatchStep;
    SoundKept(s, a);
    CalmKept(s, a);
    LoopHasLeft(s);
    assert !s.cw.ctxDone by { Unheld(s); }
    if !a.ByHandler? && !a.ByDisconnect? { OthersAside(s, a); }
  }

  lemma {:induction false} UnclaimedForever(s: Session, actions: seq<Action>)
    requires Unclaimed(s) && F.Courteous(s, actions) && Stays(actions)
    ensures Unclaimed(P.Exec(s, actions))
    decreases |actions|
  {
    hide Step, Unclaimed, P.Considerate;
    if actions != [] {
      UnclaimedStep(s, actions[0]);
      UnclaimedForever(Step(s, actions[0]), actions[1..]);
    }
  }

  // ---------- the exact condition ----------

  /** Enough rounds in which everybody gets a turn, the client stays, and the peer sends no further cancel and ends its
      stream once finish has closed its own, and not before. */
  ghost predicate Patient(s: Session, rounds: seq<seq<Action>>, k: nat) {
    && F.LockFair(s, rounds, k) && |rounds| >= Rest(s) + 3 * k
    && F.Polite(s, rounds) && F.EndsLate(s, P.Flatten(rounds))
    && forall r :: r in rounds ==> Heeded(r)
  }

  lemma WithTurnIsHeeded(actions: seq<Action>)
    requires F.SlotSeen(actions) && Stays(actions)
    ensures Heeded(actions + F.Turn())
  {
    hide F.FairRound;
    F.WithTurnIsFair(actions);
    var all, n := actions + F.Turn(), |actions|;
    assert all[n] == F.Turn()[0] && all[n + 3] == F.Turn()[3];
    assert IsTurn(LoopHears, all[n]) && IsTurn(WatcherMoves, all[n + 3]);
    assert all[n] in all && all[n + 3] in all;
  }

  lemma RoundIsHeeded(s: Session)
    ensures Heeded(F.Round(s))
  {
    hide Heeded, F.Turn;
    if s.bc.stream.closed && s.bc.peer.ended.None? {
      WithTurnIsHeeded([PeerEnds(Orderly)]);
    } else {
      WithTurnIsHeeded([]);
    }
  }

  lemma {:induction false} RoundsAreHeeded(s: Session, n: nat)
    ensures forall r :: r in F.Rounds(s, n) ==> Heeded(r)
    decreases n
  {
    hide Heeded, F.Round, P.Exec;
    if n > 0 {
      RoundIsHeeded(s);
      RoundsAreHeeded(P.Exec(s, F.Round(s)), n - 1);
    }
  }

  /** Rounds from here on. */
  lemma PatientRounds(s: Session) returns (k: nat, rounds: seq<seq<Action>>)
    requires !s.th.l.Select?
    ensures Patient(s, rounds, k)
  {
    hide Step, Heeded, F.Round, F.FairRound, F.Disturbances, F.Polite, F.EndsLate, P.Exec, P.Flatten, Rest;
    k, rounds := 0, F.Rounds(s, Rest(s));
    F.RoundsAreFair(s, Rest(s));
    RoundsAreHeeded(s, Rest(s));
  }

  /** Rounds that begin with a branch of the loop. */
  lemma PatientAfter(s: Session, pick: Pick) returns (k: nat, rounds: seq<seq<Action>>, rest: seq<Action>)
    requires !Step(s, Action.ByLoop(pick, F.GO)).th.l.Select? && !s.bc.stream.closed
    ensures Patient(s, rounds, k) && P.Flatten(rounds) == [Action.ByLoop(pick, F.GO)] + rest
    ensures F.Courteous(Step(s, Action.ByLoop(pick, F.GO)), rest) && Stays(rest)
  {
    hide Step, Heeded, F.FairRound, F.LockFair, F.Disturbances, F.Courteous, F.Polite, F.EndsLate, P.Exec, Rest, F.Turn;
    var actions := [Action.ByLoop(pick, F.GO)];
    k := F.Disturbances(s, actions);
    var n := Rest(s) + 3 * k;
    rounds := F.After(s, actions, n);
    F.OneStep(s, actions[0]);
    F.AfterIsFair(s, actions, n);
    var u := P.Exec(s, actions + F.Turn());
    WithTurnIsHeeded(actions);
    RoundsAreHeeded(u, n);
    rest := F.Turn() + P.Flatten(F.Rounds(u, n));
    F.PoliteThroughout(s, rounds);
    assert P.Flatten(rounds) == actions + rest;
    F.CourteousAppend(s, actions, rest);
    AllStay(rounds);
    assert forall i :: 0 <= i < |rest| ==> rest[i] == P.Flatten(rounds)[i + 1];
  }

  lemma ReturnFails(schedule: seq<Action>) returns (k: nat, rounds: seq<seq<Action>>)
    requires AtWait(Run(schedule).th.h) && !Returns(Run(schedule))
    ensures Patient(Run(schedule), rounds, k) && Run(schedule + P.Flatten(rounds)).th.h != InClose(Ended)
  {
    hide Run, Step, Sound, P.Exec, P.Flatten, P.Doomed, Settles, Patient;
    var s := Run(schedule);
    SoundAlways(schedule);
    if !s.th.h.close.DoneSend? {
      LoopHasLeft(s);
      k, rounds := PatientRounds(s);
      WaitsForever(s, rounds, k);
      P.RunThenExec(schedule, P.Flatten(rounds));
    } else if !s.th.l.Select? {
      k, rounds := PatientRounds(s);
      P.LateSenderWaitsForever(schedule, P.Flatten(rounds));
    } else {
      k, rounds := OfferFails(s);
      P.RunThenExec(schedule, P.Flatten(rounds));
    }
  }

  lemma WaitsForever(s: Session, rounds: seq<seq<Action>>, k: nat)
    requires Sound(s) && AtWait(s.th.h) && !s.th.h.close.DoneSend? && !Returns(s) && Patient(s, rounds, k)
    ensures P.Exec(s, P.Flatten(rounds)).th.h != InClose(Ended)
  {
    hide Step, C.Inv, W.Inv, P.Exec, P.Flatten, P.Doomed, Heeded, F.FairRound, F.LockFair, F.Polite, F.EndsLate, Rest;
    LoopHasLeft(s);
    if Controlled(s) {
      F.PoliteThroughout(s, rounds);
      AllStay(rounds);
      if s.bc.ctxDone { ClosedIsCalm(s); }
      UnclaimedForever(s, P.Flatten(rounds));
    } else {
      HaltedHere(s);
      HaltedForever(s, P.Flatten(rounds));
    }
  }

  lemma HaltedHere(s: Session)
    requires Sound(s) && AtWait(s.th.h) && !s.th.h.close.DoneSend? && !s.th.l.Select? && !Controlled(s)
    ensures Halted(s)
  {
    hide C.Inv, W.Inv, P.Doomed;
    if P.Doomed(s) { P.DoomedOpen(s); }
  }

  lemma OfferFails(s: Session) returns (k: nat, rounds: seq<seq<Action>>)
    requires Sound(s) && AtWait(s.th.h) && s.th.h.close.DoneSend? && s.th.l.Select? && !Returns(s)
    ensures Patient(s, rounds, k) && P.Exec(s, P.Flatten(rounds)).th.h != InClose(Ended)
  {
    hide Step, Sound, P.Exec, P.Flatten, P.Doomed, Settles, Patient, Halted, Unclaimed, F.Courteous;
    var pick := if s.clientGone then OnClientGone else OnDone;
    var a := Action.ByLoop(pick, F.GO);
    Branches(s, pick);
    SoundKept(s, a);
    NotClosedYet(s);
    var rest;
    k, rounds, rest := PatientAfter(s, pick);
    var t := Step(s, a);
    F.OneStep(s, a);
    P.ExecAppend(s, [a], rest);
    if s.clientGone {
      P.UnheardForever(t, rest);
    } else if P.Doomed(s) {
      HaltedHere(t);
      HaltedForever(t, rest);
      HaltedMeans(P.Exec(t, rest));
    } else {
      assert Unclaimed(t) by { NotSettled(s, t); }
      UnclaimedForever(t, rest);
      UnclaimedMeans(P.Exec(t, rest));
    }
  }

  lemma HaltedMeans(s: Session)
    requires Halted(s)
    ensures s.th.h != InClose(Ended)
  {
  }

  lemma UnclaimedMeans(s: Session)
    requires Unclaimed(s)
    ensures s.th.h != InClose(Ended)
  {
  }

  lemma NotSettled(s: Session, t: Session)
    requires !Settles(s) && t.cw == s.cw && t.clientGone == s.clientGone
    requires Sound(t) && t.th.h == InClose(WaitWriter) && !P.Doomed(t)
    ensures Unclaimed(t)
  {
    hide Sound, P.Doomed;
  }

  lemma Branches(s: Session, pick: Pick)
    requires AtWait(s.th.h) && s.th.h.close.DoneSend? && s.th.l.Select? && Sound(s)
    requires pick == if s.clientGone then OnClientGone else OnDone
    ensures var t := Step(s, Action.ByLoop(pick, F.GO));
            && t.th.l.Want? && t.cw == s.cw && t.clientGone == s.clientGone && P.Doomed(t) == P.Doomed(s) && !t.bc.ctxDone
            && (s.clientGone ==> t.th.h == s.th.h && P.Unheard(t))
            && (!s.clientGone ==> AtWait(t.th.h) && !t.th.h.close.DoneSend?)
            && (!s.clientGone && !s.th.h.close.writeErr ==> t.th.h == InClose(WaitWriter))
  {
    hide C.Inv, W.Inv, P.Doomed, Tail;
    SameReceiver(s, Step(s, Action.ByLoop(pick, F.GO)));
  }

  lemma NotClosedYet(s: Session)
    requires Sound(s) && s.th.l.Select?
    ensures !s.bc.stream.closed
  {
    hide W.Inv, P.Tidy, Tail;
    hide C.Scan, C.Fits;
  }

  /** From each of its waiting points the interceptor comes to its end, in all such rounds, if and only if the
      condition for that point holds. */
  lemma ReturnsIff(schedule: seq<Action>)
    requires AtWait(Run(schedule).th.h)
    ensures Returns(Run(schedule)) <==>
            forall k: nat, rounds: seq<seq<Action>> ::
              Patient(Run(schedule), rounds, k) ==> Run(schedule + P.Flatten(rounds)).th.h == InClose(Ended)
  {
    hide Run, Step, P.Exec, P.Flatten, Returns, Sound, Rest, Heeded, F.LockFair, F.Polite, F.EndsLate;
    var s := Run(schedule);
    if Returns(s) {
      SoundAlways(schedule);
      StartsOnWay(s);
      forall k: nat, rounds: seq<seq<Action>> | Patient(s, rounds, k)
        ensures Run(schedule + P.Flatten(rounds)).th.h == InClose(Ended)
      {
        RoundsReturn(s, rounds, k);
        P.RunThenExec(schedule, P.Flatten(rounds));
      }
    } else {
      var k, rounds := ReturnFails(schedule);
    }
  }

  /** A response that nobody reads to its end, or that is never recorded: no Meta frame and no cancel is sent, and the
      interceptor waits for the content writer until the client leaves. */
  lemma UnreadWaitsForever(schedule: seq<Action>, more: seq<Action>)
    requires var s := Run(schedule);
             s.th.h == InClose(WaitWriter) && s.cw.open && !s.cw.gate.done && !s.clientGone && !P.Doomed(s)
    requires F.Courteous(Run(schedule), more) && Stays(more)
    ensures var t := Run(schedule + more); t.th.h == InClose(WaitWriter) && !t.cw.ctxDone
  {
    hide Run, Step, Sound, P.Exec, P.Doomed, F.Courteous;
    SoundAlways(schedule);
    UnclaimedForever(Run(schedule), more);
    P.RunThenExec(schedule, more);
    Unheld(Run(schedule + more));
  }
}
