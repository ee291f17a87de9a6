/** How a session ends: errors, write errors and cached responses cancel the content writer, an error that
    the client is told is never archived, and the interceptor returns only when both streams are settled. */
module Closing {
  import opened Frames
  import opened Session
  import E = Effects
  import C = ControllerProtocol
  import W = WriterProtocol
  import Progress

  /** Nothing at all can reach the content writer any more. */
  predicate Silenced(w: Writer) {
    w.open ==> w.canceled && w.gate.done && !w.stream.Live()
  }

  /** How far a thread inside CancelContentWriter has got. */
  predicate Under(at: CancelPc, w: Writer) {
    match at
    case CStart => true
    case CLock => w.canceled
    case _ => w.canceled && w.gate.done
  }

  /** What other threads may do to the session of the content writer. */
  predicate Later(w: Writer, w': Writer) {
    && w'.open == w.open && (w.canceled ==> w'.canceled) && (w.gate.done ==> w'.gate.done)
    && (w.ctxDone ==> w'.ctxDone) && (w'.stream.Live() ==> w.stream.Live())
  }

  /** What the handler's program counter says about ending the session. */
  datatype Ending = Running | Failing | CancellingFor(at: CancelPc, after: After) | Replying | Done

  function EndingOf(h: HandlerPc): Ending {
    match h
    case InFail(_, _) => Failing
    case InReport(p, _) => if p.ForRequestError? then Failing else Running
    case InClose(pc) =>
      if pc.Cancelling? then CancellingFor(pc.at, pc.after) else if pc.ErrorReply? then Replying else Done
    case _ => Running
  }

  ghost predicate Error(end: Ending, w: Writer, header: ErrorHeader) {
    && (end.Failing? || !header.NoHeader? ==> !HasMeta(w.stream.wire))
    && (!header.NoHeader? ==>
          match end
          case CancellingFor(at, after) => if after.ToErrorReply? then Under(at, w) else Silenced(w)
          case Replying => Silenced(w)
          case Done => Silenced(w)
          case _ => false)
    && (header.NoHeader? ==> !end.Replying? && (end.CancellingFor? ==> !end.after.ToErrorReply?))
  }

  ghost predicate InCancel(end: Ending, w: Writer) {
    end.CancellingFor? ==> Under(end.at, w)
  }

  /** A session answered from the cache has cancelled the content writer before its body is done with. */
  ghost predicate Cached(h: HandlerPc, w: Writer, cached: bool) {
    cached && h == InClose(BodyDone) ==> Silenced(w)
  }

  /** The handler waits for the controller only when the content writer is settled. */
  ghost predicate Waiting(h: HandlerPc, w: Writer) {
    h == InClose(WaitController) && w.open ==> w.ctxDone
  }

  ghost predicate Inv(s: Session) {
    && Waiting(s.th.h, s.cw)
    && Error(EndingOf(s.th.h), s.cw, s.hist.header)
    && InCancel(EndingOf(s.th.h), s.cw)
    && Cached(s.th.h, s.cw, s.rc.cached)
  }

  // ---------- every step keeps it ----------

  lemma MetaOnlyAppended(w: seq<WriterFrame>, f: WriterFrame)
    requires !f.Meta?
    ensures HasMeta(w + [f]) <==> HasMeta(w)
  {
    MembersAppended(w, f);
  }

  /** What another thread does to the content writer. */
  lemma LaterKept(s: Session, w: Writer)
    requires Inv(s) && Later(s.cw, w) && (HasMeta(w.stream.wire) <==> HasMeta(s.cw.stream.wire))
    ensures Inv(WithCw(s, w))
  {
    hide HasMeta;
  }

  /** When nobody is inside `c.m` and a terminal frame has been claimed, the stream is dead. */
  predicate Left(w: Writer) {
    w.gate.owner.None? && w.gate.done ==> !w.stream.Live()
  }

  lemma LeftAlways(s: Session)
    requires W.Inv(s)
    ensures Left(s.cw)
  {
    hide Frames.Sent, Terminals, HasMeta, OnlyRequest, Faithful;
  }

  lemma CancelMeans(w: Writer, at: CancelPc, me: Thread, ok: bool)
    ensures var (w', next) := CancelStep(w, at, me, ok);
            && Later(w, w') && (HasMeta(w'.stream.wire) <==> HasMeta(w.stream.wire))
            && (Under(at, w) && Left(w) ==> if next.Some? then Under(next.value, w') else Silenced(w'))
  {
    hide HasMeta;
    MetaOnlyAppended(w.stream.wire, Cancel);
  }

  lemma WatchMeans(w: Writer, d: DisconnectPc, ok: bool)
    ensures var w' := WatchStep(w, d, ok).0;
            Later(w, w') && (HasMeta(w'.stream.wire) <==> HasMeta(w.stream.wire))
  {
    hide HasMeta;
    MetaOnlyAppended(w.stream.wire, Cancel);
  }

  /** Until the body is done with, there is no Meta and no error header. */
  lemma NoMetaYet(s: Session)
    requires W.Inv(s) && (s.th.h.InRegister? || s.th.h.InRequest? || s.th.h.InResponse? || s.th.h.InBody?)
    ensures !HasMeta(s.cw.stream.wire)
  {
    hide Frames.Sent, Faithful, HasMeta;
  }

  lemma ByRegister(s: Session, pc: RegisterPc, e: Env)
    requires Inv(s) && !HasMeta(s.cw.stream.wire) && s.th.h == InRegister(pc)
    ensures Inv(RegisterStep(s, pc, e))
  {
    hide HasMeta;
  }

  lemma ByRequest(s: Session, pc: RequestPc, e: Env)
    requires Inv(s) && !HasMeta(s.cw.stream.wire) && s.th.h == InRequest(pc)
    ensures Inv(RequestStep(s, pc, e))
  {
    hide HasMeta;
    if pc.ReqHeaderSend? { MetaOnlyAppended(s.cw.stream.wire, Header(REQUEST, pc.prolog)); }
  }

  lemma ByResponse(s: Session, pc: ResponsePc, e: Env)
    requires Inv(s) && W.Inv(s) && s.th.h == InResponse(pc)
    ensures Inv(ResponseStep(s, pc, e))
  {
    hide HasMeta, W.Inv;
    NoMetaYet(s);
    Uncached(s);
    if pc.RespHeaderSend? { MetaOnlyAppended(s.cw.stream.wire, Header(RESPONSE, pc.prolog)); }
  }

  lemma Uncached(s: Session)
    requires W.Inv(s) && s.th.h.InResponse?
    ensures !s.rc.cached
  {
    hide Frames.Sent, Faithful, HasMeta;
  }

  lemma AfterChunkMeans(u: Session, res: ReadResult)
    requires u.hist.header.NoHeader?
    ensures Inv(AfterChunk(u, res))
  {
  }

  lemma ByBody(s: Session, pc: BodyPc, e: Env)
    requires Inv(s) && s.th.h == InBody(pc) && !pc.Forward? && !pc.ForwardSend?
    ensures Inv(BodyStep(s, pc, e))
  {
    hide HasMeta, AfterChunk;
    AfterChunkMeans(s, e.res);
  }

  lemma ByForward(s: Session, pc: BodyPc, e: Env)
    requires Inv(s) && s.th.h == InBody(pc) && (pc.Forward? || pc.ForwardSend?)
    ensures Inv(BodyStep(s, pc, e))
  {
    hide HasMeta, AfterChunk;
    var sent := SendW(s, Payload(RESPONSE, pc.chunk.data), e.ok);
    AfterChunkMeans(LoseResp(s), pc.chunk.res);
    AfterChunkMeans(if s.cw.stream.Live() && e.ok then sent else LoseResp(sent), pc.chunk.res);
  }

  lemma ByMeta(s: Session, pc: MetaPc, e: Env)
    requires Inv(s) && !s.rc.cached && s.th.h == InMeta(pc)
    ensures Inv(MetaStep(s, pc, e))
  {
    hide HasMeta;
  }

  lemma MetaUncached(s: Session)
    requires W.Inv(s) && s.th.h.InMeta?
    ensures !s.rc.cached
  {
    hide Frames.Sent, Faithful, HasMeta;
  }

  lemma ByReport(s: Session, p: Purpose, pc: ReportPc, e: Env)
    requires Inv(s) && s.th.h == InReport(p, pc) && (s.rc.cached ==> p.ForSave?)
    ensures Inv(ReportStep(s, p, pc, e))
  {
    hide HasMeta;
  }

  lemma ByFail(s: Session, code: int, pc: FailPc, e: Env)
    requires Inv(s) && s.th.h == InFail(code, pc)
    ensures Inv(FailStep(s, code, pc, e))
  {
    hide HasMeta;
  }

  lemma ByClose(s: Session, pc: ClosePc, e: Env)
    requires Inv(s) && Left(s.cw) && s.th.h == InClose(pc)
    ensures Inv(CloseStep(s, pc, e))
  {
    hide HasMeta, CancelStep;
    if pc.Cancelling? { CancelMeans(s.cw, pc.at, Handler, e.ok); }
  }

  lemma CachedSaves(s: Session)
    requires C.Inv(s) && s.rc.cached && s.th.h.InReport?
    ensures s.th.h.p.ForSave?
  {
    hide C.Scan;
  }

  lemma ByHandler(s: Session, e: Env)
    requires Inv(s) && W.Inv(s) && C.Inv(s)
    ensures Inv(HandlerStep(s, e))
  {
    hide Inv, W.Inv, C.Inv, HasMeta, RegisterStep, RequestStep, ResponseStep, BodyStep, MetaStep, ReportStep,
         FailStep, CloseStep;
    match s.th.h
    case InRegister(pc) => NoMetaYet(s); ByRegister(s, pc, e);
    case InRequest(pc) => NoMetaYet(s); ByRequest(s, pc, e);
    case InResponse(pc) => ByResponse(s, pc, e);
    case InBody(pc) => if pc.Forward? || pc.ForwardSend? { ByForward(s, pc, e); } else { ByBody(s, pc, e); }
    case InMeta(pc) => MetaUncached(s); ByMeta(s, pc, e);
    case InReport(p, pc) => if s.rc.cached { CachedSaves(s); } ByReport(s, p, pc, e);
    case InFail(code, pc) => ByFail(s, code, pc, e);
    case InClose(pc) => LeftAlways(s); ByClose(s, pc, e);
  }

  lemma TransportMeans(s: Session, e: Env)
    ensures var t := TransportStep(s, e);
            && Later(s.cw, t.cw) && (HasMeta(t.cw.stream.wire) <==> HasMeta(s.cw.stream.wire))
            && t.th.h == s.th.h && t.hist.header == s.hist.header && t.rc.cached == s.rc.cached
  {
    hide HasMeta;
    if s.th.t.TForwardSend? { MetaOnlyAppended(s.cw.stream.wire, Payload(REQUEST, s.th.t.chunk.data)); }
  }

  lemma ByTransport(s: Session, e: Env)
    requires Inv(s)
    ensures Inv(TransportStep(s, e))
  {
    hide HasMeta, TransportStep, EndingOf;
    TransportMeans(s, e);
  }

  lemma ByLoop(s: Session, pick: Pick, e: Env)
    requires Inv(s) && C.Inv(s)
    ensures Inv(LoopStep(s, pick, e))
  {
    hide HasMeta, C.Inv;
    if s.th.l.Select? && s.rc.cached && s.th.h.InReport? { CachedSaves(s); }
  }

  lemma ByReceiver(s: Session, e: Env)
    requires Inv(s) && !s.th.r.RCancelling? && (s.th.h.InRegister? ==> !HasMeta(s.cw.stream.wire))
    ensures Inv(ReceiverStep(s, e))
  {
    hide HasMeta, CancelStep;
  }

  lemma ByReceiverCancel(s: Session, e: Env)
    requires Inv(s) && s.th.r.RCancelling?
    ensures Inv(ReceiverStep(s, e))
  {
    hide HasMeta, CancelStep, EndingOf;
    CancelMeans(s.cw, s.th.r.at, Receiver, e.ok);
    LaterKept(s, CancelStep(s.cw, s.th.r.at, Receiver, e.ok).0);
  }

  lemma ByDisconnect(s: Session, e: Env)
    requires Inv(s)
    ensures Inv(DisconnectStep(s, e))
  {
    hide HasMeta, WatchStep, EndingOf;
    WatchMeans(s.cw, s.th.d, e.ok);
    LaterKept(s, WatchStep(s.cw, s.th.d, e.ok).0);
  }

  lemma Kept(s: Session, a: Action)
    requires Inv(s) && W.Inv(s) && C.Inv(s)
    ensures Inv(Step(s, a))
  {
    hide W.Inv, C.Inv, HasMeta, HandlerStep, TransportStep, LoopStep, ReceiverStep, DisconnectStep, EndingOf, Error;
    match a
    case ByHandler(e) => ByHandler(s, e);
    case ByTransport(e) => ByTransport(s, e);
    case ByLoop(pick, e) => ByLoop(s, pick, e);
    case ByReceiver(e) =>
      if s.th.r.RCancelling? { ByReceiverCancel(s, e); }
      else {
        if s.th.h.InRegister? { NoMetaYet(s); }
        ByReceiver(s, e);
      }
    case ByDisconnect(e) => ByDisconnect(s, e);
    case _ =>
  }

  lemma {:induction false} Always(schedule: seq<Action>)
    ensures Inv(Run(schedule))
  {
    hide Step, W.Inv, C.Inv;
    if schedule != [] {
      var init := schedule[..|schedule| - 1];
      Always(init);
      W.Always(init);
      C.Always(init);
      hide Inv;
      Kept(Run(init), schedule[|schedule| - 1]);
    }
  }

  // ---------- what every run guarantees ----------

  /** An error that the client is told is never archived: no Meta reaches the content writer, and once the
      error response is being written, a content writer that was opened has been cancelled and its stream
      is dead. */
  lemma ErrorsAreNotArchived(schedule: seq<Action>)
    requires !Run(schedule).hist.header.NoHeader?
    ensures var s := Run(schedule);
            && !HasMeta(s.cw.stream.wire) && !s.cw.acked
            && (!(s.th.h.InClose? && s.th.h.close.Cancelling?) && s.cw.open ==>
                  s.cw.canceled && s.cw.gate.done && !s.cw.stream.Live())
  {
    hide HasMeta;
    Always(schedule);
    AckedMeansMeta(schedule);
  }

  lemma AckedMeansMeta(schedule: seq<Action>)
    ensures Run(schedule).cw.acked ==> HasMeta(Run(schedule).cw.stream.wire)
  {
    hide HasMeta, Terminals, Frames.Sent, Faithful;
    W.Always(schedule);
  }

  /** From a failed write to the client on, until the handler waits for the content writer. */
  ghost predicate WriteFailed(s: Session) {
    && s.th.h.InClose?
    && match s.th.h.close
       case DoneSend(writeErr) => writeErr
       case Cancelling(at, after) => after.ToWait? && Under(at, s.cw)
       case WaitWriter => Silenced(s.cw)
       case WaitController => Silenced(s.cw)
       case Ended => Silenced(s.cw)
       case _ => false
  }

  /** The handler has seen that the content writer is settled, and waits for the controller. */
  ghost predicate Settled(s: Session) {
    && (s.th.h == InClose(WaitController) || (s.th.h == InClose(Ended) && s.bc.ctxDone))
    && (s.cw.open ==> s.cw.ctxDone)
  }

  lemma OthersLater(s: Session, a: Action)
    requires s.th.h.InClose? && !a.ByHandler?
    ensures var t := Step(s, a);
            && Later(s.cw, t.cw) && (s.bc.ctxDone ==> t.bc.ctxDone)
            && (t.th.h == s.th.h || (a.ByLoop? && s.th.h.close.DoneSend? &&
                  t.th.h == InClose(if s.th.h.close.writeErr then Cancelling(CStart, ToWait) else WaitWriter)))
  {
    hide HasMeta, CancelStep, WatchStep, TransportStep;
    match a
    case ByTransport(e) => TransportMeans(s, e); E.TransportMeans(s, e);
    case ByReceiver(e) => if s.th.r.RCancelling? { CancelMeans(s.cw, s.th.r.at, Receiver, e.ok); }
    case ByDisconnect(e) => WatchMeans(s.cw, s.th.d, e.ok);
    case _ =>
  }

  lemma ClosingStep(s: Session, e: Env)
    requires (WriteFailed(s) || Settled(s)) && Left(s.cw)
    ensures WriteFailed(s) ==> WriteFailed(HandlerStep(s, e))
    ensures Settled(s) ==> Settled(HandlerStep(s, e))
  {
    hide HasMeta, CancelStep;
    if s.th.h.close.Cancelling? { CancelMeans(s.cw, s.th.h.close.at, Handler, e.ok); }
  }

  lemma {:induction false} KeptOn(s: Session, actions: seq<Action>)
    requires W.Inv(s)
    ensures WriteFailed(s) ==> WriteFailed(Progress.Exec(s, actions))
    ensures Settled(s) ==> Settled(Progress.Exec(s, actions))
    decreases |actions|
  {
    if actions != [] && (WriteFailed(s) || Settled(s)) {
      hide W.Inv, Left;
      var a, t := actions[0], Step(s, actions[0]);
      LeftAlways(s);
      W.Kept(s, a);
      if a.ByHandler? { ClosingStep(s, a.e); } else { OthersLater(s, a); }
      hide Step;
      KeptOn(t, actions[1..]);
    }
  }

  /** If writing the response to the client failed, the handler cancels the content writer before it waits
      for it: from then on its stream is dead. */
  lemma WriteErrorCancels(schedule: seq<Action>, more: seq<Action>)
    requires Run(schedule).th.h == InClose(DoneSend(true))
    ensures var t := Run(schedule + more);
            t.th.h.InClose? && !t.th.h.close.DoneSend? && !t.th.h.close.Cancelling? && t.cw.open ==>
              t.cw.canceled && t.cw.gate.done && !t.cw.stream.Live()
  {
    hide Run, Step, Progress.Exec, W.Inv;
    W.Always(schedule);
    Progress.RunThenExec(schedule, more);
    KeptOn(Run(schedule), more);
  }

  /** WaitForCompleted: when the interceptor returns after waiting, finish has ended the session, and the
      content writer's stream, if it was opened, has had its one terminal attempt and can carry nothing more. */
  lemma WaitMeansSettled(schedule: seq<Action>, more: seq<Action>)
    requires Run(schedule).th.h == InClose(WaitController)
    ensures Run(schedule).cw.open ==> Run(schedule).cw.ctxDone
    ensures var t := Run(schedule + more);
            t.th.h == InClose(Ended) ==>
              t.bc.ctxDone && (t.cw.open ==> t.cw.gate.tries == 1 && !t.cw.stream.Live())
  {
    hide Run, Step, Progress.Exec, Terminals, HasMeta;
    Always(schedule);
    Progress.RunThenExec(schedule, more);
    W.Always(schedule);
    KeptOn(Run(schedule), more);
    W.Always(schedule + more);
  }
}
