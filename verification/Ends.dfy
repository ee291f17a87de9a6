/** What has come to its end in a run when Meta is sent, a success is reported, and the response is said to be completed. */
module Ends {
  import opened Frames
  import opened Session
  import E = Effects
  import N = Responses
  import W = WriterProtocol

  // ---------- what happens in a run ----------

  /** The handler's step reads the response to its end. */
  predicate ReadsEnd(s: Session, a: Action) {
    a.ByHandler? && s.th.h == InBody(Reading) && !a.e.flag && a.e.res.Eof?
  }

  /** The transport's step reads the request body to its end. */
  predicate DrainsRequest(s: Session, a: Action) {
    a.ByTransport? && s.th.t.TReading? && a.e.res.Eof?
  }

  /** Whether writing to the client fails, in the step that ends it. */
  function WritesEnd(s: Session, a: Action): Option<bool> {
    if !a.ByHandler? then None
    else if s.th.h == InBody(Reading) && a.e.flag then Some(a.e.ok)
    else if s.th.h == InClose(BodyDone) || s.th.h == InClose(ErrorReply) then Some(a.e.flag)
    else None
  }

  datatype Course = Course(responseEnded: bool, requestEnded: bool, writeFailed: Option<bool>)

  function On(c: Course, s: Session, a: Action): Course {
    var w := WritesEnd(s, a);
    Course(c.responseEnded || ReadsEnd(s, a), c.requestEnded || DrainsRequest(s, a), if w.Some? then w else c.writeFailed)
  }

  function CourseOf(schedule: seq<Action>): Course {
    if schedule == [] then Course(false, false, None)
    else
      var before := schedule[..|schedule| - 1];
      On(CourseOf(before), Run(before), schedule[|schedule| - 1])
  }

  // ---------- the invariant ----------

  predicate ResponseAt(h: HandlerPc, ended: bool) {
    match h
    case InBody(pc) => !pc.Reading? && pc.chunk.res.Eof? ==> ended
    case InMeta(_) => ended
    case InReport(p, _) => p.ForRequestError? || ended
    case _ => true
  }

  predicate RequestAt(t: TransportPc, h: HandlerPc, drained: bool, ended: bool) {
    && (t.TFill? || t.TEof? || drained ==> ended)
    && ((t.TForward? || t.TForwardSend?) && t.chunk.res.Eof? ==> ended)
    && (h.InMeta? && (h.meta.MetaLock? || h.meta.MetaSend?) && h.meta.drained ==> ended)
  }

  predicate WriteAt(h: HandlerPc, failed: Option<bool>) {
    && (h.InClose? && h.close.Closing? ==> failed == Some(h.close.writeErr))
    && (h.InClose? && h.close.DoneSend? ==> failed == Some(h.close.writeErr))
  }

  ghost predicate Inv(s: Session, c: Course) {
    && ResponseAt(s.th.h, c.responseEnded)
    && (HasMeta(s.cw.stream.wire) ==> c.responseEnded)
    && (N.Success(s.bc.complete) ==> c.responseEnded)
    && (s.th.h.InReport? && s.th.h.rep.Post? && s.th.h.p.ForRequestError? ==> s.th.h.rep.msg.err.Some?)
    && (s.th.r.RPost? ==> s.th.r.msg.err.Some?)
    && RequestAt(s.th.t, s.th.h, s.hist.metaDrained, c.requestEnded)
    && WriteAt(s.th.h, c.writeFailed)
  }

  // ---------- every step keeps it ----------

  lemma Sends(st: Stream<WriterFrame>, f: WriterFrame, ok: bool)
    ensures !f.Meta? && HasMeta(st.Send(f, ok).wire) ==> HasMeta(st.wire)
  {
    MembersAppended(st.wire, f);
  }

  lemma ByRegister(s: Session, pc: RegisterPc, e: Env, c: Course)
    requires Inv(s, c) && s.th.h == InRegister(pc)
    ensures Inv(RegisterStep(s, pc, e), On(c, s, Action.ByHandler(e)))
  {
    hide HasMeta;
  }

  lemma ByRequest(s: Session, pc: RequestPc, e: Env, c: Course)
    requires Inv(s, c) && s.th.h == InRequest(pc)
    ensures Inv(RequestStep(s, pc, e), On(c, s, Action.ByHandler(e)))
  {
    hide HasMeta, Stream.Send, RequestAt;
    if pc.ReqHeaderSend? { Sends(s.cw.stream, Header(REQUEST, pc.prolog), e.ok); }
    var t := RequestStep(s, pc, e);
    RequestMoves(s.th.t, s.th.h, t.th.t, t.th.h, s.hist.metaDrained, c.requestEnded);
  }

  lemma RequestMoves(t: TransportPc, h: HandlerPc, t': TransportPc, h': HandlerPc, drained: bool, ended: bool)
    requires RequestAt(t, h, drained, ended) && (t' == t || t'.TReading?) && !h'.InMeta?
    ensures RequestAt(t', h', drained, ended)
  {
  }

  lemma ByResponse(s: Session, pc: ResponsePc, e: Env, c: Course)
    requires Inv(s, c) && s.th.h == InResponse(pc) && !pc.RespHeaderSend?
    ensures Inv(ResponseStep(s, pc, e), On(c, s, Action.ByHandler(e)))
  {
    hide HasMeta, Stream.Send, RequestAt;
    RequestMoves(s.th.t, s.th.h, s.th.t, ResponseStep(s, pc, e).th.h, s.hist.metaDrained, c.requestEnded);
  }

  lemma ByRespHeader(s: Session, pc: ResponsePc, e: Env, c: Course)
    requires Inv(s, c) && s.th.h == InResponse(pc) && pc.RespHeaderSend?
    ensures Inv(ResponseStep(s, pc, e), On(c, s, Action.ByHandler(e)))
  {
    hide HasMeta, Stream.Send, RequestAt, ResponseStep;
    W.RespHeaderMeans(s, pc, e);
    Sends(s.cw.stream, Header(RESPONSE, pc.prolog), e.ok);
    RequestMoves(s.th.t, s.th.h, s.th.t, ResponseStep(s, pc, e).th.h, s.hist.metaDrained, c.requestEnded);
  }

  lemma ChunkEnds(u: Session, res: ReadResult, ended: bool)
    requires res.Eof? ==> ended
    ensures ResponseAt(AfterChunk(u, res).th.h, ended)
  {
  }

  lemma ByReading(s: Session, e: Env, c: Course)
    requires Inv(s, c) && s.th.h == InBody(Reading)
    ensures Inv(BodyStep(s, Reading, e), On(c, s, Action.ByHandler(e)))
  {
    hide HasMeta, AfterChunk;
    N.AfterChunkMeans(s, e.res);
    ChunkEnds(s, e.res, c.responseEnded || e.res.Eof?);
  }

  lemma ByNotify(s: Session, pc: BodyPc, e: Env, c: Course)
    requires Inv(s, c) && s.th.h == InBody(pc) && (pc.Notify? || pc.NotifySend?)
    ensures Inv(BodyStep(s, pc, e), On(c, s, Action.ByHandler(e)))
  {
    hide HasMeta, Stream.Send;
  }

  lemma ByForward(s: Session, pc: BodyPc, e: Env, c: Course)
    requires Inv(s, c) && s.th.h == InBody(pc) && (pc.Forward? || pc.ForwardSend?)
    ensures Inv(BodyStep(s, pc, e), On(c, s, Action.ByHandler(e)))
  {
    hide HasMeta, BodyStep, RequestAt;
    N.SendsChunk(s, pc, e);
    ForwardEnds(s, pc, e, c.responseEnded);
    OnwardRequest(s.th.t, s.th.h, BodyStep(s, pc, e).th.h, s.hist.metaDrained, c.requestEnded);
  }

  lemma OnwardRequest(t: TransportPc, h: HandlerPc, h': HandlerPc, drained: bool, ended: bool)
    requires RequestAt(t, h, drained, ended) && (h'.InMeta? ==> h'.meta.NotifyAll?)
    ensures RequestAt(t, h', drained, ended)
  {
  }

  lemma ForwardEnds(s: Session, pc: BodyPc, e: Env, ended: bool)
    requires s.th.h == InBody(pc) && (pc.Forward? || pc.ForwardSend?) && (pc.chunk.res.Eof? ==> ended)
    ensures var t := BodyStep(s, pc, e);
            && ResponseAt(t.th.h, ended) && (HasMeta(t.cw.stream.wire) ==> HasMeta(s.cw.stream.wire))
            && !t.th.h.InClose?
  {
    hide HasMeta, Stream.Send, AfterChunk;
    var sent := SendW(s, Payload(RESPONSE, pc.chunk.data), e.ok);
    var u := if s.cw.stream.Live() && e.ok then sent else LoseResp(sent);
    Sends(s.cw.stream, Payload(RESPONSE, pc.chunk.data), e.ok);
    N.AfterChunkMeans(LoseResp(s), pc.chunk.res);
    N.AfterChunkMeans(u, pc.chunk.res);
    ChunkEnds(LoseResp(s), pc.chunk.res, ended);
    ChunkEnds(u, pc.chunk.res, ended);
  }

  lemma ByMeta(s: Session, pc: MetaPc, e: Env, c: Course)
    requires Inv(s, c) && s.th.h == InMeta(pc)
    ensures Inv(MetaStep(s, pc, e), On(c, s, Action.ByHandler(e)))
  {
    hide HasMeta, Stream.Send;
  }

  lemma ByReport(s: Session, p: Purpose, pc: ReportPc, e: Env, c: Course)
    requires Inv(s, c) && s.th.h == InReport(p, pc)
    ensures Inv(ReportStep(s, p, pc, e), On(c, s, Action.ByHandler(e)))
  {
    hide HasMeta;
  }

  lemma ByFail(s: Session, code: int, pc: FailPc, e: Env, c: Course)
    requires Inv(s, c) && s.th.h == InFail(code, pc)
    ensures Inv(FailStep(s, code, pc, e), On(c, s, Action.ByHandler(e)))
  {
    hide HasMeta, FailStep;
    N.FailMoves(s, code, pc, e);
  }

  lemma ByClose(s: Session, pc: ClosePc, e: Env, c: Course)
    requires Inv(s, c) && s.th.h == InClose(pc)
    ensures Inv(CloseStep(s, pc, e), On(c, s, Action.ByHandler(e)))
  {
    hide HasMeta, CancelStep;
    if pc.Cancelling? { CancelIsNoMeta(s.cw, pc.at, Handler, e.ok); }
  }

  lemma CancelIsNoMeta(w: Writer, at: CancelPc, me: Thread, ok: bool)
    ensures HasMeta(CancelStep(w, at, me, ok).0.stream.wire) ==> HasMeta(w.stream.wire)
  {
    hide HasMeta, Stream.Send;
    Sends(w.stream, Cancel, ok);
  }

  lemma WatchIsNoMeta(w: Writer, d: DisconnectPc, ok: bool)
    ensures HasMeta(WatchStep(w, d, ok).0.stream.wire) ==> HasMeta(w.stream.wire)
  {
    hide HasMeta, Stream.Send;
    Sends(w.stream, Cancel, ok);
  }

  lemma ByHandler(s: Session, e: Env, c: Course)
    requires Inv(s, c)
    ensures Inv(HandlerStep(s, e), On(c, s, Action.ByHandler(e)))
  {
    hide Inv, RegisterStep, RequestStep, ResponseStep, BodyStep, MetaStep, ReportStep, FailStep, CloseStep;
    match s.th.h
    case InRegister(pc) => ByRegister(s, pc, e, c);
    case InRequest(pc) => ByRequest(s, pc, e, c);
    case InResponse(pc) => if pc.RespHeaderSend? { ByRespHeader(s, pc, e, c); } else { ByResponse(s, pc, e, c); }
    case InBody(pc) =>
      if pc.Reading? { ByReading(s, e, c); }
      else if pc.Notify? || pc.NotifySend? { ByNotify(s, pc, e, c); }
      else { ByForward(s, pc, e, c); }
    case InMeta(pc) => ByMeta(s, pc, e, c);
    case InReport(p, pc) => ByReport(s, p, pc, e, c);
    case InFail(code, pc) => ByFail(s, code, pc, e, c);
    case InClose(pc) => ByClose(s, pc, e, c);
  }

  lemma ByTransport(s: Session, e: Env, c: Course)
    requires Inv(s, c)
    ensures Inv(TransportStep(s, e), On(c, s, Action.ByTransport(e)))
  {
    hide HasMeta, TransportStep, ResponseAt, WriteAt;
    E.TransportMeans(s, e);
    TransportEnds(s, e, c.requestEnded);
  }

  lemma TransportEnds(s: Session, e: Env, ended: bool)
    requires RequestAt(s.th.t, s.th.h, s.hist.metaDrained, ended)
    ensures var t := TransportStep(s, e);
            && (HasMeta(t.cw.stream.wire) ==> HasMeta(s.cw.stream.wire)) && t.hist.metaDrained == s.hist.metaDrained
            && RequestAt(t.th.t, s.th.h, s.hist.metaDrained, ended || DrainsRequest(s, Action.ByTransport(e)))
  {
    hide HasMeta, Stream.Send;
    if s.th.t.TForwardSend? { Sends(s.cw.stream, Payload(REQUEST, s.th.t.chunk.data), e.ok); }
  }

  lemma ByLoop(s: Session, pick: Pick, e: Env, c: Course)
    requires Inv(s, c)
    ensures Inv(LoopStep(s, pick, e), c)
  {
    hide HasMeta, LoopStep, RequestAt;
    if s.th.l.Select? {
      hide Inv;
      BySelect(s, pick, c);
      SelectIs(s, pick, e);
    } else {
      E.LoopMeans(s, pick, e);
      N.FinishMeans(s, pick, e);
      SameRequest(s, LoopStep(s, pick, e), c.requestEnded);
    }
  }

  lemma SelectIs(s: Session, pick: Pick, e: Env)
    requires s.th.l.Select?
    ensures LoopStep(s, pick, e) == SelectStep(s, pick)
  {
    hide SelectStep;
  }

  lemma SameRequest(s: Session, t: Session, ended: bool)
    requires t.th.t == s.th.t && t.th.h == s.th.h && t.hist.metaDrained == s.hist.metaDrained
    ensures RequestAt(t.th.t, t.th.h, t.hist.metaDrained, ended) == RequestAt(s.th.t, s.th.h, s.hist.metaDrained, ended)
  {
  }

  lemma BySelect(s: Session, pick: Pick, c: Course)
    requires Inv(s, c) && s.th.l.Select?
    ensures Inv(SelectStep(s, pick), c)
  {
    hide HasMeta;
  }

  lemma ByReceiver(s: Session, e: Env, c: Course)
    requires Inv(s, c)
    ensures Inv(ReceiverStep(s, e), c)
  {
    hide HasMeta, ReceiverStep;
    E.ReceiverMeans(s, e);
    ReceiverIsNoMeta(s, e);
  }

  lemma ReceiverIsNoMeta(s: Session, e: Env)
    ensures var t := ReceiverStep(s, e);
            && (HasMeta(t.cw.stream.wire) ==> HasMeta(s.cw.stream.wire)) && t.bc.complete == s.bc.complete
            && (t.th.r.RPost? ==> t.th.r == s.th.r || t.th.r.msg.err.Some?)
  {
    hide HasMeta, CancelStep;
    if s.th.r.RCancelling? { CancelIsNoMeta(s.cw, s.th.r.at, Receiver, e.ok); }
  }

  lemma Kept(s: Session, a: Action, c: Course)
    requires Inv(s, c)
    ensures Inv(Step(s, a), On(c, s, a))
  {
    hide HandlerStep, TransportStep, LoopStep, ReceiverStep, WatchStep, HasMeta;
    match a
    case ByHandler(e) => ByHandler(s, e, c);
    case ByTransport(e) => ByTransport(s, e, c);
    case ByLoop(pick, e) => ByLoop(s, pick, e, c);
    case ByReceiver(e) => ByReceiver(s, e, c);
    case ByDisconnect(e) => WatchIsNoMeta(s.cw, s.th.d, e.ok);
    case _ =>
  }

  lemma {:induction false} Always(schedule: seq<Action>)
    ensures Inv(Run(schedule), CourseOf(schedule))
  {
    hide Step, Inv, On;
    if schedule == [] {
      Nothing();
    } else {
      var before := schedule[..|schedule| - 1];
      Always(before);
      Kept(Run(before), schedule[|schedule| - 1], CourseOf(before));
    }
  }

  lemma Nothing()
    ensures Inv(Init(), Course(false, false, None))
  {
    hide RequestAt;
    NothingDrained(Init().th.t, Init().th.h);
  }

  lemma NothingDrained(t: TransportPc, h: HandlerPc)
    requires t.TOff? && h.InRegister?
    ensures RequestAt(t, h, false, false)
  {
  }

  // ---------- what a run guarantees ----------

  /** Meta is sent, and a success reported, only of a response that has been read to its end without an error, and the
      request counts as drained only if its body has. */
  lemma OnlyAtTheEnd(schedule: seq<Action>)
    ensures var s, c := Run(schedule), CourseOf(schedule);
            && (HasMeta(s.cw.stream.wire) ==> c.responseEnded)
            && (N.Success(s.bc.complete) ==> c.responseEnded)
            && (s.hist.metaDrained ==> c.requestEnded)
  {
    hide Run, CourseOf, HasMeta;
    Always(schedule);
  }

  /** The interceptor says of the write to the client what became of it. */
  lemma WriteErrorIsSaid(schedule: seq<Action>)
    requires Run(schedule).th.h.InClose? && Run(schedule).th.h.close.DoneSend?
    ensures CourseOf(schedule).writeFailed == Some(Run(schedule).th.h.close.writeErr)
  {
    hide Run, CourseOf, HasMeta;
    Always(schedule);
  }
}
