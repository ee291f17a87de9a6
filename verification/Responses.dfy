/** What a session reports about the response: its status, whether it came from the cache, and nothing of one that has not
    arrived. */
module Responses {
  import opened Frames
  import opened Session
  import E = Effects
  import T = SessionTheorems
  import W = WriterProtocol

  // ---------- the response that arrives ----------

  /** The round trip yields a response, and it is recorded. */
  predicate Arrives(s: Session, a: Action) {
    a.ByHandler? && s.th.h == InResponse(RoundTrip) && a.e.ok && !s.rc.rcError
  }

  function Arrive(arrived: Option<Env>, s: Session, a: Action): Option<Env> {
    if Arrives(s, a) then Some(a.e) else arrived
  }

  /** The response of a run: its status is the code, its prolog the data, and the flag says that it is from the cache. */
  function Arrival(schedule: seq<Action>): Option<Env> {
    if schedule == [] then None
    else
      var before := schedule[..|schedule| - 1];
      Arrive(Arrival(before), Run(before), schedule[|schedule| - 1])
  }

  // ---------- the invariant ----------

  /** Points before the response has arrived. */
  predicate Early(h: HandlerPc) {
    h.InRegister? || h.InRequest? || h == InResponse(RoundTrip)
  }

  predicate Place(h: HandlerPc, arrived: Option<Env>) {
    && (Early(h) ==> arrived.None?)
    && (h.InResponse? || h.InBody? || h.InMeta? || (h.InReport? && !h.p.ForRequestError?) ==> Early(h) || arrived.Some?)
  }

  /** The status code that the log has at a point of the handler, while nobody else writes it. */
  function StatusAt(h: HandlerPc, arrived: Option<Env>): Option<int> {
    match h
    case InRegister(_) => Some(0)
    case InRequest(pc) => Some(if pc.Filtering? then 0 else -1)
    case InResponse(pc) => if pc.RoundTrip? then Some(-1) else Status(arrived)
    case InBody(_) => Status(arrived)
    case InMeta(_) => Status(arrived)
    case InReport(p, _) => if p.ForSave? then Status(arrived) else None
    case _ => None
  }

  function Status(arrived: Option<Env>): Option<int> {
    if arrived.Some? then Some(arrived.value.code) else None
  }

  predicate Good(log: CrawlLog, status: Option<int>) {
    status.Some? ==> log.status == status.value && log.error == 0
  }

  /** While the loop listens and the controller has not cancelled, the log is the handler's. */
  predicate LiveLog(h: HandlerPc, log: CrawlLog, arrived: Option<Env>) {
    && Good(log, StatusAt(h, arrived))
    && (h.InReport? && h.p.ForSave? && h.rep.Post? ==> Good(h.rep.msg.log, Status(arrived)))
  }

  predicate Success(complete: Option<Outcome>) {
    complete.Some? && complete.value.err.None?
  }

  predicate Won(complete: Option<Outcome>, h: HandlerPc, arrived: Option<Env>, aborted: bool) {
    Success(complete) ==> arrived.Some? && h.InClose? && (!aborted ==> Good(complete.value.log, Status(arrived)))
  }

  /** No Completed while the loop listens; and its flag is true only of a cached response, and right in a success. */
  predicate Flags(w: seq<ControllerFrame>, listening: bool, success: bool, cached: bool) {
    forall i :: 0 <= i < |w| && w[i].Completed? ==>
      !listening && (w[i].cached ==> cached) && (success ==> w[i].cached == cached)
  }

  ghost predicate Inv(s: Session, arrived: Option<Env>) {
    && Place(s.th.h, arrived)
    && (s.rc.cached <==> arrived.Some? && arrived.value.flag)
    && s.hist.prologLen == (if arrived.Some? then |arrived.value.data| else 0)
    && (arrived.None? ==> OnlyRequest(s.cw.stream.wire))
    && (s.th.l.Select? && !s.hist.aborted ==> LiveLog(s.th.h, s.rc.log, arrived))
    && Won(s.bc.complete, s.th.h, arrived, s.hist.aborted)
    && Flags(s.bc.stream.wire, s.th.l.Select?, Success(s.bc.complete), s.rc.cached)
    && (s.th.h.InReport? && s.th.h.rep.Post? ==> (s.th.h.rep.msg.err.None? <==> s.th.h.p.ForSave?))
    && (s.th.r.RPost? ==> s.th.r.msg.err.Some?)
    && (s.th.r.Aborting() ==> s.hist.aborted)
  }

  // ---------- every step keeps it ----------

  lemma FlagsAppended(w: seq<ControllerFrame>, f: ControllerFrame, listening: bool, success: bool, cached: bool)
    requires Flags(w, listening, success, cached) && (f.Completed? ==> !listening && f.cached == cached)
    ensures Flags(w + [f], listening, success, cached)
  {
  }

  lemma FlagsSent(st: Stream<ControllerFrame>, f: ControllerFrame, ok: bool, listening: bool, success: bool,
                  cached: bool)
    requires Flags(st.wire, listening, success, cached) && (f.Completed? ==> !listening && f.cached == cached)
    ensures Flags(st.Send(f, ok).wire, listening, success, cached)
  {
    hide Flags;
    FlagsAppended(st.wire, f, listening, success, cached);
  }

  lemma OnlySent(st: Stream<WriterFrame>, f: WriterFrame, ok: bool)
    requires OnlyRequest(st.wire) && AboutRequest(f)
    ensures OnlyRequest(st.Send(f, ok).wire)
  {
    hide OnlyRequest, AboutRequest, HasMeta;
    MembersAppended(st.wire, f);
  }

  lemma ByRegister(s: Session, pc: RegisterPc, e: Env, arrived: Option<Env>)
    requires Inv(s, arrived) && s.th.h == InRegister(pc)
    ensures Inv(RegisterStep(s, pc, e), arrived)
  {
    hide OnlyRequest, Flags, Stream.Send;
    FlagsSent(s.bc.stream, New, e.ok, s.th.l.Select?, Success(s.bc.complete), s.rc.cached);
  }

  lemma ByRequest(s: Session, pc: RequestPc, e: Env, arrived: Option<Env>)
    requires Inv(s, arrived) && s.th.h == InRequest(pc) && !pc.ReqHeaderSend?
    ensures Inv(RequestStep(s, pc, e), arrived)
  {
    hide OnlyRequest, Flags, Stream.Send, Won;
    NotWon(s, arrived, RequestStep(s, pc, e).th.h);
  }

  lemma ByReqHeaderSend(s: Session, pc: RequestPc, e: Env, arrived: Option<Env>)
    requires Inv(s, arrived) && s.th.h == InRequest(pc) && pc.ReqHeaderSend?
    ensures Inv(RequestStep(s, pc, e), arrived)
  {
    hide OnlyRequest, Flags, Stream.Send, RequestStep, Won;
    W.ReqHeaderMeans(s, pc, e);
    NotWon(s, arrived, RequestStep(s, pc, e).th.h);
    if arrived.None? { OnlySent(s.cw.stream, Header(REQUEST, pc.prolog), e.ok); }
  }

  lemma NotWon(s: Session, arrived: Option<Env>, h: HandlerPc)
    requires Won(s.bc.complete, s.th.h, arrived, s.hist.aborted) && !s.th.h.InClose?
    ensures Won(s.bc.complete, h, arrived, s.hist.aborted)
  {
  }

  lemma ByRoundTrip(s: Session, pc: ResponsePc, e: Env, arrived: Option<Env>)
    requires Inv(s, arrived) && s.th.h == InResponse(pc) && pc.RoundTrip?
    ensures Inv(ResponseStep(s, pc, e), Arrive(arrived, s, Action.ByHandler(e)))
  {
    hide OnlyRequest;
  }

  lemma ByRespHeader(s: Session, pc: ResponsePc, e: Env, arrived: Option<Env>)
    requires Inv(s, arrived) && s.th.h == InResponse(pc) && !pc.RoundTrip?
    ensures Inv(ResponseStep(s, pc, e), arrived)
  {
    hide OnlyRequest, Flags, Stream.Send;
  }

  lemma AfterChunkMeans(u: Session, res: ReadResult)
    ensures var t := AfterChunk(u, res);
            && t.bc == u.bc && t.cw == u.cw && t.hist == u.hist && t.th == u.th.(h := t.th.h)
            && t.rc == u.rc.(log := u.rc.log.(size := t.rc.log.size))
            && (t.th.h == InBody(Reading) || t.th.h == InMeta(NotifyAll) || t.th.h == InReport(ForSave, Report))
  {
  }

  /** A step that keeps the log's status and error, and goes on within the body or past it. */
  lemma OnBody(s: Session, t: Session, arrived: Option<Env>)
    requires Inv(s, arrived) && s.th.h.InBody? && t.th == s.th.(h := t.th.h)
    requires t.th.h.InBody? || t.th.h == InMeta(NotifyAll) || t.th.h == InReport(ForSave, Report) || t.th.h.InClose?
    requires t.rc.cached == s.rc.cached && t.rc.log == s.rc.log.(size := t.rc.log.size)
    requires t.hist == s.hist.(lostResp := t.hist.lostResp) && t.bc.complete == s.bc.complete
    requires Flags(t.bc.stream.wire, t.th.l.Select?, Success(s.bc.complete), s.rc.cached)
    ensures Inv(t, arrived)
  {
    hide OnlyRequest, Flags;
  }

  /** What reading and forwarding leave alone. */
  predicate Reads(s: Session, t: Session) {
    && t.bc == s.bc && t.th == s.th.(h := t.th.h) && t.rc == s.rc.(log := s.rc.log.(size := t.rc.log.size))
    && t.hist == s.hist.(lostResp := t.hist.lostResp)
    && (t.th.h.InBody? || t.th.h == InMeta(NotifyAll) || t.th.h == InReport(ForSave, Report) || t.th.h.InClose?)
  }

  lemma TakesChunk(s: Session, e: Env)
    requires s.th.h == InBody(Reading)
    ensures Reads(s, BodyStep(s, Reading, e))
  {
    hide AfterChunk;
    AfterChunkMeans(s, e.res);
  }

  lemma SendsChunk(s: Session, pc: BodyPc, e: Env)
    requires s.th.h == InBody(pc) && (pc.Forward? || pc.ForwardSend?)
    ensures Reads(s, BodyStep(s, pc, e))
  {
    hide AfterChunk, Stream.Send;
    var sent := SendW(s, Payload(RESPONSE, pc.chunk.data), e.ok);
    AfterChunkMeans(LoseResp(s), pc.chunk.res);
    AfterChunkMeans(if s.cw.stream.Live() && e.ok then sent else LoseResp(sent), pc.chunk.res);
  }

  lemma Announces(s: Session, pc: BodyPc, e: Env)
    requires s.th.h == InBody(pc) && (pc.Notify? || pc.NotifySend?)
    ensures var t := BodyStep(s, pc, e);
            && t.th == s.th.(h := t.th.h) && t.th.h.InBody? && t.rc == s.rc.(resp := t.rc.resp) && t.hist == s.hist
            && t.bc.complete == s.bc.complete
            && (t.bc.stream == s.bc.stream || t.bc.stream == s.bc.stream.Send(Data, e.ok))
  {
    hide Stream.Send;
  }

  lemma ByBody(s: Session, pc: BodyPc, e: Env, arrived: Option<Env>)
    requires Inv(s, arrived) && s.th.h == InBody(pc)
    ensures Inv(BodyStep(s, pc, e), arrived)
  {
    hide Inv, Flags, Stream.Send, BodyStep;
    assert Flags(s.bc.stream.wire, s.th.l.Select?, Success(s.bc.complete), s.rc.cached) by { FlagsHold(s, arrived); }
    if pc.Reading? {
      TakesChunk(s, e);
    } else if pc.Forward? || pc.ForwardSend? {
      SendsChunk(s, pc, e);
    } else {
      Announces(s, pc, e);
      FlagsSent(s.bc.stream, Data, e.ok, s.th.l.Select?, Success(s.bc.complete), s.rc.cached);
    }
    OnBody(s, BodyStep(s, pc, e), arrived);
  }

  lemma FlagsHold(s: Session, arrived: Option<Env>)
    requires Inv(s, arrived)
    ensures Flags(s.bc.stream.wire, s.th.l.Select?, Success(s.bc.complete), s.rc.cached)
  {
    hide Flags, OnlyRequest;
  }

  lemma ByMeta(s: Session, pc: MetaPc, e: Env, arrived: Option<Env>)
    requires Inv(s, arrived) && s.th.h == InMeta(pc)
    ensures Inv(MetaStep(s, pc, e), arrived)
  {
    hide OnlyRequest, Flags, Stream.Send, CloseW, LeaveW, Try;
    FlagsSent(s.bc.stream, AllData, e.ok, s.th.l.Select?, Success(s.bc.complete), s.rc.cached);
  }

  lemma ByReport(s: Session, p: Purpose, pc: ReportPc, e: Env, arrived: Option<Env>)
    requires Inv(s, arrived) && s.th.h == InReport(p, pc)
    ensures Inv(ReportStep(s, p, pc, e), arrived)
  {
    hide OnlyRequest, Flags;
  }

  lemma ByFail(s: Session, code: int, pc: FailPc, e: Env, arrived: Option<Env>)
    requires Inv(s, arrived) && s.th.h == InFail(code, pc)
    ensures Inv(FailStep(s, code, pc, e), arrived)
  {
    hide OnlyRequest, Flags, FailStep, Good;
    FailMoves(s, code, pc, e);
    FlagsSent(s.bc.stream, AllData, e.ok, s.th.l.Select?, Success(s.bc.complete), s.rc.cached);
  }

  lemma FailMoves(s: Session, code: int, pc: FailPc, e: Env)
    requires s.th.h == InFail(code, pc)
    ensures var t := FailStep(s, code, pc, e);
            && t.cw == s.cw && t.rc == s.rc && t.hist == s.hist.(header := t.hist.header) && t.th == s.th.(h := t.th.h)
            && t.bc.complete == s.bc.complete
            && (t.bc.stream == s.bc.stream || t.bc.stream == s.bc.stream.Send(AllData, e.ok))
            && (t.th.h.InFail? || t.th.h.InClose? || t.th.h == InReport(ForRequestError(code), Report))
            && (t.th.h.InClose? ==> t.th.h.close.Cancelling?)
  {
    hide Stream.Send;
  }

  lemma ByClose(s: Session, pc: ClosePc, e: Env, arrived: Option<Env>)
    requires Inv(s, arrived) && s.th.h == InClose(pc)
    ensures Inv(CloseStep(s, pc, e), arrived)
  {
    hide OnlyRequest, Flags, CancelStep;
    if pc.Cancelling? { CancelAdds(s.cw, pc.at, Handler, e.ok); }
  }

  lemma CancelAdds(w: Writer, at: CancelPc, me: Thread, ok: bool)
    ensures OnlyRequest(w.stream.wire) ==> OnlyRequest(CancelStep(w, at, me, ok).0.stream.wire)
  {
    hide OnlyRequest, HasMeta;
    MembersAppended(w.stream.wire, Cancel);
    CancelIsAbout();
  }

  lemma CancelIsAbout()
    ensures AboutRequest(Cancel)
  {
  }

  lemma WatchAdds(w: Writer, d: DisconnectPc, ok: bool)
    ensures OnlyRequest(w.stream.wire) ==> OnlyRequest(WatchStep(w, d, ok).0.stream.wire)
  {
    hide OnlyRequest, HasMeta;
    MembersAppended(w.stream.wire, Cancel);
    CancelIsAbout();
  }

  lemma TransportAdds(s: Session, e: Env)
    ensures OnlyRequest(s.cw.stream.wire) ==> OnlyRequest(TransportStep(s, e).cw.stream.wire)
  {
    hide OnlyRequest, HasMeta;
    if s.th.t.TForwardSend? { MembersAppended(s.cw.stream.wire, Payload(REQUEST, s.th.t.chunk.data)); }
  }

  lemma ByHandler(s: Session, e: Env, arrived: Option<Env>)
    requires Inv(s, arrived)
    ensures Inv(HandlerStep(s, e), Arrive(arrived, s, Action.ByHandler(e)))
  {
    hide Inv, RegisterStep, RequestStep, ResponseStep, BodyStep, MetaStep, ReportStep, FailStep, CloseStep;
    match s.th.h
    case InRegister(pc) => ByRegister(s, pc, e, arrived);
    case InRequest(pc) =>
      if pc.ReqHeaderSend? { ByReqHeaderSend(s, pc, e, arrived); } else { ByRequest(s, pc, e, arrived); }
    case InResponse(pc) =>
      if pc.RoundTrip? { ByRoundTrip(s, pc, e, arrived); } else { ByRespHeader(s, pc, e, arrived); }
    case InBody(pc) => ByBody(s, pc, e, arrived);
    case InMeta(pc) => ByMeta(s, pc, e, arrived);
    case InReport(p, pc) => ByReport(s, p, pc, e, arrived);
    case InFail(code, pc) => ByFail(s, code, pc, e, arrived);
    case InClose(pc) => ByClose(s, pc, e, arrived);
  }

  lemma BySelect(s: Session, pick: Pick, arrived: Option<Env>)
    requires Inv(s, arrived) && s.th.l.Select?
    ensures Inv(SelectStep(s, pick), arrived)
  {
    hide Inv;
    if pick.OnHandler? && s.th.h.InReport? && s.th.h.rep.Post? { TakesHandlers(s, arrived); }
    else if pick.OnReceiver? && s.th.r.RPost? { TakesReceivers(s, arrived); }
    else { Leaves(s, pick, arrived); }
  }

  lemma TakesHandlers(s: Session, arrived: Option<Env>)
    requires Inv(s, arrived) && s.th.l.Select? && s.th.h.InReport? && s.th.h.rep.Post?
    ensures Inv(SelectStep(s, OnHandler), arrived)
  {
    hide OnlyRequest;
  }

  lemma TakesReceivers(s: Session, arrived: Option<Env>)
    requires Inv(s, arrived) && s.th.l.Select? && s.th.r.RPost?
    ensures Inv(SelectStep(s, OnReceiver), arrived)
  {
    hide OnlyRequest, LiveLog, Place, Reported;
  }

  lemma Leaves(s: Session, pick: Pick, arrived: Option<Env>)
    requires Inv(s, arrived) && s.th.l.Select? && !(pick.OnHandler? && s.th.h.InReport? && s.th.h.rep.Post?)
    requires !(pick.OnReceiver? && s.th.r.RPost?)
    ensures Inv(SelectStep(s, pick), arrived)
  {
    hide OnlyRequest, Reported;
  }

  /** A step in which neither the handler nor the outcome moves, while the log is not the handler's alone or stays as
      it is. */
  lemma Beside(s: Session, t: Session, arrived: Option<Env>)
    requires Inv(s, arrived) && t.th.h == s.th.h && t.bc.complete == s.bc.complete && t.rc.cached == s.rc.cached
    requires t.hist.prologLen == s.hist.prologLen && (s.hist.aborted ==> t.hist.aborted)
    requires OnlyRequest(s.cw.stream.wire) ==> OnlyRequest(t.cw.stream.wire)
    requires t.th.l.Select? && !t.hist.aborted ==> s.th.l.Select? && t.rc.log == s.rc.log
    requires Flags(t.bc.stream.wire, t.th.l.Select?, Success(s.bc.complete), s.rc.cached)
    requires t.th.r.RPost? ==> t.th.r == s.th.r || t.th.r.msg.err.Some?
    requires t.th.r.Aborting() ==> s.th.r.Aborting() || t.hist.aborted
    ensures Inv(t, arrived)
  {
    hide OnlyRequest, Flags, LiveLog, Place;
  }

  lemma ByFinish(s: Session, pick: Pick, e: Env, arrived: Option<Env>)
    requires Inv(s, arrived) && !s.th.l.Select?
    ensures Inv(LoopStep(s, pick, e), arrived)
  {
    hide Inv, SelectStep, LoopStep, Flags;
    FlagsHold(s, arrived);
    FinishMeans(s, pick, e);
    FlagsSent(s.bc.stream, Completed(FinalLog(s), s.rc.cached), e.ok, s.th.l.Select?, Success(s.bc.complete), s.rc.cached);
    Beside(s, LoopStep(s, pick, e), arrived);
  }

  lemma FinishMeans(s: Session, pick: Pick, e: Env)
    requires !s.th.l.Select?
    ensures var t := LoopStep(s, pick, e);
            && t.th == s.th.(l := t.th.l) && !t.th.l.Select? && t.cw == s.cw && t.hist == s.hist
            && t.bc.complete == s.bc.complete && t.rc.cached == s.rc.cached
            && (t.bc.stream.wire == s.bc.stream.wire
                || (s.th.l.SendCompleted? && t.bc.stream == s.bc.stream.Send(Completed(FinalLog(s), s.rc.cached), e.ok)))
  {
    hide SelectStep, Stream.Send;
  }

  lemma ByReceiver(s: Session, e: Env, arrived: Option<Env>)
    requires Inv(s, arrived)
    ensures Inv(ReceiverStep(s, e), arrived)
  {
    hide Inv, ReceiverStep, Flags, LiveLog;
    FlagsHold(s, arrived);
    AbortingIs(s, arrived);
    ReceiverMoves(s, e);
    var t := ReceiverStep(s, e);
    if t.th.h == s.th.h {
      Beside(s, t, arrived);
    } else {
      ByReply(s, t, arrived);
    }
  }

  lemma AbortingIs(s: Session, arrived: Option<Env>)
    requires Inv(s, arrived)
    ensures s.th.r.Aborting() ==> s.hist.aborted
  {
    hide OnlyRequest, Flags, LiveLog, Place, Won;
  }

  predicate Moves(s: Session, t: Session) {
    && t.th.l == s.th.l && t.bc == s.bc.(owner := t.bc.owner, peer := t.bc.peer)
    && (s.hist.aborted ==> t.hist.aborted)
    && (t.rc.log == s.rc.log || s.th.r.Aborting())
    && (OnlyRequest(s.cw.stream.wire) ==> OnlyRequest(t.cw.stream.wire))
    && (t.th.r.RPost? ==> t.th.r == s.th.r || t.th.r.msg.err.Some?)
    && (t.th.r.Aborting() ==> s.th.r.Aborting() || t.hist.aborted)
    && (t.th.h != s.th.h ==> !s.th.r.Aborting() && t.rc == s.rc && t.cw == s.cw && !t.th.r.RPost? && !t.th.r.Aborting())
  }

  lemma ReceiverMoves(s: Session, e: Env)
    ensures var t := ReceiverStep(s, e);
            && Moves(s, t) && t.rc.cached == s.rc.cached && t.hist == s.hist.(aborted := t.hist.aborted)
            && (t.th.h == s.th.h
                || (s.th.h == InRegister(RegisterWait) && (t.th.h == InRequest(Filtering) || t.th.h.InFail?)))
  {
    hide ReceiverStep, Moves;
    E.ReceiverMeans(s, e);
    if s.th.r.Recv? { RecvMoves(s, e); }
    else if s.th.r.Deliver? || s.th.r.DeliverLast? { OfferMoves(s, e); }
    else { AbortMoves(s, e); }
  }

  lemma RecvMoves(s: Session, e: Env)
    requires s.th.r.Recv?
    ensures Moves(s, ReceiverStep(s, e))
  {
    hide OnlyRequest;
  }

  lemma OfferMoves(s: Session, e: Env)
    requires s.th.r.Deliver? || s.th.r.DeliverLast?
    ensures Moves(s, ReceiverStep(s, e))
  {
    hide OnlyRequest, RecvStep, CancelStep;
  }

  lemma AbortMoves(s: Session, e: Env)
    requires !s.th.r.Recv? && !s.th.r.Deliver? && !s.th.r.DeliverLast?
    ensures Moves(s, ReceiverStep(s, e))
  {
    hide OnlyRequest, RecvStep, CancelStep, Offer;
    if s.th.r.RCancelling? { CancelAdds(s.cw, s.th.r.at, Receiver, e.ok); }
  }

  lemma ByReply(s: Session, t: Session, arrived: Option<Env>)
    requires Inv(s, arrived) && s.th.h == InRegister(RegisterWait) && t.rc == s.rc && t.cw == s.cw && t.th.l == s.th.l
    requires t.th.h == InRequest(Filtering) || t.th.h.InFail?
    requires t.bc == s.bc.(owner := t.bc.owner, peer := t.bc.peer) && t.hist == s.hist.(aborted := t.hist.aborted)
    requires s.hist.aborted ==> t.hist.aborted
    requires !t.th.r.RPost? && !t.th.r.Aborting()
    ensures Inv(t, arrived)
  {
    hide OnlyRequest, Flags;
  }

  lemma ByOthers(s: Session, a: Action, arrived: Option<Env>)
    requires Inv(s, arrived) && !a.ByHandler? && !a.ByLoop? && !a.ByReceiver?
    ensures Inv(Step(s, a), arrived)
  {
    hide Inv, TransportStep, WatchStep, OnlyRequest, Flags;
    FlagsHold(s, arrived);
    if a.ByTransport? { E.TransportMeans(s, a.e); TransportAdds(s, a.e); }
    if a.ByDisconnect? { WatchAdds(s.cw, s.th.d, a.e.ok); }
    Beside(s, Step(s, a), arrived);
  }

  lemma Kept(s: Session, a: Action, arrived: Option<Env>)
    requires Inv(s, arrived)
    ensures Inv(Step(s, a), Arrive(arrived, s, a))
  {
    hide Inv, HandlerStep, LoopStep, ReceiverStep, TransportStep, DisconnectStep, PeerStep;
    match a
    case ByHandler(e) => ByHandler(s, e, arrived);
    case ByLoop(pick, e) => ByLoop(s, pick, e, arrived);
    case ByReceiver(e) => ByReceiver(s, e, arrived);
    case _ => ByOthers(s, a, arrived);
  }

  lemma ByLoop(s: Session, pick: Pick, e: Env, arrived: Option<Env>)
    requires Inv(s, arrived)
    ensures Inv(LoopStep(s, pick, e), arrived)
  {
    hide Inv, SelectStep;
    if s.th.l.Select? { BySelect(s, pick, arrived); } else { ByFinish(s, pick, e, arrived); }
  }

  lemma {:induction false} Always(schedule: seq<Action>)
    ensures Inv(Run(schedule), Arrival(schedule))
  {
    hide Step, Inv, Arrive;
    if schedule == [] {
      Nothing();
    } else {
      var before := schedule[..|schedule| - 1];
      Always(before);
      Kept(Run(before), schedule[|schedule| - 1], Arrival(before));
    }
  }

  lemma Nothing()
    ensures Inv(Init(), None)
  {
  }

  // ---------- who sends Completed ----------

  /** No Completed is added. */
  predicate Quiet(w: seq<ControllerFrame>, v: seq<ControllerFrame>) {
    forall f :: f in v && f.Completed? ==> f in w
  }

  lemma SendIsQuiet(st: Stream<ControllerFrame>, f: ControllerFrame, ok: bool)
    requires !f.Completed?
    ensures Quiet(st.wire, st.Send(f, ok).wire)
  {
  }

  lemma HandlerIsQuiet(s: Session, e: Env)
    ensures Quiet(s.bc.stream.wire, HandlerStep(s, e).bc.stream.wire)
  {
    hide RequestStep, ResponseStep, ReportStep, CloseStep, Quiet;
    SameIsQuiet(s.bc.stream.wire);
    match s.th.h
    case InRegister(pc) => SendIsQuiet(s.bc.stream, New, e.ok);
    case InRequest(pc) => RequestIsQuiet(s, pc, e);
    case InResponse(pc) => ResponseIsQuiet(s, pc, e);
    case InBody(pc) => BodyIsQuiet(s, pc, e);
    case InMeta(pc) => SendIsQuiet(s.bc.stream, AllData, e.ok);
    case InReport(p, pc) => ReportIsQuiet(s, p, pc, e);
    case InFail(code, pc) => SendIsQuiet(s.bc.stream, AllData, e.ok);
    case InClose(pc) => CloseIsQuiet(s, pc, e);
  }

  lemma SameIsQuiet(w: seq<ControllerFrame>)
    ensures Quiet(w, w)
  {
  }

  lemma RequestIsQuiet(s: Session, pc: RequestPc, e: Env)
    ensures RequestStep(s, pc, e).bc == s.bc
  {
  }

  lemma ResponseIsQuiet(s: Session, pc: ResponsePc, e: Env)
    ensures ResponseStep(s, pc, e).bc == s.bc
  {
  }

  lemma BodyIsQuiet(s: Session, pc: BodyPc, e: Env)
    ensures Quiet(s.bc.stream.wire, BodyStep(s, pc, e).bc.stream.wire)
  {
    hide Quiet, Stream.Send;
    SameIsQuiet(s.bc.stream.wire);
    SendIsQuiet(s.bc.stream, Data, e.ok);
  }

  lemma ReportIsQuiet(s: Session, p: Purpose, pc: ReportPc, e: Env)
    ensures ReportStep(s, p, pc, e).bc.stream == s.bc.stream
  {
  }

  lemma CloseIsQuiet(s: Session, pc: ClosePc, e: Env)
    ensures CloseStep(s, pc, e).bc == s.bc
  {
    hide CancelStep;
  }

  lemma OthersAreQuiet(s: Session, a: Action)
    requires !(a.ByLoop? && s.th.l.SendCompleted?)
    ensures Quiet(s.bc.stream.wire, Step(s, a).bc.stream.wire)
  {
    hide HandlerStep, TransportStep, LoopStep, ReceiverStep, Quiet;
    SameIsQuiet(s.bc.stream.wire);
    match a
    case ByHandler(e) => HandlerIsQuiet(s, e);
    case ByTransport(e) => E.TransportMeans(s, e);
    case ByLoop(pick, e) => LoopIsQuiet(s, pick, e);
    case ByReceiver(e) => ReceiverMoves(s, e);
    case _ =>
  }

  lemma LoopIsQuiet(s: Session, pick: Pick, e: Env)
    requires !s.th.l.SendCompleted?
    ensures LoopStep(s, pick, e).bc.stream.wire == s.bc.stream.wire
  {
    hide SelectStep;
    if s.th.l.Select? { SelectIsQuiet(s, pick); }
  }

  lemma SelectIsQuiet(s: Session, pick: Pick)
    ensures SelectStep(s, pick).bc.stream == s.bc.stream
  {
  }

  lemma FinishSends(s: Session, pick: Pick, e: Env, f: ControllerFrame)
    requires s.th.l.SendCompleted? && f in LoopStep(s, pick, e).bc.stream.wire
    ensures f in s.bc.stream.wire || f == Completed(FinalLog(s), s.rc.cached)
  {
  }

  // ---------- what is reported ----------

  /** A Completed frame has been sent by finish, in step `n`. Its flag is what the flag was then, and its log the
      outcome's, or, if there was none, the log as it was then. */
  predicate SentAt(schedule: seq<Action>, n: nat, cl: CrawlLog, c: bool)
    requires n < |schedule|
  {
    var s, t := Run(schedule[..n]), Run(schedule[..n + 1]);
    && schedule[n].ByLoop? && s.th.l.SendCompleted?
    && Completed(cl, c) !in s.bc.stream.wire && Completed(cl, c) in t.bc.stream.wire
    && c == s.rc.cached && cl == if s.bc.complete.Some? then s.bc.complete.value.log else s.rc.log
  }

  lemma {:induction false} SentBy(schedule: seq<Action>, cl: CrawlLog, c: bool) returns (n: nat)
    requires Completed(cl, c) in Run(schedule).bc.stream.wire
    ensures n < |schedule| && SentAt(schedule, n, cl, c)
  {
    hide Step, Quiet;
    var before, a := schedule[..|schedule| - 1], schedule[|schedule| - 1];
    if Completed(cl, c) in Run(before).bc.stream.wire {
      n := SentBy(before, cl, c);
      assert before[..n] == schedule[..n] && before[..n + 1] == schedule[..n + 1];
    } else {
      n := |before|;
      assert schedule[..n + 1] == schedule;
      if !(a.ByLoop? && Run(before).th.l.SendCompleted?) {
        OthersAreQuiet(Run(before), a);
        NotQuiet(Run(before).bc.stream.wire, Run(schedule).bc.stream.wire, Completed(cl, c));
      } else {
        assert Step(Run(before), a) == LoopStep(Run(before), a.pick, a.e) by { StepIsLoop(Run(before), a); }
        FinishSends(Run(before), a.pick, a.e, Completed(cl, c));
      }
    }
  }

  lemma NotQuiet(w: seq<ControllerFrame>, v: seq<ControllerFrame>, f: ControllerFrame)
    requires f in v && f !in w && f.Completed?
    ensures !Quiet(w, v)
  {
  }

  lemma StepIsLoop(s: Session, a: Action)
    requires a.ByLoop?
    ensures Step(s, a) == LoopStep(s, a.pick, a.e)
  {
    hide LoopStep;
  }

  /** The flag of a Completed frame. It is true only of a session that is answered from the cache; it is right whenever the
      outcome is a success; and in every case it is what the session's flag was when finish sent the frame. */
  lemma CompletedSaysCached(schedule: seq<Action>, cl: CrawlLog, c: bool)
    requires Completed(cl, c) in Run(schedule).bc.stream.wire
    ensures c ==> Run(schedule).rc.cached
    ensures Success(Run(schedule).bc.complete) ==> (c <==> Run(schedule).rc.cached)
    ensures exists n: nat :: n < |schedule| && SentAt(schedule, n, cl, c)
  {
    hide Run, Arrival, SentAt;
    Always(schedule);
    var n := SentBy(schedule, cl, c);
    var w := Run(schedule).bc.stream.wire;
    var i :| 0 <= i < |w| && w[i] == Completed(cl, c);
  }

  /** A session is answered from the cache exactly if the response that arrived says so; what is said of its prolog is what
      arrived; and until then nothing but the request reaches the content writer. */
  lemma CachedIff(schedule: seq<Action>)
    ensures var s, arrived := Run(schedule), Arrival(schedule);
            && (s.rc.cached <==> arrived.Some? && arrived.value.flag)
            && (arrived.Some? ==> s.hist.prologLen == |arrived.value.data|)
            && (arrived.None? ==> OnlyRequest(s.cw.stream.wire))
  {
    hide Run, Arrival, OnlyRequest;
    Always(schedule);
  }

  /** A success is the response that arrived: the status code of the outcome, and of the Completed frame, is the
      response's, without an error, in every run in which the controller has not cancelled, and the frame says whether
      it was from the cache. */
  lemma SuccessIsResponse(schedule: seq<Action>)
    requires Success(Run(schedule).bc.complete)
    ensures Arrival(schedule).Some?
    ensures var s, arrived := Run(schedule), Arrival(schedule).value;
            && (!s.hist.aborted ==> s.bc.complete.value.log.status == arrived.code && s.bc.complete.value.log.error == 0)
            && forall cl, c :: Completed(cl, c) in s.bc.stream.wire ==> cl == s.bc.complete.value.log && c == arrived.flag
  {
    hide Run, Arrival;
    var s := Run(schedule);
    Always(schedule);
    T.FirstOutcomeWins(schedule, []);
    assert schedule + [] == schedule;
    forall cl, c | Completed(cl, c) in s.bc.stream.wire
      ensures cl == s.bc.complete.value.log && c == Arrival(schedule).value.flag
    {
      CompletedSaysCached(schedule, cl, c);
    }
  }

  /** As long as the loop listens and the controller has not cancelled, the log's status code follows the request: none,
      -1 while there is no response, then the response's. */
  lemma StatusFollows(schedule: seq<Action>)
    requires Run(schedule).th.l.Select? && !Run(schedule).hist.aborted
    ensures var h, log := Run(schedule).th.h, Run(schedule).rc.log;
            && (h.InRegister? || h == InRequest(Filtering) ==> log.status == 0 && log.error == 0)
            && ((h.InRequest? && !h.req.Filtering?) || h == InResponse(RoundTrip) ==> log.status == -1 && log.error == 0)
            && ((h.InResponse? && !h.resp.RoundTrip?) || h.InBody? || h.InMeta? ==>
                  Arrival(schedule).Some? && log.status == Arrival(schedule).value.code && log.error == 0)
  {
    hide Run, Arrival, OnlyRequest, Flags;
    Always(schedule);
  }
}
