/** A successful report means that the archive has acknowledged exactly what the report says. */
module Reporting {
  import opened Frames
  import opened Session
  import E = Effects
  import WriterProtocol

  // ---------- the invariant ----------

  /** A crawl log that SaveCrawlLog may hand over: what was archived, or the prolog of a cached response. */
  ghost predicate Saved(log: CrawlLog, resp: Recording, cached: bool, prologLen: nat, acked: bool) {
    if cached then log.size == prologLen
    else acked && log.size == resp.size && log.digest == Sha1(resp.hashed)
  }

  /** The handler is past reading bodies. */
  predicate Settled(h: HandlerPc) {
    h.InReport? || h.InFail? || h.InClose?
  }

  datatype Saving = NotSaving | Preparing | Handing(msg: Outcome)

  function SavingOf(h: HandlerPc): Saving {
    if h.InReport? && h.p.ForSave? then (if h.rep.Post? then Handing(h.rep.msg) else Preparing) else NotSaving
  }

  /** The log that is being prepared or handed over. */
  ghost predicate InHand(h: Saving, log: CrawlLog, resp: Recording, cached: bool, prologLen: nat, acked: bool) {
    && (h.Preparing? ==> Saved(log, resp, cached, prologLen, acked))
    && (h.Handing? && h.msg.err.None? ==> Saved(h.msg.log, resp, cached, prologLen, acked))
  }

  /** The logs that the loop has received. */
  ghost predicate Received(settled: bool, received: seq<Outcome>, resp: Recording, cached: bool, prologLen: nat, acked: bool) {
    forall m :: m in received && m.err.None? ==> settled && Saved(m.log, resp, cached, prologLen, acked)
  }

  /** Only SaveCrawlLog hands over a message without an error. */
  predicate Labelled(h: HandlerPc, r: ReceiverPc) {
    && (h.InReport? && h.rep.Post? ==> (h.rep.msg.err.None? <==> h.p.ForSave?))
    && (r.RPost? ==> r.msg.err.Some?)
  }

  ghost predicate Inv(s: Session) {
    && InHand(SavingOf(s.th.h), s.rc.log, s.rc.resp, s.rc.cached, s.hist.prologLen, s.cw.acked)
    && Received(Settled(s.th.h), s.bc.received, s.rc.resp, s.rc.cached, s.hist.prologLen, s.cw.acked)
    && Labelled(s.th.h, s.th.r)
    && (s.rc.cached ==> s.rc.resp.size == s.hist.prologLen)
  }

  // ---------- every step keeps it ----------

  lemma AfterChunkMeans(u: Session, res: ReadResult)
    requires u.th.r.RPost? ==> u.th.r.msg.err.Some?
    ensures var t := AfterChunk(u, res);
            && t.bc == u.bc && t.cw == u.cw && t.hist == u.hist && t.rc == u.rc.(log := t.rc.log)
            && t.th == u.th.(h := t.th.h) && Labelled(t.th.h, u.th.r)
            && (SavingOf(t.th.h) == NotSaving
                || (SavingOf(t.th.h) == Preparing && t.rc.cached && t.rc.log.size == t.rc.resp.size))
  {
  }

  /** Before the handler settles, no message without an error has been received. */
  lemma Unsettled(s: Session, settled: bool, resp: Recording, cached: bool, prologLen: nat, acked: bool)
    requires Inv(s) && !Settled(s.th.h)
    ensures Received(settled, s.bc.received, resp, cached, prologLen, acked)
  {
  }

  lemma ByRegister(s: Session, pc: RegisterPc, e: Env)
    requires Inv(s) && s.th.h == InRegister(pc)
    ensures Inv(RegisterStep(s, pc, e))
  {
    hide Saved, Received;
    Unsettled(s, true, s.rc.resp, s.rc.cached, s.hist.prologLen, s.cw.acked);
  }

  lemma ByRequest(s: Session, pc: RequestPc, e: Env)
    requires Inv(s) && s.th.h == InRequest(pc)
    ensures Inv(RequestStep(s, pc, e))
  {
    hide Received, Saved;
    var t := RequestStep(s, pc, e);
    Unsettled(s, Settled(t.th.h), t.rc.resp, t.rc.cached, t.hist.prologLen, t.cw.acked);
    assert SavingOf(t.th.h) == NotSaving;
  }

  lemma ByResponse(s: Session, pc: ResponsePc, e: Env)
    requires Inv(s) && s.th.h == InResponse(pc)
    requires WriterProtocol.Inv(s)
    ensures Inv(ResponseStep(s, pc, e))
  {
    hide Saved, Received, WriterProtocol.Inv;
    var t := ResponseStep(s, pc, e);
    Unsettled(s, Settled(t.th.h), t.rc.resp, t.rc.cached, t.hist.prologLen, t.cw.acked);
    if pc.RoundTrip? { NothingRead(s); }
  }

  lemma NothingRead(s: Session)
    requires WriterProtocol.Inv(s) && s.th.h == InResponse(RoundTrip)
    ensures s.rc.resp.size == 0 && !s.rc.cached
  {
    hide Sent, Faithful;
  }

  lemma ByBody(s: Session, pc: BodyPc, e: Env)
    requires Inv(s) && s.th.h == InBody(pc) && !pc.Forward? && !pc.ForwardSend?
    requires WriterProtocol.CachedPc(s.th.h, s.rc.cached)
    ensures Inv(BodyStep(s, pc, e))
  {
    hide AfterChunk, Received;
    var t := BodyStep(s, pc, e);
    Unsettled(s, Settled(t.th.h), t.rc.resp, t.rc.cached, t.hist.prologLen, t.cw.acked);
    AfterChunkMeans(s, e.res);
  }

  lemma ByForward(s: Session, pc: BodyPc, e: Env)
    requires Inv(s) && s.th.h == InBody(pc) && (pc.Forward? || pc.ForwardSend?)
    requires WriterProtocol.CachedPc(s.th.h, s.rc.cached)
    ensures Inv(BodyStep(s, pc, e))
  {
    hide AfterChunk, Received;
    var t, sent := BodyStep(s, pc, e), SendW(s, Payload(RESPONSE, pc.chunk.data), e.ok);
    Unsettled(s, Settled(t.th.h), t.rc.resp, t.rc.cached, t.hist.prologLen, t.cw.acked);
    AfterChunkMeans(LoseResp(s), pc.chunk.res);
    AfterChunkMeans(if s.cw.stream.Live() && e.ok then sent else LoseResp(sent), pc.chunk.res);
  }

  lemma ByMeta(s: Session, pc: MetaPc, e: Env)
    requires Inv(s) && s.th.h == InMeta(pc)
    requires WriterProtocol.CachedPc(s.th.h, s.rc.cached)
    ensures Inv(MetaStep(s, pc, e))
  {
    hide Received;
    var t := MetaStep(s, pc, e);
    Unsettled(s, Settled(t.th.h), t.rc.resp, t.rc.cached, t.hist.prologLen, t.cw.acked);
  }

  lemma ByReport(s: Session, p: Purpose, pc: ReportPc, e: Env)
    requires Inv(s) && s.th.h == InReport(p, pc)
    ensures Inv(ReportStep(s, p, pc, e))
  {
    hide Received, Saved;
  }

  lemma ByFail(s: Session, c: int, pc: FailPc, e: Env)
    requires Inv(s) && s.th.h == InFail(c, pc)
    ensures Inv(FailStep(s, c, pc, e))
  {
    hide Received, Saved;
  }

  lemma CancelKeepsAck(w: Writer, at: CancelPc, me: Thread, ok: bool)
    ensures CancelStep(w, at, me, ok).0.acked == w.acked
  {
  }

  lemma ByClose(s: Session, pc: ClosePc, e: Env)
    requires Inv(s) && s.th.h == InClose(pc)
    ensures Inv(CloseStep(s, pc, e))
  {
    hide Received, Saved, CancelStep;
    if pc.Cancelling? { CancelKeepsAck(s.cw, pc.at, Handler, e.ok); }
  }

  lemma ByTransport(s: Session, e: Env)
    requires Inv(s)
    ensures Inv(TransportStep(s, e))
  {
    hide TransportStep, Received, InHand, Labelled, SavingOf, Settled;
    E.TransportMeans(s, e);
  }

  lemma ByHandlerTake(s: Session)
    requires Inv(s) && s.th.h.InReport? && s.th.h.rep.Post?
    ensures Inv(SelectStep(s, OnHandler))
  {
    hide Saved, Reported;
    E.ReportedMeans(UnlockB(WithBc(s, Take(s.bc, s.th.h.rep.msg))), s.th.h.p, true);
  }

  lemma NothingTaken(s: Session)
    requires !(s.th.h.InReport? && s.th.h.rep.Post?)
    ensures SelectStep(s, OnHandler) == s
  {
  }

  lemma ByTake(s: Session, pick: Pick)
    requires Inv(s) && !pick.OnHandler?
    ensures Inv(SelectStep(s, pick))
  {
    hide Saved, Reported;
  }

  lemma ByLoop(s: Session, pick: Pick, e: Env)
    requires Inv(s) && !s.th.l.Select?
    ensures Inv(LoopStep(s, pick, e))
  {
    hide Received, Labelled, SavingOf, Settled, SelectStep;
  }

  lemma ByRecv(s: Session)
    requires Inv(s) && s.th.r.Recv?
    ensures Inv(RecvStep(s))
  {
    hide Received, InHand, SavingOf, Settled;
  }

  lemma ByReceiver(s: Session, e: Env)
    requires Inv(s) && !s.th.r.Recv? && !WriterProtocol.Replies(s.th.r)
    ensures Inv(ReceiverStep(s, e))
  {
    hide RecvStep, Received, CancelStep, SavingOf, Settled;
    if s.th.r.RCancelling? { CancelKeepsAck(s.cw, s.th.r.at, Receiver, e.ok); }
  }

  lemma ByReply(s: Session, e: Env)
    requires Inv(s) && WriterProtocol.Replies(s.th.r)
    ensures Inv(ReceiverStep(s, e))
  {
    hide RecvStep, CancelStep, Received, Saved;
    if s.th.h.InRegister? { Unsettled(s, true, s.rc.resp, s.rc.cached, s.hist.prologLen, s.cw.acked); }
  }

  lemma ByOthers(s: Session, a: Action)
    requires Inv(s) && !a.ByHandler? && !a.ByLoop? && !a.ByReceiver? && !a.ByTransport?
    ensures Inv(Step(s, a))
  {
    hide Received, InHand, Labelled, SavingOf, Settled;
  }

  lemma KeptByHandler(s: Session, e: Env)
    requires Inv(s) && WriterProtocol.Inv(s)
    ensures Inv(HandlerStep(s, e))
  {
    hide Inv, RegisterStep, RequestStep, ResponseStep, BodyStep, MetaStep, ReportStep, FailStep, CloseStep;
    match s.th.h
    case InRegister(pc) => ByRegister(s, pc, e);
    case InRequest(pc) => ByRequest(s, pc, e);
    case InResponse(pc) => ByResponse(s, pc, e);
    case InBody(pc) => if pc.Forward? || pc.ForwardSend? { ByForward(s, pc, e); } else { ByBody(s, pc, e); }
    case InMeta(pc) => ByMeta(s, pc, e);
    case InReport(p, pc) => ByReport(s, p, pc, e);
    case InFail(c, pc) => ByFail(s, c, pc, e);
    case InClose(pc) => ByClose(s, pc, e);
  }

  lemma Kept(s: Session, a: Action)
    requires Inv(s) && WriterProtocol.Inv(s)
    ensures Inv(Step(s, a))
  {
    hide Inv, WriterProtocol.Inv, HandlerStep, TransportStep, SelectStep, RecvStep, Offer, DisconnectStep;
    match a
    case ByHandler(e) => KeptByHandler(s, e);
    case ByTransport(e) => ByTransport(s, e);
    case ByLoop(pick, e) =>
      if !s.th.l.Select? { ByLoop(s, pick, e); }
      else if pick.OnHandler? { if s.th.h.InReport? && s.th.h.rep.Post? { ByHandlerTake(s); } else { NothingTaken(s); } }
      else { ByTake(s, pick); }
    case ByReceiver(e) =>
      if s.th.r.Recv? { ByRecv(s); }
      else if WriterProtocol.Replies(s.th.r) { ByReply(s, e); }
      else { ByReceiver(s, e); }
    case _ => ByOthers(s, a);
  }

  lemma Started()
    ensures Inv(Init())
  {
  }

  lemma {:induction false} Always(schedule: seq<Action>)
    ensures Inv(Run(schedule))
  {
    hide Step, Inv, WriterProtocol.Inv;
    if schedule == [] {
      Started();
    } else {
      Always(schedule[..|schedule| - 1]);
      WriterProtocol.Always(schedule[..|schedule| - 1]);
      Kept(Run(schedule[..|schedule| - 1]), schedule[|schedule| - 1]);
    }
  }
}
