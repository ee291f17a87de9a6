/** What the steps of a thread change and what they leave alone, for all invariants. */
module Effects {
  import opened Frames
  import opened Session

  lemma AfterRequestMeans(u: Session, res: ReadResult)
    ensures var t := AfterRequestChunk(u, res); t == GoT(u, t.th.t)
  {
  }

  /** What the transport leaves alone. */
  lemma TransportMeans(s: Session, e: Env)
    ensures var t := TransportStep(s, e);
            && t.bc == s.bc && t.th == s.th.(t := t.th.t) && t.rc.log == s.rc.log && t.rc.cached == s.rc.cached
            && t.hist.header == s.hist.header && t.hist.aborted == s.hist.aborted
            && t.rc.resp == s.rc.resp && t.hist.prologLen == s.hist.prologLen && t.cw.acked == s.cw.acked
  {
    hide AfterRequestChunk;
    AfterRequestMeans(s, e.res);
    if s.th.t.TForward? || s.th.t.TForwardSend? {
      var sent := SendW(s, Payload(REQUEST, s.th.t.chunk.data), e.ok);
      AfterRequestMeans(LoseReq(s), s.th.t.chunk.res);
      AfterRequestMeans(if s.cw.stream.Live() && e.ok then sent else LoseReq(sent), s.th.t.chunk.res);
    }
  }

  /** What the loop leaves alone. */
  predicate LoopLeaves(s: Session, t: Session) {
    && t.cw == s.cw && t.rc == s.rc.(log := t.rc.log) && t.th.t == s.th.t && t.th.d == s.th.d
    && t.hist == s.hist.(header := t.hist.header) && t.clientGone == s.clientGone
    && (t.th.r == s.th.r || (s.th.r.RPost? && t.th.r.Recv?))
    && (t.th.h == s.th.h
        || (t.th.h.InClose? && (t.th.h.close.Cancelling? ==> t.th.h.close.at.CStart?)
            && (s.th.h.InReport? || (s.th.h.InClose? && s.th.h.close.DoneSend?))))
  }

  lemma LoopMeans(s: Session, pick: Pick, e: Env)
    ensures LoopLeaves(s, LoopStep(s, pick, e))
  {
    hide LoopLeaves, SelectStep;
    if s.th.l.Select? { SelectMeans(s, pick); } else { FinishMeans(s, pick, e); }
  }

  lemma SelectMeans(s: Session, pick: Pick)
    ensures LoopLeaves(s, SelectStep(s, pick)) && SelectStep(s, pick).rc == s.rc
  {
    hide Reported;
    if pick.OnHandler? && s.th.h.InReport? && s.th.h.rep.Post? {
      ReportedMeans(UnlockB(WithBc(s, Take(s.bc, s.th.h.rep.msg))), s.th.h.p, true);
    }
  }

  lemma ReportedMeans(u: Session, p: Purpose, posted: bool)
    ensures var t := Reported(u, p, posted);
            && t == GoH(u, t.th.h).(hist := u.hist.(header := t.hist.header))
            && t.th.h.InClose? && (t.th.h.close.Cancelling? ==> t.th.h.close.at.CStart?)
  {
  }

  lemma FinishMeans(s: Session, pick: Pick, e: Env)
    requires !s.th.l.Select?
    ensures LoopLeaves(s, LoopStep(s, pick, e)) && LoopStep(s, pick, e).th.h == s.th.h
  {
    hide SelectStep;
  }

  // ---------- the streams' terminal frames ----------

  lemma CancelMeans(w: Writer, at: CancelPc, me: Thread, ok: bool)
    ensures var w' := CancelStep(w, at, me, ok).0;
            && (w.canceled ==> w'.canceled) && (w'.stream.Live() ==> w.stream.Live())
            && (w'.stream.wire == w.stream.wire || w'.stream.wire == w.stream.wire + [Cancel])
  {
  }

  lemma WatchMeans(w: Writer, d: DisconnectPc, ok: bool)
    ensures var w' := WatchStep(w, d, ok).0;
            && (w.canceled ==> w'.canceled) && (w'.stream.Live() ==> w.stream.Live())
            && (w'.stream.wire == w.stream.wire || w'.stream.wire == w.stream.wire + [Cancel])
  {
  }

  /** From the notification on, SendMeta and its answer append at most one frame, a Meta. */
  predicate MetaLeaves(s: Session, t: Session) {
    && t.cw.open == s.cw.open && t.cw.canceled == s.cw.canceled && (t.cw.stream.Live() ==> s.cw.stream.Live())
    && (t.cw.stream.wire == s.cw.stream.wire
        || (s.th.h.InMeta? && s.th.h.meta.MetaSend? && t.cw.stream.wire == s.cw.stream.wire + [Meta(s.rc.meta)]))
    && t.th == s.th.(h := t.th.h) && (t.th.h.InMeta? || t.th.h.InReport? || t.th.h == InClose(BodyDone))
  }

  lemma MetaMeans(s: Session, pc: MetaPc, e: Env)
    requires s.th.h == InMeta(pc)
    ensures MetaLeaves(s, MetaStep(s, pc, e))
  {
    hide MetaLeaves, MetaStep;
    if pc.NotifyAll? || pc.NotifyAllSend? { MetaNotifies(s, pc, e); }
    else if pc.MetaCheck? || pc.MetaLock? { MetaChecks(s, pc, e); }
    else { MetaAnswers(s, pc, e); }
  }

  lemma MetaNotifies(s: Session, pc: MetaPc, e: Env)
    requires s.th.h == InMeta(pc) && (pc.NotifyAll? || pc.NotifyAllSend?)
    ensures MetaLeaves(s, MetaStep(s, pc, e))
  {
  }

  lemma MetaChecks(s: Session, pc: MetaPc, e: Env)
    requires s.th.h == InMeta(pc) && (pc.MetaCheck? || pc.MetaLock?)
    ensures MetaLeaves(s, MetaStep(s, pc, e))
  {
  }

  lemma MetaAnswers(s: Session, pc: MetaPc, e: Env)
    requires s.th.h == InMeta(pc) && (pc.MetaSend? || pc.MetaClose?)
    ensures MetaLeaves(s, MetaStep(s, pc, e))
  {
  }

  /** What the receiver leaves alone. */
  predicate ReceiverLeaves(s: Session, t: Session) {
    && t.th == s.th.(h := t.th.h, r := t.th.r) && t.clientGone == s.clientGone
    && (t.th.h == s.th.h
        || (s.th.h == InRegister(RegisterWait) && (t.th.h.InFail? || t.th.h == InRequest(Filtering))))
    && t.rc == s.rc.(log := t.rc.log, rcError := t.rc.rcError) && t.hist == s.hist.(aborted := t.hist.aborted)
    && (!s.th.r.RCancelling? ==> t.cw == s.cw)
    && (s.cw.canceled ==> t.cw.canceled) && (t.cw.stream.Live() ==> s.cw.stream.Live())
    && (t.cw.stream.wire == s.cw.stream.wire || t.cw.stream.wire == s.cw.stream.wire + [Cancel])
  }

  lemma ReceiverMeans(s: Session, e: Env)
    ensures ReceiverLeaves(s, ReceiverStep(s, e))
  {
    hide ReceiverLeaves, CancelStep, RecvStep, Offer;
    match s.th.r
    case Recv => RecvMeans(s);
    case Deliver(reply) =>
      OfferMeans(s, Recv, if reply.Robots? then InFail(PRECLUDED_BY_ROBOTS, Fail) else InRequest(Filtering));
    case DeliverLast(cancel) => OfferMeans(s, RClose, InFail(if cancel then PRECLUDED_BY_ROBOTS else CANCELED_BY_BROWSER, Fail));
    case _ => AbortMeans(s, e);
  }

  lemma RecvMeans(s: Session)
    requires s.th.r.Recv?
    ensures ReceiverLeaves(s, RecvStep(s))
  {
  }

  lemma OfferMeans(s: Session, next: ReceiverPc, answer: HandlerPc)
    requires answer.InFail? || answer == InRequest(Filtering)
    ensures ReceiverLeaves(s, Offer(s, next, answer))
  {
  }

  lemma AbortMeans(s: Session, e: Env)
    requires !s.th.r.Recv? && !s.th.r.Deliver? && !s.th.r.DeliverLast?
    ensures ReceiverLeaves(s, ReceiverStep(s, e))
  {
    hide CancelStep, RecvStep, Offer;
    if s.th.r.RCancelling? { CancelMeans(s.cw, s.th.r.at, Receiver, e.ok); }
  }
}
