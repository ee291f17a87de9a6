/** When a log that is reported has a size and a digest: only of what is archived, or, the size alone, from the cache. */
module Sizes {
  import opened Frames
  import opened Session
  import A = Aborting
  import C = ControllerProtocol
  import E = Effects
  import F = Finish
  import N = Responses

  /** A size or a digest is filled in only for a response that the archive has answered for, a size also for one from the
      cache. */
  predicate Sized(log: CrawlLog, acked: bool, cached: bool) {
    (log.size == 0 && log.digest.Unset?) || acked || (cached && log.digest.Unset?)
  }

  predicate AllSized(w: seq<ControllerFrame>, acked: bool, cached: bool) {
    forall f :: f in w && f.Completed? ==> Sized(f.log, acked, cached)
  }

  /** The messages in hand, and the outcome. */
  predicate Messages(h: HandlerPc, r: ReceiverPc, complete: Option<Outcome>, acked: bool, cached: bool) {
    && (h.InReport? && h.rep.Post? ==> Sized(h.rep.msg.log, acked, cached))
    && (r.RPost? ==> Sized(r.msg.log, acked, cached))
    && (complete.Some? ==> Sized(complete.value.log, acked, cached))
  }

  predicate Inv(s: Session) {
    && Sized(s.rc.log, s.cw.acked, s.rc.cached)
    && Messages(s.th.h, s.th.r, s.bc.complete, s.cw.acked, s.rc.cached)
    && AllSized(s.bc.stream.wire, s.cw.acked, s.rc.cached)
  }

  // ---------- every step keeps it ----------

  /** What most of the handler's steps do to the log. */
  predicate Leaves(s: Session, t: Session) {
    && t.cw.acked == s.cw.acked && (s.rc.cached ==> t.rc.cached)
    && t.rc.log == s.rc.log.(status := t.rc.log.status, error := t.rc.log.error)
    && (t.th.h.InReport? && t.th.h.rep.Post? ==> t.th.h == s.th.h || t.th.h.rep.msg.log == s.rc.log)
    && t.th.r == s.th.r && t.bc.complete == s.bc.complete
  }

  lemma RegisterLeaves(s: Session, pc: RegisterPc, e: Env)
    ensures Leaves(s, RegisterStep(s, pc, e))
  {
  }

  lemma RequestLeaves(s: Session, pc: RequestPc, e: Env)
    ensures Leaves(s, RequestStep(s, pc, e))
  {
  }

  lemma ResponseLeaves(s: Session, pc: ResponsePc, e: Env)
    requires !s.rc.cached
    ensures Leaves(s, ResponseStep(s, pc, e))
  {
  }

  lemma ReportLeaves(s: Session, p: Purpose, pc: ReportPc, e: Env)
    requires s.th.h == InReport(p, pc)
    ensures Leaves(s, ReportStep(s, p, pc, e))
  {
  }

  lemma FailLeaves(s: Session, code: int, pc: FailPc, e: Env)
    requires s.th.h == InFail(code, pc)
    ensures Leaves(s, FailStep(s, code, pc, e))
  {
  }

  lemma CloseLeaves(s: Session, pc: ClosePc, e: Env)
    requires s.th.h == InClose(pc)
    ensures Leaves(s, CloseStep(s, pc, e))
  {
    hide CancelStep;
    if pc.Cancelling? { A.CancelAcksNothing(s.cw, pc.at, Handler, e.ok); }
  }

  lemma MetaLeaves(s: Session, pc: MetaPc, e: Env)
    requires s.th.h == InMeta(pc) && !pc.MetaClose?
    ensures Leaves(s, MetaStep(s, pc, e))
  {
  }

  /** The archive's answer: without one nothing is filled in. */
  lemma ByAnswer(s: Session, e: Env)
    requires Inv(s) && s.th.h == InMeta(MetaClose)
    ensures Inv(MetaStep(s, MetaClose, e))
  {
  }

  lemma ByBody(s: Session, pc: BodyPc, e: Env)
    requires Inv(s) && s.th.h == InBody(pc)
    ensures Inv(BodyStep(s, pc, e))
  {
    hide AllSized, BodyStep;
    N.BodyIsQuiet(s, pc, e);
    BodyLeaves(s, pc, e);
    QuietSized(s.bc.stream.wire, BodyStep(s, pc, e).bc.stream.wire, s.cw.acked, s.rc.cached);
  }

  /** Only a response from the cache gets its size here. */
  lemma BodyLeaves(s: Session, pc: BodyPc, e: Env)
    requires s.th.h == InBody(pc)
    ensures var t := BodyStep(s, pc, e);
            && t.cw.acked == s.cw.acked && t.rc.cached == s.rc.cached && t.th.r == s.th.r && t.bc.complete == s.bc.complete
            && !(t.th.h.InReport? && t.th.h.rep.Post?)
            && (t.rc.log == s.rc.log || (s.rc.cached && t.rc.log == s.rc.log.(size := t.rc.log.size)))
  {
    hide BodyStep;
    if pc.Reading? { N.TakesChunk(s, e); UncachedLog(s, pc, e); }
    else if pc.Notify? || pc.NotifySend? { N.Announces(s, pc, e); BodyAcksNothing(s, pc, e); }
    else { N.SendsChunk(s, pc, e); UncachedLog(s, pc, e); }
  }

  lemma UncachedLog(s: Session, pc: BodyPc, e: Env)
    requires s.th.h == InBody(pc) && !pc.Notify? && !pc.NotifySend?
    ensures !s.rc.cached ==> BodyStep(s, pc, e).rc.log == s.rc.log
    ensures BodyStep(s, pc, e).cw.acked == s.cw.acked
  {
    hide Stream.Send;
  }

  lemma BodyAcksNothing(s: Session, pc: BodyPc, e: Env)
    requires pc.Notify? || pc.NotifySend?
    ensures BodyStep(s, pc, e).cw == s.cw
  {
    hide Stream.Send;
  }

  lemma QuietSized(w: seq<ControllerFrame>, v: seq<ControllerFrame>, acked: bool, cached: bool)
    requires AllSized(w, acked, cached) && N.Quiet(w, v)
    ensures AllSized(v, acked, cached)
  {
  }

  lemma ByHandler(s: Session, e: Env)
    requires Inv(s) && C.Inv(s)
    ensures Inv(HandlerStep(s, e))
  {
    hide Inv, Leaves, C.Inv, N.Quiet, RegisterStep, RequestStep, ResponseStep, BodyStep, MetaStep, ReportStep, FailStep,
         CloseStep;
    N.HandlerIsQuiet(s, e);
    match s.th.h
    case InRegister(pc) => RegisterLeaves(s, pc, e); Left(s, HandlerStep(s, e));
    case InRequest(pc) => RequestLeaves(s, pc, e); Left(s, HandlerStep(s, e));
    case InResponse(pc) => F.Uncached(s); ResponseLeaves(s, pc, e); Left(s, HandlerStep(s, e));
    case InBody(pc) => ByBody(s, pc, e);
    case InMeta(pc) =>
      if pc.MetaClose? { ByAnswer(s, e); } else { MetaLeaves(s, pc, e); Left(s, HandlerStep(s, e)); }
    case InReport(p, pc) => ReportLeaves(s, p, pc, e); Left(s, HandlerStep(s, e));
    case InFail(code, pc) => FailLeaves(s, code, pc, e); Left(s, HandlerStep(s, e));
    case InClose(pc) => CloseLeaves(s, pc, e); Left(s, HandlerStep(s, e));
  }

  lemma Left(s: Session, t: Session)
    requires Inv(s) && Leaves(s, t) && N.Quiet(s.bc.stream.wire, t.bc.stream.wire)
    ensures Inv(t)
  {
    hide AllSized, N.Quiet;
    QuietSized(s.bc.stream.wire, t.bc.stream.wire, s.cw.acked, s.rc.cached);
    MoreSized(t.bc.stream.wire, s.cw.acked, s.rc.cached, t.rc.cached);
  }

  lemma MoreSized(w: seq<ControllerFrame>, acked: bool, cached: bool, more: bool)
    requires AllSized(w, acked, cached) && (cached ==> more)
    ensures AllSized(w, acked, more)
  {
  }

  lemma BySelect(s: Session, pick: Pick)
    requires Inv(s) && s.th.l.Select?
    ensures Inv(SelectStep(s, pick))
  {
    hide AllSized;
  }

  lemma ByFinish(s: Session, pick: Pick, e: Env)
    requires Inv(s) && !s.th.l.Select?
    ensures Inv(LoopStep(s, pick, e))
  {
    hide Sized, LoopStep, FinalLog, Stream.Send;
    N.FinishMeans(s, pick, e);
    FinishLog(s, pick, e);
    SameSize(s.rc.log, LoopStep(s, pick, e).rc.log, s.cw.acked, s.rc.cached);
    FinalSized(s);
    CompletedSized(s.bc.stream, Completed(FinalLog(s), s.rc.cached), e.ok, s.cw.acked, s.rc.cached);
  }

  lemma FinishLog(s: Session, pick: Pick, e: Env)
    requires !s.th.l.Select?
    ensures var log := LoopStep(s, pick, e).rc.log; log == s.rc.log.(status := log.status, error := log.error)
  {
    hide SelectStep;
  }

  lemma CompletedSized(st: Stream<ControllerFrame>, f: ControllerFrame, ok: bool, acked: bool, cached: bool)
    requires AllSized(st.wire, acked, cached) && f.Completed? && Sized(f.log, acked, cached)
    ensures AllSized(st.Send(f, ok).wire, acked, cached)
  {
  }

  lemma SameSize(a: CrawlLog, b: CrawlLog, acked: bool, cached: bool)
    requires b == a.(status := b.status, error := b.error)
    ensures Sized(a, acked, cached) == Sized(b, acked, cached)
  {
  }

  lemma FinalSized(s: Session)
    requires Inv(s)
    ensures Sized(FinalLog(s), s.cw.acked, s.rc.cached)
  {
  }

  lemma ByReceiver(s: Session, e: Env)
    requires Inv(s)
    ensures Inv(ReceiverStep(s, e))
  {
    hide AllSized, ReceiverStep;
    E.ReceiverMeans(s, e);
    ReceiverLeaves(s, e);
  }

  lemma ReceiverLeaves(s: Session, e: Env)
    ensures var t := ReceiverStep(s, e);
            && t.cw.acked == s.cw.acked && t.bc == s.bc.(owner := t.bc.owner, peer := t.bc.peer)
            && t.rc.log == s.rc.log.(status := t.rc.log.status, error := t.rc.log.error)
            && (t.th.r.RPost? ==> t.th.r == s.th.r || t.th.r.msg.log == s.rc.log)
  {
    hide CancelStep;
    if s.th.r.RCancelling? { A.CancelAcksNothing(s.cw, s.th.r.at, Receiver, e.ok); }
  }

  lemma Kept(s: Session, a: Action)
    requires Inv(s) && C.Inv(s)
    ensures Inv(Step(s, a))
  {
    hide C.Inv, HandlerStep, TransportStep, SelectStep, LoopStep, ReceiverStep, WatchStep, AllSized, Sized;
    match a
    case ByHandler(e) => ByHandler(s, e);
    case ByTransport(e) => E.TransportMeans(s, e);
    case ByLoop(pick, e) => ByLoop(s, pick, e);
    case ByReceiver(e) => ByReceiver(s, e);
    case ByDisconnect(e) => A.CutWatch(s.cw, s.th.d, e.ok);
    case _ =>
  }

  lemma ByLoop(s: Session, pick: Pick, e: Env)
    requires Inv(s)
    ensures Inv(LoopStep(s, pick, e))
  {
    hide Inv, SelectStep;
    if s.th.l.Select? { BySelect(s, pick); } else { ByFinish(s, pick, e); }
  }

  lemma {:induction false} Always(schedule: seq<Action>)
    ensures Inv(Run(schedule))
  {
    hide Step, Inv, C.Inv;
    if schedule == [] {
      Nothing();
    } else {
      var before := schedule[..|schedule| - 1];
      Always(before);
      C.Always(before);
      Kept(Run(before), schedule[|schedule| - 1]);
    }
  }

  lemma Nothing()
    ensures Inv(Init())
  {
  }

  /** What is reported with a size or a digest has been archived, or is from the cache and has no digest: in the outcome
      and in the Completed frame, of an error as of a success. */
  lemma OnlyArchivedIsSized(schedule: seq<Action>)
    ensures var s := Run(schedule);
            && (s.bc.complete.Some? ==> Sized(s.bc.complete.value.log, s.cw.acked, s.rc.cached))
            && forall cl, c :: Completed(cl, c) in s.bc.stream.wire ==> Sized(cl, s.cw.acked, s.rc.cached)
  {
    hide Run;
    Always(schedule);
  }
}
