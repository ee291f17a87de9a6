/** The browser controller's side of a session: the language of its wire, which outcome wins, and what
    the client is told. */
module ControllerProtocol {
  import opened Frames
  import opened Session
  import E = Effects

  // ---------- the language New Data* AllData? Completed, and its automaton ----------

  datatype Grammar = Start | Running | AllSeen | Finished | Bad

  function Next(g: Grammar, f: ControllerFrame): Grammar {
    match f
    case New => if g.Start? then Running else Bad
    case Data => if g.Running? then Running else Bad
    case AllData => if g.Running? then AllSeen else Bad
    case Completed(_, _) => if g.Finished? || g.Bad? then Bad else Finished
  }

  function Scan(w: seq<ControllerFrame>): Grammar {
    if w == [] then Start else Next(Scan(w[..|w| - 1]), w[|w| - 1])
  }

  lemma ScanAppend(w: seq<ControllerFrame>, f: ControllerFrame)
    ensures Scan(w + [f]) == Next(Scan(w), f)
  {
    assert (w + [f])[..|w|] == w;
  }

  lemma ScanSend(st: Stream<ControllerFrame>, f: ControllerFrame, ok: bool)
    ensures Scan(st.Send(f, ok).wire) == if st.Live() && ok then Next(Scan(st.wire), f) else Scan(st.wire)
  {
    ScanAppend(st.wire, f);
  }

  predicate NoNotices(w: seq<ControllerFrame>) {
    Data !in w && AllData !in w
  }

  // ---------- the invariant ----------

  /** What the handler's program counter says about a live wire. */
  datatype Want = Nothing | Registered | Unsure | Reported | Anything

  function WantOf(h: HandlerPc): Want {
    match h
    case InRegister(pc) => if pc.RegisterWait? then Registered else Nothing
    case InMeta(pc) => if pc.NotifyAll? || pc.NotifyAllSend? then Registered else Reported
    case InFail(_, pc) => if pc.FailNotifySend? then Registered else Unsure
    case InReport(_, _) => Reported
    case InClose(_) => Anything
    case _ => Registered
  }

  predicate Fits(want: Want, outcome: bool, g: Grammar) {
    match want
    case Nothing => g.Start?
    case Registered => g.Running?
    case Unsure => g.Running? || (g.Start? && outcome)
    case Reported => g.Running? || g.AllSeen?
    case Anything => g.Start? || g.Running? || g.AllSeen?
  }

  /** The message the handler is preparing or about to hand to the loop. */
  datatype Pending = NoMessage | Editing(p: Purpose) | Copying(p: Purpose) | Posting(p: Purpose, msg: Outcome)

  function PendingOf(h: HandlerPc): Pending {
    if h.InReport? && h.rep.EditError? then Editing(h.p)
    else if h.InReport? && h.rep.Copy? then Copying(h.p)
    else if h.InReport? && h.rep.Post? then Posting(h.p, h.rep.msg)
    else NoMessage
  }

  /** No body has been read yet, so nothing has been notified. */
  predicate BeforeBody(h: HandlerPc) {
    h.InRegister? || h.InRequest? || h.InResponse?
  }

  /** Program points that a session answered from the cache can be at. */
  predicate CachedPc(h: HandlerPc) {
    match h
    case InBody(pc) => pc.Reading?
    case InReport(p, _) => p.ForSave?
    case InClose(pc) => !pc.ErrorReply? && (pc.Cancelling? ==> !pc.after.ToErrorReply?)
    case _ => false
  }

  /** The loop is past its attempt to send Completed, or has ended. */
  predicate PastCompleted(l: LoopPc) {
    !l.Select? && !l.Want? && !l.Held? && !l.HeldError? && !l.SendCompleted?
  }

  /** Who holds `b.m` is determined by the program counters. */
  ghost predicate Lock(handler: bool, loop: bool, owner: Option<Thread>) {
    && (owner == Some(Handler) <==> handler)
    && (owner == Some(Loop) <==> loop)
    && owner != Some(Receiver) && owner != Some(Disconnect)
  }

  ghost predicate Wire(want: Want, l: LoopPc, st: Stream<ControllerFrame>, outcome: bool) {
    var g := Scan(st.wire);
    && !g.Bad?
    && (st.Live() ==> if l.CloseCompleted? then g.Finished? else Fits(want, outcome, g))
    && (g.Finished? || st.closed ==> PastCompleted(l))
    && (PastCompleted(l) && !l.CloseCompleted? && !l.LEnded? ==> st.closed)
  }

  /** The first message received is the outcome, and Completed reports it. */
  ghost predicate Winner(l: LoopPc, w: seq<ControllerFrame>, complete: Option<Outcome>, received: seq<Outcome>, error: int) {
    && complete == (if received == [] then None else Some(received[0]))
    && (Scan(w).Finished? ==>
          if complete.Some? then w[|w| - 1].log == complete.value.log
          else w[|w| - 1].log.error == CANCELED_BY_BROWSER)
    && (l.SendCompleted? && complete.None? ==> error == CANCELED_BY_BROWSER)
  }

  ghost predicate Quiet(beforeBody: bool, cachedPc: bool, w: seq<ControllerFrame>, cached: bool) {
    && (beforeBody ==> NoNotices(w))
    && (cached ==> cachedPc && NoNotices(w))
  }

  predicate Reports(m: Outcome, code: int) {
    m.err == Some(code) && m.log.status == code && m.log.error == code
  }

  ghost predicate Message(p: Pending, log: CrawlLog, aborted: bool) {
    && (p.Editing? && !p.p.ForSave? && !aborted ==> log.status == p.p.code)
    && (p.Copying? && !p.p.ForSave? && !aborted ==> log.status == p.p.code && log.error == p.p.code)
    && (p.Posting? ==>
          if p.p.ForSave? then p.msg.err == None
          else p.msg.err == Some(p.p.code) && (!aborted ==> Reports(p.msg, p.p.code)))
  }

  /** What the error header owes to the outcome. */
  ghost predicate Told(closing: bool, aborting: bool, complete: Option<Outcome>, received: seq<Outcome>,
                       header: ErrorHeader, aborted: bool)
  {
    && (header.Early? ==> complete.Some? && complete.value.err == Some(header.code))
    && (aborting ==> aborted)
    && (!aborted ==>
          && (!closing ==> received == [])
          && (header.Posted? ==> complete.Some? && Reports(complete.value, header.code)))
  }

  ghost predicate Inv(s: Session) {
    && Lock(s.th.h.HoldsController(), s.th.l.Holds(), s.bc.owner)
    && Wire(WantOf(s.th.h), s.th.l, s.bc.stream, s.bc.complete.Some?)
    && Winner(s.th.l, s.bc.stream.wire, s.bc.complete, s.bc.received, s.rc.log.error)
    && Quiet(BeforeBody(s.th.h), CachedPc(s.th.h), s.bc.stream.wire, s.rc.cached)
    && Message(PendingOf(s.th.h), s.rc.log, s.hist.aborted)
    && Told(s.th.h.InClose?, s.th.r.Aborting(), s.bc.complete, s.bc.received, s.hist.header, s.hist.aborted)
  }

  // ---------- every step keeps it ----------

  lemma ByRegister(s: Session, pc: RegisterPc, e: Env)
    requires Inv(s) && s.th.h == InRegister(pc) && !pc.RegisterSend?
    ensures Inv(RegisterStep(s, pc, e))
  {
    hide Scan, Winner, Message;
  }

  lemma ByRegisterSend(s: Session, pc: RegisterPc, e: Env)
    requires Inv(s) && s.th.h == InRegister(pc) && pc.RegisterSend?
    ensures Inv(RegisterStep(s, pc, e))
  {
    hide Scan;
    ScanSend(s.bc.stream, New, e.ok);
  }

  lemma ByRequest(s: Session, pc: RequestPc, e: Env)
    requires Inv(s) && s.th.h == InRequest(pc)
    ensures Inv(RequestStep(s, pc, e))
  {
    hide RequestStep, Scan, Lock, Winner, Told;
    RequestMeans(s, pc, e);
  }

  lemma RequestMeans(s: Session, pc: RequestPc, e: Env)
    requires s.th.h == InRequest(pc)
    ensures var t := RequestStep(s, pc, e);
            && t.bc == s.bc && t.th == s.th.(h := t.th.h, t := t.th.t) && t.hist == s.hist.(lostReq := t.hist.lostReq)
            && t.rc.log == s.rc.log.(status := t.rc.log.status) && t.rc.cached == s.rc.cached
            && (t.th.h.InRequest? || t.th.h == InResponse(RoundTrip) || (t.th.h.InFail? && t.th.h.fail.Fail?))
  {
  }

  lemma ByResponse(s: Session, pc: ResponsePc, e: Env)
    requires Inv(s) && s.th.h == InResponse(pc) && pc.RoundTrip?
    ensures Inv(ResponseStep(s, pc, e))
  {
    hide Scan, Lock, Winner;
  }

  lemma ByRespHeader(s: Session, pc: ResponsePc, e: Env)
    requires Inv(s) && s.th.h == InResponse(pc) && !pc.RoundTrip?
    ensures Inv(ResponseStep(s, pc, e))
  {
    hide Scan, Lock, Winner, Told;
  }

  lemma AfterChunkMeans(u: Session, res: ReadResult)
    ensures var t := AfterChunk(u, res);
            && t.bc == u.bc && t.hist == u.hist && t.rc == u.rc.(log := t.rc.log)
            && t.rc.log.error == u.rc.log.error && t.rc.log.status == u.rc.log.status
            && t.th == u.th.(h := t.th.h) && !t.th.h.HoldsController() && PendingOf(t.th.h) == NoMessage
            && !t.th.h.InClose? && !BeforeBody(t.th.h)
            && (WantOf(t.th.h) == Registered || WantOf(t.th.h) == Reported)
            && (u.rc.cached ==> CachedPc(t.th.h))
  {
  }

  lemma ByBody(s: Session, pc: BodyPc, e: Env)
    requires Inv(s) && s.th.h == InBody(pc) && (pc.Reading? || pc.Notify?)
    ensures Inv(BodyStep(s, pc, e))
  {
    hide Scan, Winner, AfterChunk;
    AfterChunkMeans(s, e.res);
  }

  lemma ByForward(s: Session, pc: BodyPc, e: Env)
    requires Inv(s) && s.th.h == InBody(pc) && (pc.Forward? || pc.ForwardSend?)
    ensures Inv(BodyStep(s, pc, e))
  {
    hide Scan, Winner, AfterChunk;
    var sent := SendW(s, Payload(RESPONSE, pc.chunk.data), e.ok);
    AfterChunkMeans(LoseResp(s), pc.chunk.res);
    AfterChunkMeans(if s.cw.stream.Live() && e.ok then sent else LoseResp(sent), pc.chunk.res);
  }

  lemma ByNotifySend(s: Session, pc: BodyPc, e: Env)
    requires Inv(s) && s.th.h == InBody(pc) && pc.NotifySend?
    ensures Inv(BodyStep(s, pc, e))
  {
    hide Scan;
    ScanSend(s.bc.stream, Data, e.ok);
  }

  lemma MetaMeans(s: Session, pc: MetaPc, e: Env)
    requires pc.MetaCheck? || pc.MetaLock?
    ensures var t := MetaStep(s, pc, e);
            && t.bc == s.bc && t.rc.log == s.rc.log && t.rc.cached == s.rc.cached && t.th == s.th.(h := t.th.h)
            && t.hist == s.hist
            && (t.th.h == s.th.h || t.th.h == InClose(BodyDone)
                || (t.th.h.InMeta? && (t.th.h.meta.MetaLock? || t.th.h.meta.MetaSend?)))
  {
  }

  lemma ByMeta(s: Session, pc: MetaPc, e: Env)
    requires Inv(s) && s.th.h == InMeta(pc) && (pc.MetaCheck? || pc.MetaLock?)
    ensures Inv(MetaStep(s, pc, e))
  {
    hide MetaStep, Scan, Winner;
    MetaMeans(s, pc, e);
  }

  lemma ByNotifyAll(s: Session, pc: MetaPc, e: Env)
    requires Inv(s) && s.th.h == InMeta(pc) && pc.NotifyAll?
    ensures Inv(MetaStep(s, pc, e))
  {
    hide Scan, Winner, Told;
  }

  lemma ByMetaAnswer(s: Session, pc: MetaPc, e: Env)
    requires Inv(s) && s.th.h == InMeta(pc) && (pc.MetaSend? || pc.MetaClose?)
    ensures Inv(MetaStep(s, pc, e))
  {
    hide Scan, Lock, Winner, Told;
  }

  lemma ByNotifyAllSend(s: Session, pc: MetaPc, e: Env)
    requires Inv(s) && s.th.h == InMeta(pc) && pc.NotifyAllSend?
    ensures Inv(MetaStep(s, pc, e))
  {
    hide Scan;
    ScanSend(s.bc.stream, AllData, e.ok);
  }

  lemma ByReport(s: Session, p: Purpose, pc: ReportPc, e: Env)
    requires Inv(s) && s.th.h == InReport(p, pc)
    ensures Inv(ReportStep(s, p, pc, e))
  {
    hide Scan;
  }

  lemma FailMeans(s: Session, c: int, e: Env)
    ensures var t := FailStep(s, c, Fail, e);
            && t.bc == s.bc && t.rc == s.rc && t.th == s.th.(h := t.th.h) && t.hist == s.hist.(header := t.hist.header)
            && if s.bc.complete.None? then t.th.h == InFail(c, FailNotify) && t.hist == s.hist
               else t.th.h == InClose(Cancelling(CStart, ToErrorReply)) && !t.hist.header.Posted?
                    && (t.hist.header.Early? ==> s.bc.complete.value.err == Some(t.hist.header.code))
  {
  }

  lemma ByFail(s: Session, c: int, pc: FailPc, e: Env)
    requires Inv(s) && s.th.h == InFail(c, pc) && pc.Fail?
    ensures Inv(FailStep(s, c, pc, e))
  {
    hide FailStep, Scan, Lock, Winner, Message;
    FailMeans(s, c, e);
  }

  lemma ByFailNotify(s: Session, c: int, pc: FailPc, e: Env)
    requires Inv(s) && s.th.h == InFail(c, pc) && pc.FailNotify?
    ensures Inv(FailStep(s, c, pc, e))
  {
    hide Scan, Winner, Message;
  }

  lemma ByFailNotifySend(s: Session, c: int, pc: FailPc, e: Env)
    requires Inv(s) && s.th.h == InFail(c, pc) && pc.FailNotifySend?
    ensures Inv(FailStep(s, c, pc, e))
  {
    hide Scan;
    ScanSend(s.bc.stream, AllData, e.ok);
  }

  lemma ByClose(s: Session, pc: ClosePc, e: Env)
    requires Inv(s) && s.th.h == InClose(pc)
    ensures Inv(CloseStep(s, pc, e))
  {
    hide Scan, CancelStep, Lock, Wire, Winner, Message, Told;
  }

  lemma ByTransport(s: Session, e: Env)
    requires Inv(s)
    ensures Inv(TransportStep(s, e))
  {
    hide TransportStep, Wire, Lock, Winner, Quiet, Message, Told, WantOf, PendingOf, BeforeBody, CachedPc;
    E.TransportMeans(s, e);
  }

  lemma BySelect(s: Session, pick: Pick)
    requires Inv(s) && s.th.l.Select? && !pick.OnHandler?
    ensures Inv(SelectStep(s, pick))
  {
    hide Scan;
  }

  lemma ByTake(s: Session)
    requires Inv(s) && s.th.l.Select?
    ensures Inv(SelectStep(s, OnHandler))
  {
    hide Scan;
  }

  lemma ByLoop(s: Session, pick: Pick, e: Env)
    requires Inv(s) && (s.th.l.Want? || s.th.l.CancelCtx? || s.th.l.LEnded?)
    ensures Inv(LoopStep(s, pick, e))
  {
    hide SelectStep, Scan, Message, Told, WantOf, PendingOf, BeforeBody, CachedPc;
  }

  lemma ByDrain(s: Session, pick: Pick, e: Env)
    requires Inv(s) && (s.th.l.CloseCompleted? || s.th.l.Drain? || s.th.l.Clear? || s.th.l.Count?)
    ensures Inv(LoopStep(s, pick, e))
  {
    hide SelectStep, Scan, Message, Told, WantOf, PendingOf, BeforeBody, CachedPc;
  }

  lemma ByHeld(s: Session, pick: Pick, e: Env)
    requires Inv(s) && (s.th.l.Held? || s.th.l.HeldError?)
    ensures Inv(LoopStep(s, pick, e))
  {
    hide Scan, Quiet, Told, WantOf, BeforeBody, CachedPc;
  }

  lemma BySendCompleted(s: Session, pick: Pick, e: Env)
    requires Inv(s) && s.th.l.SendCompleted?
    ensures Inv(LoopStep(s, pick, e))
  {
    hide Scan, Message, Told, WantOf, PendingOf, BeforeBody, CachedPc;
    ScanSend(s.bc.stream, Completed(FinalLog(s), s.rc.cached), e.ok);
  }

  lemma ByReceiver(s: Session, e: Env)
    requires Inv(s) && !s.th.r.Recv? && !s.th.r.Deliver? && !s.th.r.DeliverLast?
    ensures Inv(ReceiverStep(s, e))
  {
    hide Scan, RecvStep, CancelStep, Wire, Lock, Quiet, WantOf, BeforeBody, CachedPc;
  }

  lemma RecvMeans(s: Session)
    ensures var t := RecvStep(s);
            && t.bc == s.bc.(peer := t.bc.peer) && t.rc.log == s.rc.log && t.rc.cached == s.rc.cached
            && t.th == s.th.(r := t.th.r) && t.hist == s.hist.(aborted := t.hist.aborted)
            && (s.hist.aborted ==> t.hist.aborted) && (t.th.r.Aborting() ==> s.th.r.Aborting() || t.hist.aborted)
  {
  }

  lemma ByRecv(s: Session)
    requires Inv(s) && s.th.r.Recv?
    ensures Inv(RecvStep(s))
  {
    hide RecvStep, Scan, Wire, Lock, Winner, Quiet, WantOf, BeforeBody, CachedPc;
    RecvMeans(s);
  }

  lemma ByOffer(s: Session, e: Env)
    requires Inv(s) && (s.th.r.Deliver? || s.th.r.DeliverLast?)
    ensures Inv(ReceiverStep(s, e))
  {
    hide Scan, CancelStep;
  }

  lemma ByOthers(s: Session, a: Action)
    requires Inv(s) && !a.ByHandler? && !a.ByLoop? && !a.ByReceiver? && !a.ByTransport?
    ensures Inv(Step(s, a))
  {
    hide Scan, Wire, Lock, Winner, Quiet, Message, Told, WantOf, PendingOf, BeforeBody, CachedPc;
  }

  lemma KeptByHandler(s: Session, e: Env)
    requires Inv(s)
    ensures Inv(HandlerStep(s, e))
  {
    hide Inv, RegisterStep, RequestStep, ResponseStep, BodyStep, MetaStep, ReportStep, FailStep, CloseStep;
    match s.th.h
    case InRegister(pc) => if pc.RegisterSend? { ByRegisterSend(s, pc, e); } else { ByRegister(s, pc, e); }
    case InRequest(pc) => ByRequest(s, pc, e);
    case InResponse(pc) => if pc.RoundTrip? { ByResponse(s, pc, e); } else { ByRespHeader(s, pc, e); }
    case InBody(pc) =>
      if pc.NotifySend? { ByNotifySend(s, pc, e); }
      else if pc.Forward? || pc.ForwardSend? { ByForward(s, pc, e); }
      else { ByBody(s, pc, e); }
    case InMeta(pc) =>
      if pc.NotifyAll? { ByNotifyAll(s, pc, e); }
      else if pc.NotifyAllSend? { ByNotifyAllSend(s, pc, e); }
      else if pc.MetaCheck? || pc.MetaLock? { ByMeta(s, pc, e); }
      else { ByMetaAnswer(s, pc, e); }
    case InReport(p, pc) => ByReport(s, p, pc, e);
    case InFail(c, pc) =>
      if pc.Fail? { ByFail(s, c, pc, e); }
      else if pc.FailNotify? { ByFailNotify(s, c, pc, e); }
      else { ByFailNotifySend(s, c, pc, e); }
    case InClose(pc) => ByClose(s, pc, e);
  }

  lemma Kept(s: Session, a: Action)
    requires Inv(s)
    ensures Inv(Step(s, a))
  {
    hide Inv, HandlerStep, TransportStep, SelectStep, RecvStep, DisconnectStep;
    match a
    case ByHandler(e) => KeptByHandler(s, e);
    case ByTransport(e) => ByTransport(s, e);
    case ByLoop(pick, e) =>
      if s.th.l.Select? { if pick.OnHandler? { ByTake(s); } else { BySelect(s, pick); } }
      else if s.th.l.Held? || s.th.l.HeldError? { ByHeld(s, pick, e); }
      else if s.th.l.SendCompleted? { BySendCompleted(s, pick, e); }
      else if s.th.l.Want? || s.th.l.CancelCtx? || s.th.l.LEnded? { ByLoop(s, pick, e); }
      else { ByDrain(s, pick, e); }
    case ByReceiver(e) =>
      if s.th.r.Recv? { ByRecv(s); }
      else if s.th.r.Deliver? || s.th.r.DeliverLast? { ByOffer(s, e); }
      else { ByReceiver(s, e); }
    case _ => ByOthers(s, a);
  }

  lemma Started()
    ensures Inv(Init())
  {
  }

  lemma {:induction false} Always(schedule: seq<Action>)
    ensures Inv(Run(schedule))
  {
    hide Step, Inv;
    if schedule == [] {
      Started();
    } else {
      Always(schedule[..|schedule| - 1]);
      Kept(Run(schedule[..|schedule| - 1]), schedule[|schedule| - 1]);
    }
  }
}
