/** When the content writer is opened, and what comes first on its wire. */
module Opening {
  import opened Frames
  import opened Session
  import E = Effects
  import Composition
  import W = WriterProtocol

  // ---------- the invariant ----------

  /** Program points that the handler can be at without having opened the content writer. */
  predicate Unopened(h: HandlerPc) {
    match h
    case InRegister(_) => true
    case InRequest(pc) => pc.Filtering?
    case InFail(_, _) => true
    case InReport(_, _) => true
    case InClose(pc) => pc.Cancelling? ==> pc.at.CStart?
    case _ => false
  }

  /** Program points at which it cannot be open yet. */
  predicate TooEarly(h: HandlerPc) {
    h.InRegister? || h == InRequest(Filtering)
  }

  ghost predicate NotOpen(s: Session) {
    && s.cw == Init().cw && Unopened(s.th.h) && s.th.t.TOff? && s.th.d.DWait?
    && (s.th.r.RCancelling? ==> s.th.r.at.CStart?)
  }

  /** What the handler's program counter says about the request's header: not said, on the wire unless the
      stream is dead or the session was cancelled before, or on the wire unless the stream is dead. */
  datatype HeaderStage = Unsaid | Checked | Needed

  function StageOf(h: HandlerPc): HeaderStage {
    match h
    case InResponse(pc) => if pc.RespHeaderSend? then Needed else Checked
    case InBody(pc) => if pc.ForwardSend? then Needed else Checked
    case InMeta(pc) => if pc.MetaLock? || pc.MetaSend? then Needed else if pc.MetaClose? then Unsaid else Checked
    case _ => Unsaid
  }

  function StageOfTransport(t: TransportPc): HeaderStage {
    if t.TReading? || t.TForward? then Checked else if t.TForwardSend? then Needed else Unsaid
  }

  predicate Begun(stage: HeaderStage, st: Stream<WriterFrame>, canceled: bool) {
    match stage
    case Unsaid => true
    case Checked => Composition.HasHeader(st.wire, REQUEST) || !st.Live() || canceled
    case Needed => Composition.HasHeader(st.wire, REQUEST) || !st.Live()
  }

  predicate OnlyCancels(w: seq<WriterFrame>) {
    forall f :: f in w ==> f.Cancel?
  }

  /** The first frame is the request's header or a Cancel. */
  predicate Starts(w: seq<WriterFrame>) {
    w != [] ==> w[0].Cancel? || (w[0].Header? && w[0].rec == REQUEST)
  }

  ghost predicate Inv(s: Session) {
    && (s.cw.open ==> !TooEarly(s.th.h))
    && (!s.cw.open ==> NotOpen(s))
    && (s.rc.rcError ==> s.th.r.DeliverLast? || s.th.r.RClose? || s.th.r.REnded?)
    && Begun(StageOf(s.th.h), s.cw.stream, s.cw.canceled)
    && Begun(StageOfTransport(s.th.t), s.cw.stream, s.cw.canceled)
    && (OnlyCancels(s.cw.stream.wire) || Composition.HasHeader(s.cw.stream.wire, REQUEST))
    && Starts(s.cw.stream.wire)
  }

  // ---------- every step keeps it ----------

  lemma Added(w: seq<WriterFrame>, f: WriterFrame)
    ensures Composition.HasHeader(w + [f], REQUEST) <==> Composition.HasHeader(w, REQUEST) || (f.Header? && f.rec == REQUEST)
    ensures OnlyCancels(w + [f]) <==> OnlyCancels(w) && f.Cancel?
    ensures Starts(w) && (Composition.HasHeader(w, REQUEST) || f.Cancel? || (f.Header? && f.rec == REQUEST)) ==> Starts(w + [f])
  {
    Composition.OrderlyAppended(w, f, false);
    assert f in w + [f];
  }

  /** What others may do to the writer. */
  lemma OtherWriter(s: Session, w: Writer)
    requires Inv(s) && s.cw.open && w.open && (s.cw.canceled ==> w.canceled) && (w.stream.Live() ==> s.cw.stream.Live())
    requires w.stream.wire == s.cw.stream.wire || w.stream.wire == s.cw.stream.wire + [Cancel]
    ensures Inv(WithCw(s, w))
  {
    hide Composition.HasHeader, OnlyCancels, Starts;
    Added(s.cw.stream.wire, Cancel);
  }

  lemma ByRegister(s: Session, pc: RegisterPc, e: Env)
    requires Inv(s) && s.th.h == InRegister(pc)
    ensures Inv(RegisterStep(s, pc, e))
  {
    hide Composition.HasHeader, OnlyCancels, Starts;
  }

  lemma ByRequest(s: Session, pc: RequestPc, e: Env)
    requires Inv(s) && s.th.h == InRequest(pc) && !pc.ReqHeaderSend?
    ensures Inv(RequestStep(s, pc, e))
  {
    hide Composition.HasHeader, OnlyCancels, Starts;
  }

  lemma ByReqHeaderSend(s: Session, pc: RequestPc, e: Env)
    requires Inv(s) && s.th.h == InRequest(pc) && pc.ReqHeaderSend?
    ensures Inv(RequestStep(s, pc, e))
  {
    hide RequestStep, Composition.HasHeader, OnlyCancels, Starts;
    W.ReqHeaderMeans(s, pc, e);
    Added(s.cw.stream.wire, Header(REQUEST, pc.prolog));
  }

  lemma ByResponse(s: Session, pc: ResponsePc, e: Env)
    requires Inv(s) && s.th.h == InResponse(pc)
    ensures Inv(ResponseStep(s, pc, e))
  {
    hide Composition.HasHeader, OnlyCancels, Starts;
    if pc.RespHeaderSend? { Added(s.cw.stream.wire, Header(RESPONSE, pc.prolog)); }
  }

  lemma AfterChunkMeans(u: Session, res: ReadResult)
    ensures var t := AfterChunk(u, res);
            && t.cw == u.cw && t.th == u.th.(h := t.th.h) && t.rc.rcError == u.rc.rcError && !TooEarly(t.th.h)
            && (StageOf(t.th.h) == Checked || StageOf(t.th.h) == Unsaid)
  {
  }

  lemma ByReading(s: Session, pc: BodyPc, e: Env)
    requires Inv(s) && s.th.h == InBody(pc) && !pc.Forward? && !pc.ForwardSend?
    ensures Inv(BodyStep(s, pc, e))
  {
    hide Composition.HasHeader, OnlyCancels, Starts, AfterChunk, NotOpen;
    AfterChunkMeans(s, e.res);
    OpenBy(s);
  }

  /** Past the filters the content writer is open. */
  lemma OpenBy(s: Session)
    requires Inv(s) && !Unopened(s.th.h)
    ensures s.cw.open
  {
  }

  lemma ByForward(s: Session, pc: BodyPc, e: Env)
    requires Inv(s) && s.th.h == InBody(pc) && (pc.Forward? || pc.ForwardSend?)
    ensures Inv(BodyStep(s, pc, e))
  {
    hide Composition.HasHeader, OnlyCancels, Starts, AfterChunk, NotOpen;
    var f := Payload(RESPONSE, pc.chunk.data);
    var sent := SendW(s, f, e.ok);
    OpenBy(s);
    Added(s.cw.stream.wire, f);
    AfterChunkMeans(LoseResp(s), pc.chunk.res);
    AfterChunkMeans(if s.cw.stream.Live() && e.ok then sent else LoseResp(sent), pc.chunk.res);
  }

  lemma ByMeta(s: Session, pc: MetaPc, e: Env)
    requires Inv(s) && s.th.h == InMeta(pc) && (pc.NotifyAll? || pc.NotifyAllSend? || pc.MetaCheck? || pc.MetaLock?)
    ensures Inv(MetaStep(s, pc, e))
  {
    hide Composition.HasHeader, OnlyCancels, Starts, NotOpen;
    OpenBy(s);
  }

  lemma ByMetaAnswer(s: Session, pc: MetaPc, e: Env)
    requires Inv(s) && s.th.h == InMeta(pc) && (pc.MetaSend? || pc.MetaClose?)
    ensures Inv(MetaStep(s, pc, e))
  {
    hide Composition.HasHeader, OnlyCancels, Starts, NotOpen;
    OpenBy(s);
    if pc.MetaSend? { Added(s.cw.stream.wire, Meta(s.rc.meta)); }
  }

  lemma ByReport(s: Session, p: Purpose, pc: ReportPc, e: Env)
    requires Inv(s) && s.th.h == InReport(p, pc)
    ensures Inv(ReportStep(s, p, pc, e))
  {
    hide Composition.HasHeader, OnlyCancels, Starts;
  }

  lemma ByFail(s: Session, code: int, pc: FailPc, e: Env)
    requires Inv(s) && s.th.h == InFail(code, pc)
    ensures Inv(FailStep(s, code, pc, e))
  {
    hide Composition.HasHeader, OnlyCancels, Starts;
  }

  lemma ByClose(s: Session, pc: ClosePc, e: Env)
    requires Inv(s) && s.th.h == InClose(pc)
    ensures Inv(CloseStep(s, pc, e))
  {
    hide Composition.HasHeader, OnlyCancels, Starts, CancelStep;
    if pc.Cancelling? { Cancels(s, pc.at, Handler, e.ok); }
  }

  lemma Cancels(s: Session, at: CancelPc, me: Thread, ok: bool)
    requires Inv(s) && (!s.cw.open ==> at.CStart?)
    ensures var (w, next) := CancelStep(s.cw, at, me, ok);
            Inv(WithCw(s, w)) && w.open == s.cw.open && (!s.cw.open ==> next.None? && w == s.cw)
  {
    hide Composition.HasHeader, OnlyCancels, Starts, NotOpen, CancelStep;
    E.CancelMeans(s.cw, at, me, ok);
    CancelOpens(s.cw, at, me, ok);
    var w := CancelStep(s.cw, at, me, ok).0;
    if s.cw.open { OtherWriter(s, w); } else { assert WithCw(s, w) == s; }
  }

  lemma CancelOpens(w: Writer, at: CancelPc, me: Thread, ok: bool)
    ensures var (w', next) := CancelStep(w, at, me, ok);
            w'.open == w.open && (!w.open && at.CStart? ==> next.None? && w' == w)
  {
  }

  lemma ByHandler(s: Session, e: Env)
    requires Inv(s)
    ensures Inv(HandlerStep(s, e))
  {
    hide Inv, RegisterStep, RequestStep, ResponseStep, BodyStep, MetaStep, ReportStep, FailStep, CloseStep;
    match s.th.h
    case InRegister(pc) => ByRegister(s, pc, e);
    case InRequest(pc) => if pc.ReqHeaderSend? { ByReqHeaderSend(s, pc, e); } else { ByRequest(s, pc, e); }
    case InResponse(pc) => ByResponse(s, pc, e);
    case InBody(pc) => if pc.Forward? || pc.ForwardSend? { ByForward(s, pc, e); } else { ByReading(s, pc, e); }
    case InMeta(pc) => if pc.MetaSend? || pc.MetaClose? { ByMetaAnswer(s, pc, e); } else { ByMeta(s, pc, e); }
    case InReport(p, pc) => ByReport(s, p, pc, e);
    case InFail(code, pc) => ByFail(s, code, pc, e);
    case InClose(pc) => ByClose(s, pc, e);
  }

  lemma ByTransport(s: Session, e: Env)
    requires Inv(s)
    ensures Inv(TransportStep(s, e))
  {
    hide Composition.HasHeader, OnlyCancels, Starts, StageOf, TooEarly, Unopened;
    if s.th.t.TForwardSend? { Added(s.cw.stream.wire, Payload(REQUEST, s.th.t.chunk.data)); }
  }

  lemma ByLoop(s: Session, pick: Pick, e: Env)
    requires Inv(s)
    ensures Inv(LoopStep(s, pick, e))
  {
    hide Composition.HasHeader, OnlyCancels, Starts, Begun, LoopStep;
    E.LoopMeans(s, pick, e);
  }

  lemma ByReceiver(s: Session, e: Env)
    requires Inv(s) && !s.th.r.RCancelling?
    ensures Inv(ReceiverStep(s, e))
  {
    hide Composition.HasHeader, OnlyCancels, Starts, Begun, CancelStep;
  }

  lemma ByReceiverCancel(s: Session, e: Env)
    requires Inv(s) && s.th.r.RCancelling?
    ensures Inv(ReceiverStep(s, e))
  {
    hide Composition.HasHeader, OnlyCancels, Starts, Begun, CancelStep, StageOf, TooEarly, Unopened;
    Cancels(s, s.th.r.at, Receiver, e.ok);
  }

  lemma ByDisconnect(s: Session, e: Env)
    requires Inv(s)
    ensures Inv(DisconnectStep(s, e))
  {
    hide Composition.HasHeader, OnlyCancels, Starts, StageOf, TooEarly, Unopened, WatchStep, Begun;
    E.WatchMeans(s.cw, s.th.d, e.ok);
    WatchOpens(s.cw, s.th.d, e.ok);
    if s.cw.open { OtherWriter(s, WatchStep(s.cw, s.th.d, e.ok).0); }
  }

  lemma WatchOpens(w: Writer, d: DisconnectPc, ok: bool)
    ensures var (w', d') := WatchStep(w, d, ok);
            w'.open == w.open && (!w.open && d.DWait? ==> w' == w && d'.DWait?)
  {
  }

  lemma Kept(s: Session, a: Action)
    requires Inv(s)
    ensures Inv(Step(s, a))
  {
    hide Composition.HasHeader, OnlyCancels, Starts, Begun, HandlerStep, TransportStep, LoopStep, ReceiverStep,
         DisconnectStep;
    match a
    case ByHandler(e) => ByHandler(s, e);
    case ByTransport(e) => ByTransport(s, e);
    case ByLoop(pick, e) => ByLoop(s, pick, e);
    case ByReceiver(e) => if s.th.r.RCancelling? { ByReceiverCancel(s, e); } else { ByReceiver(s, e); }
    case ByDisconnect(e) => ByDisconnect(s, e);
    case _ =>
  }

  lemma {:induction false} Always(schedule: seq<Action>)
    ensures Inv(Run(schedule))
  {
    hide Step;
    if schedule != [] {
      Always(schedule[..|schedule| - 1]);
      hide Inv;
      Kept(Run(schedule[..|schedule| - 1]), schedule[|schedule| - 1]);
    }
  }

  /** In every run, whatever is on the content writer's wire begins with the request's header or a Cancel; and
      unless there is nothing but Cancel the header is there. */
  lemma FirstFrame(schedule: seq<Action>)
    ensures var w := Run(schedule).cw.stream.wire;
            && (w != [] ==> w[0].Cancel? || (w[0].Header? && w[0].rec == REQUEST))
            && ((exists f :: f in w && !f.Cancel?) <==> Composition.HasHeader(w, REQUEST))
  {
    hide Run;
    Always(schedule);
  }
}
