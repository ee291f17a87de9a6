/** One recording session: the handler, the transport reading the request body, the select loop, the
    controller receiver and the disconnect watcher, interleaved in every possible way. */
module Session {
  import opened Frames

  const RUNTIME_EXCEPTION := -5
  const CANCELED_BY_BROWSER := -5011
  const PRECLUDED_BY_ROBOTS := -9998

  datatype Thread = Handler | Loop | Receiver | Disconnect

  /** A completion message on its way to the select loop: a copy of the crawl log and an error code. */
  datatype Outcome = Outcome(log: CrawlLog, err: Option<int>)

  /** Replies of the browser controller. `Robots` is a cancel whose text mentions robots.txt. */
  datatype Reply = Accept | Robots | Abort

  /** How the controller's stream ended. `Unknown` is any status the receiver does not recognise. */
  datatype EndKind = Orderly | Unknown

  datatype ReadResult = More | Eof | Failed

  /** The result of one Read of a body. */
  datatype Chunk = Chunk(data: seq<Byte>, res: ReadResult)

  /** What the surroundings decide in a step: whether a send or a call succeeds, what a Read yields,
      an error or status code, a yes/no choice, and whether the connection's context slot is set. */
  datatype Env = Env(ok: bool, data: seq<Byte>, res: ReadResult, code: int, flag: bool, slot: bool)

  /** Where a thread is inside CancelContentWriter. */
  datatype CancelPc = CStart | CLock | CSend | CClose

  datatype After = ToBodyDone | ToErrorReply | ToWait

  /** Who reports the outcome: SaveCrawlLog, SendResponseError or SendRequestError. */
  datatype Purpose = ForSave | ForResponseError(code: int) | ForRequestError(code: int)

  /** Where the handler is, call by call. */
  datatype RegisterPc = Register | RegisterSend | RegisterWait
  datatype RequestPc = Filtering | ReqHeader(prolog: seq<Byte>) | ReqHeaderSend(prolog: seq<Byte>)
  datatype ResponsePc = RoundTrip | RespHeader(prolog: seq<Byte>) | RespHeaderSend(prolog: seq<Byte>)
  datatype BodyPc = Reading | Notify(chunk: Chunk) | NotifySend(chunk: Chunk) | Forward(chunk: Chunk) | ForwardSend(chunk: Chunk)
  datatype MetaPc = NotifyAll | NotifyAllSend | MetaCheck | MetaLock(drained: bool) | MetaSend(drained: bool) | MetaClose
  datatype ReportPc = Report | Edit | EditError | Copy | Post(msg: Outcome)
  datatype FailPc = Fail | FailNotify | FailNotifySend
  datatype ClosePc =
    | Cancelling(at: CancelPc, after: After)
    | BodyDone | ErrorReply
    | Closing(writeErr: bool) | DoneSend(writeErr: bool)
    | WaitWriter | WaitController | Ended

  datatype HandlerPc =
    | InRegister(reg: RegisterPc)
    | InRequest(req: RequestPc)
    | InResponse(resp: ResponsePc)
    | InBody(body: BodyPc)
    | InMeta(meta: MetaPc)
    | InReport(p: Purpose, rep: ReportPc)
    | InFail(code: int, fail: FailPc)
    | InClose(close: ClosePc)
  {
    /** Program points at which the handler holds `b.m`. */
    predicate HoldsController() {
      match this
      case InRegister(pc) => !pc.Register?
      case InBody(pc) => pc.NotifySend?
      case InMeta(pc) => pc.NotifyAllSend?
      case InReport(_, pc) => !pc.Report?
      case InFail(_, pc) => pc.FailNotifySend?
      case _ => false
    }
  }

  datatype TransportPc = TOff | TReading | TForward(chunk: Chunk) | TForwardSend(chunk: Chunk) | TFill | TEof

  datatype LoopPc =
    | Select | Want | Held | HeldError | SendCompleted | CloseCompleted | Drain | Clear | Count | CancelCtx | LEnded
  {
    predicate Holds() {
      !Select? && !Want? && !LEnded?
    }
  }

  datatype ReceiverPc =
    | Recv | Deliver(reply: Reply) | DeliverLast(cancel: bool)
    | RCancelling(at: CancelPc) | REdit | REditError | RCopy | RPost(msg: Outcome)
    | RClose | REnded
  {
    /** The receiver is acting on a cancel of the controller. */
    predicate Aborting() {
      RCancelling? || REdit? || REditError? || RCopy? || RPost?
    }
  }

  datatype DisconnectPc = DWait | DLock | DSend | DClose | DFree | DEnded

  /** What the controller has sent and the receiver has not yet read, how its stream ended, and
      whether the receiver has closed msgChan. */
  datatype Peer = Peer(inbox: seq<Reply>, ended: Option<EndKind>, chanClosed: bool)

  /** BccSession. `received` is the history of completion messages taken by the select loop. */
  datatype Controller = Controller(
    owner: Option<Thread>,
    complete: Option<Outcome>,
    received: seq<Outcome>,
    stream: Stream<ControllerFrame>,
    peer: Peer,
    ctxDone: bool)

  /** `c.m` and what it guards. `tries` counts the attempts to send a Meta or Cancel frame. */
  datatype Gate = Gate(owner: Option<Thread>, done: bool, tries: nat)

  /** CwcSession. */
  datatype Writer = Writer(
    open: bool,
    canceled: bool,
    gate: Gate,
    stream: Stream<WriterFrame>,
    acked: bool,
    ctxDone: bool)

  /** The fields of RecordContext that the threads share, and the state of the two body wrappers. */
  datatype Record = Record(
    log: CrawlLog,
    meta: map<nat, RecordMeta>,
    req: Recording,
    resp: Recording,
    cached: bool,
    rcError: bool)

  /** The code in the client's error header and how SendRequestError came by it. */
  datatype ErrorHeader = NoHeader | Early(code: int) | Posted(code: int) | Unsent(code: int)

  /** What has happened so far, for stating properties only: bytes that were hashed but not
      transmitted, the length of the response prolog, whether the receiver has acted on a cancel,
      whether the request body was at EOF when SendMeta began, and the client's error header. */
  datatype History = History(
    lostReq: bool,
    lostResp: bool,
    prologLen: nat,
    aborted: bool,
    metaDrained: bool,
    header: ErrorHeader)

  datatype Threads = Threads(h: HandlerPc, t: TransportPc, l: LoopPc, r: ReceiverPc, d: DisconnectPc)

  datatype Session = Session(
    th: Threads, bc: Controller, cw: Writer, rc: Record, hist: History, clientGone: bool)

  function Init(): Session {
    Session(Threads(InRegister(Register), TOff, Select, Recv, DWait),
            Controller(None, None, [], Stream([], false, false), Peer([], None, false), false),
            Writer(false, false, Gate(None, false, 0), Stream([], false, false), false, false),
            Record(CrawlLog(0, 0, 0, Unset), map[], Recording(0, []), Recording(0, []), false, false),
            History(false, false, 0, false, false, NoHeader),
            false)
  }

  function GoH(s: Session, h: HandlerPc): Session { s.(th := s.th.(h := h)) }
  function GoT(s: Session, t: TransportPc): Session { s.(th := s.th.(t := t)) }
  function GoL(s: Session, l: LoopPc): Session { s.(th := s.th.(l := l)) }
  function GoR(s: Session, r: ReceiverPc): Session { s.(th := s.th.(r := r)) }
  function GoD(s: Session, d: DisconnectPc): Session { s.(th := s.th.(d := d)) }
  function WithBc(s: Session, bc: Controller): Session { s.(bc := bc) }
  function WithCw(s: Session, cw: Writer): Session { s.(cw := cw) }
  function WithRc(s: Session, rc: Record): Session { s.(rc := rc) }
  function WithHist(s: Session, hist: History): Session { s.(hist := hist) }

  function LoseReq(s: Session): Session { WithHist(s, s.hist.(lostReq := true)) }
  function LoseResp(s: Session): Session { WithHist(s, s.hist.(lostResp := true)) }
  function ErrorReturned(s: Session, header: ErrorHeader): Session {
    GoH(WithHist(s, s.hist.(header := header)), InClose(Cancelling(CStart, ToErrorReply)))
  }

  // ---------- the two locks and the two streams ----------

  function LockB(s: Session, me: Thread): Session { WithBc(s, s.bc.(owner := Some(me))) }

  function UnlockB(s: Session): Session { WithBc(s, s.bc.(owner := None)) }

  function SendB(s: Session, f: ControllerFrame, ok: bool): Session {
    WithBc(s, s.bc.(stream := s.bc.stream.Send(f, ok)))
  }

  /** A data frame to the content writer; these sends do not take `c.m`. */
  function SendW(s: Session, f: WriterFrame, ok: bool): Session {
    WithCw(s, s.cw.(stream := s.cw.stream.Send(f, ok)))
  }

  /** Taking `c.m` and setting `done`. */
  function Claim(w: Writer, me: Thread): Writer { w.(gate := w.gate.(owner := Some(me), done := true)) }

  /** An attempt to send a Meta or Cancel frame under `c.m`. */
  function Try(w: Writer, f: WriterFrame, ok: bool): Writer {
    w.(stream := w.stream.Send(f, ok), gate := w.gate.(tries := w.gate.tries + 1))
  }

  /** CloseAndRecv has returned; the context is cancelled and `c.m` released. */
  function CloseW(w: Writer, acked: bool): Writer {
    w.(stream := w.stream.CloseSend(), gate := w.gate.(owner := None), acked := w.acked || acked, ctxDone := true)
  }

  /** The context is cancelled and `c.m` released without closing the stream. */
  function LeaveW(w: Writer): Writer { w.(gate := w.gate.(owner := None), ctxDone := true) }

  /** One step of CancelContentWriter, shared by handler and receiver; None means that the call returns. */
  function CancelStep(w: Writer, at: CancelPc, me: Thread, ok: bool): (Writer, Option<CancelPc>) {
    match at
    case CStart => if !w.open then (w, None) else (w.(canceled := true), Some(CLock))
    case CLock =>
      if w.gate.owner.Some? then (w, Some(CLock))
      else if w.gate.done then (w, None)
      else (Claim(w, me), Some(CSend))
    case CSend => (Try(w, Cancel, ok), Some(CClose))
    case CClose => (CloseW(w, false), None)
  }

  // ---------- the handler ----------

  /** RegisterNewRequest, called by the context filter. */
  function RegisterStep(s: Session, pc: RegisterPc, e: Env): Session {
    match pc
    case Register =>
      if s.bc.owner.Some? then s
      else if s.bc.complete.Some? then GoH(s, InFail(RUNTIME_EXCEPTION, Fail))
      else GoH(LockB(s, Handler), InRegister(RegisterSend))
    case RegisterSend => GoH(SendB(s, New, e.ok), InRegister(RegisterWait))
    case RegisterWait =>
      if s.bc.peer.chanClosed then GoH(UnlockB(s), InFail(CANCELED_BY_BROWSER, Fail)) else s
  }

  /** The filters up to the round trip: WrapRequestBody sends the request's protocol header. */
  function RequestStep(s: Session, pc: RequestPc, e: Env): Session {
    match pc
    case Filtering =>
      if !e.ok then GoH(s, InFail(e.code, Fail))
      else
        var rc := s.rc.(log := s.rc.log.(status := -1), meta := s.rc.meta[REQUEST := RecordMeta(0, Unset)],
                        req := s.rc.req.Absorb(e.data));
        GoH(WithCw(WithRc(s, rc), s.cw.(open := true)), InRequest(ReqHeader(e.data)))
    case ReqHeader(p) =>
      if s.cw.canceled then GoT(GoH(LoseReq(s), InResponse(RoundTrip)), TReading)
      else GoH(s, InRequest(ReqHeaderSend(p)))
    case ReqHeaderSend(p) =>
      var sent := SendW(s, Header(REQUEST, p), e.ok);
      if s.cw.stream.Live() && e.ok then GoT(GoH(sent, InResponse(RoundTrip)), TReading)
      else GoH(LoseReq(sent), InFail(RUNTIME_EXCEPTION, Fail))
  }

  /** filterResponse: WrapResponseBody sends the response's protocol header unless it came from the cache. */
  function ResponseStep(s: Session, pc: ResponsePc, e: Env): Session {
    match pc
    case RoundTrip =>
      if !e.ok then GoH(s, InFail(e.code, Fail))
      else if s.rc.rcError then GoH(s, InClose(BodyDone))
      else
        var rc := s.rc.(cached := e.flag, log := s.rc.log.(status := e.code),
                        meta := s.rc.meta[RESPONSE := RecordMeta(0, Unset)], resp := s.rc.resp.Absorb(e.data));
        GoH(WithHist(WithRc(s, rc), s.hist.(prologLen := |e.data|)),
            if e.flag then InBody(Reading) else InResponse(RespHeader(e.data)))
    case RespHeader(p) =>
      if s.cw.canceled then GoH(LoseResp(s), InBody(Reading)) else GoH(s, InResponse(RespHeaderSend(p)))
    case RespHeaderSend(p) =>
      var sent := SendW(s, Header(RESPONSE, p), e.ok);
      if s.cw.stream.Live() && e.ok then GoH(sent, InBody(Reading))
      else GoH(LoseResp(sent), InFail(RUNTIME_EXCEPTION, Fail))
  }

  /** After innerRead has dealt with the bytes of a chunk. */
  function AfterChunk(s: Session, res: ReadResult): Session {
    if !res.Eof? then GoH(s, InBody(Reading))
    else if s.rc.cached then
      GoH(WithRc(s, s.rc.(log := s.rc.log.(size := s.rc.resp.size))), InReport(ForSave, Report))
    else GoH(s, InMeta(NotifyAll))
  }

  function AbsorbResp(s: Session, d: seq<Byte>): Session {
    WithRc(s, s.rc.(resp := s.rc.resp.Absorb(d)))
  }

  /** wrappedResponseBody.innerRead. */
  function BodyStep(s: Session, pc: BodyPc, e: Env): Session {
    match pc
    case Reading =>
      if e.flag then GoH(s, InClose(Closing(e.ok)))
      else if s.rc.cached || e.data == [] then AfterChunk(s, e.res)
      else GoH(s, InBody(Notify(Chunk(e.data, e.res))))
    case Notify(c) =>
      if s.bc.owner.Some? then s
      else if s.bc.complete.Some? then GoH(AbsorbResp(s, c.data), InBody(Forward(c)))
      else GoH(LockB(s, Handler), InBody(NotifySend(c)))
    case NotifySend(c) => GoH(AbsorbResp(UnlockB(SendB(s, Data, e.ok)), c.data), InBody(Forward(c)))
    case Forward(c) =>
      if s.cw.canceled then AfterChunk(LoseResp(s), c.res) else GoH(s, InBody(ForwardSend(c)))
    case ForwardSend(c) =>
      var sent := SendW(s, Payload(RESPONSE, c.data), e.ok);
      AfterChunk(if s.cw.stream.Live() && e.ok then sent else LoseResp(sent), c.res)
  }

  /** The rest of innerRead at EOF: NotifyAllDataReceived, SendMeta and what is done with its reply. */
  function MetaStep(s: Session, pc: MetaPc, e: Env): Session {
    match pc
    case NotifyAll =>
      if s.bc.owner.Some? then s
      else if s.bc.complete.Some? then GoH(s, InMeta(MetaCheck))
      else GoH(LockB(s, Handler), InMeta(NotifyAllSend))
    case NotifyAllSend => GoH(UnlockB(SendB(s, AllData, e.ok)), InMeta(MetaCheck))
    case MetaCheck =>
      GoH(WithRc(s, s.rc.(meta := s.rc.meta[RESPONSE := s.rc.resp.Meta()])),
          if s.cw.canceled then InClose(BodyDone) else InMeta(MetaLock(s.th.t.TEof?)))
    case MetaLock(drained) =>
      if s.cw.gate.owner.Some? then s
      else if s.cw.gate.done then GoH(s, InClose(BodyDone))
      else GoH(WithCw(s, Claim(s.cw, Handler)), InMeta(MetaSend(drained)))
    case MetaSend(drained) =>
      var w := Try(s.cw, Meta(s.rc.meta), e.ok);
      if s.cw.stream.Live() && e.ok then
        GoH(WithHist(WithCw(s, w), s.hist.(metaDrained := drained)), InMeta(MetaClose))
      else GoH(WithCw(s, LeaveW(w)), InReport(ForResponseError(RUNTIME_EXCEPTION), Report))
    case MetaClose =>
      var closed := WithCw(s, CloseW(s.cw, e.ok));
      if e.ok then GoH(WithRc(closed, ArchivedLog(s.rc)), InReport(ForSave, Report))
      else GoH(closed, InReport(ForResponseError(RUNTIME_EXCEPTION), Report))
  }

  /** The crawl log takes the size and digest of the archived response. */
  function ArchivedLog(rc: Record): Record {
    rc.(log := rc.log.(size := rc.resp.size, digest := Sha1(rc.resp.hashed)))
  }

  /** SaveCrawlLog, SendResponseError and SendRequestError return to their callers. */
  function Reported(s: Session, p: Purpose, posted: bool): Session {
    match p
    case ForSave => GoH(s, InClose(if s.rc.cached then Cancelling(CStart, ToBodyDone) else BodyDone))
    case ForResponseError(_) => GoH(s, InClose(BodyDone))
    case ForRequestError(c) => ErrorReturned(s, if posted then Posted(c) else Unsent(RUNTIME_EXCEPTION))
  }

  /** The status code and the error of the crawl log are written one after the other, under no common lock. */
  function LogStatus(rc: Record, code: int): Record { rc.(log := rc.log.(status := code)) }

  function LogError(rc: Record, code: int): Record { rc.(log := rc.log.(error := code)) }

  /** The part of the three reporting calls that runs under `b.m`, up to the send on completeChan. */
  function ReportStep(s: Session, p: Purpose, pc: ReportPc, e: Env): Session {
    match pc
    case Report =>
      if s.bc.owner.Some? then s
      else if s.bc.complete.Some? then Reported(s, p, false)
      else GoH(LockB(s, Handler), InReport(p, Edit))
    case Edit =>
      if p.ForSave? then GoH(s, InReport(p, Copy))
      else GoH(WithRc(s, LogStatus(s.rc, p.code)), InReport(p, EditError))
    case EditError =>
      if p.ForSave? then GoH(s, InReport(p, Copy))
      else GoH(WithRc(s, LogError(s.rc, p.code)), InReport(p, Copy))
    case Copy => GoH(s, InReport(p, Post(Outcome(s.rc.log, if p.ForSave? then None else Some(p.code)))))
    case Post(_) => s
  }

  /** handleRequestError: SendRequestError up to its completion message. */
  function FailStep(s: Session, code: int, pc: FailPc, e: Env): Session {
    match pc
    case Fail =>
      if s.bc.complete.None? then GoH(s, InFail(code, FailNotify))
      else if s.bc.complete.value.err.Some? then ErrorReturned(s, Early(s.bc.complete.value.err.value))
      else ErrorReturned(s, Unsent(code))
    case FailNotify =>
      if s.bc.owner.Some? then s
      else if s.bc.complete.Some? then ErrorReturned(s, Unsent(RUNTIME_EXCEPTION))
      else GoH(LockB(s, Handler), InFail(code, FailNotifySend))
    case FailNotifySend =>
      var sent := UnlockB(SendB(s, AllData, e.ok));
      if s.bc.stream.Live() && e.ok then GoH(sent, InReport(ForRequestError(code), Report))
      else ErrorReturned(sent, Unsent(RUNTIME_EXCEPTION))
  }

  function AfterCancel(after: After): ClosePc {
    match after
    case ToBodyDone => BodyDone
    case ToErrorReply => ErrorReply
    case ToWait => WaitWriter
  }

  /** CancelContentWriter by the handler, and the closing sequence of the response interceptor. */
  function CloseStep(s: Session, pc: ClosePc, e: Env): Session {
    match pc
    case Cancelling(at, after) =>
      var (w, next) := CancelStep(s.cw, at, Handler, e.ok);
      GoH(WithCw(s, w), InClose(if next.Some? then Cancelling(next.value, after) else AfterCancel(after)))
    case BodyDone => GoH(s, InClose(Closing(e.flag)))
    case ErrorReply => GoH(s, InClose(Closing(e.flag)))
    case Closing(writeErr) => GoH(s, InClose(if e.slot then DoneSend(writeErr) else Ended))
    case DoneSend(_) => s
    case WaitWriter => if !s.cw.open || s.cw.ctxDone then GoH(s, InClose(WaitController)) else s
    case WaitController => if s.bc.ctxDone then GoH(s, InClose(Ended)) else s
    case Ended => s
  }

  function HandlerStep(s: Session, e: Env): Session {
    match s.th.h
    case InRegister(pc) => RegisterStep(s, pc, e)
    case InRequest(pc) => RequestStep(s, pc, e)
    case InResponse(pc) => ResponseStep(s, pc, e)
    case InBody(pc) => BodyStep(s, pc, e)
    case InMeta(pc) => MetaStep(s, pc, e)
    case InReport(p, pc) => ReportStep(s, p, pc, e)
    case InFail(code, pc) => FailStep(s, code, pc, e)
    case InClose(pc) => CloseStep(s, pc, e)
  }

  // ---------- the transport reading the request body ----------

  function AfterRequestChunk(s: Session, res: ReadResult): Session {
    GoT(s, if res.Eof? then TFill else TReading)
  }

  /** wrappedRequestBody.Read. */
  function TransportStep(s: Session, e: Env): Session {
    match s.th.t
    case TOff => s
    case TReading =>
      if e.data == [] then AfterRequestChunk(s, e.res)
      else GoT(WithRc(s, s.rc.(req := s.rc.req.Absorb(e.data))), TForward(Chunk(e.data, e.res)))
    case TForward(c) =>
      if s.cw.canceled then AfterRequestChunk(LoseReq(s), c.res) else GoT(s, TForwardSend(c))
    case TForwardSend(c) =>
      var sent := SendW(s, Payload(REQUEST, c.data), e.ok);
      AfterRequestChunk(if s.cw.stream.Live() && e.ok then sent else LoseReq(sent), c.res)
    case TFill => GoT(WithRc(s, s.rc.(meta := s.rc.meta[REQUEST := s.rc.req.Meta()])), TEof)
    case TEof => s
  }

  // ---------- the select loop and finish ----------

  datatype Pick = OnClientGone | OnDone | OnHandler | OnReceiver

  /** The loop takes a completion message: the first one is kept, later ones are dropped. */
  function Take(b: Controller, m: Outcome): Controller {
    b.(complete := if b.complete.Some? then b.complete else Some(m), received := b.received + [m])
  }

  function SelectStep(s: Session, pick: Pick): Session {
    match pick
    case OnClientGone => if s.clientGone then GoL(s, Want) else s
    case OnDone =>
      if s.th.h.InClose? && s.th.h.close.DoneSend? then
        GoL(GoH(s, InClose(if s.th.h.close.writeErr then Cancelling(CStart, ToWait) else WaitWriter)), Want)
      else s
    case OnHandler =>
      if s.th.h.InReport? && s.th.h.rep.Post? then
        Reported(UnlockB(WithBc(s, Take(s.bc, s.th.h.rep.msg))), s.th.h.p, true)
      else s
    case OnReceiver =>
      if s.th.r.RPost? then GoR(WithBc(s, Take(s.bc, s.th.r.msg)), Recv) else s
  }

  /** The log that Completed carries: the winning message's, or the live log if there was none. */
  function FinalLog(s: Session): CrawlLog {
    if s.bc.complete.Some? then s.bc.complete.value.log else s.rc.log
  }

  function LoopStep(s: Session, pick: Pick, e: Env): Session {
    match s.th.l
    case Select => SelectStep(s, pick)
    case Want =>
      if s.bc.owner.Some? then s
      else if e.slot then GoL(LockB(s, Loop), Held)
      else GoL(s, LEnded)
    case Held =>
      if s.bc.complete.Some? then GoL(s, SendCompleted)
      else GoL(WithRc(s, LogStatus(s.rc, CANCELED_BY_BROWSER)), HeldError)
    case HeldError => GoL(WithRc(s, LogError(s.rc, CANCELED_BY_BROWSER)), SendCompleted)
    case SendCompleted => GoL(SendB(s, Completed(FinalLog(s), s.rc.cached), e.ok), CloseCompleted)
    case CloseCompleted => GoL(WithBc(s, s.bc.(stream := s.bc.stream.CloseSend())), Drain)
    case Drain => if s.bc.peer.chanClosed then GoL(s, Clear) else s
    case Clear => GoL(s, Count)
    case Count => GoL(s, CancelCtx)
    case CancelCtx => GoL(WithBc(s, s.bc.(ctxDone := true, owner := None)), LEnded)
    case LEnded => s
  }

  // ---------- the receiver of controller replies ----------

  /** A send on msgChan: the handler waiting in RegisterNewRequest takes it, or finish drains it. */
  function Offer(s: Session, next: ReceiverPc, answer: HandlerPc): Session {
    if s.th.h == InRegister(RegisterWait) then GoR(GoH(UnlockB(s), answer), next)
    else if s.th.l.Drain? then GoR(s, next)
    else s
  }

  function RecvStep(s: Session): Session {
    if s.bc.peer.inbox != [] then
      var rest := WithBc(s, s.bc.(peer := s.bc.peer.(inbox := s.bc.peer.inbox[1..])));
      if s.bc.peer.inbox[0].Abort? then
        GoR(WithHist(rest, s.hist.(aborted := true)), RCancelling(CStart))
      else GoR(rest, Deliver(s.bc.peer.inbox[0]))
    else if s.bc.peer.ended.None? then s
    else if s.bc.peer.ended.value.Orderly? then GoR(s, DeliverLast(false))
    else GoR(WithRc(s, s.rc.(rcError := true)), DeliverLast(true))
  }

  function ReceiverStep(s: Session, e: Env): Session {
    match s.th.r
    case Recv => RecvStep(s)
    case Deliver(reply) => Offer(s, Recv, if reply.Robots? then InFail(PRECLUDED_BY_ROBOTS, Fail) else InRequest(Filtering))
    case DeliverLast(cancel) =>
      Offer(s, RClose, InFail(if cancel then PRECLUDED_BY_ROBOTS else CANCELED_BY_BROWSER, Fail))
    case RCancelling(at) =>
      var (w, next) := CancelStep(s.cw, at, Receiver, e.ok);
      GoR(WithCw(s, w), if next.Some? then RCancelling(next.value) else REdit)
    case REdit => GoR(WithRc(s, LogStatus(s.rc, CANCELED_BY_BROWSER)), REditError)
    case REditError => GoR(WithRc(s, LogError(s.rc, CANCELED_BY_BROWSER)), RCopy)
    case RCopy => GoR(s, RPost(Outcome(s.rc.log, Some(CANCELED_BY_BROWSER))))
    case RPost(_) => s
    case RClose => GoR(WithBc(s, s.bc.(peer := s.bc.peer.(chanClosed := true))), REnded)
    case REnded => s
  }

  // ---------- the watcher that cancels the content writer when the client disconnects ----------

  /** One step of the watcher once the client has gone. */
  function WatchStep(w: Writer, d: DisconnectPc, ok: bool): (Writer, DisconnectPc) {
    match d
    case DWait => (w, if w.open then DLock else DWait)
    case DLock =>
      if w.gate.owner.Some? then (w, DLock)
      else if w.gate.done then (w.(gate := w.gate.(owner := Some(Disconnect))), DFree)
      else (Claim(w, Disconnect), DSend)
    case DSend => (Try(w, Cancel, ok), DClose)
    case DClose => (w.(stream := w.stream.CloseSend()), DFree)
    case DFree => (LeaveW(w), DEnded)
    case DEnded => (w, DEnded)
  }

  function DisconnectStep(s: Session, e: Env): Session {
    if !s.clientGone then s
    else
      var (w, next) := WatchStep(s.cw, s.th.d, e.ok);
      GoD(WithCw(s, w), next)
  }

  // ---------- runs ----------

  datatype Action =
    | ByHandler(e: Env)
    | ByTransport(e: Env)
    | ByLoop(pick: Pick, e: Env)
    | ByReceiver(e: Env)
    | ByDisconnect(e: Env)
    | PeerReplies(reply: Reply)
    | PeerEnds(kind: EndKind)
    | ClientLeaves

  function PeerStep(s: Session, p: Peer): Session {
    if s.bc.peer.ended.None? then WithBc(s, s.bc.(peer := p)) else s
  }

  /** One scheduling decision. A thread that is blocked, or a peer event that cannot happen, changes nothing. */
  function Step(s: Session, a: Action): Session {
    match a
    case ByHandler(e) => HandlerStep(s, e)
    case ByTransport(e) => TransportStep(s, e)
    case ByLoop(pick, e) => LoopStep(s, pick, e)
    case ByReceiver(e) => ReceiverStep(s, e)
    case ByDisconnect(e) => DisconnectStep(s, e)
    case PeerReplies(r) => PeerStep(s, s.bc.peer.(inbox := s.bc.peer.inbox + [r]))
    case PeerEnds(k) => PeerStep(s, s.bc.peer.(ended := Some(k)))
    case ClientLeaves => s.(clientGone := true)
  }

  /** The state after a schedule. Every theorem about the session quantifies over all schedules. */
  function Run(schedule: seq<Action>): Session {
    if schedule == [] then Init() else Step(Run(schedule[..|schedule| - 1]), schedule[|schedule| - 1])
  }
}
