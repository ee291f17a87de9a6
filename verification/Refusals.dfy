/** What becomes of a request, by what the controller says in the run and which call fails: whether anything is opened for
    it, and which error it ends with. */
module Refusals {
  import opened Frames
  import opened Session
  import A = Aborting
  import C = ControllerProtocol
  import E = Effects
  import Opening
  import P = Progress
  import T = SessionTheorems

  // ---------- what the controller says ----------

  /** The controller's replies in their order, and how its stream ended. */
  datatype Speech = Speech(replies: seq<Reply>, ended: Option<EndKind>)

  /** Nothing is said after the end. */
  function Say(sp: Speech, a: Action): Speech {
    if sp.ended.Some? then sp
    else
      match a
      case PeerReplies(r) => Speech(sp.replies + [r], None)
      case PeerEnds(k) => Speech(sp.replies, Some(k))
      case _ => sp
  }

  function Said(schedule: seq<Action>): Speech {
    if schedule == [] then Speech([], None)
    else Say(Said(schedule[..|schedule| - 1]), schedule[|schedule| - 1])
  }

  /** The first reply that is not a cancel of the session answers the request. */
  function Answer(replies: seq<Reply>): (answer: Option<Reply>)
    ensures answer != Some(Abort)
  {
    if replies == [] then None
    else if replies[0].Abort? then Answer(replies[1..])
    else Some(replies[0])
  }

  /** The error that a refusal is: a cancel for robots.txt, or an end of the stream without an answer. */
  function Refusal(sp: Speech): Option<int> {
    match Answer(sp.replies)
    case Some(reply) => if reply.Robots? then Some(PRECLUDED_BY_ROBOTS) else None
    case None =>
      if sp.ended == Some(Orderly) then Some(CANCELED_BY_BROWSER)
      else if sp.ended == Some(Unknown) then Some(PRECLUDED_BY_ROBOTS)
      else None
  }

  predicate Accepted(sp: Speech) {
    Answer(sp.replies) == Some(Accept)
  }

  lemma {:induction false} AnswerStays(q: seq<Reply>, more: seq<Reply>)
    ensures Answer(q).Some? ==> Answer(q + more) == Answer(q)
    ensures Answer(q).None? ==> Answer(q + more) == Answer(more)
  {
    if q == [] {
      assert q + more == more;
    } else if q[0].Abort? {
      AnswerStays(q[1..], more);
      assert (q + more)[1..] == q[1..] + more;
    }
  }

  lemma OneAnswer(r: Reply)
    ensures Answer([r]) == if r.Abort? then None else Some(r)
  {
    assert [r][1..] == [];
  }

  lemma SayKeeps(sp: Speech, a: Action)
    ensures Accepted(sp) ==> Accepted(Say(sp, a))
    ensures Refusal(sp).Some? ==> Refusal(Say(sp, a)) == Refusal(sp)
  {
    if a.PeerReplies? { AnswerStays(sp.replies, [a.reply]); }
  }

  // ---------- what fails ----------

  /** The error of the handler's call that fails in a step: of the filters and of the round trip, the surroundings'; of a
      header's send, of Meta's send and of the archive's answer, the runtime exception. */
  function FailsWith(s: Session, a: Action): Option<int> {
    if !a.ByHandler? then None
    else
      match s.th.h
      case InRequest(pc) =>
        if pc.Filtering? && !a.e.ok then Some(a.e.code)
        else if pc.ReqHeaderSend? && !(s.cw.stream.Live() && a.e.ok) then Some(RUNTIME_EXCEPTION)
        else None
      case InResponse(pc) =>
        if pc.RoundTrip? && !a.e.ok then Some(a.e.code)
        else if pc.RespHeaderSend? && !(s.cw.stream.Live() && a.e.ok) then Some(RUNTIME_EXCEPTION)
        else None
      case InMeta(pc) =>
        if pc.MetaSend? && !(s.cw.stream.Live() && a.e.ok) then Some(RUNTIME_EXCEPTION)
        else if pc.MetaClose? && !a.e.ok then Some(RUNTIME_EXCEPTION)
        else None
      case _ => None
  }

  function Fail(failed: Option<int>, s: Session, a: Action): Option<int> {
    if failed.Some? then failed else FailsWith(s, a)
  }

  /** The first failure in a run. */
  function Failure(schedule: seq<Action>): Option<int> {
    if schedule == [] then None
    else
      var before := schedule[..|schedule| - 1];
      Fail(Failure(before), Run(before), schedule[|schedule| - 1])
  }

  /** What a run has had so far. */
  datatype Course = Course(speech: Speech, failed: Option<int>)

  function CourseOf(schedule: seq<Action>): Course {
    Course(Said(schedule), Failure(schedule))
  }

  function On(c: Course, s: Session, a: Action): Course {
    Course(Say(c.speech, a), Fail(c.failed, s, a))
  }

  // ---------- what the session makes of it ----------

  /** The replies that the receiver has read. */
  function Read(s: Session, sp: Speech): seq<Reply>
    requires |s.bc.peer.inbox| <= |sp.replies|
  {
    sp.replies[..|sp.replies| - |s.bc.peer.inbox|]
  }

  predicate Queued(s: Session, sp: Speech) {
    && s.bc.peer.ended == sp.ended && |s.bc.peer.inbox| <= |sp.replies|
    && Read(s, sp) + s.bc.peer.inbox == sp.replies
  }

  /** While the request has no answer, the receiver has read none, or has it in hand. */
  predicate Unanswered(s: Session, sp: Speech)
    requires Queued(s, sp)
  {
    match s.th.r
    case Deliver(reply) => Answer(Read(s, sp)) == Some(reply)
    case DeliverLast(cancel) => Answer(sp.replies).None? && sp.ended == Some(if cancel then Unknown else Orderly)
    case RClose => false
    case REnded => false
    case _ => Answer(Read(s, sp)).None?
  }

  /** A failure that is not handed over: an outcome has come first, or finish has closed the stream. */
  predicate Mute(s: Session) {
    s.th.h.InFail? && (s.bc.stream.closed || (s.bc.complete.Some? && s.th.h.fail.Fail?))
  }

  /** The error is the refusal's, or that of the call that failed. */
  predicate Says(c: Course, code: int) {
    Refusal(c.speech) == Some(code) || c.failed == Some(code)
  }

  predicate Answered(s: Session, c: Course) {
    match s.th.h
    case InRegister(_) => c.failed.None?
    case InFail(code, _) => Says(c, code) || Mute(s)
    case InReport(p, _) =>
      match p {
        case ForSave => c.failed.None? && Accepted(c.speech)
        case ForResponseError(code) => c.failed == Some(code) && Accepted(c.speech)
        case ForRequestError(code) => Says(c, code)
      }
    case InClose(_) => true
    case _ => c.failed.None? && Accepted(c.speech)
  }

  /** A message is a success, the controller's cancel, or such an error. */
  predicate Caused(m: Outcome, c: Course, aborted: bool) {
    m.err.Some? ==> (aborted && m.err == Some(CANCELED_BY_BROWSER)) || Says(c, m.err.value)
  }

  predicate AllCaused(received: seq<Outcome>, c: Course, aborted: bool) {
    forall i :: 0 <= i < |received| ==> Caused(received[i], c, aborted)
  }

  predicate NoSuccess(received: seq<Outcome>) {
    forall i :: 0 <= i < |received| ==> received[i].err.Some?
  }

  predicate Heard(s: Session, c: Course) {
    && Queued(s, c.speech)
    && (s.th.h.InRegister? ==> s.bc.stream.closed || Unanswered(s, c.speech))
    && Answered(s, c)
    && (s.th.h.InReport? && s.th.h.rep.Post? ==>
          s.th.h.rep.msg.err == if s.th.h.p.ForSave? then None else Some(s.th.h.p.code))
    && (s.th.r.RPost? ==> s.th.r.msg.err == Some(CANCELED_BY_BROWSER))
    && (s.th.r.Aborting() ==> s.hist.aborted)
    && AllCaused(s.bc.received, c, s.hist.aborted)
    && (NoSuccess(s.bc.received) || (s.th.h.InClose? && c.failed.None?))
    && (s.cw.open || c.failed.Some? ==> Accepted(c.speech))
    && (s.hist.header.Posted? ==> Says(c, s.hist.header.code))
    && (s.bc.stream.closed ==> s.th.l.Drain? || s.bc.peer.chanClosed)
    && (s.rc.rcError <==>
          c.speech.ended == Some(Unknown) && (s.th.r.DeliverLast? || s.th.r.RClose? || s.th.r.REnded?))
  }

  ghost predicate Sound(s: Session) {
    C.Inv(s) && P.Tidy(s)
  }

  // ---------- every step keeps it ----------

  /** A step of somebody else than receiver and peer, in which the handler does not move. */
  lemma Unmoved(s: Session, t: Session, c: Course)
    requires Heard(s, c) && t.th.h == s.th.h && t.th.r == s.th.r && t.bc.peer == s.bc.peer
    requires t.cw.open == s.cw.open && t.rc.rcError == s.rc.rcError && t.hist.header == s.hist.header
    requires t.hist.aborted == s.hist.aborted && t.bc.received == s.bc.received
    requires (s.bc.stream.closed ==> t.bc.stream.closed) && (s.bc.complete.Some? ==> t.bc.complete.Some?)
    requires t.bc.stream.closed ==> t.th.l.Drain? || t.bc.peer.chanClosed
    ensures Heard(t, c)
  {
    hide Says, Accepted, Answer;
  }

  lemma HandlerHears(s: Session, e: Env, c: Course)
    requires Heard(s, c) && Sound(s)
    ensures Heard(HandlerStep(s, e), On(c, s, Action.ByHandler(e)))
  {
    hide C.Inv, P.Tidy, RegisterStep, RequestStep, ResponseStep, BodyStep, MetaStep, ReportStep, FailStep, CloseStep,
         Answer, Heard;
    match s.th.h
    case InRegister(pc) => RegisterHears(s, pc, e, c);
    case InRequest(pc) => RequestHears(s, pc, e, c);
    case InResponse(pc) => ResponseHears(s, pc, e, c);
    case InBody(pc) => BodyHears(s, pc, e, c);
    case InMeta(pc) => MetaHears(s, pc, e, c);
    case InReport(p, pc) => ReportHears(s, p, pc, e, c);
    case InFail(code, pc) => FailHears(s, code, pc, e, c);
    case InClose(pc) => CloseHears(s, pc, e, c);
  }

  lemma RegisterHears(s: Session, pc: RegisterPc, e: Env, c: Course)
    requires Heard(s, c) && Sound(s) && s.th.h == InRegister(pc)
    ensures Heard(RegisterStep(s, pc, e), On(c, s, Action.ByHandler(e)))
  {
    hide C.Inv, Says, Accepted, Answer;
  }

  lemma RequestHears(s: Session, pc: RequestPc, e: Env, c: Course)
    requires Heard(s, c) && s.th.h == InRequest(pc)
    ensures Heard(RequestStep(s, pc, e), On(c, s, Action.ByHandler(e)))
  {
    hide Accepted, Answer, Refusal;
  }

  lemma ResponseHears(s: Session, pc: ResponsePc, e: Env, c: Course)
    requires Heard(s, c) && s.th.h == InResponse(pc)
    ensures Heard(ResponseStep(s, pc, e), On(c, s, Action.ByHandler(e)))
  {
    hide Accepted, Answer, Refusal;
  }

  lemma BodyHears(s: Session, pc: BodyPc, e: Env, c: Course)
    requires Heard(s, c) && s.th.h == InBody(pc)
    ensures Heard(BodyStep(s, pc, e), On(c, s, Action.ByHandler(e)))
  {
    hide BodyStep, Accepted, Answer, Refusal;
    BodyLeaves(s, pc, e);
  }

  lemma BodyLeaves(s: Session, pc: BodyPc, e: Env)
    requires s.th.h == InBody(pc)
    ensures BodyMoves(s, BodyStep(s, pc, e))
  {
    hide AfterChunk, BodyMoves;
    if pc.Reading? {
      AfterChunkMoves(s, e.res);
      BodyMovesOnly(s, pc, e);
    } else if pc.Forward? || pc.ForwardSend? {
      var sent := SendW(s, Payload(RESPONSE, pc.chunk.data), e.ok);
      AfterChunkMoves(LoseResp(s), pc.chunk.res);
      AfterChunkMoves(if s.cw.stream.Live() && e.ok then sent else LoseResp(sent), pc.chunk.res);
      ForwardMoves(s, pc, e);
    } else {
      NotifyMoves(s, pc, e);
    }
  }

  predicate BodyMoves(s: Session, t: Session) {
    && t.th == s.th.(h := t.th.h) && t.bc == s.bc.(owner := t.bc.owner, stream := t.bc.stream)
    && t.bc.stream.closed == s.bc.stream.closed && t.cw.open == s.cw.open && t.rc.rcError == s.rc.rcError
    && t.hist == s.hist.(lostResp := t.hist.lostResp)
    && (t.th.h.InBody? || t.th.h.InMeta? || t.th.h.InClose? || t.th.h == InReport(ForSave, Report))
  }

  lemma AfterChunkMoves(u: Session, res: ReadResult)
    ensures BodyMoves(u, AfterChunk(u, res))
  {
  }

  lemma BodyMovesOnly(s: Session, pc: BodyPc, e: Env)
    requires s.th.h == InBody(pc) && pc.Reading? && BodyMoves(s, AfterChunk(s, e.res))
    ensures BodyMoves(s, BodyStep(s, pc, e))
  {
    hide AfterChunk;
  }

  lemma ForwardMoves(s: Session, pc: BodyPc, e: Env)
    requires s.th.h == InBody(pc) && (pc.Forward? || pc.ForwardSend?)
    requires var sent := SendW(s, Payload(RESPONSE, pc.chunk.data), e.ok);
             var u := if s.cw.stream.Live() && e.ok then sent else LoseResp(sent);
             BodyMoves(LoseResp(s), AfterChunk(LoseResp(s), pc.chunk.res)) && BodyMoves(u, AfterChunk(u, pc.chunk.res))
    ensures BodyMoves(s, BodyStep(s, pc, e))
  {
    hide AfterChunk;
  }

  lemma NotifyMoves(s: Session, pc: BodyPc, e: Env)
    requires s.th.h == InBody(pc) && (pc.Notify? || pc.NotifySend?)
    ensures BodyMoves(s, BodyStep(s, pc, e))
  {
    hide Stream.Send;
    SendKeepsClosed(s.bc.stream, e.ok);
  }

  lemma SendKeepsClosed(st: Stream<ControllerFrame>, ok: bool)
    ensures forall f :: st.Send(f, ok).closed == st.closed
  {
  }

  lemma MetaHears(s: Session, pc: MetaPc, e: Env, c: Course)
    requires Heard(s, c) && s.th.h == InMeta(pc)
    ensures Heard(MetaStep(s, pc, e), On(c, s, Action.ByHandler(e)))
  {
    hide Accepted, Answer, Refusal;
  }

  lemma ReportHears(s: Session, p: Purpose, pc: ReportPc, e: Env, c: Course)
    requires Heard(s, c) && s.th.h == InReport(p, pc)
    ensures Heard(ReportStep(s, p, pc, e), On(c, s, Action.ByHandler(e)))
  {
    hide Accepted, Answer, Refusal;
  }

  lemma FailHears(s: Session, code: int, pc: FailPc, e: Env, c: Course)
    requires Heard(s, c) && s.th.h == InFail(code, pc)
    ensures Heard(FailStep(s, code, pc, e), On(c, s, Action.ByHandler(e)))
  {
    hide Heard, FailStep, On;
    if pc.FailNotifySend? { AnnouncesFailure(s, code, pc, e, c); } else { AsksFirst(s, code, pc, e, c); }
  }

  lemma AsksFirst(s: Session, code: int, pc: FailPc, e: Env, c: Course)
    requires Heard(s, c) && s.th.h == InFail(code, pc) && !pc.FailNotifySend?
    ensures Heard(FailStep(s, code, pc, e), On(c, s, Action.ByHandler(e)))
  {
    hide Accepted, Answer, Refusal, AllCaused, NoSuccess, Says;
  }

  lemma AnnouncesFailure(s: Session, code: int, pc: FailPc, e: Env, c: Course)
    requires Heard(s, c) && s.th.h == InFail(code, pc) && pc.FailNotifySend?
    ensures Heard(FailStep(s, code, pc, e), On(c, s, Action.ByHandler(e)))
  {
    hide Accepted, Answer, Refusal, AllCaused, NoSuccess;
  }

  lemma CloseHears(s: Session, pc: ClosePc, e: Env, c: Course)
    requires Heard(s, c) && s.th.h == InClose(pc)
    ensures Heard(CloseStep(s, pc, e), On(c, s, Action.ByHandler(e)))
  {
    hide Accepted, Answer, Refusal;
  }

  lemma LoopHears(s: Session, pick: Pick, e: Env, c: Course)
    requires Heard(s, c)
    ensures Heard(LoopStep(s, pick, e), c)
  {
    hide SelectStep, Heard;
    if s.th.l.Select? {
      SelectHears(s, pick, c);
    } else {
      StillHolds(s, c);
      FinishOpensNot(s, pick, e);
      Unmoved(s, LoopStep(s, pick, e), c);
    }
  }

  lemma FinishOpensNot(s: Session, pick: Pick, e: Env)
    requires !s.th.l.Select? && (s.bc.stream.closed ==> s.th.l.Drain? || s.bc.peer.chanClosed)
    ensures var t := LoopStep(s, pick, e);
            && t.th.h == s.th.h && t.th.r == s.th.r && t.bc.peer == s.bc.peer && t.cw == s.cw
            && t.rc.rcError == s.rc.rcError && t.hist == s.hist && t.bc.complete == s.bc.complete
            && (s.bc.stream.closed ==> t.bc.stream.closed)
            && (t.bc.stream.closed ==> t.th.l.Drain? || t.bc.peer.chanClosed)
  {
    hide SelectStep;
  }

  lemma SelectHears(s: Session, pick: Pick, c: Course)
    requires Heard(s, c) && s.th.l.Select?
    ensures Heard(SelectStep(s, pick), c)
  {
    hide Heard, Take;
    if pick.OnHandler? && s.th.h.InReport? && s.th.h.rep.Post? {
      TakesHandlers(s, c);
    } else if pick.OnReceiver? && s.th.r.RPost? {
      TakesReceivers(s, c);
    } else {
      TakesNothing(s, pick, c);
    }
  }

  lemma TakesHandlers(s: Session, c: Course)
    requires Heard(s, c) && s.th.l.Select? && s.th.h.InReport? && s.th.h.rep.Post?
    ensures Heard(SelectStep(s, OnHandler), c)
  {
    hide Accepted, Answer, Refusal;
  }

  lemma TakesReceivers(s: Session, c: Course)
    requires Heard(s, c) && s.th.l.Select? && s.th.r.RPost?
    ensures Heard(SelectStep(s, OnReceiver), c)
  {
    hide Accepted, Answer, Refusal, Reported;
  }

  lemma TakesNothing(s: Session, pick: Pick, c: Course)
    requires Heard(s, c) && s.th.l.Select? && !(pick.OnHandler? && s.th.h.InReport? && s.th.h.rep.Post?)
    requires !(pick.OnReceiver? && s.th.r.RPost?)
    ensures Heard(SelectStep(s, pick), c)
  {
    hide Accepted, Answer, Refusal, Reported, Says;
  }

  lemma ReceiverHears(s: Session, e: Env, c: Course)
    requires Heard(s, c) && Sound(s)
    ensures Heard(ReceiverStep(s, e), c)
  {
    hide C.Inv, Answer, RecvStep, CancelStep, Offer, Heard;
    match s.th.r
    case Recv => ReadOn(s, c);
    case Deliver(reply) => Delivers(s, e, c);
    case DeliverLast(cancel) => Delivers(s, e, c);
    case _ => Acts(s, e, c);
  }

  lemma ReadOn(s: Session, c: Course)
    requires Heard(s, c) && s.th.r.Recv?
    ensures Heard(RecvStep(s), c)
  {
    hide Heard;
    if s.bc.peer.inbox != [] { ReadNext(s, c); } else { ReadEnd(s, c); }
  }

  lemma ReadNext(s: Session, c: Course)
    requires Heard(s, c) && s.th.r.Recv? && s.bc.peer.inbox != []
    ensures Heard(RecvStep(s), c)
  {
    hide Says, Accepted, Refusal, Answer, Answered, AllCaused, NoSuccess, Mute;
    var q, t := s.bc.peer.inbox, RecvStep(s);
    assert Read(t, c.speech) == Read(s, c.speech) + [q[0]] by { assert q == [q[0]] + q[1..]; }
    AnswerStays(Read(s, c.speech), [q[0]]);
    OneAnswer(q[0]);
    SameHandler(s, t, c);
  }

  lemma ReadEnd(s: Session, c: Course)
    requires Heard(s, c) && s.th.r.Recv? && s.bc.peer.inbox == []
    ensures Heard(RecvStep(s), c)
  {
    hide Says, Accepted, Refusal, Answer, Answered, AllCaused, NoSuccess, Mute;
    assert Read(s, c.speech) == c.speech.replies;
    SameHandler(s, RecvStep(s), c);
  }

  lemma SameHandler(s: Session, t: Session, c: Course)
    requires AllCaused(s.bc.received, c, s.hist.aborted) && Answered(s, c)
    requires t.bc == s.bc.(peer := t.bc.peer) && t.th.h == s.th.h && (s.hist.aborted ==> t.hist.aborted)
    ensures AllCaused(t.bc.received, c, t.hist.aborted) && Answered(t, c)
  {
    hide Says, Accepted;
  }

  lemma Delivers(s: Session, e: Env, c: Course)
    requires Heard(s, c) && Sound(s) && (s.th.r.Deliver? || s.th.r.DeliverLast?)
    ensures Heard(ReceiverStep(s, e), c)
  {
    hide C.Inv, Answer, RecvStep, CancelStep;
    if s.th.l.Holds() { A.LoopOwns(s); }
    if s.th.l.Drain? { DrainIsClosed(s); }
    AnswerStays(Read(s, c.speech), s.bc.peer.inbox);
  }

  lemma DrainIsClosed(s: Session)
    requires C.Inv(s) && s.th.l.Drain?
    ensures s.bc.stream.closed
  {
    hide C.Scan, C.Fits;
  }

  lemma Acts(s: Session, e: Env, c: Course)
    requires Heard(s, c) && !s.th.r.Recv? && !s.th.r.Deliver? && !s.th.r.DeliverLast?
    ensures Heard(ReceiverStep(s, e), c)
  {
    hide Says, Accepted, Refusal, Answer, ReceiverStep, AllCaused;
    ActsAlone(s, e);
  }

  lemma ActsAlone(s: Session, e: Env)
    requires !s.th.r.Recv? && !s.th.r.Deliver? && !s.th.r.DeliverLast?
    ensures var t := ReceiverStep(s, e);
            && t.th == s.th.(r := t.th.r) && t.hist == s.hist && t.cw.open == s.cw.open && t.rc.rcError == s.rc.rcError
            && t.bc == s.bc.(peer := s.bc.peer.(chanClosed := t.bc.peer.chanClosed))
            && (s.bc.peer.chanClosed ==> t.bc.peer.chanClosed)
            && (if s.th.r.Aborting() then t.th.r.Aborting() else t.th.r.REnded?)
            && (t.th.r.RPost? ==> t.th.r == s.th.r || t.th.r.msg.err == Some(CANCELED_BY_BROWSER))
  {
    hide RecvStep, CancelStep, Offer;
    if s.th.r.RCancelling? { CancelOpensNot(s.cw, s.th.r.at, e.ok); }
  }

  lemma CancelOpensNot(w: Writer, at: CancelPc, ok: bool)
    ensures CancelStep(w, at, Receiver, ok).0.open == w.open
  {
  }

  lemma PeerHears(s: Session, a: Action, c: Course)
    requires Heard(s, c) && P.Tidy(s) && (a.PeerReplies? || a.PeerEnds?)
    ensures Heard(Step(s, a), On(c, s, a))
  {
    hide Answer;
    SayKeeps(c.speech, a);
    if s.bc.peer.ended.None? && a.PeerReplies? {
      var t, next := Step(s, a), Say(c.speech, a);
      assert Read(t, next) == Read(s, c.speech);
      assert c.speech.replies + [a.reply] == Read(s, c.speech) + (s.bc.peer.inbox + [a.reply]);
    }
  }

  lemma OthersHear(s: Session, a: Action, c: Course)
    requires Heard(s, c) && (a.ByTransport? || a.ByDisconnect? || a.ClientLeaves?)
    ensures Heard(Step(s, a), c)
  {
    hide TransportStep, WatchStep, Heard;
    if a.ByTransport? { E.TransportMeans(s, a.e); TransportOpensNot(s, a.e); }
    if a.ByDisconnect? { WatchOpensNot(s.cw, s.th.d, a.e.ok); }
    StillHolds(s, c);
    Unmoved(s, Step(s, a), c);
  }

  lemma StillHolds(s: Session, c: Course)
    requires Heard(s, c)
    ensures s.bc.stream.closed ==> s.th.l.Drain? || s.bc.peer.chanClosed
  {
  }

  lemma TransportOpensNot(s: Session, e: Env)
    ensures var t := TransportStep(s, e); t.cw.open == s.cw.open && t.rc.rcError == s.rc.rcError
  {
  }

  lemma WatchOpensNot(w: Writer, d: DisconnectPc, ok: bool)
    ensures WatchStep(w, d, ok).0.open == w.open
  {
  }

  lemma Hears(s: Session, a: Action, c: Course)
    requires Heard(s, c) && Sound(s)
    ensures Heard(Step(s, a), On(c, s, a))
  {
    hide Sound, Heard, HandlerStep, LoopStep, ReceiverStep, TransportStep, DisconnectStep, PeerStep, Answer;
    match a
    case ByHandler(e) => HandlerHears(s, e, c);
    case ByLoop(pick, e) => LoopHears(s, pick, e, c);
    case ByReceiver(e) => ReceiverHears(s, e, c);
    case PeerReplies(_) => assert P.Tidy(s) by { SoundMeans(s); } PeerHears(s, a, c);
    case PeerEnds(_) => assert P.Tidy(s) by { SoundMeans(s); } PeerHears(s, a, c);
    case _ => OthersHear(s, a, c);
  }

  lemma SoundMeans(s: Session)
    requires Sound(s)
    ensures P.Tidy(s)
  {
    hide C.Inv, P.Tidy;
  }

  lemma {:induction false} Always(schedule: seq<Action>)
    ensures Heard(Run(schedule), CourseOf(schedule))
  {
    hide Step, Say, Fail, C.Inv, P.Tidy, Heard;
    if schedule == [] {
      Silent();
    } else {
      var before := schedule[..|schedule| - 1];
      Always(before);
      C.Always(before);
      P.TidyAlways(before);
      Hears(Run(before), schedule[|schedule| - 1], CourseOf(before));
    }
  }

  lemma Silent()
    ensures Heard(Init(), Course(Speech([], None), None))
  {
  }

  lemma {:induction false} SaidMore(schedule: seq<Action>, more: seq<Action>)
    ensures Accepted(Said(schedule)) ==> Accepted(Said(schedule + more))
    ensures Refusal(Said(schedule)).Some? ==> Refusal(Said(schedule + more)) == Refusal(Said(schedule))
    decreases |more|
  {
    hide Say, Refusal, Accepted;
    if more == [] {
      assert schedule + more == schedule;
    } else {
      var init, a := more[..|more| - 1], more[|more| - 1];
      SaidMore(schedule, init);
      assert (schedule + more)[..|schedule + more| - 1] == schedule + init;
      SayKeeps(Said(schedule + init), a);
    }
  }

  // ---------- refusals ----------

  /** The controller refuses the request: with a cancel for robots.txt before it answers otherwise, or by ending its
      stream without an answer. Then, in every continuation, nothing is opened for it and nothing sent to the content
      writer; an error that the client is told, when it is handed over, is the one for that refusal; and unless the
      controller cancels the session too, it is the outcome and what Completed carries. */
  lemma Refused(schedule: seq<Action>, more: seq<Action>)
    requires Refusal(Said(schedule)).Some?
    ensures var t, code := Run(schedule + more), Refusal(Said(schedule)).value;
            && t.cw == Init().cw
            && (t.hist.header.Posted? ==>
                  && t.hist.header.code == code
                  && (!t.hist.aborted ==>
                        && t.bc.complete.Some? && t.bc.complete.value.err == Some(code)
                        && forall cl, c :: Completed(cl, c) in t.bc.stream.wire ==> cl.status == code && cl.error == code))
  {
    hide Run, Failure;
    var all := schedule + more;
    Always(all);
    SaidMore(schedule, more);
    Opening.Always(all);
    T.ClientIsTold(all);
  }

  /** The content writer is opened only for a request that the controller has accepted, and the response is passed by
      unrecorded only after the controller's stream has ended in an unknown way. */
  lemma OpenedIfAccepted(schedule: seq<Action>)
    ensures Run(schedule).cw.open ==> Accepted(Said(schedule))
    ensures Run(schedule).rc.rcError ==> Said(schedule).ended == Some(Unknown)
  {
    hide Run;
    Always(schedule);
  }

  /** Every error has its cause in the run. An outcome's is the controller's cancel, the refusal of the request, or the
      first of the handler's calls to fail; and so is the error that the client is told, when it is handed over, but
      for the first. A session in which a call has failed is not reported as a success. */
  lemma ErrorHasCause(schedule: seq<Action>)
    ensures var s := Run(schedule);
            && (s.bc.complete.Some? && s.bc.complete.value.err.Some? ==>
                  || (s.hist.aborted && s.bc.complete.value.err == Some(CANCELED_BY_BROWSER))
                  || s.bc.complete.value.err == Refusal(Said(schedule))
                  || s.bc.complete.value.err == Failure(schedule))
            && (s.hist.header.Posted? ==>
                  Some(s.hist.header.code) == Refusal(Said(schedule)) || Some(s.hist.header.code) == Failure(schedule))
            && (Failure(schedule).Some? && s.bc.complete.Some? ==> s.bc.complete.value.err.Some?)
  {
    hide Run, Failure;
    Always(schedule);
    T.FirstOutcomeWins(schedule, []);
    assert schedule + [] == schedule;
  }
}
