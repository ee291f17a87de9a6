/** finish from the moment the loop takes its last branch: it still has to wait for `b.m`, which the
    handler may hold, or may take first. The exact condition under which it completes. */
module Finish {
  import opened Frames
  import opened Session
  import E = Effects
  import C = ControllerProtocol
  import W = WriterProtocol
  import Growth
  import P = Progress

  // ---------- whether the handler can still come to report an outcome ----------

  /** The handler holds `b.m` on its way to hand an outcome to a loop that no longer listens. */
  predicate PastReport(h: HandlerPc) {
    h.InReport? && !h.rep.Report?
  }

  /** The next reply that RegisterNewRequest will get accepts the request. */
  predicate NextAccepts(s: Session) {
    (s.th.r.Deliver? && !s.th.r.reply.Robots?) || (s.th.r.Recv? && s.bc.peer.inbox != [] && s.bc.peer.inbox[0].Accept?)
  }

  /** The request's header can be dealt with and the response taken. */
  predicate CanRespond(s: Session) {
    !s.rc.rcError && (s.cw.canceled || s.cw.stream.Live())
  }

  /** SendMeta is neither skipped nor too late. */
  predicate CanArchive(s: Session) {
    !s.cw.canceled && !s.cw.gate.done
  }

  /** Some continuation brings the handler past Report while the loop waits for `b.m`. Once there is an
      outcome, or the response is being closed, there is none; the other cases follow the calls that the
      handler still has to make, and say which flags keep it from coming to a report. */
  predicate MayReport(s: Session) {
    PastReport(s.th.h) || (s.bc.complete.None? && WayToReport(s))
  }

  predicate WayToReport(s: Session) {
    var live := s.bc.stream.Live();
    match s.th.h
    case InRegister(_) => live || (NextAccepts(s) && CanRespond(s))
    case InRequest(pc) => live || (CanRespond(s) && (pc.ReqHeaderSend? ==> s.cw.stream.Live()))
    case InResponse(pc) =>
      if pc.RoundTrip? then live || !s.rc.rcError
      else if pc.RespHeader? then !s.cw.canceled && (live || (s.cw.stream.Live() && CanArchive(s)))
      else live || (s.cw.stream.Live() && CanArchive(s))
    case InBody(_) => s.rc.cached || CanArchive(s)
    case InMeta(pc) =>
      if pc.MetaSend? || pc.MetaClose? then true
      else if pc.MetaLock? then !s.cw.gate.done
      else CanArchive(s)
    case InReport(_, _) => true
    case InFail(_, _) => live
    case InClose(_) => false
  }

  // ---------- without a way to report there never will be one ----------

  /** The handler holds `b.m` for a registration, or will take it for one. */
  predicate Registering(s: Session) {
    s.th.h.InRegister? && (s.th.h.reg.Register? ==> s.bc.complete.None?)
  }

  /** A registration that may wait for ever: its reply is not on its way, and the peer, which may itself be
      waiting for finish to close the stream, has not ended its own. */
  predicate Unanswered(s: Session) {
    Registering(s) && s.bc.peer.ended.None? && !s.th.r.Deliver? && s.bc.peer.inbox == []
  }

  /** The loop waits for `b.m`, and no cancel of the controller is left. */
  ghost predicate Waiting(s: Session) {
    C.Inv(s) && P.Tidy(s) && s.th.l.Want? && !P.Doomed(s)
  }

  /** What no step undoes. */
  predicate Worse(s: Session, t: Session) {
    && (t.bc.stream.Live() ==> s.bc.stream.Live()) && (t.cw.stream.Live() ==> s.cw.stream.Live())
    && (s.cw.canceled ==> t.cw.canceled) && (s.cw.gate.done ==> t.cw.gate.done) && (s.rc.rcError ==> t.rc.rcError)
    && t.bc.complete == s.bc.complete
  }

  lemma SameHandler(s: Session, t: Session)
    requires !MayReport(s) && Worse(s, t) && t.th.h == s.th.h && t.rc.cached == s.rc.cached
    requires t.cw.canceled == s.cw.canceled || !(s.th.h.InRegister? || s.th.h.InRequest?)
    requires s.th.h.InRegister? ==> (NextAccepts(t) ==> NextAccepts(s))
    ensures !MayReport(t)
  {
  }

  /** While the loop waits, a handler that has no way to a report does not find one. */
  lemma HandlerStaysAway(s: Session, e: Env)
    requires Waiting(s) && !MayReport(s)
    ensures !MayReport(HandlerStep(s, e))
  {
    hide C.Inv, P.Tidy, RegisterStep, RequestStep, ResponseStep, BodyStep, MetaStep, ReportStep, FailStep, CloseStep;
    match s.th.h
    case InRegister(pc) => AwayRegister(s, pc, e);
    case InRequest(pc) => AwayRequest(s, pc, e);
    case InResponse(pc) => Uncached(s); AwayResponse(s, pc, e);
    case InBody(pc) => AwayBody(s, pc, e);
    case InMeta(pc) => AwayMeta(s, pc, e);
    case InReport(p, pc) => AwayReport(s, p, pc, e);
    case InFail(code, pc) => AwayFail(s, code, pc, e);
    case InClose(pc) => AwayClose(s, pc, e);
  }

  lemma Uncached(s: Session)
    requires C.Inv(s) && s.th.h.InResponse?
    ensures !s.rc.cached
  {
    hide C.Scan;
  }

  lemma AwayRegister(s: Session, pc: RegisterPc, e: Env)
    requires !MayReport(s) && s.th.h == InRegister(pc) && P.Tidy(s)
    ensures !MayReport(RegisterStep(s, pc, e))
  {
  }

  lemma AwayRequest(s: Session, pc: RequestPc, e: Env)
    requires !MayReport(s) && s.th.h == InRequest(pc)
    ensures !MayReport(RequestStep(s, pc, e))
  {
  }

  lemma AwayResponse(s: Session, pc: ResponsePc, e: Env)
    requires !MayReport(s) && s.th.h == InResponse(pc) && !s.rc.cached
    ensures !MayReport(ResponseStep(s, pc, e))
  {
  }

  lemma AwayBody(s: Session, pc: BodyPc, e: Env)
    requires !MayReport(s) && s.th.h == InBody(pc)
    ensures !MayReport(BodyStep(s, pc, e))
  {
  }

  lemma AwayMeta(s: Session, pc: MetaPc, e: Env)
    requires !MayReport(s) && s.th.h == InMeta(pc)
    ensures !MayReport(MetaStep(s, pc, e))
  {
  }

  lemma AwayReport(s: Session, p: Purpose, pc: ReportPc, e: Env)
    requires !MayReport(s) && s.th.h == InReport(p, pc)
    ensures !MayReport(ReportStep(s, p, pc, e))
  {
  }

  lemma AwayFail(s: Session, code: int, pc: FailPc, e: Env)
    requires !MayReport(s) && s.th.h == InFail(code, pc)
    ensures !MayReport(FailStep(s, code, pc, e))
  {
  }

  lemma AwayClose(s: Session, pc: ClosePc, e: Env)
    requires !MayReport(s) && s.th.h == InClose(pc)
    ensures !MayReport(CloseStep(s, pc, e))
  {
    hide CancelStep;
  }

  // ---------- who moves next ----------

  datatype Mover = LoopMoves | ReceiverMoves | HandlerMoves | PeerMoves

  /** The thread whose turn brings finish closer to its end. */
  function MoverOf(s: Session): Mover {
    if s.th.l.Want? then
      if s.bc.owner.None? then LoopMoves
      else if s.th.h == InRegister(RegisterWait) && !s.bc.peer.chanClosed then ReceiverMoves
      else HandlerMoves
    else if P.LoopFree(s) then LoopMoves
    else if P.Idle(s) then PeerMoves
    else ReceiverMoves
  }

  predicate IsTurn(m: Mover, a: Action) {
    match m
    case LoopMoves => a.ByLoop?
    case ReceiverMoves => a.ByReceiver?
    case HandlerMoves => a.ByHandler?
    case PeerMoves => a.PeerEnds?
  }

  /** Steps until the handler releases `b.m`. */
  function Holding(h: HandlerPc): nat {
    if h == InRegister(RegisterSend) then 2 else if h.HoldsController() then 1 else 0
  }

  /** Turns left: those of finish and the receiver, and those of a handler that finish has to wait for. */
  function TurnsLeft(s: Session): nat {
    P.Left(s) + if s.th.l.Want? then Holding(s.th.h) else 0
  }

  /** The handler takes `b.m` although finish is waiting for it. */
  predicate Overtakes(s: Session, a: Action) {
    a.ByHandler? && s.th.l.Want? && s.bc.owner.None? && Step(s, a).bc.owner.Some?
  }

  /** What may lengthen the way of finish to its end. */
  predicate Disturbs(s: Session, a: Action) {
    Overtakes(s, a) || P.Disturbing(s, a)
  }

  /** finish has `b.m` or waits for it, and nothing will keep it from its end. */
  ghost predicate OnCourse(s: Session) {
    (Waiting(s) && !MayReport(s) && !Unanswered(s) && !s.bc.ctxDone) || P.Finishing(s)
  }

  ghost predicate Progresses(s: Session, a: Action, t: Session) {
    && OnCourse(t) && (s.bc.ctxDone ==> t.bc.ctxDone)
    && TurnsLeft(t) <= TurnsLeft(s) + (if Disturbs(s, a) then 2 else 0)
    && (!Disturbs(s, a) && TurnsLeft(t) == TurnsLeft(s) && !s.bc.ctxDone ==>
          !t.bc.ctxDone && MoverOf(t) == MoverOf(s) && !IsTurn(MoverOf(s), a))
  }

  lemma NotDoomedThen(s: Session, t: Session)
    requires !P.Doomed(s) && t.th.r == s.th.r && t.bc.peer == s.bc.peer
    ensures !P.Doomed(t)
  {
  }

  lemma HandlerHolds(s: Session, e: Env)
    requires s.th.l.Want? && C.Inv(s) && !PastReport(s.th.h) && P.Tidy(s)
    ensures var t := HandlerStep(s, e);
            && (s.bc.owner.Some? ==>
                  && Holding(t.th.h) <= Holding(s.th.h)
                  && (s.th.h != InRegister(RegisterWait) || s.bc.peer.chanClosed ==> Holding(t.th.h) < Holding(s.th.h))
                  && (Holding(t.th.h) == Holding(s.th.h) ==> t == s))
            && (s.bc.owner.None? ==> Holding(s.th.h) == 0 && Holding(t.th.h) <= 2)
            && (Holding(t.th.h) == 0 <==> t.bc.owner.None?)
  {
    hide P.Tidy, RegisterStep, RequestStep, ResponseStep, BodyStep, MetaStep, ReportStep, FailStep, CloseStep, C.Inv;
    LockMeans(s);
    C.KeptByHandler(s, e);
    Growth.ByHandler(s, e);
    LockMeans(HandlerStep(s, e));
    if s.bc.owner.Some? { Releases(s, e); }
  }

  lemma LockMeans(s: Session)
    requires C.Inv(s) && s.th.l.Want?
    ensures Holding(s.th.h) == 0 <==> s.bc.owner.None?
    ensures s.bc.owner == Some(Handler) <==> s.th.h.HoldsController()
    ensures s.bc.owner.Some? ==> s.bc.owner == Some(Handler)
  {
    hide C.Scan;
    match s.bc.owner
    case None =>
    case Some(me) => assert me.Handler? || me.Loop? || me.Receiver? || me.Disconnect?;
  }

  /** The points at which the handler holds `b.m`, apart from a report. */
  lemma Releases(s: Session, e: Env)
    requires s.th.h.HoldsController() && !PastReport(s.th.h)
    ensures var t := HandlerStep(s, e);
            && (s.th.h == InRegister(RegisterSend) ==> t.th.h == InRegister(RegisterWait))
            && (s.th.h == InRegister(RegisterWait) && !s.bc.peer.chanClosed ==> t == s)
            && (s.th.h != InRegister(RegisterSend) && (s.th.h != InRegister(RegisterWait) || s.bc.peer.chanClosed) ==>
                  !t.th.h.HoldsController())
  {
  }

  lemma WaitingHandler(s: Session, e: Env)
    requires Waiting(s) && !MayReport(s) && !Unanswered(s) && !s.bc.ctxDone
    ensures Progresses(s, Action.ByHandler(e), HandlerStep(s, e))
  {
    hide C.Inv, P.Tidy, MayReport, HandlerStep, P.Doomed, P.Finishing;
    var t := HandlerStep(s, e);
    assert !PastReport(s.th.h) by { NotPast(s); }
    HandlerHolds(s, e);
    HandlerStaysAway(s, e);
    C.KeptByHandler(s, e);
    Growth.ByHandler(s, e);
    NotDoomedThen(s, t);
    TidyKept(s, Action.ByHandler(e));
    LeftKept(s, t);
    assert !Unanswered(t) by { HandlerAnswered(s, e); }
  }

  lemma HandlerAnswered(s: Session, e: Env)
    requires !Unanswered(s)
    ensures !Unanswered(HandlerStep(s, e))
  {
    hide HandlerStep;
    Growth.ByHandler(s, e);
    if s.th.h.InRegister? { StaysRegistering(s, e); } else { NotRegistering(s, e); }
  }

  lemma StaysRegistering(s: Session, e: Env)
    requires s.th.h.InRegister?
    ensures Registering(HandlerStep(s, e)) ==> Registering(s)
  {
  }

  lemma NotRegistering(s: Session, e: Env)
    requires !s.th.h.InRegister?
    ensures !HandlerStep(s, e).th.h.InRegister?
  {
    hide CancelStep, AfterChunk;
    if s.th.h.InBody? { BodyRegistersNothing(s, s.th.h.body, e); }
  }

  lemma BodyRegistersNothing(s: Session, pc: BodyPc, e: Env)
    ensures s.th.h.InBody? ==> !BodyStep(s, pc, e).th.h.InRegister?
  {
  }

  lemma NotPast(s: Session)
    requires !MayReport(s)
    ensures !PastReport(s.th.h)
  {
  }

  lemma TidyKept(s: Session, a: Action)
    requires P.Tidy(s)
    ensures P.Tidy(Step(s, a))
  {
    P.TidyStep(s, a);
  }

  lemma LeftKept(s: Session, t: Session)
    requires t.th.l == s.th.l && t.th.r == s.th.r && t.bc.peer == s.bc.peer
    ensures P.Left(t) == P.Left(s)
  {
  }

  lemma WaitingReceiver(s: Session, e: Env)
    requires Waiting(s) && !MayReport(s) && !Unanswered(s) && !s.bc.ctxDone
    ensures Progresses(s, Action.ByReceiver(e), ReceiverStep(s, e))
  {
    hide C.Inv, P.Tidy, HandlerStep, P.Finishing, WayToReport, Step;
    var t := ReceiverStep(s, e);
    ReceiverGoesOn(s, e);
    StepIsReceiver(s, e);
    C.Kept(s, Action.ByReceiver(e));
    TidyKept(s, Action.ByReceiver(e));
    LockMeans(s);
    LockMeans(t);
    if t.th.h == s.th.h { SameHandler(s, t); } else { Answered(s, t); }
  }

  lemma Answered(s: Session, t: Session)
    requires !MayReport(s) && s.th.h.InRegister? && Worse(s, t) && t.cw == s.cw && t.rc == s.rc
    requires (t.th.h == InRequest(Filtering) && NextAccepts(s)) || t.th.h.InFail?
    ensures !MayReport(t)
  {
  }

  lemma StepIsReceiver(s: Session, e: Env)
    ensures Step(s, Action.ByReceiver(e)) == ReceiverStep(s, e)
  {
    hide ReceiverStep;
  }

  lemma ReceiverGoesOn(s: Session, e: Env)
    requires P.Tidy(s) && s.th.l.Want? && !P.Doomed(s)
    ensures var t := ReceiverStep(s, e);
            && !P.Doomed(t) && t.th.l == s.th.l && t.bc.ctxDone == s.bc.ctxDone && t.bc.peer.ended == s.bc.peer.ended
            && Worse(s, t) && t.cw == s.cw && t.rc.cached == s.rc.cached && t.bc.stream == s.bc.stream
            && (t.th.h == s.th.h && NextAccepts(t) ==> NextAccepts(s))
            && P.Left(t) <= P.Left(s) && (P.Left(t) == P.Left(s) ==> t == s)
            && (s.th.h == InRegister(RegisterWait) && !s.bc.peer.chanClosed && !Unanswered(s) ==> P.Left(t) < P.Left(s))
            && (Unanswered(t) ==> Unanswered(s))
            && (t.th.h != s.th.h ==> s.th.h == InRegister(RegisterWait) && !t.th.h.HoldsController())
            && (t.th.h != s.th.h ==>
                  t.rc == s.rc && ((t.th.h == InRequest(Filtering) && NextAccepts(s)) || t.th.h.InFail?))
  {
    hide CancelStep;
    var q := s.bc.peer.inbox;
    if q != [] { assert q == [q[0]] + q[1..]; }
  }

  lemma WaitingLoop(s: Session, pick: Pick, e: Env)
    requires Waiting(s) && !MayReport(s) && !Unanswered(s) && !s.bc.ctxDone && e.slot
    ensures Progresses(s, Action.ByLoop(pick, e), LoopStep(s, pick, e))
  {
    hide C.Inv, P.Tidy, SelectStep, MayReport, P.Doomed, Step;
    var t := LoopStep(s, pick, e);
    C.Kept(s, Action.ByLoop(pick, e));
    StepIsLoop(s, pick, e);
    LockMeans(s);
    if s.bc.owner.None? {
      NotDoomedThen(s, t);
      EndedMeansClosed(s);
    }
  }

  lemma StepIsLoop(s: Session, pick: Pick, e: Env)
    ensures Step(s, Action.ByLoop(pick, e)) == LoopStep(s, pick, e)
  {
    hide LoopStep;
  }

  lemma EndedMeansClosed(s: Session)
    requires P.Tidy(s)
    ensures s.th.r.REnded? ==> s.bc.peer.chanClosed
  {
  }

  lemma WaitingOthers(s: Session, a: Action)
    requires Waiting(s) && !MayReport(s) && !Unanswered(s) && !s.bc.ctxDone && !a.ByHandler? && !a.ByReceiver? && !a.ByLoop?
    requires P.Considerate(s, a)
    ensures Progresses(s, a, Step(s, a))
  {
    hide C.Inv, P.Tidy, P.Doomed, TransportStep, WatchStep, MayReport, Step;
    var t := Step(s, a);
    C.Kept(s, a);
    TidyKept(s, a);
    OthersLeave(s, a);
    if Registering(s) || !s.th.h.InRegister? { SameHandler(s, t); } else { Refused(t); }
  }

  /** A registration that finds an outcome is refused, and reports nothing. */
  lemma Refused(s: Session)
    requires s.th.h.InRegister? && s.bc.complete.Some?
    ensures !MayReport(s)
  {
  }

  lemma OthersLeave(s: Session, a: Action)
    requires !a.ByHandler? && !a.ByReceiver? && !a.ByLoop? && P.Considerate(s, a) && !P.Doomed(s)
    ensures var t := Step(s, a);
            && t.bc == s.bc.(peer := t.bc.peer) && t.th.h == s.th.h && t.th.l == s.th.l && t.th.r == s.th.r
            && t.bc.peer.chanClosed == s.bc.peer.chanClosed
            && Worse(s, t) && t.cw.canceled == s.cw.canceled && t.rc.cached == s.rc.cached && !P.Doomed(t)
            && (Unanswered(t) ==> Unanswered(s))
            && (!Unanswered(s) && Registering(s) ==> (NextAccepts(t) ==> NextAccepts(s)))
            && P.Left(t) <= P.Left(s) + (if P.Disturbing(s, a) then 2 else 0)
            && (a.PeerEnds? && s.bc.peer.ended.None? ==> P.Left(t) < P.Left(s))
  {
    hide TransportStep, WatchStep;
    if a.ByTransport? { TransportLeaves(s, a.e); }
    if a.ByDisconnect? { WatchLeaves(s.cw, s.th.d, a.e.ok); }
  }

  lemma TransportLeaves(s: Session, e: Env)
    ensures var t := TransportStep(s, e);
            && t.bc == s.bc && t.th == s.th.(t := t.th.t) && Worse(s, t)
            && t.cw.canceled == s.cw.canceled && t.rc.cached == s.rc.cached
  {
    hide AfterRequestChunk;
    E.AfterRequestMeans(s, e.res);
    if s.th.t.TForward? || s.th.t.TForwardSend? {
      var sent := SendW(s, Payload(REQUEST, s.th.t.chunk.data), e.ok);
      E.AfterRequestMeans(LoseReq(s), s.th.t.chunk.res);
      E.AfterRequestMeans(if s.cw.stream.Live() && e.ok then sent else LoseReq(sent), s.th.t.chunk.res);
    }
  }

  lemma WatchLeaves(w: Writer, d: DisconnectPc, ok: bool)
    ensures var w' := WatchStep(w, d, ok).0;
            w'.canceled == w.canceled && (w.gate.done ==> w'.gate.done) && (w'.stream.Live() ==> w.stream.Live())
  {
  }

  lemma HeldStep(s: Session, a: Action)
    requires P.Finishing(s) && P.Considerate(s, a)
    ensures Progresses(s, a, Step(s, a))
  {
    hide Step, Waiting, MayReport, Overtakes, P.Left, P.LoopFree, P.Idle;
    P.Kept(s, a);
    HeldMeans(s);
    HeldMeans(Step(s, a));
  }

  lemma HeldMeans(s: Session)
    requires P.Finishing(s)
    ensures !s.th.l.Want? && (P.Idle(s) ==> s.bc.peer.ended.None?)
  {
    hide C.Inv;
  }

  lemma CourseKept(s: Session, a: Action)
    requires OnCourse(s) && (a.ByLoop? ==> a.e.slot) && P.Considerate(s, a)
    ensures Progresses(s, a, Step(s, a))
  {
    hide Waiting, MayReport, Unanswered, P.Finishing, Progresses, HandlerStep, LoopStep, ReceiverStep, TransportStep,
         DisconnectStep;
    if P.Finishing(s) {
      HeldStep(s, a);
    } else {
      match a
      case ByHandler(e) => WaitingHandler(s, e);
      case ByReceiver(e) => WaitingReceiver(s, e);
      case ByLoop(pick, e) => WaitingLoop(s, pick, e);
      case _ => WaitingOthers(s, a);
    }
  }

  // ---------- lock-fair rounds and a courteous peer ----------

  /** How often the handler takes `b.m` although finish is waiting for it, or the peer sends another reply. */
  function Disturbances(s: Session, actions: seq<Action>): nat
    decreases |actions|
  {
    if actions == [] then 0
    else (if Disturbs(s, actions[0]) then 1 else 0) + Disturbances(Step(s, actions[0]), actions[1..])
  }

  lemma {:induction false} DisturbancesAppend(s: Session, a: seq<Action>, b: seq<Action>)
    ensures Disturbances(s, a + b) == Disturbances(s, a) + Disturbances(P.Exec(s, a), b)
    decreases |a|
  {
    hide Step, Disturbs;
    if a == [] {
      assert a + b == b;
    } else {
      assert (a + b)[0] == a[0] && (a + b)[1..] == a[1..] + b;
      DisturbancesAppend(Step(s, a[0]), a[1..], b);
    }
  }

  /** The connection's slot is set whenever the loop looks. */
  predicate SlotSeen(actions: seq<Action>) {
    forall i :: 0 <= i < |actions| && actions[i].ByLoop? ==> actions[i].e.slot
  }

  predicate HasTurn(m: Mover, actions: seq<Action>) {
    exists a :: a in actions && IsTurn(m, a)
  }

  /** The loop, the receiver and the handler all get a turn; anything else may happen in between. */
  predicate FairRound(round: seq<Action>) {
    SlotSeen(round) && HasTurn(LoopMoves, round) && HasTurn(ReceiverMoves, round) && HasTurn(HandlerMoves, round)
  }

  /** Every round is fair, and finish is disturbed at most `k` times. */
  ghost predicate LockFair(s: Session, rounds: seq<seq<Action>>, k: nat) {
    (forall r :: r in rounds ==> FairRound(r)) && Disturbances(s, P.Flatten(rounds)) <= k
  }

  /** The peer sends no further cancel. */
  predicate Courteous(s: Session, actions: seq<Action>)
    decreases |actions|
  {
    actions != [] ==> P.Considerate(s, actions[0]) && Courteous(Step(s, actions[0]), actions[1..])
  }

  /** The peer ends its stream once finish has closed its own: in every round that starts so it gets a turn. */
  predicate PeerFair(s: Session, round: seq<Action>) {
    s.bc.stream.closed && s.bc.peer.ended.None? ==> HasTurn(PeerMoves, round)
  }

  predicate Polite(s: Session, rounds: seq<seq<Action>>)
    decreases |rounds|
  {
    rounds != [] ==>
      && Courteous(s, rounds[0]) && PeerFair(s, rounds[0])
      && Polite(P.Exec(s, rounds[0]), rounds[1..])
  }

  /** And it does not end it before. */
  predicate EndsLate(s: Session, actions: seq<Action>)
    decreases |actions|
  {
    actions != [] ==>
      && (actions[0].PeerEnds? ==> s.bc.stream.closed || s.bc.peer.ended.Some?)
      && EndsLate(Step(s, actions[0]), actions[1..])
  }

  lemma {:induction false} CourteousAppend(s: Session, a: seq<Action>, b: seq<Action>)
    ensures Courteous(s, a + b) <==> Courteous(s, a) && Courteous(P.Exec(s, a), b)
    ensures EndsLate(s, a + b) <==> EndsLate(s, a) && EndsLate(P.Exec(s, a), b)
    decreases |a|
  {
    hide Step;
    if a == [] {
      assert a + b == b;
    } else {
      assert (a + b)[0] == a[0] && (a + b)[1..] == a[1..] + b;
      CourteousAppend(Step(s, a[0]), a[1..], b);
    }
  }

  lemma {:induction false} PoliteThroughout(s: Session, rounds: seq<seq<Action>>)
    requires Polite(s, rounds)
    ensures Courteous(s, P.Flatten(rounds))
    decreases |rounds|
  {
    hide Step, P.Exec, Courteous, PeerFair;
    if rounds == [] {
      NothingCourteous(s);
    } else {
      PoliteThroughout(P.Exec(s, rounds[0]), rounds[1..]);
      CourteousAppend(s, rounds[0], P.Flatten(rounds[1..]));
    }
  }

  lemma NothingCourteous(s: Session)
    ensures Courteous(s, []) && EndsLate(s, [])
  {
  }

  lemma {:induction false} NeverFarther(s: Session, actions: seq<Action>)
    requires OnCourse(s) && SlotSeen(actions) && Courteous(s, actions)
    ensures var t := P.Exec(s, actions);
            && OnCourse(t) && (s.bc.ctxDone ==> t.bc.ctxDone)
            && TurnsLeft(t) <= TurnsLeft(s) + 2 * Disturbances(s, actions)
    decreases |actions|
  {
    hide Step, OnCourse, TurnsLeft, Disturbs, MoverOf, IsTurn, P.Considerate;
    if actions != [] {
      CourseKept(s, actions[0]);
      assert SlotSeen(actions[1..]);
      NeverFarther(Step(s, actions[0]), actions[1..]);
    }
  }

  /** In a round without disturbance, the turn of the one that can move brings finish closer. */
  lemma {:induction false} Closer(s: Session, actions: seq<Action>)
    requires OnCourse(s) && SlotSeen(actions) && !s.bc.ctxDone && Disturbances(s, actions) == 0
    requires HasTurn(MoverOf(s), actions) && Courteous(s, actions)
    ensures TurnsLeft(P.Exec(s, actions)) < TurnsLeft(s)
    decreases |actions|
  {
    hide Step, OnCourse, TurnsLeft, Disturbs, MoverOf, IsTurn, P.Considerate;
    var a, t := actions[0], Step(s, actions[0]);
    CourseKept(s, a);
    assert actions == [a] + actions[1..];
    assert SlotSeen(actions[1..]);
    if TurnsLeft(t) < TurnsLeft(s) {
      NeverFarther(t, actions[1..]);
    } else {
      Closer(t, actions[1..]);
    }
  }

  /** finish waits for the peer only once it has closed its own stream. */
  lemma PeerWaits(s: Session)
    requires OnCourse(s) && MoverOf(s).PeerMoves?
    ensures s.bc.stream.closed && s.bc.peer.ended.None?
  {
    hide C.Scan, C.Fits, MayReport, Unanswered, P.Doomed;
  }

  lemma RoundCloser(s: Session, round: seq<Action>)
    requires OnCourse(s) && FairRound(round) && Courteous(s, round) && PeerFair(s, round) && !s.bc.ctxDone
    ensures var t := P.Exec(s, round);
            OnCourse(t) && TurnsLeft(t) + 1 <= TurnsLeft(s) + 3 * Disturbances(s, round)
  {
    hide OnCourse, TurnsLeft, Disturbances, MoverOf, IsTurn, Courteous, HasTurn;
    NeverFarther(s, round);
    if Disturbances(s, round) == 0 {
      if MoverOf(s).PeerMoves? { PeerWaits(s); }
      Closer(s, round);
    }
  }

  lemma {:induction false} RoundsComplete(s: Session, rounds: seq<seq<Action>>, k: nat)
    requires OnCourse(s) && LockFair(s, rounds, k) && Polite(s, rounds) && |rounds| >= TurnsLeft(s) + 3 * k
    ensures P.Exec(s, P.Flatten(rounds)).bc.ctxDone
    decreases |rounds|
  {
    hide Step, OnCourse, TurnsLeft, Disturbances, P.Exec, Courteous, PeerFair;
    if s.bc.ctxDone {
      AllSeen(rounds);
      PoliteThroughout(s, rounds);
      NeverFarther(s, P.Flatten(rounds));
    } else {
      assert TurnsLeft(s) > 0 by { SomethingLeft(s); }
      var first, rest := rounds[0], rounds[1..];
      assert first in rounds;
      RoundCloser(s, first);
      P.ExecAppend(s, first, P.Flatten(rest));
      DisturbancesAppend(s, first, P.Flatten(rest));
      RoundsComplete(P.Exec(s, first), rest, k - Disturbances(s, first));
    }
  }

  lemma SomethingLeft(s: Session)
    requires OnCourse(s) && !s.bc.ctxDone
    ensures TurnsLeft(s) > 0
  {
    hide C.Inv, P.Tidy, MayReport;
  }

  lemma {:induction false} AllSeen(rounds: seq<seq<Action>>)
    requires forall r :: r in rounds ==> FairRound(r)
    ensures SlotSeen(P.Flatten(rounds))
  {
    if rounds != [] {
      assert rounds[0] in rounds;
      AllSeen(rounds[1..]);
    }
  }

  // ---------- with a way to report, the report can come ----------

  function Nudge(ok: bool, flag: bool): Env {
    Env(ok, [], Eof, 0, flag, true)
  }

  /** What brings the handler closer to a report. */
  function Provoke(s: Session): Action {
    if s.th.h == InRegister(RegisterWait) && !s.bc.peer.chanClosed then ByReceiver(Nudge(true, false))
    else if s.th.h.InRequest? || s.th.h.InResponse? then
      ByHandler(Nudge(!s.bc.stream.Live(), s.th.h.InResponse?))
    else ByHandler(Nudge(true, false))
  }

  /** How far the handler is from a report. */
  function Rank(h: HandlerPc): nat {
    match h
    case InRegister(pc) => if pc.Register? then 42 else if pc.RegisterSend? then 41 else 40
    case InRequest(pc) => if pc.Filtering? then 39 else if pc.ReqHeader? then 38 else 37
    case InResponse(pc) => if pc.RoundTrip? then 36 else if pc.RespHeader? then 35 else 34
    case InBody(pc) =>
      if pc.Notify? then 33 else if pc.NotifySend? then 32 else if pc.Forward? then 31
      else if pc.ForwardSend? then 30 else 29
    case InMeta(pc) =>
      if pc.NotifyAll? then 28 else if pc.NotifyAllSend? then 27 else if pc.MetaCheck? then 26
      else if pc.MetaLock? then 25 else if pc.MetaSend? then 24 else 23
    case InFail(_, pc) => if pc.Fail? then 22 else if pc.FailNotify? then 21 else 20
    case InReport(_, pc) => if pc.Report? then 1 else 0
    case InClose(_) => 0
  }

  function Distance(s: Session): nat {
    Rank(s.th.h) + if s.th.h.InRegister? then P.ReceiverLeft(s.th.r) + 2 * |s.bc.peer.inbox| else 0
  }

  ghost predicate Nearer(s: Session, t: Session) {
    MayReport(t) && Distance(t) < Distance(s)
  }

  lemma NearRegister(s: Session, pc: RegisterPc, e: Env)
    requires s.th.h == InRegister(pc) && s.bc.complete.None? && WayToReport(s) && P.Tidy(s) && e.ok
    requires pc.Register? ==> s.bc.owner.None?
    requires pc.RegisterWait? ==> s.bc.peer.chanClosed
    ensures Nearer(s, RegisterStep(s, pc, e))
  {
  }

  lemma NearReply(s: Session, e: Env)
    requires Waiting(s) && s.th.h == InRegister(RegisterWait) && !s.bc.peer.chanClosed && !Unanswered(s)
    requires s.bc.complete.None? && WayToReport(s)
    ensures Nearer(s, ReceiverStep(s, e))
  {
    hide C.Inv, CancelStep;
  }

  lemma NearRequest(s: Session, pc: RequestPc, e: Env)
    requires s.th.h == InRequest(pc) && s.bc.complete.None? && WayToReport(s) && e.ok == !s.bc.stream.Live()
    ensures Nearer(s, RequestStep(s, pc, e))
  {
  }

  lemma NearResponse(s: Session, pc: ResponsePc, e: Env)
    requires s.th.h == InResponse(pc) && s.bc.complete.None? && WayToReport(s)
    requires e.ok == !s.bc.stream.Live() && e.flag && !s.rc.cached
    ensures Nearer(s, ResponseStep(s, pc, e))
  {
  }

  lemma NearBody(s: Session, pc: BodyPc, e: Env)
    requires s.th.h == InBody(pc) && s.bc.complete.None? && WayToReport(s) && (s.rc.cached ==> pc.Reading?)
    requires pc.Notify? ==> s.bc.owner.None?
    requires e == Nudge(true, false)
    ensures Nearer(s, BodyStep(s, pc, e))
  {
  }

  lemma NearMeta(s: Session, pc: MetaPc, e: Env)
    requires s.th.h == InMeta(pc) && s.bc.complete.None? && WayToReport(s) && e.ok
    requires pc.NotifyAll? ==> s.bc.owner.None?
    requires pc.MetaLock? ==> s.cw.gate.owner.None?
    ensures Nearer(s, MetaStep(s, pc, e))
  {
  }

  lemma NearReportOrFail(s: Session, e: Env)
    requires s.bc.complete.None? && WayToReport(s) && e.ok
    requires s.th.h.InFail? || (s.th.h.InReport? && s.th.h.rep.Report?)
    requires (s.th.h.InFail? ==> s.th.h.fail.FailNotify?) ==> s.bc.owner.None?
    ensures Nearer(s, HandlerStep(s, e))
  {
  }

  /** What the invariants say about the locks and a cached body at such a point. */
  lemma Unlocked(s: Session)
    requires Waiting(s) && W.Inv(s)
    ensures s.bc.owner.Some? ==> s.th.h.HoldsController()
    ensures s.th.h.InBody? && s.rc.cached ==> s.th.h.body.Reading?
    ensures s.th.h.InMeta? && s.th.h.meta.MetaLock? && !s.cw.gate.done ==> s.cw.gate.owner.None?
    ensures s.th.h.InResponse? ==> !s.rc.cached
  {
    hide P.Tidy, P.Doomed, W.Inv, C.Inv;
    LockMeans(s);
    if s.th.h.InResponse? { Uncached(s); }
    if s.th.h.InMeta? || s.th.h.InBody? { WriterUnlocked(s); }
  }

  lemma WriterUnlocked(s: Session)
    requires W.Inv(s)
    ensures s.th.h.InMeta? && s.th.h.meta.MetaLock? && !s.cw.gate.done ==> s.cw.gate.owner.None?
    ensures s.th.h.InBody? && s.rc.cached ==> s.th.h.body.Reading?
  {
    hide Frames.Sent, Terminals, HasMeta, OnlyRequest, Faithful;
    match s.cw.gate.owner
    case None =>
    case Some(me) => assert me.Handler? || me.Loop? || me.Receiver? || me.Disconnect?;
  }

  lemma Provoked(s: Session)
    requires Waiting(s) && W.Inv(s) && MayReport(s) && !PastReport(s.th.h) && !Unanswered(s)
    ensures var t := Step(s, Provoke(s));
            && Nearer(s, t) && Waiting(t) && W.Inv(t) && !Unanswered(t) && t.bc.ctxDone == s.bc.ctxDone
            && (Provoke(s).ByHandler? || Provoke(s).ByReceiver?)
  {
    hide C.Inv, W.Inv, P.Tidy, P.Doomed, Nearer, WayToReport, Unanswered, RegisterStep, RequestStep, ResponseStep,
         BodyStep, MetaStep, ReportStep, FailStep, CloseStep, ReceiverStep, HandlerStep;
    var a := Provoke(s);
    Unlocked(s);
    C.Kept(s, a);
    W.Kept(s, a);
    TidyKept(s, a);
    if a.ByReceiver? {
      ReceiverGoesOn(s, a.e);
      NearReply(s, a.e);
    } else {
      Growth.ByHandler(s, a.e);
      HandlerAnswered(s, a.e);
      NotDoomedThen(s, Step(s, a));
      ProvokedHandler(s, a.e);
    }
  }

  lemma ProvokedHandler(s: Session, e: Env)
    requires Waiting(s) && W.Inv(s) && MayReport(s) && !PastReport(s.th.h) && Provoke(s) == ByHandler(e)
    ensures Nearer(s, HandlerStep(s, e))
  {
    hide C.Inv, W.Inv, P.Doomed, Nearer, RegisterStep, RequestStep, ResponseStep, BodyStep, MetaStep, ReportStep,
         FailStep, CloseStep;
    assert s.bc.complete.None? && WayToReport(s);
    Unlocked(s);
    match s.th.h
    case InRegister(pc) => NearRegister(s, pc, e);
    case InRequest(pc) => NearRequest(s, pc, e);
    case InResponse(pc) => NearResponse(s, pc, e);
    case InBody(pc) => NearBody(s, pc, e);
    case InMeta(pc) => NearMeta(s, pc, e);
    case _ => NearReportOrFail(s, e);
  }

  /** Steps of handler, receiver and loop only. */
  predicate Internal(actions: seq<Action>) {
    forall i :: 0 <= i < |actions| ==>
      actions[i].ByHandler? || actions[i].ByReceiver? || (actions[i].ByLoop? && actions[i].e.slot)
  }

  /** The provocations that lead to the report. */
  lemma {:induction false} ReportComes(s: Session) returns (actions: seq<Action>)
    requires Waiting(s) && W.Inv(s) && MayReport(s) && !Unanswered(s) && !s.bc.ctxDone
    ensures P.Crossed(P.Exec(s, actions)) && Internal(actions)
    decreases Distance(s)
  {
    hide Step, Waiting, W.Inv, MayReport, Distance, Unanswered;
    if PastReport(s.th.h) {
      actions := [];
      PastIsCrossed(s);
    } else {
      Provoked(s);
      NearerMeans(s, Step(s, Provoke(s)));
      var rest := ReportComes(Step(s, Provoke(s)));
      actions := [Provoke(s)] + rest;
      assert actions[1..] == rest;
    }
  }

  lemma NearerMeans(s: Session, t: Session)
    requires Nearer(s, t)
    ensures MayReport(t) && Distance(t) < Distance(s)
  {
  }

  lemma PastIsCrossed(s: Session)
    requires Waiting(s) && PastReport(s.th.h) && !s.bc.ctxDone
    ensures P.Crossed(s)
  {
    hide C.Scan, P.Tidy;
  }

  // ---------- rounds in which nobody disturbs ----------

  const GO := Env(true, [], More, 0, false, true)

  function Turn(): seq<Action> {
    [Action.ByLoop(OnDone, GO), Action.ByHandler(GO), Action.ByReceiver(GO), Action.ByDisconnect(GO)]
  }

  /** A round in which everyone gets a turn, the loop before the handler, and the peer if it is its turn. */
  function Round(s: Session): seq<Action> {
    (if s.bc.stream.closed && s.bc.peer.ended.None? then [PeerEnds(Orderly)] else []) + Turn()
  }

  function Rounds(s: Session, n: nat): (rounds: seq<seq<Action>>)
    ensures |rounds| == n
    decreases n
  {
    if n == 0 then [] else [Round(s)] + Rounds(P.Exec(s, Round(s)), n - 1)
  }

  /** And rounds without the peer. */
  function Turns(n: nat): (rounds: seq<seq<Action>>)
    ensures |rounds| == n
  {
    if n == 0 then [] else [Turn()] + Turns(n - 1)
  }

  lemma WithTurnIsFair(actions: seq<Action>)
    requires SlotSeen(actions)
    ensures FairRound(actions + Turn())
  {
    var all, n := actions + Turn(), |actions|;
    assert all[n] == Turn()[0] && all[n + 1] == Turn()[1] && all[n + 2] == Turn()[2];
    assert IsTurn(LoopMoves, all[n]) && IsTurn(HandlerMoves, all[n + 1]) && IsTurn(ReceiverMoves, all[n + 2]);
    assert all[n] in all && all[n + 1] in all && all[n + 2] in all;
  }

  lemma {:induction false} TurnsAreFair(n: nat)
    ensures forall r :: r in Turns(n) ==> FairRound(r)
  {
    if n > 0 {
      WithTurnIsFair([]);
      assert [] + Turn() == Turn();
      TurnsAreFair(n - 1);
    }
  }

  lemma LoopNeverReturns(s: Session, a: Action)
    requires !s.th.l.Select?
    ensures !Step(s, a).th.l.Select?
  {
    hide HandlerStep, TransportStep, CancelStep;
    if a.ByHandler? { Growth.ByHandler(s, a.e); }
    if a.ByTransport? { E.TransportMeans(s, a.e); }
  }

  /** After the loop's turn b.m is taken, or was not free. */
  lemma TurnDisturbsNothing(s: Session)
    requires !s.th.l.Select?
    ensures Disturbances(s, Turn()) == 0 && !P.Exec(s, Turn()).th.l.Select?
    ensures Courteous(s, Turn()) && EndsLate(s, Turn())
  {
    hide HandlerStep, ReceiverStep, Disturbs;
    var t := Turn();
    var u := Step(s, t[0]);
    var v := Step(u, t[1]);
    LoopNeverReturns(s, t[0]);
    LoopNeverReturns(u, t[1]);
    assert t[1..] == [t[1], t[2], t[3]] && t[1..][1..] == [t[2], t[3]];
    LoopGetsIt(s);
    NotDisturbing(s, t[0]);
    hide Step;
    OthersDisturbNothing(v);
    assert P.Exec(s, t) == P.Exec(u, t[1..]) == P.Exec(v, [t[2], t[3]]);
    assert Disturbances(s, t) == Disturbances(u, t[1..]) == Disturbances(v, [t[2], t[3]]);
    assert Courteous(u, t[1..]) && EndsLate(u, t[1..]);
  }

  lemma OthersDisturbNothing(s: Session)
    requires !s.th.l.Select?
    ensures var others := [Action.ByReceiver(GO), Action.ByDisconnect(GO)];
            && Disturbances(s, others) == 0 && !P.Exec(s, others).th.l.Select?
            && Courteous(s, others) && EndsLate(s, others)
  {
    hide Step, Disturbs;
    var a, b := Action.ByReceiver(GO), Action.ByDisconnect(GO);
    var t := Step(s, a);
    LoopNeverReturns(s, a);
    LoopNeverReturns(t, b);
    NotDisturbing(s, a);
    NotDisturbing(t, b);
    NothingCourteous(Step(t, b));
    assert [a, b][1..] == [b] && [b][1..] == [];
    assert P.Exec(s, [a, b]) == P.Exec(t, [b]) == Step(t, b);
    assert Disturbances(s, [a, b]) == Disturbances(t, [b]) == Disturbances(Step(t, b), []);
    assert Courteous(t, [b]) && EndsLate(t, [b]);
  }

  lemma NotDisturbing(s: Session, a: Action)
    requires !a.ByHandler? && !a.PeerReplies?
    ensures !Disturbs(s, a)
  {
  }

  lemma LoopGetsIt(s: Session)
    requires !s.th.l.Select?
    ensures !Disturbs(Step(s, Action.ByLoop(OnDone, GO)), Action.ByHandler(GO))
  {
    hide HandlerStep;
  }

  lemma PeerEnding(s: Session)
    requires s.bc.stream.closed
    ensures var a := PeerEnds(Orderly);
            && Disturbances(s, [a]) == 0 && Courteous(s, [a]) && EndsLate(s, [a])
            && P.Exec(s, [a]) == Step(s, a) && Step(s, a).th == s.th
  {
    var a := PeerEnds(Orderly);
    NotDisturbing(s, a);
    assert [a][1..] == [];
    assert Step(s, a).th == s.th;
    hide Step, Disturbs;
    NothingCourteous(Step(s, a));
    assert P.Exec(Step(s, a), []) == Step(s, a);
  }

  lemma RoundDisturbsNothing(s: Session)
    requires !s.th.l.Select?
    ensures Disturbances(s, Round(s)) == 0 && !P.Exec(s, Round(s)).th.l.Select?
    ensures Courteous(s, Round(s)) && EndsLate(s, Round(s)) && PeerFair(s, Round(s)) && FairRound(Round(s))
  {
    hide Disturbances, Courteous, EndsLate, P.Exec, Step;
    if s.bc.stream.closed && s.bc.peer.ended.None? {
      var a := PeerEnds(Orderly);
      PeerEnding(s);
      TurnDisturbsNothing(P.Exec(s, [a]));
      DisturbancesAppend(s, [a], Turn());
      CourteousAppend(s, [a], Turn());
      P.ExecAppend(s, [a], Turn());
      WithTurnIsFair([a]);
      assert a in [a] + Turn() by { assert ([a] + Turn())[0] == a; }
      assert IsTurn(PeerMoves, a);
    } else {
      assert [] + Turn() == Turn();
      TurnDisturbsNothing(s);
      WithTurnIsFair([]);
    }
  }

  /** Rounds that follow a first one; without disturbance, polite and fair. */
  lemma {:induction false} RoundsAreFair(s: Session, n: nat)
    requires !s.th.l.Select?
    ensures (forall r :: r in Rounds(s, n) ==> FairRound(r)) && Disturbances(s, P.Flatten(Rounds(s, n))) == 0
    ensures Polite(s, Rounds(s, n)) && EndsLate(s, P.Flatten(Rounds(s, n)))
    decreases n
  {
    hide Step, Round, FairRound, P.Exec, Disturbances, Courteous, EndsLate, PeerFair;
    if n > 0 {
      var t := P.Exec(s, Round(s));
      RoundDisturbsNothing(s);
      RoundsAreFair(t, n - 1);
      DisturbancesAppend(s, Round(s), P.Flatten(Rounds(t, n - 1)));
      CourteousAppend(s, Round(s), P.Flatten(Rounds(t, n - 1)));
    } else {
      NothingCourteous(s);
      assert Disturbances(s, []) == 0 by { NoDisturbance(s); }
    }
  }

  lemma NoDisturbance(s: Session)
    ensures Disturbances(s, []) == 0
  {
  }

  lemma {:induction false} InternalIsCourteous(s: Session, actions: seq<Action>)
    requires Internal(actions)
    ensures Courteous(s, actions) && EndsLate(s, actions) && SlotSeen(actions)
    decreases |actions|
  {
    hide Step;
    if actions != [] { InternalIsCourteous(Step(s, actions[0]), actions[1..]); }
  }

  lemma {:induction false} NeverReturns(s: Session, actions: seq<Action>)
    requires !s.th.l.Select?
    ensures !P.Exec(s, actions).th.l.Select?
    decreases |actions|
  {
    hide Step;
    if actions != [] {
      LoopNeverReturns(s, actions[0]);
      NeverReturns(Step(s, actions[0]), actions[1..]);
    }
  }

  /** The rounds that begin with `actions`, and the disturbances of these. */
  function After(s: Session, actions: seq<Action>, n: nat): seq<seq<Action>> {
    [actions + Turn()] + Rounds(P.Exec(s, actions + Turn()), n)
  }

  lemma AfterIsFair(s: Session, actions: seq<Action>, n: nat)
    requires !P.Exec(s, actions).th.l.Select? && !s.bc.stream.closed && Internal(actions)
    ensures LockFair(s, After(s, actions, n), Disturbances(s, actions))
    ensures Polite(s, After(s, actions, n)) && EndsLate(s, P.Flatten(After(s, actions, n)))
    ensures P.Flatten(After(s, actions, n)) == actions + Turn() + P.Flatten(Rounds(P.Exec(s, actions + Turn()), n))
  {
    hide Step, P.Exec, Disturbances, Courteous, EndsLate, FairRound, Turn;
    var first := actions + Turn();
    var t, u := P.Exec(s, actions), P.Exec(s, first);
    var rest := P.Flatten(Rounds(u, n));
    InternalIsCourteous(s, actions);
    TurnDisturbsNothing(t);
    P.ExecAppend(s, actions, Turn());
    DisturbancesAppend(s, actions, Turn());
    CourteousAppend(s, actions, Turn());
    RoundsAreFair(u, n);
    DisturbancesAppend(s, first, rest);
    CourteousAppend(s, first, rest);
    WithTurnIsFair(actions);
    assert After(s, actions, n)[1..] == Rounds(u, n);
  }

  // ---------- a peer that does not end its stream ----------

  ghost predicate Open(s: Session) {
    P.Tidy(s) && s.bc.peer.ended.None? && !s.bc.ctxDone
  }

  lemma OpenStep(s: Session, a: Action)
    requires Open(s) && !a.PeerEnds?
    ensures Open(Step(s, a))
  {
    hide HandlerStep, TransportStep, CancelStep;
    TidyKept(s, a);
    if a.ByHandler? { Growth.ByHandler(s, a.e); }
    if a.ByTransport? { E.TransportMeans(s, a.e); }
  }

  lemma {:induction false} OpenForever(s: Session, actions: seq<Action>)
    requires Open(s) && forall i :: 0 <= i < |actions| ==> !actions[i].PeerEnds?
    ensures !P.Exec(s, actions).bc.ctxDone
    decreases |actions|
  {
    hide Step, Open;
    if actions == [] {
      OpenMeans(s);
    } else {
      OpenStep(s, actions[0]);
      OpenForever(Step(s, actions[0]), actions[1..]);
    }
  }

  lemma OpenMeans(s: Session)
    requires Open(s)
    ensures !s.bc.ctxDone
  {
  }

  lemma {:induction false} TurnsEndNothing(s: Session, n: nat)
    requires !s.th.l.Select?
    ensures forall i :: 0 <= i < |P.Flatten(Turns(n))| ==> !P.Flatten(Turns(n))[i].PeerEnds?
    ensures Disturbances(s, P.Flatten(Turns(n))) == 0
    decreases n
  {
    hide Step, P.Exec, Disturbances;
    if n > 0 {
      TurnDisturbsNothing(s);
      TurnsEndNothing(P.Exec(s, Turn()), n - 1);
      DisturbancesAppend(s, Turn(), P.Flatten(Turns(n - 1)));
      assert P.Flatten(Turns(n)) == Turn() + P.Flatten(Turns(n - 1));
    } else {
      NoDisturbance(s);
    }
  }

  // ---------- a registration without a reply ----------

  /** finish waits for the registration, the registration for a reply, and the peer for finish. */
  ghost predicate Silence(s: Session) {
    && s.th.l.Want? && (s.th.h == InRegister(RegisterSend) || s.th.h == InRegister(RegisterWait)) && s.bc.owner.Some?
    && s.th.r.Recv? && s.bc.peer.inbox == [] && s.bc.peer.ended.None? && !s.bc.peer.chanClosed && !s.bc.ctxDone
    && !s.bc.stream.closed
  }

  lemma SilenceStep(s: Session, a: Action)
    requires Silence(s) && !a.PeerReplies? && !a.PeerEnds?
    ensures Silence(Step(s, a))
  {
    hide TransportStep, CancelStep;
    if a.ByTransport? { E.TransportMeans(s, a.e); }
  }

  predicate PeerSilent(actions: seq<Action>) {
    forall i :: 0 <= i < |actions| ==> !actions[i].PeerReplies? && !actions[i].PeerEnds?
  }

  lemma {:induction false} SilenceForever(s: Session, actions: seq<Action>)
    requires Silence(s) && PeerSilent(actions)
    ensures Silence(P.Exec(s, actions))
    decreases |actions|
  {
    hide Step, Silence;
    if actions != [] {
      SilenceStep(s, actions[0]);
      SilenceForever(Step(s, actions[0]), actions[1..]);
    }
  }

  /** In such a state no round gives the peer a turn. */
  lemma {:induction false} SilentRounds(s: Session, n: nat)
    requires Silence(s)
    ensures PeerSilent(P.Flatten(Rounds(s, n)))
    decreases n
  {
    hide Step;
    if n > 0 {
      assert [] + Turn() == Turn();
      SilenceForever(s, Turn());
      SilentRounds(P.Exec(s, Turn()), n - 1);
      hide Silence;
      assert P.Flatten(Rounds(s, n)) == Turn() + P.Flatten(Rounds(P.Exec(s, Turn()), n - 1));
    }
  }

  /** A registration that nobody answers takes `b.m`, if it does not have it, and keeps it. */
  lemma FallsSilent(s: Session)
    requires Waiting(s) && Unanswered(s) && !s.bc.ctxDone
    ensures Silence(P.Exec(s, [Action.ByHandler(GO)])) && !s.bc.stream.closed
  {
    hide C.Inv, P.Tidy, P.Doomed, P.Exec;
    SilentPeer(s);
    LockMeans(s);
    NotClosedYet(s);
    OneStep(s, Action.ByHandler(GO));
  }

  lemma SilentPeer(s: Session)
    requires P.Tidy(s) && Unanswered(s) && !P.Doomed(s)
    ensures s.th.r.Recv? && !s.bc.peer.chanClosed
  {
  }

  // ---------- the exact condition ----------

  /** From the loop's last branch on: no cancel of the controller is in the receiver's hands or unread, and, while
      finish still waits for `b.m`, no report holds it or can come, and no registration can wait for ever. */
  predicate Free(s: Session) {
    !P.Doomed(s) && (s.th.l.Want? ==> !MayReport(s) && !Unanswered(s))
  }

  /** finish takes `b.m`, closes its stream, drains msgChan and reaches cancel() under every lock-fair schedule that
      is long enough, if the peer sends no further cancel and ends its own stream once finish has closed. */
  lemma FinishCompletes(schedule: seq<Action>, rounds: seq<seq<Action>>, k: nat)
    requires var s := Run(schedule); (s.th.l.Want? || s.th.l.Holds()) && Free(s)
    requires LockFair(Run(schedule), rounds, k) && Polite(Run(schedule), rounds)
    requires |rounds| >= TurnsLeft(Run(schedule)) + 3 * k
    ensures Run(schedule + P.Flatten(rounds)).bc.ctxDone
  {
    hide Run, Step, C.Inv, P.Exec, P.Flatten, MayReport, Unanswered, LockFair, TurnsLeft, Polite;
    C.Always(schedule);
    P.TidyAlways(schedule);
    NotDoneYet(Run(schedule));
    RoundsComplete(Run(schedule), rounds, k);
    P.RunThenExec(schedule, P.Flatten(rounds));
  }

  lemma NotDoneYet(s: Session)
    requires P.Tidy(s) && (s.th.l.Want? || s.th.l.Holds())
    ensures !s.bc.ctxDone
  {
  }

  /** Without the condition there are lock-fair schedules, as long as one likes, that never get there, although
      the peer behaves like that and does not even end its stream early. */
  lemma FinishFails(schedule: seq<Action>) returns (k: nat, rounds: seq<seq<Action>>)
    requires var s := Run(schedule); (s.th.l.Want? || s.th.l.Holds()) && !Free(s)
    ensures LockFair(Run(schedule), rounds, k) && |rounds| >= TurnsLeft(Run(schedule)) + 3 * k
    ensures Polite(Run(schedule), rounds) && EndsLate(Run(schedule), P.Flatten(rounds))
    ensures !Run(schedule + P.Flatten(rounds)).bc.ctxDone
  {
    hide Run, Step, C.Inv, W.Inv, P.Exec, P.Flatten, MayReport, Unanswered, TurnsLeft, Disturbances, P.Doomed, FairRound,
         P.Tidy, Polite, EndsLate;
    var s := Run(schedule);
    C.Always(schedule);
    W.Always(schedule);
    P.TidyAlways(schedule);
    NotDoneYet(s);
    if P.Doomed(s) {
      k, rounds := 0, Rounds(s, TurnsLeft(s));
      RoundsAreFair(s, TurnsLeft(s));
      P.DoomedNeverFinishes(schedule, P.Flatten(rounds));
    } else {
      NotClosedYet(s);
      if Unanswered(s) {
        k, rounds := SilenceFails(s);
      } else {
        k, rounds := ReportFails(s);
      }
      P.RunThenExec(schedule, P.Flatten(rounds));
    }
  }

  lemma NotClosedYet(s: Session)
    requires C.Inv(s) && s.th.l.Want?
    ensures !s.bc.stream.closed
  {
    hide C.Scan, C.Fits;
  }

  lemma SilenceFails(s: Session) returns (k: nat, rounds: seq<seq<Action>>)
    requires Waiting(s) && Unanswered(s) && !s.bc.ctxDone
    ensures LockFair(s, rounds, k) && |rounds| >= TurnsLeft(s) + 3 * k && !P.Exec(s, P.Flatten(rounds)).bc.ctxDone
    ensures Polite(s, rounds) && EndsLate(s, P.Flatten(rounds))
  {
    hide Step, C.Inv, P.Exec, P.Flatten, Unanswered, TurnsLeft, Disturbances, P.Tidy, P.Doomed, LockFair, Polite, EndsLate;
    var actions := [Action.ByHandler(GO)];
    k := Disturbances(s, actions);
    var n := TurnsLeft(s) + 3 * k;
    rounds := After(s, actions, n);
    FallsSilent(s);
    NeverReturns(s, actions);
    AfterIsFair(s, actions, n);
    var u := P.Exec(s, actions + Turn());
    P.ExecAppend(s, actions, Turn());
    SilenceForever(P.Exec(s, actions), Turn());
    SilentRounds(u, n);
    SilenceForever(u, P.Flatten(Rounds(u, n)));
    P.ExecAppend(s, actions + Turn(), P.Flatten(Rounds(u, n)));
  }

  lemma ReportFails(s: Session) returns (k: nat, rounds: seq<seq<Action>>)
    requires Waiting(s) && W.Inv(s) && MayReport(s) && !Unanswered(s) && !s.bc.ctxDone && !s.bc.stream.closed
    ensures LockFair(s, rounds, k) && |rounds| >= TurnsLeft(s) + 3 * k && !P.Exec(s, P.Flatten(rounds)).bc.ctxDone
    ensures Polite(s, rounds) && EndsLate(s, P.Flatten(rounds))
  {
    hide Step, W.Inv, C.Inv, P.Exec, P.Flatten, MayReport, Unanswered, TurnsLeft, Disturbances, P.Tidy, P.Doomed, LockFair,
         Polite, EndsLate, P.Crossed;
    var actions := ReportComes(s);
    k := Disturbances(s, actions);
    var n := TurnsLeft(s) + 3 * k;
    rounds := After(s, actions, n);
    NeverReturns(s, actions);
    AfterIsFair(s, actions, n);
    var rest := Turn() + P.Flatten(Rounds(P.Exec(s, actions + Turn()), n));
    assert P.Flatten(rounds) == actions + rest;
    P.ExecAppend(s, actions, rest);
    P.CrossedForever(P.Exec(s, actions), rest);
    CrossedMeans(P.Exec(P.Exec(s, actions), rest));
  }

  lemma CrossedMeans(s: Session)
    requires P.Crossed(s)
    ensures !s.bc.ctxDone
  {
  }

  /** Lock-fair rounds, enough of them, in which the peer sends no further cancel, and ends its stream once finish has
      closed its own, and not before. */
  ghost predicate Behaved(s: Session, rounds: seq<seq<Action>>, k: nat) {
    && LockFair(s, rounds, k) && |rounds| >= TurnsLeft(s) + 3 * k
    && Polite(s, rounds) && EndsLate(s, P.Flatten(rounds))
  }

  /** Conditional progress, exactly: from the moment the loop takes its last branch, finish completes in all such
      rounds if and only if the session is free at that moment. */
  lemma FinishesIff(schedule: seq<Action>)
    requires var s := Run(schedule); s.th.l.Want? || s.th.l.Holds()
    ensures Free(Run(schedule)) <==>
            forall k: nat, rounds: seq<seq<Action>> ::
              Behaved(Run(schedule), rounds, k) ==> Run(schedule + P.Flatten(rounds)).bc.ctxDone
  {
    hide Run, P.Flatten, Free, TurnsLeft, LockFair, Polite, EndsLate;
    if Free(Run(schedule)) {
      forall k: nat, rounds: seq<seq<Action>> | Behaved(Run(schedule), rounds, k)
        ensures Run(schedule + P.Flatten(rounds)).bc.ctxDone
      {
        FinishCompletes(schedule, rounds, k);
      }
    } else {
      var k, rounds := FinishFails(schedule);
      assert Behaved(Run(schedule), rounds, k);
    }
  }

  /** Whatever the peer does, finish completes under all lock-fair schedules that are long enough if and only if the
      session is free and the peer has already ended its stream. */
  lemma EndedFinishesIff(schedule: seq<Action>)
    requires var s := Run(schedule); s.th.l.Want? || s.th.l.Holds()
    ensures Free(Run(schedule)) && Run(schedule).bc.peer.ended.Some? <==>
            forall k: nat, rounds: seq<seq<Action>> ::
              LockFair(Run(schedule), rounds, k) && |rounds| >= TurnsLeft(Run(schedule)) + 3 * k ==>
              Run(schedule + P.Flatten(rounds)).bc.ctxDone
  {
    hide Run, Step, P.Exec, P.Flatten, Free, TurnsLeft, FairRound, Disturbances, Polite, EndsLate, P.Tidy;
    var s := Run(schedule);
    if Free(s) && s.bc.peer.ended.Some? {
      forall k: nat, rounds: seq<seq<Action>>
        | LockFair(s, rounds, k) && |rounds| >= TurnsLeft(s) + 3 * k
        ensures Run(schedule + P.Flatten(rounds)).bc.ctxDone
      {
        EndedIsPolite(s, rounds);
        FinishCompletes(schedule, rounds, k);
      }
    } else if s.bc.peer.ended.None? {
      var rounds := Turns(TurnsLeft(s));
      P.TidyAlways(schedule);
      NotDoneYet(s);
      TurnsAreFair(TurnsLeft(s));
      TurnsEndNothing(s, TurnsLeft(s));
      OpenForever(s, P.Flatten(rounds));
      P.RunThenExec(schedule, P.Flatten(rounds));
      assert LockFair(s, rounds, 0);
    } else {
      var k, rounds := FinishFails(schedule);
    }
  }

  lemma {:induction false} EndedIsPolite(s: Session, rounds: seq<seq<Action>>)
    requires s.bc.peer.ended.Some?
    ensures Polite(s, rounds)
    decreases |rounds|
  {
    hide Courteous, P.Exec;
    if rounds != [] {
      EndedIsCourteous(s, rounds[0]);
      EndedIsPolite(P.Exec(s, rounds[0]), rounds[1..]);
    }
  }

  lemma {:induction false} EndedIsCourteous(s: Session, actions: seq<Action>)
    requires s.bc.peer.ended.Some?
    ensures Courteous(s, actions) && P.Exec(s, actions).bc.peer.ended.Some?
    decreases |actions|
  {
    hide Step;
    if actions != [] {
      StaysEnded(s, actions[0]);
      EndedIsCourteous(Step(s, actions[0]), actions[1..]);
    }
  }

  lemma StaysEnded(s: Session, a: Action)
    requires s.bc.peer.ended.Some?
    ensures Step(s, a).bc.peer.ended.Some?
  {
    hide HandlerStep, TransportStep, CancelStep;
    if a.ByHandler? { Growth.ByHandler(s, a.e); }
    if a.ByTransport? { E.TransportMeans(s, a.e); }
  }

  /** Once there is an outcome, or the response is being closed, no report can come: finish completes, with such a
      peer, exactly if no cancel of the controller is in the receiver's hands or unread. */
  lemma SettledFinishesIff(schedule: seq<Action>)
    requires var s := Run(schedule);
             s.th.l.Want? && (s.th.h.InClose? || (s.bc.complete.Some? && !PastReport(s.th.h) && !s.th.h.InRegister?))
    ensures (forall k: nat, rounds: seq<seq<Action>> ::
              Behaved(Run(schedule), rounds, k) ==> Run(schedule + P.Flatten(rounds)).bc.ctxDone)
            <==> !P.Doomed(Run(schedule))
  {
    hide Run, P.Doomed, Behaved;
    FinishesIff(schedule);
  }

  /** The fourth deadlock: nobody answers the registration that holds `b.m`, finish waits for it, and the peer,
      waiting for finish to close its stream, says nothing. */
  lemma SilenceBlocksFinish(schedule: seq<Action>, more: seq<Action>)
    requires var s := Run(schedule);
             && s.th.l.Want? && s.th.h == InRegister(RegisterWait)
             && s.th.r.Recv? && s.bc.peer.inbox == [] && s.bc.peer.ended.None?
    requires PeerSilent(more)
    ensures var t := Run(schedule + more); t.th.l.Want? && t.th.h.InRegister? && !t.bc.ctxDone && !t.bc.stream.closed
  {
    hide Run, Step, P.Exec, C.Inv, P.Tidy;
    var s := Run(schedule);
    C.Always(schedule);
    P.TidyAlways(schedule);
    NotDoneYet(s);
    NotClosed(s);
    NotClosedYet(s);
    LockMeans(s);
    SilenceForever(s, more);
    P.RunThenExec(schedule, more);
  }

  // ---------- who waits for ever ----------

  /** The handler waits, under `b.m`, for a reply that the receiver will not give: it has a cancel of the
      controller in hand, and waits for the loop, which waits for `b.m`. */
  ghost predicate Knotted(s: Session) {
    && s.th.l.Want? && s.th.h == InRegister(RegisterWait) && s.bc.owner.Some? && !s.bc.ctxDone && P.Tidy(s)
    && (s.th.r.Aborting() || (s.th.r.Recv? && s.bc.peer.inbox != [] && s.bc.peer.inbox[0].Abort?))
  }

  lemma KnottedStep(s: Session, a: Action)
    requires Knotted(s)
    ensures Knotted(Step(s, a))
  {
    hide TransportStep, CancelStep, P.Tidy;
    TidyKept(s, a);
    assert !s.bc.peer.chanClosed by { NotClosed(s); }
    if a.ByTransport? { E.TransportMeans(s, a.e); }
  }

  lemma NotClosed(s: Session)
    requires P.Tidy(s) && !s.th.r.REnded?
    ensures !s.bc.peer.chanClosed
  {
  }

  lemma {:induction false} KnottedForever(s: Session, actions: seq<Action>)
    requires Knotted(s)
    ensures Knotted(P.Exec(s, actions))
    decreases |actions|
  {
    hide Step, Knotted;
    if actions != [] {
      KnottedStep(s, actions[0]);
      KnottedForever(Step(s, actions[0]), actions[1..]);
    }
  }

  /** The third deadlock: registration holds `b.m`, finish waits for it, and the receiver for the loop. */
  lemma RegistrationBlocksFinish(schedule: seq<Action>, more: seq<Action>)
    requires var s := Run(schedule);
             && s.th.l.Want? && s.th.h == InRegister(RegisterWait)
             && (s.th.r.Aborting() || (s.th.r.Recv? && s.bc.peer.inbox != [] && s.bc.peer.inbox[0].Abort?))
    ensures var t := Run(schedule + more); t.th.l.Want? && t.th.h == InRegister(RegisterWait) && !t.bc.ctxDone
  {
    hide Run, Step, P.Exec, C.Inv, P.Tidy;
    C.Always(schedule);
    P.TidyAlways(schedule);
    LockMeans(Run(schedule));
    NotDoneYet(Run(schedule));
    KnottedForever(Run(schedule), more);
    P.RunThenExec(schedule, more);
  }

  /** The handler offers the loop a message, on completeChan or on done. */
  predicate Offering(h: HandlerPc) {
    PastReport(h) || (h.InClose? && h.close.DoneSend?)
  }

  /** A loop that still listens can take the offer. */
  lemma {:induction false} Heard(s: Session) returns (actions: seq<Action>)
    requires Offering(s.th.h) && s.th.l.Select?
    ensures !Offering(P.Exec(s, actions).th.h)
    decreases if s.th.h.InClose? || s.th.h.rep.Post? then 0 else if s.th.h.rep.Copy? then 1
              else if s.th.h.rep.EditError? then 2 else 3
  {
    hide P.Exec;
    if s.th.h.InClose? {
      actions := [Action.ByLoop(OnDone, GO)];
      OneStep(s, actions[0]);
    } else if s.th.h.rep.Post? {
      actions := [Action.ByLoop(OnHandler, GO)];
      OneStep(s, actions[0]);
    } else {
      var rest := Heard(Step(s, Action.ByHandler(GO)));
      actions := [Action.ByHandler(GO)] + rest;
      OneStep(s, actions[0]);
      P.ExecAppend(s, [actions[0]], rest);
    }
  }

  lemma OneStep(s: Session, a: Action)
    ensures P.Exec(s, [a]) == Step(s, a)
  {
    hide Step;
    assert [a][1..] == [];
    assert P.Exec(s, [a]) == P.Exec(Step(s, a), []);
  }

  /** A handler that offers the loop a message goes on in some continuation if and only if the loop still
      listens, that is, has not taken its last branch; otherwise it never does. For a message on done this is the
      first of the interceptor's waits; the module Interceptor decides them all. */
  lemma HeardIff(schedule: seq<Action>)
    requires Offering(Run(schedule).th.h)
    ensures Run(schedule).th.l.Select? <==> exists more :: !Offering(Run(schedule + more).th.h)
    ensures !Run(schedule).th.l.Select? ==> forall more :: Offering(Run(schedule + more).th.h)
  {
    hide Run, Step, P.Exec;
    var s := Run(schedule);
    if s.th.l.Select? {
      var more := Heard(s);
      P.RunThenExec(schedule, more);
      assert !Offering(Run(schedule + more).th.h);
    } else {
      forall more ensures Offering(Run(schedule + more).th.h) {
        P.LateSenderWaitsForever(schedule, more);
      }
    }
  }
}
