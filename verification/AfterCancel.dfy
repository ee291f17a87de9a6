/** Data frames do not take `c.m`: exactly when one can still reach the wire, and how many after a cancel. */
module AfterCancel {
  import opened Frames
  import opened Session
  import E = Effects
  import C = ControllerProtocol
  import Composition
  import Growth
  import Opening
  import Aborting
  import P = Progress
  import F = Finish

  /** How many header and payload frames are on the wire. */
  function DataFrames(w: seq<WriterFrame>): nat {
    if w == [] then 0 else DataFrames(w[..|w| - 1]) + if IsTerminal(w[|w| - 1]) then 0 else 1
  }

  lemma DataAppended(w: seq<WriterFrame>, f: WriterFrame)
    ensures DataFrames(w + [f]) == DataFrames(w) + if IsTerminal(f) then 0 else 1
  {
    assert (w + [f])[..|w|] == w;
  }

  function Count(s: Session): nat {
    DataFrames(s.cw.stream.wire)
  }

  /** The handler, or the transport, has passed its check of `canceled` and is about to send. */
  predicate HandlerPast(h: HandlerPc) {
    match h
    case InRequest(pc) => pc.ReqHeaderSend?
    case InResponse(pc) => pc.RespHeaderSend?
    case InBody(pc) => pc.ForwardSend?
    case _ => false
  }

  function Underway(s: Session): nat {
    if !s.cw.stream.Live() then 0
    else (if HandlerPast(s.th.h) then 1 else 0) + if s.th.t.TForwardSend? then 1 else 0
  }

  // ---------- what a step adds ----------

  /** A step after which `sent` more data frames are on the wire, and which lets no cancelled thread past its check. */
  predicate Adds(s: Session, t: Session, sent: bool) {
    && Count(t) == Count(s) + (if sent then 1 else 0)
    && (s.cw.canceled ==> t.cw.canceled) && (t.cw.stream.Live() ==> s.cw.stream.Live())
    && (s.cw.open ==> t.cw.open)
    && (HandlerPast(t.th.h) && !HandlerPast(s.th.h) ==> !s.cw.canceled)
    && (t.th.t.TForwardSend? && !s.th.t.TForwardSend? ==> !s.cw.canceled)
  }

  /** The handler's data frame, if it sends one. */
  predicate HandlerSends(s: Session, e: Env) {
    HandlerPast(s.th.h) && s.cw.stream.Live() && e.ok
  }

  lemma HandlerAdds(s: Session, e: Env)
    ensures Adds(s, HandlerStep(s, e), HandlerSends(s, e)) && (HandlerPast(s.th.h) ==> !HandlerPast(HandlerStep(s, e).th.h))
  {
    hide DataFrames, RequestStep, ResponseStep, BodyStep, MetaStep, CloseStep;
    match s.th.h
    case InRequest(pc) => RequestAdds(s, pc, e);
    case InResponse(pc) => ResponseAdds(s, pc, e);
    case InBody(pc) => BodyAdds(s, pc, e);
    case InMeta(pc) => MetaAdds(s, pc, e);
    case InClose(pc) => CloseAdds(s, pc, e);
    case _ =>
  }

  lemma RequestAdds(s: Session, pc: RequestPc, e: Env)
    requires s.th.h == InRequest(pc)
    ensures var t := RequestStep(s, pc, e); Adds(s, t, HandlerSends(s, e)) && (pc.ReqHeaderSend? ==> !HandlerPast(t.th.h))
  {
    hide DataFrames;
    if pc.ReqHeaderSend? { DataAppended(s.cw.stream.wire, Header(REQUEST, pc.prolog)); }
  }

  lemma ResponseAdds(s: Session, pc: ResponsePc, e: Env)
    requires s.th.h == InResponse(pc)
    ensures var t := ResponseStep(s, pc, e); Adds(s, t, HandlerSends(s, e)) && (pc.RespHeaderSend? ==> !HandlerPast(t.th.h))
  {
    hide DataFrames;
    if pc.RespHeaderSend? { DataAppended(s.cw.stream.wire, Header(RESPONSE, pc.prolog)); }
  }

  lemma BodyAdds(s: Session, pc: BodyPc, e: Env)
    requires s.th.h == InBody(pc)
    ensures var t := BodyStep(s, pc, e); Adds(s, t, HandlerSends(s, e)) && (pc.ForwardSend? ==> !HandlerPast(t.th.h))
  {
    hide DataFrames;
    if pc.ForwardSend? { DataAppended(s.cw.stream.wire, Payload(RESPONSE, pc.chunk.data)); }
  }

  lemma MetaAdds(s: Session, pc: MetaPc, e: Env)
    requires s.th.h == InMeta(pc)
    ensures Adds(s, MetaStep(s, pc, e), false)
  {
    hide DataFrames, MetaStep;
    E.MetaMeans(s, pc, e);
    DataAppended(s.cw.stream.wire, Meta(s.rc.meta));
  }

  lemma CloseAdds(s: Session, pc: ClosePc, e: Env)
    requires s.th.h == InClose(pc)
    ensures Adds(s, CloseStep(s, pc, e), false)
  {
    hide DataFrames, CancelStep;
    if pc.Cancelling? {
      E.CancelMeans(s.cw, pc.at, Handler, e.ok);
      Opening.CancelOpens(s.cw, pc.at, Handler, e.ok);
      DataAppended(s.cw.stream.wire, Cancel);
    }
  }

  lemma TransportAdds(s: Session, e: Env)
    ensures var t := TransportStep(s, e);
            && Adds(s, t, s.th.t.TForwardSend? && s.cw.stream.Live() && e.ok)
            && (s.th.t.TForwardSend? ==> !t.th.t.TForwardSend?) && t.th.h == s.th.h
  {
    hide DataFrames;
    if s.th.t.TForwardSend? { DataAppended(s.cw.stream.wire, Payload(REQUEST, s.th.t.chunk.data)); }
  }

  lemma ReceiverAdds(s: Session, e: Env)
    ensures Adds(s, ReceiverStep(s, e), false)
  {
    hide DataFrames, CancelStep;
    if s.th.r.RCancelling? {
      E.CancelMeans(s.cw, s.th.r.at, Receiver, e.ok);
      Opening.CancelOpens(s.cw, s.th.r.at, Receiver, e.ok);
      DataAppended(s.cw.stream.wire, Cancel);
    }
  }

  /** The step in which a data frame is transmitted. */
  predicate Sends(s: Session, a: Action) {
    || (a.ByHandler? && HandlerSends(s, a.e))
    || (a.ByTransport? && s.th.t.TForwardSend? && s.cw.stream.Live() && a.e.ok)
  }

  lemma StepAdds(s: Session, a: Action)
    ensures var t := Step(s, a);
            && Adds(s, t, Sends(s, a))
            && (a.ByHandler? && HandlerPast(s.th.h) ==> !HandlerPast(t.th.h))
            && (a.ByTransport? && s.th.t.TForwardSend? ==> !t.th.t.TForwardSend?)
  {
    hide DataFrames, HandlerStep, TransportStep, LoopStep, ReceiverStep, WatchStep, HandlerPast;
    match a
    case ByHandler(e) => HandlerAdds(s, e);
    case ByTransport(e) => TransportAdds(s, e);
    case ByLoop(pick, e) => E.LoopMeans(s, pick, e); NotPast(s.th.h, Step(s, a).th.h);
    case ByReceiver(e) => ReceiverAdds(s, e);
    case ByDisconnect(e) =>
      E.WatchMeans(s.cw, s.th.d, e.ok);
      Opening.WatchOpens(s.cw, s.th.d, e.ok);
      DataAppended(s.cw.stream.wire, Cancel);
    case _ =>
  }

  lemma NotPast(h: HandlerPc, h': HandlerPc)
    ensures h' == h || h'.InClose? ==> (HandlerPast(h') ==> HandlerPast(h))
  {
  }

  // ---------- at most two after a cancel ----------

  lemma CanceledStep(s: Session, a: Action)
    requires s.cw.canceled
    ensures var t := Step(s, a); t.cw.canceled && Count(t) + Underway(t) <= Count(s) + Underway(s)
  {
    hide Step, DataFrames, HandlerPast;
    StepAdds(s, a);
  }

  lemma {:induction false} CanceledForever(s: Session, actions: seq<Action>)
    requires s.cw.canceled
    ensures Count(P.Exec(s, actions)) <= Count(s) + Underway(s)
    decreases |actions|
  {
    hide Step, DataFrames, Underway;
    if actions != [] {
      CanceledStep(s, actions[0]);
      CanceledForever(Step(s, actions[0]), actions[1..]);
    }
  }

  const GO := Env(true, [], More, 0, false, true)

  /** Those past their check send at once, the transport first. */
  function AtOnce(s: Session): (actions: seq<Action>) {
    (if s.th.t.TForwardSend? then [ByTransport(GO)] else []) + if HandlerPast(s.th.h) then [ByHandler(GO)] else []
  }

  lemma AtOnceSends(s: Session)
    requires s.cw.stream.Live()
    ensures Count(P.Exec(s, AtOnce(s))) == Count(s) + Underway(s)
  {
    var first := if s.th.t.TForwardSend? then [ByTransport(GO)] else [];
    var second := if HandlerPast(s.th.h) then [ByHandler(GO)] else [];
    hide Step, DataFrames, HandlerPast, P.Exec;
    P.ExecAppend(s, first, second);
    F.OneStep(s, ByTransport(GO));
    StepAdds(s, ByTransport(GO));
    assert P.Exec(s, []) == s by { Nothing(s); }
    var t := P.Exec(s, first);
    if s.th.t.TForwardSend? { StaysLive(s); }
    assert P.Exec(t, []) == t by { Nothing(t); }
    F.OneStep(t, ByHandler(GO));
    StepAdds(t, ByHandler(GO));
  }

  lemma Nothing(s: Session)
    ensures P.Exec(s, []) == s
  {
  }

  lemma StaysLive(s: Session)
    requires s.cw.stream.Live() && s.th.t.TForwardSend?
    ensures Step(s, ByTransport(GO)).cw.stream.Live() && Step(s, ByTransport(GO)).th.h == s.th.h
  {
  }

  /** Once the session is marked as cancelled, the only data frames that can still reach the wire are those of
      a handler and of a transport that had passed their check before, so at most two; and they can. */
  lemma LastData(schedule: seq<Action>)
    requires Run(schedule).cw.canceled
    ensures var s := Run(schedule);
            && (forall more :: Count(Run(schedule + more)) <= Count(s) + Underway(s) <= Count(s) + 2)
            && exists more :: Count(Run(schedule + more)) == Count(s) + Underway(s)
  {
    hide Run, Step, P.Exec, DataFrames, HandlerPast;
    var s := Run(schedule);
    forall more ensures Count(Run(schedule + more)) <= Count(s) + Underway(s) {
      CanceledForever(s, more);
      P.RunThenExec(schedule, more);
    }
    var more := if s.cw.stream.Live() then AtOnce(s) else [];
    if s.cw.stream.Live() { AtOnceSends(s); } else { Nothing(s); }
    P.RunThenExec(schedule, more);
    assert Count(Run(schedule + more)) == Count(s) + Underway(s);
  }

  // ---------- who may still send ----------

  /** finish holds `b.m` and waits for ever. */
  predicate Jam(s: Session) {
    s.th.l.Holds() && P.Doomed(s)
  }

  /** The handler, not cancelled, is on its way to a data frame. */
  predicate HandlerMay(s: Session) {
    match s.th.h
    case InRequest(pc) => true
    case InResponse(pc) => pc.RoundTrip? ==> !s.rc.rcError
    case InBody(pc) => if pc.Reading? then !s.rc.cached && !Jam(s) else if pc.Notify? then !Jam(s) else true
    case _ => false
  }

  predicate TransportMay(t: TransportPc) {
    t.TReading? || t.TForward?
  }

  /** Some thread can still send a data frame. */
  predicate CanSend(s: Session) {
    && s.cw.stream.Live()
    && (HandlerPast(s.th.h) || s.th.t.TForwardSend? || (!s.cw.canceled && (HandlerMay(s) || TransportMay(s.th.t))))
  }

  /** The content writer has been opened, and no thread can send a data frame any more. */
  ghost predicate Silent(s: Session) {
    && C.Inv(s) && P.Tidy(s) && Opening.Inv(s) && s.cw.open && !CanSend(s)
  }

  lemma LoopOwns(s: Session)
    requires C.Inv(s) && s.th.l.Holds()
    ensures s.bc.owner == Some(Loop)
  {
    hide C.Scan;
  }

  lemma Opened(s: Session)
    requires Opening.Inv(s) && s.cw.open
    ensures !Opening.TooEarly(s.th.h)
  {
    hide Composition.HasHeader, Opening.OnlyCancels;
  }

  /** Nothing but a dead stream or a cancel changes for the threads that may send. */
  lemma StaysSilent(s: Session, t: Session)
    requires !CanSend(s) && (t.cw.stream.Live() ==> s.cw.stream.Live()) && (s.cw.canceled ==> t.cw.canceled)
    requires t.th.t == s.th.t && t.rc.cached == s.rc.cached && (s.rc.rcError ==> t.rc.rcError)
    requires t.th.h == s.th.h || t.th.h.InClose? || t.th.h.InFail?
    requires Jam(s) ==> Jam(t)
    ensures !CanSend(t)
  {
    hide P.Doomed;
  }

  lemma SilentHandler(s: Session, e: Env)
    requires !CanSend(s) && !Opening.TooEarly(s.th.h) && (Jam(s) ==> s.bc.owner.Some?)
    ensures !CanSend(HandlerStep(s, e))
  {
    hide RequestStep, ResponseStep, BodyStep, MetaStep, CloseStep, FailStep, ReportStep, P.Doomed;
    match s.th.h
    case InRequest(pc) => SilentRequest(s, pc, e);
    case InResponse(pc) => SilentResponse(s, pc, e);
    case InBody(pc) => SilentBody(s, pc, e);
    case InMeta(pc) => SilentMeta(s, pc, e);
    case InReport(p, pc) => SilentReport(s, p, pc, e);
    case InFail(code, pc) => SilentFail(s, code, pc, e);
    case InClose(pc) => SilentClose(s, pc, e);
  }

  lemma SilentRequest(s: Session, pc: RequestPc, e: Env)
    requires !CanSend(s) && s.th.h == InRequest(pc) && !pc.Filtering?
    ensures !CanSend(RequestStep(s, pc, e))
  {
  }

  lemma SilentResponse(s: Session, pc: ResponsePc, e: Env)
    requires !CanSend(s) && s.th.h == InResponse(pc)
    ensures !CanSend(ResponseStep(s, pc, e))
  {
  }

  lemma SilentBody(s: Session, pc: BodyPc, e: Env)
    requires !CanSend(s) && s.th.h == InBody(pc) && (Jam(s) ==> s.bc.owner.Some?)
    ensures !CanSend(BodyStep(s, pc, e))
  {
  }

  lemma SilentMeta(s: Session, pc: MetaPc, e: Env)
    requires !CanSend(s) && s.th.h == InMeta(pc)
    ensures !CanSend(MetaStep(s, pc, e))
  {
  }

  lemma SilentReport(s: Session, p: Purpose, pc: ReportPc, e: Env)
    requires !CanSend(s) && s.th.h == InReport(p, pc)
    ensures !CanSend(ReportStep(s, p, pc, e))
  {
  }

  lemma SilentFail(s: Session, code: int, pc: FailPc, e: Env)
    requires !CanSend(s) && s.th.h == InFail(code, pc)
    ensures !CanSend(FailStep(s, code, pc, e))
  {
  }

  lemma SilentClose(s: Session, pc: ClosePc, e: Env)
    requires !CanSend(s) && s.th.h == InClose(pc)
    ensures !CanSend(CloseStep(s, pc, e))
  {
    hide CancelStep;
    if pc.Cancelling? { E.CancelMeans(s.cw, pc.at, Handler, e.ok); }
  }

  lemma SilentTransport(s: Session, e: Env)
    requires !CanSend(s)
    ensures !CanSend(TransportStep(s, e))
  {
  }

  /** A jam stays one. */
  lemma JamStays(s: Session, a: Action)
    requires P.Tidy(s) && Jam(s)
    ensures Jam(Step(s, a))
  {
    hide P.Doomed, HandlerStep, TransportStep, ReceiverStep, LoopStep, SelectStep, P.Tidy;
    assert P.Stuck(s) by { JamIsStuck(s); }
    P.StuckStep(s, a);
    match a
    case ByHandler(e) => Growth.ByHandler(s, e);
    case ByTransport(e) => E.TransportMeans(s, e);
    case ByLoop(pick, e) => Aborting.JamLoop(s, pick, e);
    case ByReceiver(e) => P.StuckReceiver(s, e);
    case _ =>
  }

  lemma JamIsStuck(s: Session)
    requires P.Tidy(s) && Jam(s)
    ensures P.Stuck(s)
  {
    P.DoomedOpen(s);
    hide P.Doomed;
  }

  lemma SilentReceiver(s: Session, e: Env)
    requires !CanSend(s) && !Opening.TooEarly(s.th.h) && (Jam(s) ==> Jam(ReceiverStep(s, e)))
    ensures !CanSend(ReceiverStep(s, e))
  {
    hide CancelStep, CanSend, Jam;
    if s.th.r.RCancelling? { E.CancelMeans(s.cw, s.th.r.at, Receiver, e.ok); }
    StaysSilent(s, ReceiverStep(s, e));
  }

  lemma SilentDisconnect(s: Session, e: Env)
    requires !CanSend(s) && (Jam(s) ==> Jam(DisconnectStep(s, e)))
    ensures !CanSend(DisconnectStep(s, e))
  {
    hide WatchStep, CanSend, Jam;
    E.WatchMeans(s.cw, s.th.d, e.ok);
    StaysSilent(s, DisconnectStep(s, e));
  }

  lemma SilentStep(s: Session, a: Action)
    requires Silent(s)
    ensures Silent(Step(s, a))
  {
    hide DataFrames, C.Inv, P.Tidy, Opening.Inv, CanSend, Jam, HandlerStep, TransportStep, LoopStep, ReceiverStep,
         DisconnectStep, PeerStep;
    C.Kept(s, a);
    P.TidyStep(s, a);
    Opening.Kept(s, a);
    StepAdds(s, a);
    Opened(s);
    if Jam(s) { JamStays(s, a); JamOwned(s); }
    match a
    case ByHandler(e) => SilentHandler(s, e);
    case ByTransport(e) => SilentTransport(s, e);
    case ByLoop(pick, e) => E.LoopMeans(s, pick, e); StaysSilent(s, LoopStep(s, pick, e));
    case ByReceiver(e) => SilentReceiver(s, e);
    case ByDisconnect(e) => SilentDisconnect(s, e);
    case _ => SilentRest(s, a);
  }

  lemma JamOwned(s: Session)
    requires C.Inv(s) && Jam(s)
    ensures s.bc.owner.Some?
  {
    hide C.Inv, P.Doomed;
    LoopOwns(s);
  }

  lemma SilentRest(s: Session, a: Action)
    requires !CanSend(s) && (Jam(s) ==> Jam(Step(s, a))) && (a.PeerReplies? || a.PeerEnds? || a.ClientLeaves?)
    ensures !CanSend(Step(s, a))
  {
    hide CanSend, Jam;
    StaysSilent(s, Step(s, a));
  }

  lemma {:induction false} SilentForever(s: Session, actions: seq<Action>)
    requires Silent(s)
    ensures Count(P.Exec(s, actions)) == Count(s)
    decreases |actions|
  {
    hide Step, Silent, DataFrames;
    if actions != [] {
      SilentStep(s, actions[0]);
      StepAdds(s, actions[0]);
      SendsNothing(s, actions[0]);
      SilentForever(Step(s, actions[0]), actions[1..]);
    }
  }

  lemma SendsNothing(s: Session, a: Action)
    requires Silent(s)
    ensures !Sends(s, a)
  {
    hide C.Inv, P.Tidy, Opening.Inv, HandlerMay;
  }

  // ---------- and does ----------

  /** What brings finish on: the loop's step, the peer's end, or the receiver's step. */
  function Next(s: Session): Action {
    if P.LoopFree(s) then Action.ByLoop(OnDone, GO)
    else if P.Idle(s) then PeerEnds(Orderly)
    else Action.ByReceiver(GO)
  }

  /** finish lets go of `b.m` if no cancel of the controller keeps the receiver from ending. */
  lemma Released(s: Session) returns (actions: seq<Action>)
    requires P.Finishing(s) && P.Tidy(s)
    ensures var t := P.Exec(s, actions);
            && P.Finishing(t) && t.bc.ctxDone && t.cw == s.cw && t.th.h == s.th.h && t.th.t == s.th.t
            && t.rc.cached == s.rc.cached
    decreases P.Left(s)
  {
    hide Step, P.Exec, P.Finishing, P.Tidy, P.Left;
    if s.bc.ctxDone {
      actions := [];
      Nothing(s);
    } else {
      var a := Next(s);
      ReleaseStep(s, a);
      var rest := Released(Step(s, a));
      actions := [a] + rest;
      F.OneStep(s, a);
      P.ExecAppend(s, [a], rest);
    }
  }

  lemma ReleaseStep(s: Session, a: Action)
    requires P.Finishing(s) && P.Tidy(s) && !s.bc.ctxDone
    requires a == Next(s)
    ensures var t := Step(s, a);
            && P.Finishing(t) && P.Tidy(t) && P.Left(t) < P.Left(s)
            && t.cw == s.cw && t.th.h == s.th.h && t.th.t == s.th.t && t.rc.cached == s.rc.cached
  {
    hide C.Inv, P.Tidy, P.Left, P.LoopFree, P.Idle, LoopStep, CancelStep, P.Doomed;
    P.TidyStep(s, a);
    P.Kept(s, a);
    HoldsThen(s);
    if a.ByLoop? { LoopLeaves(s, a.e); } else if a.PeerEnds? { IdleIsOpen(s); } else { Uncancelled(s); }
  }

  lemma IdleIsOpen(s: Session)
    requires P.Idle(s)
    ensures s.bc.peer.ended.None?
  {
  }

  lemma HoldsThen(s: Session)
    requires P.Finishing(s) && !s.bc.ctxDone
    ensures s.th.l.Holds() && s.th.h != InRegister(RegisterWait)
  {
    hide C.Inv;
    P.NotWaiting(s);
  }

  lemma LoopLeaves(s: Session, e: Env)
    requires s.th.l.Holds()
    ensures var t := LoopStep(s, OnDone, e);
            t.cw == s.cw && t.th.h == s.th.h && t.th.t == s.th.t && t.rc.cached == s.rc.cached
  {
    hide SelectStep;
  }

  lemma Uncancelled(s: Session)
    requires !P.Doomed(s)
    ensures !s.th.r.Aborting()
  {
  }

  const BYTE := Env(true, [0], More, 0, false, true)

  /** How far the handler is from a data frame. */
  function Way(h: HandlerPc): nat {
    if h == InBody(Reading) then F.Rank(h) + 5 else F.Rank(h)
  }

  /** Handler steps that bring it past its check, and send. */
  lemma HandlerWill(s: Session) returns (actions: seq<Action>)
    requires s.cw.stream.Live() && !s.cw.canceled && HandlerMay(s) && !Opening.TooEarly(s.th.h)
    requires s.th.h.InBody? && (s.th.h.body.Reading? || s.th.h.body.Notify?) ==> s.bc.owner.None?
    ensures Count(P.Exec(s, actions)) > Count(s)
    decreases Way(s.th.h)
  {
    var a := Action.ByHandler(BYTE);
    hide DataFrames, P.Exec, P.Doomed, Step;
    StepAdds(s, a);
    F.OneStep(s, a);
    if HandlerPast(s.th.h) {
      actions := [a];
    } else {
      WillStep(s);
      var rest := HandlerWill(Step(s, a));
      actions := [a] + rest;
      P.ExecAppend(s, [a], rest);
    }
  }

  lemma WillStep(s: Session)
    requires s.cw.stream.Live() && !s.cw.canceled && HandlerMay(s) && !Opening.TooEarly(s.th.h) && !HandlerPast(s.th.h)
    requires s.th.h.InBody? && (s.th.h.body.Reading? || s.th.h.body.Notify?) ==> s.bc.owner.None?
    ensures var t := Step(s, Action.ByHandler(BYTE));
            && t.cw.stream.Live() && !t.cw.canceled && HandlerMay(t) && !Opening.TooEarly(t.th.h)
            && (t.th.h.InBody? && (t.th.h.body.Reading? || t.th.h.body.Notify?) ==> t.bc.owner.None?)
            && Way(t.th.h) < Way(s.th.h)
  {
  }

  /** The transport reads a byte and forwards it. */
  lemma TransportWill(s: Session) returns (actions: seq<Action>)
    requires s.cw.stream.Live() && !s.cw.canceled && TransportMay(s.th.t)
    ensures Count(P.Exec(s, actions)) > Count(s)
    decreases s.th.t.TReading?
  {
    var a := ByTransport(BYTE);
    hide DataFrames, P.Exec;
    StepAdds(s, a);
    F.OneStep(s, a);
    var t := Step(s, a);
    if s.th.t.TReading? {
      var rest := TransportWill(t);
      actions := [a] + rest;
      P.ExecAppend(s, [a], rest);
    } else {
      assert t.th.t.TForwardSend? && t.cw.stream.Live();
      actions := [a] + [a];
      F.OneStep(t, a);
      StepAdds(t, a);
      P.ExecAppend(s, [a], [a]);
    }
  }

  /** Lets finish run to its end first, if it holds `b.m`. */
  lemma LockIsFreed(s: Session) returns (actions: seq<Action>)
    requires C.Inv(s) && P.Tidy(s) && !Jam(s) && s.th.h.InBody? && !s.th.h.HoldsController()
    ensures var t := P.Exec(s, actions);
            && t.bc.owner.None? && !Jam(t) && t.cw == s.cw && t.th.h == s.th.h && t.rc.cached == s.rc.cached
  {
    hide P.Exec, P.Doomed, C.Inv, P.Tidy, P.Finishing, Step;
    actions := [];
    Nothing(s);
    if s.th.l.Holds() {
      MayFinish(s);
      actions := Released(s);
    }
    var t := P.Exec(s, actions);
    assert C.Inv(t) && !t.th.l.Holds() by { if s.th.l.Holds() { DoneHolds(t); } }
    NobodyHolds(t);
  }

  lemma MayFinish(s: Session)
    requires C.Inv(s) && P.Tidy(s) && s.th.l.Holds() && !P.Doomed(s)
    ensures P.Finishing(s)
  {
    hide C.Inv, P.Doomed;
  }

  lemma DoneHolds(s: Session)
    requires P.Finishing(s) && s.bc.ctxDone
    ensures C.Inv(s) && !s.th.l.Holds()
  {
    hide C.Inv;
  }

  lemma NobodyHolds(s: Session)
    requires C.Inv(s) && !s.th.l.Holds() && !s.th.h.HoldsController()
    ensures s.bc.owner.None? && !Jam(s)
  {
    hide C.Scan;
    var me := if s.bc.owner.Some? then s.bc.owner.value else Handler;
    assert me.Handler? || me.Loop? || me.Receiver? || me.Disconnect?;
  }

  lemma Will(s: Session) returns (actions: seq<Action>)
    requires C.Inv(s) && P.Tidy(s) && Opening.Inv(s) && s.cw.open && CanSend(s)
    ensures Count(P.Exec(s, actions)) > Count(s)
  {
    hide P.Exec, C.Inv, P.Tidy, P.Doomed, Opening.Inv, DataFrames;
    Opened(s);
    if HandlerPast(s.th.h) || s.th.t.TForwardSend? {
      actions := AtOnce(s);
      AtOnceSends(s);
    } else if TransportMay(s.th.t) {
      actions := TransportWill(s);
    } else if s.th.h.InBody? && (s.th.h.body.Reading? || s.th.h.body.Notify?) {
      var first := LockIsFreed(s);
      var rest := HandlerWill(P.Exec(s, first));
      actions := first + rest;
      P.ExecAppend(s, first, rest);
    } else {
      actions := HandlerWill(s);
    }
  }

  /** The content writer has been opened. Another data frame can reach its wire, after a Cancel frame or not,
      if and only if the stream is up and a thread has passed its check of `canceled`, or can still pass it:
      the transport with a body to read, or the handler before the end of the response, unless it has to
      notify the controller first while finish holds `b.m` for ever. */
  lemma DataFollowsIff(schedule: seq<Action>)
    requires Run(schedule).cw.open
    ensures (exists more :: Count(Run(schedule + more)) > Count(Run(schedule))) <==> CanSend(Run(schedule))
  {
    hide Run, Step, P.Exec, DataFrames, CanSend, C.Inv, P.Tidy, Opening.Inv;
    var s := Run(schedule);
    C.Always(schedule);
    P.TidyAlways(schedule);
    Opening.Always(schedule);
    if CanSend(s) {
      var more := Will(s);
      P.RunThenExec(schedule, more);
      assert Count(Run(schedule + more)) > Count(s);
    } else {
      forall more ensures Count(Run(schedule + more)) == Count(s) {
        SilentForever(s, more);
        P.RunThenExec(schedule, more);
      }
    }
  }
}
