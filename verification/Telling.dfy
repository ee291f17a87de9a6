/** What the client is told, over all the ways in which SendRequestError can return. */
module Telling {
  import opened Frames
  import opened Session
  import E = Effects
  import C = ControllerProtocol
  import T = SessionTheorems

  // ---------- the invariant ----------

  /** The handler has not yet written its error into the log, and has handed nothing over. */
  predicate Unedited(h: HandlerPc, received: seq<Outcome>) {
    (h.InClose? ==> received == []) && !(h.InReport? && (h.rep.Copy? || h.rep.Post?))
  }

  predicate Cancels(m: Outcome) {
    m.err == Some(CANCELED_BY_BROWSER)
  }

  ghost predicate AllCancel(received: seq<Outcome>) {
    forall i :: 0 <= i < |received| ==> Cancels(received[i])
  }

  ghost predicate AllSayCanceled(received: seq<Outcome>) {
    forall i :: 0 <= i < |received| ==> received[i].log.error == CANCELED_BY_BROWSER
  }

  /** The receiver's messages, and what reaches the loop before the handler's own message. */
  ghost predicate Foreign(closing: bool, unedited: bool, r: ReceiverPc, received: seq<Outcome>, error: int) {
    && (r.RPost? ==> Cancels(r.msg))
    && (!closing ==> AllCancel(received))
    && (unedited ==>
          && AllSayCanceled(received)
          && (r.RCopy? ==> error == CANCELED_BY_BROWSER)
          && (r.RPost? ==> r.msg.log.error == CANCELED_BY_BROWSER))
  }

  /** An early header repeats the controller's cancel; a header that was not sent on is no outcome's. */
  ghost predicate Header(header: ErrorHeader, received: seq<Outcome>) {
    && (header.Early? ==>
          header.code == CANCELED_BY_BROWSER && received != [] && Cancels(received[0])
          && received[0].log.error == CANCELED_BY_BROWSER)
    && (header.Unsent? ==> header.code == RUNTIME_EXCEPTION && AllCancel(received))
  }

  ghost predicate Inv(s: Session) {
    && Foreign(s.th.h.InClose?, Unedited(s.th.h, s.bc.received), s.th.r, s.bc.received, s.rc.log.error)
    && Header(s.hist.header, s.bc.received)
    && (!s.hist.header.NoHeader? ==> s.th.h.InClose?)
    && s.bc.complete == (if s.bc.received == [] then None else Some(s.bc.received[0]))
  }

  // ---------- every step keeps it ----------

  lemma ByRegister(s: Session, pc: RegisterPc, e: Env)
    requires Inv(s) && s.th.h == InRegister(pc)
    ensures Inv(RegisterStep(s, pc, e))
  {
    hide AllCancel, AllSayCanceled;
  }

  lemma ByRequest(s: Session, pc: RequestPc, e: Env)
    requires Inv(s) && s.th.h == InRequest(pc)
    ensures Inv(RequestStep(s, pc, e))
  {
    hide AllCancel, AllSayCanceled;
  }

  lemma ByResponse(s: Session, pc: ResponsePc, e: Env)
    requires Inv(s) && s.th.h == InResponse(pc)
    ensures Inv(ResponseStep(s, pc, e))
  {
    hide AllCancel, AllSayCanceled;
  }

  lemma ByBody(s: Session, pc: BodyPc, e: Env)
    requires Inv(s) && s.th.h == InBody(pc)
    ensures Inv(BodyStep(s, pc, e))
  {
    hide AllCancel, AllSayCanceled, AfterChunk;
    C.AfterChunkMeans(s, e.res);
    if pc.Forward? || pc.ForwardSend? {
      var sent := SendW(s, Payload(RESPONSE, pc.chunk.data), e.ok);
      C.AfterChunkMeans(LoseResp(s), pc.chunk.res);
      C.AfterChunkMeans(if s.cw.stream.Live() && e.ok then sent else LoseResp(sent), pc.chunk.res);
    }
  }

  lemma ByMeta(s: Session, pc: MetaPc, e: Env)
    requires Inv(s) && s.th.h == InMeta(pc)
    ensures Inv(MetaStep(s, pc, e))
  {
    hide AllCancel, AllSayCanceled;
  }

  lemma ByReport(s: Session, p: Purpose, pc: ReportPc, e: Env)
    requires Inv(s) && s.th.h == InReport(p, pc)
    ensures Inv(ReportStep(s, p, pc, e))
  {
    hide AllCancel, AllSayCanceled;
  }

  lemma ByFail(s: Session, code: int, pc: FailPc, e: Env)
    requires Inv(s) && s.th.h == InFail(code, pc)
    ensures Inv(FailStep(s, code, pc, e))
  {
    if s.bc.complete.Some? { assert Cancels(s.bc.received[0]); }
    hide AllCancel;
  }

  lemma ByClose(s: Session, pc: ClosePc, e: Env)
    requires Inv(s) && s.th.h == InClose(pc)
    ensures Inv(CloseStep(s, pc, e))
  {
    hide AllCancel, AllSayCanceled, CancelStep;
  }

  lemma ByHandler(s: Session, e: Env)
    requires Inv(s)
    ensures Inv(HandlerStep(s, e))
  {
    hide Inv, RegisterStep, RequestStep, ResponseStep, BodyStep, MetaStep, ReportStep, FailStep, CloseStep;
    match s.th.h
    case InRegister(pc) => ByRegister(s, pc, e);
    case InRequest(pc) => ByRequest(s, pc, e);
    case InResponse(pc) => ByResponse(s, pc, e);
    case InBody(pc) => ByBody(s, pc, e);
    case InMeta(pc) => ByMeta(s, pc, e);
    case InReport(p, pc) => ByReport(s, p, pc, e);
    case InFail(code, pc) => ByFail(s, code, pc, e);
    case InClose(pc) => ByClose(s, pc, e);
  }

  lemma Added(received: seq<Outcome>, m: Outcome)
    ensures AllCancel(received + [m]) <==> AllCancel(received) && Cancels(m)
    ensures AllSayCanceled(received + [m]) <==> AllSayCanceled(received) && m.log.error == CANCELED_BY_BROWSER
  {
    var all := received + [m];
    assert all[|received|] == m && forall i :: 0 <= i < |received| ==> all[i] == received[i];
  }

  lemma BySelect(s: Session, pick: Pick)
    requires Inv(s) && s.th.l.Select?
    ensures Inv(SelectStep(s, pick))
  {
    if s.th.r.RPost? { Added(s.bc.received, s.th.r.msg); }
    hide AllCancel, AllSayCanceled;
  }

  lemma ByLoop(s: Session, pick: Pick, e: Env)
    requires Inv(s) && !s.th.l.Select?
    ensures Inv(LoopStep(s, pick, e))
  {
    hide AllCancel, AllSayCanceled, SelectStep;
  }

  lemma ByReceiver(s: Session, e: Env)
    requires Inv(s) && !s.th.r.Recv? && !s.th.r.Deliver? && !s.th.r.DeliverLast?
    ensures Inv(ReceiverStep(s, e))
  {
    hide AllCancel, AllSayCanceled, CancelStep, Offer, RecvStep, Header;
  }

  lemma ByRecv(s: Session, e: Env)
    requires Inv(s) && s.th.r.Recv?
    ensures Inv(ReceiverStep(s, e))
  {
    hide AllCancel, AllSayCanceled, Header, CancelStep, Offer;
  }

  lemma ByOffer(s: Session, e: Env)
    requires Inv(s) && (s.th.r.Deliver? || s.th.r.DeliverLast?)
    ensures Inv(ReceiverStep(s, e))
  {
    hide AllCancel, AllSayCanceled, CancelStep, RecvStep, Header;
  }

  lemma Kept(s: Session, a: Action)
    requires Inv(s)
    ensures Inv(Step(s, a))
  {
    hide Foreign, Header, HandlerStep, TransportStep, SelectStep, ReceiverStep, WatchStep;
    match a
    case ByHandler(e) => ByHandler(s, e);
    case ByTransport(e) => E.TransportMeans(s, e);
    case ByLoop(pick, e) => if s.th.l.Select? { BySelect(s, pick); } else { ByLoop(s, pick, e); }
    case ByReceiver(e) =>
      if s.th.r.Recv? { ByRecv(s, e); }
      else if s.th.r.Deliver? || s.th.r.DeliverLast? { ByOffer(s, e); }
      else { ByReceiver(s, e); }
    case _ =>
  }

  lemma {:induction false} Always(schedule: seq<Action>)
    ensures Inv(Run(schedule))
  {
    hide Step;
    if schedule != [] {
      Always(schedule[..|schedule| - 1]);
      hide Inv;
      Kept(Run(schedule[..|schedule| - 1]), schedule[|schedule| - 1]);
    }
  }

  // ---------- what the client is told ----------

  /** The client's code is the outcome's. */
  predicate Told(s: Session) {
    !s.hist.header.NoHeader? && s.bc.complete.Some? && s.bc.complete.value.err == Some(s.hist.header.code)
  }

  /** The loop takes the handler's error, and has had no outcome yet. */
  predicate WinsWith(s: Session, a: Action) {
    HandsOver(s, a) && s.bc.complete.None?
  }

  /** The loop takes the error of SendRequestError. */
  predicate HandsOver(s: Session, a: Action) {
    && a.ByLoop? && a.pick.OnHandler? && s.th.l.Select?
    && s.th.h.InReport? && s.th.h.rep.Post? && s.th.h.p.ForRequestError?
  }

  lemma HeaderStep(s: Session, a: Action)
    requires Inv(s)
    ensures var t := Step(s, a);
            && (!s.hist.header.NoHeader? ==> t.hist.header == s.hist.header)
            && (t.hist.header.Posted? && s.hist.header.NoHeader? ==>
                  HandsOver(s, a) && t.hist.header.code == s.th.h.p.code)
  {
    hide Foreign, Header, TransportStep, ReceiverStep, WatchStep, HandlerStep;
    match a
    case ByHandler(e) => HandlerHeader(s, e);
    case ByTransport(e) => E.TransportMeans(s, e);
    case ByReceiver(e) => ReceiverHeader(s, e);
    case _ =>
  }

  lemma HandlerHeader(s: Session, e: Env)
    ensures var t := HandlerStep(s, e);
            && (s.th.h.InClose? ==> t.hist.header == s.hist.header)
            && (t.hist.header.Posted? ==> s.hist.header.Posted?)
  {
    hide CancelStep, RegisterStep, RequestStep, ResponseStep, BodyStep, MetaStep;
    match s.th.h
    case InRegister(pc) => RegisterHeader(s, pc, e);
    case InRequest(pc) => RequestHeader(s, pc, e);
    case InResponse(pc) => ResponseHeader(s, pc, e);
    case InBody(pc) => BodyHeader(s, pc, e);
    case InMeta(pc) => MetaHeader(s, pc, e);
    case _ =>
  }

  lemma RegisterHeader(s: Session, pc: RegisterPc, e: Env)
    ensures RegisterStep(s, pc, e).hist.header == s.hist.header
  {
  }

  lemma RequestHeader(s: Session, pc: RequestPc, e: Env)
    ensures RequestStep(s, pc, e).hist.header == s.hist.header
  {
  }

  lemma ResponseHeader(s: Session, pc: ResponsePc, e: Env)
    ensures ResponseStep(s, pc, e).hist.header == s.hist.header
  {
  }

  lemma MetaHeader(s: Session, pc: MetaPc, e: Env)
    ensures MetaStep(s, pc, e).hist.header == s.hist.header
  {
  }

  lemma BodyHeader(s: Session, pc: BodyPc, e: Env)
    requires s.th.h == InBody(pc)
    ensures BodyStep(s, pc, e).hist.header == s.hist.header
  {
  }

  lemma ReceiverHeader(s: Session, e: Env)
    ensures ReceiverStep(s, e).hist.header == s.hist.header
  {
    hide CancelStep;
  }

  /** Once it is set the header never changes. */
  lemma {:induction false} HeaderStays(schedule: seq<Action>, more: seq<Action>)
    requires !Run(schedule).hist.header.NoHeader?
    ensures Run(schedule + more).hist.header == Run(schedule).hist.header
  {
    hide Step, Inv;
    if more == [] {
      assert schedule + more == schedule;
    } else {
      var init, last := more[..|more| - 1], more[|more| - 1];
      HeaderStays(schedule, init);
      assert (schedule + more)[..|schedule + more| - 1] == schedule + init;
      Always(schedule + init);
      HeaderStep(Run(schedule + init), last);
    }
  }

  /** A header of a posted error comes from the step in which the loop took it. */
  lemma {:induction false} PostedWhen(schedule: seq<Action>) returns (n: nat)
    requires Run(schedule).hist.header.Posted?
    ensures n < |schedule| && HandsOver(Run(schedule[..n]), schedule[n])
    ensures Run(schedule[..n]).th.h.p.code == Run(schedule).hist.header.code
  {
    hide Step, Inv;
    var init, last := schedule[..|schedule| - 1], schedule[|schedule| - 1];
    Always(init);
    HeaderStep(Run(init), last);
    if Run(init).hist.header.NoHeader? {
      n := |schedule| - 1;
    } else {
      n := PostedWhen(init);
      assert init[..n] == schedule[..n];
    }
  }

  /** When the loop takes the error of SendRequestError, that error is what the client is told. It is the
      outcome too, from then on and in every continuation, exactly if no outcome had come first, or if it
      is the controller's cancel, which is all that can have come first. */
  lemma ToldTheOutcomeIff(schedule: seq<Action>, e: Env, more: seq<Action>)
    requires HandsOver(Run(schedule), Action.ByLoop(OnHandler, e))
    ensures var s, t := Run(schedule), Run(schedule + [Action.ByLoop(OnHandler, e)]);
            var u, code := Run(schedule + [Action.ByLoop(OnHandler, e)] + more), s.th.h.p.code;
            && t.hist.header == Posted(code) && u.hist.header == Posted(code) && u.bc.complete.Some?
            && (u.bc.complete.value.err == Some(code) <==> s.bc.complete.None? || code == CANCELED_BY_BROWSER)
  {
    hide Step;
    var next := schedule + [Action.ByLoop(OnHandler, e)];
    assert next[..|next| - 1] == schedule;
    Always(schedule);
    C.Always(schedule);
    TakesError(Run(schedule), e);
    hide Run;
    T.FirstOutcomeWins(next, more);
    T.FirstOutcomeWins(next, []);
    assert next + [] == next;
    HeaderStays(next, more);
    if Run(schedule).bc.received != [] { assert Cancels(Run(schedule).bc.received[0]); }
  }

  lemma TakesError(s: Session, e: Env)
    requires HandsOver(s, Action.ByLoop(OnHandler, e)) && C.Inv(s) && Inv(s)
    ensures var t := Step(s, Action.ByLoop(OnHandler, e));
            && t.hist.header == Posted(s.th.h.p.code) && t.bc.received == s.bc.received + [s.th.h.rep.msg]
            && s.th.h.rep.msg.err == Some(s.th.h.p.code)
  {
    hide C.Scan;
  }

  lemma TakenIff(schedule: seq<Action>, n: nat)
    requires n < |schedule| && HandsOver(Run(schedule[..n]), schedule[n])
    ensures var s := Run(schedule[..n]);
            && Run(schedule).hist.header == Posted(s.th.h.p.code)
            && (Told(Run(schedule)) <==> WinsWith(s, schedule[n]) || s.th.h.p.code == CANCELED_BY_BROWSER)
  {
    hide Run, Step;
    var a, more := schedule[n], schedule[n + 1..];
    assert a == Action.ByLoop(OnHandler, a.e);
    assert schedule == schedule[..n] + [a] + more;
    ToldTheOutcomeIff(schedule[..n], a.e, more);
  }

  /** Over all exits of SendRequestError: the client's code is the outcome's if and only if the error had
      already been decided when it was asked for, or the loop took the handler's error as the first message,
      or that error is the controller's cancel itself. In particular an error that was not handed over is
      never the outcome. */
  lemma ClientIsToldIff(schedule: seq<Action>)
    requires !Run(schedule).hist.header.NoHeader?
    ensures var header := Run(schedule).hist.header;
            Told(Run(schedule)) <==>
              match header
              case Early(_) => true
              case Posted(code) =>
                code == CANCELED_BY_BROWSER
                || exists n :: 0 <= n < |schedule| && WinsWith(Run(schedule[..n]), schedule[n])
              case _ => false
  {
    hide Run, Step;
    Always(schedule);
    if Run(schedule).hist.header.Posted? {
      var n := PostedWhen(schedule);
      TakenIff(schedule, n);
      forall m | 0 <= m < |schedule| && WinsWith(Run(schedule[..m]), schedule[m])
        ensures Told(Run(schedule))
      {
        TakenIff(schedule, m);
      }
    } else if Run(schedule).bc.received != [] && Run(schedule).hist.header.Unsent? {
      assert Cancels(Run(schedule).bc.received[0]);
    }
  }

  /** What Completed carries. An early header: the controller's cancel, in the error field. A posted one: the
      code in status and error, unless the controller cancels. One that was not handed over: not its code, as
      an error, in any outcome; Completed reports the controller's cancel or, without an outcome, -5011. */
  lemma CompletedTells(schedule: seq<Action>, cl: CrawlLog, cached: bool)
    requires Completed(cl, cached) in Run(schedule).bc.stream.wire
    ensures var s := Run(schedule);
            match s.hist.header
            case Early(code) => code == CANCELED_BY_BROWSER && cl.error == code
            case Posted(code) => !s.hist.aborted ==> cl.status == code && cl.error == code
            case Unsent(code) =>
              && code == RUNTIME_EXCEPTION
              && if s.bc.complete.Some? then s.bc.complete.value.err == Some(CANCELED_BY_BROWSER)
                 else cl.error == CANCELED_BY_BROWSER
            case NoHeader => true
  {
    hide Run;
    Always(schedule);
    T.ClientIsTold(schedule);
    T.FirstOutcomeWins(schedule, []);
    assert schedule + [] == schedule;
    var s := Run(schedule);
    if s.hist.header.Unsent? && s.bc.received != [] { assert Cancels(s.bc.received[0]); }
  }

  // ---------- an error that has been decided ----------

  /** The handler asks for an error that has been decided, or has been answered with it. */
  predicate Settles(s: Session, decided: int) {
    && s.bc.complete.Some? && s.bc.complete.value.err == Some(decided)
    && ((s.th.h.InFail? && s.th.h.fail.Fail? && s.hist.header.NoHeader?) || (s.th.h.InClose? && s.hist.header == Early(decided)))
  }

  lemma SettlesStep(s: Session, a: Action, decided: int)
    requires Settles(s, decided)
    ensures Settles(Step(s, a), decided)
  {
    hide TransportStep, CancelStep;
    if a.ByTransport? { E.TransportMeans(s, a.e); }
  }

  /** If there is an error already when SendRequestError looks, the client is told that one, in every continuation in
      which it is told at all, and no other is handed over. */
  lemma {:induction false} DecidedIsTold(schedule: seq<Action>, more: seq<Action>, decided: int)
    requires Settles(Run(schedule), decided)
    ensures Settles(Run(schedule + more), decided)
    decreases |more|
  {
    hide Step, Settles;
    if more == [] {
      assert schedule + more == schedule;
    } else {
      var init := more[..|more| - 1];
      DecidedIsTold(schedule, init, decided);
      assert (schedule + more)[..|schedule + more| - 1] == schedule + init;
      SettlesStep(Run(schedule + init), more[|more| - 1], decided);
    }
  }
}
