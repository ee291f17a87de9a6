/** Nothing that has been received or put on the controller's wire is ever taken back. */
module Growth {
  import opened Frames
  import opened Session
  import E = Effects

  /** `b` is `a`, or `a` with one element appended. */
  predicate OneMore<T(==)>(a: seq<T>, b: seq<T>) {
    b == a || (|b| == |a| + 1 && b[..|a|] == a)
  }

  ghost predicate Grows(s: Session, t: Session) {
    OneMore(s.bc.stream.wire, t.bc.stream.wire) && OneMore(s.bc.received, t.bc.received)
  }

  /** What the handler never touches. */
  ghost predicate Leaves(s: Session, t: Session) {
    t.th.l == s.th.l && t.th.r == s.th.r && t.bc.peer == s.bc.peer && t.bc.ctxDone == s.bc.ctxDone
    && t.bc.complete == s.bc.complete
  }

  lemma SendAdds(st: Stream<ControllerFrame>, f: ControllerFrame, ok: bool)
    ensures OneMore(st.wire, st.Send(f, ok).wire)
  {
    assert (st.wire + [f])[..|st.wire|] == st.wire;
  }

  lemma TakeAdds(b: Controller, m: Outcome)
    ensures OneMore(b.received, Take(b, m).received)
  {
    assert (b.received + [m])[..|b.received|] == b.received;
  }

  lemma NothingAdded(s: Session, t: Session)
    requires t.bc.stream.wire == s.bc.stream.wire && t.bc.received == s.bc.received
    ensures Grows(s, t)
  {
  }

  lemma ByRegister(s: Session, pc: RegisterPc, e: Env)
    ensures Grows(s, RegisterStep(s, pc, e)) && Leaves(s, RegisterStep(s, pc, e))
  {
    hide OneMore;
    SendAdds(s.bc.stream, New, e.ok);
    NothingAdded(s, s);
  }

  lemma ByRequest(s: Session, pc: RequestPc, e: Env)
    ensures Grows(s, RequestStep(s, pc, e)) && Leaves(s, RequestStep(s, pc, e))
  {
    hide OneMore;
    NothingAdded(s, s);
  }

  lemma ByResponse(s: Session, pc: ResponsePc, e: Env)
    ensures Grows(s, ResponseStep(s, pc, e)) && Leaves(s, ResponseStep(s, pc, e))
  {
    hide OneMore;
    NothingAdded(s, s);
  }

  lemma ByBody(s: Session, pc: BodyPc, e: Env)
    ensures Grows(s, BodyStep(s, pc, e)) && Leaves(s, BodyStep(s, pc, e))
  {
    hide OneMore;
    SendAdds(s.bc.stream, Data, e.ok);
    NothingAdded(s, s);
  }

  lemma ByMeta(s: Session, pc: MetaPc, e: Env)
    ensures Grows(s, MetaStep(s, pc, e)) && Leaves(s, MetaStep(s, pc, e))
  {
    hide OneMore;
    SendAdds(s.bc.stream, AllData, e.ok);
    NothingAdded(s, s);
  }

  lemma ByReport(s: Session, p: Purpose, pc: ReportPc, e: Env)
    ensures Grows(s, ReportStep(s, p, pc, e)) && Leaves(s, ReportStep(s, p, pc, e))
  {
    hide OneMore;
    NothingAdded(s, s);
  }

  lemma ByFail(s: Session, c: int, pc: FailPc, e: Env)
    ensures Grows(s, FailStep(s, c, pc, e)) && Leaves(s, FailStep(s, c, pc, e))
  {
    hide OneMore;
    SendAdds(s.bc.stream, AllData, e.ok);
    NothingAdded(s, s);
  }

  lemma ByClose(s: Session, pc: ClosePc, e: Env)
    ensures Grows(s, CloseStep(s, pc, e)) && Leaves(s, CloseStep(s, pc, e))
  {
    hide OneMore, CancelStep;
    NothingAdded(s, s);
  }

  lemma BySelect(s: Session, pick: Pick)
    ensures Grows(s, SelectStep(s, pick))
  {
    hide OneMore;
    if s.th.h.InReport? && s.th.h.rep.Post? { TakeAdds(s.bc, s.th.h.rep.msg); }
    if s.th.r.RPost? { TakeAdds(s.bc, s.th.r.msg); }
    NothingAdded(s, s);
  }

  lemma ByLoop(s: Session, pick: Pick, e: Env)
    ensures Grows(s, LoopStep(s, pick, e))
  {
    hide OneMore, SelectStep;
    if s.th.l.Select? { BySelect(s, pick); }
    SendAdds(s.bc.stream, Completed(FinalLog(s), s.rc.cached), e.ok);
    NothingAdded(s, s);
  }

  lemma ByReceiver(s: Session, e: Env)
    ensures Grows(s, ReceiverStep(s, e))
  {
    hide OneMore, CancelStep;
    NothingAdded(s, s);
  }

  lemma ByHandler(s: Session, e: Env)
    ensures Grows(s, HandlerStep(s, e)) && Leaves(s, HandlerStep(s, e))
  {
    hide OneMore, RegisterStep, RequestStep, ResponseStep, BodyStep, MetaStep, ReportStep, FailStep, CloseStep;
    match s.th.h
    case InRegister(pc) => ByRegister(s, pc, e);
    case InRequest(pc) => ByRequest(s, pc, e);
    case InResponse(pc) => ByResponse(s, pc, e);
    case InBody(pc) => ByBody(s, pc, e);
    case InMeta(pc) => ByMeta(s, pc, e);
    case InReport(p, pc) => ByReport(s, p, pc, e);
    case InFail(c, pc) => ByFail(s, c, pc, e);
    case InClose(pc) => ByClose(s, pc, e);
  }

  lemma ByStep(s: Session, a: Action)
    ensures Grows(s, Step(s, a))
  {
    hide OneMore, HandlerStep, TransportStep, LoopStep, ReceiverStep;
    match a
    case ByHandler(e) => ByHandler(s, e);
    case ByTransport(e) => E.TransportMeans(s, e); NothingAdded(s, TransportStep(s, e));
    case ByLoop(pick, e) => ByLoop(s, pick, e);
    case ByReceiver(e) => ByReceiver(s, e);
    case _ => NothingAdded(s, Step(s, a));
  }

  /** Over any continuation of a schedule, the wire and the messages received only grow. */
  lemma {:induction false} Always(schedule: seq<Action>, more: seq<Action>)
    ensures Run(schedule).bc.stream.wire <= Run(schedule + more).bc.stream.wire
    ensures Run(schedule).bc.received <= Run(schedule + more).bc.received
  {
    hide Step;
    if more == [] {
      assert schedule + more == schedule;
    } else {
      var init, last := more[..|more| - 1], more[|more| - 1];
      Always(schedule, init);
      assert (schedule + more)[..|schedule + more| - 1] == schedule + init;
      ByStep(Run(schedule + init), last);
      assert Run(schedule + more) == Step(Run(schedule + init), last);
    }
  }
}
