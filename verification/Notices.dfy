/** What the two peers are told while a response is recorded, and when it counts as archived: notices to the controller,
    payload frames to the content writer, the archive's answer. */
module Notices {
  import opened Frames
  import opened Session
  import A = Aborting
  import E = Effects
  import N = Responses
  import R = Refusals
  import W = WriterProtocol

  // ---------- what happens in a run ----------

  /** A Read of a response that is recorded yields bytes. */
  predicate Reads(s: Session, a: Action) {
    a.ByHandler? && s.th.h == InBody(Reading) && !s.rc.cached && !a.e.flag && a.e.data != []
  }

  function ReadsIn(schedule: seq<Action>): nat {
    if schedule == [] then 0
    else
      var before := schedule[..|schedule| - 1];
      ReadsIn(before) + if Reads(Run(before), schedule[|schedule| - 1]) then 1 else 0
  }

  /** The archive answers the Meta frame. */
  predicate Answers(s: Session, a: Action) {
    a.ByHandler? && s.th.h == InMeta(MetaClose) && a.e.ok
  }

  function AnsweredIn(schedule: seq<Action>): bool {
    if schedule == [] then false
    else
      var before := schedule[..|schedule| - 1];
      AnsweredIn(before) || Answers(Run(before), schedule[|schedule| - 1])
  }

  function CountData(w: seq<ControllerFrame>): nat {
    if w == [] then 0 else CountData(w[..|w| - 1]) + if w[|w| - 1].Data? then 1 else 0
  }

  lemma CountAppended(w: seq<ControllerFrame>, f: ControllerFrame)
    ensures CountData(w + [f]) == CountData(w) + if f.Data? then 1 else 0
  {
    assert (w + [f])[..|w|] == w;
  }

  // ---------- the invariant ----------

  /** A Read whose notice is still to come. */
  function Due(h: HandlerPc): nat {
    if h.InBody? && (h.body.Notify? || h.body.NotifySend?) then 1 else 0
  }

  /** The controller has been told that all data has been received, if it could be told. */
  predicate AllTold(h: HandlerPc) {
    (h.InMeta? && !h.meta.NotifyAll? && !h.meta.NotifyAllSend?) || (h.InReport? && !h.p.ForSave?)
  }

  predicate Told(s: Session) {
    AllData in s.bc.stream.wire || s.bc.complete.Some? || !s.bc.stream.Live()
  }

  /** Points that the handler reaches only if none of its calls has failed. */
  predicate Smooth(h: HandlerPc) {
    match h
    case InReport(p, _) => p.ForSave?
    case InFail(_, _) => false
    case InClose(_) => false
    case _ => true
  }

  predicate NoEmpty(w: seq<WriterFrame>) {
    forall i :: 0 <= i < |w| && w[i].Payload? ==> w[i].data != []
  }

  predicate Nonempty(h: HandlerPc, t: TransportPc) {
    && (h.InBody? && !h.body.Reading? ==> h.body.chunk.data != [])
    && (t.TForward? || t.TForwardSend? ==> t.chunk.data != [])
  }

  ghost predicate Inv(s: Session, count: nat, answered: bool, failed: Option<int>) {
    && CountData(s.bc.stream.wire) + Due(s.th.h) <= count
    && (s.bc.complete.None? && s.bc.stream.Live() ==> CountData(s.bc.stream.wire) + Due(s.th.h) == count)
    && (AllTold(s.th.h) ==> Told(s))
    && (s.hist.header.Posted? || (s.th.h.InReport? && s.th.h.p.ForRequestError?) ==> AllData in s.bc.stream.wire)
    && Nonempty(s.th.h, s.th.t) && NoEmpty(s.cw.stream.wire)
    && (s.cw.acked <==> answered) && (Smooth(s.th.h) ==> failed.None?)
    && (answered ==> failed.None? && ((s.th.h.InReport? && s.th.h.p.ForSave?) || s.th.h.InClose?))
  }

  // ---------- every step keeps it ----------

  lemma SendTells(st: Stream<ControllerFrame>, f: ControllerFrame, ok: bool)
    ensures var t := st.Send(f, ok);
            && CountData(t.wire) == CountData(st.wire) + (if f.Data? && st.Live() && ok then 1 else 0)
            && (AllData in st.wire ==> AllData in t.wire)
            && (t.Live() <==> st.Live() && ok) && (f.AllData? && t.Live() ==> AllData in t.wire)
  {
    CountAppended(st.wire, f);
  }

  lemma NoEmptySent(st: Stream<WriterFrame>, f: WriterFrame, ok: bool)
    requires NoEmpty(st.wire) && (f.Payload? ==> f.data != [])
    ensures NoEmpty(st.Send(f, ok).wire)
  {
  }

  lemma ByRegister(s: Session, pc: RegisterPc, e: Env, count: nat, answered: bool, failed: Option<int>)
    requires Inv(s, count, answered, failed) && s.th.h == InRegister(pc)
    ensures Inv(RegisterStep(s, pc, e), count, answered, failed)
  {
    hide NoEmpty, CountData, Stream.Send, Stream.Live;
    SendTells(s.bc.stream, New, e.ok);
  }

  lemma ByRequest(s: Session, pc: RequestPc, e: Env, count: nat, answered: bool, failed: Option<int>)
    requires Inv(s, count, answered, failed) && s.th.h == InRequest(pc) && !pc.ReqHeaderSend?
    ensures Inv(RequestStep(s, pc, e), count, answered, R.Fail(failed, s, Action.ByHandler(e)))
  {
    hide NoEmpty, CountData, Stream.Send, Stream.Live, Told;
    Unnoticed(s, RequestStep(s, pc, e));
  }

  lemma ByReqHeader(s: Session, pc: RequestPc, e: Env, count: nat, answered: bool, failed: Option<int>)
    requires Inv(s, count, answered, failed) && s.th.h == InRequest(pc) && pc.ReqHeaderSend?
    ensures Inv(RequestStep(s, pc, e), count, answered, R.Fail(failed, s, Action.ByHandler(e)))
  {
    hide NoEmpty, CountData, Stream.Send, Stream.Live, Told, RequestStep;
    W.ReqHeaderMeans(s, pc, e);
    NoEmptySent(s.cw.stream, Header(REQUEST, pc.prolog), e.ok);
    HeaderAcksNothing(s, pc, e);
    Unnoticed(s, RequestStep(s, pc, e));
  }

  lemma HeaderAcksNothing(s: Session, pc: RequestPc, e: Env)
    requires pc.ReqHeaderSend?
    ensures RequestStep(s, pc, e).cw.acked == s.cw.acked
  {
  }

  lemma ByResponse(s: Session, pc: ResponsePc, e: Env, count: nat, answered: bool, failed: Option<int>)
    requires Inv(s, count, answered, failed) && s.th.h == InResponse(pc) && !pc.RespHeaderSend?
    ensures Inv(ResponseStep(s, pc, e), count, answered, R.Fail(failed, s, Action.ByHandler(e)))
  {
    hide NoEmpty, CountData, Stream.Send, Stream.Live, Told;
    Unnoticed(s, ResponseStep(s, pc, e));
  }

  lemma ByRespHeader(s: Session, pc: ResponsePc, e: Env, count: nat, answered: bool, failed: Option<int>)
    requires Inv(s, count, answered, failed) && s.th.h == InResponse(pc) && pc.RespHeaderSend?
    ensures Inv(ResponseStep(s, pc, e), count, answered, R.Fail(failed, s, Action.ByHandler(e)))
  {
    hide NoEmpty, CountData, Stream.Send, Stream.Live, Told;
    NoEmptySent(s.cw.stream, Header(RESPONSE, pc.prolog), e.ok);
    Unnoticed(s, ResponseStep(s, pc, e));
  }

  lemma ByReading(s: Session, e: Env, count: nat, answered: bool, failed: Option<int>)
    requires Inv(s, count, answered, failed) && s.th.h == InBody(Reading)
    ensures Inv(BodyStep(s, Reading, e), count + (if Reads(s, Action.ByHandler(e)) then 1 else 0), answered, failed)
  {
    hide NoEmpty, CountData, Stream.Send, Stream.Live, Told;
  }

  lemma ByNotify(s: Session, pc: BodyPc, e: Env, count: nat, answered: bool, failed: Option<int>)
    requires Inv(s, count, answered, failed) && s.th.h == InBody(pc) && (pc.Notify? || pc.NotifySend?)
    ensures Inv(BodyStep(s, pc, e), count, answered, failed)
  {
    hide NoEmpty, CountData, Stream.Send, Stream.Live;
    SendTells(s.bc.stream, Data, e.ok);
  }

  lemma ByForward(s: Session, pc: BodyPc, e: Env, count: nat, answered: bool, failed: Option<int>)
    requires Inv(s, count, answered, failed) && s.th.h == InBody(pc) && (pc.Forward? || pc.ForwardSend?)
    ensures Inv(BodyStep(s, pc, e), count, answered, failed)
  {
    hide NoEmpty, CountData, Stream.Send, Stream.Live, Told, AfterChunk;
    NoEmptySent(s.cw.stream, Payload(RESPONSE, pc.chunk.data), e.ok);
    var sent := SendW(s, Payload(RESPONSE, pc.chunk.data), e.ok);
    N.AfterChunkMeans(LoseResp(s), pc.chunk.res);
    N.AfterChunkMeans(if s.cw.stream.Live() && e.ok then sent else LoseResp(sent), pc.chunk.res);
    Unnoticed(s, BodyStep(s, pc, e));
  }

  lemma Unnoticed(s: Session, t: Session)
    requires t.bc == s.bc
    ensures Told(t) == Told(s)
  {
  }

  lemma ByNotifyAll(s: Session, pc: MetaPc, e: Env, count: nat, answered: bool, failed: Option<int>)
    requires Inv(s, count, answered, failed) && s.th.h == InMeta(pc) && (pc.NotifyAll? || pc.NotifyAllSend?)
    ensures Inv(MetaStep(s, pc, e), count, answered, failed)
  {
    hide NoEmpty, CountData, Stream.Send, Stream.Live;
    SendTells(s.bc.stream, AllData, e.ok);
  }

  lemma ByMeta(s: Session, pc: MetaPc, e: Env, count: nat, answered: bool, failed: Option<int>)
    requires Inv(s, count, answered, failed) && s.th.h == InMeta(pc) && !pc.NotifyAll? && !pc.NotifyAllSend?
    ensures var a := Action.ByHandler(e);
            Inv(MetaStep(s, pc, e), count, answered || Answers(s, a), R.Fail(failed, s, a))
  {
    hide NoEmpty, CountData, Stream.Send, Stream.Live, Told;
    NoEmptySent(s.cw.stream, Meta(s.rc.meta), e.ok);
    Unnoticed(s, MetaStep(s, pc, e));
  }

  lemma ByReport(s: Session, p: Purpose, pc: ReportPc, e: Env, count: nat, answered: bool, failed: Option<int>)
    requires Inv(s, count, answered, failed) && s.th.h == InReport(p, pc)
    ensures Inv(ReportStep(s, p, pc, e), count, answered, failed)
  {
    hide NoEmpty, CountData, Stream.Live;
  }

  lemma ByFail(s: Session, code: int, pc: FailPc, e: Env, count: nat, answered: bool, failed: Option<int>)
    requires Inv(s, count, answered, failed) && s.th.h == InFail(code, pc)
    ensures Inv(FailStep(s, code, pc, e), count, answered, failed)
  {
    hide NoEmpty, CountData, Stream.Send;
    SendTells(s.bc.stream, AllData, e.ok);
  }

  lemma ByClose(s: Session, pc: ClosePc, e: Env, count: nat, answered: bool, failed: Option<int>)
    requires Inv(s, count, answered, failed) && s.th.h == InClose(pc)
    ensures Inv(CloseStep(s, pc, e), count, answered, failed)
  {
    hide NoEmpty, CountData, CancelStep, Stream.Live;
    if pc.Cancelling? {
      A.CancelAcksNothing(s.cw, pc.at, Handler, e.ok);
      CancelNoEmpty(s.cw, pc.at, Handler, e.ok);
    }
  }

  lemma CancelNoEmpty(w: Writer, at: CancelPc, me: Thread, ok: bool)
    requires NoEmpty(w.stream.wire)
    ensures NoEmpty(CancelStep(w, at, me, ok).0.stream.wire)
  {
    hide NoEmpty, Stream.Send;
    NoEmptySent(w.stream, Cancel, ok);
  }

  lemma WatchNoEmpty(w: Writer, d: DisconnectPc, ok: bool)
    requires NoEmpty(w.stream.wire)
    ensures NoEmpty(WatchStep(w, d, ok).0.stream.wire)
  {
    hide NoEmpty, Stream.Send;
    NoEmptySent(w.stream, Cancel, ok);
  }

  lemma ByHandler(s: Session, e: Env, count: nat, answered: bool, failed: Option<int>)
    requires Inv(s, count, answered, failed)
    ensures var a := Action.ByHandler(e);
            Inv(HandlerStep(s, e), count + (if Reads(s, a) then 1 else 0), answered || Answers(s, a), R.Fail(failed, s, a))
  {
    hide Inv, RegisterStep, RequestStep, ResponseStep, BodyStep, MetaStep, ReportStep, FailStep, CloseStep;
    match s.th.h
    case InRegister(pc) => ByRegister(s, pc, e, count, answered, failed);
    case InRequest(pc) =>
      if pc.ReqHeaderSend? { ByReqHeader(s, pc, e, count, answered, failed); }
      else { ByRequest(s, pc, e, count, answered, failed); }
    case InResponse(pc) =>
      if pc.RespHeaderSend? { ByRespHeader(s, pc, e, count, answered, failed); }
      else { ByResponse(s, pc, e, count, answered, failed); }
    case InBody(pc) =>
      if pc.Reading? { ByReading(s, e, count, answered, failed); }
      else if pc.Notify? || pc.NotifySend? { ByNotify(s, pc, e, count, answered, failed); }
      else { ByForward(s, pc, e, count, answered, failed); }
    case InMeta(pc) =>
      if pc.NotifyAll? || pc.NotifyAllSend? { ByNotifyAll(s, pc, e, count, answered, failed); }
      else { ByMeta(s, pc, e, count, answered, failed); }
    case InReport(p, pc) => ByReport(s, p, pc, e, count, answered, failed);
    case InFail(code, pc) => ByFail(s, code, pc, e, count, answered, failed);
    case InClose(pc) => ByClose(s, pc, e, count, answered, failed);
  }

  lemma ByTransport(s: Session, e: Env, count: nat, answered: bool, failed: Option<int>)
    requires Inv(s, count, answered, failed)
    ensures Inv(TransportStep(s, e), count, answered, failed)
  {
    hide NoEmpty, CountData, Stream.Send, Stream.Live, TransportStep;
    E.TransportMeans(s, e);
    TransportNoEmpty(s, e);
  }

  lemma TransportNoEmpty(s: Session, e: Env)
    requires NoEmpty(s.cw.stream.wire) && Nonempty(s.th.h, s.th.t)
    ensures var t := TransportStep(s, e); NoEmpty(t.cw.stream.wire) && Nonempty(s.th.h, t.th.t)
  {
    hide NoEmpty, Stream.Send;
    if s.th.t.TForwardSend? { NoEmptySent(s.cw.stream, Payload(REQUEST, s.th.t.chunk.data), e.ok); }
  }

  lemma BySelect(s: Session, pick: Pick, count: nat, answered: bool, failed: Option<int>)
    requires Inv(s, count, answered, failed) && s.th.l.Select?
    ensures Inv(SelectStep(s, pick), count, answered, failed)
  {
    hide Inv;
    if pick.OnHandler? && s.th.h.InReport? && s.th.h.rep.Post? { TakesHandlers(s, count, answered, failed); }
    else { TakesOthers(s, pick, count, answered, failed); }
  }

  lemma TakesHandlers(s: Session, count: nat, answered: bool, failed: Option<int>)
    requires Inv(s, count, answered, failed) && s.th.l.Select? && s.th.h.InReport? && s.th.h.rep.Post?
    ensures Inv(SelectStep(s, OnHandler), count, answered, failed)
  {
    hide NoEmpty, CountData, Stream.Live;
  }

  lemma TakesOthers(s: Session, pick: Pick, count: nat, answered: bool, failed: Option<int>)
    requires Inv(s, count, answered, failed) && s.th.l.Select? && !(pick.OnHandler? && s.th.h.InReport? && s.th.h.rep.Post?)
    ensures Inv(SelectStep(s, pick), count, answered, failed)
  {
    hide NoEmpty, CountData, Stream.Live, Reported;
  }

  lemma ByFinish(s: Session, pick: Pick, e: Env, count: nat, answered: bool, failed: Option<int>)
    requires Inv(s, count, answered, failed) && !s.th.l.Select?
    ensures Inv(LoopStep(s, pick, e), count, answered, failed)
  {
    hide NoEmpty, CountData, Stream.Live, LoopStep, AllTold, Due, Nonempty, Smooth;
    FinishTells(s, pick, e);
  }

  lemma FinishTells(s: Session, pick: Pick, e: Env)
    requires !s.th.l.Select?
    ensures var t := LoopStep(s, pick, e);
            && t.th == s.th.(l := t.th.l) && t.cw == s.cw && t.hist == s.hist && t.bc.complete == s.bc.complete
            && CountData(t.bc.stream.wire) == CountData(s.bc.stream.wire)
            && (AllData in s.bc.stream.wire ==> AllData in t.bc.stream.wire)
            && (t.bc.stream.Live() ==> s.bc.stream.Live())
  {
    hide CountData, Stream.Send, SelectStep, LoopStep, FinalLog;
    if s.th.l.SendCompleted? {
      SendsCompleted(s, pick, e);
      SendTells(s.bc.stream, Completed(FinalLog(s), s.rc.cached), e.ok);
    } else {
      SendsNothing(s, pick, e);
    }
  }

  lemma SendsCompleted(s: Session, pick: Pick, e: Env)
    requires s.th.l.SendCompleted?
    ensures LoopStep(s, pick, e) == GoL(SendB(s, Completed(FinalLog(s), s.rc.cached), e.ok), CloseCompleted)
  {
  }

  lemma SendsNothing(s: Session, pick: Pick, e: Env)
    requires !s.th.l.Select? && !s.th.l.SendCompleted?
    ensures var t := LoopStep(s, pick, e);
            && t.th == s.th.(l := t.th.l) && t.cw == s.cw && t.hist == s.hist && t.bc.complete == s.bc.complete
            && t.bc.stream.wire == s.bc.stream.wire && (t.bc.stream.Live() ==> s.bc.stream.Live())
  {
    hide SelectStep;
  }

  lemma ByReceiver(s: Session, e: Env, count: nat, answered: bool, failed: Option<int>)
    requires Inv(s, count, answered, failed)
    ensures Inv(ReceiverStep(s, e), count, answered, failed)
  {
    hide NoEmpty, CountData, Stream.Live, ReceiverStep;
    E.ReceiverMeans(s, e);
    ReceiverTells(s, e);
  }

  lemma ReceiverTells(s: Session, e: Env)
    ensures var t := ReceiverStep(s, e);
            && t.bc == s.bc.(owner := t.bc.owner, peer := t.bc.peer) && t.cw.acked == s.cw.acked
            && (NoEmpty(s.cw.stream.wire) ==> NoEmpty(t.cw.stream.wire))
  {
    hide NoEmpty, CancelStep;
    if s.th.r.RCancelling? {
      A.CancelAcksNothing(s.cw, s.th.r.at, Receiver, e.ok);
      if NoEmpty(s.cw.stream.wire) { CancelNoEmpty(s.cw, s.th.r.at, Receiver, e.ok); }
    }
  }

  lemma Kept(s: Session, a: Action, count: nat, answered: bool, failed: Option<int>)
    requires Inv(s, count, answered, failed)
    ensures Inv(Step(s, a), count + (if Reads(s, a) then 1 else 0), answered || Answers(s, a), R.Fail(failed, s, a))
  {
    hide HandlerStep, TransportStep, SelectStep, LoopStep, ReceiverStep, WatchStep, NoEmpty, CountData, Stream.Live;
    match a
    case ByHandler(e) => ByHandler(s, e, count, answered, failed);
    case ByTransport(e) => ByTransport(s, e, count, answered, failed);
    case ByLoop(pick, e) => ByLoop(s, pick, e, count, answered, failed);
    case ByReceiver(e) => ByReceiver(s, e, count, answered, failed);
    case ByDisconnect(e) => A.CutWatch(s.cw, s.th.d, e.ok); WatchNoEmpty(s.cw, s.th.d, e.ok);
    case _ =>
  }

  lemma ByLoop(s: Session, pick: Pick, e: Env, count: nat, answered: bool, failed: Option<int>)
    requires Inv(s, count, answered, failed)
    ensures Inv(LoopStep(s, pick, e), count, answered, failed)
  {
    hide Inv, SelectStep;
    if s.th.l.Select? { BySelect(s, pick, count, answered, failed); } else { ByFinish(s, pick, e, count, answered, failed); }
  }

  lemma {:induction false} Always(schedule: seq<Action>)
    ensures Inv(Run(schedule), ReadsIn(schedule), AnsweredIn(schedule), R.Failure(schedule))
  {
    hide Step, Inv, Reads, Answers, R.Fail;
    if schedule == [] {
      Nothing();
    } else {
      var before := schedule[..|schedule| - 1];
      Always(before);
      Kept(Run(before), schedule[|schedule| - 1], ReadsIn(before), AnsweredIn(before), R.Failure(before));
    }
  }

  lemma Nothing()
    ensures Inv(Init(), 0, false, None)
  {
  }

  // ---------- what a run guarantees ----------

  /** The controller gets at most one Data notice for each Read of a recorded response that yields bytes, and exactly one
      as long as there is no outcome and its stream is up; an error that is handed over has been announced with AllData. */
  lemma OneNoticeARead(schedule: seq<Action>)
    ensures var s := Run(schedule);
            && CountData(s.bc.stream.wire) <= ReadsIn(schedule)
            && (s.bc.complete.None? && s.bc.stream.Live() && s.th.h == InBody(Reading) ==>
                  CountData(s.bc.stream.wire) == ReadsIn(schedule))
            && (s.hist.header.Posted? ==> AllData in s.bc.stream.wire)
            && (s.th.h.InMeta? && (s.th.h.meta.MetaSend? || s.th.h.meta.MetaClose?) ==>
                  AllData in s.bc.stream.wire || s.bc.complete.Some? || !s.bc.stream.Live())
  {
    hide Run, ReadsIn, AnsweredIn, R.Failure, CountData, NoEmpty;
    Always(schedule);
  }

  /** No payload frame is empty. */
  lemma PayloadsCarry(schedule: seq<Action>)
    ensures var w := Run(schedule).cw.stream.wire; forall i :: 0 <= i < |w| && w[i].Payload? ==> w[i].data != []
  {
    hide Run, ReadsIn, AnsweredIn, R.Failure, CountData;
    Always(schedule);
  }

  /** A response is archived exactly if the archive has answered the Meta frame; and then none of the handler's calls has
      failed or will. */
  lemma ArchivedIff(schedule: seq<Action>)
    ensures Run(schedule).cw.acked <==> AnsweredIn(schedule)
    ensures Run(schedule).cw.acked ==> R.Failure(schedule).None?
  {
    hide Run, ReadsIn, AnsweredIn, R.Failure, CountData, NoEmpty;
    Always(schedule);
  }
}
