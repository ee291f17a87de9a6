/** Record 0 in a Meta frame: exactly when it describes the request, and what the peer makes of it. */
module Describing {
  import opened Frames
  import opened Session
  import E = Effects
  import opened Peer
  import W = WriterProtocol
  import Composition
  import Opening

  // ---------- the invariant ----------

  /** The record is filled in at EOF and not before. */
  predicate Filled(t: TransportPc, meta: map<nat, RecordMeta>) {
    t.TEof? || REQUEST !in meta || meta[REQUEST] == RecordMeta(0, Unset)
  }

  /** A chunk on its way is not empty. */
  predicate Pending(t: TransportPc) {
    t.TForward? || t.TForwardSend? ==> t.chunk.data != []
  }

  function PendingSize(t: TransportPc): nat {
    if t.TForward? || t.TForwardSend? then |t.chunk.data| else 0
  }

  /** Past SendMeta's check, what was lost of the request is missing on a live wire. */
  ghost predicate Missing(h: HandlerPc, t: TransportPc, st: Stream<WriterFrame>, req: Recording, lost: bool) {
    h.InMeta? && (h.meta.MetaLock? || h.meta.MetaSend?) && lost ==>
      !st.Live() || |Sent(st.wire, REQUEST)| + PendingSize(t) < |req.hashed|
  }

  ghost predicate Inv(s: Session) {
    && Filled(s.th.t, s.rc.meta) && Pending(s.th.t)
    && Missing(s.th.h, s.th.t, s.cw.stream, s.rc.req, s.hist.lostReq)
  }

  // ---------- every step keeps it ----------

  lemma TerminalSame(w: seq<WriterFrame>)
    ensures Sent(w + [Cancel], REQUEST) == Sent(w, REQUEST)
  {
    SentAppended(w, Cancel, REQUEST);
    assert Sent(w, REQUEST) + [] == Sent(w, REQUEST);
  }

  /** The handler leaves the transport's record alone, except where it starts it. */
  lemma HandlerMeans(s: Session, e: Env)
    requires !s.th.h.InMeta? && !s.th.h.InBody? && !s.th.h.InRequest?
    ensures var t := HandlerStep(s, e);
            && t.th.t == s.th.t && (REQUEST in t.rc.meta <==> REQUEST in s.rc.meta)
            && (REQUEST in s.rc.meta ==> t.rc.meta[REQUEST] == s.rc.meta[REQUEST]) && !t.th.h.InMeta?
  {
    hide CancelStep;
  }

  lemma ByRequest(s: Session, pc: RequestPc, e: Env)
    requires Inv(s) && s.th.h == InRequest(pc) && (pc.Filtering? || pc.ReqHeader? || pc.ReqHeaderSend? ==> s.th.t.TOff?)
    ensures Inv(RequestStep(s, pc, e))
  {
    hide Sent;
  }

  lemma ByBody(s: Session, pc: BodyPc, e: Env)
    requires Inv(s) && s.th.h == InBody(pc)
    ensures Inv(BodyStep(s, pc, e))
  {
    hide Sent, AfterChunk;
    BodyMeans(s, e.res);
    if pc.Forward? || pc.ForwardSend? {
      var sent := SendW(s, Payload(RESPONSE, pc.chunk.data), e.ok);
      BodyMeans(LoseResp(s), pc.chunk.res);
      BodyMeans(if s.cw.stream.Live() && e.ok then sent else LoseResp(sent), pc.chunk.res);
    }
  }

  lemma BodyMeans(u: Session, res: ReadResult)
    ensures var t := AfterChunk(u, res);
            && t.th.t == u.th.t && t.rc.meta == u.rc.meta
            && (t.th.h.InMeta? ==> t.th.h.meta.NotifyAll?)
  {
  }

  lemma ByMeta(s: Session, pc: MetaPc, e: Env)
    requires Inv(s) && s.th.h == InMeta(pc)
    requires pc.MetaCheck? && s.hist.lostReq ==> s.cw.canceled || !s.cw.stream.Live()
    ensures Inv(MetaStep(s, pc, e))
  {
    hide Sent;
  }

  lemma LostMeans(s: Session)
    requires W.Inv(s)
    ensures s.hist.lostReq ==> s.cw.canceled || !s.cw.stream.Live()
    ensures s.th.h.InRegister? || s.th.h.InRequest? ==> s.th.t.TOff?
  {
    hide Frames.Sent, Terminals, HasMeta, OnlyRequest, Faithful;
  }

  lemma ByHandler(s: Session, e: Env)
    requires Inv(s) && W.Inv(s)
    ensures Inv(HandlerStep(s, e))
  {
    hide W.Inv, Sent, RegisterStep, RequestStep, ResponseStep, BodyStep, MetaStep, ReportStep, FailStep, CloseStep;
    LostMeans(s);
    match s.th.h
    case InRequest(pc) => ByRequest(s, pc, e);
    case InBody(pc) => ByBody(s, pc, e);
    case InMeta(pc) => ByMeta(s, pc, e);
    case _ => HandlerMeans(s, e);
  }

  lemma ByTransport(s: Session, e: Env)
    requires Inv(s) && !s.th.t.TForward? && !s.th.t.TForwardSend?
    ensures Inv(TransportStep(s, e))
  {
    hide Sent;
  }

  lemma ByForward(s: Session, e: Env)
    requires Inv(s) && W.Inv(s) && s.th.t.TForward?
    ensures Inv(TransportStep(s, e))
  {
    hide Sent, W.Inv;
    if !s.hist.lostReq && s.th.h.InMeta? { NothingLost(s); }
  }

  lemma ByForwardSend(s: Session, e: Env)
    requires Inv(s) && W.Inv(s) && s.th.t.TForwardSend?
    ensures Inv(TransportStep(s, e))
  {
    hide Sent, W.Inv;
    if !s.hist.lostReq && s.th.h.InMeta? { NothingLost(s); }
    SentAppended(s.cw.stream.wire, Payload(REQUEST, s.th.t.chunk.data), REQUEST);
  }

  lemma NothingLost(s: Session)
    requires W.Inv(s) && !s.hist.lostReq && s.th.h.InMeta?
    ensures |Sent(s.cw.stream.wire, REQUEST)| + PendingSize(s.th.t) == |s.rc.req.hashed|
  {
    hide Terminals, HasMeta, OnlyRequest, Faithful, Frames.Sent;
  }

  lemma ByLoop(s: Session, pick: Pick, e: Env)
    requires Inv(s)
    ensures Inv(LoopStep(s, pick, e))
  {
    hide Sent, LoopStep;
    E.LoopMeans(s, pick, e);
  }

  lemma ByReceiver(s: Session, e: Env)
    requires Inv(s)
    ensures Inv(ReceiverStep(s, e))
  {
    hide Sent, ReceiverStep;
    TerminalSame(s.cw.stream.wire);
    E.ReceiverMeans(s, e);
  }

  lemma ByDisconnect(s: Session, e: Env)
    requires Inv(s)
    ensures Inv(DisconnectStep(s, e))
  {
    hide Sent, WatchStep;
    TerminalSame(s.cw.stream.wire);
    E.WatchMeans(s.cw, s.th.d, e.ok);
  }

  lemma Kept(s: Session, a: Action)
    requires Inv(s) && W.Inv(s)
    ensures Inv(Step(s, a))
  {
    hide W.Inv, Sent, Filled, Pending, Missing, HandlerStep, TransportStep, LoopStep, ReceiverStep, DisconnectStep;
    match a
    case ByHandler(e) => ByHandler(s, e);
    case ByTransport(e) =>
      if s.th.t.TForwardSend? { ByForwardSend(s, e); }
      else if s.th.t.TForward? { ByForward(s, e); }
      else { ByTransport(s, e); }
    case ByLoop(pick, e) => ByLoop(s, pick, e);
    case ByReceiver(e) => ByReceiver(s, e);
    case ByDisconnect(e) => ByDisconnect(s, e);
    case _ =>
  }

  lemma {:induction false} Always(schedule: seq<Action>)
    ensures Inv(Run(schedule))
  {
    hide Step, W.Inv;
    if schedule != [] {
      var init := schedule[..|schedule| - 1];
      Always(init);
      W.Always(init);
      hide Inv;
      Kept(Run(init), schedule[|schedule| - 1]);
    }
  }

  // ---------- the moment at which Meta is sent ----------

  /** The step in which Meta reaches the wire. */
  predicate SendsMeta(s: Session, a: Action) {
    a.ByHandler? && a.e.ok && s.cw.stream.Live() && s.th.h.InMeta? && s.th.h.meta.MetaSend?
  }

  /** The request body has been read to its end, and none of it has been lost to a cancel. */
  predicate Drained(s: Session) {
    s.th.t.TEof? && !s.hist.lostReq
  }

  /** A Meta frame describes the request exactly if, when it is sent, the body is drained. */
  lemma DescribesIff(s: Session, a: Action)
    requires Inv(s) && W.Inv(s) && SendsMeta(s, a)
    ensures REQUEST in s.rc.meta
    ensures s.rc.meta[REQUEST] == MetaOf(Sent(s.cw.stream.wire, REQUEST)) <==> Drained(s)
    ensures !s.th.t.TEof? ==> s.rc.meta[REQUEST] == RecordMeta(0, Unset)
  {
    hide Terminals, HasMeta, OnlyRequest, Faithful, Frames.Sent;
    var sent := Sent(s.cw.stream.wire, REQUEST);
    assert sent + [] == sent;
  }

  /** Every Meta frame on a wire was sent in such a step, on the wire as it was before it. */
  lemma {:induction false} MetaWasSent(schedule: seq<Action>, i: nat) returns (n: nat)
    requires i < |Run(schedule).cw.stream.wire| && Run(schedule).cw.stream.wire[i].Meta?
    ensures n < |schedule| && SendsMeta(Run(schedule[..n]), schedule[n])
    ensures Run(schedule[..n]).cw.stream.wire == Run(schedule).cw.stream.wire[..i]
    ensures Run(schedule).cw.stream.wire[i].records == Run(schedule[..n]).rc.meta
  {
    hide Step, SendsMeta;
    var init, last := schedule[..|schedule| - 1], schedule[|schedule| - 1];
    OneFrame(Run(init), last);
    var w := Run(init).cw.stream.wire;
    if i < |w| {
      n := MetaWasSent(init, i);
      assert init[..n] == schedule[..n];
    } else {
      n := |schedule| - 1;
    }
  }

  predicate OneMore(w: seq<WriterFrame>, v: seq<WriterFrame>) {
    v == w || (|v| == |w| + 1 && v[..|w|] == w)
  }

  /** A step appends at most one frame, and a Meta only where Meta is sent. */
  lemma OneFrame(s: Session, a: Action)
    ensures var w, v := s.cw.stream.wire, Step(s, a).cw.stream.wire;
            && OneMore(w, v)
            && (|v| > |w| && v[|w|].Meta? ==> SendsMeta(s, a) && v[|w|].records == s.rc.meta)
  {
    hide HandlerStep, TransportStep, LoopStep, ReceiverStep, WatchStep;
    match a
    case ByHandler(e) => HandlerFrame(s, e);
    case ByTransport(e) => TransportFrame(s, e);
    case ByLoop(pick, e) => E.LoopMeans(s, pick, e);
    case ByReceiver(e) => ReceiverFrame(s, e);
    case ByDisconnect(e) => E.WatchMeans(s.cw, s.th.d, e.ok);
    case _ =>
  }

  lemma HandlerFrame(s: Session, e: Env)
    ensures var w, v := s.cw.stream.wire, HandlerStep(s, e).cw.stream.wire;
            && OneMore(w, v)
            && (|v| > |w| && v[|w|].Meta? ==> SendsMeta(s, Action.ByHandler(e)) && v[|w|].records == s.rc.meta)
  {
    hide BodyStep, CancelStep, RequestStep, ResponseStep, MetaStep;
    match s.th.h
    case InRequest(pc) => RequestFrame(s, pc, e);
    case InResponse(pc) => ResponseFrame(s, pc, e);
    case InBody(pc) => BodyFrame(s, pc, e);
    case InMeta(pc) => MetaFrame(s, pc, e);
    case InClose(pc) => if pc.Cancelling? { E.CancelMeans(s.cw, pc.at, Handler, e.ok); }
    case _ =>
  }

  lemma RequestFrame(s: Session, pc: RequestPc, e: Env)
    ensures var w, v := s.cw.stream.wire, RequestStep(s, pc, e).cw.stream.wire;
            OneMore(w, v) && (|v| > |w| ==> !v[|w|].Meta?)
  {
  }

  lemma ResponseFrame(s: Session, pc: ResponsePc, e: Env)
    ensures var w, v := s.cw.stream.wire, ResponseStep(s, pc, e).cw.stream.wire;
            OneMore(w, v) && (|v| > |w| ==> !v[|w|].Meta?)
  {
  }

  lemma BodyFrame(s: Session, pc: BodyPc, e: Env)
    ensures var w, v := s.cw.stream.wire, BodyStep(s, pc, e).cw.stream.wire;
            OneMore(w, v) && (|v| > |w| ==> !v[|w|].Meta?)
  {
  }

  lemma MetaFrame(s: Session, pc: MetaPc, e: Env)
    requires s.th.h == InMeta(pc)
    ensures var w, v := s.cw.stream.wire, MetaStep(s, pc, e).cw.stream.wire;
            && OneMore(w, v)
            && (|v| > |w| && v[|w|].Meta? ==> SendsMeta(s, Action.ByHandler(e)) && v[|w|].records == s.rc.meta)
  {
    if !pc.MetaSend? { MetaLeavesWire(s, pc, e); }
    hide LeaveW, CloseW, Claim;
  }

  lemma MetaLeavesWire(s: Session, pc: MetaPc, e: Env)
    requires !pc.MetaSend?
    ensures MetaStep(s, pc, e).cw.stream.wire == s.cw.stream.wire
  {
  }

  lemma TransportFrame(s: Session, e: Env)
    ensures var w, v := s.cw.stream.wire, TransportStep(s, e).cw.stream.wire;
            OneMore(w, v) && (|v| > |w| ==> !v[|w|].Meta?)
  {
  }

  lemma ReceiverFrame(s: Session, e: Env)
    ensures var w, v := s.cw.stream.wire, ReceiverStep(s, e).cw.stream.wire;
            OneMore(w, v) && (|v| > |w| ==> !v[|w|].Meta?)
  {
    hide CancelStep;
    if s.th.r.RCancelling? { E.CancelMeans(s.cw, s.th.r.at, Receiver, e.ok); }
  }

  /** Over all runs: a Meta frame gives the request's size and digest exactly if the request body was drained
      when the frame was sent. */
  lemma RequestDescribedIff(schedule: seq<Action>, i: nat) returns (n: nat)
    requires i < |Run(schedule).cw.stream.wire| && Run(schedule).cw.stream.wire[i].Meta?
    ensures n < |schedule| && SendsMeta(Run(schedule[..n]), schedule[n])
    ensures Run(schedule[..n]).cw.stream.wire == Run(schedule).cw.stream.wire[..i]
    ensures var w := Run(schedule).cw.stream.wire;
            && REQUEST in w[i].records
            && (w[i].records[REQUEST] == MetaOf(Sent(w[..i], REQUEST)) <==> Drained(Run(schedule[..n])))
  {
    hide Run, W.Inv, Inv, Sent;
    n := MetaWasSent(schedule, i);
    Always(schedule[..n]);
    W.Always(schedule[..n]);
    DescribesIff(Run(schedule[..n]), schedule[n]);
  }

  lemma {:induction false} WireGrows(schedule: seq<Action>, more: seq<Action>)
    ensures Run(schedule).cw.stream.wire <= Run(schedule + more).cw.stream.wire
  {
    hide Step;
    if more == [] {
      assert schedule + more == schedule;
    } else {
      var init, last := more[..|more| - 1], more[|more| - 1];
      WireGrows(schedule, init);
      assert (schedule + more)[..|schedule + more| - 1] == schedule + init;
      OneFrame(Run(schedule + init), last);
    }
  }

  /** A Meta frame stays where it was sent. */
  lemma FrameStays(schedule: seq<Action>, n: nat)
    requires n < |schedule| && SendsMeta(Run(schedule[..n]), schedule[n])
    ensures var before, w := Run(schedule[..n]).cw.stream.wire, Run(schedule).cw.stream.wire;
            |before| < |w| && w[..|before|] == before && w[|before|] == Meta(Run(schedule[..n]).rc.meta)
  {
    hide Step;
    var s := Run(schedule[..n]);
    var before := s.cw.stream.wire;
    assert schedule[..n + 1][..n] == schedule[..n];
    assert Run(schedule[..n + 1]) == Step(s, schedule[n]);
    hide Run;
    SentMeta(s, schedule[n]);
    assert schedule == schedule[..n + 1] + schedule[n + 1..];
    WireGrows(schedule[..n + 1], schedule[n + 1..]);
  }

  lemma SentMeta(s: Session, a: Action)
    requires SendsMeta(s, a)
    ensures Step(s, a).cw.stream.wire == s.cw.stream.wire + [Meta(s.rc.meta)]
  {
  }

  /** The peer finds fault with a Meta frame exactly if the request body was not drained when it was sent. */
  lemma PeerFaultIff(schedule: seq<Action>, n: nat)
    requires n < |schedule| && SendsMeta(Run(schedule[..n]), schedule[n])
    ensures var i, w := |Run(schedule[..n]).cw.stream.wire|, Run(schedule).cw.stream.wire;
            i < |w| && w[i].Meta? && (Sound(w, i, false) <==> Drained(Run(schedule[..n])))
  {
    hide Run, Sent, Tally, W.Inv, Inv;
    FrameStays(schedule, n);
    var i, w := |Run(schedule[..n]).cw.stream.wire|, Run(schedule).cw.stream.wire;
    Always(schedule[..n]);
    W.Always(schedule[..n]);
    DescribesIff(Run(schedule[..n]), schedule[n]);
    Opening.Always(schedule[..n]);
    HeaderThen(Run(schedule[..n]), schedule[n]);
    Composition.OrderlyRun(schedule);
    Composition.OrderlyPrefix(w, i, Run(schedule).hist.metaDrained);
    Composition.TallyIsSent(w[..i], Run(schedule).hist.metaDrained, REQUEST);
    Composition.PeerAgrees(schedule, i);
    var t, f := Tally(w[..i]), w[i];
    assert RecordMeta(SizeOf(t, REQUEST), DigestOf(t, REQUEST)) == MetaOf(Sent(w[..i], REQUEST));
    forall rec | rec in f.records && rec != REQUEST
      ensures f.records[rec] == RecordMeta(SizeOf(t, rec), DigestOf(t, rec))
    {
      assert !SizeFault(t, f, rec) && !DigestFault(t, f, rec);
    }
  }

  lemma HeaderThen(s: Session, a: Action)
    requires Opening.Inv(s) && SendsMeta(s, a)
    ensures Composition.HasHeader(s.cw.stream.wire, REQUEST)
  {
    hide Composition.HasHeader, Opening.OnlyCancels;
  }

  /** The verdict of the server on the stream of any run: a mismatch exactly if a Meta was sent while the
      request body was not drained. */
  lemma VerdictIff(schedule: seq<Action>, v: Verdict, eof: bool)
    requires Right(v, Run(schedule).cw.stream.wire, eof, false)
    ensures v.SizeMismatch? || v.DigestMismatch? <==>
            exists n :: 0 <= n < |schedule| && SendsUndrained(Run(schedule[..n]), schedule[n])
  {
    hide Run, Sent, Tally, Replies, Step, Drained;
    var w := Run(schedule).cw.stream.wire;
    if v.SizeMismatch? || v.DigestMismatch? {
      var i := Fault(w, v, eof);
      var n := MetaWasSent(schedule, i);
      PeerFaultIff(schedule, n);
      assert SendsUndrained(Run(schedule[..n]), schedule[n]);
    }
    if n :| 0 <= n < |schedule| && SendsUndrained(Run(schedule[..n]), schedule[n]) {
      PeerFaultIff(schedule, n);
      MismatchFor(schedule, v, eof, |Run(schedule[..n]).cw.stream.wire|);
    }
  }

  predicate SendsUndrained(s: Session, a: Action) {
    SendsMeta(s, a) && !Drained(s)
  }

  lemma Fault(w: seq<WriterFrame>, v: Verdict, eof: bool) returns (i: nat)
    requires Right(v, w, eof, false) && (v.SizeMismatch? || v.DigestMismatch?)
    ensures i < |w| && w[i].Meta? && !Sound(w, i, false)
  {
    hide Tally;
    if v.SizeMismatch? {
      var j, rec :| 0 <= j < |w| && SizeFault(Tally(w[..j]), w[j], rec);
      FaultIsUnsound(w, j, rec);
      i := j;
    } else {
      var j, rec :| 0 <= j < |w| && DigestFault(Tally(w[..j]), w[j], rec);
      FaultIsUnsound(w, j, rec);
      i := j;
    }
  }

  lemma FaultIsUnsound(w: seq<WriterFrame>, j: nat, rec: nat)
    requires j < |w| && (SizeFault(Tally(w[..j]), w[j], rec) || DigestFault(Tally(w[..j]), w[j], rec))
    ensures w[j].Meta? && !Sound(w, j, false)
  {
    hide Tally;
    var t := Tally(w[..j]);
    assert w[j].records[rec] != RecordMeta(SizeOf(t, rec), DigestOf(t, rec));
  }

  lemma MismatchFor(schedule: seq<Action>, v: Verdict, eof: bool, i: nat)
    requires Right(v, Run(schedule).cw.stream.wire, eof, false)
    requires i < |Run(schedule).cw.stream.wire| && !Sound(Run(schedule).cw.stream.wire, i, false)
    ensures v.SizeMismatch? || v.DigestMismatch?
  {
    hide Run, Tally, Replies;
    var w := Run(schedule).cw.stream.wire;
    assert !AllSound(w, |w|, false);
    forall j | 0 <= j < |w| ensures !Unstarted(Tally(w[..j]), w[j]) {
      Composition.PeerAgrees(schedule, j);
    }
  }
}
