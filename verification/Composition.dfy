/** A session against the checking content writer: whatever the schedule, the peer finds no fault with
    what the proxy transmits. */
module Composition {
  import opened Frames
  import opened Session
  import E = Effects
  import opened Peer
  import W = WriterProtocol
  import T = SessionTheorems

  // ---------- records are started once, before their payload ----------

  predicate HasHeader(w: seq<WriterFrame>, rec: nat) {
    exists f :: f in w && f.Header? && f.rec == rec
  }

  predicate Mentions(w: seq<WriterFrame>, rec: nat) {
    exists f :: f in w && About(f, rec)
  }

  predicate About(f: WriterFrame, rec: nat) {
    (f.Header? || f.Payload?) && f.rec == rec
  }

  /** A frame that may come after `w`. */
  predicate Fits(w: seq<WriterFrame>, f: WriterFrame, drained: bool) {
    match f
    case Header(rec, _) => !Mentions(w, rec)
    case Payload(rec, _) => HasHeader(w, rec)
    case Meta(_) => HasHeader(w, RESPONSE) && (drained ==> HasHeader(w, REQUEST))
    case Cancel => true
  }

  ghost predicate Orderly(w: seq<WriterFrame>, drained: bool) {
    forall i :: 0 <= i < |w| ==> Fits(w[..i], w[i], drained)
  }

  lemma OrderlyAppended(w: seq<WriterFrame>, f: WriterFrame, drained: bool)
    ensures Orderly(w + [f], drained) <==> Orderly(w, drained) && Fits(w, f, drained)
    ensures forall rec :: HasHeader(w + [f], rec) <==> HasHeader(w, rec) || (f.Header? && f.rec == rec)
    ensures forall rec :: Mentions(w + [f], rec) <==> Mentions(w, rec) || About(f, rec)
  {
    hide Fits;
    var v := w + [f];
    assert v[..|w|] == w && v[|w|] == f && f in v;
    assert forall i :: 0 <= i < |w| ==> v[i] == w[i] && v[..i] == w[..i];
    assert forall g :: g in v <==> g in w || g == f;
  }

  lemma NothingSent(w: seq<WriterFrame>, rec: nat)
    requires w == []
    ensures Sent(w, rec) == [] && !HasHeader(w, rec)
  {
  }

  /** What the peer counts for an orderly wire is what was sent. */
  lemma {:induction false} TallyIsSent(w: seq<WriterFrame>, drained: bool, rec: nat)
    requires Orderly(w, drained)
    ensures rec in Tally(w) <==> HasHeader(w, rec)
    ensures rec in Tally(w) ==> Tally(w)[rec] == Recording(|Sent(w, rec)|, Sent(w, rec))
    ensures !Mentions(w, rec) ==> Sent(w, rec) == []
  {
    hide Orderly, Sent, HasHeader, Mentions;
    if w == [] {
      NothingSent(w, rec);
    } else {
      var init, f := w[..|w| - 1], w[|w| - 1];
      assert w == init + [f];
      OrderlyAppended(init, f, drained);
      SentAppended(init, f, rec);
      TallyIsSent(init, drained, rec);
    }
  }

  // ---------- the invariant ----------

  /** The record has been started, or nothing more of it will reach the wire. */
  predicate Started(st: Stream<WriterFrame>, rec: nat, silenced: bool) {
    HasHeader(st.wire, rec) || !st.Live() || silenced
  }

  /** What the handler's program counter says about the response. */
  datatype ResponseStage = Unopened | Sending | Offering | Over

  function StageOf(h: HandlerPc): ResponseStage {
    match h
    case InRegister(_) => Unopened
    case InRequest(_) => Unopened
    case InResponse(_) => Unopened
    case InBody(pc) => if pc.ForwardSend? then Sending else Offering
    case InMeta(pc) => if pc.MetaClose? then Over else Offering
    case _ => Over
  }

  predicate BeforeRequest(h: HandlerPc) {
    h.InRegister? || h.InRequest?
  }

  ghost predicate RequestStarted(before: bool, t: TransportPc, st: Stream<WriterFrame>, canceled: bool, lost: bool) {
    && (before ==> !Mentions(st.wire, REQUEST) && t.TOff?)
    && (!t.TOff? ==> Started(st, REQUEST, lost && canceled && !t.TForwardSend?))
  }

  ghost predicate ResponseStarted(stage: ResponseStage, st: Stream<WriterFrame>, canceled: bool, lost: bool, cached: bool) {
    && (stage.Unopened? ==> !Mentions(st.wire, RESPONSE))
    && (stage.Sending? ==> Started(st, RESPONSE, false))
    && (stage.Offering? ==> cached || Started(st, RESPONSE, lost && canceled))
  }

  ghost predicate Inv(s: Session) {
    && Orderly(s.cw.stream.wire, s.hist.metaDrained)
    && RequestStarted(BeforeRequest(s.th.h), s.th.t, s.cw.stream, s.cw.canceled, s.hist.lostReq)
    && ResponseStarted(StageOf(s.th.h), s.cw.stream, s.cw.canceled, s.hist.lostResp, s.rc.cached)
  }

  // ---------- every step keeps it ----------

  /** A stream that may have died, or carries one more Cancel, is as good as before. */
  lemma WriterKept(s: Session, w: Writer)
    requires Inv(s)
    requires s.cw.canceled ==> w.canceled
    requires w.stream.Live() ==> s.cw.stream.Live()
    requires w.stream.wire == s.cw.stream.wire || w.stream.wire == s.cw.stream.wire + [Cancel]
    ensures Inv(WithCw(s, w))
  {
    hide HasHeader, Mentions, Orderly;
    OrderlyAppended(s.cw.stream.wire, Cancel, s.hist.metaDrained);
  }

  lemma ByRequest(s: Session, pc: RequestPc, e: Env)
    requires Inv(s) && s.th.h == InRequest(pc) && !pc.ReqHeaderSend?
    ensures Inv(RequestStep(s, pc, e))
  {
    hide HasHeader, Mentions, Orderly;
  }

  lemma ByReqHeaderSend(s: Session, pc: RequestPc, e: Env)
    requires Inv(s) && s.th.h == InRequest(pc) && pc.ReqHeaderSend?
    ensures Inv(RequestStep(s, pc, e))
  {
    hide RequestStep, HasHeader, Mentions, Orderly;
    W.ReqHeaderMeans(s, pc, e);
    OrderlyAppended(s.cw.stream.wire, Header(REQUEST, pc.prolog), s.hist.metaDrained);
  }

  lemma ByResponse(s: Session, pc: ResponsePc, e: Env)
    requires Inv(s) && s.th.h == InResponse(pc) && !pc.RespHeaderSend?
    ensures Inv(ResponseStep(s, pc, e))
  {
    hide HasHeader, Mentions, Orderly;
  }

  lemma ByRespHeaderSend(s: Session, pc: ResponsePc, e: Env)
    requires Inv(s) && s.th.h == InResponse(pc) && pc.RespHeaderSend?
    ensures Inv(ResponseStep(s, pc, e))
  {
    hide ResponseStep, HasHeader, Mentions, Orderly;
    W.RespHeaderMeans(s, pc, e);
    OrderlyAppended(s.cw.stream.wire, Header(RESPONSE, pc.prolog), s.hist.metaDrained);
  }

  lemma AfterChunkMeans(u: Session, res: ReadResult)
    ensures var t := AfterChunk(u, res);
            && t.cw == u.cw && t.hist == u.hist && t.rc.cached == u.rc.cached && t.th.t == u.th.t
            && (StageOf(t.th.h).Offering? || StageOf(t.th.h).Over?) && !BeforeRequest(t.th.h)
  {
  }

  lemma ByBody(s: Session, pc: BodyPc, e: Env)
    requires Inv(s) && s.th.h == InBody(pc) && (s.rc.cached ==> pc.Reading?) && !pc.Forward? && !pc.ForwardSend?
    ensures Inv(BodyStep(s, pc, e))
  {
    hide HasHeader, Mentions, Orderly, AfterChunk;
    AfterChunkMeans(s, e.res);
  }

  lemma ByForward(s: Session, pc: BodyPc, e: Env)
    requires Inv(s) && s.th.h == InBody(pc) && !s.rc.cached && (pc.Forward? || pc.ForwardSend?)
    ensures Inv(BodyStep(s, pc, e))
  {
    hide HasHeader, Mentions, Orderly, AfterChunk;
    var f := Payload(RESPONSE, pc.chunk.data);
    var sent := SendW(s, f, e.ok);
    OrderlyAppended(s.cw.stream.wire, f, s.hist.metaDrained);
    AfterChunkMeans(LoseResp(s), pc.chunk.res);
    AfterChunkMeans(if s.cw.stream.Live() && e.ok then sent else LoseResp(sent), pc.chunk.res);
  }

  lemma ByMeta(s: Session, pc: MetaPc, e: Env)
    requires Inv(s) && s.th.h == InMeta(pc) && !pc.MetaSend?
    ensures Inv(MetaStep(s, pc, e))
  {
    hide HasHeader, Mentions, Orderly;
  }

  lemma ByMetaSend(s: Session, pc: MetaPc, e: Env)
    requires Inv(s) && W.Inv(s) && s.th.h == InMeta(pc) && pc.MetaSend?
    ensures Inv(MetaStep(s, pc, e))
  {
    hide W.Inv, Mentions, Orderly, Fits, RequestStarted, Started;
    NoMetaYet(s, pc);
    OrderlyAgain(s.cw.stream.wire, s.hist.metaDrained, pc.drained);
    OrderlyAppended(s.cw.stream.wire, Meta(s.rc.meta), pc.drained);
    if s.cw.stream.Live() { MetaFits(s, pc); }
    MetaKeepsRequest(s.th.t, s.cw.stream, s.cw.canceled, s.hist.lostReq, s.rc.meta, e.ok);
  }

  lemma MetaFits(s: Session, pc: MetaPc)
    requires Inv(s) && W.Inv(s) && s.th.h == InMeta(pc) && pc.MetaSend? && s.cw.stream.Live()
    ensures Fits(s.cw.stream.wire, Meta(s.rc.meta), pc.drained)
  {
    hide W.Inv, HasHeader, Mentions, Orderly;
    NoMetaYet(s, pc);
  }

  lemma MetaKeepsRequest(t: TransportPc, st: Stream<WriterFrame>, canceled: bool, lost: bool, records: map<nat, RecordMeta>, ok: bool)
    requires RequestStarted(false, t, st, canceled, lost)
    ensures RequestStarted(false, t, st.Send(Meta(records), ok), canceled, lost)
  {
    hide HasHeader;
    OrderlyAppended(st.wire, Meta(records), false);
  }

  lemma OrderlyAgain(w: seq<WriterFrame>, drained: bool, drained': bool)
    requires Orderly(w, drained) && !HasMeta(w)
    ensures Orderly(w, drained')
  {
    forall i | 0 <= i < |w| ensures Fits(w[..i], w[i], drained') {
      assert w[i] in w && Fits(w[..i], w[i], drained);
    }
  }

  /** What SendMeta knows when it is about to send. */
  lemma NoMetaYet(s: Session, pc: MetaPc)
    requires W.Inv(s) && s.th.h == InMeta(pc) && pc.MetaSend?
    ensures !HasMeta(s.cw.stream.wire) && !s.rc.cached
    ensures s.cw.stream.Live() ==> !s.hist.lostResp && (pc.drained ==> s.th.t.TEof? && !s.hist.lostReq)
  {
    hide Frames.Sent, Faithful;
  }

  lemma ByTransport(s: Session, e: Env)
    requires Inv(s) && !s.th.t.TForwardSend?
    ensures Inv(TransportStep(s, e))
  {
    hide HasHeader, Mentions, Orderly, BeforeRequest, StageOf;
  }

  lemma ByTForwardSend(s: Session, e: Env)
    requires Inv(s) && s.th.t.TForwardSend?
    ensures Inv(TransportStep(s, e))
  {
    hide HasHeader, Mentions, Orderly, BeforeRequest, StageOf;
    OrderlyAppended(s.cw.stream.wire, Payload(REQUEST, s.th.t.chunk.data), s.hist.metaDrained);
  }

  lemma ByReport(s: Session, p: Purpose, pc: ReportPc, e: Env)
    requires Inv(s) && s.th.h == InReport(p, pc)
    ensures Inv(ReportStep(s, p, pc, e))
  {
    hide HasHeader, Mentions, Orderly, Started;
  }

  lemma ByFail(s: Session, code: int, pc: FailPc, e: Env)
    requires Inv(s) && s.th.h == InFail(code, pc)
    ensures Inv(FailStep(s, code, pc, e))
  {
    hide HasHeader, Mentions, Orderly, Started;
  }

  lemma ByClose(s: Session, pc: ClosePc, e: Env)
    requires Inv(s) && s.th.h == InClose(pc)
    ensures Inv(CloseStep(s, pc, e))
  {
    hide HasHeader, Mentions, Orderly, Started, CancelStep;
    if pc.Cancelling? {
      E.CancelMeans(s.cw, pc.at, Handler, e.ok);
      WriterKept(s, CancelStep(s.cw, pc.at, Handler, e.ok).0);
    }
  }

  lemma ByRegister(s: Session, pc: RegisterPc, e: Env)
    requires Inv(s) && s.th.h == InRegister(pc)
    ensures Inv(RegisterStep(s, pc, e))
  {
    hide HasHeader, Mentions, Orderly, Started;
  }

  lemma KeptByHandler(s: Session, e: Env)
    requires Inv(s) && W.Inv(s)
    ensures Inv(HandlerStep(s, e))
  {
    hide Inv, RegisterStep, RequestStep, ResponseStep, BodyStep, MetaStep, ReportStep, FailStep, CloseStep;
    match s.th.h
    case InRegister(pc) => ByRegister(s, pc, e);
    case InRequest(pc) => if pc.ReqHeaderSend? { ByReqHeaderSend(s, pc, e); } else { ByRequest(s, pc, e); }
    case InResponse(pc) => if pc.RespHeaderSend? { ByRespHeaderSend(s, pc, e); } else { ByResponse(s, pc, e); }
    case InBody(pc) =>
      CachedReads(s);
      if pc.Forward? || pc.ForwardSend? { ByForward(s, pc, e); } else { ByBody(s, pc, e); }
    case InMeta(pc) => if pc.MetaSend? { ByMetaSend(s, pc, e); } else { ByMeta(s, pc, e); }
    case InClose(pc) => ByClose(s, pc, e);
    case InReport(p, pc) => ByReport(s, p, pc, e);
    case InFail(code, pc) => ByFail(s, code, pc, e);
  }

  lemma CachedReads(s: Session)
    requires W.Inv(s) && s.th.h.InBody?
    ensures s.rc.cached ==> s.th.h.body.Reading?
  {
    hide Frames.Sent, Faithful;
  }

  lemma ByLoop(s: Session, pick: Pick, e: Env)
    requires Inv(s)
    ensures Inv(LoopStep(s, pick, e))
  {
    hide LoopStep, HasHeader, Mentions, Orderly, Started;
    E.LoopMeans(s, pick, e);
  }

  lemma ByReceiver(s: Session, e: Env)
    requires Inv(s) && !s.th.r.RCancelling?
    ensures Inv(ReceiverStep(s, e))
  {
    hide ReceiverStep, HasHeader, Mentions, Orderly, Started;
    E.ReceiverMeans(s, e);
  }

  lemma ByReceiverCancel(s: Session, e: Env)
    requires Inv(s) && s.th.r.RCancelling?
    ensures Inv(ReceiverStep(s, e))
  {
    hide HasHeader, Mentions, Orderly, Started, StageOf, BeforeRequest, CancelStep;
    E.CancelMeans(s.cw, s.th.r.at, Receiver, e.ok);
    WriterKept(s, CancelStep(s.cw, s.th.r.at, Receiver, e.ok).0);
  }

  lemma ByDisconnect(s: Session, e: Env)
    requires Inv(s)
    ensures Inv(DisconnectStep(s, e))
  {
    hide HasHeader, Mentions, Orderly, Started, WatchStep;
    E.WatchMeans(s.cw, s.th.d, e.ok);
    WriterKept(s, WatchStep(s.cw, s.th.d, e.ok).0);
  }

  lemma Kept(s: Session, a: Action)
    requires Inv(s) && W.Inv(s)
    ensures Inv(Step(s, a))
  {
    hide W.Inv, HasHeader, Mentions, Orderly, Started, HandlerStep, TransportStep, LoopStep, ReceiverStep,
         DisconnectStep;
    match a
    case ByHandler(e) => KeptByHandler(s, e);
    case ByTransport(e) => if s.th.t.TForwardSend? { ByTForwardSend(s, e); } else { ByTransport(s, e); }
    case ByLoop(pick, e) => ByLoop(s, pick, e);
    case ByReceiver(e) => if s.th.r.RCancelling? { ByReceiverCancel(s, e); } else { ByReceiver(s, e); }
    case ByDisconnect(e) => ByDisconnect(s, e);
    case _ =>
  }

  lemma {:induction false} Always(schedule: seq<Action>)
    ensures Inv(Run(schedule))
  {
    hide Step, W.Inv;
    if schedule != [] {
      var init := schedule[..|schedule| - 1];
      Always(init);
      W.Always(init);
      hide Inv;
      Kept(Run(init), schedule[|schedule| - 1]);
    }
  }

  // ---------- the peer's verdict on a session ----------

  /** The peer never panics, and the only record it can find fault with is the request, and only if the
      request body was not at EOF when SendMeta began. */
  lemma PeerAgrees(schedule: seq<Action>, i: nat)
    requires i < |Run(schedule).cw.stream.wire|
    ensures var s := Run(schedule);
            var t, f := Tally(s.cw.stream.wire[..i]), s.cw.stream.wire[i];
            && !Unstarted(t, f)
            && forall rec :: SizeFault(t, f, rec) || DigestFault(t, f, rec) ==> rec == REQUEST && !s.hist.metaDrained
  {
    hide Tally, Sent, HasHeader, Mentions, Run, Inv, Orderly;
    var s := Run(schedule);
    var w, drained := s.cw.stream.wire, s.hist.metaDrained;
    var before, f := w[..i], w[i];
    OrderlyRun(schedule);
    OrderlyPrefix(w, i, drained);
    TallyIsSent(before, drained, REQUEST);
    TallyIsSent(before, drained, RESPONSE);
    if f.Payload? {
      TallyIsSent(before, drained, f.rec);
    } else if f.Meta? {
      T.MetaIsFaithful(schedule, i);
    }
  }

  lemma OrderlyRun(schedule: seq<Action>)
    ensures Orderly(Run(schedule).cw.stream.wire, Run(schedule).hist.metaDrained)
  {
    Always(schedule);
  }

  lemma OrderlyPrefix(w: seq<WriterFrame>, i: nat, drained: bool)
    requires Orderly(w, drained) && i < |w|
    ensures Orderly(w[..i], drained) && Fits(w[..i], w[i], drained)
  {
    assert forall j :: 0 <= j < i ==> w[..i][..j] == w[..j];
  }

  lemma AllFramesSound(schedule: seq<Action>)
    requires Run(schedule).hist.metaDrained || !HasMeta(Run(schedule).cw.stream.wire)
    ensures var w := Run(schedule).cw.stream.wire; AllSound(w, |w|, false)
  {
    hide Run, Tally;
    var w := Run(schedule).cw.stream.wire;
    forall i | 0 <= i < |w| ensures Sound(w, i, false) {
      PeerAgrees(schedule, i);
      assert w[i] in w;
      var t := Tally(w[..i]);
      if w[i].Meta? {
        forall rec | rec in w[i].records
          ensures w[i].records[rec] == RecordMeta(SizeOf(t, rec), DigestOf(t, rec))
        {
          assert !SizeFault(t, w[i], rec) && !DigestFault(t, w[i], rec);
        }
      }
    }
  }

  lemma {:induction false} RepliesWith(w: seq<WriterFrame>, d: Digest)
    requires forall f :: f in w && f.Meta? ==> RESPONSE in f.records && f.records[RESPONSE].digest == d
    ensures HasMeta(w) <==> RESPONSE in Replies(w)
    ensures HasMeta(w) ==> Replies(w)[RESPONSE] == d
  {
    if w != [] {
      var init, f := w[..|w| - 1], w[|w| - 1];
      assert w == init + [f];
      RepliesWith(init, d);
    }
  }

  lemma {:induction false} SomeTerminal(w: seq<WriterFrame>)
    requires Terminals(w) > 0
    ensures HasMeta(w) || HasCancel(w)
  {
    if w != [] {
      var init, f := w[..|w| - 1], w[|w| - 1];
      assert w == init + [f];
      if !IsTerminal(f) { SomeTerminal(init); }
    }
  }

  /** A stream that is closed without a failed send carries a Meta or a Cancel. */
  lemma ClosedIsTerminated(schedule: seq<Action>)
    requires Run(schedule).cw.stream.closed && !Run(schedule).cw.stream.broken
    ensures HasMeta(Run(schedule).cw.stream.wire) || HasCancel(Run(schedule).cw.stream.wire)
  {
    W.Always(schedule);
    SomeTerminal(Run(schedule).cw.stream.wire);
  }

  /** The verdict of the server method on any session whose request body was drained before SendMeta:
      it accepts every stream that ends in order, and answers Meta with the digest of what was sent. */
  lemma PeerAccepts(schedule: seq<Action>, v: Verdict, eof: bool)
    requires Right(v, Run(schedule).cw.stream.wire, eof, false)
    requires Run(schedule).hist.metaDrained || !HasMeta(Run(schedule).cw.stream.wire)
    requires eof ==> Run(schedule).cw.stream.closed && !Run(schedule).cw.stream.broken
    ensures var w := Run(schedule).cw.stream.wire;
            if eof then
              && v.Accepted?
              && (HasMeta(w) ==> RESPONSE in v.reply && v.reply[RESPONSE] == Sha1(Sent(w, RESPONSE)))
            else v.Disconnected?
  {
    hide Run, Tally, Replies, Sent;
    var w := Run(schedule).cw.stream.wire;
    AllFramesSound(schedule);
    NeverStopped(w, v, eof);
    if eof {
      ClosedIsTerminated(schedule);
      forall f | f in w && f.Meta?
        ensures RESPONSE in f.records && f.records[RESPONSE].digest == Sha1(Sent(w, RESPONSE))
      {
        var i :| 0 <= i < |w| && w[i] == f;
        T.MetaIsFaithful(schedule, i);
      }
      RepliesWith(w, Sha1(Sent(w, RESPONSE)));
    }
  }

  lemma NeverStopped(w: seq<WriterFrame>, v: Verdict, eof: bool)
    requires AllSound(w, |w|, false) && Right(v, w, eof, false)
    ensures if eof then v.Accepted? || v.MissingMetadata? else v.Disconnected?
  {
    hide Tally, Replies;
    forall i | 0 <= i < |w|
      ensures var t := Tally(w[..i]);
              !Unstarted(t, w[i]) && forall rec :: !SizeFault(t, w[i], rec) && !DigestFault(t, w[i], rec)
    {
      assert Sound(w, i, false);
    }
  }
}
