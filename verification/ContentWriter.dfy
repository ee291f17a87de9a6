/** The content writer session as an object: what its methods do when they are not interrupted, keeping the
    invariant of its stream. Refinement.dfy ties the calls of handler and transport to the interleaved session. */
module ContentWriter {
  import opened Frames
  import opened Session
  import W = WriterProtocol

  // ---------- the effect of a call ----------

  /** A data frame, unless the session has been cancelled. */
  function Offered(w: Writer, f: WriterFrame, ok: bool): Writer {
    if w.canceled then w else w.(stream := w.stream.Send(f, ok))
  }

  /** SendMeta: nothing if the session was cancelled or another terminal frame has been claimed. */
  function MetaSent(w: Writer, records: map<nat, RecordMeta>, ok: bool, replied: bool): Writer {
    if w.canceled || w.gate.done then w
    else
      var tried := Try(Claim(w, Handler), Meta(records), ok);
      if w.stream.Live() && ok then CloseW(tried, replied) else LeaveW(tried)
  }

  /** CancelContentWriter. */
  function Canceled(w: Writer, me: Thread, ok: bool): Writer {
    var marked := w.(canceled := true);
    if w.gate.done then marked else CloseW(Try(Claim(marked, me), Cancel, ok), false)
  }

  /** The watcher after the client has gone; it leaves `canceled` alone. */
  function Watched(w: Writer, ok: bool): Writer {
    if w.gate.done then LeaveW(w)
    else
      var tried := Try(Claim(w, Disconnect), Cancel, ok);
      LeaveW(tried.(stream := tried.stream.CloseSend()))
  }

  // ---------- the same effects, step by step ----------

  /** Uninterrupted, the steps of CancelContentWriter have the effect of the call. */
  lemma CancelIsSteps(w: Writer, me: Thread, ok: bool)
    requires w.open && w.gate.owner.None?
    ensures var first := CancelStep(w, CStart, me, ok);
            var second := CancelStep(first.0, CLock, me, ok);
            if w.gate.done then second == (Canceled(w, me, ok), None)
            else
              var third := CancelStep(second.0, CSend, me, ok);
              first.1 == Some(CLock) && second.1 == Some(CSend) && third.1 == Some(CClose)
              && CancelStep(third.0, CClose, me, ok) == (Canceled(w, me, ok), None)
  {
  }

  /** Uninterrupted, the watcher's steps have the effect of the goroutine's body. */
  lemma WatchIsSteps(w: Writer, ok: bool)
    requires w.open && w.gate.owner.None?
    ensures var first := WatchStep(w, DWait, ok);
            var second := WatchStep(first.0, first.1, ok);
            var third := WatchStep(second.0, second.1, ok);
            if w.gate.done then third == (Watched(w, ok), DEnded)
            else
              var fourth := WatchStep(third.0, third.1, ok);
              WatchStep(fourth.0, fourth.1, ok) == (Watched(w, ok), DEnded)
  {
  }

  // ---------- the object ----------

  class CwcSession {
    var done: bool
    var canceled: bool
    var stream: Stream<WriterFrame>
    var acked: bool
    var ctxDone: bool
    ghost var tries: nat

    ghost function View(): Writer
      reads this
    {
      Writer(true, canceled, Gate(None, done, tries), stream, acked, ctxDone)
    }

    /** The invariant of the interleaved session, at a moment when no thread is inside `m`. */
    ghost predicate Valid()
      reads this
    {
      && W.OneTerminal(W.Idle, W.Idle, DWait, Gate(None, done, tries), stream, ctxDone)
      && W.Acknowledged(false, stream, acked)
    }

    constructor ()
      ensures Valid() && View() == Writer(true, false, Gate(None, false, 0), Stream([], false, false), false, false)
    {
      done, canceled, acked, ctxDone := false, false, false, false;
      stream := Stream([], false, false);
      tries := 0;
    }

    method SendProtocolHeader(rec: nat, p: seq<Byte>, ok: bool) returns (err: bool)
      requires Valid()
      modifies this
      ensures Valid() && View() == Offered(old(View()), Header(rec, p), ok)
      ensures err <==> !old(canceled) && !(old(stream).Live() && ok)
    {
      if canceled {
        return false;
      }
      err := !(stream.Live() && ok);
      W.OfferKeepsTurn(W.Idle, W.Idle, DWait, Gate(None, done, tries), stream, ctxDone, false, acked, Header(rec, p), ok);
      stream := stream.Send(Header(rec, p), ok);
    }

    method SendPayload(rec: nat, p: seq<Byte>, ok: bool) returns (err: bool)
      requires Valid()
      modifies this
      ensures Valid() && View() == Offered(old(View()), Payload(rec, p), ok)
      ensures err <==> !old(canceled) && !(old(stream).Live() && ok)
    {
      if canceled {
        return false;
      }
      err := !(stream.Live() && ok);
      W.OfferKeepsTurn(W.Idle, W.Idle, DWait, Gate(None, done, tries), stream, ctxDone, false, acked, Payload(rec, p), ok);
      stream := stream.Send(Payload(rec, p), ok);
    }

    /** `replied` says whether CloseAndRecv succeeds. There is a reply only if Meta was sent and answered. */
    method SendMeta(records: map<nat, RecordMeta>, ok: bool, replied: bool) returns (reply: bool, err: bool)
      requires Valid()
      modifies this
      ensures Valid() && View() == MetaSent(old(View()), records, ok, replied)
      ensures reply <==> !old(canceled) && !old(done) && ok && replied && old(stream).Live()
      ensures reply || err <==> !old(canceled) && !old(done)
      ensures reply ==> acked && stream.wire == old(stream.wire) + [Meta(records)] && !err
    {
      hide Terminals, HasMeta;
      reply, err := false, false;
      if canceled {
        return;
      }
      if !done {
        Appended(stream.wire, Meta(records), false);
        var sent := stream.Live() && ok;
        done := true;
        ctxDone := true;
        tries := tries + 1;
        stream := stream.Send(Meta(records), ok);
        if !sent {
          err := true;
          return;
        }
        stream := stream.CloseSend();
        reply, err := replied, !replied;
        acked := acked || replied;
      }
    }

    method CancelContentWriter(ghost me: Thread, ok: bool)
      requires Valid()
      modifies this
      ensures Valid() && View() == Canceled(old(View()), me, ok)
    {
      hide Terminals, HasMeta;
      canceled := true;
      if !done {
        Appended(stream.wire, Cancel, false);
        done := true;
        ctxDone := true;
        tries := tries + 1;
        stream := stream.Send(Cancel, ok);
        stream := stream.CloseSend();
      }
    }

    /** The goroutine that getCwcSession starts, once the client's context is done. */
    method WatchDisconnect(ok: bool)
      requires Valid()
      modifies this
      ensures Valid() && View() == Watched(old(View()), ok)
    {
      hide Terminals, HasMeta;
      if !done {
        Appended(stream.wire, Cancel, false);
        done := true;
        tries := tries + 1;
        stream := stream.Send(Cancel, ok);
        stream := stream.CloseSend();
      }
      ctxDone := true;
    }
  }
}
