/** The browser controller session as an object, for callers that are not interrupted: what its methods do
    to the session and to the log. Refinement.dfy ties these effects to the steps of the interleaved session. */
module BrowserController {
  import opened Frames
  import opened Session

  // ---------- the effect of a call ----------

  /** notifyDataReceived: refused once there is an outcome. */
  function Notified(b: Controller, f: ControllerFrame, ok: bool): Controller {
    if b.complete.Some? then b else b.(stream := b.stream.Send(f, ok))
  }

  /** SaveCrawlLog. */
  function Saved(b: Controller, log: CrawlLog): Controller {
    if b.complete.Some? then b else Take(b, Outcome(log, None))
  }

  function WithError(log: CrawlLog, code: int): CrawlLog {
    log.(status := code, error := code)
  }

  /** SendResponseError: the log takes the error before it is copied. */
  function ResponseFailed(b: Controller, log: CrawlLog, code: int): (Controller, CrawlLog) {
    if b.complete.Some? then (b, log) else (Take(b, Outcome(WithError(log, code), Some(code))), WithError(log, code))
  }

  /** SendRequestError: an error that came first is returned, a success is left alone, and without an outcome
      the error becomes it once the controller has been notified. */
  function RequestFailed(b: Controller, log: CrawlLog, code: int, ok: bool): (Controller, CrawlLog, ErrorHeader) {
    if b.complete.Some? then
      (b, log, if b.complete.value.err.Some? then Early(b.complete.value.err.value) else Unsent(code))
    else
      var notified := b.(stream := b.stream.Send(AllData, ok));
      if b.stream.Live() && ok then (Take(notified, Outcome(WithError(log, code), Some(code))), WithError(log, code), Posted(code))
      else (notified, log, Unsent(RUNTIME_EXCEPTION))
  }

  /** finish, for a session whose slot is set and whose msgChan is closed. */
  function Finished(b: Controller, log: CrawlLog, cached: bool, ok: bool): (Controller, CrawlLog) {
    var kept := if b.complete.Some? then log else WithError(log, CANCELED_BY_BROWSER);
    var final := if b.complete.Some? then b.complete.value.log else kept;
    (b.(stream := b.stream.Send(Completed(final, cached), ok).CloseSend(), ctxDone := true), kept)
  }

  class BccSession {
    var complete: Option<Outcome>
    var stream: Stream<ControllerFrame>
    var ctxDone: bool
    ghost var received: seq<Outcome>

    ghost function View(): Controller
      reads this
    {
      Controller(None, complete, received, stream, Peer([], None, false), ctxDone)
    }

    /** The first message received is the outcome. */
    ghost predicate Valid()
      reads this
    {
      complete == if received == [] then None else Some(received[0])
    }

    constructor ()
      ensures Valid() && View() == Init().bc
    {
      complete, received := None, [];
      stream := Stream([], false, false);
      ctxDone := false;
    }

    method Notify(f: ControllerFrame, ok: bool) returns (err: bool)
      requires Valid()
      modifies this
      ensures Valid() && View() == Notified(old(View()), f, ok)
      ensures err <==> complete.Some? || !(old(stream).Live() && ok)
    {
      if complete.Some? {
        return true;
      }
      err := !(stream.Live() && ok);
      stream := stream.Send(f, ok);
    }

    /** The select loop's side of a completion message: the first one is kept, later ones are dropped. */
    method Receive(m: Outcome)
      requires Valid()
      modifies this
      ensures Valid() && View() == Take(old(View()), m)
    {
      if complete.None? {
        complete := Some(m);
      }
      received := received + [m];
    }

    method SaveCrawlLog(log: CrawlLog) returns (err: bool)
      requires Valid()
      modifies this
      ensures Valid() && View() == Saved(old(View()), log)
      ensures err <==> old(complete).Some?
    {
      if complete.Some? {
        return true;
      }
      Receive(Outcome(log, None));
      err := false;
    }

    method SendResponseError(log: CrawlLog, code: int) returns (newLog: CrawlLog, err: bool)
      requires Valid()
      modifies this
      ensures Valid() && (View(), newLog) == ResponseFailed(old(View()), log, code)
      ensures err <==> old(complete).Some?
    {
      newLog := log;
      if complete.Some? {
        return newLog, true;
      }
      newLog := log.(status := code, error := code);
      Receive(Outcome(newLog, Some(code)));
      err := false;
    }

    /** The code in the client's error header is the code of the outcome. */
    ghost predicate Told(header: ErrorHeader)
      reads this
    {
      !header.NoHeader? && complete.Some? && complete.value.err == Some(header.code)
    }

    /** The client is told the code of the outcome exactly if an error had come first, or nothing had and the
        notification is sent. */
    method SendRequestError(log: CrawlLog, code: int, ok: bool) returns (newLog: CrawlLog, header: ErrorHeader)
      requires Valid()
      modifies this
      ensures Valid() && (View(), newLog, header) == RequestFailed(old(View()), log, code, ok)
      ensures Told(header) <==> if old(complete).Some? then old(complete).value.err.Some? else old(stream).Live() && ok
    {
      newLog := log;
      if complete.Some? {
        return newLog, if complete.value.err.Some? then Early(complete.value.err.value) else Unsent(code);
      }
      var err := Notify(AllData, ok);
      if err {
        return newLog, Unsent(RUNTIME_EXCEPTION);
      }
      newLog := log.(status := code, error := code);
      Receive(Outcome(newLog, Some(code)));
      return newLog, Posted(code);
    }

    /** finish: Completed carries the outcome's log, or the cancelled one; with the slot clear nothing happens. */
    method Finish(log: CrawlLog, cached: bool, slot: bool, ok: bool) returns (newLog: CrawlLog)
      requires Valid()
      modifies this
      ensures Valid()
      ensures if slot then (View(), newLog) == Finished(old(View()), log, cached, ok) else View() == old(View()) && newLog == log
      ensures slot && old(stream).Live() && ok ==>
                stream.wire != [] && stream.wire[|stream.wire| - 1].Completed? && stream.wire[|stream.wire| - 1].cached == cached
    {
      newLog := log;
      if slot {
        if complete.None? {
          newLog := log.(status := CANCELED_BY_BROWSER, error := CANCELED_BY_BROWSER);
        }
        stream := stream.Send(Completed(if complete.Some? then complete.value.log else newLog, cached), ok);
        stream := stream.CloseSend();
        ctxDone := true;
      }
    }
  }
}
