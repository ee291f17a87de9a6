/** The reader of the response body: it records the original bytes, and hands the client either these
    or, if there is one, the replacement script. */
module ResponseBody {
  import opened Frames
  import opened Session
  import opened ContentWriter
  import opened BrowserController
  import opened Bodies

  /** How the surroundings behave during one inner read: whether another thread cancels the content writer
      first, and which sends and replies succeed. */
  datatype Link = Link(cut: bool, notified: bool, sent: bool, metaSent: bool, replied: bool)

  /** No cancel and no failed send to the content writer. */
  ghost predicate Undisturbed(links: nat -> Link) {
    forall i :: !links(i).cut && links(i).sent && links(i).metaSent
  }

  /** The part of the record context that the body uses. */
  class RecordContext {
    const cwc: CwcSession
    const bcc: BccSession
    const replacement: Option<seq<Byte>>
    var foundInCache: bool
    var meta: map<nat, RecordMeta>
    var log: CrawlLog

    constructor (cwc: CwcSession, bcc: BccSession, replacement: Option<seq<Byte>>, request: RecordMeta)
      ensures this.cwc == cwc && this.bcc == bcc && this.replacement == replacement
      ensures !foundInCache && meta == map[REQUEST := request] && log == CrawlLog(-1, 0, 0, Unset)
    {
      this.cwc, this.bcc, this.replacement := cwc, bcc, replacement;
      foundInCache, meta, log := false, map[REQUEST := request], CrawlLog(-1, 0, 0, Unset);
    }
  }

  // ---------- what the wires say ----------

  /** Nothing about the response is on either wire. */
  ghost predicate Silent(w: Writer, b: Stream<ControllerFrame>) {
    OnlyRequest(w.stream.wire) && Data !in b.wire && AllData !in b.wire
  }

  /** Every Meta frame describes the response exactly, and it has been transmitted as described. */
  ghost predicate Described(w: seq<WriterFrame>, content: seq<Byte>) {
    && (forall f :: f in w && f.Meta? ==> RESPONSE in f.records && f.records[RESPONSE] == MetaOf(content))
    && (HasMeta(w) ==> Sent(w, RESPONSE) == content)
  }

  lemma OfferedMeta(w: Writer, f: WriterFrame, ok: bool)
    requires !f.Meta?
    ensures HasMeta(Offered(w, f, ok).stream.wire) <==> HasMeta(w.stream.wire)
  {
    MembersAppended(w.stream.wire, f);
  }

  lemma CanceledKeeps(w: Writer, me: Thread, ok: bool, b: Stream<ControllerFrame>)
    ensures HasMeta(Canceled(w, me, ok).stream.wire) <==> HasMeta(w.stream.wire)
    ensures Silent(w, b) ==> Silent(Canceled(w, me, ok), b)
  {
    hide HasMeta, OnlyRequest;
    MembersAppended(w.stream.wire, Cancel);
  }

  lemma CanceledDescribes(w: Writer, me: Thread, ok: bool, content: seq<Byte>)
    requires Described(w.stream.wire, content)
    ensures Described(Canceled(w, me, ok).stream.wire, content)
  {
    hide Sent, Canceled, HasMeta;
    CanceledWire(w, me, ok);
    MembersAppended(w.stream.wire, Cancel);
    SentAppended(w.stream.wire, Cancel, RESPONSE);
    assert Sent(w.stream.wire, RESPONSE) + [] == Sent(w.stream.wire, RESPONSE);
    assert forall f :: f in w.stream.wire + [Cancel] && f.Meta? ==> f in w.stream.wire;
  }

  lemma CanceledWire(w: Writer, me: Thread, ok: bool)
    ensures var v := Canceled(w, me, ok).stream.wire; v == w.stream.wire || v == w.stream.wire + [Cancel]
  {
  }

  lemma SilentDescribes(w: Writer, b: Stream<ControllerFrame>, content: seq<Byte>)
    requires Silent(w, b)
    ensures Described(w.stream.wire, content)
  {
    NothingSent(w.stream.wire);
    assert forall f :: f in w.stream.wire ==> !f.Meta?;
  }

  /** What SendMeta makes of a stream without a Meta frame. */
  lemma MetaDescribes(w: Writer, records: map<nat, RecordMeta>, ok: bool, replied: bool, content: seq<Byte>, lost: bool)
    requires !HasMeta(w.stream.wire) && Recorded(w, RESPONSE, content, lost)
    requires RESPONSE in records && records[RESPONSE] == MetaOf(content)
    ensures Described(MetaSent(w, records, ok, replied).stream.wire, content)
  {
    hide Sent;
    var v := w.stream.wire + [Meta(records)];
    MembersAppended(w.stream.wire, Meta(records));
    SentAppended(w.stream.wire, Meta(records), RESPONSE);
    assert Sent(w.stream.wire, RESPONSE) + [] == Sent(w.stream.wire, RESPONSE);
    assert forall f :: f in w.stream.wire ==> !f.Meta?;
    assert forall f :: f in v && f.Meta? ==> f == Meta(records);
  }

  /** What reading `d` does to the two streams. */
  function Forwarded(w: Writer, d: seq<Byte>, link: Link): Writer {
    if d == [] then w else Offered(w, Payload(RESPONSE, d), link.sent)
  }

  function Announced(b: Controller, d: seq<Byte>, link: Link): Controller {
    if d == [] then b else Notified(b, Data, link.notified)
  }

  /** Whether SendMeta tries to send its frame, and whether it is answered. */
  predicate Asks(w: Writer) {
    !w.canceled && !w.gate.done
  }

  predicate Replies(w: Writer, link: Link) {
    Asks(w) && w.stream.Live() && link.metaSent && link.replied
  }

  /** What innerRead makes of SendMeta's answer: an error is reported, a reply is saved with the size and digest
      of what was archived, and if there was nothing to ask nothing is reported here. */
  function AfterMeta(b: Controller, log: CrawlLog, content: seq<Byte>, asks: bool, replies: bool): (Controller, CrawlLog) {
    if replies then
      var archived := log.(size := |content|, digest := Sha1(content));
      (Saved(b, archived), archived)
    else if asks then ResponseFailed(b, log, RUNTIME_EXCEPTION)
    else (b, log)
  }

  class WrappedResponseBody {
    const upstream: Upstream
    const rc: RecordContext
    const blockCrc: Hash
    var size: nat
    var eof: bool
    var failed: bool
    /** The position in the replacement script, once the original has been drained. */
    var replacementReader: Option<nat>

    /** The prolog, all bytes of the original body, those read so far, those given to the client, and
        whether any were not transmitted. */
    ghost const prolog: seq<Byte>
    ghost const whole: seq<Byte>
    ghost var taken: seq<Byte>
    ghost var given: seq<Byte>
    ghost var lost: bool

    /** Everything taken so far is counted, hashed and, unless lost, transmitted; nothing of a response from
        the cache is. */
    ghost predicate Counted()
      reads `size, `taken, `lost, rc, rc.cwc, rc.bcc, blockCrc
    {
      && rc.cwc.Valid() && rc.bcc.Valid()
      && size == |blockCrc.content|
      && (if rc.foundInCache then blockCrc.content == prolog && Silent(rc.cwc.View(), rc.bcc.stream)
          else blockCrc.content == prolog + taken && Recorded(rc.cwc.View(), RESPONSE, prolog + taken, lost))
    }

    /** The original is read from front to back, and described once, when it ends. */
    ghost predicate Reading()
      reads `size, `eof, `taken, `lost, upstream, rc, rc.cwc, rc.bcc, blockCrc
    {
      && Counted()
      && (if eof then taken == whole && Described(rc.cwc.stream.wire, prolog + whole)
          else taken + BytesOf(upstream.script) == whole && !HasMeta(rc.cwc.stream.wire))
    }

    /** Without a script the client gets what is read; with one, it gets the script from its start, once the
        original has been read to its end. */
    ghost predicate Serving()
      reads this, rc
    {
      match rc.replacement
      case None => given == taken && replacementReader.None?
      case Some(script) =>
        if replacementReader.None? then given == []
        else eof && replacementReader.value <= |script| && given == script[..replacementReader.value]
    }

    ghost predicate Valid()
      reads this, upstream, rc, rc.cwc, rc.bcc, blockCrc
    {
      Reading() && Serving()
    }

    /** WrapResponseBody: a response from the cache sends no protocol header. */
    constructor WrapResponseBody(upstream: Upstream, rc: RecordContext, statusCode: int, prolog: seq<Byte>, grain: nat, ok: bool)
      requires rc.cwc.Valid() && rc.bcc.Valid() && Silent(rc.cwc.View(), rc.bcc.stream)
      modifies rc, rc.cwc
      ensures Valid() && this.upstream == upstream && this.rc == rc && fresh(blockCrc)
      ensures this.prolog == prolog && whole == BytesOf(upstream.script) && taken == [] && !eof && replacementReader.None?
      ensures rc.foundInCache == old(rc.foundInCache)
      ensures rc.meta == old(rc.meta)[RESPONSE := RecordMeta(0, Unset)]
      ensures rc.log == old(rc.log).(status := statusCode)
      ensures rc.cwc.View() ==
              if rc.foundInCache then old(rc.cwc.View()) else Offered(old(rc.cwc.View()), Header(RESPONSE, prolog), ok)
      ensures failed <==> !rc.foundInCache && !old(rc.cwc.canceled) && !(old(rc.cwc.stream).Live() && ok)
      ensures !rc.foundInCache && !failed && !old(rc.cwc.canceled) && !old(rc.cwc.done) ==> Healthy()
    {
      hide Recorded, Silent, CwcSession.Valid, BccSession.Valid, BytesOf, HasMeta, Described, BccSession.View;
      this.upstream, this.rc := upstream, rc;
      this.prolog, whole, taken, given := prolog, BytesOf(upstream.script), [], [];
      eof, size, replacementReader, failed := false, |prolog|, None, false;
      blockCrc := new Hash(grain);
      lost := rc.cwc.canceled || !(rc.cwc.stream.Live() && ok);
      new;
      rc.meta := rc.meta[RESPONSE := RecordMeta(0, Unset)];
      rc.log := rc.log.(status := statusCode);
      Units(BytesOf(upstream.script));
      WriteCrc(blockCrc, prolog);
      SendHeader(prolog, ok);
    }

    /** The protocol header goes out unless the response is from the cache. */
    method SendHeader(header: seq<Byte>, ok: bool)
      requires header == prolog
      requires rc.cwc.Valid() && rc.bcc.Valid() && Silent(rc.cwc.View(), rc.bcc.stream)
      requires taken == [] && size == |prolog| && blockCrc.content == prolog && !failed
      requires lost == (rc.cwc.canceled || !(rc.cwc.stream.Live() && ok))
      modifies this`failed, rc.cwc
      ensures Counted() && !HasMeta(rc.cwc.stream.wire)
      ensures rc.cwc.View() ==
              if rc.foundInCache then old(rc.cwc.View()) else Offered(old(rc.cwc.View()), Header(RESPONSE, prolog), ok)
      ensures failed <==> !rc.foundInCache && !old(rc.cwc.canceled) && !(old(rc.cwc.stream).Live() && ok)
    {
      hide Recorded, Silent, CwcSession.Valid, BccSession.Valid, HasMeta, Offered;
      Units(prolog);
      StartRecorded(rc.cwc.View(), prolog, ok, rc.bcc.stream);
      if !rc.foundInCache {
        failed := rc.cwc.SendProtocolHeader(RESPONSE, header, ok);
      }
    }

    /** What innerRead does with the bytes it has read. */
    method Record(d: seq<Byte>, link: Link)
      requires Counted() && !rc.foundInCache && !HasMeta(rc.cwc.stream.wire)
      modifies this`size, this`taken, this`lost, rc.cwc, rc.bcc, blockCrc
      ensures Counted() && taken == old(taken) + d && !HasMeta(rc.cwc.stream.wire)
      ensures rc.cwc.View() == Offered(old(rc.cwc.View()), Payload(RESPONSE, d), link.sent)
      ensures lost <==> old(lost) || old(rc.cwc.canceled) || !(old(rc.cwc.stream).Live() && link.sent)
      ensures rc.bcc.View() == Notified(old(rc.bcc.View()), Data, link.notified)
    {
      hide Recorded, Sent, CwcSession.Valid, BccSession.Valid, HasMeta, Offered, Notified, BccSession.View;
      var err := rc.bcc.Notify(Data, link.notified);
      size := size + |d|;
      WriteCrc(blockCrc, d);
      OfferedMeta(rc.cwc.View(), Payload(RESPONSE, d), link.sent);
      RecordedOffered(rc.cwc.View(), RESPONSE, prolog + taken, lost, Payload(RESPONSE, d), link.sent);
      assert prolog + (taken + d) == prolog + taken + d;
      lost := lost || rc.cwc.canceled || !(rc.cwc.stream.Live() && link.sent);
      taken := taken + d;
      err := rc.cwc.SendPayload(RESPONSE, d, link.sent);
    }

    /** SendMeta will reach the archive if its own send succeeds. */
    ghost predicate Archiving()
      reads rc, rc.cwc
    {
      !rc.cwc.canceled && !rc.cwc.done && rc.cwc.stream.Live()
    }

    /** NotifyAllDataReceived and SendMeta, at the first EOF of a response that is recorded. */
    method SendDescription(link: Link) returns (reply: bool, err: bool)
      requires Counted() && !rc.foundInCache && taken == whole && !HasMeta(rc.cwc.stream.wire)
      modifies rc`meta, rc.cwc, rc.bcc
      ensures Counted() && Described(rc.cwc.stream.wire, prolog + whole)
      ensures rc.meta == old(rc.meta)[RESPONSE := MetaOf(prolog + whole)]
      ensures rc.cwc.View() == MetaSent(old(rc.cwc.View()), rc.meta, link.metaSent, link.replied)
      ensures rc.bcc.View() == Notified(old(rc.bcc.View()), AllData, link.notified)
      ensures reply == Replies(old(rc.cwc.View()), link) && err == (Asks(old(rc.cwc.View())) && !reply)
      ensures old(Archiving()) && link.metaSent ==> HasMeta(rc.cwc.stream.wire)
    {
      hide Recorded, Sent, CwcSession.Valid, BccSession.Valid, HasMeta, Described, MetaSent, BccSession.View,
           Notified;
      err := rc.bcc.Notify(AllData, link.notified);
      var digest := blockCrc.Sum();
      rc.meta := rc.meta[RESPONSE := RecordMeta(size, digest)];
      ghost var w := rc.cwc.View();
      MetaDescribes(w, rc.meta, link.metaSent, link.replied, prolog + taken, lost);
      MetaMore(w, rc.meta, link.metaSent, link.replied);
      if Archiving() && link.metaSent { MetaArrives(w, rc.meta, link.metaSent, link.replied); }
      RecordedKept(w, MetaSent(w, rc.meta, link.metaSent, link.replied), RESPONSE, prolog + taken, lost);
      reply, err := rc.cwc.SendMeta(rc.meta, link.metaSent, link.replied);
    }

    /** The first EOF of a response that is recorded: the client sees nothing of what becomes of Meta. */
    method Describe(link: Link)
      requires Counted() && !rc.foundInCache && !eof && taken == whole && !HasMeta(rc.cwc.stream.wire)
      modifies this`eof, rc, rc.cwc, rc.bcc
      ensures eof && Counted() && Described(rc.cwc.stream.wire, prolog + whole) && rc.foundInCache == old(rc.foundInCache)
      ensures rc.meta == old(rc.meta)[RESPONSE := MetaOf(prolog + whole)]
      ensures rc.cwc.View() == MetaSent(old(rc.cwc.View()), rc.meta, link.metaSent, link.replied)
      ensures (rc.bcc.View(), rc.log) ==
              AfterMeta(Notified(old(rc.bcc.View()), AllData, link.notified), old(rc.log), prolog + whole,
                        Asks(old(rc.cwc.View())), Replies(old(rc.cwc.View()), link))
      ensures old(Archiving()) && link.metaSent ==> HasMeta(rc.cwc.stream.wire)
    {
      hide Recorded, Sent, CwcSession.Valid, BccSession.Valid, HasMeta, Described, MetaSent, BccSession.View,
           Notified, CwcSession.View, Saved, ResponseFailed, Asks, Replies;
      eof := true;
      var reply, err := SendDescription(link);
      if err {
        rc.log, err := rc.bcc.SendResponseError(rc.log, RUNTIME_EXCEPTION);
        return;
      }
      if !reply {
        return;
      }
      var digest := blockCrc.Sum();
      rc.log := rc.log.(size := size, digest := digest);
      err := rc.bcc.SaveCrawlLog(rc.log);
    }

    /** handleCachedContent: the log's size is the prolog's, and the content writer is cancelled. */
    method HandleCachedContent(link: Link)
      requires Counted() && rc.foundInCache && !eof && taken == whole
      modifies this`eof, rc, rc.cwc, rc.bcc
      ensures eof && Counted() && Described(rc.cwc.stream.wire, prolog + whole) && rc.foundInCache == old(rc.foundInCache)
      ensures rc.cwc.View() == Canceled(old(rc.cwc.View()), Handler, link.sent) && rc.meta == old(rc.meta)
      ensures rc.log == old(rc.log).(size := |prolog|)
      ensures rc.bcc.View() == Saved(old(rc.bcc.View()), rc.log)
    {
      hide Recorded, Sent, CwcSession.Valid, BccSession.Valid, HasMeta, Described, Silent, Canceled;
      eof := true;
      rc.log := rc.log.(size := size);
      var err := rc.bcc.SaveCrawlLog(rc.log);
      CanceledKeeps(rc.cwc.View(), Handler, link.sent, rc.bcc.stream);
      SilentDescribes(Canceled(rc.cwc.View(), Handler, link.sent), rc.bcc.stream, prolog + whole);
      rc.cwc.CancelContentWriter(Handler, link.sent);
    }

    /** Nothing of a recorded response has been lost, and SendMeta can still reach the archive. */
    ghost predicate Healthy()
      reads `lost, rc, rc.cwc
    {
      !rc.foundInCache && !lost && Archiving()
    }

    /** Another thread cancels the content writer. */
    method Interrupt(ok: bool)
      requires Reading()
      modifies rc.cwc
      ensures Reading() && (HasMeta(rc.cwc.stream.wire) <==> old(HasMeta(rc.cwc.stream.wire)))
    {
      hide Recorded, Sent, CwcSession.Valid, BccSession.Valid, HasMeta, Described, Silent, Canceled, BytesOf;
      var w := Canceled(rc.cwc.View(), Receiver, ok);
      CanceledKeeps(rc.cwc.View(), Receiver, ok, rc.bcc.stream);
      CancelMore(rc.cwc.View(), Receiver, ok);
      if eof { CanceledDescribes(rc.cwc.View(), Receiver, ok, prolog + whole); }
      if !rc.foundInCache { RecordedKept(rc.cwc.View(), w, RESPONSE, prolog + taken, lost); }
      rc.cwc.CancelContentWriter(Receiver, ok);
    }

    /** What innerRead does with the bytes it has read, before it looks for the end. */
    method Absorb(d: seq<Byte>, link: Link)
      requires Counted() && !HasMeta(rc.cwc.stream.wire)
      modifies this`size, this`taken, this`lost, rc.cwc, rc.bcc, blockCrc
      ensures Counted() && taken == old(taken) + d && !HasMeta(rc.cwc.stream.wire)
      ensures rc.foundInCache ==> rc.cwc.View() == old(rc.cwc.View()) && rc.bcc.View() == old(rc.bcc.View())
      ensures !rc.foundInCache ==>
                && rc.cwc.View() == Forwarded(old(rc.cwc.View()), d, link)
                && rc.bcc.View() == Announced(old(rc.bcc.View()), d, link)
      ensures old(Healthy()) && link.sent ==> Healthy()
    {
      hide Recorded, Sent, CwcSession.Valid, BccSession.Valid, HasMeta, Silent, BccSession.View, Notified;
      assert d == [] ==> taken + d == taken;
      if d != [] && !rc.foundInCache {
        Record(d, link);
      } else {
        taken := taken + d;
      }
    }

    /** What it does at the first end. */
    method Conclude(link: Link)
      requires Counted() && !eof && taken == whole && !HasMeta(rc.cwc.stream.wire)
      modifies this`eof, rc, rc.cwc, rc.bcc
      ensures Reading() && eof && rc.foundInCache == old(rc.foundInCache)
      ensures rc.foundInCache ==>
                && rc.cwc.View() == Canceled(old(rc.cwc.View()), Handler, link.sent)
                && rc.bcc.View() == Saved(old(rc.bcc.View()), rc.log) && rc.log == old(rc.log).(size := |prolog|)
      ensures !rc.foundInCache ==>
                && rc.cwc.View() == MetaSent(old(rc.cwc.View()), rc.meta, link.metaSent, link.replied)
                && rc.meta == old(rc.meta)[RESPONSE := MetaOf(prolog + whole)]
                && (rc.bcc.View(), rc.log) ==
                     AfterMeta(Notified(old(rc.bcc.View()), AllData, link.notified), old(rc.log), prolog + whole,
                               Asks(old(rc.cwc.View())), Replies(old(rc.cwc.View()), link))
      ensures old(Healthy()) && link.metaSent ==> HasMeta(rc.cwc.stream.wire)
    {
      hide Counted, HasMeta, Described, CwcSession.View, BccSession.View, MetaSent, AfterMeta, Notified, Saved,
           Canceled, Asks, Replies, BytesOf;
      if rc.foundInCache {
        HandleCachedContent(link);
      } else {
        Describe(link);
      }
    }

    /** innerRead: yields what the original yields, and after the first EOF nothing but EOF. */
    method InnerRead(p: array<Byte>, link: Link) returns (n: nat, res: ReadResult)
      requires Reading()
      modifies this`size, this`eof, this`taken, this`lost, upstream, rc, rc.cwc, rc.bcc, blockCrc, p
      ensures Reading() && rc.foundInCache == old(rc.foundInCache) && (eof <==> res.Eof? || old(eof))
      ensures n <= p.Length && taken == old(taken) + p[..n]
      ensures if old(eof) then n == 0 && res.Eof? else Chunk(p[..n], res) == Next(old(upstream.script), p.Length).0
      ensures Left(upstream.script) <= old(Left(upstream.script))
      ensures p.Length > 0 && !res.Eof? ==> Left(upstream.script) < old(Left(upstream.script))
      ensures !link.cut && !rc.foundInCache && !res.Eof? ==>
                && rc.cwc.View() == Forwarded(old(rc.cwc.View()), p[..n], link)
                && rc.bcc.View() == Announced(old(rc.bcc.View()), p[..n], link)
      ensures !link.cut && !rc.foundInCache && res.Eof? && !old(eof) ==>
                AtEof(old(rc.cwc.View()), old(rc.bcc.View()), old(rc.meta), old(rc.log), p[..n], link)
      ensures !link.cut && rc.foundInCache && !res.Eof? ==>
                rc.cwc.View() == old(rc.cwc.View()) && rc.bcc.View() == old(rc.bcc.View())
      ensures old(Healthy()) && !link.cut && link.sent && !res.Eof? ==> Healthy()
      ensures old(Healthy()) && !link.cut && link.sent && link.metaSent && res.Eof? && !old(eof) ==>
                HasMeta(rc.cwc.stream.wire)
      ensures old(HasMeta(rc.cwc.stream.wire)) ==> HasMeta(rc.cwc.stream.wire)
    {
      hide Counted, HasMeta, Described, BytesOf, Next, Left, CwcSession.View, BccSession.View, MetaSent, AfterMeta,
           Notified, Saved, Canceled, Asks, Replies, Healthy, Forwarded, Announced;
      if link.cut {
        Interrupt(link.sent);
      }
      NextTakes(upstream.script, p.Length);
      n, res := upstream.Read(p);
      if eof {
        return 0, Eof;
      }
      ghost var rest := if res.Eof? then [] else BytesOf(upstream.script);
      assert taken + (p[..n] + rest) == taken + p[..n] + rest;
      Absorb(p[..n], link);
      if res.Eof? {
        assert taken + [] == taken;
        Conclude(link);
      }
    }

    /** The two streams, the description and the log after the read of `d` that ends a recorded response. */
    ghost predicate AtEof(w: Writer, b: Controller, meta: map<nat, RecordMeta>, log: CrawlLog, d: seq<Byte>, link: Link)
      reads rc, rc.cwc, rc.bcc
    {
      var last := Forwarded(w, d, link);
      && rc.meta == meta[RESPONSE := MetaOf(prolog + whole)]
      && rc.cwc.View() == MetaSent(last, rc.meta, link.metaSent, link.replied)
      && (rc.bcc.View(), rc.log) ==
           AfterMeta(Notified(Announced(b, d, link), AllData, link.notified), log, prolog + whole, Asks(last), Replies(last, link))
    }

    /** The drain loop: all of the original is recorded, or as much as there is before an error. */
    method DrainOriginal(links: nat -> Link) returns (res: ReadResult)
      requires Reading()
      modifies this`size, this`eof, this`taken, this`lost, upstream, rc, rc.cwc, rc.bcc, blockCrc
      ensures Reading() && rc.foundInCache == old(rc.foundInCache)
      ensures !res.More? && (res.Eof? <==> eof) && (old(eof) ==> eof)
      ensures old(taken) <= taken && (old(eof) ==> taken == old(taken))
      ensures Left(upstream.script) <= old(Left(upstream.script))
      ensures res.Failed? ==> Left(upstream.script) < old(Left(upstream.script))
      ensures old(Healthy()) && !old(eof) && Undisturbed(links) ==> if eof then HasMeta(rc.cwc.stream.wire) else Healthy()
      ensures old(HasMeta(rc.cwc.stream.wire)) ==> HasMeta(rc.cwc.stream.wire)
    {
      hide Reading, Healthy, Next, HasMeta, Left;
      var buf := new Byte[64 * 1024];
      var i := 0;
      while true
        invariant Reading() && rc.foundInCache == old(rc.foundInCache)
        invariant old(taken) <= taken && (old(eof) ==> taken == old(taken))
        invariant eof == old(eof) && Left(upstream.script) <= old(Left(upstream.script))
        invariant old(Healthy()) && Undisturbed(links) ==> Healthy()
        invariant old(HasMeta(rc.cwc.stream.wire)) ==> HasMeta(rc.cwc.stream.wire)
        decreases Left(upstream.script)
      {
        var n;
        n, res := InnerRead(buf, links(i));
        if !res.More? {
          return;
        }
        i := i + 1;
      }
    }

    /** Steps until Read has nothing more to give. */
    ghost function Remaining(): nat
      reads this, upstream
    {
      Left(upstream.script) +
      match rc.replacement
      case None => 0
      case Some(script) =>
        if replacementReader.None? then |script| + 1
        else if replacementReader.value <= |script| then |script| - replacementReader.value else 0
    }

    /** bytes.Reader.Read on the replacement script. */
    method ReadScript(p: array<Byte>) returns (n: nat, res: ReadResult)
      requires rc.replacement.Some? && Valid() && replacementReader.Some?
      modifies this`replacementReader, this`given, p
      ensures Valid() && replacementReader.Some? && replacementReader.value == old(replacementReader.value) + n
      ensures n <= p.Length && given == old(given) + p[..n] && !res.Failed?
      ensures res.Eof? ==> n == 0 && given == rc.replacement.value
      ensures res.More? && p.Length > 0 ==> n > 0
    {
      hide Reading;
      var script, at := rc.replacement.value, replacementReader.value;
      if at >= |script| {
        assert script[..|script|] == script;
        return 0, Eof;
      }
      n := if |script| - at <= p.Length then |script| - at else p.Length;
      for k := 0 to n
        invariant p[..k] == script[at..at + k]
        modifies p
      {
        p[k] := script[at + k];
      }
      assert script[..at + n] == script[..at] + script[at..at + n];
      replacementReader := Some(at + n);
      given := given + p[..n];
      res := More;
    }

    /** Read: the client gets the original, or the script once the original has been drained. What Healthy
        says of the recording before it says afterwards, until Meta is on the wire. */
    method Read(p: array<Byte>, links: nat -> Link) returns (n: nat, res: ReadResult)
      requires Valid()
      modifies this, upstream, rc, rc.cwc, rc.bcc, blockCrc, p
      ensures Valid() && rc.foundInCache == old(rc.foundInCache)
      ensures n <= p.Length && given == old(given) + p[..n]
      ensures old(taken) <= taken && (old(eof) ==> taken == old(taken) && eof)
      ensures rc.replacement.None? ==>
                && (if old(eof) then n == 0 && res.Eof? else Chunk(p[..n], res) == Next(old(upstream.script), p.Length).0)
                && (eof <==> res.Eof? || old(eof))
      ensures res.Eof? ==> eof && given == if rc.replacement.None? then whole else rc.replacement.value
      ensures rc.replacement.Some? ==> if res.Failed? then n == 0 && replacementReader.None? else eof
      ensures old(Healthy()) && !old(eof) && Undisturbed(links) ==> if eof then HasMeta(rc.cwc.stream.wire) else Healthy()
      ensures old(HasMeta(rc.cwc.stream.wire)) ==> HasMeta(rc.cwc.stream.wire)
      ensures p.Length > 0 && !res.Eof? ==> Remaining() < old(Remaining())
    {
      hide Reading, Healthy, Next, HasMeta, Left;
      if rc.replacement.None? {
        n, res := InnerRead(p, links(0));
        TakenAll();
        given := given + p[..n];
        return;
      }
      if replacementReader.None? {
        res := DrainOriginal(links);
        if res.Failed? {
          return 0, Failed;
        }
        replacementReader := Some(0);
      }
      n, res := ReadScript(p);
    }

    lemma TakenAll()
      requires Reading()
      ensures eof ==> taken == whole
    {
    }
  }

  /** Reads the body to its end, going on after errors; a drain that failed is resumed. Without cancels and
      failed sends everything is archived: what was transmitted for record 1 is the prolog and the whole
      original, Meta describes it, and the client has been given the original, or the script. */
  method ReadToEof(b: WrappedResponseBody, p: array<Byte>, links: nat -> nat -> Link) returns (client: seq<Byte>, failures: nat)
    requires b.Valid() && p.Length > 0 && b.given == [] && !b.eof
    modifies b, b.upstream, b.rc, b.rc.cwc, b.rc.bcc, b.blockCrc, p
    ensures b.Valid() && b.eof && b.taken == b.whole
    ensures client == b.given == if b.rc.replacement.None? then b.whole else b.rc.replacement.value
    ensures old(b.Healthy()) && (forall i :: Undisturbed(links(i))) ==>
              && HasMeta(b.rc.cwc.stream.wire)
              && Sent(b.rc.cwc.stream.wire, RESPONSE) == b.prolog + b.whole
              && forall f :: f in b.rc.cwc.stream.wire && f.Meta? ==>
                   RESPONSE in f.records && f.records[RESPONSE] == MetaOf(b.prolog + b.whole)
  {
    hide HasMeta, Sent, Undisturbed, WrappedResponseBody.Reading, WrappedResponseBody.Serving,
         WrappedResponseBody.Healthy, WrappedResponseBody.Remaining, Next;
    client, failures := [], 0;
    var i := 0;
    while true
      invariant b.Valid() && client == b.given
      invariant old(b.Healthy()) && (forall j :: Undisturbed(links(j))) ==>
                  if b.eof then HasMeta(b.rc.cwc.stream.wire) else b.Healthy()
      decreases b.Remaining()
    {
      var n, res := b.Read(p, links(i));
      client := client + p[..n];
      i := i + 1;
      if res.Failed? {
        failures := failures + 1;
      } else if res.Eof? {
        break;
      }
    }
    TakenAtEof(b);
    if old(b.Healthy()) && (forall j :: Undisturbed(links(j))) {
      ArchivedIsGiven(b);
    }
  }

  lemma TakenAtEof(b: WrappedResponseBody)
    requires b.Valid() && b.eof
    ensures b.taken == b.whole
  {
  }

  /** A recording that is healthy, before EOF and after a failed drain alike, has transmitted the prolog and
      every byte read so far, and has the rest of the original still to come. */
  lemma HealthyMeansSent(b: WrappedResponseBody)
    requires b.Valid() && b.Healthy() && !b.eof
    ensures Sent(b.rc.cwc.stream.wire, RESPONSE) == b.prolog + b.taken
    ensures b.taken + BytesOf(b.upstream.script) == b.whole
  {
    hide Sent, CwcSession.Valid;
  }

  /** Client and archive: at EOF, a response whose Meta frame is on the wire has been transmitted in full,
      is described by that frame to the byte, and, unless it was replaced, is what the client was given. */
  lemma ArchivedIsGiven(b: WrappedResponseBody)
    requires b.Valid() && b.eof && HasMeta(b.rc.cwc.stream.wire)
    ensures !b.rc.foundInCache && b.taken == b.whole
    ensures Sent(b.rc.cwc.stream.wire, RESPONSE) == b.prolog + b.whole
    ensures forall f :: f in b.rc.cwc.stream.wire && f.Meta? ==>
              RESPONSE in f.records && f.records[RESPONSE] == MetaOf(b.prolog + b.whole)
    ensures b.rc.replacement.None? ==> b.given == b.whole
    ensures b.rc.replacement.Some? ==> b.given <= b.rc.replacement.value
  {
    hide Sent, CwcSession.Valid;
    if b.rc.foundInCache { SilentHasNoMeta(b.rc.cwc.View(), b.rc.bcc.stream); }
  }

  lemma SilentHasNoMeta(w: Writer, b: Stream<ControllerFrame>)
    requires Silent(w, b)
    ensures !HasMeta(w.stream.wire)
  {
    NothingSent(w.stream.wire);
  }

  lemma MetaArrives(w: Writer, records: map<nat, RecordMeta>, ok: bool, replied: bool)
    requires !w.canceled && !w.gate.done && w.stream.Live() && ok
    ensures HasMeta(MetaSent(w, records, ok, replied).stream.wire)
  {
    MembersAppended(w.stream.wire, Meta(records));
  }

  lemma StartRecorded(w: Writer, prolog: seq<Byte>, ok: bool, b: Stream<ControllerFrame>)
    requires Silent(w, b)
    ensures !HasMeta(w.stream.wire) && !HasMeta(Offered(w, Header(RESPONSE, prolog), ok).stream.wire)
    ensures Recorded(Offered(w, Header(RESPONSE, prolog), ok), RESPONSE, prolog, w.canceled || !(w.stream.Live() && ok))
  {
    NothingSent(w.stream.wire);
    OfferedMeta(w, Header(RESPONSE, prolog), ok);
    Units(prolog);
    RecordedOffered(w, RESPONSE, [], false, Header(RESPONSE, prolog), ok);
  }

  lemma {:induction false} NothingSent(w: seq<WriterFrame>)
    requires OnlyRequest(w)
    ensures Sent(w, RESPONSE) == [] && !HasMeta(w)
  {
    if w != [] {
      assert w[|w| - 1] in w;
      NothingSent(w[..|w| - 1]);
    }
  }
}
