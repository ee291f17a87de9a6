/** The reader that the transport uses for the request body. */
module RequestBody {
  import opened Frames
  import opened Session
  import opened ContentWriter
  import opened Bodies

  class WrappedRequestBody {
    const upstream: Upstream
    const cwc: CwcSession
    const blockCrc: Hash
    var size: nat
    var eof: bool
    var recordMeta: RecordMeta
    var failed: bool

    /** The prolog, all bytes of the body, those read so far, and whether any were not transmitted. */
    ghost const prolog: seq<Byte>
    ghost const whole: seq<Byte>
    ghost var taken: seq<Byte>
    ghost var lost: bool

    /** Everything taken so far is counted, hashed and, unless lost, transmitted. */
    ghost predicate Counted()
      reads this, cwc, blockCrc
    {
      && cwc.Valid()
      && size == |blockCrc.content| && blockCrc.content == prolog + taken
      && Recorded(cwc.View(), REQUEST, prolog + taken, lost)
    }

    /** The record's description is filled in at the first EOF and not before. */
    ghost predicate Valid()
      reads this, upstream, cwc, blockCrc
    {
      && Counted()
      && (if eof then taken == whole && recordMeta == MetaOf(prolog + whole)
          else taken + BytesOf(upstream.script) == whole && recordMeta == RecordMeta(0, Unset))
    }

    /** The protocol header goes out first; without it there is no wrapper to use. */
    constructor WrapRequestBody(upstream: Upstream, cwc: CwcSession, prolog: seq<Byte>, grain: nat, ok: bool)
      requires cwc.Valid() && Sent(cwc.stream.wire, REQUEST) == []
      modifies cwc
      ensures Valid() && this.upstream == upstream && this.cwc == cwc && fresh(blockCrc)
      ensures this.prolog == prolog && whole == BytesOf(upstream.script) && taken == [] && !eof
      ensures cwc.View() == Offered(old(cwc.View()), Header(REQUEST, prolog), ok)
      ensures failed <==> !old(cwc.canceled) && !(old(cwc.stream).Live() && ok)
      ensures !failed ==> lost == old(cwc.canceled)
    {
      hide Recorded, Sent, CwcSession.Valid, BytesOf, Offered;
      this.upstream, this.cwc := upstream, cwc;
      this.prolog, whole, taken := prolog, BytesOf(upstream.script), [];
      eof, recordMeta := false, RecordMeta(0, Unset);
      size := |prolog|;
      blockCrc := new Hash(grain);
      lost := cwc.canceled || !(cwc.stream.Live() && ok);
      new;
      Units(BytesOf(upstream.script));
      Units(prolog);
      StartRecorded(cwc.View(), prolog, ok);
      WriteCrc(blockCrc, prolog);
      failed := cwc.SendProtocolHeader(REQUEST, prolog, ok);
    }

    /** What Read does with the bytes it has read. */
    method Record(d: seq<Byte>, ok: bool)
      requires Counted()
      modifies this`size, this`taken, this`lost, cwc, blockCrc
      ensures Counted() && taken == old(taken) + d
      ensures cwc.View() == Offered(old(cwc.View()), Payload(REQUEST, d), ok)
      ensures lost <==> old(lost) || old(cwc.canceled) || !(old(cwc.stream).Live() && ok)
    {
      hide Recorded, Sent, CwcSession.Valid;
      size := size + |d|;
      WriteCrc(blockCrc, d);
      RecordedOffered(cwc.View(), REQUEST, prolog + taken, lost, Payload(REQUEST, d), ok);
      assert prolog + (taken + d) == prolog + taken + d;
      lost := lost || cwc.canceled || !(cwc.stream.Live() && ok);
      taken := taken + d;
      var err := cwc.SendPayload(REQUEST, d, ok);
    }

    /** Passes on what the body yields, and after the first EOF nothing but EOF. */
    method Read(p: array<Byte>, ok: bool) returns (n: nat, res: ReadResult)
      requires Valid()
      modifies this, upstream, cwc, blockCrc, p
      ensures Valid() && (eof <==> res.Eof? || old(eof))
      ensures n <= p.Length && taken == old(taken) + p[..n]
      ensures if old(eof) then n == 0 && res.Eof? else Chunk(p[..n], res) == Next(old(upstream.script), p.Length).0
      ensures cwc.View() == if n > 0 then Offered(old(cwc.View()), Payload(REQUEST, p[..n]), ok) else old(cwc.View())
      ensures lost <==> old(lost) || (n > 0 && (old(cwc.canceled) || !(old(cwc.stream).Live() && ok)))
    {
      hide Recorded, BytesOf, CwcSession.Valid, Next;
      if eof {
        return 0, Eof;
      }
      NextTakes(upstream.script, p.Length);
      n, res := upstream.Read(p);
      assert taken + (p[..n] + if res.Eof? then [] else BytesOf(upstream.script)) == whole;
      assert taken + p[..n] + (if res.Eof? then [] else BytesOf(upstream.script)) == whole;
      if n > 0 {
        Record(p[..n], ok);
      }
      assert n == 0 ==> p[..n] == [];
      if res.Eof? {
        eof := true;
        var digest := blockCrc.Sum();
        recordMeta := RecordMeta(size, digest);
      }
    }
  }

  lemma StartRecorded(w: Writer, prolog: seq<Byte>, ok: bool)
    requires Sent(w.stream.wire, REQUEST) == []
    ensures Recorded(Offered(w, Header(REQUEST, prolog), ok), REQUEST, prolog, w.canceled || !(w.stream.Live() && ok))
  {
    hide Sent;
    Units(prolog);
    RecordedOffered(w, REQUEST, [], false, Header(REQUEST, prolog), ok);
  }
}
