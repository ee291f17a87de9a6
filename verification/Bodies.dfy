/** The recording body readers: bytes pass through to the reader of the body while they are counted,
    hashed and sent to the content writer. */
module Bodies {
  import opened Frames
  import opened Session
  import opened ContentWriter

  // ---------- what a body yields ----------

  /** One Read with room for `room` bytes, from the chunks that are still to come. */
  function Next(script: seq<Chunk>, room: nat): (Chunk, seq<Chunk>) {
    if script == [] then (Chunk([], Eof), [])
    else if |script[0].data| <= room then (script[0], script[1..])
    else (Chunk(script[0].data[..room], More), [Chunk(script[0].data[room..], script[0].res)] + script[1..])
  }

  /** All bytes up to the first EOF. */
  function BytesOf(script: seq<Chunk>): seq<Byte> {
    if script == [] then []
    else script[0].data + if script[0].res.Eof? then [] else BytesOf(script[1..])
  }

  function Left(script: seq<Chunk>): nat {
    if script == [] then 0 else 1 + |script[0].data| + Left(script[1..])
  }

  lemma FirstChunk(c: Chunk, rest: seq<Chunk>)
    ensures BytesOf([c] + rest) == c.data + if c.res.Eof? then [] else BytesOf(rest)
    ensures Left([c] + rest) == 1 + |c.data| + Left(rest)
  {
    assert ([c] + rest)[1..] == rest;
  }

  lemma PartOfChunk(c: Chunk, tail: seq<Chunk>, room: nat)
    requires |c.data| > room
    ensures BytesOf([c] + tail) == c.data[..room] + BytesOf([Chunk(c.data[room..], c.res)] + tail)
    ensures Left([Chunk(c.data[room..], c.res)] + tail) == Left([c] + tail) - room
  {
    hide BytesOf, Left;
    FirstChunk(c, tail);
    FirstChunk(Chunk(c.data[room..], c.res), tail);
    var after := if c.res.Eof? then [] else BytesOf(tail);
    assert c.data + after == c.data[..room] + (c.data[room..] + after);
  }

  /** Whatever the room, a Read takes its bytes off the front of those to come. */
  lemma NextTakes(script: seq<Chunk>, room: nat)
    ensures var (c, rest) := Next(script, room);
            && |c.data| <= room
            && BytesOf(script) == c.data + (if c.res.Eof? then [] else BytesOf(rest))
            && Left(rest) <= Left(script)
            && (room > 0 && !c.res.Eof? ==> Left(rest) < Left(script))
  {
    if script != [] {
      assert script == [script[0]] + script[1..];
      FirstChunk(script[0], script[1..]);
      hide BytesOf, Left;
      if |script[0].data| > room {
        PartOfChunk(script[0], script[1..], room);
      }
    }
  }

  /** A body as its transport delivers it. */
  class Upstream {
    var script: seq<Chunk>

    constructor (script: seq<Chunk>)
      ensures this.script == script
    {
      this.script := script;
    }

    method Read(p: array<Byte>) returns (n: nat, res: ReadResult)
      modifies this, p
      ensures var (c, rest) := Next(old(script), p.Length);
              script == rest && n == |c.data| <= p.Length && p[..n] == c.data && res == c.res
    {
      if script == [] {
        return 0, Eof;
      }
      var data := script[0].data;
      n := if |data| <= p.Length then |data| else p.Length;
      for i := 0 to n
        invariant p[..i] == data[..i]
        modifies p
      {
        p[i] := data[i];
      }
      if n == |data| {
        res := script[0].res;
        script := script[1..];
      } else {
        res := More;
        script := [Chunk(data[n..], script[0].res)] + script[1..];
      }
      assert data[..|data|] == data;
    }
  }

  // ---------- the running digest ----------

  /** hash.Hash over SHA-1; a Write may take less than it is given. */
  class Hash {
    var content: seq<Byte>
    const grain: nat

    constructor (grain: nat)
      ensures content == [] && this.grain == grain
    {
      content := [];
      this.grain := grain;
    }

    method Write(d: seq<Byte>) returns (n: nat)
      requires d != []
      modifies this
      ensures 0 < n <= |d| && content == old(content) + d[..n]
    {
      n := if grain == 0 || grain > |d| then |d| else grain;
      content := content + d[..n];
    }

    method Sum() returns (digest: Digest)
      ensures digest == Sha1(content)
    {
      digest := Sha1(content);
    }
  }

  /** writeCrc: writes until all of `d` has been taken. */
  method WriteCrc(hash: Hash, d: seq<Byte>)
    modifies hash
    ensures hash.content == old(hash.content) + d
  {
    var c := 0;
    while c < |d|
      invariant 0 <= c <= |d|
      invariant hash.content == old(hash.content) + d[..c]
      decreases |d| - c
    {
      var n := hash.Write(d[c..]);
      assert d[..c] + d[c..][..n] == d[..c + n];
      c := c + n;
    }
    assert d[..c] == d;
  }

  // ---------- a record on the wire ----------

  /** Unless something was lost, what has been hashed is what was transmitted; and once something is lost,
      nothing more can reach the wire, or the session is marked as cancelled. */
  ghost predicate Recorded(w: Writer, rec: nat, hashed: seq<Byte>, lost: bool) {
    && (lost ==> w.canceled || !w.stream.Live())
    && (!lost ==> Sent(w.stream.wire, rec) == hashed)
  }

  lemma RecordedOffered(w: Writer, rec: nat, hashed: seq<Byte>, lost: bool, f: WriterFrame, ok: bool)
    requires Recorded(w, rec, hashed, lost) && (f.Header? || f.Payload?)
    ensures f.rec == rec ==>
              Recorded(Offered(w, f, ok), rec, hashed + f.data, lost || w.canceled || !(w.stream.Live() && ok))
    ensures f.rec != rec ==> Recorded(Offered(w, f, ok), rec, hashed, lost)
  {
    hide Sent;
    SentAppended(w.stream.wire, f, rec);
    assert Sent(w.stream.wire, rec) + [] == Sent(w.stream.wire, rec);
  }

  /** Cancelling, the watcher and SendMeta leave the record as it is: so does anything that may kill the
      stream, mark the session as cancelled, or add a terminal frame. */
  lemma RecordedKept(w: Writer, w': Writer, rec: nat, hashed: seq<Byte>, lost: bool)
    requires Recorded(w, rec, hashed, lost)
    requires OneTerminalMore(w, w')
    ensures Recorded(w', rec, hashed, lost)
  {
    hide Sent;
    if w'.stream.wire != w.stream.wire {
      var f :| IsTerminal(f) && w'.stream.wire == w.stream.wire + [f];
      SentAppended(w.stream.wire, f, rec);
      assert Sent(w.stream.wire, rec) + [] == Sent(w.stream.wire, rec);
    }
  }

  ghost predicate OneTerminalMore(w: Writer, w': Writer) {
    && (w'.stream.wire == w.stream.wire || exists f :: IsTerminal(f) && w'.stream.wire == w.stream.wire + [f])
    && (w.canceled ==> w'.canceled) && (w'.stream.Live() ==> w.stream.Live())
  }

  lemma CancelMore(w: Writer, me: Thread, ok: bool)
    ensures OneTerminalMore(w, Canceled(w, me, ok))
  {
    assert IsTerminal(Cancel);
  }

  lemma MetaMore(w: Writer, records: map<nat, RecordMeta>, ok: bool, replied: bool)
    ensures OneTerminalMore(w, MetaSent(w, records, ok, replied))
  {
    assert IsTerminal(Meta(records));
  }

  lemma Units(s: seq<Byte>)
    ensures [] + s == s + [] == s
  {
  }
}
