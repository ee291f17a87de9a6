/** Bytes, digests, and the frames that travel on the two recording streams. */
module Frames {

  datatype Option<+T> = None | Some(value: T)

  type Byte = x: int | 0 <= x < 256

  /** SHA-1 as an uninterpreted injection: a digest is known only by the bytes that were hashed. */
  datatype Digest = Unset | Sha1(content: seq<Byte>)

  /** Record numbers used by the proxy. */
  const REQUEST: nat := 0
  const RESPONSE: nat := 1

  /** Size and block digest of one record, as put into a Meta frame. */
  datatype RecordMeta = RecordMeta(size: nat, digest: Digest)

  /** What an exact description of `content` looks like. */
  function MetaOf(content: seq<Byte>): RecordMeta {
    RecordMeta(|content|, Sha1(content))
  }

  /** The running size and hash input that a body wrapper keeps for its record. */
  datatype Recording = Recording(size: nat, hashed: seq<Byte>) {
    function Absorb(d: seq<Byte>): Recording {
      Recording(size + |d|, hashed + d)
    }

    function Meta(): RecordMeta {
      RecordMeta(size, Sha1(hashed))
    }

    predicate Exact() {
      size == |hashed|
    }
  }

  /** The fields of the crawl log that the protocol decides. An `error` of 0 means that none is set. */
  datatype CrawlLog = CrawlLog(status: int, error: int, size: nat, digest: Digest)

  /** Frames sent to the content writer. */
  datatype WriterFrame =
    | Header(rec: nat, data: seq<Byte>)
    | Payload(rec: nat, data: seq<Byte>)
    | Meta(records: map<nat, RecordMeta>)
    | Cancel

  /** Frames sent to the browser controller. */
  datatype ControllerFrame =
    | New
    | Data
    | AllData
    | Completed(log: CrawlLog, cached: bool)

  /** The client side of a gRPC stream. After CloseSend nothing reaches the wire, and a failed send
      makes every later send fail. */
  datatype Stream<F> = Stream(wire: seq<F>, closed: bool, broken: bool) {
    predicate Live() {
      !closed && !broken
    }

    function Send(f: F, ok: bool): Stream<F> {
      if !Live() then this
      else if ok then this.(wire := wire + [f])
      else this.(broken := true)
    }

    function CloseSend(): Stream<F> {
      this.(closed := true)
    }
  }

  /** The bytes transmitted for record `rec`: protocol header and payload frames, in wire order. */
  function Sent(w: seq<WriterFrame>, rec: nat): seq<Byte> {
    if w == [] then [] else Sent(w[..|w| - 1], rec) + Carried(w[|w| - 1], rec)
  }

  function Carried(f: WriterFrame, rec: nat): seq<Byte> {
    if (f.Header? || f.Payload?) && f.rec == rec then f.data else []
  }

  /** How many Meta and Cancel frames are on the wire. */
  function Terminals(w: seq<WriterFrame>): nat {
    if w == [] then 0 else Terminals(w[..|w| - 1]) + if IsTerminal(w[|w| - 1]) then 1 else 0
  }

  predicate IsTerminal(f: WriterFrame) {
    f.Meta? || f.Cancel?
  }

  predicate HasMeta(w: seq<WriterFrame>) {
    exists f :: f in w && f.Meta?
  }

  /** Nothing about the response is on the wire. */
  predicate OnlyRequest(w: seq<WriterFrame>) {
    forall f :: f in w ==> AboutRequest(f)
  }

  predicate AboutRequest(f: WriterFrame) {
    !f.Meta? && (f.Header? || f.Payload? ==> f.rec == REQUEST)
  }

  /** `records` describes exactly the bytes of `w`: always for the response, and for the request if `drained`. */
  predicate Describes(records: map<nat, RecordMeta>, w: seq<WriterFrame>, drained: bool) {
    && records.Keys == {REQUEST, RESPONSE}
    && records[RESPONSE] == MetaOf(Sent(w, RESPONSE))
    && (drained ==> records[REQUEST] == MetaOf(Sent(w, REQUEST)))
  }

  /** Every Meta frame describes exactly what was transmitted before it, which is all that is transmitted. */
  predicate Faithful(w: seq<WriterFrame>, drained: bool) {
    forall i :: 0 <= i < |w| && w[i].Meta? ==>
      Describes(w[i].records, w[..i], drained) && Describes(w[i].records, w, drained)
  }

  /** A frame that may follow a Meta frame. */
  predicate MayFollow(f: WriterFrame, drained: bool) {
    Carried(f, RESPONSE) == [] && (drained ==> Carried(f, REQUEST) == [])
  }

  lemma SentAppended(w: seq<WriterFrame>, f: WriterFrame, rec: nat)
    ensures Sent(w + [f], rec) == Sent(w, rec) + Carried(f, rec)
    ensures Terminals(w + [f]) == Terminals(w) + if IsTerminal(f) then 1 else 0
  {
    assert (w + [f])[..|w|] == w;
  }

  lemma MembersAppended(w: seq<WriterFrame>, f: WriterFrame)
    ensures HasMeta(w + [f]) <==> HasMeta(w) || f.Meta?
    ensures OnlyRequest(w + [f]) <==> OnlyRequest(w) && AboutRequest(f)
  {
    assert f in w + [f];
    assert forall g :: g in w + [f] <==> g in w || g == f;
  }

  lemma FaithfulAppended(w: seq<WriterFrame>, f: WriterFrame, drained: bool)
    requires Faithful(w, drained) && (f.Meta? ==> Describes(f.records, w, drained))
    requires HasMeta(w) ==> MayFollow(f, drained)
    ensures Faithful(w + [f], drained)
  {
    hide Sent;
    var v := w + [f];
    SentAppended(w, f, RESPONSE);
    SentAppended(w, f, REQUEST);
    assert forall s: seq<Byte> :: s + [] == s;
    forall i | 0 <= i < |v| && v[i].Meta?
      ensures Describes(v[i].records, v[..i], drained) && Describes(v[i].records, v, drained)
    {
      assert v[..|w|] == w;
      if i < |w| {
        assert v[i] == w[i] && v[..i] == w[..i] && w[i] in w;
      }
    }
  }

  /** What appending one frame does to all of the above. */
  lemma Appended(w: seq<WriterFrame>, f: WriterFrame, drained: bool)
    ensures forall rec :: Sent(w + [f], rec) == Sent(w, rec) + Carried(f, rec)
    ensures Terminals(w + [f]) == Terminals(w) + if IsTerminal(f) then 1 else 0
    ensures HasMeta(w + [f]) <==> HasMeta(w) || f.Meta?
    ensures OnlyRequest(w + [f]) <==> OnlyRequest(w) && AboutRequest(f)
    ensures (Faithful(w, drained) && (f.Meta? ==> Describes(f.records, w, drained)) && (HasMeta(w) ==> MayFollow(f, drained)))
            ==> Faithful(w + [f], drained)
  {
    hide *;
    forall rec ensures Sent(w + [f], rec) == Sent(w, rec) + Carried(f, rec) {
      SentAppended(w, f, rec);
    }
    SentAppended(w, f, REQUEST);
    MembersAppended(w, f);
    if Faithful(w, drained) && (f.Meta? ==> Describes(f.records, w, drained)) && (HasMeta(w) ==> MayFollow(f, drained)) {
      FaithfulAppended(w, f, drained);
    }
  }

  lemma {:induction false} MetaIsTerminal(w: seq<WriterFrame>)
    ensures HasMeta(w) || HasCancel(w) ==> Terminals(w) > 0
    ensures HasMeta(w) && HasCancel(w) ==> Terminals(w) > 1
  {
    if w != [] {
      var init := w[..|w| - 1];
      assert w == init + [w[|w| - 1]];
      MetaIsTerminal(init);
    }
  }

  lemma NoMetaFaithful(w: seq<WriterFrame>, drained: bool)
    ensures !HasMeta(w) ==> Faithful(w, drained)
  {
    assert forall i :: 0 <= i < |w| ==> w[i] in w;
  }

  predicate HasCancel(w: seq<WriterFrame>) {
    Cancel in w
  }
}
