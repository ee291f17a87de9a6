/** The content writer that checks what it is sent: it recounts every record and compares the result
    with the Meta frame. */
module Peer {
  import opened Frames

  /** How a call of Write ends. `Accepted` carries the block digests of the reply. */
  datatype Verdict =
    | Accepted(reply: map<nat, Digest>)
    | MissingMetadata | SizeMismatch | DigestMismatch | FakeError
    | Panicked | Disconnected

  // ---------- what the peer counts ----------

  /** A header starts its record anew; a payload is added to a record that has been started. */
  function Count(t: map<nat, Recording>, f: WriterFrame): map<nat, Recording> {
    match f
    case Header(rec, d) => t[rec := Recording(|d|, d)]
    case Payload(rec, d) => if rec in t then t[rec := t[rec].Absorb(d)] else t
    case _ => t
  }

  function Tally(w: seq<WriterFrame>): map<nat, Recording> {
    if w == [] then map[] else Count(Tally(w[..|w| - 1]), w[|w| - 1])
  }

  function SizeOf(t: map<nat, Recording>, rec: nat): nat {
    if rec in t then t[rec].size else 0
  }

  /** A record that was never started has no digest. */
  function DigestOf(t: map<nat, Recording>, rec: nat): Digest {
    if rec in t then Sha1(t[rec].hashed) else Unset
  }

  function Replies(w: seq<WriterFrame>): map<nat, Digest> {
    if w == [] then map[]
    else
      var init, f := Replies(w[..|w| - 1]), w[|w| - 1];
      if f.Meta? then init + Answer(f.records) else init
  }

  function Answer(records: map<nat, RecordMeta>): map<nat, Digest> {
    map rec | rec in records :: records[rec].digest
  }

  // ---------- what the peer finds fault with ----------

  predicate SizeFault(t: map<nat, Recording>, f: WriterFrame, rec: nat) {
    f.Meta? && rec in f.records && f.records[rec].size != SizeOf(t, rec)
  }

  predicate DigestFault(t: map<nat, Recording>, f: WriterFrame, rec: nat) {
    f.Meta? && rec in f.records && f.records[rec].size == SizeOf(t, rec) && f.records[rec].digest != DigestOf(t, rec)
  }

  /** A payload of a record that was never started makes the peer panic. */
  predicate Unstarted(t: map<nat, Recording>, f: WriterFrame) {
    f.Payload? && f.rec !in t
  }

  /** The records agree with the count. */
  predicate Matches(t: map<nat, Recording>, records: map<nat, RecordMeta>) {
    forall rec :: rec in records ==> records[rec] == RecordMeta(SizeOf(t, rec), DigestOf(t, rec))
  }

  ghost predicate Sound(w: seq<WriterFrame>, i: nat, fake: bool)
    requires i < |w|
  {
    var t, f := Tally(w[..i]), w[i];
    && !Unstarted(t, f)
    && (f.Meta? ==> Matches(t, f.records) && (fake ==> f.records == map[]))
  }

  ghost predicate AllSound(w: seq<WriterFrame>, n: nat, fake: bool)
    requires n <= |w|
  {
    forall i :: 0 <= i < n ==> Sound(w, i, fake)
  }

  /** The verdict is the right one: the frame at which the peer stops is the first it has reason to stop
      at, and without such a frame the end of the stream decides. */
  ghost predicate Right(v: Verdict, w: seq<WriterFrame>, eof: bool, fake: bool) {
    match v
    case Accepted(reply) => AllSound(w, |w|, fake) && eof && (HasMeta(w) || HasCancel(w)) && reply == Replies(w)
    case MissingMetadata => AllSound(w, |w|, fake) && eof && !HasMeta(w) && !HasCancel(w)
    case Disconnected => AllSound(w, |w|, fake) && !eof
    case Panicked => exists i :: 0 <= i < |w| && AllSound(w, i, fake) && Unstarted(Tally(w[..i]), w[i])
    case SizeMismatch =>
      exists i, rec :: 0 <= i < |w| && AllSound(w, i, fake) && SizeFault(Tally(w[..i]), w[i], rec)
    case DigestMismatch =>
      exists i, rec :: 0 <= i < |w| && AllSound(w, i, fake) && DigestFault(Tally(w[..i]), w[i], rec)
    case FakeError => fake && exists i :: 0 <= i < |w| && AllSound(w, i, fake) && w[i].Meta?
  }

  // ---------- the server ----------

  /** The records that are not `left` agree with the count. */
  predicate Checked(t: map<nat, Recording>, records: map<nat, RecordMeta>, left: set<nat>) {
    forall rec :: rec in records && rec !in left ==> records[rec] == RecordMeta(SizeOf(t, rec), DigestOf(t, rec))
  }

  /** The reply answers the records that are not `left`. */
  predicate Answered(records: map<nat, RecordMeta>, left: set<nat>, reply: map<nat, Digest>, newReply: map<nat, Digest>) {
    && newReply.Keys == reply.Keys + (records.Keys - left)
    && forall rec :: rec in newReply ==>
         newReply[rec] == if rec in records && rec !in left then records[rec].digest else reply[rec]
  }

  lemma NothingChecked(t: map<nat, Recording>, records: map<nat, RecordMeta>, reply: map<nat, Digest>)
    ensures Checked(t, records, records.Keys) && Answered(records, records.Keys, reply, reply)
  {
  }

  lemma AllChecked(t: map<nat, Recording>, records: map<nat, RecordMeta>, reply: map<nat, Digest>, newReply: map<nat, Digest>)
    requires Checked(t, records, {}) && Answered(records, {}, reply, newReply)
    ensures Matches(t, records) && newReply == reply + Answer(records)
  {
    assert newReply.Keys == (reply + Answer(records)).Keys;
  }

  lemma RecordDone(t: map<nat, Recording>, records: map<nat, RecordMeta>, left: set<nat>, rec: nat,
                   reply: map<nat, Digest>, newReply: map<nat, Digest>)
    requires left <= records.Keys && rec in left && records[rec] == RecordMeta(SizeOf(t, rec), DigestOf(t, rec))
    requires Checked(t, records, left) && Answered(records, left, reply, newReply)
    ensures Checked(t, records, left - {rec})
    ensures Answered(records, left - {rec}, reply, newReply[rec := records[rec].digest])
  {
  }

  /** The peer's comparisons are those of the recount. */
  lemma Faults(t: map<nat, Recording>, size: map<nat, nat>, digest: map<nat, seq<Byte>>, records: map<nat, RecordMeta>, rec: nat)
    requires size.Keys == digest.Keys == t.Keys && rec in records
    requires forall rec :: rec in t ==> t[rec] == Recording(size[rec], digest[rec])
    ensures SizeFault(t, Meta(records), rec) <==> (if rec in size then size[rec] else 0) != records[rec].size
    ensures DigestFault(t, Meta(records), rec) <==>
              && !SizeFault(t, Meta(records), rec)
              && (if rec in digest then Sha1(digest[rec]) else Unset) != records[rec].digest
    ensures !SizeFault(t, Meta(records), rec) && !DigestFault(t, Meta(records), rec) ==>
              records[rec] == RecordMeta(SizeOf(t, rec), DigestOf(t, rec))
  {
  }

  /** Checks one Meta frame, record by record in no particular order. */
  method CheckMeta(records: map<nat, RecordMeta>, size: map<nat, nat>, digest: map<nat, seq<Byte>>,
                   reply: map<nat, Digest>, fake: bool, ghost t: map<nat, Recording>)
    returns (fault: Option<Verdict>, newReply: map<nat, Digest>)
    requires size.Keys == digest.Keys == t.Keys
    requires forall rec :: rec in t ==> t[rec] == Recording(size[rec], digest[rec])
    ensures fault.None? ==>
              && Matches(t, records)
              && (fake ==> records == map[]) && newReply == reply + Answer(records)
    ensures fault.Some? ==>
              match fault.value
              case SizeMismatch => exists rec :: SizeFault(t, Meta(records), rec)
              case DigestMismatch => exists rec :: DigestFault(t, Meta(records), rec)
              case FakeError => fake
              case _ => false
  {
    hide Answered, Checked, Answer, Matches, SizeFault, DigestFault, SizeOf, DigestOf;
    newReply := reply;
    var left := records.Keys;
    NothingChecked(t, records, reply);
    while left != {}
      invariant left <= records.Keys && Checked(t, records, left) && Answered(records, left, reply, newReply)
      invariant left != records.Keys ==> !fake
      decreases |left|
    {
      var rec :| rec in left;
      Faults(t, size, digest, records, rec);
      var expected := if rec in size then size[rec] else 0;
      if expected != records[rec].size {
        assert SizeFault(t, Meta(records), rec);
        return Some(SizeMismatch), newReply;
      }
      var block := if rec in digest then Sha1(digest[rec]) else Unset;
      if block != records[rec].digest {
        assert DigestFault(t, Meta(records), rec);
        return Some(DigestMismatch), newReply;
      }
      if fake {
        return Some(FakeError), newReply;
      }
      RecordDone(t, records, left, rec, reply, newReply);
      newReply := newReply[rec := records[rec].digest];
      left := left - {rec};
    }
    AllChecked(t, records, reply, newReply);
    fault := None;
  }

  /** What reading one more frame adds. */
  lemma OneMore(w: seq<WriterFrame>, i: nat, fake: bool)
    requires i < |w|
    ensures Tally(w[..i + 1]) == Count(Tally(w[..i]), w[i])
    ensures Replies(w[..i + 1]) == if w[i].Meta? then Replies(w[..i]) + Answer(w[i].records) else Replies(w[..i])
    ensures HasMeta(w[..i + 1]) <==> HasMeta(w[..i]) || w[i].Meta?
    ensures HasCancel(w[..i + 1]) <==> HasCancel(w[..i]) || w[i].Cancel?
    ensures AllSound(w, i + 1, fake) <==> AllSound(w, i, fake) && Sound(w, i, fake)
  {
    assert w[..i + 1] == w[..i] + [w[i]] && w[..i + 1][..i] == w[..i];
    MembersAppended(w[..i], w[i]);
  }

  lemma NothingRead(w: seq<WriterFrame>, fake: bool)
    ensures Tally(w[..0]) == map[] && Replies(w[..0]) == map[] && !HasMeta(w[..0]) && !HasCancel(w[..0])
    ensures AllSound(w, 0, fake)
  {
  }

  /** The server: reads frames until the end of the stream or the first fault. */
  method Write(w: seq<WriterFrame>, eof: bool, fake: bool) returns (v: Verdict)
    ensures Right(v, w, eof, fake)
  {
    hide Tally, Replies, HasMeta, HasCancel, AllSound, Answer;
    NothingRead(w, fake);
    var size: map<nat, nat>, digest: map<nat, seq<Byte>> := map[], map[];
    var reply: map<nat, Digest> := map[];
    var gotMeta, gotCancel := false, false;
    var i := 0;
    while i < |w|
      invariant 0 <= i <= |w| && AllSound(w, i, fake)
      invariant size.Keys == digest.Keys == Tally(w[..i]).Keys
      invariant forall rec :: rec in size ==> Tally(w[..i])[rec] == Recording(size[rec], digest[rec])
      invariant gotMeta <==> HasMeta(w[..i])
      invariant gotCancel <==> HasCancel(w[..i])
      invariant reply == Replies(w[..i])
      decreases |w| - i
    {
      OneMore(w, i, fake);
      match w[i] {
        case Header(rec, d) =>
          size, digest := size[rec := |d|], digest[rec := d];
        case Payload(rec, d) =>
          size := size[rec := (if rec in size then size[rec] else 0) + |d|];
          if rec !in digest {
            return Panicked;
          }
          digest := digest[rec := digest[rec] + d];
        case Meta(records) =>
          gotMeta := true;
          var fault, newReply := CheckMeta(records, size, digest, reply, fake, Tally(w[..i]));
          if fault.Some? {
            return fault.value;
          }
          reply := newReply;
        case Cancel =>
          gotCancel := true;
      }
      i := i + 1;
    }
    assert w[..i] == w;
    if !eof {
      return Disconnected;
    }
    if !gotMeta && !gotCancel {
      return MissingMetadata;
    }
    return Accepted(reply);
  }
}
