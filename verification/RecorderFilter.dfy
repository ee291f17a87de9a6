/** What the recorder filter does with a response before its body is read. */
module RecorderFilter {
  import opened Frames
  import opened Session
  import opened Bodies
  import opened ContentWriter
  import opened BrowserController
  import opened ResponseBody

  const HIT := "HIT from veidemann_cache"

  /** strings.Contains: `sub` starts here or further on. */
  predicate Contains(s: string, sub: string) {
    sub <= s || (s != "" && Contains(s[1..], sub))
  }

  predicate OccursAt(s: string, sub: string, i: nat) {
    i + |sub| <= |s| && s[i..i + |sub|] == sub
  }

  /** It does so exactly if it is a slice of `s`. */
  lemma {:induction false} ContainsIff(s: string, sub: string)
    ensures Contains(s, sub) <==> exists i: nat :: OccursAt(s, sub, i)
  {
    if sub <= s {
      assert OccursAt(s, sub, 0);
    } else if s != "" {
      ContainsIff(s[1..], sub);
      if Contains(s[1..], sub) {
        var i: nat :| OccursAt(s[1..], sub, i);
        assert OccursAt(s, sub, i + 1);
      }
      forall i: nat | OccursAt(s, sub, i)
        ensures i > 0 && OccursAt(s[1..], sub, i - 1)
      {
      }
    }
  }

  /** Some X-Cache header has the hit text in it. */
  ghost predicate SaysHit(cacheHeaders: seq<string>) {
    exists v, i: nat :: v in cacheHeaders && OccursAt(v, HIT, i)
  }

  /** isFromCache. */
  method IsFromCache(cacheHeaders: seq<string>) returns (hit: bool)
    ensures hit <==> SaysHit(cacheHeaders)
  {
    hide Contains, OccursAt;
    for k := 0 to |cacheHeaders|
      invariant forall v, i: nat :: v in cacheHeaders[..k] ==> !OccursAt(v, HIT, i)
    {
      ContainsIff(cacheHeaders[k], HIT);
      if Contains(cacheHeaders[k], HIT) {
        assert cacheHeaders[k] in cacheHeaders;
        return true;
      }
      assert cacheHeaders[..k + 1] == cacheHeaders[..k] + [cacheHeaders[k]];
    }
    assert cacheHeaders[..|cacheHeaders|] == cacheHeaders;
    return false;
  }

  class Response {
    const status: int
    const cacheHeaders: seq<string>
    const body: Upstream
    var contentLength: int

    constructor (status: int, cacheHeaders: seq<string>, body: Upstream, contentLength: int)
      ensures this.status == status && this.cacheHeaders == cacheHeaders && this.body == body
      ensures this.contentLength == contentLength
    {
      this.status, this.cacheHeaders, this.body, this.contentLength := status, cacheHeaders, body, contentLength;
    }
  }

  /** filterResponse: `unknownError` says that the controller's stream has failed in an unknown way, and then
      the response passes unrecorded. With a replacement script the length promised to the client is the
      script's, which is the length of all that a Read up to EOF gives it. */
  method FilterResponse(resp: Response, rc: RecordContext, unknownError: bool, prolog: seq<Byte>, grain: nat, ok: bool)
    returns (b: WrappedResponseBody?)
    requires rc.cwc.Valid() && rc.bcc.Valid() && Silent(rc.cwc.View(), rc.bcc.stream)
    modifies resp, rc, rc.cwc
    ensures unknownError ==> b == null && rc.cwc.View() == old(rc.cwc.View()) && resp.contentLength == old(resp.contentLength)
    ensures !unknownError ==>
              (rc.foundInCache <==> old(rc.foundInCache) || SaysHit(resp.cacheHeaders))
    ensures b == null <==> unknownError
                           || (!rc.foundInCache && !old(rc.cwc.canceled) && !(old(rc.cwc.stream).Live() && ok))
    ensures b != null ==>
              && fresh(b) && b.Valid() && b.rc == rc && b.upstream == resp.body && b.prolog == prolog
              && b.whole == BytesOf(resp.body.script)
              && resp.contentLength == if rc.replacement.Some? then |rc.replacement.value| else old(resp.contentLength)
  {
    hide CwcSession.Valid, BccSession.Valid, Silent, BytesOf, OccursAt;
    if unknownError {
      return null;
    }
    var hit := IsFromCache(resp.cacheHeaders);
    if hit {
      rc.foundInCache := true;
    }
    var body := new WrappedResponseBody.WrapResponseBody(resp.body, rc, resp.status, prolog, grain, ok);
    if body.failed {
      return null;
    }
    if rc.replacement.Some? {
      resp.contentLength := |rc.replacement.value|;
    }
    b := body;
  }

  /** handleRequestError, once the content writer has been opened: the error is reported, the content writer
      cancelled, and the client told the code in `header`. */
  method HandleRequestError(rc: RecordContext, code: int, notified: bool, sent: bool) returns (header: ErrorHeader)
    requires rc.cwc.Valid() && rc.bcc.Valid()
    modifies rc`log, rc.cwc, rc.bcc
    ensures rc.cwc.Valid() && rc.bcc.Valid()
    ensures (rc.bcc.View(), rc.log, header) == RequestFailed(old(rc.bcc.View()), old(rc.log), code, notified)
    ensures rc.cwc.View() == Canceled(old(rc.cwc.View()), Handler, sent)
    ensures rc.bcc.Told(header) <==>
            if old(rc.bcc.complete).Some? then old(rc.bcc.complete).value.err.Some? else old(rc.bcc.stream).Live() && notified
    ensures rc.cwc.canceled && !rc.cwc.stream.Live() && (HasMeta(rc.cwc.stream.wire) <==> old(HasMeta(rc.cwc.stream.wire)))
  {
    hide HasMeta, Terminals, BccSession.Valid, RequestFailed;
    rc.log, header := rc.bcc.SendRequestError(rc.log, code, notified);
    CanceledKeeps(rc.cwc.View(), Handler, sent, rc.bcc.stream);
    rc.cwc.CancelContentWriter(Handler, sent);
  }
}
