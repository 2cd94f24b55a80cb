/** Replies that the proxy makes up itself: their framing, and what happens when one is
    asked for after response headers have gone out. */
module LocalReply {
  import opened FilterTypes
  import opened HttpHeaders
  import opened Decimals

  datatype Frame = HeadersFrame(headers: seq<Header>, end: bool) | DataFrame(bytes: Bytes, end: bool) | ResetFrame

  /** What the caller and the configuration do to a reply before it is framed. */
  datatype Hooks = Hooks(edit: seq<Header> -> seq<Header>, rewrite: (seq<Header>, Bytes) -> (seq<Header>, Bytes))

  datatype Prepared = Prepared(headers: seq<Header>, body: Bytes)

  function StatusHeader(code: nat): Header { Header(OtherName(":status"), Decimal(code)) }

  const TEXT_PLAIN := Header(ContentType, "text/plain")

  function Length(n: nat): Header { Header(ContentLength, Decimal(n)) }

  /** The reply as the hooks leave it, before it is framed. */
  function Raw(hooks: Hooks, code: nat, body: Bytes): Prepared {
    var (headers, rewritten) := hooks.rewrite(hooks.edit([StatusHeader(code)]), body);
    Prepared(headers, rewritten)
  }

  /** A header block frames a body if it has one Content-Length, and that is the length. */
  predicate Frames(headers: seq<Header>, body: Bytes) {
    Named(headers, ContentLength) == 1 && Length(|body|) in headers
  }

  /** Preparing a reply. */
  method Prepare(hooks: Hooks, code: nat, body: Bytes) returns (p: Prepared)
    ensures p.body == Raw(hooks, code, body).body && Length(|p.body|) in p.headers
    ensures Frames(p.headers, p.body) <==>
              Named(Raw(hooks, code, body).headers, ContentLength) <= (if p.body == [] then 2 else 1)
    ensures p.body != [] ==> Has(p.headers, ContentType)
    ensures Others(p.headers) == Others(Raw(hooks, code, body).headers)
  {
    hide Named, Others;
    ghost var raw := Raw(hooks, code, body);
    var headers := hooks.edit([StatusHeader(code)]);
    var (changed, rewritten) := hooks.rewrite(headers, body);
    headers := changed;
    if rewritten != [] {
      ReplacedOnce(headers, Length(|rewritten|));
      OthersKept(headers, ContentLength);
      OthersApart(WithoutFirst(headers, ContentLength), Length(|rewritten|));
      headers := WithoutFirst(headers, ContentLength) + [Length(|rewritten|)];
      assert headers[|headers| - 1] == Length(|rewritten|);
      if !Has(headers, ContentType) {
        ContentTypeApart(headers, ContentLength);
        OthersApart(headers, TEXT_PLAIN);
        ghost var before := headers;
        headers := WithoutFirst(headers, ContentType) + [TEXT_PLAIN];
        assert headers[|headers| - 1] == TEXT_PLAIN;
        NotNamed(before, ContentType);
        assert headers == before + [TEXT_PLAIN];
      }
    } else {
      NamedWithoutFirst(headers, ContentLength);
      OthersKept(headers, ContentLength);
      headers := WithoutFirst(headers, ContentLength);
      ContentTypeRemoved(headers);
      OthersKept(headers, ContentType);
      headers := WithoutFirst(headers, ContentType);
      ReplacedOnce(headers, Length(0));
      OthersKept(headers, ContentLength);
      OthersApart(WithoutFirst(headers, ContentLength), Length(0));
      headers := WithoutFirst(headers, ContentLength) + [Length(0)];
      assert headers[|headers| - 1] == Length(0);
    }
    p := Prepared(headers, rewritten);
  }

  /** A caller that writes two lengths into the reply. */
  const DOUBLER := Hooks(headers => headers + [Length(5), Length(5)], (headers, body) => (headers, body))

  /** Its reply to an ordinary request goes out with two lengths. */
  method UnframedReply() returns (p: Prepared)
    ensures p.body == [1] && Length(1) in p.headers && !Frames(p.headers, p.body)
  {
    p := Prepare(DOUBLER, 200, [1]);
    ghost var raw := Raw(DOUBLER, 200, [1]).headers;
    assert raw == [StatusHeader(200), Length(5)] + [Length(5)] &&
           [StatusHeader(200), Length(5)] == [StatusHeader(200)] + [Length(5)];
    NamedAppend([StatusHeader(200), Length(5)], Length(5));
    NamedAppend([StatusHeader(200)], Length(5));
  }

  /** The headers that do not frame the body. */
  function Others(headers: seq<Header>): seq<Header> {
    if headers == [] then []
    else if headers[0].name == ContentLength || headers[0].name == ContentType then Others(headers[1..])
    else [headers[0]] + Others(headers[1..])
  }

  lemma {:induction false} OthersKept(headers: seq<Header>, name: HeaderName)
    requires name == ContentLength || name == ContentType
    ensures Others(WithoutFirst(headers, name)) == Others(headers)
  {
    if headers != [] && headers[0].name != name {
      OthersKept(headers[1..], name);
      assert WithoutFirst(headers, name)[1..] == WithoutFirst(headers[1..], name);
    }
  }

  lemma {:induction false} OthersApart(headers: seq<Header>, h: Header)
    requires h.name == ContentLength || h.name == ContentType
    ensures Others(headers + [h]) == Others(headers)
  {
    if headers == [] {
      assert (headers + [h])[1..] == [];
    } else {
      OthersApart(headers[1..], h);
      assert (headers + [h])[1..] == headers[1..] + [h];
    }
  }

  lemma {:induction false} ContentTypeApart(headers: seq<Header>, name: HeaderName)
    requires name != ContentType
    ensures Named(headers + [TEXT_PLAIN], name) == Named(headers, name)
  {
    if headers == [] {
      assert (headers + [TEXT_PLAIN])[1..] == [];
    } else {
      ContentTypeApart(headers[1..], name);
      assert (headers + [TEXT_PLAIN])[1..] == headers[1..] + [TEXT_PLAIN];
    }
  }

  lemma {:induction false} ContentTypeRemoved(headers: seq<Header>)
    ensures Named(WithoutFirst(headers, ContentType), ContentLength) == Named(headers, ContentLength)
  {
    if headers != [] && headers[0].name != ContentType {
      ContentTypeRemoved(headers[1..]);
      assert WithoutFirst(headers, ContentType)[1..] == WithoutFirst(headers[1..], ContentType);
    }
  }

  lemma {:induction false} NotNamed(headers: seq<Header>, name: HeaderName)
    requires !Has(headers, name)
    ensures WithoutFirst(headers, name) == headers
  {
    if headers != [] {
      assert headers[0] in headers;
      assert forall h :: h in headers[1..] ==> h in headers;
      NotNamed(headers[1..], name);
    }
  }

  /** The frames of a reply. */
  function Framing(p: Prepared, isHead: bool, isReset: bool): seq<Frame> {
    if isHead || p.body == [] then [HeadersFrame(p.headers, true)]
    else if isReset then [HeadersFrame(p.headers, false)]
    else [HeadersFrame(p.headers, false), DataFrame(p.body, true)]
  }

  function Blocks(frames: seq<Frame>): nat {
    if frames == [] then 0 else Blocks(frames[..|frames| - 1]) + if frames[|frames| - 1].HeadersFrame? then 1 else 0
  }

  function Ends(frames: seq<Frame>): nat {
    if frames == [] then 0
    else
      var f := frames[|frames| - 1];
      Ends(frames[..|frames| - 1]) + if !f.ResetFrame? && f.end then 1 else 0
  }

  lemma {:induction false} CountsAppend(a: seq<Frame>, b: seq<Frame>)
    ensures Blocks(a + b) == Blocks(a) + Blocks(b) && Ends(a + b) == Ends(a) + Ends(b)
    decreases |b|
  {
    if b == [] {
      assert a + b == a;
    } else {
      assert (a + b)[..|a + b| - 1] == a + b[..|b| - 1];
      CountsAppend(a, b[..|b| - 1]);
    }
  }

  /** Sections 8.6 and 9.3.2 of RFC 9110: one header block, and one end of stream, which is
      on the headers for a HEAD request or an empty body and on the data otherwise. */
  lemma FramingEndsOnce(p: Prepared, isHead: bool)
    ensures var frames := Framing(p, isHead, false);
            Blocks(frames) == 1 && Ends(frames) == 1 &&
            (isHead || p.body == [] <==> frames == [HeadersFrame(p.headers, true)]) &&
            (!isHead && p.body != [] ==> frames[1..] == [DataFrame(p.body, true)])
  {
    var frames := Framing(p, isHead, false);
    CountOne(frames[0]);
    if |frames| == 2 {
      CountOne(frames[1]);
      CountsAppend([frames[0]], [frames[1]]);
      assert frames == [frames[0]] + [frames[1]];
    } else {
      assert frames == [frames[0]];
    }
  }

  lemma CountOne(f: Frame)
    ensures Blocks([f]) == (if f.HeadersFrame? then 1 else 0) && Ends([f]) == (if !f.ResetFrame? && f.end then 1 else 0)
  {
    assert [f][..0] == [];
  }

  /** The downstream side of the manager, as far as local replies go. */
  class Replier {
    const hooks: Hooks
    const isHead: bool
    var headersEncoded: bool
    var destroyed: bool
    var frames: seq<Frame>

    constructor (hooks: Hooks, isHead: bool)
      ensures Valid() && frames == [] && !headersEncoded && this.isHead == isHead
    {
      this.hooks, this.isHead := hooks, isHead;
      headersEncoded, destroyed, frames := false, false, [];
    }

    /** Over all replies so far there was one header block at most, and none unnoticed. */
    ghost predicate Valid()
      reads this
    {
      Blocks(frames) == if headersEncoded then 1 else 0
    }

    method EncodeLocalReply(p: Prepared)
      requires Valid() && !headersEncoded
      modifies this
      ensures Valid() && headersEncoded && destroyed == old(destroyed)
      ensures frames == old(frames) + Framing(p, isHead, destroyed)
    {
      ghost var added := Framing(p, isHead, destroyed);
      headersEncoded := true;
      if isHead {
        frames := frames + [HeadersFrame(p.headers, true)];
      } else {
        var bodyless := p.body == [];
        frames := frames + [HeadersFrame(p.headers, bodyless)];
        if !bodyless && !destroyed {
          frames := frames + [DataFrame(p.body, true)];
        }
      }
      assert frames == old(frames) + added;
      CountsAppend(old(frames), added);
      CountOne(added[0]);
      if |added| == 2 {
        CountOne(added[1]);
        CountsAppend([added[0]], [added[1]]);
        assert added == [added[0]] + [added[1]];
      } else {
        assert added == [added[0]];
      }
    }

    /** A local reply once the request's headers are in. The first one is sent directly
        unless headers have gone out already or a filter asks for a reset; any other resets
        the stream, so no second header block ever goes out. */
    method SendLocalReply(code: nat, body: Bytes, resetImminent: bool)
      requires Valid()
      modifies this
      ensures Valid() && destroyed == old(destroyed) && headersEncoded == (old(headersEncoded) || !resetImminent)
      ensures resetImminent || old(headersEncoded) ==> frames == old(frames) + [ResetFrame]
      ensures !resetImminent && !old(headersEncoded) ==>
                exists p: Prepared :: frames == old(frames) + Framing(p, isHead, destroyed) &&
                  p.body == Raw(hooks, code, body).body && Length(|p.body|) in p.headers &&
                  Others(p.headers) == Others(Raw(hooks, code, body).headers) &&
                  (p.body != [] ==> Has(p.headers, ContentType)) &&
                  (Frames(p.headers, p.body) <==>
                     Named(Raw(hooks, code, body).headers, ContentLength) <= (if p.body == [] then 2 else 1))
    {
      if resetImminent || headersEncoded {
        CountsAppend(frames, [ResetFrame]);
        CountOne(ResetFrame);
        frames := frames + [ResetFrame];
      } else {
        var p := Prepare(hooks, code, body);
        EncodeLocalReply(p);
      }
    }
  }
}
