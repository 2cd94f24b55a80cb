/** Decompression of a body that arrives in pieces, over a converter that reports an error
    one call late when the call that met it also made progress. */
module Decompressor {
  import opened FilterTypes

  /** An abstract stream decoder: one byte in, some bytes out, until it is done or broken. */
  datatype Decoder<!S> = Decoder(step: (S, byte) -> (S, Bytes), done: S -> bool, bad: S -> bool)

  predicate Halted<S>(d: Decoder<S>, s: S) { d.done(s) || d.bad(s) }

  /** The whole effect of some input: the reference against which the loop is proved. */
  datatype Fed<S> = Fed(state: S, output: Bytes, consumed: nat)

  function Feed<S>(d: Decoder<S>, s: S, input: Bytes): (r: Fed<S>)
    ensures r.consumed <= |input| && (r.consumed == |input| || Halted(d, r.state))
  {
    if input == [] || Halted(d, s) then Fed(s, [], 0)
    else
      var (s1, o) := d.step(s, input[0]);
      var rest := Feed(d, s1, input[1..]);
      Fed(rest.state, o + rest.output, rest.consumed + 1)
  }

  lemma FeedHalted<S>(d: Decoder<S>, s: S, input: Bytes)
    requires input == [] || Halted(d, s)
    ensures Feed(d, s, input) == Fed(s, [], 0)
  {}

  /** Feeding a body in two pieces is feeding it whole. */
  lemma {:induction false} FeedInPieces<S>(d: Decoder<S>, s: S, a: Bytes, b: Bytes)
    ensures var first := Feed(d, s, a);
            var second := Feed(d, first.state, b);
            Feed(d, s, a + b) == Fed(second.state, first.output + second.output, first.consumed + second.consumed)
  {
    if a == [] {
      assert a + b == b;
    } else if !Halted(d, s) {
      assert (a + b)[1..] == a[1..] + b;
      FeedInPieces(d, d.step(s, a[0]).0, a[1..], b);
    }
  }

  function Joined(chunks: seq<Bytes>): Bytes {
    if chunks == [] then [] else chunks[0] + Joined(chunks[1..])
  }

  /** One call after another, over any number of chunks. */
  function FeedEach<S>(d: Decoder<S>, s: S, chunks: seq<Bytes>): Fed<S> {
    if chunks == [] then Fed(s, [], 0)
    else
      var first := Feed(d, s, chunks[0]);
      var rest := FeedEach(d, first.state, chunks[1..]);
      Fed(rest.state, first.output + rest.output, first.consumed + rest.consumed)
  }

  /** Chunking does not matter: however a body is cut up, the decoder ends in the same state
      and gives the same output. */
  lemma {:induction false} ChunkingIsInvisible<S>(d: Decoder<S>, s: S, chunks: seq<Bytes>)
    ensures FeedEach(d, s, chunks) == Feed(d, s, Joined(chunks))
  {
    if chunks != [] {
      ChunkingIsInvisible(d, Feed(d, s, chunks[0]).state, chunks[1..]);
      FeedInPieces(d, s, chunks[0], Joined(chunks[1..]));
    }
  }

  /** One call of the decoder with limited room for its output: what it could not write
      stays pending inside it. */
  datatype Advance<S> = Advance(state: S, pending: Bytes, read: nat, written: Bytes)

  function Advanced<S>(d: Decoder<S>, s: S, pending: Bytes, input: Bytes, room: nat): (r: Advance<S>)
    ensures r.read <= |input| && |r.written| <= room
    decreases |input|
  {
    var w := if |pending| <= room then |pending| else room;
    if w < |pending| || input == [] || Halted(d, s) then Advance(s, pending[w..], 0, pending[..w])
    else
      var (s1, o) := d.step(s, input[0]);
      var rest := Advanced(d, s1, o, input[1..], room - w);
      Advance(rest.state, rest.pending, rest.read + 1, pending[..w] + rest.written)
  }

  lemma Regroup(a: Bytes, b: Bytes, c: Bytes)
    ensures (a + b) + c == a + (b + c)
  {}

  /** A call moves bytes from the input to the output without changing the whole effect. */
  lemma {:induction false} AdvancedFeeds<S>(d: Decoder<S>, s: S, pending: Bytes, input: Bytes, room: nat)
    ensures var r := Advanced(d, s, pending, input, room);
            var before, after := Feed(d, s, input), Feed(d, r.state, input[r.read..]);
            r.written + (r.pending + after.output) == pending + before.output &&
            after.state == before.state && r.read + after.consumed == before.consumed
    decreases |input|
  {
    var w := if |pending| <= room then |pending| else room;
    if w < |pending| || input == [] || Halted(d, s) {
      assert input[0..] == input && pending[..w] + pending[w..] == pending;
      Regroup(pending[..w], pending[w..], Feed(d, s, input).output);
    } else {
      var (s1, o) := d.step(s, input[0]);
      AdvancedFeeds(d, s1, o, input[1..], room - w);
      var rest := Advanced(d, s1, o, input[1..], room - w);
      assert input[1..][rest.read..] == input[rest.read + 1..];
      assert pending[..w] == pending;
      hide Feed, Advanced;
      Regroup(pending, rest.written, rest.pending + Feed(d, rest.state, input[rest.read + 1..]).output);
    }
  }

  /** A call that does nothing found nothing to do. */
  lemma AdvancedIdle<S>(d: Decoder<S>, s: S, pending: Bytes, input: Bytes, room: nat)
    requires room > 0
    ensures var r := Advanced(d, s, pending, input, room);
            (r.read == 0 && r.written == [] ==> pending == [] && r.state == s && (input == [] || Halted(d, s))) &&
            (r.read == 0 ==> r.state == s && r.written + r.pending == pending)
  {}

  /** A call stops early only for want of room, or because the decoder has halted. */
  lemma {:induction false} AdvancedStops<S>(d: Decoder<S>, s: S, pending: Bytes, input: Bytes, room: nat)
    ensures var r := Advanced(d, s, pending, input, room);
            r.pending == [] ==> r.read == |input| || Halted(d, r.state)
    decreases |input|
  {
    var w := if |pending| <= room then |pending| else room;
    if !(w < |pending| || input == [] || Halted(d, s)) {
      var (s1, o) := d.step(s, input[0]);
      AdvancedStops(d, s1, o, input[1..], room - w);
    }
  }

  datatype DecoderResult = Failed | Success | NeedsMoreInput | NeedsMoreOutput

  datatype ConvertError = DecoderFailed | PartialInput | NoSpace

  datatype ConvertResult = Converted | Finished | ConvertFailed(error: ConvertError)

  function ResultOf<S>(d: Decoder<S>, r: Advance<S>): DecoderResult {
    if r.pending != [] then NeedsMoreOutput
    else if d.bad(r.state) then Failed
    else if d.done(r.state) then Success
    else NeedsMoreInput
  }

  const BUF_SIZE: nat := 1024 * 32

  class Converter<S> {
    const decoder: Decoder<S>
    var state: S
    var pending: Bytes
    var lastError: Option<ConvertError>

    constructor (decoder: Decoder<S>, start: S)
      ensures this.decoder == decoder && state == start && pending == [] && lastError == None
    {
      this.decoder, state, pending, lastError := decoder, start, [], None;
    }

    /** The converter. An error met while bytes moved is kept for the next call. */
    method Convert(input: Bytes, room: nat) returns (result: ConvertResult, read: nat, written: Bytes)
      modifies this
      ensures old(lastError).Some? ==>
                result == ConvertFailed(old(lastError).value) && lastError == None && read == 0 && written == [] &&
                state == old(state) && pending == old(pending)
      ensures old(lastError).None? ==>
                Advance(state, pending, read, written) == Advanced(decoder, old(state), old(pending), input, room)
      ensures old(lastError).None? && (read > 0 || written != []) ==>
                result == Converted &&
                match ResultOf(decoder, Advance(state, pending, read, written))
                case Failed => lastError == Some(DecoderFailed)
                case NeedsMoreInput => lastError == Some(PartialInput)
                case NeedsMoreOutput => lastError == None
                case Success => lastError == None
      ensures old(lastError).None? && read == 0 && written == [] ==>
                lastError == None &&
                match ResultOf(decoder, Advance(state, pending, read, written))
                case Failed => result == ConvertFailed(DecoderFailed)
                case NeedsMoreInput => result == ConvertFailed(PartialInput)
                case NeedsMoreOutput => result == ConvertFailed(NoSpace)
                case Success => result == Finished
    {
      if lastError.Some? {
        result, lastError, read, written := ConvertFailed(lastError.value), None, 0, [];
        return;
      }
      var r := Advanced(decoder, state, pending, input, room);
      state, pending, read, written := r.state, r.pending, r.read, r.written;
      var outcome := ResultOf(decoder, r);
      if read > 0 || written != [] {
        match outcome {
          case Failed => lastError := Some(DecoderFailed);
          case NeedsMoreInput => lastError := Some(PartialInput);
          case _ =>
        }
        return Converted, read, written;
      }
      match outcome {
        case Success => result := Finished;
        case Failed => result := ConvertFailed(DecoderFailed);
        case NeedsMoreInput => result := ConvertFailed(PartialInput);
        case NeedsMoreOutput => result := ConvertFailed(NoSpace);
      }
    }
  }

  /** The filter's side: the buffers of one direction and the converter they run through. */
  class Filter<S> {
    const converter: Converter<S>
    const transparent: bool
    var output: Bytes
    var finished: bool

    constructor (decoder: Decoder<S>, start: S, transparent: bool)
      ensures Valid() && fresh(converter) && output == [] && finished == transparent
      ensures converter.decoder == decoder && converter.state == start
    {
      converter := new Converter<S>(decoder, start);
      this.transparent := transparent;
      output, finished := [], transparent;
    }

    /** Between calls nothing is pending: neither output nor an error. */
    predicate Valid()
      reads this, converter
    {
      converter.pending == [] && converter.lastError.None?
    }

    /** The loop: it ends, leaves no error behind, has written everything the input gives
        and drained exactly what was consumed. */
    method Decompress(input: Bytes) returns (left: Bytes)
      requires Valid()
      modifies this, converter
      ensures Valid()
      ensures var fed := Feed(converter.decoder, old(converter.state), input);
              output == old(output) + fed.output && converter.state == fed.state && left == input[fed.consumed..]
      ensures finished == (old(finished) ||
                           (converter.decoder.done(converter.state) && !converter.decoder.bad(converter.state)))
    {
      hide Feed, Advanced;
      ghost var fed := Feed(converter.decoder, converter.state, input);
      ghost var start := output;
      left := input;
      assert left == input[0..];
      ghost var consumed := 0;
      while true
        invariant finished == old(finished) && 0 <= consumed <= |input| && left == input[consumed..]
        invariant var rest := Feed(converter.decoder, converter.state, left);
                  output + (converter.pending + rest.output) == start + fed.output &&
                  rest.state == fed.state && consumed + rest.consumed == fed.consumed
        invariant converter.lastError.Some? ==>
                    converter.pending == [] && (left == [] || Halted(converter.decoder, converter.state)) &&
                    (converter.decoder.bad(converter.state) || !converter.decoder.done(converter.state))
        decreases if converter.lastError.Some? then 0 else 1, |left|, |converter.pending|
      {
        AdvancedFeeds(converter.decoder, converter.state, converter.pending, left, BUF_SIZE);
        AdvancedIdle(converter.decoder, converter.state, converter.pending, left, BUF_SIZE);
        AdvancedStops(converter.decoder, converter.state, converter.pending, left, BUF_SIZE);
        label before:
        var result, read, written := converter.Convert(left, BUF_SIZE);
        output := output + written;
        if read > 0 || written != [] {
          Regroup(old@before(output), written,
                  converter.pending + Feed(converter.decoder, converter.state, left[read..]).output);
          assert left[read..] == input[consumed + read..];
          left := left[read..];
          consumed := consumed + read;
        } else {
          FeedHalted(converter.decoder, converter.state, left);
          assert output == old@before(output);
          if result == Finished { finished := true; }
          break;
        }
      }
    }

    /** One data callback. Output is held back until the stream ends, unless the filter is
        transparent, and then all of it is passed on, once. */
    method DecompressData(data: Bytes) returns (status: DataStatus, passed: Bytes)
      requires Valid()
      modifies this, converter
      ensures Valid()
      ensures var d, fed := converter.decoder, Feed(converter.decoder, old(converter.state), data);
              var all := old(output) + fed.output;
              converter.state == fed.state &&
              if old(finished) || (d.done(fed.state) && !d.bad(fed.state)) then
                status == DataContinue && passed == data[fed.consumed..] + all && output == [] &&
                finished == transparent
              else
                status == DataStopNoBuffer && passed == data[fed.consumed..] && output == all && !finished
    {
      passed := Decompress(data);
      if !finished { return DataStopNoBuffer, passed; }
      finished := transparent;
      passed := passed + output;
      output := [];
      status := DataContinue;
    }
  }
}
