/**
 Re-chunking of a byte stream into records: the loop that feeds the AMQP parser.

 A consumer is any stateful function that looks at the buffered bytes and says how many it took;
 zero means "wait for more".
 */
module MqBuffer {
  import opened Bytes
  import opened Sequences

  /** A count of consumed bytes that the loop's cast to a 32-bit integer leaves as it is. */
  type Claim = n: int | 0 <= n <= 0x7FFF_FFFF

  type Consumer<!S> = (S, seq<byte>) -> (S, Claim)

  /** What feeding produced: the consumer's state, the records with the state each left behind, and the unread bytes. */
  datatype Fed<S> = Fed(state: S, records: seq<(S, seq<byte>)>, rest: seq<byte>)

  /** Removing more bytes than the buffer holds empties it. */
  function Dropped(buffer: seq<byte>, n: nat): seq<byte> {
    if n <= |buffer| then buffer[n..] else []
  }

  function Taken(buffer: seq<byte>, n: nat): seq<byte> {
    if n <= |buffer| then buffer[..n] else buffer
  }

  function Drain<S>(consume: Consumer<S>, s: S, buffer: seq<byte>): (fed: Fed<S>)
    decreases |buffer|
  {
    if buffer == [] then Fed(s, [], []) else
    var (next, n) := consume(s, buffer);
    if n == 0 then Fed(next, [], buffer) else
    var later := Drain(consume, next, Dropped(buffer, n));
    Fed(later.state, [(next, Taken(buffer, n))] + later.records, later.rest)
  }

  class Stream<S> {
    var buffer: seq<byte>
    var state: S
    var records: seq<(S, seq<byte>)>

    constructor (s: S)
      ensures buffer == [] && state == s && records == []
    {
      buffer, state, records := [], s, [];
    }

    method Feed(chunk: seq<byte>, consume: Consumer<S>)
      modifies this
      ensures var fed := Drain(consume, old(state), old(buffer) + chunk);
              state == fed.state && buffer == fed.rest && records == old(records) + fed.records
    {
      ghost var all := Drain(consume, state, buffer + chunk);
      buffer := buffer + chunk;
      while buffer != []
        invariant var fed := Drain(consume, state, buffer);
                  all.state == fed.state && all.rest == fed.rest
                  && old(records) + all.records == records + fed.records
        decreases |buffer|
      {
        var (next, n) := consume(state, buffer);
        if n == 0 {
          state := next;
          return;
        }
        records := records + [(next, Taken(buffer, n))];
        state := next;
        buffer := Dropped(buffer, n);
      }
    }
  }

  /** One `Feed` per chunk. */
  function FeedAll<S>(consume: Consumer<S>, s: S, buffer: seq<byte>, chunks: seq<seq<byte>>): Fed<S>
    decreases |chunks|
  {
    if chunks == [] then Fed(s, [], buffer) else
    var first := Drain(consume, s, buffer + chunks[0]);
    var later := FeedAll(consume, first.state, first.rest, chunks[1..]);
    Fed(later.state, first.records + later.records, later.rest)
  }

  ghost predicate HonestOn<S>(consume: Consumer<S>, s: S, buffer: seq<byte>) {
    consume(s, buffer).1 <= |buffer| && (consume(s, buffer).1 == 0 ==> consume(s, buffer).0 == s)
  }

  /** Never claims more than it was given, and a refusal leaves it as it was. */
  ghost predicate Honest<S(!new)>(consume: Consumer<S>) {
    forall s: S, buffer :: HonestOn(consume, s, buffer)
  }

  ghost predicate StableOn<S>(consume: Consumer<S>, s: S, buffer: seq<byte>, more: seq<byte>) {
    consume(s, buffer).1 > 0 ==> consume(s, buffer + more) == consume(s, buffer)
  }

  /** Once a record is complete, bytes that follow it do not change the answer. */
  ghost predicate PrefixStable<S(!new)>(consume: Consumer<S>) {
    forall s: S, buffer, more :: StableOn(consume, s, buffer, more)
  }

  ghost predicate ChunkingIndependent<S(!new)>(consume: Consumer<S>) {
    forall s: S, chunks :: FeedAll(consume, s, [], chunks) == Drain(consume, s, Concat(chunks))
  }

  function Consumed<S>(records: seq<(S, seq<byte>)>): seq<byte> {
    if records == [] then [] else records[0].1 + Consumed(records[1..])
  }

  /** No byte is lost, duplicated or reordered: the records followed by the remainder are the input. */
  lemma {:induction false} DrainConserves<S>(consume: Consumer<S>, s: S, buffer: seq<byte>)
    ensures var fed := Drain(consume, s, buffer); Consumed(fed.records) + fed.rest == buffer
    decreases |buffer|
  {
    if buffer != [] {
      var (next, n) := consume(s, buffer);
      if n > 0 {
        var later := Drain(consume, next, Dropped(buffer, n));
        DrainConserves(consume, next, Dropped(buffer, n));
        assert ([(next, Taken(buffer, n))] + later.records)[1..] == later.records;
        assert Taken(buffer, n) + Dropped(buffer, n) == buffer;
        Associate(Taken(buffer, n), Consumed(later.records), later.rest);
      }
    }
  }

  /** What is left after draining is a complete refusal: draining it again takes nothing. */
  lemma {:induction false} DrainSettles<S(!new)>(consume: Consumer<S>, s: S, buffer: seq<byte>)
    requires Honest(consume)
    ensures var fed := Drain(consume, s, buffer); Drain(consume, fed.state, fed.rest) == Fed(fed.state, [], fed.rest)
    decreases |buffer|
  {
    assert HonestOn(consume, s, buffer);
    if buffer != [] {
      var (next, n) := consume(s, buffer);
      if n > 0 {
        DrainSettles(consume, next, Dropped(buffer, n));
      }
    }
  }

  lemma {:induction false} DrainAppend<S(!new)>(consume: Consumer<S>, s: S, buffer: seq<byte>, more: seq<byte>)
    requires Honest(consume) && PrefixStable(consume)
    ensures var fed := Drain(consume, s, buffer);
            var later := Drain(consume, fed.state, fed.rest + more);
            Drain(consume, s, buffer + more) == Fed(later.state, fed.records + later.records, later.rest)
    decreases |buffer|
  {
    if buffer == [] {
      assert buffer + more == more;
    } else {
      var (next, n) := consume(s, buffer);
      assert HonestOn(consume, s, buffer) && StableOn(consume, s, buffer, more);
      if n > 0 {
        assert Dropped(buffer + more, n) == Dropped(buffer, n) + more && Taken(buffer + more, n) == Taken(buffer, n);
        DrainAppend(consume, next, Dropped(buffer, n), more);
        var left := Drain(consume, next, Dropped(buffer, n));
        var later := Drain(consume, left.state, left.rest + more);
        Associate([(next, Taken(buffer, n))], left.records, later.records);
      }
    }
  }

  lemma {:induction false} FeedAllIsDrain<S(!new)>(consume: Consumer<S>, s: S, buffer: seq<byte>,
                                                   chunks: seq<seq<byte>>)
    requires Honest(consume) && PrefixStable(consume)
    requires Drain(consume, s, buffer) == Fed(s, [], buffer)
    ensures FeedAll(consume, s, buffer, chunks) == Drain(consume, s, buffer + Concat(chunks))
    decreases |chunks|
  {
    if chunks == [] {
      assert buffer + Concat(chunks) == buffer;
    } else {
      var joined, tail := buffer + chunks[0], Concat(chunks[1..]);
      var first := Drain(consume, s, joined);
      DrainSettles(consume, s, joined);
      FeedAllIsDrain(consume, first.state, first.rest, chunks[1..]);
      DrainAppend(consume, s, joined, tail);
      assert buffer + Concat(chunks) == joined + tail;
    }
  }

  /**
   For an honest consumer the partition of the stream is invisible exactly when complete records are prefix-stable.
   */
  lemma ChunkingInvisibleIff<S(!new)>(consume: Consumer<S>)
    requires Honest(consume)
    ensures ChunkingIndependent(consume) <==> PrefixStable(consume)
  {
    if PrefixStable(consume) {
      forall s: S, chunks ensures FeedAll(consume, s, [], chunks) == Drain(consume, s, Concat(chunks)) {
        FeedAllIsDrain(consume, s, [], chunks);
        assert [] + Concat(chunks) == Concat(chunks);
      }
    }
    if ChunkingIndependent(consume) {
      forall s: S, buffer, more ensures StableOn(consume, s, buffer, more) {
        if consume(s, buffer).1 > 0 {
          TwoChunksReveal(consume, s, buffer, more);
        }
      }
    }
  }

  lemma TwoChunksReveal<S(!new)>(consume: Consumer<S>, s: S, buffer: seq<byte>, more: seq<byte>)
    requires Honest(consume) && ChunkingIndependent(consume) && consume(s, buffer).1 > 0
    ensures consume(s, buffer + more) == consume(s, buffer)
  {
    assert HonestOn(consume, s, buffer) && HonestOn(consume, s, buffer + more);
    var (next, n) := consume(s, buffer);
    var chunks := [buffer, more];
    assert Concat(chunks) == buffer + more by {
      assert chunks[1..] == [more] && Concat([more]) == more;
    }
    assert [] + buffer == buffer;
    var split, whole := FeedAll(consume, s, [], chunks), Drain(consume, s, buffer + more);
    assert split.records[0] == (next, buffer[..n]);
    assert whole == split;
    var (next', n') := consume(s, buffer + more);
    assert n' > 0 && whole.records[0] == (next', (buffer + more)[..n']);
    assert |buffer[..n]| == n && |(buffer + more)[..n']| == n';
  }
}
