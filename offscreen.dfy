/**
 * The offscreen document, which plays the offer side of the peer connection
 * and, once the data channel is open, asks the service worker for the payload
 * and moves it onto the channel: a buffer in one send, or a stream chunk by
 * chunk with a keep-alive ping to the worker after each chunk.
 */
module Offscreen {
  import opened Wrappers
  import opened Signaling
  import opened Sdp
  import opened Text
  import Worker

  newtype byte = x: int | 0 <= x < 256

  /** The bytes of a buffer transferred to `n` bytes: cut, or padded with zeros. */
  function Resized(b: seq<byte>, n: nat): (r: seq<byte>)
    ensures |r| == n
    ensures forall i :: 0 <= i < n ==> r[i] == if i < |b| then b[i] else 0
    ensures n == |b| ==> r == b
  {
    if n <= |b| then b[..n] else b + seq(n - |b|, _ => 0)
  }

  /** An `ArrayBuffer`: its bytes and whether it was detached by a transfer. */
  class ArrayBuffer {
    var contents: seq<byte>
    var detached: bool

    constructor (contents: seq<byte>)
      ensures this.contents == contents && !detached
    {
      this.contents := contents;
      detached := false;
    }

    /**
     * `buffer.transfer(newLength)`: move the bytes into a new buffer and
     * detach this one, leaving it empty; a detached buffer throws a
     * `TypeError` (`None`) and is left as it is.
     */
    method Transfer(newLength: nat) returns (r: Option<seq<byte>>)
      modifies this
      ensures old(detached) ==> r == None && contents == old(contents) && detached
      ensures !old(detached) ==> r == Some(Resized(old(contents), newLength)) && contents == [] && detached
    {
      if detached {
        r := None;
      } else {
        r := Some(Resized(contents, newLength));
        contents := [];
        detached := true;
      }
    }
  }

  /** The bytes held by each of `bufs`, in order. */
  function Contents(bufs: seq<ArrayBuffer>): (r: seq<seq<byte>>)
    reads set b | b in bufs
    ensures |r| == |bufs|
    ensures forall i :: 0 <= i < |bufs| ==> r[i] == bufs[i].contents
  {
    if bufs == [] then []
    else Contents(bufs[..|bufs| - 1]) + [bufs[|bufs| - 1].contents]
  }

  /** What the document does that another party observes. */
  datatype Effect =
    | Send(data: seq<byte>)          // channel.send
    | ToWorker(posted: Worker.Data)  // sw.postMessage
    | CloseChannel                   // channel.close()
    | CloseConnection                // remote.close()
    | CloseDocument                  // self.close()

  const Ping: Effect := ToWorker(Worker.Null)

  /** The effects of writing the chunks `cs`: each is sent, then the worker is pinged. */
  function Pumped(cs: seq<seq<byte>>): seq<Effect> {
    if cs == [] then [] else Pumped(cs[..|cs| - 1]) + [Send(cs[|cs| - 1]), Ping]
  }

  /** The effects of piping a stream that yields `cs` and then closes. */
  function StreamTrace(cs: seq<seq<byte>>): seq<Effect> {
    Pumped(cs) + [CloseChannel, CloseConnection, CloseDocument]
  }

  /** The effects of receiving one buffer holding `b`. */
  function BufferTrace(b: seq<byte>): seq<Effect> {
    [Send(b), CloseDocument]
  }

  /** The payloads of the sends in `t`, in order. */
  function Sent(t: seq<Effect>): seq<seq<byte>> {
    if t == [] then []
    else Sent(t[..|t| - 1]) + (if t[|t| - 1].Send? then [t[|t| - 1].data] else [])
  }

  /** The messages posted to the worker in `t`, in order. */
  function WorkerPosts(t: seq<Effect>): seq<Worker.Data> {
    if t == [] then []
    else WorkerPosts(t[..|t| - 1]) + (if t[|t| - 1].ToWorker? then [t[|t| - 1].posted] else [])
  }

  lemma {:induction false} SentAppend(a: seq<Effect>, b: seq<Effect>)
    ensures Sent(a + b) == Sent(a) + Sent(b)
    ensures WorkerPosts(a + b) == WorkerPosts(a) + WorkerPosts(b)
    decreases |b|
  {
    if b == [] {
      assert a + b == a;
    } else {
      var init := b[..|b| - 1];
      assert (a + b)[..|a + b| - 1] == a + init;
      SentAppend(a, init);
    }
  }

  lemma SentOne(e: Effect)
    ensures Sent([e]) == if e.Send? then [e.data] else []
    ensures WorkerPosts([e]) == if e.ToWorker? then [e.posted] else []
  {
    assert [e][..0] == [];
  }

  lemma SentTwo(e: Effect, f: Effect)
    ensures Sent([e, f]) == Sent([e]) + Sent([f])
    ensures WorkerPosts([e, f]) == WorkerPosts([e]) + WorkerPosts([f])
  {
    SentAppend([e], [f]);
    assert [e] + [f] == [e, f];
  }

  /** Each chunk's send is followed by exactly one ping, and nothing else is emitted. */
  lemma {:induction false} PumpedShape(cs: seq<seq<byte>>)
    ensures |Pumped(cs)| == 2 * |cs|
    ensures forall i :: 0 <= i < |cs| ==> Pumped(cs)[2 * i] == Send(cs[i]) && Pumped(cs)[2 * i + 1] == Ping
  {
    if cs != [] {
      PumpedShape(cs[..|cs| - 1]);
    }
  }

  /**
   * A stream of N chunks yields N sends in pull order, each followed by one
   * ping, then closes the channel, the connection and the document, in that order.
   */
  lemma StreamTraceShape(cs: seq<seq<byte>>)
    ensures |StreamTrace(cs)| == 2 * |cs| + 3
    ensures forall i :: 0 <= i < |cs| ==>
      StreamTrace(cs)[2 * i] == Send(cs[i]) && StreamTrace(cs)[2 * i + 1] == Ping
    ensures StreamTrace(cs)[2 * |cs|..] == [CloseChannel, CloseConnection, CloseDocument]
  {
    PumpedShape(cs);
  }

  lemma {:induction false} PumpedCarriesChunks(cs: seq<seq<byte>>)
    ensures Sent(Pumped(cs)) == cs
    ensures WorkerPosts(Pumped(cs)) == seq(|cs|, _ => Worker.Null)
    decreases |cs|
  {
    if cs != [] {
      var init, last := cs[..|cs| - 1], cs[|cs| - 1];
      PumpedCarriesChunks(init);
      SentOne(Send(last));
      SentOne(Ping);
      SentTwo(Send(last), Ping);
      SentAppend(Pumped(init), [Send(last), Ping]);
      assert init + [last] == cs;
      assert seq(|init|, _ => Worker.Null) + [Worker.Null] == seq(|cs|, _ => Worker.Null);
    }
  }

  lemma ClosesAreSilent()
    ensures Sent([CloseChannel, CloseConnection, CloseDocument]) == []
    ensures WorkerPosts([CloseChannel, CloseConnection, CloseDocument]) == []
  {
    SentOne(CloseChannel);
    SentOne(CloseConnection);
    SentOne(CloseDocument);
    SentTwo(CloseChannel, CloseConnection);
    SentAppend([CloseChannel, CloseConnection], [CloseDocument]);
    assert [CloseChannel, CloseConnection] + [CloseDocument] == [CloseChannel, CloseConnection, CloseDocument];
  }

  /** The sends of a stream transfer carry exactly the pulled chunks; the worker receives one `null` per chunk. */
  lemma StreamSendsEveryChunkOnce(cs: seq<seq<byte>>)
    ensures Sent(StreamTrace(cs)) == cs
    ensures WorkerPosts(StreamTrace(cs)) == seq(|cs|, _ => Worker.Null)
  {
    PumpedCarriesChunks(cs);
    ClosesAreSilent();
    SentAppend(Pumped(cs), [CloseChannel, CloseConnection, CloseDocument]);
  }

  /** A buffer transfer sends its bytes once and never pings the worker. */
  lemma BufferSendsOnceWithoutPing(b: seq<byte>)
    ensures Sent(BufferTrace(b)) == [b]
    ensures WorkerPosts(BufferTrace(b)) == []
  {
    SentOne(Send(b));
    SentOne(CloseDocument);
    SentTwo(Send(b), CloseDocument);
  }

  /** Every ping of a stream transfer is answered by the worker with one `null` and changes nothing else there. */
  lemma KeepAliveDuringStream(h: Worker.Host, cs: seq<seq<byte>>)
    ensures Worker.OnMessages(h, WorkerPosts(StreamTrace(cs)))
            == h.(replies := h.replies + seq(|cs|, _ => Worker.NullReply))
  {
    StreamSendsEveryChunkOnce(cs);
    Worker.PingsOnlyEcho(h, WorkerPosts(StreamTrace(cs)));
  }

  /**
   * A stream that errors after yielding `cs` aborts the pipe; the sink has no
   * `abort` callback, so the trace is `Pumped(cs)` alone and the channel, the
   * connection and the document all stay open.
   */
  lemma AbortedStreamClosesNothing(cs: seq<seq<byte>>)
    ensures forall i :: 0 <= i < |Pumped(cs)| ==> Pumped(cs)[i].Send? || Pumped(cs)[i] == Ping
    ensures Sent(Pumped(cs)) == cs
  {
    PumpedShape(cs);
    PumpedCarriesChunks(cs);
    forall i | 0 <= i < |Pumped(cs)|
      ensures Pumped(cs)[i].Send? || Pumped(cs)[i] == Ping
    {
      var j := i / 2;
      assert i == 2 * j || i == 2 * j + 1;
    }
  }

  lemma PumpedSnoc(cs: seq<seq<byte>>, i: nat)
    requires i < |cs|
    ensures Pumped(cs[..i + 1]) == Pumped(cs[..i]) + [Send(cs[i]), Ping]
  {
    assert cs[..i + 1][..i] == cs[..i];
  }

  /**
   * The `write` callback of the stream's sink, once per pulled chunk: move the
   * chunk's buffer out (leaving it detached and empty), send it, ping the worker.
   */
  method WriteChunks(chunks: seq<ArrayBuffer>) returns (sent: seq<Effect>)
    requires forall i, j :: 0 <= i < j < |chunks| ==> chunks[i] != chunks[j]
    requires forall i :: 0 <= i < |chunks| ==> !chunks[i].detached
    modifies set c | c in chunks
    ensures sent == Pumped(old(Contents(chunks)))
    ensures forall i :: 0 <= i < |chunks| ==> chunks[i].contents == [] && chunks[i].detached
  {
    ghost var pulled := Contents(chunks);
    sent := [];
    var i := 0;
    while i < |chunks|
      invariant 0 <= i <= |chunks|
      invariant sent == Pumped(pulled[..i])
      invariant forall j :: 0 <= j < i ==> chunks[j].contents == [] && chunks[j].detached
      invariant forall j :: i <= j < |chunks| ==> chunks[j].contents == pulled[j] && !chunks[j].detached
    {
      var moved := chunks[i].Transfer(|chunks[i].contents|);
      PumpedSnoc(pulled, i);
      sent := sent + [Send(moved.value), Ping];
      i := i + 1;
    }
    assert pulled[..i] == pulled;
  }

  /**
   * What the worker posts to the document: a buffer, a stream of buffers
   * (`errored` when the stream errors after them instead of closing), or `null`.
   */
  datatype Incoming = BufferData(buffer: ArrayBuffer) | StreamData(chunks: seq<ArrayBuffer>, errored: bool) | NullData {
    function Buffers(): set<ArrayBuffer> {
      match this
      case BufferData(b) => {b}
      case StreamData(cs, _) => set c | c in cs
      case NullData => {}
    }
  }

  /** The offer side of the negotiation and the sender of the payload. */
  class OfferEndpoint {
    var localOffer: Option<string>   // the offer given to setLocalDescription
    var toRelay: seq<Message>        // port.postMessage
    var awaitingAnswer: bool         // the one-shot listener for the answer is registered
    var answer: Option<Message>      // the message whose sdp became the remote description
    var effects: seq<Effect>

    constructor ()
      ensures localOffer == None && toRelay == [] && !awaitingAnswer && answer == None && effects == []
    {
      localOffer, toRelay, awaitingAnswer, answer, effects := None, [], false, None, [];
    }

    /** `createOffer()` resolved: normalise the offer and make it the local description. */
    method OnOfferCreated(offer: SessionDescription)
      modifies this, offer
      ensures offer.sdp == WithEndOfCandidates(old(offer.sdp))
      ensures localOffer == Some(offer.sdp) && Includes(offer.sdp, EndOfCandidates)
      ensures toRelay == old(toRelay) && awaitingAnswer == old(awaitingAnswer)
      ensures answer == old(answer) && effects == old(effects)
    {
      var _ := offer.AppendEndOfCandidatesIfMissing();
      localOffer := Some(offer.sdp);
    }

    /**
     * The candidate event without a candidate (gathering finished). The local
     * description is posted to the relay, and the listener for the answer
     * registered, only when the marker had to be appended.
     */
    method OnGatheringComplete(description: SessionDescription)
      modifies this, description
      ensures description.sdp == WithEndOfCandidates(old(description.sdp))
      ensures !Includes(old(description.sdp), EndOfCandidates) ==>
        toRelay == old(toRelay) + [Description(false, description.sdp)] && awaitingAnswer
      ensures Includes(old(description.sdp), EndOfCandidates) ==>
        toRelay == old(toRelay) && awaitingAnswer == old(awaitingAnswer)
      ensures localOffer == old(localOffer) && answer == old(answer) && effects == old(effects)
    {
      var appended := description.AppendEndOfCandidatesIfMissing();
      if appended {
        toRelay := toRelay + [Description(false, description.sdp)];
        awaitingAnswer := true;
      }
    }

    /** A message on the relay port: the first one after registration is taken as the answer. */
    method OnRelayMessage(m: Message)
      modifies this
      ensures old(awaitingAnswer) ==> answer == Some(m)
      ensures !old(awaitingAnswer) ==> answer == old(answer)
      ensures !awaitingAnswer
      ensures localOffer == old(localOffer) && toRelay == old(toRelay) && effects == old(effects)
    {
      if awaitingAnswer {
        answer := Some(m);
        awaitingAnswer := false;
      }
    }

    /** The data channel opened: ask the worker for the payload. */
    method OnChannelOpen()
      modifies this
      ensures effects == old(effects) + [ToWorker(Worker.Start)]
      ensures localOffer == old(localOffer) && toRelay == old(toRelay)
      ensures awaitingAnswer == old(awaitingAnswer) && answer == old(answer)
    {
      effects := effects + [ToWorker(Worker.Start)];
    }

    /** Buffer mode: one send of the transferred buffer, then the document closes. */
    method SendBuffer(buffer: ArrayBuffer)
      requires !buffer.detached
      modifies this, buffer
      ensures effects == old(effects) + BufferTrace(old(buffer.contents))
      ensures buffer.contents == [] && buffer.detached
      ensures localOffer == old(localOffer) && toRelay == old(toRelay)
      ensures awaitingAnswer == old(awaitingAnswer) && answer == old(answer)
    {
      var moved := buffer.Transfer(|buffer.contents|);
      effects := effects + [Send(moved.value), CloseDocument];
    }

    /**
     * Stream mode: each chunk's buffer is transferred onto the channel and the
     * worker pinged; when the stream closes, the channel, the connection and
     * the document are closed. When it errors instead, the pipe aborts and,
     * the sink having no `abort`, nothing is closed.
     */
    method PipeStream(chunks: seq<ArrayBuffer>, errored: bool)
      requires forall i, j :: 0 <= i < j < |chunks| ==> chunks[i] != chunks[j]
      requires forall i :: 0 <= i < |chunks| ==> !chunks[i].detached
      modifies this, set c | c in chunks
      ensures !errored ==> effects == old(effects) + StreamTrace(old(Contents(chunks)))
      ensures errored ==> effects == old(effects) + Pumped(old(Contents(chunks)))
      ensures forall i :: 0 <= i < |chunks| ==> chunks[i].contents == [] && chunks[i].detached
      ensures localOffer == old(localOffer) && toRelay == old(toRelay)
      ensures awaitingAnswer == old(awaitingAnswer) && answer == old(answer)
    {
      var sent := WriteChunks(chunks);
      EndPipe(sent, errored);
    }

    /** The pipe after its last write: the closes when the stream closed, nothing when it errored. */
    method EndPipe(sent: seq<Effect>, errored: bool)
      modifies this
      ensures !errored ==> effects == old(effects) + (sent + [CloseChannel, CloseConnection, CloseDocument])
      ensures errored ==> effects == old(effects) + sent
      ensures localOffer == old(localOffer) && toRelay == old(toRelay)
      ensures awaitingAnswer == old(awaitingAnswer) && answer == old(answer)
    {
      if errored {
        effects := effects + sent;
      } else {
        effects := effects + (sent + [CloseChannel, CloseConnection, CloseDocument]);
      }
    }

    /** The document's handler for messages from the worker; `null` replies are ignored. */
    method OnWorkerMessage(data: Incoming)
      requires data.BufferData? ==> !data.buffer.detached
      requires data.StreamData? ==>
        (forall i, j :: 0 <= i < j < |data.chunks| ==> data.chunks[i] != data.chunks[j])
        && (forall i :: 0 <= i < |data.chunks| ==> !data.chunks[i].detached)
      modifies this, data.Buffers()
      ensures data.NullData? ==> effects == old(effects)
      ensures data.BufferData? ==> effects == old(effects) + BufferTrace(old(data.buffer.contents))
      ensures data.StreamData? && !data.errored ==> effects == old(effects) + StreamTrace(old(Contents(data.chunks)))
      ensures data.StreamData? && data.errored ==> effects == old(effects) + Pumped(old(Contents(data.chunks)))
      ensures forall b :: b in data.Buffers() ==> b.contents == [] && b.detached
      ensures localOffer == old(localOffer) && toRelay == old(toRelay)
      ensures awaitingAnswer == old(awaitingAnswer) && answer == old(answer)
    {
      match data
      case BufferData(buffer) => SendBuffer(buffer);
      case StreamData(chunks, errored) => PipeStream(chunks, errored);
      case NullData =>
    }
  }
}
