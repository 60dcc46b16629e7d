/**
 grpc_stdio.go: the plugin's stdout and stderr are read in chunks by two copyChan goroutines, merged
 by one StreamStdio call, carried by one gRPC stream and demultiplexed by the host's Run.
*/
module Stdio {
  import opened Basics

  const CHUNK: nat := 1024

  /** StdioData_Channel. */
  datatype Channel = Invalid | Stdout | Stderr

  datatype Data = Data(channel: Channel, bytes: seq<Byte>)

  function Of(ch: Channel, d: Data): seq<Byte>
  {
    if d.channel == ch then d.bytes else []
  }

  /** The bytes of channel `ch` in a sequence of messages. */
  function Bytes(ch: Channel, ds: seq<Data>): seq<Byte>
  {
    if ds == [] then [] else Of(ch, ds[0]) + Bytes(ch, ds[1..])
  }

  lemma {:induction false} BytesAppend(ch: Channel, ds: seq<Data>, d: Data)
    ensures Bytes(ch, ds + [d]) == Bytes(ch, ds) + Of(ch, d)
  {
    if ds == [] {
      assert ds + [d] == [d] && [d][1..] == [];
    } else {
      assert (ds + [d])[1..] == ds[1..] + [d];
      BytesAppend(ch, ds[1..], d);
    }
  }

  predicate GoodChunk(d: Data)
  {
    !d.channel.Invalid? && 1 <= |d.bytes| <= CHUNK
  }

  // ---------------------------------------------------------------- the three loops

  predicate Chunks(chunks: seq<seq<Byte>>)
  {
    forall c | c in chunks :: 1 <= |c| <= CHUNK
  }

  /** What one Read of the buffered source returns: up to a buffer of bytes, and perhaps an error. */
  datatype Got = Got(data: seq<Byte>, err: bool)

  /** The bytes of each of the first `n` reads, without the reads that returned none. */
  function Pieces(got: seq<Got>, n: nat): seq<seq<Byte>>
    requires n <= |got|
  {
    if n == 0 then [] else Pieces(got, n - 1) + if got[n - 1].data == [] then [] else [got[n - 1].data]
  }

  lemma {:induction false} PiecesOfFull(got: seq<Got>, n: nat)
    requires n <= |got| && forall i :: 0 <= i < n ==> got[i].data != []
    ensures |Pieces(got, n)| == n && forall i :: 0 <= i < n ==> Pieces(got, n)[i] == got[i].data
  {
    if n > 0 {
      PiecesOfFull(got, n - 1);
    }
  }

  lemma {:induction false} PiecesAreChunks(got: seq<Got>, n: nat)
    requires n <= |got| && forall i :: 0 <= i < n ==> |got[i].data| <= CHUNK
    ensures Chunks(Pieces(got, n))
  {
    if n > 0 {
      PiecesAreChunks(got, n - 1);
    }
  }

  lemma {:induction false} FullReads(got: seq<Got>, n: nat)
    requires n <= |got|
    ensures (forall i :: 0 <= i < n ==> got[i].data != []) ==>
              |Pieces(got, n)| == n && forall i :: 0 <= i < n ==> Pieces(got, n)[i] == got[i].data
  {
    if forall i :: 0 <= i < n ==> got[i].data != [] {
      PiecesOfFull(got, n);
    }
  }

  /** copyChan's loop: each read sends exactly the bytes it returned, if any, also when it returned an error
      with them, and the first error is the end of it.  `n` counts the reads. */
  method CopyReads(got: seq<Got>) returns (sent: seq<seq<Byte>>, n: nat)
    ensures n <= |got| && sent == Pieces(got, n)
    ensures forall i :: 0 <= i < n - 1 ==> !got[i].err
    ensures n < |got| ==> n > 0 && got[n - 1].err
  {
    sent, n := [], 0;
    while n < |got|
      invariant n <= |got| && sent == Pieces(got, n)
      invariant forall i :: 0 <= i < n ==> !got[i].err
    {
      var g := got[n];
      if |g.data| > 0 {
        sent := sent + [g.data];
      }
      n := n + 1;
      if g.err {
        break;
      }
    }
  }

  /** copyChan, on a reader that returns at most a buffer of bytes at a time. */
  method CopyChan(got: seq<Got>) returns (sent: seq<seq<Byte>>, n: nat)
    requires forall i :: 0 <= i < |got| ==> |got[i].data| <= CHUNK
    ensures n <= |got| && sent == Pieces(got, n) && Chunks(sent)
    ensures forall i :: 0 <= i < n - 1 ==> !got[i].err
    ensures n < |got| ==> n > 0 && got[n - 1].err
    ensures (forall i :: 0 <= i < n ==> got[i].data != []) ==>
              |sent| == n && forall i :: 0 <= i < n ==> sent[i] == got[i].data
  {
    sent, n := CopyReads(got);
    PiecesAreChunks(got, n);
    FullReads(got, n);
  }

  /** What the select statement of StreamStdio picked, and whether the send that follows worked; Invalid
      stands for the stream's context. */
  datatype Pick = Pick(channel: Channel, sends: bool)

  /** How many of the first `n` picks are of channel `ch`. */
  function Picked(picks: seq<Pick>, n: nat, ch: Channel): nat
    requires n <= |picks|
  {
    if n == 0 then 0 else Picked(picks, n - 1, ch) + Bit(picks[n - 1].channel == ch)
  }

  /** The message that pick `k` leads to: the next chunk of its channel, under the channel's own name. */
  ghost predicate Answers(outs: seq<seq<Byte>>, errs: seq<seq<Byte>>, picks: seq<Pick>, k: nat, d: Data)
    requires k < |picks|
  {
    var n := Picked(picks, k, picks[k].channel);
    match picks[k].channel
    case Stdout => n < |outs| && d == Data(Stdout, outs[n])
    case Stderr => n < |errs| && d == Data(Stderr, errs[n])
    case Invalid => false
  }

  /** Pick `k` has a chunk to take. */
  ghost predicate Answered(outs: seq<seq<Byte>>, errs: seq<seq<Byte>>, picks: seq<Pick>, k: nat)
    requires k < |picks|
  {
    exists d :: Answers(outs, errs, picks, k, d)
  }

  ghost predicate AllSent(outs: seq<seq<Byte>>, errs: seq<seq<Byte>>, picks: seq<Pick>, sent: seq<Data>)
  {
    |sent| <= |picks| && forall k :: 0 <= k < |sent| ==> picks[k].sends && Answers(outs, errs, picks, k, sent[k])
  }

  lemma {:induction false} AllSentNext(
      outs: seq<seq<Byte>>, errs: seq<seq<Byte>>, picks: seq<Pick>, sent: seq<Data>, d: Data)
    requires AllSent(outs, errs, picks, sent) && |sent| < |picks|
    requires picks[|sent|].sends && Answers(outs, errs, picks, |sent|, d)
    ensures AllSent(outs, errs, picks, sent + [d])
  {
  }

  /** How many picks took a chunk, if `n` of them sent it: one more if the last send failed. */
  ghost function Taken(outs: seq<seq<Byte>>, errs: seq<seq<Byte>>, picks: seq<Pick>, n: nat): (r: nat)
    requires n <= |picks|
    ensures n <= r <= n + 1 && r <= |picks|
  {
    if n < |picks| && Answered(outs, errs, picks, n) then n + 1 else n
  }

  lemma {:induction false} TakenNone(outs: seq<seq<Byte>>, errs: seq<seq<Byte>>, picks: seq<Pick>, i: nat)
    requires i < |picks|
    requires picks[i].channel == Stdout ==> Picked(picks, i, Stdout) == |outs|
    requires picks[i].channel == Stderr ==> Picked(picks, i, Stderr) == |errs|
    ensures !Answered(outs, errs, picks, i) && Taken(outs, errs, picks, i) == i
  {
  }

  lemma {:induction false} TakenOne(outs: seq<seq<Byte>>, errs: seq<seq<Byte>>, picks: seq<Pick>, i: nat, d: Data)
    requires i < |picks| && Answers(outs, errs, picks, i, d)
    ensures Taken(outs, errs, picks, i) == i + 1
  {
  }

  /** The loop of StreamStdio: what it has sent, how many chunks it has taken, and whether it goes on. */
  datatype Streaming = Streaming(sent: seq<Data>, o: nat, e: nat, live: bool)

  /** The chunk a pick takes, if there is one. */
  function Chunk(outs: seq<seq<Byte>>, errs: seq<seq<Byte>>, r: Streaming, ch: Channel): Option<Data>
  {
    match ch
    case Stdout => if r.o < |outs| then Some(Data(Stdout, outs[r.o])) else None
    case Stderr => if r.e < |errs| then Some(Data(Stderr, errs[r.e])) else None
    case Invalid => None
  }

  /** Everything the loop keeps after `n` picks. */
  ghost predicate Keeps(outs: seq<seq<Byte>>, errs: seq<seq<Byte>>, picks: seq<Pick>, n: nat, r: Streaming)
    requires n <= |picks|
  {
    && AllSent(outs, errs, picks, r.sent) && r.o <= |outs| && r.e <= |errs|
    && (r.live ==> |r.sent| == n && r.o == Picked(picks, n, Stdout) && r.e == Picked(picks, n, Stderr))
    && (!r.live ==> |r.sent| < n && Ends(outs, errs, picks, |r.sent|, r.o, r.e))
  }

  /** The loop ends at pick `k`, with `o` and `e` chunks taken. */
  ghost predicate Ends(outs: seq<seq<Byte>>, errs: seq<seq<Byte>>, picks: seq<Pick>, k: nat, o: nat, e: nat)
    requires k < |picks|
  {
    && (!picks[k].sends || !Answered(outs, errs, picks, k))
    && o == Picked(picks, Taken(outs, errs, picks, k), Stdout)
    && e == Picked(picks, Taken(outs, errs, picks, k), Stderr)
  }

  lemma {:induction false} FindsNothing(outs: seq<seq<Byte>>, errs: seq<seq<Byte>>, picks: seq<Pick>, n: nat, r: Streaming)
    requires n < |picks| && Keeps(outs, errs, picks, n, r) && r.live && Chunk(outs, errs, r, picks[n].channel).None?
    ensures Keeps(outs, errs, picks, n + 1, r.(live := false))
  {
    TakenNone(outs, errs, picks, n);
  }

  function Took(r: Streaming, ch: Channel): Streaming
  {
    r.(o := r.o + Bit(ch == Stdout), e := r.e + Bit(ch == Stderr))
  }

  lemma {:induction false} SendFailed(outs: seq<seq<Byte>>, errs: seq<seq<Byte>>, picks: seq<Pick>, n: nat, r: Streaming)
    requires n < |picks| && Keeps(outs, errs, picks, n, r) && r.live && Chunk(outs, errs, r, picks[n].channel).Some?
    requires !picks[n].sends
    ensures Keeps(outs, errs, picks, n + 1, Took(r, picks[n].channel).(live := false))
  {
    TakenOne(outs, errs, picks, n, Chunk(outs, errs, r, picks[n].channel).value);
  }

  lemma {:induction false} SendWorked(outs: seq<seq<Byte>>, errs: seq<seq<Byte>>, picks: seq<Pick>, n: nat, r: Streaming, d: Data)
    requires n < |picks| && Keeps(outs, errs, picks, n, r) && r.live && Chunk(outs, errs, r, picks[n].channel) == Some(d)
    requires picks[n].sends
    ensures Keeps(outs, errs, picks, n + 1, Took(r, picks[n].channel).(sent := r.sent + [d]))
  {
    AllSentNext(outs, errs, picks, r.sent, d);
  }

  lemma {:induction false} ChunkIsFull(outs: seq<seq<Byte>>, errs: seq<seq<Byte>>, r: Streaming, ch: Channel, d: Data)
    requires Chunks(outs) && Chunks(errs) && Chunk(outs, errs, r, ch) == Some(d)
    ensures |d.bytes| > 0
  {
  }

  /** The loop of StreamStdio: it goes on until a send fails, a pick finds nothing or the context is done,
      and until then every pick is sent. */
  method SendPicks(outs: seq<seq<Byte>>, errs: seq<seq<Byte>>, picks: seq<Pick>) returns (r: Streaming)
    requires Chunks(outs) && Chunks(errs)
    ensures Keeps(outs, errs, picks, |picks|, r)
  {
    r := Streaming([], 0, 0, true);
    var n := 0;
    while n < |picks| && r.live
      invariant n <= |picks| && Keeps(outs, errs, picks, n, r)
    {
      var chunk := Chunk(outs, errs, r, picks[n].channel);
      if chunk.None? {
        FindsNothing(outs, errs, picks, n, r);
        r := r.(live := false);
      } else {
        var data, took := chunk.value, Took(r, picks[n].channel);
        ChunkIsFull(outs, errs, r, picks[n].channel, data);
        if |data.bytes| == 0 {
          r := took;
        } else if picks[n].sends {
          SendWorked(outs, errs, picks, n, r, data);
          r := took.(sent := r.sent + [data]);
        } else {
          SendFailed(outs, errs, picks, n, r);
          r := took.(live := false);
        }
      }
      n := n + 1;
    }
  }

  lemma {:induction false} BytesNext(ch: Channel, src: seq<seq<Byte>>, k: nat, ds: seq<Data>, d: Data)
    requires k <= |src| && Bytes(ch, ds) == Concat(src[..k]) && (d.channel == ch ==> k < |src| && d.bytes == src[k])
    ensures Bytes(ch, ds + [d]) == Concat(src[..k + Bit(d.channel == ch)])
  {
    BytesAppend(ch, ds, d);
    if d.channel == ch {
      ConcatNext(src, k);
    }
  }

  /** `k` chunks of `src` were taken for `ch` by the first `n` picks, and make up its bytes. */
  ghost predicate Supplies(src: seq<seq<Byte>>, ch: Channel, picks: seq<Pick>, sent: seq<Data>, n: nat, k: nat)
    requires n <= |sent| && n <= |picks|
  {
    k == Picked(picks, n, ch) && k <= |src| && Bytes(ch, sent[..n]) == Concat(src[..k])
  }

  lemma {:induction false} SuppliesNext(src: seq<seq<Byte>>, ch: Channel, picks: seq<Pick>, sent: seq<Data>, n: nat, k: nat)
    requires n < |sent| && n < |picks| && Supplies(src, ch, picks, sent, n, k) && sent[n].channel == picks[n].channel
    requires picks[n].channel == ch ==> k < |src| && sent[n].bytes == src[k]
    ensures Supplies(src, ch, picks, sent, n + 1, k + Bit(picks[n].channel == ch))
  {
    assert sent[..n + 1] == sent[..n] + [sent[n]];
    BytesNext(ch, src, k, sent[..n], sent[n]);
  }

  /** Message `k` is of the channel that was picked, and if that is `ch` it is the next chunk of `src`. */
  ghost predicate IsNext(src: seq<seq<Byte>>, ch: Channel, picks: seq<Pick>, sent: seq<Data>, k: nat)
    requires k < |sent| <= |picks|
  {
    && sent[k].channel == picks[k].channel
    && (picks[k].channel == ch ==> Picked(picks, k, ch) < |src| && sent[k].bytes == src[Picked(picks, k, ch)])
  }

  lemma {:induction false} SentIsNext(outs: seq<seq<Byte>>, errs: seq<seq<Byte>>, picks: seq<Pick>, sent: seq<Data>, k: nat)
    requires AllSent(outs, errs, picks, sent) && k < |sent|
    ensures IsNext(outs, Stdout, picks, sent, k) && IsNext(errs, Stderr, picks, sent, k)
  {
    assert Answers(outs, errs, picks, k, sent[k]);
  }

  lemma {:induction false} SuppliesAll(src: seq<seq<Byte>>, ch: Channel, picks: seq<Pick>, sent: seq<Data>, n: nat)
    requires n <= |sent| <= |picks| && forall k :: 0 <= k < |sent| ==> IsNext(src, ch, picks, sent, k)
    ensures Supplies(src, ch, picks, sent, n, Picked(picks, n, ch))
  {
    if n == 0 {
      assert sent[..0] == [] && src[..0] == [];
    } else {
      SuppliesAll(src, ch, picks, sent, n - 1);
      assert IsNext(src, ch, picks, sent, n - 1);
      SuppliesNext(src, ch, picks, sent, n - 1, Picked(picks, n - 1, ch));
    }
  }

  /** What is sent of a channel is what its picks took, in order. */
  lemma {:induction false} SentBytes(outs: seq<seq<Byte>>, errs: seq<seq<Byte>>, picks: seq<Pick>, sent: seq<Data>)
    requires AllSent(outs, errs, picks, sent)
    ensures Supplies(outs, Stdout, picks, sent, |sent|, Picked(picks, |sent|, Stdout))
    ensures Supplies(errs, Stderr, picks, sent, |sent|, Picked(picks, |sent|, Stderr))
  {
    forall k | 0 <= k < |sent| ensures IsNext(outs, Stdout, picks, sent, k) && IsNext(errs, Stderr, picks, sent, k) {
      SentIsNext(outs, errs, picks, sent, k);
    }
    SuppliesAll(outs, Stdout, picks, sent, |sent|);
    SuppliesAll(errs, Stderr, picks, sent, |sent|);
  }

  lemma {:induction false} ConcatPrefix<T>(pieces: seq<seq<T>>, m: nat, n: nat)
    requires m <= n <= |pieces|
    ensures Concat(pieces[..m]) <= Concat(pieces[..n])
  {
    if m < n {
      ConcatNext(pieces, n - 1);
      ConcatPrefix(pieces, m, n - 1);
    }
  }

  lemma {:induction false} SentAreChunks(outs: seq<seq<Byte>>, errs: seq<seq<Byte>>, picks: seq<Pick>, sent: seq<Data>)
    requires Chunks(outs) && Chunks(errs) && AllSent(outs, errs, picks, sent)
    ensures forall d | d in sent :: GoodChunk(d)
  {
    forall d | d in sent ensures GoodChunk(d) {
      var k :| 0 <= k < |sent| && sent[k] == d;
      assert Answers(outs, errs, picks, k, sent[k]);
    }
  }

  /** At most one chunk more was taken of a channel than was sent. */
  lemma {:induction false} SentOfChannel(
      src: seq<seq<Byte>>, ch: Channel, picks: seq<Pick>, sent: seq<Data>, done: nat, k: nat)
    requires |sent| <= done <= |sent| + 1 && done <= |picks|
    requires Supplies(src, ch, picks, sent, |sent|, Picked(picks, |sent|, ch))
    requires k == Picked(picks, done, ch) <= |src|
    ensures Bytes(ch, sent) <= Concat(src[..k]) && (done == |sent| ==> Bytes(ch, sent) == Concat(src[..k]))
  {
    assert sent[..|sent|] == sent;
    ConcatPrefix(src, Picked(picks, |sent|, ch), k);
  }

  lemma {:induction false} TakenIsSent(outs: seq<seq<Byte>>, errs: seq<seq<Byte>>, picks: seq<Pick>, n: nat)
    requires n <= |picks| && (n < |picks| ==> !picks[n].sends || !Answered(outs, errs, picks, n))
    ensures (forall p | p in picks :: p.sends) ==> Taken(outs, errs, picks, n) == n
  {
    if n < |picks| {
      assert picks[n] in picks;
    }
  }

  /** StreamStdio: `outs` and `errs` are what the two channels will offer, in order. */
  method StreamStdio(outs: seq<seq<Byte>>, errs: seq<seq<Byte>>, picks: seq<Pick>)
    returns (sent: seq<Data>, o: nat, e: nat)
    requires Chunks(outs) && Chunks(errs)
    ensures AllSent(outs, errs, picks, sent)
    ensures |sent| < |picks| ==> !picks[|sent|].sends || !Answered(outs, errs, picks, |sent|)
    ensures o == Picked(picks, Taken(outs, errs, picks, |sent|), Stdout) <= |outs|
    ensures e == Picked(picks, Taken(outs, errs, picks, |sent|), Stderr) <= |errs|
    ensures Bytes(Stdout, sent) <= Concat(outs[..o]) && Bytes(Stderr, sent) <= Concat(errs[..e])
    ensures forall d | d in sent :: GoodChunk(d)
    ensures (forall p | p in picks :: p.sends) ==>
              Bytes(Stdout, sent) == Concat(outs[..o]) && Bytes(Stderr, sent) == Concat(errs[..e])
  {
    var r := SendPicks(outs, errs, picks);
    sent, o, e := r.sent, r.o, r.e;
    SentBytes(outs, errs, picks, sent);
    TakenIsSent(outs, errs, picks, |sent|);
    SentOfChannel(outs, Stdout, picks, sent, Taken(outs, errs, picks, |sent|), o);
    SentOfChannel(errs, Stderr, picks, sent, Taken(outs, errs, picks, |sent|), e);
    SentAreChunks(outs, errs, picks, sent);
  }

  /** The host's Run, with writers that accept all bytes: each writer gets its channel's bytes. */
  method Demultiplex(received: seq<Data>) returns (stdout: seq<Byte>, stderr: seq<Byte>)
    ensures stdout == Bytes(Stdout, received) && stderr == Bytes(Stderr, received)
  {
    stdout, stderr := [], [];
    for i := 0 to |received|
      invariant stdout == Bytes(Stdout, received[..i]) && stderr == Bytes(Stderr, received[..i])
    {
      var data := received[i];
      assert received[..i + 1] == received[..i] + [data];
      BytesAppend(Stdout, received[..i], data);
      BytesAppend(Stderr, received[..i], data);
      match data.channel {
        case Stdout => stdout := stdout + data.bytes;
        case Stderr => stderr := stderr + data.bytes;
        case Invalid => continue;
      }
    }
    assert received[..|received|] == received;
  }

  // ---------------------------------------------------------------- the whole path, step by step

  /** One copyChan goroutine: what was written to its pipe, how much of that it has read, and the
      chunk it is blocked on. */
  datatype Pipe = Pipe(written: seq<Byte>, read: nat, held: Option<seq<Byte>>, stopped: bool)

  /** StreamStdio: in its select, about to send, or returned; a failed send loses its message. */
  datatype Server = Selecting | Sending(data: Data) | Returned | Failed(lost: Data)

  /** `refused` counts the bytes that a host writer did not accept. */
  datatype Host = Host(bytes: seq<Byte>, refused: nat)

  datatype State = State(out: Pipe, err: Pipe, server: Server, wire: seq<Data>, stopped: bool,
                         hostOut: Host, hostErr: Host)

  function Init(): State
  {
    State(Pipe([], 0, None, false), Pipe([], 0, None, false), Selecting, [], false, Host([], 0), Host([], 0))
  }

  datatype Event =
    | Write(ch: Channel, bytes: seq<Byte>)
    | Read(ch: Channel, n: nat)
    | ReadStops(ch: Channel)
    | Take(ch: Channel)
    | Send
    | SendFails
    | Cancel
    | Recv(accepted: nat)
    | RecvFails

  function PipeOf(s: State, ch: Channel): Pipe
  {
    if ch == Stdout then s.out else s.err
  }

  function HostOf(s: State, ch: Channel): Host
  {
    if ch == Stdout then s.hostOut else s.hostErr
  }

  predicate Enabled(s: State, e: Event)
  {
    match e
    case Write(ch, bytes) => !ch.Invalid?
    case Read(ch, n) =>
      var p := PipeOf(s, ch);
      !ch.Invalid? && p.held.None? && !p.stopped && 1 <= n <= CHUNK && p.read + n <= |p.written|
    case ReadStops(ch) => !ch.Invalid? && PipeOf(s, ch).held.None?
    case Take(ch) => !ch.Invalid? && PipeOf(s, ch).held.Some? && s.server.Selecting?
    case Send => s.server.Sending?
    case SendFails => s.server.Sending?
    case Cancel => s.server.Selecting?
    case Recv(accepted) => !s.stopped && s.wire != [] && accepted <= |s.wire[0].bytes|
    case RecvFails => !s.stopped
  }

  function SetPipe(s: State, ch: Channel, p: Pipe): State
  {
    if ch == Stdout then s.(out := p) else s.(err := p)
  }

  function Accept(h: Host, bytes: seq<Byte>, accepted: nat): Host
    requires accepted <= |bytes|
  {
    Host(h.bytes + bytes[..accepted], h.refused + |bytes| - accepted)
  }

  function Next(s: State, e: Event): State
    requires Enabled(s, e)
  {
    match e
    case Write(ch, bytes) => var p := PipeOf(s, ch); SetPipe(s, ch, p.(written := p.written + bytes))
    case Read(ch, n) =>
      var p := PipeOf(s, ch);
      SetPipe(s, ch, p.(read := p.read + n, held := Some(p.written[p.read..p.read + n])))
    case ReadStops(ch) => SetPipe(s, ch, PipeOf(s, ch).(stopped := true))
    case Take(ch) =>
      var data := Data(ch, PipeOf(s, ch).held.value);
      var s' := SetPipe(s, ch, PipeOf(s, ch).(held := None));
      if data.bytes == [] then s' else s'.(server := Sending(data))
    case Send => s.(server := Selecting, wire := s.wire + [s.server.data])
    case SendFails => s.(server := Failed(s.server.data))
    case Cancel => s.(server := Returned)
    case Recv(accepted) =>
      var data := s.wire[0];
      var s' := s.(wire := s.wire[1..]);
      (match data.channel
       case Stdout => s'.(hostOut := Accept(s.hostOut, data.bytes, accepted))
       case Stderr => s'.(hostErr := Accept(s.hostErr, data.bytes, accepted))
       case Invalid => s')
    case RecvFails => s.(stopped := true)
  }

  predicate Runs(s: State, es: seq<Event>)
    decreases es
  {
    es == [] || (Enabled(s, es[0]) && Runs(Next(s, es[0]), es[1..]))
  }

  function After(s: State, es: seq<Event>): State
    requires Runs(s, es)
    decreases es
  {
    if es == [] then s else After(Next(s, es[0]), es[1..])
  }

  function Held(p: Pipe): seq<Byte>
  {
    if p.held.Some? then p.held.value else []
  }

  function InServer(ch: Channel, v: Server): seq<Byte>
  {
    match v
    case Sending(d) => Of(ch, d)
    case Failed(d) => Of(ch, d)
    case _ => []
  }

  function Behind(s: State, ch: Channel): seq<Byte>
    requires PipeOf(s, ch).read <= |PipeOf(s, ch).written|
  {
    var p := PipeOf(s, ch);
    InServer(ch, s.server) + (Held(p) + p.written[p.read..])
  }

  /** Every byte of `ch` between the host's writer and the plugin's pipe, in order. */
  function OnTheWay(s: State, ch: Channel): seq<Byte>
    requires PipeOf(s, ch).read <= |PipeOf(s, ch).written|
  {
    Bytes(ch, s.wire) + Behind(s, ch)
  }

  ghost predicate Chunked(s: State)
  {
    && (forall d | d in s.wire :: GoodChunk(d))
    && (s.server.Sending? ==> GoodChunk(s.server.data))
    && (s.server.Failed? ==> GoodChunk(s.server.lost))
    && (s.out.held.Some? ==> 1 <= |s.out.held.value| <= CHUNK)
    && (s.err.held.Some? ==> 1 <= |s.err.held.value| <= CHUNK)
  }

  /** `mid` is what `written` has and the writer was not yet given. */
  ghost predicate Balanced(h: Host, mid: seq<Byte>, written: seq<Byte>)
  {
    |h.bytes| + h.refused + |mid| == |written| && (h.refused == 0 ==> h.bytes + mid == written)
  }

  ghost predicate Conserved(s: State, ch: Channel)
  {
    var p := PipeOf(s, ch);
    p.read <= |p.written| && Balanced(HostOf(s, ch), OnTheWay(s, ch), p.written)
  }

  lemma BalancedWrite(h: Host, mid: seq<Byte>, written: seq<Byte>, more: seq<Byte>)
    requires Balanced(h, mid, written)
    ensures Balanced(h, mid + more, written + more)
  {
    assert h.bytes + (mid + more) == (h.bytes + mid) + more;
  }

  lemma BalancedAccept(h: Host, bytes: seq<Byte>, mid: seq<Byte>, written: seq<Byte>, accepted: nat)
    requires Balanced(h, bytes + mid, written) && accepted <= |bytes|
    ensures Balanced(Accept(h, bytes, accepted), mid, written)
  {
    if accepted == |bytes| {
      assert bytes[..accepted] == bytes;
      assert h.bytes + (bytes + mid) == (h.bytes + bytes) + mid;
    }
  }

  lemma {:induction false} ChunkedStep(s: State, e: Event)
    requires Chunked(s) && Enabled(s, e)
    ensures Chunked(Next(s, e))
  {
  }

  /** Bytes written to the pipe join the end of what is on the way. */
  lemma {:induction false} WriteLengthens(s: State, e: Event)
    requires e.Write? && Enabled(s, e) && PipeOf(s, e.ch).read <= |PipeOf(s, e.ch).written|
    ensures OnTheWay(Next(s, e), e.ch) == OnTheWay(s, e.ch) + e.bytes
  {
    var p := PipeOf(s, e.ch);
    var a, b, c, d := Bytes(e.ch, s.wire), InServer(e.ch, s.server), Held(p), p.written[p.read..];
    assert (p.written + e.bytes)[p.read..] == d + e.bytes;
    assert a + (b + (c + (d + e.bytes))) == (a + (b + (c + d))) + e.bytes;
  }

  lemma {:induction false} ConservedWrite(s: State, e: Event, ch: Channel)
    requires !ch.Invalid? && Conserved(s, ch) && e.Write? && Enabled(s, e)
    ensures Conserved(Next(s, e), ch)
  {
    var p := PipeOf(s, ch);
    if e.ch == ch {
      WriteLengthens(s, e);
      BalancedWrite(HostOf(s, ch), OnTheWay(s, ch), p.written, e.bytes);
    } else {
      assert PipeOf(Next(s, e), ch) == p;
    }
  }

  /** Reading a chunk moves bytes along without changing their order. */
  lemma {:induction false} ReadKeeps(s: State, e: Event)
    requires e.Read? && Enabled(s, e)
    ensures OnTheWay(Next(s, e), e.ch) == OnTheWay(s, e.ch)
  {
    var p, s' := PipeOf(s, e.ch), Next(s, e);
    var a, b := p.written[p.read..p.read + e.n], p.written[p.read + e.n..];
    assert [] + p.written[p.read..] == a + b;
    assert PipeOf(s', e.ch) == p.(read := p.read + e.n, held := Some(a)) && s'.server == s.server && s'.wire == s.wire;
  }

  lemma {:induction false} ConservedRead(s: State, e: Event, ch: Channel)
    requires !ch.Invalid? && Conserved(s, ch) && e.Read? && Enabled(s, e)
    ensures Conserved(Next(s, e), ch)
  {
    if e.ch == ch {
      ReadKeeps(s, e);
    } else {
      assert PipeOf(Next(s, e), ch) == PipeOf(s, ch);
    }
  }

  lemma {:induction false} ConservedTake(s: State, e: Event, ch: Channel)
    requires !ch.Invalid? && Chunked(s) && Conserved(s, ch) && e.Take? && Enabled(s, e)
    ensures Conserved(Next(s, e), ch)
  {
    var p, s' := PipeOf(s, ch), Next(s, e);
    assert s.server == Selecting;
    if e.ch == ch {
      assert [] + (p.held.value + p.written[p.read..]) == p.held.value + ([] + p.written[p.read..]);
    } else {
      assert PipeOf(s', ch) == p;
    }
    assert Behind(s', ch) == Behind(s, ch);
  }

  lemma {:induction false} ConservedSend(s: State, ch: Channel)
    requires !ch.Invalid? && Conserved(s, ch) && s.server.Sending?
    ensures Conserved(Next(s, Send), ch)
  {
    var p, s' := PipeOf(s, ch), Next(s, Send);
    BytesAppend(ch, s.wire, s.server.data);
    var rest := Held(p) + p.written[p.read..];
    assert (Bytes(ch, s.wire) + Of(ch, s.server.data)) + ([] + rest) == Bytes(ch, s.wire) + (Of(ch, s.server.data) + rest);
  }

  /** Run takes the first message off the way. */
  lemma {:induction false} RecvShortens(s: State, e: Event, ch: Channel)
    requires !ch.Invalid? && e.Recv? && Enabled(s, e) && PipeOf(s, ch).read <= |PipeOf(s, ch).written|
    ensures PipeOf(Next(s, e), ch) == PipeOf(s, ch)
    ensures OnTheWay(s, ch) == Of(ch, s.wire[0]) + OnTheWay(Next(s, e), ch)
  {
    var a, b, c := Of(ch, s.wire[0]), Bytes(ch, s.wire[1..]), Behind(s, ch);
    assert Behind(Next(s, e), ch) == c;
    assert (a + b) + c == a + (b + c);
  }

  lemma {:induction false} ConservedRecv(s: State, e: Event, ch: Channel)
    requires !ch.Invalid? && Chunked(s) && Conserved(s, ch) && e.Recv? && Enabled(s, e)
    ensures Conserved(Next(s, e), ch)
  {
    var s', d := Next(s, e), s.wire[0];
    RecvShortens(s, e, ch);
    if d.channel == ch {
      BalancedAccept(HostOf(s, ch), d.bytes, OnTheWay(s', ch), PipeOf(s, ch).written, e.accepted);
    } else {
      assert [] + OnTheWay(s', ch) == OnTheWay(s', ch);
    }
  }

  lemma {:induction false} ConservedStep(s: State, e: Event, ch: Channel)
    requires !ch.Invalid? && Chunked(s) && Conserved(s, ch) && Enabled(s, e)
    ensures Conserved(Next(s, e), ch)
  {
    match e {
      case Write(_, _) => ConservedWrite(s, e, ch);
      case Read(_, _) => ConservedRead(s, e, ch);
      case Take(_) => ConservedTake(s, e, ch);
      case Send => ConservedSend(s, ch);
      case Recv(_) => ConservedRecv(s, e, ch);
      case _ =>
    }
  }

  lemma {:induction false} ConservedRun(s: State, es: seq<Event>, ch: Channel)
    requires !ch.Invalid? && Chunked(s) && Conserved(s, ch) && Runs(s, es)
    ensures Chunked(After(s, es)) && Conserved(After(s, es), ch)
    decreases es
  {
    if es != [] {
      ChunkedStep(s, es[0]);
      ConservedStep(s, es[0], ch);
      ConservedRun(Next(s, es[0]), es[1..], ch);
    }
  }

  /** In every run, whatever the merge order, failed sends and cancellations: the host's output on a
      channel whose writer refused nothing is a prefix of the plugin's bytes for it, missing exactly
      what is on the way; once nothing is, it is all of them if and only if nothing was refused. */
  lemma {:induction false} HostSeesThePluginsBytes(es: seq<Event>, ch: Channel)
    requires !ch.Invalid? && Runs(Init(), es)
    ensures var s := After(Init(), es);
            var p, h := PipeOf(s, ch), HostOf(s, ch);
            && p.read <= |p.written|
            && (h.refused == 0 ==> h.bytes <= p.written && p.written[|h.bytes|..] == OnTheWay(s, ch))
            && (OnTheWay(s, ch) == [] ==> (h.bytes == p.written <==> h.refused == 0))
  {
    ConservedRun(Init(), es, ch);
  }

  /** Every message is a chunk of 1 to 1024 bytes of stdout or stderr, so StreamStdio's test for empty
      data and Run's unknown channel are never met. */
  lemma {:induction false} ChunksAreBounded(es: seq<Event>)
    requires Runs(Init(), es)
    ensures Chunked(After(Init(), es))
  {
    ConservedRun(Init(), es, Stdout);
  }

  // ---------------------------------------------------------------- who has stopped

  lemma {:induction false} StopsStep(s: State, e: Event, ch: Channel)
    requires Enabled(s, e) && !ch.Invalid?
    ensures Next(s, e).stopped <==> s.stopped || e.RecvFails?
    ensures Next(s, e).server.Returned? <==> s.server.Returned? || e.Cancel?
    ensures Next(s, e).server.Failed? <==> s.server.Failed? || e.SendFails?
    ensures PipeOf(Next(s, e), ch).stopped <==> PipeOf(s, ch).stopped || e == ReadStops(ch)
  {
    match e
    case Write(_, _) => case Read(_, _) => case ReadStops(_) => case Take(_) => case Send => case SendFails =>
    case Cancel => case Recv(_) => case RecvFails =>
  }

  lemma {:induction false} StopsRun(s: State, es: seq<Event>, ch: Channel)
    requires Runs(s, es) && !ch.Invalid?
    ensures After(s, es).stopped <==> s.stopped || RecvFails in es
    ensures After(s, es).server.Returned? <==> s.server.Returned? || Cancel in es
    ensures After(s, es).server.Failed? <==> s.server.Failed? || SendFails in es
    ensures PipeOf(After(s, es), ch).stopped <==> PipeOf(s, ch).stopped || ReadStops(ch) in es
    decreases es
  {
    if es != [] {
      StopsStep(s, es[0], ch);
      StopsRun(Next(s, es[0]), es[1..], ch);
      assert es == [es[0]] + es[1..];
    }
  }

  /** In every run: Run has stopped exactly if a receive failed, StreamStdio exactly if its context was done
      or a send failed, and a copyChan exactly if its read failed. */
  lemma {:induction false} StopsExactlyOnErrors(es: seq<Event>, ch: Channel)
    requires Runs(Init(), es) && !ch.Invalid?
    ensures var s := After(Init(), es);
            && (s.stopped <==> RecvFails in es)
            && (s.server.Selecting? || s.server.Sending? <==> Cancel !in es && SendFails !in es)
            && (PipeOf(s, ch).stopped <==> ReadStops(ch) in es)
  {
    StopsRun(Init(), es, ch);
  }

  // ---------------------------------------------------------------- when all bytes can arrive

  ghost predicate Sound(s: State)
  {
    Chunked(s) && s.out.read <= |s.out.written| && s.err.read <= |s.err.written|
  }

  lemma {:induction false} SoundStep(s: State, e: Event)
    requires Sound(s) && Enabled(s, e)
    ensures Sound(Next(s, e))
  {
    ChunkedStep(s, e);
  }

  ghost predicate Arrived(s: State)
    requires Sound(s)
  {
    OnTheWay(s, Stdout) == [] && OnTheWay(s, Stderr) == []
  }

  predicate Unread(p: Pipe)
  {
    p.read < |p.written|
  }

  /** Bytes that StreamStdio has yet to send. */
  predicate Waiting(s: State)
  {
    s.server.Sending? || s.server.Failed? || s.out.held.Some? || s.err.held.Some? || Unread(s.out) || Unread(s.err)
  }

  /** Nothing that is on the way has lost the part that would carry it on: Run, StreamStdio or copyChan. */
  predicate Flows(s: State)
  {
    && (s.wire != [] || Waiting(s) ==> !s.stopped)
    && (Waiting(s) ==> s.server.Selecting? || s.server.Sending?)
    && (Unread(s.out) ==> !s.out.stopped) && (Unread(s.err) ==> !s.err.stopped)
  }

  /** Work left: a byte in a pipe is worth more than a chunk in hand, and that more than one sent. */
  function Work(s: State): nat
    requires Sound(s)
  {
    4 * (|s.out.written| - s.out.read) + 4 * (|s.err.written| - s.err.read) +
    3 * Bit(s.out.held.Some?) + 3 * Bit(s.err.held.Some?) + 2 * Bit(s.server.Sending?) + |s.wire|
  }

  function SomeOf(p: Pipe): nat
    requires Unread(p)
  {
    if |p.written| - p.read < CHUNK then |p.written| - p.read else CHUNK
  }

  /** The next step that carries bytes on. */
  function Onward(s: State): Event
    requires s.wire != [] || Waiting(s)
  {
    if s.wire != [] then Recv(|s.wire[0].bytes|)
    else if s.server.Sending? then Send
    else if s.out.held.Some? then Take(Stdout)
    else if s.err.held.Some? then Take(Stderr)
    else if Unread(s.out) then Read(Stdout, SomeOf(s.out))
    else if Unread(s.err) then Read(Stderr, SomeOf(s.err))
    else SendFails
  }

  /** A step that carries bytes on, and loses and adds none. */
  ghost predicate Progress(s: State, s': State)
    requires Sound(s)
  {
    && Sound(s') && Flows(s') && Work(s') < Work(s)
    && s'.hostOut.refused == s.hostOut.refused && s'.hostErr.refused == s.hostErr.refused
    && s'.out.written == s.out.written && s'.err.written == s.err.written
  }

  lemma {:induction false} RecvFlows(s: State)
    requires Sound(s) && Flows(s) && s.wire != []
    ensures Enabled(s, Recv(|s.wire[0].bytes|)) && Progress(s, Next(s, Recv(|s.wire[0].bytes|)))
  {
    SoundStep(s, Recv(|s.wire[0].bytes|));
    assert s.wire[0] in s.wire;
  }

  lemma {:induction false} SendFlows(s: State)
    requires Sound(s) && Flows(s) && s.server.Sending?
    ensures Enabled(s, Send) && Progress(s, Next(s, Send))
  {
    SoundStep(s, Send);
  }

  lemma {:induction false} TakeFlows(s: State, ch: Channel)
    requires Sound(s) && Flows(s) && s.server.Selecting? && !ch.Invalid? && PipeOf(s, ch).held.Some?
    ensures Enabled(s, Take(ch)) && Progress(s, Next(s, Take(ch)))
  {
    SoundStep(s, Take(ch));
  }

  lemma {:induction false} ReadFlows(s: State, ch: Channel)
    requires Sound(s) && Flows(s) && s.server.Selecting? && !ch.Invalid? && PipeOf(s, ch).held.None? && Unread(PipeOf(s, ch))
    ensures Enabled(s, Read(ch, SomeOf(PipeOf(s, ch)))) && Progress(s, Next(s, Read(ch, SomeOf(PipeOf(s, ch)))))
  {
    SoundStep(s, Read(ch, SomeOf(PipeOf(s, ch))));
  }

  lemma {:induction false} OnwardFlows(s: State)
    requires Sound(s) && Flows(s) && (s.wire != [] || Waiting(s))
    ensures Enabled(s, Onward(s)) && Progress(s, Next(s, Onward(s)))
  {
    if s.wire != [] {
      RecvFlows(s);
    } else if s.server.Sending? {
      SendFlows(s);
    } else if s.out.held.Some? {
      TakeFlows(s, Stdout);
    } else if s.err.held.Some? {
      TakeFlows(s, Stderr);
    } else if Unread(s.out) {
      ReadFlows(s, Stdout);
    } else {
      ReadFlows(s, Stderr);
    }
  }

  lemma {:induction false} NothingLeft(s: State)
    requires Sound(s) && s.wire == [] && !Waiting(s)
    ensures Arrived(s)
  {
  }

  lemma {:induction false} RunsPrepend(s: State, e: Event, es: seq<Event>)
    requires Enabled(s, e) && Runs(Next(s, e), es)
    ensures Runs(s, [e] + es) && After(s, [e] + es) == After(Next(s, e), es)
  {
    assert ([e] + es)[1..] == es;
  }

  /** A run in which the writers take everything and nothing more is written. */
  ghost predicate Delivers(s: State, es: seq<Event>)
    requires Sound(s)
  {
    Runs(s, es) &&
    var s' := After(s, es);
    && Sound(s') && Arrived(s') && s'.out.written == s.out.written && s'.err.written == s.err.written
    && s'.hostOut.refused == s.hostOut.refused && s'.hostErr.refused == s.hostErr.refused
  }

  lemma {:induction false} AllArrives(s: State) returns (es: seq<Event>)
    requires Sound(s) && Flows(s)
    ensures Delivers(s, es)
    decreases Work(s)
  {
    if s.wire == [] && !Waiting(s) {
      NothingLeft(s);
      es := [];
    } else {
      OnwardFlows(s);
      var rest := AllArrives(Next(s, Onward(s)));
      RunsPrepend(s, Onward(s), rest);
      es := [Onward(s)] + rest;
    }
  }

  lemma {:induction false} BlockedStep(s: State, e: Event)
    requires Sound(s) && !Flows(s) && Enabled(s, e)
    ensures !Flows(Next(s, e))
  {
  }

  lemma {:induction false} BytesOfChunk(ds: seq<Data>)
    requires ds != [] && GoodChunk(ds[0])
    ensures Bytes(Stdout, ds) != [] || Bytes(Stderr, ds) != []
  {
  }

  lemma {:induction false} BlockedHasBytes(s: State)
    requires Sound(s) && !Flows(s)
    ensures !Arrived(s)
  {
    if s.wire != [] {
      assert s.wire[0] in s.wire;
      BytesOfChunk(s.wire);
    }
  }

  lemma {:induction false} BlockedStays(s: State, es: seq<Event>)
    requires Sound(s) && !Flows(s) && Runs(s, es)
    ensures Sound(After(s, es)) && !Arrived(After(s, es))
    decreases es
  {
    if es == [] {
      BlockedHasBytes(s);
    } else {
      SoundStep(s, es[0]);
      BlockedStep(s, es[0]);
      BlockedStays(Next(s, es[0]), es[1..]);
    }
  }

  /** In every run: all that is on the way can still arrive, with writers that take it, if and only if
      neither Run nor StreamStdio nor a copyChan has stopped short of it; and what has stopped short never
      arrives, whatever happens. */
  lemma {:induction false} ArrivesExactlyWhenItFlows(es: seq<Event>)
    requires Runs(Init(), es)
    ensures Sound(After(Init(), es))
    ensures (exists more :: Delivers(After(Init(), es), more)) <==> Flows(After(Init(), es))
    ensures !Flows(After(Init(), es)) ==>
              forall more :: Runs(After(Init(), es), more) ==>
                Sound(After(After(Init(), es), more)) && !Arrived(After(After(Init(), es), more))
  {
    var s := After(Init(), es);
    ConservedRun(Init(), es, Stdout);
    ConservedRun(Init(), es, Stderr);
    if Flows(s) {
      var more := AllArrives(s);
    } else {
      forall more | Runs(s, more) ensures Sound(After(s, more)) && !Arrived(After(s, more)) { BlockedStays(s, more); }
    }
  }
}
