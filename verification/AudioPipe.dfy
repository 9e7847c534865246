/** The upload pipeline of the HTTP and unary gRPC handlers: the feeder goroutine, the job's
    bounded audio channel, and the broker's audio goroutine. */
module AudioPipes {
  import opened Jobs

  const CHUNK_SIZE: nat := 4096
  const CHANNEL_SIZE: nat := 64

  // ---------- Chunking ----------

  function Chunks(buf: Bytes): (r: seq<Bytes>)
    ensures forall c | c in r :: 1 <= |c| <= CHUNK_SIZE
  {
    if buf == [] then []
    else if |buf| <= CHUNK_SIZE then [buf]
    else [buf[..CHUNK_SIZE]] + Chunks(buf[CHUNK_SIZE..])
  }

  function Flat(chunks: seq<Bytes>): Bytes {
    if chunks == [] then [] else chunks[0] + Flat(chunks[1..])
  }

  lemma {:induction false} FlatAppend(a: seq<Bytes>, b: seq<Bytes>)
    ensures Flat(a + b) == Flat(a) + Flat(b)
  {
    if a == [] {
      assert a + b == b;
    } else {
      assert (a + b)[1..] == a[1..] + b;
      FlatAppend(a[1..], b);
    }
  }

  lemma {:induction false} ChunksFlatten(buf: Bytes)
    ensures Flat(Chunks(buf)) == buf
  {
    if |buf| > CHUNK_SIZE {
      ChunksFlatten(buf[CHUNK_SIZE..]);
      assert ([buf[..CHUNK_SIZE]] + Chunks(buf[CHUNK_SIZE..]))[1..] == Chunks(buf[CHUNK_SIZE..]);
      assert buf == buf[..CHUNK_SIZE] + buf[CHUNK_SIZE..];
    }
  }

  function Min(a: nat, b: nat): nat {
    if a < b then a else b
  }

  /** Where the k-th chunk lies in the upload, and when there is one. */
  lemma {:induction false} ChunkAt(buf: Bytes, k: nat)
    ensures k < |Chunks(buf)| <==> CHUNK_SIZE * k < |buf|
    ensures k < |Chunks(buf)| ==>
      Chunks(buf)[k] == buf[CHUNK_SIZE * k..Min(CHUNK_SIZE * k + CHUNK_SIZE, |buf|)]
  {
    if |buf| > CHUNK_SIZE && k > 0 {
      var rest := buf[CHUNK_SIZE..];
      ChunkAt(rest, k - 1);
      if k < |Chunks(buf)| {
        var lo, hi := CHUNK_SIZE * (k - 1), Min(CHUNK_SIZE * (k - 1) + CHUNK_SIZE, |rest|);
        Shifted(buf, CHUNK_SIZE, lo, hi);
      }
    }
  }

  lemma Shifted(buf: Bytes, n: nat, lo: nat, hi: nat)
    requires n <= |buf| && lo <= hi <= |buf| - n
    ensures buf[n..][lo..hi] == buf[n + lo..n + hi]
  {
    assert forall i | 0 <= i < hi - lo :: buf[n..][lo..hi][i] == buf[n + lo..n + hi][i];
  }

  /** The feeder's loop; the `patience`-th select is the first to see the context done. */
  method FeedAudio(buf: Bytes, patience: nat) returns (sent: seq<Bytes>, aborted: bool)
    ensures sent == Chunks(buf)[..Min(patience, |Chunks(buf)|)]
    ensures aborted <==> patience < |Chunks(buf)|
  {
    hide Chunks;
    sent := [];
    var i := 0;
    while i < |buf|
      invariant i == CHUNK_SIZE * |sent|
      invariant |sent| <= |Chunks(buf)| && |sent| <= patience && sent == Chunks(buf)[..|sent|]
      decreases |buf| - i
    {
      ChunkAt(buf, |sent|);
      var end := i + CHUNK_SIZE;
      if end > |buf| {
        end := |buf|;
      }
      if |sent| == patience {
        return sent, true;
      }
      sent := sent + [buf[i..end]];
      i := i + CHUNK_SIZE;
    }
    ChunkAt(buf, |sent|);
    aborted := false;
  }

  // ---------- The pipeline, step by step ----------

  datatype Feeder =
    | Waiting              // on ReadyCh
    | Offering             // in the loop
    | Shut                 // closed the channel and returned

  datatype Carrier =
    | NotSpawned
    | Abandoned            // the job ended, or StartRecognition failed, before it was spawned
    | Ranging              // receiving from the channel
    | Sending(chunk: Bytes)
    | Stopping             // about to StopRecognition
    | Finished

  datatype Pipe = Pipe(
    ready: bool, cancelled: bool,
    feeder: Feeder,
    next: nat,                   // the loop variable: where the next chunk starts
    channel: seq<Bytes>,
    carrier: Carrier,
    wire: seq<Bytes>,            // chunks sent to the server
    lost: Option<Bytes>)         // the chunk whose send failed

  datatype Action =
    | BecomeReady | Cancel                               // ReadyCh closed; context done
    | Spawn | Abandon                                    // the job starts, or never will
    | FeedBegin | FeedChunk | FeedEnd | FeedAbort        // the feeder
    | Take | EndOfAudio | Send(ok: bool) | StopSession   // the broker's audio goroutine

  function Init(): Pipe {
    Pipe(false, false, Waiting, 0, [], NotSpawned, [], None)
  }

  predicate Enabled(buf: Bytes, p: Pipe, a: Action) {
    match a
    case BecomeReady => !p.ready && p.carrier.NotSpawned?
    case Cancel => !p.cancelled
    case Spawn => p.ready && p.carrier.NotSpawned?
    case Abandon => p.carrier.NotSpawned?
    case FeedBegin => p.feeder.Waiting? && p.ready
    case FeedChunk => p.feeder.Offering? && p.next < |buf| && |p.channel| < CHANNEL_SIZE
    case FeedEnd => p.feeder.Offering? && p.next >= |buf|
    case FeedAbort => p.cancelled && (p.feeder.Waiting? || (p.feeder.Offering? && p.next < |buf|))
    case Take => p.carrier.Ranging? && p.channel != []
    case EndOfAudio => p.carrier.Ranging? && p.channel == [] && p.feeder.Shut?
    case Send(_) => p.carrier.Sending?
    case StopSession => p.carrier.Stopping?
  }

  function Step(buf: Bytes, p: Pipe, a: Action): Pipe
    requires Enabled(buf, p, a)
  {
    match a
    case BecomeReady => p.(ready := true)
    case Cancel => p.(cancelled := true)
    case Spawn => p.(carrier := Ranging)
    case Abandon => p.(carrier := Abandoned)
    case FeedBegin => p.(feeder := Offering)
    case FeedChunk =>
      p.(channel := p.channel + [buf[p.next..Min(p.next + CHUNK_SIZE, |buf|)]], next := p.next + CHUNK_SIZE)
    case FeedEnd => p.(feeder := Shut)
    case FeedAbort => p.(feeder := Shut)
    case Take => p.(carrier := Sending(p.channel[0]), channel := p.channel[1..])
    case EndOfAudio => p.(carrier := Stopping)
    case Send(ok) =>
      if ok then p.(carrier := Ranging, wire := p.wire + [p.carrier.chunk])
      else p.(carrier := Stopping, lost := Some(p.carrier.chunk))
    case StopSession => p.(carrier := Finished)
  }

  predicate IsRun(buf: Bytes, p: Pipe, run: seq<Action>)
    decreases |run|
  {
    run == [] || (Enabled(buf, p, run[0]) && IsRun(buf, Step(buf, p, run[0]), run[1..]))
  }

  function Exec(buf: Bytes, p: Pipe, run: seq<Action>): Pipe
    requires IsRun(buf, p, run)
    decreases |run|
  {
    if run == [] then p else Exec(buf, Step(buf, p, run[0]), run[1..])
  }

  // ---------- Conservation ----------

  function InHand(p: Pipe): seq<Bytes> {
    if p.carrier.Sending? then [p.carrier.chunk] else []
  }

  function Lost(p: Pipe): seq<Bytes> {
    if p.lost.Some? then [p.lost.value] else []
  }

  /** Every chunk the feeder let go of, oldest first. */
  function Fed(p: Pipe): seq<Bytes> {
    p.wire + Lost(p) + InHand(p) + p.channel
  }

  ghost predicate Conserved(buf: Bytes, p: Pipe) {
    && |Fed(p)| <= |Chunks(buf)| && Fed(p) == Chunks(buf)[..|Fed(p)|]
    && p.next == CHUNK_SIZE * |Fed(p)|
    && |p.channel| <= CHANNEL_SIZE
    && (p.lost.Some? ==> p.carrier.Stopping? || p.carrier.Finished?)
    && (p.feeder.Waiting? ==> p.next == 0)
    && (p.carrier.Stopping? || p.carrier.Finished? ==> p.lost.Some? || (p.channel == [] && p.feeder.Shut?))
    && (p.feeder.Shut? && !p.cancelled ==> p.next >= |buf|)
    && (!p.feeder.Waiting? ==> p.ready || p.cancelled)
    && (p.carrier.NotSpawned? || p.carrier.Abandoned? ==> p.wire == [])
    && (!p.carrier.NotSpawned? && !p.carrier.Abandoned? ==> p.ready)
  }

  function NextChunk(buf: Bytes, p: Pipe): Bytes
    requires p.next <= |buf|
  {
    buf[p.next..Min(p.next + CHUNK_SIZE, |buf|)]
  }

  /** Only the feeder adds to what has been fed; the others move it along in order. */
  lemma FedStep(buf: Bytes, p: Pipe, a: Action)
    requires Enabled(buf, p, a) && (p.lost.Some? ==> p.carrier.Stopping? || p.carrier.Finished?)
    ensures Fed(Step(buf, p, a)) == if a.FeedChunk? then Fed(p) + [NextChunk(buf, p)] else Fed(p)
  {
    var q := Step(buf, p, a);
    match a
    case FeedChunk => Regroup(p.wire + Lost(p) + InHand(p), p.channel, [NextChunk(buf, p)]);
    case Take => FedTake(p, q);
    case Send(_) => FedSend(p, q);
    case _ =>
  }

  lemma Regroup(a: seq<Bytes>, b: seq<Bytes>, c: seq<Bytes>)
    ensures a + (b + c) == a + b + c
  {
  }

  lemma FedTake(p: Pipe, q: Pipe)
    requires p.carrier.Ranging? && p.channel != [] && p.lost.None?
    requires q == p.(carrier := Sending(p.channel[0]), channel := p.channel[1..])
    ensures Fed(q) == Fed(p)
  {
    assert p.channel == [p.channel[0]] + p.channel[1..];
  }

  lemma FedSend(p: Pipe, q: Pipe)
    requires p.carrier.Sending? && p.lost.None?
    requires (q.carrier.Ranging? && q == p.(carrier := Ranging, wire := p.wire + [p.carrier.chunk]))
          || (q.carrier.Stopping? && q == p.(carrier := Stopping, lost := Some(p.carrier.chunk)))
    ensures Fed(q) == Fed(p)
  {
    assert p.wire + [] + [p.carrier.chunk] == p.wire + [p.carrier.chunk] + [] + [];
  }

  lemma ConservedStep(buf: Bytes, p: Pipe, a: Action)
    requires Conserved(buf, p) && Enabled(buf, p, a)
    ensures Conserved(buf, Step(buf, p, a))
  {
    hide Chunks, Fed;
    FedStep(buf, p, a);
    ChunkAt(buf, |Fed(p)|);
    if a.FeedChunk? {
      var n := |Fed(p)|;
      assert Chunks(buf)[..n + 1] == Chunks(buf)[..n] + [Chunks(buf)[n]];
    }
  }

  lemma {:induction false} ConservedAlong(buf: Bytes, p: Pipe, run: seq<Action>)
    requires Conserved(buf, p) && IsRun(buf, p, run)
    ensures Conserved(buf, Exec(buf, p, run))
    decreases |run|
  {
    hide Conserved, Step, Enabled;
    if run != [] {
      ConservedStep(buf, p, run[0]);
      ConservedAlong(buf, Step(buf, p, run[0]), run[1..]);
    }
  }

  /** What the feeder has not read yet. */
  function Rest(buf: Bytes, p: Pipe): Bytes {
    buf[Min(p.next, |buf|)..]
  }

  /** The chunks from the n-th on are the bytes from where the n-th starts. */
  lemma {:induction false} RestBytes(buf: Bytes, n: nat)
    requires n <= |Chunks(buf)|
    ensures Flat(Chunks(buf)[n..]) == buf[Min(CHUNK_SIZE * n, |buf|)..]
  {
    ChunksFlatten(buf);
    if n > 0 {
      if |buf| <= CHUNK_SIZE {
        assert Chunks(buf)[n..] == [];
      } else {
        var rest := buf[CHUNK_SIZE..];
        RestBytes(rest, n - 1);
        assert Chunks(buf)[n..] == Chunks(rest)[n - 1..];
        var cut := Min(CHUNK_SIZE * (n - 1), |rest|);
        assert rest[cut..] == buf[CHUNK_SIZE + cut..];
      }
    }
  }

  lemma FedBytes(buf: Bytes, p: Pipe)
    requires Conserved(buf, p)
    ensures Flat(Fed(p)) == buf[..Min(p.next, |buf|)]
  {
    FirstChunks(buf, |Fed(p)|);
  }

  lemma Reached(buf: Bytes, run: seq<Action>)
    requires IsRun(buf, Init(), run)
    ensures Conserved(buf, Exec(buf, Init(), run))
  {
    ConservedAlong(buf, Init(), run);
  }

  /** At every instant the bytes on the wire, a chunk whose send failed, the chunk in hand, the
      channel's contents and the unread rest are exactly the upload, in order. Every chunk is 1 to
      4096 bytes and the channel never holds more than 64. */
  lemma PipeConserves(buf: Bytes, run: seq<Action>)
    requires IsRun(buf, Init(), run)
    ensures var p := Exec(buf, Init(), run);
      && Flat(p.wire) + Flat(Lost(p)) + Flat(InHand(p)) + Flat(p.channel) + Rest(buf, p) == buf
      && (forall c | c in Fed(p) :: 1 <= |c| <= 4096)
      && |p.channel| <= 64
  {
    Reached(buf, run);
    var p := Exec(buf, Init(), run);
    hide Exec, IsRun, Flat, Chunks;
    FedBytes(buf, p);
    FlatAppend(p.wire + Lost(p) + InHand(p), p.channel);
    FlatAppend(p.wire + Lost(p), InHand(p));
    FlatAppend(p.wire, Lost(p));
    var cut := Min(p.next, |buf|);
    assert buf[..cut] + buf[cut..] == buf;
    forall c | c in Fed(p) ensures c in Chunks(buf) {
    }
  }

  /** The server has received a prefix of the upload, chunk by chunk. */
  lemma WireIsAPrefix(buf: Bytes, run: seq<Action>)
    requires IsRun(buf, Init(), run)
    ensures var p := Exec(buf, Init(), run); p.wire <= Chunks(buf) && Flat(p.wire) <= buf
  {
    hide Exec, IsRun, Chunks, Flat;
    PipeConserves(buf, run);
    Reached(buf, run);
    var p := Exec(buf, Init(), run);
    Prefix(p.wire, Lost(p), InHand(p), p.channel);
    assert p.wire <= Fed(p);
    Prefix(Flat(p.wire), Flat(Lost(p)), Flat(InHand(p)), Flat(p.channel) + Rest(buf, p));
    assert Flat(p.wire) + Flat(Lost(p)) + Flat(InHand(p)) + (Flat(p.channel) + Rest(buf, p)) == buf;
  }

  lemma Prefix<T>(a: seq<T>, b: seq<T>, c: seq<T>, d: seq<T>)
    ensures a <= a + b + c + d
  {
  }

  /** When stop is sent, the wire holds the whole upload exactly when no send failed and the
      feeder was not cancelled before its last chunk. */
  lemma WholeUploadAtStop(buf: Bytes, run: seq<Action>)
    requires IsRun(buf, Init(), run)
    requires Exec(buf, Init(), run).carrier.Stopping? || Exec(buf, Init(), run).carrier.Finished?
    ensures var p := Exec(buf, Init(), run);
      && (Flat(p.wire) == buf <==> p.lost.None? && p.next >= |buf|)
      && (!p.cancelled && p.lost.None? ==> Flat(p.wire) == buf)
  {
    PipeConserves(buf, run);
    Reached(buf, run);
    var p := Exec(buf, Init(), run);
    hide Exec, IsRun, Chunks, Fed;
    LostIsBytes(buf, p);
  }

  lemma LostIsBytes(buf: Bytes, p: Pipe)
    requires Conserved(buf, p)
    ensures Flat([]) == []
    ensures p.lost.Some? ==> Flat(Lost(p)) != []
  {
    if p.lost.Some? {
      var c := p.lost.value;
      assert c == Fed(p)[|p.wire|];
      assert c in Chunks(buf);
      assert Lost(p)[1..] == [];
    }
  }

  // ---------- The pipeline ends ----------

  function CarrierRank(c: Carrier): nat {
    match c
    case NotSpawned => 4
    case Abandoned => 0
    case Ranging => 3
    case Sending(_) => 3
    case Stopping => 1
    case Finished => 0
  }

  /** Steps still possible. */
  function Remaining(buf: Bytes, p: Pipe): nat {
    var unread := if p.next < |buf| then |buf| - p.next else 0;
    3 * unread + 2 * |p.channel| + |InHand(p)| + CarrierRank(p.carrier)
      + (match p.feeder case Waiting => 2 case Offering => 1 case Shut => 0)
      + (if p.ready then 0 else 1) + (if p.cancelled then 0 else 1)
  }

  lemma RemainingShrinks(buf: Bytes, p: Pipe, a: Action)
    requires Enabled(buf, p, a)
    ensures Remaining(buf, Step(buf, p, a)) < Remaining(buf, p)
  {
  }

  /** No run of the pipeline is longer than a bound fixed by the upload. */
  lemma {:induction false} RunsAreBounded(buf: Bytes, p: Pipe, run: seq<Action>)
    requires IsRun(buf, p, run)
    ensures |run| + Remaining(buf, Exec(buf, p, run)) <= Remaining(buf, p)
    decreases |run|
  {
    hide Remaining, Step, Enabled;
    if run != [] {
      RemainingShrinks(buf, p, run[0]);
      RunsAreBounded(buf, Step(buf, p, run[0]), run[1..]);
    }
  }

  /** Nothing left to do but to cancel. */
  ghost predicate AtRest(buf: Bytes, p: Pipe) {
    forall a | Enabled(buf, p, a) :: a == Cancel
  }

  /** The feeder waits for something that will not happen any more: ReadyCh, or room in the channel. */
  predicate FeederBlocked(buf: Bytes, p: Pipe) {
    !p.cancelled &&
    ((p.feeder.Waiting? && !p.ready) ||
     (p.feeder.Offering? && p.next < |buf| && |p.channel| == CHANNEL_SIZE))
  }

  /** The pipeline is at rest exactly when the broker's side is over and the feeder has returned
      or is blocked; a blocked feeder is freed by the cancellation its handler ends with. */
  lemma RestExactly(buf: Bytes, run: seq<Action>)
    requires IsRun(buf, Init(), run)
    ensures var p := Exec(buf, Init(), run);
      && (AtRest(buf, p) <==>
            (p.carrier.Finished? || p.carrier.Abandoned?) && (p.feeder.Shut? || FeederBlocked(buf, p)))
      && (FeederBlocked(buf, p) ==> !Enabled(buf, p, FeedAbort) && Enabled(buf, p.(cancelled := true), FeedAbort))
  {
    hide Exec, IsRun, Conserved;
    Reached(buf, run);
    RestShape(buf, Exec(buf, Init(), run));
  }

  lemma RestShape(buf: Bytes, p: Pipe)
    requires Conserved(buf, p)
    ensures AtRest(buf, p) <==>
      (p.carrier.Finished? || p.carrier.Abandoned?) && (p.feeder.Shut? || FeederBlocked(buf, p))
  {
    hide Fed, Chunks;
    if AtRest(buf, p) {
      assert !Enabled(buf, p, BecomeReady) && !Enabled(buf, p, Spawn) && !Enabled(buf, p, Abandon);
      assert !Enabled(buf, p, FeedBegin) && !Enabled(buf, p, FeedChunk);
      assert !Enabled(buf, p, FeedEnd) && !Enabled(buf, p, FeedAbort) && !Enabled(buf, p, Take);
      assert !Enabled(buf, p, EndOfAudio) && !Enabled(buf, p, Send(true)) && !Enabled(buf, p, StopSession);
    }
  }

  /** When an uncancelled pipeline at rest has freed its feeder: after stop, exactly if no send
      failed or what was left fitted in the channel; with the audio goroutine never started,
      exactly if ReadyCh was closed and the upload is at most 64 chunks. */
  lemma FeederReturns(buf: Bytes, run: seq<Action>)
    requires IsRun(buf, Init(), run)
    requires AtRest(buf, Exec(buf, Init(), run)) && !Exec(buf, Init(), run).cancelled
    ensures var p := Exec(buf, Init(), run);
      && (p.carrier.Finished? ==>
            (p.feeder.Shut? <==> p.lost.None? || |buf| <= CHUNK_SIZE * (|p.wire| + 1 + CHANNEL_SIZE)))
      && (p.carrier.Abandoned? ==> (p.feeder.Shut? <==> p.ready && |buf| <= CHUNK_SIZE * CHANNEL_SIZE))
  {
    hide Exec, IsRun, Conserved, AtRest, FeederBlocked;
    Reached(buf, run);
    RestShape(buf, Exec(buf, Init(), run));
    RestAmounts(buf, Exec(buf, Init(), run));
  }

  lemma RestAmounts(buf: Bytes, p: Pipe)
    requires Conserved(buf, p) && !p.cancelled && (p.feeder.Shut? || FeederBlocked(buf, p))
    ensures p.carrier.Finished? ==>
      (p.feeder.Shut? <==> p.lost.None? || |buf| <= CHUNK_SIZE * (|p.wire| + 1 + CHANNEL_SIZE))
    ensures p.carrier.Abandoned? ==> (p.feeder.Shut? <==> p.ready && |buf| <= CHUNK_SIZE * CHANNEL_SIZE)
  {
    hide Chunks;
    assert |Fed(p)| == |p.wire| + |Lost(p)| + |InHand(p)| + |p.channel|;
  }

  // ---------- The broker's audio goroutine, on its own ----------

  /** Range over the channel until it is closed or the `healthy`-th send fails; stop follows. */
  method Relay(incoming: seq<Bytes>, healthy: nat) returns (wire: seq<Bytes>, lost: Option<Bytes>)
    ensures wire == incoming[..Min(healthy, |incoming|)]
    ensures lost == if healthy < |incoming| then Some(incoming[healthy]) else None
  {
    wire, lost := [], None;
    for i := 0 to |incoming|
      invariant i <= healthy && wire == incoming[..i]
    {
      if i == healthy {
        return wire, Some(incoming[i]);
      }
      wire := wire + [incoming[i]];
    }
  }

  /** Feeder and relay in sequence: without cancellation or a failed send the server receives the
      upload, and otherwise the bytes up to the chunk where the first of the two happened. */
  method Upload(buf: Bytes, patience: nat, healthy: nat) returns (wire: seq<Bytes>)
    ensures Flat(wire) == buf[..Min(CHUNK_SIZE * Min(patience, healthy), |buf|)]
  {
    hide Chunks;
    var sent, aborted := FeedAudio(buf, patience);
    var lost;
    wire, lost := Relay(sent, healthy);
    ghost var n := Min(Min(patience, healthy), |Chunks(buf)|);
    assert wire == Chunks(buf)[..n];
    FirstChunks(buf, n);
    ChunkAt(buf, Min(patience, healthy));
  }

  lemma FirstChunks(buf: Bytes, n: nat)
    requires n <= |Chunks(buf)|
    ensures Flat(Chunks(buf)[..n]) == buf[..Min(CHUNK_SIZE * n, |buf|)]
    ensures n == |Chunks(buf)| ==> CHUNK_SIZE * n >= |buf|
  {
    hide Flat, Chunks;
    var done, left := Chunks(buf)[..n], Chunks(buf)[n..];
    assert Chunks(buf) == done + left;
    ChunksFlatten(buf);
    FlatAppend(done, left);
    RestBytes(buf, n);
    ChunkAt(buf, n);
    var cut := Min(CHUNK_SIZE * n, |buf|);
    assert |Flat(done)| == cut;
    assert Flat(done) == (Flat(done) + Flat(left))[..cut];
  }

  // ---------- The transcript loop ----------

  /** What the handler's select yields. */
  datatype Event =
    | Got(text: string, final: bool, errCode: int)
    | ResultsClosed
    | Deadline

  datatype Failure = Upstream(code: int) | TimedOut

  predicate Ends(e: Event) {
    !e.Got? || e.errCode != 0
  }

  /** The final texts among the first events, in order. */
  function Finals(events: seq<Event>): string {
    if events == [] then ""
    else
      var last := events[|events| - 1];
      Finals(events[..|events| - 1]) + (if last.Got? && last.final then last.text else "")
  }

  /** Finals is the one function that takes concatenations to concatenations, a final result to
      its text and everything else to nothing. */
  lemma {:induction false} FinalsConcatenate(a: seq<Event>, b: seq<Event>)
    ensures Finals(a + b) == Finals(a) + Finals(b)
  {
    if b == [] {
      assert a + b == a;
    } else {
      var front, last := b[..|b| - 1], b[|b| - 1];
      FinalsConcatenate(a, front);
      assert (a + b)[..|a + b| - 1] == a + front;
      assert (a + b)[|a + b| - 1] == last;
    }
  }

  lemma FinalsOfOne(e: Event)
    ensures e.Got? && e.final ==> Finals([e]) == e.text
    ensures !e.Got? || !e.final ==> Finals([e]) == ""
  {
    assert [e][..0] == [];
  }

  /** The events without the interim results. */
  function WithoutInterim(events: seq<Event>): seq<Event> {
    if events == [] then []
    else (if events[0].Got? && !events[0].final then [] else [events[0]]) + WithoutInterim(events[1..])
  }

  lemma {:induction false} InterimResultsDoNotCount(events: seq<Event>)
    ensures Finals(WithoutInterim(events)) == Finals(events)
  {
    if events != [] {
      var first, rest := [events[0]], events[1..];
      assert events == first + rest;
      FinalsConcatenate(first, rest);
      FinalsOfOne(events[0]);
      InterimResultsDoNotCount(rest);
      FinalsConcatenate(WithoutInterim(first), WithoutInterim(rest));
      assert first[1..] == [];
      assert WithoutInterim(events) == WithoutInterim(first) + WithoutInterim(rest);
    }
  }

  /** The loop ends at the first close, error or deadline, and answers with every final text
      before it only if that event is the close. */
  method Transcribe(events: seq<Event>) returns (r: Result<string, Failure>, k: nat)
    requires exists i :: 0 <= i < |events| && Ends(events[i])  // the deadline always comes
    ensures k < |events| && (events[k].Got? ==> events[k].errCode != 0)
    ensures forall i | 0 <= i < k :: events[i].Got? && events[i].errCode == 0
    ensures r.Ok? <==> events[k].ResultsClosed?
    ensures r.Ok? ==> r.value == Finals(events[..k]) == Finals(WithoutInterim(events[..k]))
    ensures r.Err? ==> r.error == if events[k].Deadline? then TimedOut else Upstream(events[k].errCode)
  {
    var transcript := "";
    k := 0;
    while true
      invariant k <= |events| && forall i | 0 <= i < k :: !Ends(events[i])
      invariant transcript == Finals(events[..k])
      decreases |events| - k
    {
      var e := events[k];
      match e {
        case ResultsClosed =>
          InterimResultsDoNotCount(events[..k]);
          return Ok(transcript), k;
        case Deadline => return Err(TimedOut), k;
        case Got(text, final, errCode) =>
          if errCode != 0 {
            return Err(Upstream(errCode)), k;
          }
          assert events[..k + 1][..k] == events[..k];
          if final {
            transcript := transcript + text;
          }
          k := k + 1;
      }
    }
  }
}
