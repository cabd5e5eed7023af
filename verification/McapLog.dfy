/**
  The MCAP logger: it registers one log channel per incoming stream, then
  stamps every incoming sample with its stream's channel id, a per-stream
  sequence number and the receive time, and appends it to the log, until
  an interrupt asks it to finalise the file.

  The log writer is modelled by the records it has been asked to keep: its
  channel table, the records written, and how many times `finish` was
  called. Outcomes the environment decides (whether an I/O call succeeds,
  whether a sample's value converts to bytes, the clock) are inputs.
 */
module McapLog {
  import opened Bytes

  const Protobuf: string := "protobuf"

  /** Full name of the `foxglove.LaserScan` message descriptor. */
  const LaserScanFullName: string := "foxglove.LaserScan"

  const LaserTopic: string := "laser_scan"
  const CloudTopic: string := "point_cloud"

  /** `u32` sequence numbers wrap at this bound. */
  const SequenceBound: nat := 0x1_0000_0000

  /** A `u32` value. */
  type U32 = x: int | 0 <= x < 0x1_0000_0000

  datatype Schema = Schema(name: string, encoding: string, data: seq<byte>)

  datatype Channel = Channel(
    topic: string,
    schema: Schema,
    messageEncoding: string,
    metadata: map<string, string>)

  datatype MessageHeader = MessageHeader(channelId: nat, sequence: nat, logTime: nat, publishTime: nat)

  datatype Record = Record(header: MessageHeader, data: seq<byte>)

  /** The writer's channel table (a channel's id is its position), the
      records written so far, and the number of `finish` calls. */
  datatype Writer = Writer(channels: seq<Channel>, records: seq<Record>, finishCalls: nat)

  const EmptyWriter: Writer := Writer([], [], 0)

  datatype Error =
    | AddChannelFailed     // `add_channel` returned an error
    | ConversionFailed     // the sample's value is not a byte payload
    | WriteFailed          // `write_to_known_channel` returned an error
    | FinishFailed         // `finish` returned an error

  datatype Registered = Registered(writer: Writer, channelId: nat)

  datatype Result<T> = Ok(value: T) | Err(writer: Writer, error: Error)

  /** `create_topic_for_message`: registers a channel on `topic` whose
      schema is the message's descriptor, encoded as protobuf, and returns
      the channel id the writer assigns. `descriptorPool` is the encoded
      descriptor pool the schema carries; `addOk` is whether the writer's
      `add_channel` succeeds. */
  function CreateTopicForMessage(w: Writer, messageFullName: string, descriptorPool: seq<byte>,
                                 topic: string, addOk: bool): (r: Result<Registered>)
    ensures !addOk <==> r.Err?
    ensures r.Err? ==> r.writer == w && r.error == AddChannelFailed
    ensures r.Ok? ==>
              var w' := r.value.writer;
              var id := r.value.channelId;
              && |w'.channels| == |w.channels| + 1
              && w'.channels[..|w.channels|] == w.channels
              && id == |w.channels|
              && w'.channels[id].topic == topic
              && w'.channels[id].schema == Schema(messageFullName, Protobuf, descriptorPool)
              && w'.channels[id].messageEncoding == Protobuf
              && w'.channels[id].metadata == map[]
              && w'.records == w.records && w'.finishCalls == w.finishCalls
  {
    var channel := Channel(topic, Schema(messageFullName, Protobuf, descriptorPool), Protobuf, map[]);
    if addOk then
      Ok(Registered(w.(channels := w.channels + [channel]), |w.channels|))
    else
      Err(w, AddChannelFailed)
  }

  /** A value received from the bus: a byte payload, or something that does
      not convert to `Vec<u8>`. */
  datatype Value = Payload(bytes: seq<byte>) | NotBytes

  /** One received sample: its value, the clock reading in nanoseconds when
      it was handled, and whether writing it succeeds. */
  datatype Sample = Sample(value: Value, timeNanos: nat, writeOk: bool)

  datatype Event = Laser(sample: Sample) | Cloud(sample: Sample) | CtrlC

  datatype Logger = Logger(writer: Writer, laserChannel: nat, cloudChannel: nat,
                           laserCounter: U32, cloudCounter: U32)

  /** Environment outcomes of the calls made outside the loop. */
  datatype Env = Env(descriptorPool: seq<byte>, laserAddOk: bool, cloudAddOk: bool, finishOk: bool)

  /** Registers the laser channel, then the point-cloud channel. Both use the
      `LaserScan` descriptor. Counters start at 0. */
  function Open(env: Env): (r: Result<Logger>)
    ensures r.Ok? <==> env.laserAddOk && env.cloudAddOk
    ensures r.Err? ==> r.error == AddChannelFailed && r.writer.records == [] && r.writer.finishCalls == 0
    ensures r.Ok? ==>
              var l := r.value;
              && l.writer.records == [] && l.writer.finishCalls == 0
              && l.laserCounter == 0 && l.cloudCounter == 0
              && l.writer.channels == [LaserChannel(env.descriptorPool), CloudChannel(env.descriptorPool)]
              && l.laserChannel == 0 && l.cloudChannel == 1
  {
    match CreateTopicForMessage(EmptyWriter, LaserScanFullName, env.descriptorPool, LaserTopic, env.laserAddOk)
    case Err(w, e) => Err(w, e)
    case Ok(laser) =>
      match CreateTopicForMessage(laser.writer, LaserScanFullName, env.descriptorPool, CloudTopic, env.cloudAddOk)
      case Err(w, e) => Err(w, e)
      case Ok(cloud) =>
        Ok(Logger(cloud.writer, laser.channelId, cloud.channelId, 0, 0))
  }

  /** The channel the laser stream is logged on. */
  function LaserChannel(pool: seq<byte>): Channel
  {
    Channel(LaserTopic, Schema(LaserScanFullName, Protobuf, pool), Protobuf, map[])
  }

  /** The channel the point-cloud stream is logged on. Its schema is the
      `LaserScan` descriptor, as the logger registers it. */
  function CloudChannel(pool: seq<byte>): Channel
  {
    Channel(CloudTopic, Schema(LaserScanFullName, Protobuf, pool), Protobuf, map[])
  }

  /** `counter += 1` on a `u32` (wrapping, as in a release build): the
      successor, except that the largest `u32` steps to 0. */
  function NextSequence(counter: U32): (n: U32)
    ensures counter < SequenceBound - 1 ==> n == counter + 1
    ensures counter == SequenceBound - 1 ==> n == 0
  {
    (counter + 1) % SequenceBound
  }

  datatype StepResult = Continue(logger: Logger) | Break | Abort(writer: Writer, error: Error)

  /** Writes one sample on `channel` with sequence number `sequence`. */
  function WriteSample(w: Writer, channel: nat, sequence: nat, s: Sample): (r: Result<Writer>)
    ensures r.Ok? <==> Healthy(s)
    ensures r.Err? ==> r.writer == w && (r.error == ConversionFailed <==> s.value.NotBytes?)
    ensures r.Err? ==> r.error in {ConversionFailed, WriteFailed}
    ensures r.Ok? ==>
              && r.value.channels == w.channels && r.value.finishCalls == w.finishCalls
              && |r.value.records| == |w.records| + 1
              && r.value.records[..|w.records|] == w.records
              && var rec := r.value.records[|w.records|];
                 && rec.header.channelId == channel && rec.header.sequence == sequence
                 && rec.header.logTime == s.timeNanos && rec.header.publishTime == s.timeNanos
                 && rec.data == s.value.bytes
  {
    match s.value
    case NotBytes => Err(w, ConversionFailed)
    case Payload(bytes) =>
      if !s.writeOk then Err(w, WriteFailed)
      else
        var header := MessageHeader(channel, sequence, s.timeNanos, s.timeNanos);
        Ok(w.(records := w.records + [Record(header, bytes)]))
  }

  /** One iteration of the `select!` loop. */
  function Step(l: Logger, e: Event): (r: StepResult)
    ensures e == CtrlC <==> r.Break?
    ensures r.Abort? ==> r.writer == l.writer && r.error in {ConversionFailed, WriteFailed}
    ensures e.Laser? && r.Continue? ==> r.logger.cloudCounter == l.cloudCounter
    ensures e.Cloud? && r.Continue? ==> r.logger.laserCounter == l.laserCounter
    ensures r.Continue? ==>
              && r.logger.writer.channels == l.writer.channels
              && r.logger.writer.finishCalls == l.writer.finishCalls
              && r.logger.laserChannel == l.laserChannel && r.logger.cloudChannel == l.cloudChannel
  {
    match e
    case CtrlC => Break
    case Laser(s) =>
      var counter := NextSequence(l.laserCounter);
      (match WriteSample(l.writer, l.laserChannel, counter, s)
       case Err(w, err) => Abort(w, err)
       case Ok(w) => Continue(l.(writer := w, laserCounter := counter)))
    case Cloud(s) =>
      var counter := NextSequence(l.cloudCounter);
      match WriteSample(l.writer, l.cloudChannel, counter, s)
      case Err(w, err) => Abort(w, err)
      case Ok(w) => Continue(l.(writer := w, cloudCounter := counter))
  }

  /** Where the logger is after some events: still listening, closed after
      `finish`, or stopped by an error. */
  datatype Outcome = Listening(logger: Logger) | Closed(writer: Writer) | Failed(writer: Writer, error: Error)

  function OutcomeWriter(o: Outcome): Writer
  {
    match o
    case Listening(l) => l.writer
    case Closed(w) => w
    case Failed(w, _) => w
  }

  /** `out.finish()?` after the loop is left. */
  function Finish(w: Writer, ok: bool): (r: Outcome)
    ensures !r.Listening?
    ensures OutcomeWriter(r).finishCalls == w.finishCalls + 1
    ensures OutcomeWriter(r).records == w.records && OutcomeWriter(r).channels == w.channels
    ensures r.Closed? <==> ok
    ensures r.Failed? ==> r.error == FinishFailed
  {
    var w' := w.(finishCalls := w.finishCalls + 1);
    if ok then Closed(w') else Failed(w', FinishFailed)
  }

  /** The logger after the events so far; events after it has stopped are
      never read. */
  function Run(env: Env, events: seq<Event>): (o: Outcome)
    ensures OutcomeWriter(o).finishCalls <= 1
    ensures o.Listening? ==>
              && OutcomeWriter(o).finishCalls == 0
              && o.logger.writer.channels == [LaserChannel(env.descriptorPool), CloudChannel(env.descriptorPool)]
              && o.logger.laserChannel == 0 && o.logger.cloudChannel == 1
  {
    if |events| == 0 then
      match Open(env)
      case Ok(l) => Listening(l)
      case Err(w, e) => Failed(w, e)
    else
      match Run(env, events[..|events| - 1])
      case Listening(l) =>
        (match Step(l, events[|events| - 1])
         case Continue(l') => Listening(l')
         case Break => Finish(l.writer, env.finishOk)
         case Abort(w, e) => Failed(w, e))
      case other => other
  }

  // ---------------------------------------------------------------------
  // Reference view of the log

  predicate Healthy(s: Sample)
  {
    s.value.Payload? && s.writeOk
  }

  /** The samples of one stream among `events`, in arrival order. */
  function StreamSamples(events: seq<Event>, laser: bool): seq<Sample>
  {
    if |events| == 0 then []
    else
      var e := events[|events| - 1];
      StreamSamples(events[..|events| - 1], laser)
      + (if (laser && e.Laser?) || (!laser && e.Cloud?) then [e.sample] else [])
  }

  /** The records of one channel, in the order they were written. */
  function OnChannel(records: seq<Record>, channel: nat): seq<Record>
  {
    if |records| == 0 then []
    else
      var r := records[|records| - 1];
      OnChannel(records[..|records| - 1], channel) + (if r.header.channelId == channel then [r] else [])
  }

  /** The log a channel should hold for `samples`: the n-th sample (from 1)
      under sequence number n (modulo 2^32), stamped with its receive time
      as both log and publish time, with its payload unchanged. */
  predicate StampedInOrder(recs: seq<Record>, channel: nat, samples: seq<Sample>)
  {
    && |recs| == |samples|
    && forall n :: 0 <= n < |recs| ==>
         && samples[n].value.Payload?
         && recs[n] == Record(MessageHeader(channel, (n + 1) % SequenceBound,
                                            samples[n].timeNanos, samples[n].timeNanos),
                              samples[n].value.bytes)
  }

  /** The state a listening logger keeps: exactly the two registrations,
      nothing finished, and each channel holding its stream's samples in
      order with counters equal to the number of samples written. */
  predicate ListeningInvariant(env: Env, l: Logger, events: seq<Event>)
  {
    var laser := StreamSamples(events, true);
    var cloud := StreamSamples(events, false);
    && l.writer.channels == [LaserChannel(env.descriptorPool), CloudChannel(env.descriptorPool)]
    && l.laserChannel == 0 && l.cloudChannel == 1
    && l.writer.finishCalls == 0
    && l.laserCounter == |laser| % SequenceBound
    && l.cloudCounter == |cloud| % SequenceBound
    && |l.writer.records| == |laser| + |cloud|
    && StampedInOrder(OnChannel(l.writer.records, 0), 0, laser)
    && StampedInOrder(OnChannel(l.writer.records, 1), 1, cloud)
  }

  lemma OnChannelAppend(records: seq<Record>, r: Record, channel: nat)
    ensures OnChannel(records + [r], channel)
            == OnChannel(records, channel) + (if r.header.channelId == channel then [r] else [])
  {
    assert (records + [r])[..|records|] == records;
  }

  lemma StampedExtend(recs: seq<Record>, channel: nat, samples: seq<Sample>, s: Sample)
    requires StampedInOrder(recs, channel, samples)
    requires s.value.Payload?
    ensures StampedInOrder(recs + [Record(MessageHeader(channel, (|samples| + 1) % SequenceBound,
                                                        s.timeNanos, s.timeNanos), s.value.bytes)],
                           channel, samples + [s])
  {
  }

  lemma StreamSamplesAppend(events: seq<Event>, e: Event, laser: bool)
    ensures StreamSamples(events + [e], laser)
            == StreamSamples(events, laser) + (if (laser && e.Laser?) || (!laser && e.Cloud?) then [e.sample] else [])
  {
    assert (events + [e])[..|events|] == events;
  }

  /** Counting `n` samples from 0 with `NextSequence` gives `n` modulo 2^32:
      the counter after one more sample is `(n + 1) mod 2^32`. */
  lemma SuccMod(n: nat)
    ensures NextSequence(n % SequenceBound) == (n + 1) % SequenceBound
  {
    var q, r := n / SequenceBound, n % SequenceBound;
    assert n + 1 == q * SequenceBound + (r + 1);
    if r + 1 == SequenceBound {
      assert n + 1 == (q + 1) * SequenceBound;
    }
  }

  /** A successful loop iteration keeps the listening invariant. */
  lemma ListeningStep(env: Env, l: Logger, events: seq<Event>, e: Event)
    requires ListeningInvariant(env, l, events)
    requires Step(l, e).Continue?
    ensures ListeningInvariant(env, Step(l, e).logger, events + [e])
    ensures e != CtrlC && Healthy(e.sample)
  {
    StreamSamplesAppend(events, e, true);
    StreamSamplesAppend(events, e, false);
    if e.Laser? {
      ListeningStepOn(env, l, events, e, true);
    } else {
      ListeningStepOn(env, l, events, e, false);
    }
  }

  lemma ListeningStepOn(env: Env, l: Logger, events: seq<Event>, e: Event, laser: bool)
    requires ListeningInvariant(env, l, events)
    requires Step(l, e).Continue?
    requires laser <==> e.Laser?
    requires StreamSamples(events + [e], true)
             == StreamSamples(events, true) + (if e.Laser? then [e.sample] else [])
    requires StreamSamples(events + [e], false)
             == StreamSamples(events, false) + (if e.Cloud? then [e.sample] else [])
    ensures ListeningInvariant(env, Step(l, e).logger, events + [e])
    ensures e != CtrlC && Healthy(e.sample)
  {
    var s := e.sample;
    var mine := StreamSamples(events, laser);
    var other := StreamSamples(events, !laser);
    var ch: nat := if laser then 0 else 1;
    var otherCh: nat := 1 - ch;
    SuccMod(|mine|);
    var rec := Record(MessageHeader(ch, (|mine| + 1) % SequenceBound, s.timeNanos, s.timeNanos), s.value.bytes);
    var l' := Step(l, e).logger;
    assert l'.writer.records == l.writer.records + [rec];
    OnChannelAppend(l.writer.records, rec, ch);
    OnChannelAppend(l.writer.records, rec, otherCh);
    StampedExtend(OnChannel(l.writer.records, ch), ch, mine, s);
    assert OnChannel(l'.writer.records, otherCh) == OnChannel(l.writer.records, otherCh);
  }

  /** While the logger listens, every event so far was a healthy sample,
      the log holds exactly those samples stamped in order on their own
      channel, and `finish` has not been called. */
  lemma {:induction false} ListeningLog(env: Env, events: seq<Event>)
    requires Run(env, events).Listening?
    ensures ListeningInvariant(env, Run(env, events).logger, events)
    ensures forall i :: 0 <= i < |events| ==> events[i] != CtrlC && Healthy(events[i].sample)
  {
    if |events| > 0 {
      var prev := events[..|events| - 1];
      var e := events[|events| - 1];
      assert Run(env, prev).Listening?;
      ListeningLog(env, prev);
      var l := Run(env, prev).logger;
      assert Step(l, e).Continue? && Run(env, events).logger == Step(l, e).logger;
      assert prev + [e] == events;
      ListeningStep(env, l, prev, e);
    }
  }

  // ---------------------------------------------------------------------
  // Leaving the loop

  /** Once the logger has stopped, later events change nothing. */
  lemma {:induction false} StoppedStays(env: Env, events: seq<Event>, k: nat)
    requires k <= |events| && !Run(env, events[..k]).Listening?
    ensures Run(env, events) == Run(env, events[..k])
    decreases |events| - k
  {
    if k < |events| {
      assert events[..k + 1][..k] == events[..k];
      StoppedStays(env, events, k + 1);
    } else {
      assert events[..k] == events;
    }
  }

  /** A listening logger keeps listening through healthy samples. */
  lemma {:induction false} HealthyEventsListen(env: Env, events: seq<Event>)
    requires env.laserAddOk && env.cloudAddOk
    requires forall i :: 0 <= i < |events| ==> events[i] != CtrlC && Healthy(events[i].sample)
    ensures Run(env, events).Listening?
  {
    if |events| > 0 {
      var prev := events[..|events| - 1];
      HealthyEventsListen(env, prev);
    }
  }

  /** When the logger stops, it stopped at one event `k`, everything before
      which was logged: either `k` is the interrupt and `finish` was called
      exactly once, or `k` is a sample that failed to convert or to be
      written, the loop was left through the error, and `finish` was never
      called. */
  lemma {:induction false} StoppedAt(env: Env, events: seq<Event>) returns (k: nat)
    requires env.laserAddOk && env.cloudAddOk
    requires !Run(env, events).Listening?
    ensures k < |events| && Run(env, events[..k]).Listening?
    ensures var o := Run(env, events);
            var before := Run(env, events[..k]).logger.writer;
            && OutcomeWriter(o).records == before.records
            && OutcomeWriter(o).channels == before.channels
            && (events[k] == CtrlC ==>
                  (o.Closed? <==> env.finishOk) && (o.Failed? ==> o.error == FinishFailed)
                  && OutcomeWriter(o).finishCalls == 1)
            && (events[k] != CtrlC ==>
                  o.Failed? && o.error in {ConversionFailed, WriteFailed}
                  && !Healthy(events[k].sample) && OutcomeWriter(o).finishCalls == 0)
  {
    assert |events| > 0;
    var prev := events[..|events| - 1];
    if Run(env, prev).Listening? {
      k := |events| - 1;
      assert events[..k] == prev;
      ListeningLog(env, prev);
    } else {
      k := StoppedAt(env, prev);
      assert prev[..k] == events[..k];
    }
  }

  /** Sequence numbers run 1, 2, 3, … on each channel of a closed log: the
      closed log holds, on each channel, exactly the samples of its stream
      that arrived before the interrupt, stamped in order, and `finish` was
      called exactly once. */
  lemma ClosedLog(env: Env, events: seq<Event>) returns (k: nat)
    requires Run(env, events).Closed?
    ensures k < |events| && events[k] == CtrlC
    ensures forall i :: 0 <= i < k ==> events[i] != CtrlC
    ensures var w := Run(env, events).writer;
            && w.finishCalls == 1
            && w.channels == [LaserChannel(env.descriptorPool), CloudChannel(env.descriptorPool)]
            && |w.records| == |StreamSamples(events[..k], true)| + |StreamSamples(events[..k], false)|
            && StampedInOrder(OnChannel(w.records, 0), 0, StreamSamples(events[..k], true))
            && StampedInOrder(OnChannel(w.records, 1), 1, StreamSamples(events[..k], false))
  {
    assert env.laserAddOk && env.cloudAddOk by {
      if !(env.laserAddOk && env.cloudAddOk) {
        FailedOpenStays(env, events);
      }
    }
    k := StoppedAt(env, events);
    ListeningLog(env, events[..k]);
    assert forall i :: 0 <= i < k ==> events[..k][i] == events[i];
  }

  lemma {:induction false} FailedOpenStays(env: Env, events: seq<Event>)
    requires !(env.laserAddOk && env.cloudAddOk)
    ensures Run(env, events).Failed? && Run(env, events).error == AddChannelFailed
    ensures Run(env, events).writer.records == [] && Run(env, events).writer.finishCalls == 0
  {
    if |events| > 0 {
      FailedOpenStays(env, events[..|events| - 1]);
    }
  }

  /** Conversely, an interrupt after healthy samples always leads to exactly
      one `finish` call. */
  lemma InterruptFinishes(env: Env, events: seq<Event>, k: nat)
    requires env.laserAddOk && env.cloudAddOk
    requires k < |events| && events[k] == CtrlC
    requires forall i :: 0 <= i < k ==> events[i] != CtrlC && Healthy(events[i].sample)
    ensures Run(env, events).Closed? || (Run(env, events).Failed? && Run(env, events).error == FinishFailed)
    ensures Run(env, events).Closed? <==> env.finishOk
    ensures OutcomeWriter(Run(env, events)).finishCalls == 1
  {
    var prefix := events[..k];
    HealthyEventsListen(env, prefix);
    ListeningLog(env, prefix);
    assert events[..k + 1][..k] == prefix;
    StoppedStays(env, events, k + 1);
  }
}
