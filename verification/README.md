# rplidar-zenoh-driver, modelled in Dafny

This project models two pieces of sequential logic in the RPLidar-to-zenoh bridge and proves properties about them.

- **The lidar driver** (`src/bin/driver.rs`) has four parts:
  - The command listener turns a text message on the `lidar_state` topic into the shared run flag.
  - The device loop drives the sensor. It keeps the wanted state (`should_lidar_run`) and the actual state (`lidar_running`). It starts scanning, stops the motor, sleeps when idle, and hands each grabbed revolution downstream.
  - The frame encoder builds two records from a revolution. The first is a `foxglove.LaserScan`. The second is a `foxglove.PointCloud` whose points are packed 9 bytes each: x as `f32` LE, y as `f32` LE, then quality as `u8`.
  - `system_time_to_proto_time` splits a capture time into whole seconds and nanoseconds.
- **The MCAP logger** (`src/bin/mcap_logger.rs`) registers one log channel per stream. It stamps every sample it receives with the channel id, a per-stream sequence number and the receive time. It writes the sample to the log and calls `finish` on Ctrl-C.

Modules:

| file | module | contents |
|---|---|---|
| `Bytes.dfy` | `Bytes` | bytes, `f32` bit patterns, little-endian encoding and decoding |
| `Command.dfy` | `Command` | the on/off command predicate |
| `Timestamp.dfy` | `Timestamp` | the seconds/nanoseconds split |
| `Frames.dfy` | `Frames` | LaserScan and PointCloud construction, field layout, decoding by field descriptors |
| `Controller.dfy` | `Controller` | device loop and listener as one input-driven state machine, and their traces |
| `McapLog.dfy` | `McapLog` | channel registration, the stamping loop, loop exit and `finish` |

Modelling choices:

- Floating-point values are opaque bit patterns. The encoder only copies them.
- The projection `distance * cos(-angle)`, `distance * sin(-angle)` is a function parameter of the encoder.
- The listener and the device loop run on different threads and share a relaxed atomic flag. They are modelled as one sequence of inputs. Each input is either a control message or one loop iteration, and each iteration reads the flag once.
- The sensor's responses are inputs: each iteration carries the result `grab_scan` would return.
- The MCAP writer is modelled by what it has been asked to keep:
  - its channel table, where a channel's id is its position in the table;
  - the records written;
  - the number of `finish` calls.
- Outcomes the environment decides are inputs:
  - whether `add_channel`, a write or `finish` succeeds;
  - whether a sample converts to bytes;
  - the clock.

Behaviour of the code that the model keeps as written:

- The point stride is 4 + 4 + 1 = 9 bytes: x, y, then quality.
- Starting issues only `start_scan_with_options` with mode 2.
- Stopping issues `stop_motor` without sleeping. The 500 ms sleep happens only on an iteration where the flag is down and the lidar is already stopped.
- A driver error other than a timeout is logged, and the loop continues in the same state.
- `lidar_running` always starts `false`, whatever the initial flag.
- A control payload that is not text panics (`unwrap`).
- Both MCAP channels are registered with the `foxglove.LaserScan` schema, the point-cloud channel included. The laser channel's topic is always `"laser_scan"`, even when the logger subscribes to a different `--topic`.
- The pose in every frame is all zeros, including the quaternion's `w`.

## Model

| member | source | states |
|---|---|---|
| `Bytes.LeBytes` | src/bin/driver.rs:218-220 | `to_le_bytes` yields n bytes whose base-256 little-endian value is the integer encoded |
| `Bytes.LeBytesOfValue` | src/bin/driver.rs:218-220 | re-encoding a decoded little-endian buffer gives back the same buffer |
| `Bytes.LeValueInjective` | src/bin/driver.rs:218-220 | two buffers of the same width with the same little-endian value are equal, so the encoding loses nothing |
| `Bytes.F32Bytes` | src/bin/driver.rs:218-219 | `f32::to_le_bytes` gives four bytes whose little-endian value is the float's bit pattern |
| `Bytes.F32FromBytes` | src/bin/driver.rs:218-219 | decoding four bytes as an `f32` pattern and then re-encoding it gives back the four bytes |
| `Command.IsOnCommand` | src/bin/driver.rs:149 | a message means "on" exactly when its last two characters are `o`/`O` followed by `n`/`N`; otherwise it means "off" |
| `Command.CommandExamples` | src/bin/driver.rs:149-156 | "ON", "turn on" and "lights ON" give on; "off", "OFF" and "garbage" give off |
| `Command.CaseInsensitive` | src/bin/driver.rs:149 | lower-casing a message first does not change the command it gives |
| `Timestamp.U64AsI64` | src/bin/driver.rs:241 | the `as i64` cast gives a value in the i64 range that is congruent to the `u64` seconds modulo 2^64 |
| `Timestamp.ToProtoTime` | src/bin/driver.rs:236-244 | nanos are in [0, 10^9) and so fit in an `i32`; seconds are in the i64 range; below 2^63 seconds, `seconds*10^9 + nanos` equals the elapsed nanoseconds |
| `Timestamp.ToProtoTimeOfTotal` | src/bin/driver.rs:236-244 | every well-formed non-negative timestamp is the split of its own nanosecond total, so the split is exact |
| `Frames.CloudFieldsTileStride` | src/bin/driver.rs:124-141 | the descriptors x@0 f32, y@4 f32 and quality@8 u8 fit inside the 9-byte stride, are ordered and do not overlap, and their widths add up to the stride |
| `Frames.Ranges` | src/bin/driver.rs:186 | there is one range per sample, and entry i is the i-th sample's distance, invalid samples included |
| `Frames.Intensities` | src/bin/driver.rs:187 | there is one intensity per sample, and entry i is the i-th sample's quality |
| `Frames.BuildLaserScan` | src/bin/driver.rs:172-188 | `start_angle` is the first sample's angle and `end_angle` the last sample's; both are 0 for an empty scan; `ranges` and `intensities` have the scan's length and hold each sample's distance and quality; the timestamp is the split capture time |
| `Frames.ValidIndices` | src/bin/driver.rs:199 | the valid positions come in increasing order, each is valid, and every valid position is listed |
| `Frames.ValidPoints` | src/bin/driver.rs:199 | the filter keeps no more samples than the scan has, and every kept sample is valid |
| `Frames.ValidPointsAreValidIndices` | src/bin/driver.rs:197-206 | the validity filter keeps exactly the valid samples, in scan order |
| `Frames.ProjectPoint` | src/bin/driver.rs:200-205 | a kept sample becomes the projection of its angle and distance, and its quality is carried over unchanged |
| `Frames.ProjectAll` | src/bin/driver.rs:200-205 | every kept sample is projected, in order, and keeps its quality |
| `Frames.PackPoint` | src/bin/driver.rs:216-222 | a packed point is exactly the 9-byte stride |
| `Frames.Pack` | src/bin/driver.rs:214-223 | the buffer is 9 bytes per point |
| `Frames.PackSlice` | src/bin/driver.rs:214-223 | bytes [9k, 9k+9) of the buffer are exactly the k-th packed point |
| `Frames.BuildPointCloud` | src/bin/driver.rs:208-224 | the data length is 9 × the number of valid samples, which is a multiple of the stride; the stride and descriptors are the fixed ones |
| `Frames.Encode` | src/bin/driver.rs:180-224 | both frames carry the same timestamp and frame id, and the point cloud has no more points than the laser scan has ranges |
| `Frames.ReadPackedPoint` | src/bin/driver.rs:124-141 | reading a packed point with the declared descriptors gives back its x bits, y bits and quality |
| `Frames.UnpackPack` | src/bin/driver.rs:212-223 | unpacking the buffer with the declared stride and descriptors gives back every packed point, in order |
| `Frames.PointCloudRoundTrip` | src/bin/driver.rs:197-224 | the k-th record decoded from a point cloud holds the projected x and y and the quality of the k-th valid sample |
| `Frames.CloudQualitiesMatchIntensities` | src/bin/driver.rs:186-223 | the quality byte of the k-th cloud point equals the laser-scan intensity of the sample it came from |
| `Frames.ThreeSampleExample` | src/bin/driver.rs:172-223 | for a sorted 3-sample scan with one invalid sample, the angles and ranges are those of the scan and the buffer holds 2 points of 9 bytes |
| `Controller.Start` | src/bin/driver.rs:251-259 | the flag starts at the requested value and the lidar starts not running |
| `Controller.Listen` | src/bin/driver.rs:149-156 | a received message stores exactly its command in the flag and leaves the hardware state alone |
| `Controller.DeliveredOnlyScans` | src/bin/driver.rs:269-276 | after a grab, at most one thing is handed downstream: the grabbed scan on success, nothing on a timeout or another error |
| `Controller.LoopBody` | src/bin/driver.rs:262-286 | one loop iteration never writes the flag and leaves the lidar running exactly when the flag is up |
| `Controller.Iterate` | src/bin/driver.rs:262-286 | one iteration leaves the hardware in the flag's state. It starts only when the flag is up and the lidar is stopped, and stops only when the flag is down and the lidar is running. With the flag down and the lidar stopped it only sleeps. It grabs exactly when the flag is up and sends exactly a successful grab, unchanged. |
| `Controller.Run` | src/bin/driver.rs:246-293 | after any interleaving of messages and loop iterations, the flag holds the command of the last message, or the initial value when no message arrived; the loop never changes it |
| `Controller.StartStopAlternate` | src/bin/driver.rs:259-286 | across any inputs, starts and stops strictly alternate and the first is a start, so no stop comes before a start; the lidar is running exactly when the last command was a start |
| `Controller.CommandsFollowFlagEdges` | src/bin/driver.rs:259-286 | the loop issues one start for each false-to-true change and one stop for each true-to-false change of the flag values it observes, and nothing else |
| `Controller.ToggleOnce` | src/bin/driver.rs:149-156 | flag false, then an "on" message, then an "off" message, with an iteration around each, gives exactly one start and then one stop, whatever the grabs return |
| `Controller.ToggleOnOff` | src/bin/driver.rs:149-156 | the same with the literal messages "on" and "off" |
| `Controller.SendsExactlyTheGrabbedScans` | src/bin/driver.rs:269-276 | the scans sent downstream are exactly the successfully grabbed scans of the iterations that saw the flag up, unchanged and in order; timeouts and other errors send nothing |
| `McapLog.CreateTopicForMessage` | src/bin/mcap_logger.rs:60-82 | a successful registration appends one channel and returns its id. The channel has the given topic, a schema named after the message with encoding "protobuf", message encoding "protobuf" and empty metadata. A failed one is an error and leaves the writer unchanged. |
| `McapLog.Open` | src/bin/mcap_logger.rs:121-130 | the laser channel is registered as `laser_scan` with id 0 and the cloud channel as `point_cloud` with id 1, both with the LaserScan schema. This happens before any record, and both counters start at 0. |
| `McapLog.NextSequence` | src/bin/mcap_logger.rs:136 | the `u32` counter steps to its successor, and the largest `u32` steps to 0 |
| `McapLog.SuccMod` | src/bin/mcap_logger.rs:136 | counting samples from 0 keeps the counter at the number of samples modulo 2^32 |
| `McapLog.WriteSample` | src/bin/mcap_logger.rs:136-151 | a sample is written exactly when it converts to bytes and the write succeeds; the record goes on the given channel with the given sequence, its receive time as both log and publish time, and its payload unchanged; a failure names the failing call and leaves the log unchanged |
| `McapLog.Step` | src/bin/mcap_logger.rs:131-178 | Ctrl-C, and only Ctrl-C, leaves the loop. An error aborts and leaves the log unchanged. A laser sample leaves the cloud counter alone, and a cloud sample leaves the laser counter alone. Channels are never re-registered. |
| `McapLog.Finish` | src/bin/mcap_logger.rs:181 | `finish` is counted once, and it fails only when the writer's `finish` does |
| `McapLog.Run` | src/bin/mcap_logger.rs:121-181 | `finish` is called at most once and never while the logger listens; while it listens, the channel table is exactly the two registrations, laser as 0 and cloud as 1 |
| `McapLog.ListeningLog` | src/bin/mcap_logger.rs:129-173 | while the logger listens, each channel holds its stream's samples in arrival order. The n-th sample has sequence n (mod 2^32), log time equal to publish time equal to its receive time, and its payload unchanged. `finish` has not been called. |
| `McapLog.StoppedAt` | src/bin/mcap_logger.rs:131-181 | the logger stops at one event. If that event is Ctrl-C, `finish` was called exactly once. If it is a failed conversion or write, the error was propagated without calling `finish`. |
| `McapLog.ClosedLog` | src/bin/mcap_logger.rs:129-181 | a closed log holds exactly the two registrations and, on each channel, the samples that came before the interrupt, numbered 1, 2, 3, …; `finish` was called once |
| `McapLog.InterruptFinishes` | src/bin/mcap_logger.rs:175-181 | a Ctrl-C after samples that were all logged leads to exactly one `finish` call |
| `McapLog.FailedOpenStays` | src/bin/mcap_logger.rs:121-127 | if registration fails, nothing is ever written and `finish` is never called |

## Left out

- `sort_scan` (driver.rs:170) is an external routine of the sensor driver. The encoder takes the revolution as already sorted. None of the proved properties depend on the order. Its error return is not modelled.
- The cos/sin projection (driver.rs:201-202) is `f32` trigonometry. It is a function parameter.
- Frames.BuildLaserScan: start/end angles and ranges are kept as the `f32` bit patterns, and intensities as the `u8` qualities. The driver widens these to `f64`. That conversion is exact and is not modelled.
- Protobuf wire encoding (`encode_to_vec`) and descriptor pools are not modelled. Frames are datatypes, and the encoded descriptor pool is an opaque byte sequence.
- The zenoh session, subscribers and publishers, the tokio channel with `blocking_send`, thread spawning, relaxed atomic ordering and the length of sleeps are left out. They are I/O and concurrency plumbing. The sleep appears as an action carrying its duration.
- Sensor calls (`open_port`, `start_scan_with_options`, `grab_scan`, `stop_motor`) are abstract actions and inputs. Their `unwrap` panics are process-level failures and are not modelled. So are the `unwrap`s on `blocking_send`, on publishing and on receiving a sample.
- A control payload that is not UTF-8 panics in the driver. Only text messages are modelled.
- Command.IsOnCommand: lower-casing is modelled for ASCII letters only. This decides the same suffix test as Unicode `to_lowercase`, because no character other than `O` and `N` lower-cases to end in `o` or `n`. The model states this but does not prove it.
- `SystemTime::now`, `duration_since(UNIX_EPOCH)` with its "Time went backwards" panic, and the logger's `system_time_to_nanos` are left out. The model takes the elapsed nanoseconds or receive time as an input.
- McapLog.StoppedAt: `finishCalls` counts only the explicit `finish` call at mcap_logger.rs:181. What the MCAP writer does when it is dropped on an error path is outside the model.
- McapLog.NextSequence: models the release-build wrap of the `u32` counter. A debug build would panic on overflow instead, and that is not modelled.
- The MCAP `Writer` internals are not modelled: file output, schema ids, and the reuse of an id for an identical channel. The model assigns each channel its position in the table. The logger registers two distinct channels, so no channel is ever reused.
- `Writer::new` over `File::create("out.mcap")` is not modelled. Its failure is a file-system error raised before the loop.
- The periodic counters that only feed log lines (driver.rs:161-168) are not modelled.
- `src/bin/foxglove_server.rs` is not modelled. It relays frames to a websocket library, and its only local logic is log counters.
- `src/main.rs` is not modelled. It is an older, simpler variant of the driver with fixed frame constants.
- `src/lib.rs` (tracing setup) and `build.rs` (protobuf build step) are not part of this model.
