# Verification model of libssc

libssc talks to the sensor core of Qualcomm devices: a client sends Protobuf requests inside
QMI messages and receives indications, and a sensor object drives a small protocol over it
(wait for the sensor service, discover the sensor's UID, fetch its attributes, then open and
close sessions). The repository also ships a mock sensor server that plays the other side.
This project models both sides in Dafny and proves what they promise, together and apart.

Run `dafny verify dfyconfig.toml`.

| file | what it models |
|---|---|
| `Common.dfy`, `Bytes.dfy` | Options and UIDs; Python's byte slicing and little-endian conversions |
| `Qmi.dfy`, `Control.dfy` | the QMI codec of the mock server and the control messages built on it |
| `Matrix.dfy`, `Attributes.dfy`, `Compass.dfy` | mount matrix, attribute response, compass arithmetic |
| `Protocol.dfy`, `SensorModel.dfy` | messages; a sensor and its client as values with one function per entry point and callback |
| `SensorObjects.dfy` | the same as objects updated in place; every method is proved to do what `SensorModel` says |
| `Discovery.dfy`, `Provenance.dfy` | what holds of a sensor in any environment: discovery, polls, where its knowledge comes from |
| `TaskLedger.dfy`, `TaskOutcomes.dfy` | task completion: exactly once, and with which outcome |
| `Delivery.dfy`, `ProximityStream.dfy`, `Observer.dfy` | from indications to the measurements a user sees, down to a small machine over the events alone |
| `ObjectRuns.dfy` | the results about runs, stated of sensor objects |
| `SensorCore.dfy`, `ClosedSystem.dfy`, `Sessions.dfy` | the mock server; client and server joined by FIFO queues, all interleavings; opens and closes in it |
| `AsyncChains.dfy` | client initialisation, outstanding requests, the synchronous wait |

## Modelling choices

- A task is a GTask: the obligation to call a caller back with one result.
- Floating point numbers are `real`. Where the source converts to an integer at every step (the
  mount matrix sum) the truncation is written out.
- The bytes of a message body are represented by what each Protobuf decoder makes of them
  (`Payload`), so a body can be valid for one decoder and garbage for another. One indication may
  carry any number of bodies.
- Signal handlers run in the order in which they were connected; a handler disconnected during an
  emission is not called any more, one connected during it is not called yet. Disconnecting an
  unknown id does nothing.
- Assumption: users open and close sensors between indications. A GTask that returns in its own
  main context may call its callback at once, so a user who opens or closes from the callback of a
  completed task can do so between two bodies of one indication; such runs are not covered.
- A base-class handler owns a context that is freed when its task completes; calling it afterwards
  is the explicit outcome `StaleContext`. An unknown stream type trips the source's assertion and is
  the explicit outcome `Aborted`.
- One value holds the base class and the private data of the accelerometer or proximity subclass,
  which live in one GObject instance. `reported_once = TRUE`, set when a proximity sensor's
  construction finishes, is folded into its initial value: no subclass handler is connected before.
- `heard`, `accepted` and `answers` are history variables; no operation reads them.
- Requests may be answered in any order, with success or failure, unless a result says otherwise.
  In the closed system no send fails, queues are FIFO, the user waits for the initialisation and
  alternates open and close, and whether the registry is visible is decided anew for every request.
  Configurations are `Sensible`: only the registry has the type "registry", all sensors have
  attributes, and canned measurements carry message id 769 or 1025.
- A sensor whose own data type is "registry" never gets past polling and is excluded.
- Proximity readings are 0 or 1, the vendor-specific form has its data entry, and attributes have
  their value array.

## Where the code and its description differ

- The comment at `src/libssc-sensor.c:409` says the fallback is for a matrix that is all 0. The
  sum is truncated after every addition and opposite entries cancel, so it fires for other
  matrices too, and it sets only the diagonal. `Matrix.FallbackChanges` is the exact condition;
  every rotation that maps no axis onto an axis is lost (`Matrix.ObliqueRotationLost`).
- `docs/Qualcomm-Sensorcore-Docs.md:1294-1295` says the first three columns of a 3x4 matrix are
  used. The code takes the first nine numbers. For a matrix sent row by row that is never the
  same if those columns are a rotation; for one sent column by column it is its transpose
  (`Attributes.FirstNineOfTwelve`).
- A message without TLVs has length 7 in its header, which is not the number of bytes behind the header (0);
  from the first TLV on it is: `Qmi.RoundTrip`.
- Appending a TLV does not always leave an earlier successful search alone: the frame found must
  have been complete, or the added bytes go unnoticed by the reader (`Qmi.AppendKeepsLookup`, an
  equivalence for every value type).
- Each task completes exactly once in a run if and only if every step is harmless
  (`TaskLedger.TasksCompleteExactlyOnce`). Two kinds of step do harm: an open that is accepted
  (available, and on-change or with a positive rate) while another task is pending
  (`TaskLedger.OverlappingOpenFails`), and a failing send whose task is not completed by the send's
  own callback alone, that is any poll, discovery or enable request: it completes its task a second
  time, now if the task is done (`TaskLedger.LateFailureCompletesTwice`) or with the next own
  measurement (`TaskLedger.FailedSendCompletesTwice`). A failing disable, a failing attribute
  request and a refused open do no harm.
- Closing a sensor can make it useless: core and client alone can then bring about that the user
  never gets to open it again. In every reachable state with the sensor open this is so if and only
  if the open is still pending and no measurement of the sensor is on its way
  (`Sessions.ClosedTooEarly`). A close with nothing pending leaves a sensor that can be opened at
  once (`Sessions.IdleCloseReopens`), and a measurement on its way completes the open in every
  schedule, closed or not (`Sessions.MeasurementCompletes`). Any configuration with a sensor that
  can be opened reaches a state of the bad kind (`Sessions.TooEarlyIsReachable`).

## Model

| member | source | states |
|---|---|---|
| Qmi.ParseTlv | mocking/ssc_server/qmi.py:117-160 | on any bytes the scan terminates and returns exactly the first frame of the requested type, decoded for the value type; nothing if there is none; the exception on an empty message |
| Qmi.HeaderByBytes | mocking/ssc_server/qmi.py:66-86 | kind, transaction id, message id and length by the bytes they stand in |
| Qmi.FrameByBytes | mocking/ssc_server/qmi.py:140-151 | type, length and value of a TLV by the bytes they stand in, and what an array and an integer make of the value |
| Qmi.RoundTrip | mocking/ssc_server/qmi.py:41-205 | a message is produced exactly when ids, values and total fit their 8- and 16-bit fields; then the header parses back, its length is total minus 7, and a search for any id gives the first TLV appended with it, whatever the other values contain |
| Qmi.BuildBytes | mocking/ssc_server/qmi.py:107-114 | header and TLVs in order, byte for byte, behind a patched length; refused exactly when something does not fit |
| Qmi.GenerateTlvBytes | mocking/ssc_server/qmi.py:182-205 | appending to arbitrary bytes puts the TLV at the end, patches the two length bytes and keeps every other byte |
| Qmi.GenerateTlvRefuses | mocking/ssc_server/qmi.py:183-202 | an id, value or total beyond its field makes the append raise |
| Qmi.AppendBytes | mocking/ssc_server/qmi.py:182-205 | any number of TLVs that fit: the bytes are their wire forms in order, the length field follows along |
| Qmi.AppendRefuses | mocking/ssc_server/qmi.py:183-202 | as soon as one TLV of a list does not fit, the whole construction raises |
| Qmi.MessageHeader | mocking/ssc_server/qmi.py:66-86 | type, transaction id, message id and length of a built message parse back |
| Qmi.BodyLookup | mocking/ssc_server/qmi.py:137-160 | values that look like TLVs never mislead the search |
| Qmi.ReadBackOwnKind | mocking/ssc_server/qmi.py:147-151 | an array comes back without its inner length, an integer as the little-endian number |
| Qmi.FramesSplit | mocking/ssc_server/qmi.py:137-160 | any bytes split into whole frames and at most one cut-off frame, and bytes added behind them leave the whole frames alone |
| Qmi.CutFrameRead | mocking/ssc_server/qmi.py:140-151 | which added bytes a reader of a cut-off frame does not notice: zeros completing the length, then zeros (integer) or bytes within the two skipped (array) |
| Qmi.FoundFrameStable | mocking/ssc_server/qmi.py:137-160 | bytes behind a message change a found frame exactly when it was cut off, and change what a reader gets exactly when they do not go unnoticed in it |
| Qmi.AppendKeepsLookup | mocking/ssc_server/qmi.py:137-205 | for any message, TLV and value type: an earlier successful lookup stays the same if and only if its frame was complete or the added bytes go unnoticed; the frame itself if and only if it was complete |
| Bytes.LittleEndianDecodes | mocking/ssc_server/qmi.py:109-112 | numbers that fit a field survive writing and reading |
| Control.ControlRequestUnderstood | mocking/ssc_server/ssc.py:110-155 | for every request a client can build, with TLVs in any order among others, the result or the exception is decided by the first report-type and the first data TLV |
| Control.ControlRequestArrives | mocking/ssc_server/ssc.py:136-155 | report type, exact payload and transaction id arrive |
| Control.IndicationDelivers | mocking/ssc_server/ssc.py:475-534 | an indication exists exactly when the payload fits, and decodes back to client id and payload |
| Control.ReportsDeliver | mocking/ssc_server/ssc.py:475-534 | a large report carries up to 65519 and a small one up to 65523 payload bytes, unchanged and under its own message id; one byte more raises |
| Control.ControlReplySucceeds | mocking/ssc_server/ssc.py:212-243 | the reply carries success and the client id under the request's transaction id |
| Matrix.FallbackChanges | src/libssc-sensor.c:409-418 | every matrix: the fallback changes it exactly when the truncated sum is zero and the diagonal is not all ones |
| Matrix.FallbackOnWhole | src/libssc-sensor.c:409-418 | a whole-number matrix is changed exactly when its entries add up to zero and its diagonal is not all ones |
| Matrix.ZeroBecomesIdentity | src/libssc-sensor.c:409-418 | the all-zero matrix becomes exactly the identity |
| Matrix.FallbackIsIdentity | src/libssc-sensor.c:409-418 | the outcome is the identity exactly for the identity and for matrices that are zero off the diagonal and truncate to zero |
| Matrix.FallbackFiresOnFractions | src/libssc-sensor.c:410-418 | any matrix of entries between -1 and 1 loses its diagonal |
| Matrix.FallbackSpoilsRotations | src/libssc-sensor.c:409-418 | a rotation the fallback changes is no rotation afterwards |
| Matrix.ObliqueRotationLost | src/libssc-sensor.c:409-418 | every rotation whose entries lie strictly between -1 and 1 is changed into a matrix that is none |
| Matrix.ObliqueRotationExists | src/libssc-sensor.c:409-418 | such rotations exist |
| Matrix.AxesToColumns | src/libssc-sensor-accelerometer.c:98-101 | the product takes the three axes to the columns of the stored matrix |
| Matrix.ApplyIsAdditive | src/libssc-sensor-accelerometer.c:98-101 | it respects sums |
| Matrix.ApplyIsHomogeneous | src/libssc-sensor-accelerometer.c:98-101 | and multiples |
| Matrix.RowsToAxes | src/libssc-sensor-accelerometer.c:98-101 | a rotation takes the direction given by its k-th row to the k-th axis |
| Matrix.Truncate | src/libssc-sensor.c:410-412 | the integer towards zero, less than one away |
| Matrix.SignedPermutationKept | src/libssc-sensor.c:409-418 | for axis swaps and mirrors the truncated sum is odd, so the matrix is kept |
| Matrix.SignedPermutationKeepsNorm | src/libssc-sensor-accelerometer.c:98-101 | such a matrix keeps the length of every reading |
| Matrix.SignedPermutationUndone | src/libssc-sensor-accelerometer.c:98-101 | its transpose takes every emitted vector back to the raw reading |
| Attributes.OrderIndependence | src/libssc-sensor.c:372-422 | attribute lists without repeated ids give the same sensor in every order |
| Attributes.LastOfferWins | src/libssc-sensor.c:372-399 | with repetitions the last usable value decides, for the sample rate the first positive entry of the last such attribute; otherwise unchanged |
| Attributes.RateProvenance | src/libssc-sensor.c:386-395 | a known sample rate is positive and was offered |
| Attributes.OneAttribute | src/libssc-sensor.c:372-422 | what one attribute changes, by its number and the fields of its values; the sample rate is the first positive number |
| Attributes.MountStored | src/libssc-sensor.c:400-420 | after any attributes: each matrix entry is the number the last mount attribute gives at its position, or the one held before, and the diagonal is one exactly when the truncated sum is zero |
| Attributes.MountStays | src/libssc-sensor.c:372-422 | without a mount attribute the matrix stays |
| Attributes.SpelledMount | src/libssc-sensor.c:400-420 | nine given numbers are stored row by row, kept for signed permutations, the identity for zeros, ones on the diagonal exactly when the truncated sum is zero |
| Attributes.SpelledMatrixStored | src/libssc-sensor.c:402-418 | the overlay and fallback of one such attribute |
| Attributes.FirstNineOfTwelve | src/libssc-sensor.c:402-407 | when the first nine of twelve numbers are the first three columns: row by row never for a rotation, column by column always, transposed |
| Compass.ArgumentsAreRotatedAxis | src/libssc-sensor-compass.c:50-71 | for unit quaternions the two arguments are the horizontal components of the rotated y axis, by quaternion multiplication |
| Compass.ArgumentsAreProjection | src/libssc-sensor-compass.c:50-72 | for unit quaternions the arguments and the vertical part make a unit vector, so both lie between -1 and 1 |
| Compass.DoubleCover | src/libssc-sensor-compass.c:50-72 | a quaternion and its negation give the same arguments |
| Provenance.DiscoveryIsFunctionOfResponses | src/libssc-sensor.c:287-422 | after any run availability, retries, UID and attributes are exactly what the history calls for, and the delivered reports explain that history in order, attributes only from the UID held at that moment |
| Provenance.UidProvenance | src/libssc-sensor.c:297-347 | a stored UID is the initial one or was announced for the data type in a delivered report, after another delivered report that showed the service |
| Provenance.ResponsesInOrder | src/libssc-sensor.c:287-362 | responses are heard in the order in which their reports were delivered |
| Provenance.EnableProvenance | src/libssc-sensor.c:204-252 | every continuous enable asks for a positive rate listed in a delivered attribute report of the sensor whose UID had been announced by then; on-change enables carry nothing |
| Provenance.EnableNeedsAvailability | src/libssc-sensor.c:194-252 | only an open sends an enable, after a delivered own report said available; everything accepted later was in own reports delivered from that one on and says nothing about availability |
| Discovery.PollBudget | src/libssc-sensor.c:307-329 | after any run the polls sent are one plus the retries, and never more than 100 |
| Discovery.PollingStops | src/libssc-sensor.c:297-329 | once the service is available or the budget is used up no further poll is ever sent, and availability never reverts |
| Discovery.SuidPolls | src/libssc-sensor.c:297-345 | which response causes exactly one more poll |
| TaskLedger.TasksCompleteExactlyOnce | src/libssc-sensor.c:102-252 | throughout a run each task is completed once or held by one pending operation, the stored id is non-zero exactly while one live base handler is connected under it, and no freed context is used, if and only if every step is harmless |
| TaskOutcomes.RunAtDesk | src/libssc-sensor.c:102-497 | a run is disciplined exactly when its events are tidy, and then the requests sent and the tasks completed, outcomes included, are those of a desk that sees the events alone |
| TaskOutcomes.OutcomeOfTask | src/libssc-sensor.c:102-497 | every completed open or close: Unavailable and NoSampleRate exactly when what was known at the open says so, otherwise as the report that met it says (success for a configuration update, a measurement or attributes of the own sensor); a close as its send went |
| TaskOutcomes.NoClient | src/libssc-sensor.c:653-668 | without a client the initialisation ends with that error and nothing follows |
| TaskOutcomes.BeforeFirstOpen | src/libssc-sensor-proximity.c:310-313 | a new proximity sensor counts as having reported |
| TaskLedger.BooksIffHarmless | src/libssc-sensor.c:164-252 | step by step: exactly the harmless events keep the books in order |
| TaskLedger.FinishBalanced | src/libssc-sensor.c:441-448 | completing a task settles it and leaves no base handler behind |
| TaskLedger.ReportBalanced | src/libssc-sensor.c:271-497 | no report of any kind loses or duplicates a task |
| TaskLedger.OpenBalanced | src/libssc-sensor.c:180-252 | an open with nothing pending, or one that is refused, adds one task, completed at once or held by the new handler |
| TaskLedger.CloseBalanced | src/libssc-sensor.c:120-139 | a close adds one task, held by its request |
| TaskLedger.OverlappingOpenFails | src/libssc-sensor.c:194-242 | for every state with a pending task, an open whose guards pass followed by two own measurements runs into a freed context |
| TaskLedger.FailedSendCompletesTwice | src/libssc-sensor.c:164-178 | for every pending task a failed send followed by an own measurement completes it twice |
| TaskLedger.LateFailureCompletesTwice | src/libssc-sensor.c:544-558 | a send that fails after its task was completed completes it again at once, whether or not anything is pending |
| Delivery.AccelerometerStream | src/libssc-sensor-accelerometer.c:62-108 | over any run the queue receives, in order, per own measurement and connected handler the mount matrix held then times the reading, and nothing else |
| Delivery.AlternatingListens | src/libssc-sensor-accelerometer.c:132-219 | with alternating open and close exactly one handler listens from open to close and none otherwise |
| Delivery.HandleAcceleration | src/libssc-client.c:81-96 | a batch is delivered body by body, base handlers that disconnect themselves midway included |
| Delivery.EmitFacts | src/libssc-client.c:92 | no handler of an emission disturbs the subclass handlers or the stored ids |
| Observer.AccelerometerObserved | src/libssc-sensor-accelerometer.c:62-219 | through any polite run from creation on, attribute and discovery reports included: the process goes on exactly when no open meets an unknown stream type, and then what the sensor knows and emits is what a small machine computes from the events alone |
| Observer.OneAcceleration | src/libssc-sensor-accelerometer.c:62-108 | one report adds to the queue the nine-term product of matrix and values, for an own 1025 report with three or more numbers while listening, and nothing otherwise |
| Observer.OneNear | src/libssc-sensor-proximity.c:66-149 | one report adds the near field of an own 769 report, or of an own 1025 report in the vendor's form of the right size, unless it repeats the last one since the open; nothing otherwise |
| Observer.DeliverWatched | src/libssc-client.c:92 | one delivered report reaches the one pending handler exactly once, with the machine's effect |
| ProximityStream.DedupFacts | src/libssc-sensor-proximity.c:136-147 | what removing consecutive repeats means: no two neighbours equal, first and last reading kept |
| ProximityStream.ProximityReportsChanges | src/libssc-sensor-proximity.c:66-149 | since the latest open the user sees the readings without consecutive repeats, the first always, however many handler copies are connected |
| ProximityStream.ProximitySession | src/libssc-sensor-proximity.c:66-260 | in a session of measurements and configuration updates the emissions are a function of the delivered reports alone |
| Observer.ProximityObserved | src/libssc-sensor-proximity.c:66-260 | the same for proximity: unless an open meets an unknown stream type, emissions since the latest open are the readings the machine hears, repeats removed |
| SensorCore.Server.Play | mocking/ssc_server/ssc-server.in:157-244 | after any requests and worker turns a UID has a worker exactly when its latest enable or disable was an enable, and the measurements sent are those the workers' counters selected |
| SensorCore.AnswersByNumber | mocking/ssc_server/ssc-server.in:196-242 | which message ids are answered, raise, enable and disable |
| SensorCore.FirstOfType | mocking/ssc_server/ssc.py:265-285 | discovery announces the first configured sensor of the type |
| SensorCore.NoneOfType | mocking/ssc_server/ssc.py:265-285 | and nothing if there is none |
| SensorCore.FirstWithUid | mocking/ssc_server/ssc.py:318-355 | attributes are those of the first sensor with the UID; none makes the server raise |
| SensorCore.TurnSends | mocking/ssc_server/ssc.py:422-429 | a worker's turn sends entry t mod n, t being the turns since the enable that started it |
| SensorCore.Server.SensorMeasurement | mocking/ssc_server/ssc-server.in:157-175 | a worker's turn sends its next measurement and counts it |
| SensorCore.MeasurementIndex | mocking/ssc_server/ssc.py:425-428 | repeated subtraction selects entry k mod n |
| SensorCore.WorkerIffLatestIsEnable | mocking/ssc_server/ssc-server.in:218-237 | after any history a UID has a worker exactly when its latest enable or disable was an enable |
| SensorCore.WorkerCountsTurns | mocking/ssc_server/ssc-server.in:157-175 | a worker's index is the number of turns since the enable that started it, repeated enables included |
| ClosedSystem.TokenConservation | src/libssc-sensor.c:287-451 | while the initialisation is pending exactly one request or reply is in flight, of the phase's kind; afterwards no discovery or attribute message is left |
| ClosedSystem.InitOutcome | src/libssc-sensor.c:297-362 | the task completes exactly once if at all, aborted processes included: NO_SERVICE after exactly 100 negative answers, else FALSE or TRUE as the core knows the data type; at most 101 discovery replies |
| ClosedSystem.InitTerminates | src/libssc-sensor.c:297-451 | a run leaving it pending had fewer than 306 effective moves, and one side can move |
| ClosedSystem.WaitingOpenHasWorker | mocking/ssc_server/ssc-server.in:218-226 | while an open waits its enable is on the way or a worker runs for the sensor |
| Sessions.OpenCanComplete | src/libssc-sensor.c:457-496 | from every reachable state with a waiting open of a sensor that has a measurement, serving, one worker turn and receiving complete it |
| Sessions.MeasurementCompletes | src/libssc-sensor.c:486-496 | in every schedule without another open, closing included: receiving as many replies as stand up to an own measurement leaves nothing pending |
| Sessions.SessionOutcomes | src/libssc-sensor.c:180-252 | in the closed system opens and closes end with success or the refusal the attributes call for; once the sensor can be opened every completed open ends with success |
| Sessions.ClosedTooEarly | src/libssc-sensor.c:120-139 | for every reachable state with the sensor open: core and client can see to it that it never opens again after a close if and only if the open is pending and no own measurement is on its way |
| Sessions.IdleCloseReopens | src/libssc-sensor.c:120-139 | a close with nothing pending leaves a sensor that can be opened at once |
| Sessions.TooEarlyIsReachable | src/libssc-sensor.c:180-252 | every configuration with a sensor that can be opened reaches a state with the open pending and nothing on its way |
| Sessions.UselessSensorExists | src/libssc-sensor.c:120-139 | a concrete proximity sensor that is closed and never opens again |
| Sessions.OrphanedForever | src/libssc-sensor.c:120-139 | a closed sensor with a pending open and no measurement or worker under way stays so for ever |
| ClosedSystem.MovesAreDisciplined | src/libssc-sensor.c:180-252 | every closed run is a disciplined run of the sensor, so the task results apply to it |
| ClosedSystem.InitStep | mocking/ssc_server/ssc-server.in:177-216 | every effective move brings the initialisation nearer to its end, every other move changes nothing |
| SensorObjects.SensorObject.Play | src/libssc-sensor.c:271-497 | an object fed any events ends up as the run of the model does, field by field |
| ObjectRuns.Live | src/libssc-sensor.c:271-687 | an object from creation through any events: at most 100 polls, an announced UID, only rates listed in delivered own reports requested; through tidy events, books in order and requests and completions as the events call for |
| ObjectRuns.LiveAccelerometer | src/libssc-sensor-accelerometer.c:62-219 | an accelerometer object through polite events: it keeps running exactly when no open meets an unknown stream type, and its queue, UID, attributes and discovery state are the machine's |
| ObjectRuns.OpenProximity | src/libssc-sensor-proximity.c:66-260 | opening a proximity object adds exactly the changes among the readings to its queue |
| SensorObjects.FillMount | src/libssc-sensor.c:402-418 | the two loops over the 3x3 array overlay the numbers and apply the fallback |
| SensorObjects.FindRate | src/libssc-sensor.c:388-394 | the loop stops at the first positive rate |
| SensorObjects.SensorObject.PopulateAttributes | src/libssc-sensor.c:372-422 | the in-place attribute loop equals the attribute function |
| SensorObjects.SensorObject.OnAcceleration | src/libssc-sensor-accelerometer.c:62-108 | the matrix product queued for a usable own measurement |
| SensorObjects.SensorObject.EmitReport | src/libssc-client.c:92 | an emission visits the handlers connected at its start |
| SensorObjects.SensorObject.OnIndication | src/libssc-client.c:69-99 | the loop over the bodies of an indication |
| AsyncChains.ClientInit.RunToEnd | src/libssc-client.c:245-390 | for every outcome of every step the task completes exactly once with the first failure, and report signals are connected exactly on success |
| AsyncChains.ClientInit.BusNewReady | src/libssc-client.c:342-390 | the node search succeeds exactly when some node offers the service |
| AsyncChains.ClientSend.Play | src/libssc-client.c:131-241 | any number of outstanding requests, answered in any order: each task completes exactly once, with exactly the outcome it has earned, or was put on the wire and still waits |
| AsyncChains.FateIsEarned | src/libssc-client.c:131-241 | Accepted, Rejected and NoReply say what the first answer's fields say, BadReportType and BadData what the request's say |
| AsyncChains.EarnedUnique | src/libssc-client.c:131-241 | no task can earn two outcomes |
| AsyncChains.SyncContext.Wait | src/libssc-common.c:51-60 | the wait returns with a result and the mutex free, never runs the main loop holding it, and iterates exactly until the callback ran |
| AsyncChains.SyncContext.Callback | src/libssc-common.c:62-72 | the callback stores the result under the mutex it takes itself |

## Left out

- Users opening or closing a sensor from inside a completed task's callback, between two bodies of one indication.
- The order in which several tasks completed by one indication call their users back.
- Protobuf packing and unpacking: generated code over a library that is not part of this model.
- GLib, libqmi and libqrtr internals, reference counts, `dispose`, properties, logging and the one-second sleep between polls.
- An indication that does not unpack as an envelope: the client drops it, so it is no event here.
- Gyroscope, magnetometer and light sensors, and the compass's report handler: the accelerometer's handler with less in it.
- `atan2`, the conversion to degrees and floating-point rounding; the compass is modelled up to the two arguments.
- The task of a subclass open or close, which only forwards the result of the base class's task.
- Proximity values other than 0 and 1, where the source asserts.
- The measurement payloads per data type, JSON reading, sockets and processes of the mock server, and a worker that ends because the device disappeared.
- SensorCore.MeasurementIndex: needs a non-empty list, because on an empty one the source's loop never ends.
- AsyncChains.SyncContext.Wait: assumes that the callback arrives in some iteration of the main loop; otherwise the source waits forever.
- Client builds without QRTR support, where the initialisation returns at once.
- The command-line tool, the build files and the message decoder script.
