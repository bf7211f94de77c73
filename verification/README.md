# Fruit sorting system — a verified model

The system sorts fruit on a conveyor belt. A Raspberry Pi watches the belt.
An IR sensor, a timer or a continuous mode triggers a camera capture. The
JPEG is hex-encoded into a JSON envelope and published to the `fruit_images`
queue of a RabbitMQ broker. A backend worker takes each delivery and decodes
the image. It classifies the image with a neural network into `fresh_fruit`,
`spoiled_fruit` or `other`, stores a row, publishes the result to
`classification_results`, and acks or nacks the delivery. The Pi consumes
that result, stops the belt, turns a servo gate, and restarts the belt.
Cloud back-ends (Supabase, Firebase) store images and rows and compute
statistics. A web dashboard reads the same table.

The model is one Dafny module per source file:

- `Config` holds the constants.
- `Json` holds JSON values and the hex codec.
- `Amqp` holds the broker: durable queues and the ack/nack log.
- `Motor` is the servo and conveyor controller.
- `Camera` is the capture, burst, calibration and settings logic.
- `EdgeMessaging` is the Pi's broker client.
- `Edge` is the Pi's main application.
- `Classifier` is the classification decision logic.
- `Worker` is the backend consumer.
- `CloudStorage` is the shared statistics fold and blob paths.
- `Supabase` and `Firebase` are the two storage back-ends.
- `Dashboard` is the browser's statistics and role lookup.
- `Pipeline` holds properties of the whole path from the edge to the worker and back.

Objects whose fields the source updates in place are classes:
`MotorController`, `CameraModule`, `RabbitMQClient`, `FruitSortingSystem`,
`ClassifierService`, `SupabaseStorage`, `FirebaseStorage` and the broker.
Their methods state their whole new state. Hardware writes and sleeps are
recorded in ghost logs, in order: `trace` for the motor, `sleeps` for the
camera, `log` for the client and `pauses` for the application.

Hardware, clock, driver and SDK answers are parameters of the operations:

- a sensor level;
- the current time;
- what the camera driver produced;
- whether a publish or query raised;
- the sequence of connection outcomes.

## Model

| member | source | states |
|---|---|---|
| Config.Gates | raspberry-pi/config.py:36-38 | the three gate angles all lie in the safe servo range [0, 180] |
| Config.GatesOrderedAndInRange | raspberry-pi/config.py:36-38 | LEFT < CENTER < RIGHT, all inside [SERVO_MIN_ANGLE, SERVO_MAX_ANGLE], so clamping never moves a named gate |
| Config.DistinctGatesFarApart | raspberry-pi/config.py:36-38 | two different gates are at least one degree apart |
| Config.DutyRangeIncreasing | raspberry-pi/config.py:42-43 | 0 < SERVO_MIN_DUTY < SERVO_MAX_DUTY |
| Config.DefaultSpeedWithinLimit | raspberry-pi/config.py:74 | the default speed 75 is within the 95 safety limit, which is within 100 |
| Config.LabelsDistinct | raspberry-pi/config.py:83-85 | the three labels are pairwise distinct and are the worker's class list, in order |
| Json.Get | backend/classifier_service.py:83-84 | dict.get: the stored value when the key is present, the default otherwise |
| Json.HexChar | raspberry-pi/rabbitmq_client.py:87 | a nibble becomes one lowercase hex digit whose value is that nibble |
| Json.ToHex | raspberry-pi/rabbitmq_client.py:87 | bytes.hex() gives exactly two lowercase hex digits per byte |
| Json.FromHex | backend/classifier_service.py:89 | bytes.fromhex skips whitespace and needs two hex digits per byte, so a decoded result has at most half as many bytes as the text has characters |
| Json.HexRoundTrip | backend/classifier_service.py:89 | bytes.fromhex(bytes.hex()) gives back exactly the original bytes |
| Json.OddLengthRejected | backend/classifier_service.py:89 | an odd-length string without whitespace fails to decode |
| Json.NonHexRejected | backend/classifier_service.py:89 | a character that is neither a hex digit nor whitespace makes decoding fail |
| Amqp.Broker.Queue | raspberry-pi/rabbitmq_client.py:55-56 | a queue that was never declared holds no messages |
| Amqp.Broker.DeclareDurable | raspberry-pi/rabbitmq_client.py:55-56 | declaring is idempotent: it marks the queue durable and keeps every waiting message |
| Amqp.Broker.Publish | raspberry-pi/rabbitmq_client.py:99-107 | publishing appends the message to the named queue only |
| Amqp.Broker.Settle | backend/classifier_service.py:123-128 | an ack or nack appends one settlement and leaves the queues alone |
| Motor.ClampAngle | raspberry-pi/motor_controller.py:100 | the result lies in [0, 180], equals the request inside it, and is the nearer bound outside it |
| Motor.ClampSpeed | raspberry-pi/motor_controller.py:155 | the result lies in [0, CONVEYOR_MAX_SPEED], equals the request inside it, and is the nearer bound outside it |
| Motor.AngleToDuty | raspberry-pi/motor_controller.py:84-85 | an angle in [0, 180] becomes a duty cycle in [SERVO_MIN_DUTY, SERVO_MAX_DUTY] |
| Motor.AngleToDutyProperties | raspberry-pi/motor_controller.py:84 | 0° maps to SERVO_MIN_DUTY and 180° to SERVO_MAX_DUTY; the map is strictly increasing and keeps safe angles within the duty range |
| Motor.RampFromShape | raspberry-pi/motor_controller.py:162-166 | the ramp writes 0, 10, 20, … strictly below the target, each followed by a 0.05 s pause, ceil(target/10) steps in all; it is empty when the target is not above the start |
| Motor.RampFromSafe | raspberry-pi/motor_controller.py:164-166 | every ramp towards a target within the speed limit writes only safe duties |
| Motor.GateFor | raspberry-pi/motor_controller.py:218-226 | the gate chosen for any label is one of the three named gates |
| Motor.GateMoveAlwaysWrites | raspberry-pi/motor_controller.py:103-115 | moving between two different gates is never swallowed by the one-degree tolerance: duty(angle), a pause, duty 0, and the new angle is stored |
| Motor.SortTrace | raspberry-pi/motor_controller.py:204-230 | an uninitialised sort writes nothing and only takes its two pauses; an initialised one starts with direction off and duty 0 and ends with a conveyor duty write |
| Motor.ServoTwiceWritesOnce | raspberry-pi/motor_controller.py:103-105 | a second set_servo_angle with the same angle writes nothing and leaves the servo where the first call put it |
| Motor.SortResumesAtConfiguredSpeed | raspberry-pi/motor_controller.py:204-230 | whatever the belt's earlier speed, an initialised sort begins with the stop writes and CONVEYOR_STOP_TIME and ends with a full soft start: forward, the 0, 10, 20, … ramp with 0.05 s pauses, then CONVEYOR_SPEED |
| Motor.SortTraceSafe | raspberry-pi/motor_controller.py:204-230 | the whole sort sequence writes only safe duties |
| Motor.MotorController.constructor | raspberry-pi/motor_controller.py:28-35 | not initialised, gate at center, belt stopped, no start time, nothing written |
| Motor.MotorController.Initialize | raspberry-pi/motor_controller.py:37-70 | succeeds exactly when the GPIO setup does; the neutral-position calls run before the flag is set, so on a fresh controller they write nothing, while on an initialised one they centre the servo and stop the belt |
| Motor.MotorController.SetServoAngle | raspberry-pi/motor_controller.py:87-122 | uninitialised: False, no write, angle kept; otherwise clamp, skip within 1°, else write duty, pause, write 0 and store the clamped angle |
| Motor.MotorController.SetServoLeft | raspberry-pi/motor_controller.py:124-127 | set_servo_angle(SERVO_ANGLE_LEFT) |
| Motor.MotorController.SetServoCenter | raspberry-pi/motor_controller.py:129-132 | set_servo_angle(SERVO_ANGLE_CENTER) |
| Motor.MotorController.SetServoRight | raspberry-pi/motor_controller.py:134-137 | set_servo_angle(SERVO_ANGLE_RIGHT) |
| Motor.MotorController.StartConveyor | raspberry-pi/motor_controller.py:139-181 | defaults to CONVEYOR_SPEED, clamps and stores the speed, ramps only from standstill, and sets the start time only if none was set; uninitialised: nothing changes |
| Motor.MotorController.WriteStart | raspberry-pi/motor_controller.py:157-169 | direction forward, the ramp when starting from standstill, then the target duty; every write stays within the safety limits |
| Motor.MotorController.SoftStart | raspberry-pi/motor_controller.py:164-166 | the writes are exactly duty 0, 10, 20, ... below the target, each followed by a 0.05 s pause, and all within the safety limits |
| Motor.MotorController.StopConveyor | raspberry-pi/motor_controller.py:183-202 | both direction pins low, duty 0, speed 0 and the start time cleared; uninitialised: False and nothing changes |
| Motor.MotorController.SetGateFor | raspberry-pi/motor_controller.py:218-226 | fresh → center, spoiled → right, other → left, any other label → center |
| Motor.MotorController.SortFruit | raspberry-pi/motor_controller.py:204-230 | stop, pause CONVEYOR_STOP_TIME, gate, pause CONVEYOR_RESUME_DELAY, restart at CONVEYOR_SPEED; the pauses happen even when uninitialised |
| Motor.MotorController.Cleanup | raspberry-pi/motor_controller.py:232-246 | an initialised controller releases the hardware once and becomes uninitialised |
| Camera.ClampInt | raspberry-pi/camera_module.py:529-536 | the result lies in the range, equals the input inside it, and is the nearer bound outside it |
| Camera.ClampReal | raspberry-pi/camera_module.py:529-536 | the same for real settings |
| Camera.ClampIdempotent | raspberry-pi/camera_advanced.py:92-99 | clamping an already clamped setting changes nothing |
| Camera.CaptureResult | raspberry-pi/camera_module.py:288-304 | an image is returned only from a successful driver call on a known camera type; picamera2 never returns empty bytes |
| Camera.Kept | raspberry-pi/camera_module.py:575-578 | the images a burst keeps: at most one per call, none of them empty |
| Camera.KeptBounded | raspberry-pi/camera_module.py:575-585 | a burst keeps at most one image per call; every kept image is non-empty and came from a capture |
| Camera.KeptAllWhenAllSucceed | raspberry-pi/camera_advanced.py:138-148 | when every OpenCV call yields bytes, the burst keeps them all |
| Camera.SelectBestFrame | raspberry-pi/camera_module.py:372-391 | None iff no read succeeded with a score above 0; otherwise the first frame whose score beats every earlier score and 0 |
| Camera.CalibratedBrightness | raspberry-pi/camera_module.py:193-196 | average below 80 → 10, above 200 → −10, otherwise unchanged |
| Camera.CalibratedContrast | raspberry-pi/camera_module.py:198-199 | average contrast below 30 → 1.2, otherwise unchanged |
| Camera.CalibrationKeepsRanges | raspberry-pi/camera_module.py:193-199 | calibration keeps brightness in [−100, 100] and contrast in [0.5, 2.0] |
| Camera.EnhancementSettings | raspberry-pi/camera_advanced.py:195-207 | each default lies inside its advertised range, and there are four modes |
| Camera.CameraModule.constructor | raspberry-pi/camera_module.py:48-69 | uninitialised, zero captures, quality 95, brightness 0, contrast and saturation 1.0 |
| Camera.CameraModule.SetCameraSettings | raspberry-pi/camera_module.py:519-536 | each given value is clamped to its range; an absent argument leaves its field unchanged |
| Camera.CameraModule.CaptureImage | raspberry-pi/camera_module.py:269-365 | uninitialised: None and the count unchanged; otherwise the count rises by exactly one per call, even when the capture fails; the duration is stored except for an unknown camera type or a raising OpenCV capture (the picamera2 path swallows its own exceptions) |
| Camera.CameraModule.CaptureBurst | raspberry-pi/camera_module.py:557-585 | uninitialised: [] and no capture; otherwise count captures, the truthy results in order, count−1 pauses, and last_capture_time is the duration of the last capture that stored one |
| Camera.TimeAfter | raspberry-pi/camera_module.py:296-297 | after a run of captures last_capture_time is the earlier value when no capture stored a duration, and otherwise the earlier value or one of the stored durations |
| Camera.TimeAfterIsLastStored | raspberry-pi/camera_module.py:296-297 | when some capture stored its duration, last_capture_time is the duration of the last capture that did, with no storing capture after it |
| Camera.StoresTime | raspberry-pi/camera_module.py:288-297 | a picamera2 capture always stores its duration (its driver errors are swallowed); an OpenCV capture stores it iff it did not raise; an unknown type never does |
| Camera.CameraModule.TestShots | raspberry-pi/camera_module.py:169-179 | one 0.5 s pause before each test shot; the statistics of the shots that succeeded are kept, in order |
| Camera.CameraModule.Calibrate | raspberry-pi/camera_module.py:160-207 | three shots with a 0.5 s pause each; no successful shot leaves the settings; otherwise the averages drive the brightness and contrast rules |
| Camera.CameraModule.Initialize | raspberry-pi/camera_module.py:71-84 | False without a camera library; otherwise succeeds iff the device opens; picamera2 warms up for CAMERA_WARMUP_TIME and then calibrates, leaving brightness and contrast as the calibration rules set them from the averaged successful shots |
| Camera.CameraModule.PreviewMode | raspberry-pi/camera_advanced.py:150-186 | an uninitialised camera refuses with False and nothing changes; otherwise the result is whether the preview ran, a picamera2 preview sleeps for `duration`, and settings, counters and last_capture_time are kept |
| Camera.CameraModule.GetCameraStats | raspberry-pi/camera_module.py:542-555 | the current fields, verbatim; on a valid camera brightness and quality are in range |
| Camera.CameraModule.Cleanup | raspberry-pi/camera_module.py:445-457 | the camera becomes uninitialised, with settings, count and last_capture_time kept |
| EdgeMessaging.WithTimestamp | raspberry-pi/rabbitmq_client.py:91-93 | every caller key and value is kept; a timestamp is added only when absent |
| EdgeMessaging.Envelope | raspberry-pi/rabbitmq_client.py:86-93 | exactly the keys image and metadata; image is the hex text, 2·n characters long; the metadata object always has a timestamp |
| EdgeMessaging.SleepTotalAppend | raspberry-pi/rabbitmq_client.py:206 | the sleeping time of two log segments adds up |
| EdgeMessaging.FailedRoundsShape | raspberry-pi/rabbitmq_client.py:196-206 | k failed rounds are k failed attempts, each followed by a retry delay, k·RETRY_DELAY seconds in all |
| EdgeMessaging.ReconnectAttempts | raspberry-pi/rabbitmq_client.py:195-203 | reconnect(n) makes at most n attempts, and at least one when n > 0 |
| EdgeMessaging.ReconnectAttemptsFirst | raspberry-pi/rabbitmq_client.py:196-203 | the attempts stop exactly at the first success |
| EdgeMessaging.ReconnectAttemptsNone | raspberry-pi/rabbitmq_client.py:196-209 | with no success all n attempts are made |
| EdgeMessaging.AfterReconnect | raspberry-pi/rabbitmq_client.py:188-209 | the attempt count rises by the attempts made, and the client is connected afterwards iff it was or one of the n attempts succeeds |
| EdgeMessaging.RabbitMQClient.constructor | raspberry-pi/rabbitmq_client.py:18-30 | not connected, no connection, not consuming, no attempts made |
| EdgeMessaging.RabbitMQClient.Connect | raspberry-pi/rabbitmq_client.py:32-67 | success declares both queues durable and sets connected; failure changes only the attempt count |
| EdgeMessaging.RabbitMQClient.SendImage | raspberry-pi/rabbitmq_client.py:69-114 | not connected: False and nothing published; otherwise exactly one persistent envelope on IMAGE_QUEUE, unless the publish raises |
| EdgeMessaging.RabbitMQClient.OnResultReceived | raspberry-pi/rabbitmq_client.py:116-133 | exactly one settlement per delivery; ack only when parsing and the callback both completed, otherwise nack without requeue |
| EdgeMessaging.RabbitMQClient.StartConsumingResults | raspberry-pi/rabbitmq_client.py:135-159 | refused with False unless connected |
| EdgeMessaging.RabbitMQClient.Disconnect | raspberry-pi/rabbitmq_client.py:177-186 | with a connection object, consumption stops and the client is disconnected; without one, nothing changes |
| EdgeMessaging.RabbitMQClient.Reconnect | raspberry-pi/rabbitmq_client.py:188-209 | at most n connect calls; stops at the first success; every failed attempt is followed by one RETRY_DELAY; the consumer is re-armed iff a callback is set; with a bound the new state is AfterReconnect's |
| EdgeMessaging.RabbitMQClient.RetryConnect | raspberry-pi/rabbitmq_client.py:195-206 | the retry loop alone: connect calls until the first success or the bound, a RETRY_DELAY after each failure, queues declared durable only on success, the consumer flag untouched |
| Edge.QualityCategory | raspberry-pi/main.py:90-95 | Excellent or Good → fresh, Fair, Poor or Bad → spoiled, anything else → other (both directions) |
| Edge.ResultCategory | raspberry-pi/main.py:80-103 | the handler sorts iff the result is an object whose confidence can be formatted; the category comes from `quality`, defaulting to Unknown |
| Edge.MissingQualitySortsOther | raspberry-pi/main.py:84 | a result without `quality` is sorted as other, to the left gate |
| Edge.IrFirings | raspberry-pi/main.py:117-131 | the firing times of a run of IR polls: at most one per poll, and a first poll that fires fires at its own time |
| Edge.IrFiringsSpaced | raspberry-pi/main.py:125-131 | successive IR firings are at least IR_DEBOUNCE_TIME apart, and the first is at least that long after the last detection |
| Edge.SustainedHighFiresAgain | raspberry-pi/main.py:125-131 | the trigger is level-based: a fruit held HIGH from t=2 to t=4 fires at 2 and again at 4; the initial 0 lets the first HIGH fire |
| Edge.UnknownModeNeverTriggers | raspberry-pi/main.py:190-205 | a mode other than ir_sensor, time_based or continuous never calls process_fruit |
| Edge.TriggerFires | raspberry-pi/main.py:189-205 | continuous always processes; ir_sensor iff HIGH and debounced; time_based iff CAPTURE_INTERVAL has passed since the last capture |
| Edge.EmergencyStopOffByDefault | raspberry-pi/main.py:112-115 | with USE_EMERGENCY_STOP false, the emergency check is always false |
| Edge.EdgeMetadata | raspberry-pi/main.py:148-151 | the sent metadata is exactly {timestamp: now, device_id: 'rpi_conveyor_01'} |
| Edge.Captured | raspberry-pi/main.py:142-145 | only a non-empty image that the camera really captured is sent |
| Edge.SentMessages | raspberry-pi/main.py:142-153 | process_fruit publishes at most one message: the persistent envelope of the truthy image with this device's metadata, iff the client is connected and the publish does not raise |
| Edge.ClientAfterProcess | raspberry-pi/main.py:153-160 | the client is reconnected (three attempts) iff a truthy image could not be sent because the client was disconnected; a connected client keeps its state |
| Edge.StopPolls | raspberry-pi/main.py:181-186 | an active stop sleeps 0.5 s for every further read that finds the button pressed; an inactive one does not sleep |
| Edge.TriggerPauses | raspberry-pi/main.py:133-211 | the trigger step sleeps CAPTURE_DELAY first iff process_fruit runs, CAPTURE_INTERVAL after it in continuous mode, and always ends with the 0.1 s pause |
| Edge.FruitSortingSystem.constructor | raspberry-pi/main.py:23-29 | nothing initialised, not running, last IR detection and last capture time 0 |
| Edge.FruitSortingSystem.Initialize | raspberry-pi/main.py:31-69 | camera, then motor, then broker; success iff all three come up; a camera or motor failure makes no connection attempt |
| Edge.FruitSortingSystem.ConnectBroker | raspberry-pi/main.py:45-53 | a failed connect gets three more attempts; success iff one of the four succeeds, and then the result consumer is armed: once after a first-try connect, twice (inside reconnect and again) otherwise |
| Edge.FruitSortingSystem.HandleClassificationResult | raspberry-pi/main.py:71-103 | sorts exactly once, by the category of `quality`, leaving the belt at CONVEYOR_SPEED with a new start time; a result the handler chokes on leaves the motor untouched |
| Edge.FruitSortingSystem.OnResult | raspberry-pi/rabbitmq_client.py:116-133 | with this handler as callback every parseable result is acked, since the handler swallows its own errors; a result the handler cannot sort leaves the motor untouched |
| Edge.FruitSortingSystem.DetectFruitIr | raspberry-pi/main.py:117-131 | fires iff the sensor is HIGH and now − last ≥ IR_DEBOUNCE_TIME; firing stores now, otherwise the last detection is kept |
| Edge.FruitSortingSystem.ProcessFruit | raspberry-pi/main.py:133-163 | pause CAPTURE_DELAY, capture (count, last_capture_time as capture_image sets them); the image queue gains exactly the sent envelope; a failed send reconnects (three attempts) only when not connected, with the client state that reconnect gives |
| Edge.FruitSortingSystem.Run | raspberry-pi/main.py:165-176 | marks running, starts the belt at the default speed, starts the capture timer at 0 |
| Edge.FruitSortingSystem.EmergencyStop | raspberry-pi/main.py:181-187 | when active: stop the belt, poll every 0.5 s until released, restart at the default speed with a new start time; when inactive, or on an uninitialised motor, the motor is untouched |
| Edge.FruitSortingSystem.TriggerStep | raspberry-pi/main.py:189-211 | process_fruit runs iff the mode's trigger fires, with its camera, queue and client effects; IR and time triggers store now when they fire; the pauses are exactly the trigger step's |
| Edge.FruitSortingSystem.CheckTrigger | raspberry-pi/main.py:189-204 | the mode's trigger test alone: fires exactly as TriggerFires says, and stores now in lastIrDetection or lastCaptureTime only when the IR or time trigger fires; pauses untouched |
| Edge.FruitSortingSystem.RunIteration | raspberry-pi/main.py:179-211 | the emergency stop's polls come before the trigger's pauses; process_fruit runs exactly when the trigger fires; the motor, both timestamps, the camera, the image queue and the client end as the two steps leave them |
| Edge.FruitSortingSystem.Cleanup | raspberry-pi/main.py:220-233 | not running; belt stopped and motor released; camera released; broker disconnected; timestamps, camera settings and counters, the gate angle and the attempt count kept |
| Classifier.OverallBetweenSubScores | backend/model.py:294-299 | the weights sum to 1, so overall lies between the smallest and largest sub-score |
| Classifier.AssessImageQuality | backend/model.py:258-317 | every metric is 0.5 on failure; with plausible statistics every metric is in [0, 1]; sharpness always equals blur; overall is the weighted average |
| Classifier.FallbackConsistent | backend/model.py:309-317 | the fallback overall 0.5 is the weighted average of the fallback sub-scores |
| Classifier.Argmax | backend/model.py:195 | the index of a largest probability, and the first such index |
| Classifier.MaxOf | backend/model.py:200-201 | the largest element, which is an element of the list |
| Classifier.SecondBest | backend/model.py:200-201 | the runner-up probability: another index holds it, and it bounds every probability other than the top |
| Classifier.ConfidenceGapBounds | backend/model.py:202 | the confidence gap is non-negative, and at most the confidence when probabilities are in [0, 1] |
| Classifier.QualityScoreBounds | backend/model.py:211-215 | 50·conf + 30·gap + 20·overall lies in [0, 100] for inputs in [0, 1] |
| Classifier.ConfidenceBand | backend/model.py:334-339 | low iff < 0.6, high iff ≥ 0.8, medium otherwise |
| Classifier.OverallBand | backend/model.py:357-364 | excellent iff > 80, good iff in (60, 80], fair iff in (40, 60], poor iff ≤ 40 |
| Classifier.ImageAdvice | backend/model.py:342-354 | at most four image hints, none of them a band |
| Classifier.RecommendationShape | backend/model.py:331-366 | one confidence band first, one overall band last, 2 to 6 items; each hint appears iff its threshold is crossed; too dark and too bright never both |
| Classifier.ItemsBands | backend/model.py:331-366 | the confidence band opens the items and the overall band closes them, and neither band appears anywhere else |
| Classifier.ItemsAdvice | backend/model.py:341-355 | a piece of advice that is not a band is among the items exactly when the image advice holds it |
| Classifier.JoinEnds | backend/model.py:366 | a " \| "-joined list starts with its first item and ends with its last |
| Classifier.Recommendation | backend/model.py:319-366 | the string starts with the confidence band's text and ends with the overall band's text |
| Classifier.ProbabilityMap | backend/model.py:205-208 | the keys are exactly the classes of the zipped pairs (the shorter list decides), each value is a number, and a class maps to the probability of its last pair |
| Classifier.PairMap | backend/model.py:205-208 | after the first n pairs every class among them is a key and every value is a number |
| Classifier.PairMapKeys | backend/model.py:205-208 | the keys after the first n pairs are exactly those pairs' classes |
| Classifier.PairMapLast | backend/model.py:205-208 | after the first n pairs a class maps to the probability of its last pair among them |
| Classifier.ProbabilityMapDistinct | backend/model.py:205-208 | with distinct class names every class of a pair maps to its own probability |
| Classifier.FullResult | backend/model.py:194-230 | classification is the argmax class with its probability as confidence; the gap is ≥ 0; the score is in [0, 100] for plausible inputs; there is no `quality` key |
| Classifier.ScoreInRange | backend/model.py:211-215 | the score bound whenever its inputs are in range |
| Classifier.Classify | backend/model.py:161-238 | no model: the not-loaded result ('other', 0.0); any failure: 'other', 0.0, {}; otherwise the full result; the classification is always one of the three classes |
| Classifier.ClassifyResult | backend/model.py:222-230 | the seven keys of the full result, with the given class, confidence, score and gap |
| Classifier.ResultFields | backend/model.py:222-230 | exactly the seven result keys, with the given class, confidence, score and gap, and no `quality` key |
| Worker.DecodeRequest | backend/classifier_service.py:80-89 | a request iff the body is a JSON object with a hex `image` string and an object `metadata` (default {}); the bytes are the hex decoding |
| Worker.UnusableBodiesRejected | backend/classifier_service.py:82-83 | invalid JSON or a missing image is rejected |
| Worker.BadHexRejected | backend/classifier_service.py:89 | an odd-length or non-hex image string is rejected |
| Worker.BuildResult | backend/classifier_service.py:95-96 | the classifier output plus `metadata` and `processing_time`, every other key kept |
| Worker.ClassifyRequest | backend/classifier_service.py:92 | the classifier's answer always has a known class and a numeric confidence, and never a `quality` key |
| Worker.ResultFor | backend/classifier_service.py:92-96 | the published result: a known class, a numeric confidence, the request's metadata unchanged, the processing time, no `quality` |
| Worker.RecordFor | backend/classifier_service.py:99-105 | the row takes label and confidence from the result, device id and timestamp from the metadata |
| Worker.ClassifierService.constructor | backend/classifier_service.py:21-26 | not connected, not running, nothing stored |
| Worker.ClassifierService.Connect | backend/classifier_service.py:28-66 | success declares both queues durable and sets prefetch to PREFETCH_COUNT; failure changes nothing but the attempt count |
| Worker.ClassifierService.ProcessImage | backend/classifier_service.py:68-128 | exactly one settlement per delivery; an undecodable body is nacked with nothing stored or published; otherwise store, publish persistently to RESULT_QUEUE, then ack; a failed publish is nacked |
| Worker.ClassifierService.StoreAndPublish | backend/classifier_service.py:99-128 | the row is stored before the publish; ack only after both, nack without requeue when the publish raises |
| Worker.ClassifierService.Start | backend/classifier_service.py:130-161 | a model that fails to load makes no connection attempt; a failed connect returns False without consuming and is never retried; `ok` marks reaching the consuming state, since start() itself never returns True |
| CloudStorage.Digits | backend/supabase_storage.py:72 | a number written with exactly w decimal digits |
| CloudStorage.DigitsRoundTrip | backend/supabase_storage.py:72 | reading back a zero-padded field gives the number |
| CloudStorage.Stamp | backend/supabase_storage.py:72 | strftime('%Y%m%d_%H%M%S') is 15 characters |
| CloudStorage.BlobPath | backend/supabase_storage.py:71-73 | "images/" + stamp + "_" + label + ".jpg" |
| CloudStorage.ParseBlobPath | backend/firebase_storage.py:81-83 | a parsed path yields the label that sits between the stamp and ".jpg" |
| CloudStorage.BlobPathRoundTrip | backend/firebase_storage.py:81-83 | the path keeps the upload time to the second and the label |
| CloudStorage.BlobPathCollides | backend/supabase_storage.py:71-73 | two uploads get the same path iff they have the same label in the same second |
| CloudStorage.IsoFormat | backend/supabase_storage.py:89 | isoformat() text: 19 characters, or 26 with microseconds, with 'T' between date and time |
| CloudStorage.Take | backend/supabase_storage.py:128 | .limit(n) keeps a prefix of at most n rows, all of them when there are fewer |
| CloudStorage.ConfidenceTerm | backend/supabase_storage.py:163 | a missing confidence adds 0; the fold raises exactly on a confidence that is neither a number nor a boolean |
| CloudStorage.DictKey | backend/supabase_storage.py:159-160 | True and False land on the keys 1 and 0; every other value is its own key; lists and dicts stay unhashable |
| CloudStorage.RowTerm | backend/supabase_storage.py:157-163 | one pass of the loop raises iff the category is unhashable or the confidence cannot be added; otherwise it adds the confidence term |
| CloudStorage.Categories | backend/supabase_storage.py:159-160 | the dictionary key of each row's category, in order |
| CloudStorage.Tally | backend/supabase_storage.py:151-171 | total is the number of rows; category_counts is the fold; the average is 0 for no rows; None exactly when the fold raises |
| CloudStorage.Counts | backend/supabase_storage.py:155-160 | category_counts has no boolean key and every count is at least 1; the last row's key is present |
| CloudStorage.ListCategoryRaises | backend/firebase_storage.py:178-179 | a document whose classification is a list makes get_statistics return {} |
| CloudStorage.BooleanSharesNumberKey | backend/firebase_storage.py:178-179 | classifications True and 1 are counted under one key |
| CloudStorage.MapSumRemove | backend/supabase_storage.py:160 | a count dictionary's sum splits off any one key |
| CloudStorage.MapSumIncrement | backend/supabase_storage.py:160 | counting one row adds exactly one to the sum of the counts |
| CloudStorage.CountsSumToTotal | backend/supabase_storage.py:155-168 | the category counts sum to total |
| CloudStorage.CountsAreOccurrences | backend/firebase_storage.py:173-179 | each count is the number of rows whose category lands on the same dictionary key, and exactly the keys that occur are present |
| CloudStorage.UnlabelledCountedAsUnknown | backend/supabase_storage.py:159-160 | a row without a classification is counted under 'unknown' |
| CloudStorage.ConfidenceSumFails | backend/firebase_storage.py:178-182 | the fold fails iff some row's category is a list or a dict (unhashable) or its confidence cannot be added |
| CloudStorage.ConfidenceSumBounds | backend/supabase_storage.py:163 | with unit confidences the sum lies between 0 and the row count |
| CloudStorage.CountsAppend | backend/supabase_storage.py:159-161 | appending a row raises its own category's count by exactly one |
| CloudStorage.AverageInUnitRange | backend/supabase_storage.py:165 | with unit confidences the statistics exist and avg_confidence lies in [0, 1] |
| CloudStorage.TallyRows | backend/supabase_storage.py:151-171 | the loop computes exactly Tally: total, category_counts and the average, or the failure |
| CloudStorage.RoleOf | backend/supabase_storage.py:191-194 | no row gives None; a row without a role gives 'viewer'; otherwise the stored role |
| Supabase.UploadRow | backend/supabase_storage.py:88-95 | the six inserted columns, with the label under `classification` and the ISO text of the time |
| Supabase.WithoutId | backend/supabase_storage.py:219 | exactly the rows whose id differs remain |
| Supabase.WithoutIdAppend | backend/supabase_storage.py:219 | deleting from a table split in two deletes from each part, so the surviving rows keep their order |
| Supabase.SupabaseStorage.constructor | backend/supabase_storage.py:16-19 | not initialised, empty bucket and table |
| Supabase.SupabaseStorage.Initialize | backend/supabase_storage.py:21-41 | succeeds iff URL and key are non-empty and the client can be created |
| Supabase.SupabaseStorage.UploadImage | backend/supabase_storage.py:43-109 | uninitialised: refused, nothing changes; otherwise the object goes to the dated path, then the row is inserted; on success the label's count rises by one |
| Supabase.SupabaseStorage.GetRecentImages | backend/supabase_storage.py:111-135 | uninitialised or failing: []; otherwise a prefix of the ordered stored rows with min(limit, table size) rows, each a stored row, the whole table when it fits in `limit` |
| Supabase.SupabaseStorage.GetStatistics | backend/supabase_storage.py:137-175 | uninitialised or failing: {} (None); otherwise Tally over the whole table |
| Supabase.SupabaseStorage.CheckUserRole | backend/supabase_storage.py:177-198 | None when uninitialised, failing or without a row; otherwise the stored role or 'viewer' |
| Supabase.SupabaseStorage.DeleteImage | backend/supabase_storage.py:200-226 | uninitialised: False; removes the object, then every row with the id; a failed row delete keeps the rows |
| Firebase.UploadDoc | backend/firebase_storage.py:100-108 | the document fields, with the raw timestamp number and the label under `classification` |
| Firebase.Data | backend/firebase_storage.py:173-174 | the data of each document, in order |
| Firebase.WithId | backend/firebase_storage.py:145-146 | the document data with its id attached under `id` |
| Firebase.FirebaseStorage.constructor | backend/firebase_storage.py:17-22 | not initialised, empty bucket and collection |
| Firebase.FirebaseStorage.Initialize | backend/firebase_storage.py:24-51 | succeeds iff the credentials file exists and the SDK starts |
| Firebase.FirebaseStorage.UploadImage | backend/firebase_storage.py:53-122 | uninitialised: refused, nothing changes; otherwise the blob goes to the dated path, then a document with a fresh id; on success the label's count rises by one |
| Firebase.FirebaseStorage.AddDoc | backend/firebase_storage.py:99-108 | the new document is appended to the collection and its label's count rises by exactly one |
| Firebase.FirebaseStorage.GetRecentImages | backend/firebase_storage.py:124-153 | uninitialised or failing: []; otherwise min(limit, collection size) records, each a stored document in query order with its document id attached |
| Firebase.FirebaseStorage.GetStatistics | backend/firebase_storage.py:155-194 | uninitialised or failing: {} (None); otherwise Tally over every document |
| Firebase.FirebaseStorage.CheckUserRole | backend/firebase_storage.py:196-217 | None when uninitialised, failing or without a document; otherwise the stored role or 'viewer' |
| Dashboard.ConfidenceOrZero | dashboard/supabase-config.js:121 | a null confidence contributes 0 |
| Dashboard.Summary | dashboard/supabase-config.js:108-124 | total is the number of rows |
| Dashboard.Labels | dashboard/supabase-config.js:117-120 | the label of each row, nulls included |
| Dashboard.BucketsPartition | dashboard/supabase-config.js:117-120 | fresh and spoiled count their own labels, and the three buckets add up to the number of rows |
| Dashboard.SummaryPartition | dashboard/supabase-config.js:108-122 | fresh + spoiled + other = total = number of rows |
| Dashboard.SumBounds | dashboard/supabase-config.js:121 | with unit confidences the running sum lies between 0 and the row count |
| Dashboard.AverageInUnitRange | dashboard/supabase-config.js:124 | with unit confidences the average lies in [0, 1] |
| Dashboard.GetStatistics | dashboard/supabase-config.js:101-126 | a query error throws (None) instead of partial stats; otherwise the loop computes Summary |
| Dashboard.AsRows | dashboard/supabase-config.js:102-104 | the same rows as the backend reads them |
| Dashboard.DashboardAgreesWithBackend | dashboard/supabase-config.js:117-120 | the dashboard's fresh and spoiled counters equal the backend's category_counts for those labels |
| Dashboard.UserRole | dashboard/supabase-config.js:89-98 | 'viewer' on an error or a missing or empty role, otherwise the stored role; never empty |
| Pipeline.EnvelopeDecodes | backend/classifier_service.py:82-89 | the worker decodes exactly the image and the (timestamped) metadata the edge sent |
| Pipeline.EdgeMetadataReachesDatabase | backend/classifier_service.py:99-105 | an image sent by process_fruit is stored with the Pi's device id and its capture time |
| Pipeline.WorkerResultSortsOther | raspberry-pi/main.py:84-95 | every result the worker publishes is sorted as other (left gate), because the worker never sends `quality` |

## Left out

- Hardware and drivers are not modelled: RPi.GPIO pin set-up, PWM objects, picamera2 and OpenCV calls. Their effects appear as trace events, and their outcomes appear as parameters. A PWM write that raises is not modelled.
- Clocks and `time.sleep` are not modelled. Times are parameters, and sleeps are entries in the ghost logs. One `now` serves a whole pass of the run loop.
- The consumer thread is not modelled: `_consume_loop`, `stop_consuming`'s join, and `_consume_loop` setting `is_connected` to False when it fails. Concurrency is out of scope.
- Image numerics are not modelled: enhancement, colour balance, denoising, JPEG encoding, and the cv2 statistics behind the quality metrics. The model starts from the mean, the Laplacian variance and the standard deviation.
- The TensorFlow model's loading, prediction and saving are not modelled. The prediction is a parameter.
- backend/database.py is not part of this model. Its insert swallows its own errors, so the worker always goes on to publish. `records` holds the rows handed to the insert, one per processed delivery; whether the table really received each row is not modelled.
- EdgeMessaging.RabbitMQClient.Reconnect: with no bound the source loops forever while the broker refuses; the model requires that some later attempt succeeds, so that endless loop is not captured. Every call site passes max_attempts=3.
- EdgeMessaging.RabbitMQClient.RetryConnect: carries the same requirement as Reconnect for the unbounded loop.
- EdgeMessaging.RabbitMQClient.SendImage: the source adds the timestamp into the caller's own metadata dict, in place. The model builds a new map, so that aliasing is not captured.
- Python floats and JavaScript numbers are modelled as exact reals: rounding, NaN and infinity are not modelled.
- CloudStorage.Counts: a Python dictionary keeps the key object first inserted, so a count first stored under True prints as True; the model always keys it as the number 1. The insertion order of the keys is not modelled either.
- Camera.CameraModule.Cleanup: a release call that raises is caught, and the source then leaves is_initialized set. The model always clears it.
- A camera type other than picamera2 or OpenCV is not modelled. `initialize` can only succeed with one of the two, so the unknown-type branch of `capture_image` is unreachable.
- The fruit_type and weight fields in `handle_classification_result` are read only for logging and are left out.
- Cloud SDK calls are not modelled. Whether a call raises is a boolean parameter. A public URL is the bucket's URL prefix followed by the path. The database's ordering is given as a sequence holding exactly the stored rows or documents; that it is sorted newest first by timestamp is not stated. Ids the database or Firestore assign are parameters.
- Supabase.SupabaseStorage.UploadImage: an upload to a path that already exists is left to the `uploadOk` parameter. The SDK may reject such an upload, and the model then replaces the object.
- Firebase.UploadDoc: the `created_at` server-timestamp field is not modelled.
- CloudStorage.BlobPath: the date fields are written as zero-padded decimal numbers. Years outside 1000-9999 are not modelled.
- `datetime.fromtimestamp` is a `calendar` parameter; the local time zone is not modelled.
- Dashboard.GetStatistics: rows carry the selected column types, a nullable label and a nullable number. JavaScript's string concatenation of non-numeric confidences is not modelled. A zero confidence and a null one both add 0, as in the source.
- delete_image exists only in the Supabase back-end, so it is modelled only there.
- `control_server.py`, `api.py`, `hardware_api.py`, `app.js`, the training script and the test scripts are not part of this model.
- Three behaviours are modelled as the code has them:
  - the IR trigger is level-based, not edge-based;
  - `sort_fruit` resumes at CONVEYOR_SPEED, not at the speed it had before;
  - the edge maps on `quality`, which the worker never sends.
