/**
 * Properties of the whole path an image takes: the edge device's envelope,
 * the worker's decoding and result, the database row, and the edge device's
 * handling of the result that comes back.
 */
module Pipeline {
  import opened Common
  import opened Json
  import opened Config
  import opened Amqp
  import EdgeMessaging
  import Worker
  import Edge
  import Motor

  /** The worker decodes exactly the image and metadata the edge device sent. */
  lemma EnvelopeDecodes(image: seq<byte>, metadata: Option<map<string, Value>>, now: real)
    ensures Worker.DecodeRequest(Parsed(EdgeMessaging.Envelope(image, metadata, now)))
      == Some(Worker.Request(image, EdgeMessaging.WithTimestamp(metadata.GetOr(map[]), now)))
  {
    HexRoundTrip(image);
  }

  /**
   * An image sent by process_fruit is stored with the device id and the
   * capture time the edge device attached.
   */
  lemma EdgeMetadataReachesDatabase(image: seq<byte>, now: real, modelLoaded: bool, a: Worker.Analysis,
                                    processingTime: real)
    ensures var req := Worker.DecodeRequest(Parsed(EdgeMessaging.Envelope(image, Some(Edge.EdgeMetadata(now)), now)));
      && req.Some? && req.value.image == image
      && var rec := Worker.RecordFor(Worker.ResultFor(req.value, modelLoaded, a, processingTime),
                                     req.value.metadata, processingTime);
         rec.deviceId == Str(Edge.DEVICE_ID) && rec.timestamp == Num(now)
  {
    EnvelopeDecodes(image, Some(Edge.EdgeMetadata(now)), now);
  }

  /**
   * Every result the worker publishes is sorted as "other" by the edge
   * device: the worker sends `classification` and never `quality`, which is
   * the key the edge device reads, so every fruit goes to the left gate.
   */
  lemma WorkerResultSortsOther(req: Worker.Request, modelLoaded: bool, a: Worker.Analysis, processingTime: real)
    ensures Edge.ResultCategory(Worker.ResultFor(req, modelLoaded, a, processingTime)) == Some(CLASSIFICATION_OTHER)
    ensures Motor.GateFor(CLASSIFICATION_OTHER) == SERVO_ANGLE_LEFT
  {
    var r := Worker.ResultFor(req, modelLoaded, a, processingTime);
    Edge.MissingQualitySortsOther(r.fields);
  }
}
