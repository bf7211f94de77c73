/**
 * The backend worker (backend/classifier_service.py): queue and QoS set-up,
 * the per-delivery handler that decodes, classifies, stores, publishes and
 * settles, and the start-up failure paths.
 *
 * The `records` field holds the rows handed to the database insert (the
 * insert swallows its own failures, so these are not necessarily the
 * table); the classifier's inputs for a delivery and whether the result
 * publish raises are parameters.
 */
module Worker {
  import opened Common
  import opened Json
  import opened Config
  import opened Amqp
  import Classifier

  /** One row handed to the database insert. */
  datatype Record = Record(classification: Value, confidence: Value, deviceId: Value, timestamp: Value,
                           processingTime: real)

  /** What the classifier observes for one image: gray statistics, preprocessing outcome, prediction. */
  datatype Analysis = Analysis(stats: Option<Classifier.GrayStats>, preprocessed: bool, prediction: Option<seq<real>>)

  /** A decoded image request: the image bytes and the metadata object. */
  datatype Request = Request(image: seq<byte>, metadata: map<string, Value>)

  /**
   * The parsing half of process_image: None when it raises before
   * classification (the body is not JSON, not an object, its metadata is not
   * an object, or its image is missing, not a string or not valid hex).
   */
  function DecodeRequest(body: Body): (r: Option<Request>)
    ensures r.Some? ==> body.Parsed? && body.value.Obj? && "image" in body.value.fields
    ensures r.Some? ==> body.value.fields["image"].Str? && FromHex(body.value.fields["image"].s) == Some(r.value.image)
    ensures r.Some? ==> Get(body.value.fields, "metadata", Obj(map[])) == Obj(r.value.metadata)
    ensures body.Parsed? && body.value.Obj? && "image" in body.value.fields && body.value.fields["image"].Str?
            && FromHex(body.value.fields["image"].s).Some? && Get(body.value.fields, "metadata", Obj(map[])).Obj?
            ==> r.Some?
  {
    match body
    case Unparseable => None
    case Parsed(v) =>
      if !v.Obj? then None
      else
        var md := Get(v.fields, "metadata", Obj(map[]));
        if !md.Obj? then None
        else if "image" !in v.fields || !v.fields["image"].Str? then None
        else
          match FromHex(v.fields["image"].s)
          case None => None
          case Some(b) => Some(Request(b, md.fields))
  }

  /** A body that is not JSON, or has no image, is rejected. */
  lemma UnusableBodiesRejected(body: Body)
    requires body.Unparseable? || (body.value.Obj? && "image" !in body.value.fields)
    ensures DecodeRequest(body).None?
  {
  }

  /** An image string of odd length without whitespace, or with a non-hex character, is rejected. */
  lemma BadHexRejected(fields: map<string, Value>, k: nat)
    requires "image" in fields && fields["image"].Str?
    requires var s := fields["image"].s;
      (|s| % 2 == 1 && forall i :: 0 <= i < |s| ==> !IsSpace(s[i]))
      || (k < |s| && !IsHexDigit(s[k]) && !IsSpace(s[k]))
    ensures DecodeRequest(Parsed(Obj(fields))).None?
  {
    var s := fields["image"].s;
    if |s| % 2 == 1 && forall i :: 0 <= i < |s| ==> !IsSpace(s[i]) {
      OddLengthRejected(s);
    } else {
      NonHexRejected(s, k);
    }
  }

  /** The published result: the classifier's dictionary plus the echoed metadata and the processing time. */
  function BuildResult(classification: Value, metadata: map<string, Value>, processingTime: real): (r: Value)
    requires classification.Obj?
    ensures r.Obj? && r.fields.Keys == classification.fields.Keys + {"metadata", "processing_time"}
    ensures r.fields["metadata"] == Obj(metadata) && r.fields["processing_time"] == Num(processingTime)
    ensures forall k :: k in classification.fields && k != "metadata" && k != "processing_time" ==>
      r.fields[k] == classification.fields[k]
  {
    Obj(classification.fields["metadata" := Obj(metadata)]["processing_time" := Num(processingTime)])
  }

  /** What the classifier returns for a request. */
  function ClassifyRequest(modelLoaded: bool, a: Analysis): (r: Value)
    ensures r.Obj? && "classification" in r.fields && "confidence" in r.fields
    ensures r.fields["classification"].Str? && r.fields["classification"].s in MODEL_CLASSES
    ensures r.fields["confidence"].Num? && "quality" !in r.fields
  {
    Classifier.Classify(modelLoaded, a.stats, a.preprocessed, a.prediction)
  }

  /** The result message for a decoded request. */
  function ResultFor(req: Request, modelLoaded: bool, a: Analysis, processingTime: real): (r: Value)
    ensures r.Obj? && "classification" in r.fields && "confidence" in r.fields
    ensures r.fields["classification"].Str? && r.fields["classification"].s in MODEL_CLASSES
    ensures r.fields["confidence"].Num?
    ensures "metadata" in r.fields && r.fields["metadata"] == Obj(req.metadata)
    ensures "processing_time" in r.fields && r.fields["processing_time"] == Num(processingTime)
    ensures "quality" !in r.fields
  {
    assert "quality" != "metadata" && "quality" != "processing_time" by {
      assert |"quality"| == 7 && |"metadata"| == 8 && |"processing_time"| == 15;
    }
    assert "classification" != "metadata" && "classification" != "processing_time" by {
      assert |"classification"| == 14;
    }
    assert "confidence" != "metadata" && "confidence" != "processing_time" by {
      assert |"confidence"| == 10;
    }
    var c := ClassifyRequest(modelLoaded, a);
    var r := BuildResult(c, req.metadata, processingTime);
    assert r.fields["classification"] == c.fields["classification"];
    assert r.fields["confidence"] == c.fields["confidence"];
    r
  }

  /** The database row for a result: label and confidence from the result, device and time from the metadata. */
  function RecordFor(result: Value, metadata: map<string, Value>, processingTime: real): (rec: Record)
    requires result.Obj? && "classification" in result.fields && "confidence" in result.fields
    ensures rec.classification == result.fields["classification"] && rec.confidence == result.fields["confidence"]
    ensures rec.deviceId == Get(metadata, "device_id", Null) && rec.timestamp == Get(metadata, "timestamp", Null)
    ensures rec.processingTime == processingTime
  {
    Record(result.fields["classification"], result.fields["confidence"],
           Get(metadata, "device_id", Null), Get(metadata, "timestamp", Null), processingTime)
  }

  class ClassifierService {
    const broker: Broker
    var isConnected: bool
    var isRunning: bool
    var consuming: bool
    var prefetch: nat
    var connectAttempts: nat
    var modelLoaded: bool
    var records: seq<Record>

    constructor (broker: Broker)
      ensures this.broker == broker && !isConnected && !isRunning && !consuming
      ensures prefetch == 0 && connectAttempts == 0 && !modelLoaded && records == []
    {
      this.broker := broker;
      isConnected, isRunning, consuming := false, false, false;
      prefetch, connectAttempts := 0, 0;
      modelLoaded := false;
      records := [];
    }

    /** connect(): on success both queues are durable and at most PREFETCH_COUNT deliveries are in flight. */
    method Connect(reachable: bool) returns (ok: bool)
      modifies this, broker
      ensures ok == reachable && connectAttempts == old(connectAttempts) + 1
      ensures ok ==> isConnected && prefetch == PREFETCH_COUNT
      ensures ok ==> broker.durable == old(broker.durable) + {IMAGE_QUEUE, RESULT_QUEUE}
      ensures forall q :: broker.Queue(q) == old(broker.Queue(q))
      ensures broker.settlements == old(broker.settlements)
      ensures !ok ==> isConnected == old(isConnected) && prefetch == old(prefetch) && unchanged(broker)
      ensures records == old(records) && modelLoaded == old(modelLoaded)
      ensures isRunning == old(isRunning) && consuming == old(consuming)
    {
      connectAttempts := connectAttempts + 1;
      if !reachable {
        return false;
      }
      broker.DeclareDurable(IMAGE_QUEUE);
      broker.DeclareDurable(RESULT_QUEUE);
      prefetch := PREFETCH_COUNT;
      isConnected := true;
      ok := true;
    }

    /**
     * process_image(): exactly one settlement per delivery. A body that does
     * not decode is nacked with nothing stored or published. Otherwise the
     * record is stored, then the result is published persistently, and only
     * then is the delivery acked; a failed publish is nacked after the insert.
     */
    method ProcessImage(tag: nat, body: Body, start: real, finish: real, a: Analysis, publishOk: bool)
      modifies this, broker
      ensures DecodeRequest(body).None? ==>
        broker.settlements == old(broker.settlements) + [Nack(tag, false)]
        && broker.queues == old(broker.queues) && records == old(records)
      ensures DecodeRequest(body).Some? ==>
        records == old(records) + [RecordFor(ResultFor(DecodeRequest(body).value, modelLoaded, a, finish - start),
                                             DecodeRequest(body).value.metadata, finish - start)]
      ensures DecodeRequest(body).Some? && publishOk ==>
        broker.queues == old(broker.queues)[RESULT_QUEUE := old(broker.Queue(RESULT_QUEUE)) +
          [Message(Parsed(ResultFor(DecodeRequest(body).value, modelLoaded, a, finish - start)), true)]]
        && broker.settlements == old(broker.settlements) + [Ack(tag)]
      ensures DecodeRequest(body).Some? && !publishOk ==>
        broker.queues == old(broker.queues) && broker.settlements == old(broker.settlements) + [Nack(tag, false)]
      ensures |broker.settlements| == |old(broker.settlements)| + 1
      ensures broker.durable == old(broker.durable)
      ensures isConnected == old(isConnected) && modelLoaded == old(modelLoaded)
      ensures connectAttempts == old(connectAttempts) && prefetch == old(prefetch)
    {
      var req := DecodeRequest(body);
      if req.None? {
        broker.Settle(Nack(tag, false));
        return;
      }
      var result := ResultFor(req.value, modelLoaded, a, finish - start);
      StoreAndPublish(tag, result, RecordFor(result, req.value.metadata, finish - start), publishOk);
    }

    /** The tail of process_image: insert the row, publish the result, then ack (nack when the publish raises). */
    method StoreAndPublish(tag: nat, result: Value, rec: Record, publishOk: bool)
      modifies this, broker
      ensures records == old(records) + [rec]
      ensures publishOk ==>
        broker.queues == old(broker.queues)[RESULT_QUEUE := old(broker.Queue(RESULT_QUEUE)) + [Message(Parsed(result), true)]]
        && broker.settlements == old(broker.settlements) + [Ack(tag)]
      ensures !publishOk ==>
        broker.queues == old(broker.queues) && broker.settlements == old(broker.settlements) + [Nack(tag, false)]
      ensures broker.durable == old(broker.durable)
      ensures isConnected == old(isConnected) && modelLoaded == old(modelLoaded)
      ensures connectAttempts == old(connectAttempts) && prefetch == old(prefetch)
    {
      records := records + [rec];
      if !publishOk {
        broker.Settle(Nack(tag, false));
        return;
      }
      broker.Publish(RESULT_QUEUE, Message(Parsed(result), true));
      broker.Settle(Ack(tag));
    }

    /**
     * start(): a model that fails to load or a broker that cannot be reached
     * ends start-up with False after at most one connection attempt;
     * otherwise the worker runs and consumes images. start() itself never
     * returns True (it blocks while consuming and then falls off the end), so
     * `ok` here means that start-up reached the consuming state.
     */
    method Start(modelLoads: bool, reachable: bool) returns (ok: bool)
      modifies this, broker
      ensures ok == (modelLoads && reachable)
      ensures connectAttempts == old(connectAttempts) + (if modelLoads then 1 else 0)
      ensures ok ==> isRunning && consuming && isConnected && prefetch == PREFETCH_COUNT
      ensures !ok ==> isRunning == old(isRunning) && consuming == old(consuming)
      ensures modelLoaded == (old(modelLoaded) || modelLoads)
      ensures records == old(records) && broker.settlements == old(broker.settlements)
    {
      if !modelLoads {
        return false;
      }
      modelLoaded := true;
      var connected := Connect(reachable);
      if !connected {
        return false;
      }
      isRunning := true;
      consuming := true;
      ok := true;
    }
  }
}
