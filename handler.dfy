/**
 * The handler (lambda_function.py, lines 17-219): for each record of the
 * event, in order, fetch the object, resize it with Pillow or copy it, write
 * the metadata item and publish a success message. The first exception ends
 * the batch: a failure message is attempted, and the exception is re-raised.
 *
 * The world's answers for one record (what `get_object` returns, what Pillow
 * makes of the bytes, which writes fail, the fresh uuid and timestamp) are an
 * input of the record, so the whole run is a function of its inputs.
 */
module Handler {
  import opened Wrappers
  import opened Geometry
  import opened Keys
  import opened Metadata
  import opened Services

  /** The environment settings (lines 11-15). */
  datatype Config = Config(resizedBucket: string, table: string, topic: string, maxWidth: nat, maxHeight: nat)

  /** `get_object` and reading its body: a failure, or the byte count and the optional ContentType. */
  datatype Fetch = FetchFailed | Fetched(length: nat, contentType: Option<string>)

  /** `Image.open(...)`: a failure, or the image's size in pixels. */
  datatype Probe = Unopenable | Opened(width: nat, height: nat)

  /** What the world answers while one record is processed. */
  datatype Responses = Responses(
    fetch: Fetch,
    probe: Probe,
    encoded: Option<nat>,   // byte count of the resized, re-encoded image; None when resize or save raises
    uploadOk: bool,         // put_object of the resized bytes
    copyOk: bool,           // copy_object of the original
    imageId: string,        // str(uuid.uuid4())
    processedAt: string,    // datetime.utcnow().isoformat()
    putItemOk: bool,        // table.put_item
    publishOk: bool)        // publish of the success message

  /** One entry of `event['Records']`, with the world's answers for it. */
  datatype Arrival = Arrival(bucket: string, key: string, world: Responses)

  /** What the Pillow path would upload. */
  datatype Rendition = Rendition(original: Size, target: Size, length: nat)

  /**
   * Lines 50-80: the rendition, or None when the path raises before the
   * upload (the image cannot be opened, its height is 0 so computing
   * `aspect_ratio` divides by zero, or resizing or saving fails).
   */
  function Render(cfg: Config, probe: Probe, encoded: Option<nat>): (r: Option<Rendition>)
    ensures r.None? <==> probe.Unopenable? || probe.height == 0 || encoded.None?
    ensures r.Some? ==>
      r.value.original == Size(probe.width, probe.height) && r.value.length == encoded.value
      && r.value.target == Fit(probe.width, probe.height, cfg.maxWidth, cfg.maxHeight)
  {
    match probe
    case Unopenable => None
    case Opened(w, h) =>
      if h == 0 then None
      else if encoded.None? then None
      else Some(Rendition(Size(w, h), Fit(w, h, cfg.maxWidth, cfg.maxHeight), encoded.value))
  }

  /** The resize path runs to its end: Pillow is there, the image renders and the upload succeeds. */
  predicate ResizeCompletes(cfg: Config, pillowAvailable: bool, a: Arrival)
    ensures ResizeCompletes(cfg, pillowAvailable, a) <==>
      pillowAvailable && a.world.probe.Opened? && a.world.probe.height > 0
      && a.world.encoded.Some? && a.world.uploadOk
  {
    pillowAvailable && Render(cfg, a.world.probe, a.world.encoded).Some? && a.world.uploadOk
  }

  /** The object written for a record, with the `resized_size` and `dimensions` chosen alongside it. */
  datatype Written = Written(stored: StoredObject, resizedSize: nat, dimensions: Item)

  /**
   * Lines 47-121: the resized upload when the resize path completes, else a
   * copy of the original (after a failed resize, or without Pillow); None when
   * that copy raises.
   */
  function Output(cfg: Config, pillowAvailable: bool, a: Arrival, originalSize: nat, contentType: string)
    : (r: Option<Written>)
    ensures r.Some? ==>
      r.value.stored.bucket == cfg.resizedBucket && r.value.stored.key == DestinationKey(a.key)
      && r.value.stored.contentType == contentType
    ensures r.Some? ==> (r.value.stored.body.Encoded? <==> ResizeCompletes(cfg, pillowAvailable, a))
    ensures r.Some? && r.value.stored.body.CopyOf? ==>
      r.value.stored.body == CopyOf(a.bucket, a.key) && r.value.resizedSize == originalSize
      && r.value.dimensions == map[]
    ensures r.Some? && r.value.stored.body.Encoded? ==>
      a.world.encoded.Some? && a.world.probe.Opened? && a.world.probe.height > 0
      && r.value.stored.body.length == a.world.encoded.value
      && r.value.resizedSize == a.world.encoded.value
      && r.value.dimensions == DimensionsOf(Size(a.world.probe.width, a.world.probe.height),
                                             Fit(a.world.probe.width, a.world.probe.height, cfg.maxWidth, cfg.maxHeight))
      && r.value.dimensions.Keys == DimensionFields
    ensures r.None? <==> !ResizeCompletes(cfg, pillowAvailable, a) && !a.world.copyOk
  {
    var newKey := DestinationKey(a.key);
    if ResizeCompletes(cfg, pillowAvailable, a) then
      var rd := Render(cfg, a.world.probe, a.world.encoded).value;
      Some(Written(StoredObject(cfg.resizedBucket, newKey, Encoded(rd.length), contentType),
                   rd.length, DimensionsOf(rd.original, rd.target)))
    else if a.world.copyOk then
      Some(Written(StoredObject(cfg.resizedBucket, newKey, CopyOf(a.bucket, a.key), contentType),
                   originalSize, map[]))
    else
      None
  }

  /** Lines 127-143: the item, with `dimensions` merged in when non-empty. */
  function ItemOf(cfg: Config, pillowAvailable: bool, a: Arrival, originalSize: nat, contentType: string,
                  w: Written): (item: Item)
    ensures item.Keys == RecordFields + w.dimensions.Keys
  {
    Merge(BaseItem(a.world.imageId, a.bucket, a.key, cfg.resizedBucket, DestinationKey(a.key),
                   originalSize, w.resizedSize, contentType, a.world.processedAt, pillowAvailable),
          w.dimensions)
  }

  /** Line 150: the detailed message only when Pillow ran and `dimensions` is non-empty. */
  function SuccessNotice(pillowAvailable: bool, a: Arrival, originalSize: nat, w: Written): (n: Notice)
    ensures n.ResizedNotice? <==> pillowAvailable && w.dimensions != map[]
    ensures !n.FailedNotice? && n.objectKey == a.key && n.newKey == DestinationKey(a.key)
      && n.originalSize == originalSize && n.imageId == a.world.imageId
    ensures n.ResizedNotice? ==> n.dimensions == w.dimensions && n.resizedSize == w.resizedSize
  {
    if pillowAvailable && |w.dimensions| > 0 then
      ResizedNotice(a.key, DestinationKey(a.key), w.dimensions, originalSize, w.resizedSize, a.world.imageId)
    else
      ProcessedNotice(a.key, DestinationKey(a.key), originalSize, a.world.imageId)
  }

  /** The effects of one record and the exception, if any, that escapes it. */
  datatype Run = Run(effects: Effects, error: Option<Error>)

  /**
   * Lines 123-193, once the object is stored: write the item, then publish
   * the success message when a topic is configured.
   */
  function Record(cfg: Config, pillowAvailable: bool, a: Arrival, originalSize: nat, contentType: string,
                  w: Written): (r: Run)
    ensures r.effects.objects == []
    ensures r.error == Some(PutItemFailed) <==> !a.world.putItemOk
    ensures r.effects.writes == (if a.world.putItemOk
      then [ItemWrite(cfg.table, ItemOf(cfg, pillowAvailable, a, originalSize, contentType, w))] else [])
    ensures r.effects.messages != [] <==> a.world.putItemOk && cfg.topic != "" && a.world.publishOk
    ensures r.effects.messages != [] ==>
      r.effects.messages == [Message(cfg.topic, SuccessNotice(pillowAvailable, a, originalSize, w))]
    ensures r.error.None? <==> a.world.putItemOk && (cfg.topic == "" || a.world.publishOk)
  {
    var write := ItemWrite(cfg.table, ItemOf(cfg, pillowAvailable, a, originalSize, contentType, w));
    if !a.world.putItemOk then
      Run(NoEffects, Some(PutItemFailed))
    else if cfg.topic == "" then
      Run(Effects([], [write], []), None)
    else if a.world.publishOk then
      Run(Effects([], [write], [Message(cfg.topic, SuccessNotice(pillowAvailable, a, originalSize, w))]), None)
    else
      Run(Effects([], [write], []), Some(PublishFailed))
  }

  /** One iteration of the loop body (lines 32-195). */
  function RunEvent(cfg: Config, pillowAvailable: bool, a: Arrival): (r: Run)
    ensures |r.effects.objects| <= 1 && |r.effects.writes| <= |r.effects.objects|
      && |r.effects.messages| <= |r.effects.writes|
    ensures r.error == Some(GetObjectFailed) <==> a.world.fetch.FetchFailed?
    ensures r.error == Some(CopyObjectFailed) <==> a.world.fetch.Fetched? && r.effects.objects == []
  {
    match a.world.fetch
    case FetchFailed => Run(NoEffects, Some(GetObjectFailed))
    case Fetched(originalSize, header) =>
      var contentType := header.GetOr(DefaultContentType);
      match Output(cfg, pillowAvailable, a, originalSize, contentType)
      case None => Run(NoEffects, Some(CopyObjectFailed))
      case Some(w) =>
        var r := Record(cfg, pillowAvailable, a, originalSize, contentType, w);
        Run(Effects([w.stored], [], []).Then(r.effects), r.error)
  }

  /** Running `rest` after `first`, unless `first` raised. */
  function Combine(first: Run, rest: Run): Run {
    if first.error.Some? then first else Run(first.effects.Then(rest.effects), rest.error)
  }

  /**
   * The `for` loop of line 31, given each record's run: the runs' effects in
   * order, up to and including the first run that raises, and its exception.
   */
  function RunAll(runs: seq<Run>): (r: Run)
    ensures r.error.None? ==> r.effects == Concat(runs)
    decreases |runs|
  {
    if runs == [] then Run(NoEffects, None)
    else Combine(runs[0], RunAll(runs[1..]))
  }

  /** Every run's effects in order, as if none raised. */
  function Concat(runs: seq<Run>): Effects
    decreases |runs|
  {
    if runs == [] then NoEffects
    else runs[0].effects.Then(Concat(runs[1..]))
  }

  /** The run of each record, in order. */
  function Runs(cfg: Config, pillowAvailable: bool, records: seq<Arrival>): (runs: seq<Run>)
    ensures |runs| == |records|
    ensures forall i | 0 <= i < |records| :: runs[i] == RunEvent(cfg, pillowAvailable, records[i])
  {
    seq(|records|, i requires 0 <= i < |records| => RunEvent(cfg, pillowAvailable, records[i]))
  }

  predicate Completes(cfg: Config, pillowAvailable: bool, a: Arrival) {
    RunEvent(cfg, pillowAvailable, a).error.None?
  }

  /** The handler's result: status code 200 with `pillow_available`, or the re-raised exception. */
  datatype Response = Completed(pillowAvailable: bool) | Raised(error: Error)

  datatype Outcome = Outcome(effects: Effects, response: Response)

  /** Lines 209-217: the failure message, when a topic is configured and publishing it succeeds. */
  function FailureReport(cfg: Config, error: Error, delivered: bool): (e: Effects)
    ensures e.objects == [] && e.writes == []
    ensures e.messages != [] <==> cfg.topic != "" && delivered
    ensures e.messages != [] ==> e.messages == [Message(cfg.topic, FailedNotice(error))]
  {
    if cfg.topic != "" && delivered then Effects([], [], [Message(cfg.topic, FailedNotice(error))])
    else NoEffects
  }

  /**
   * Lines 197-219, after the loop: return status code 200, or attempt the
   * failure message and re-raise. Only a message may be added to what the
   * loop did.
   */
  function Conclude(cfg: Config, pillowAvailable: bool, run: Run, failureNoticeDelivered: bool): (o: Outcome)
    ensures o.effects.objects == run.effects.objects && o.effects.writes == run.effects.writes
      && |run.effects.messages| <= |o.effects.messages| <= |run.effects.messages| + 1
      && o.effects.messages[..|run.effects.messages|] == run.effects.messages
    ensures o.response.Raised? <==> run.error.Some?
    ensures o.response.Raised? ==> o.response.error == run.error.value
    ensures o.response.Completed? ==> o.response == Completed(pillowAvailable)
  {
    match run.error
    case None => Outcome(run.effects, Completed(pillowAvailable))
    case Some(e) => Outcome(run.effects.Then(FailureReport(cfg, e, failureNoticeDelivered)), Raised(e))
  }

  /** The whole invocation (lines 20-219): the loop, then its conclusion. */
  function Handle(cfg: Config, pillowAvailable: bool, records: seq<Arrival>, failureNoticeDelivered: bool)
    : (o: Outcome)
    ensures var run := RunAll(Runs(cfg, pillowAvailable, records));
      o.effects.objects == run.effects.objects && o.effects.writes == run.effects.writes
      && (o.response.Raised? <==> run.error.Some?)
  {
    Conclude(cfg, pillowAvailable, RunAll(Runs(cfg, pillowAvailable, records)), failureNoticeDelivered)
  }

  // ---------------------------------------------------------------------------
  // The imperative handler

  /**
   * Lines 47-121: upload the resized image, or copy the original when Pillow
   * is missing or the resize path raises. None when the copy raises.
   */
  method StoreOutput(cloud: Cloud, cfg: Config, pillowAvailable: bool, a: Arrival,
                     originalSize: nat, contentType: string)
    returns (written: Option<Written>)
    modifies cloud
    ensures written == Output(cfg, pillowAvailable, a, originalSize, contentType)
    ensures cloud.State() == old(cloud.State()).Then(
      if written.Some? then Effects([written.value.stored], [], []) else NoEffects)
  {
    var newKey := DestinationKey(a.key);
    var resizedSize: nat;
    var dimensions: Item;
    var uploaded := false;
    if pillowAvailable {
      var rendition := Render(cfg, a.world.probe, a.world.encoded);
      if rendition.Some? {
        uploaded := cloud.PutObject(cfg.resizedBucket, newKey, rendition.value.length, contentType,
                                    a.world.uploadOk);
        if uploaded {
          resizedSize := rendition.value.length;
          dimensions := DimensionsOf(rendition.value.original, rendition.value.target);
          return Some(Written(StoredObject(cfg.resizedBucket, newKey, Encoded(resizedSize), contentType),
                              resizedSize, dimensions));
        }
      }
    }
    // no Pillow, or the resize path raised: copy the original
    var copied := cloud.CopyObject(a.bucket, a.key, cfg.resizedBucket, newKey, contentType, a.world.copyOk);
    if !copied {
      return None;
    }
    resizedSize, dimensions := originalSize, map[];
    return Some(Written(StoredObject(cfg.resizedBucket, newKey, CopyOf(a.bucket, a.key), contentType),
                        resizedSize, dimensions));
  }

  /** Lines 124-143: the item literal, then `metadata_item.update(dimensions)` if `dimensions` is non-empty. */
  method BuildItem(cfg: Config, pillowAvailable: bool, a: Arrival, originalSize: nat, contentType: string,
                   written: Written)
    returns (item: Item)
    ensures item == ItemOf(cfg, pillowAvailable, a, originalSize, contentType, written)
  {
    item := BaseItem(a.world.imageId, a.bucket, a.key, cfg.resizedBucket, DestinationKey(a.key),
                     originalSize, written.resizedSize, contentType, a.world.processedAt, pillowAvailable);
    if |written.dimensions| > 0 {
      item := item + written.dimensions;
    } else {
      assert written.dimensions == map[];
      assert item == item + written.dimensions;
    }
  }

  /** Lines 123-193 against the services: the item, then the success message. */
  method RecordAndNotify(cloud: Cloud, cfg: Config, pillowAvailable: bool, a: Arrival, originalSize: nat,
                         contentType: string, written: Written)
    returns (error: Option<Error>)
    modifies cloud
    ensures cloud.State() == old(cloud.State()).Then(Record(cfg, pillowAvailable, a, originalSize, contentType, written).effects)
    ensures error == Record(cfg, pillowAvailable, a, originalSize, contentType, written).error
  {
    var item := BuildItem(cfg, pillowAvailable, a, originalSize, contentType, written);
    ghost var before := cloud.State();
    var write := ItemWrite(cfg.table, item);
    var stored := cloud.PutItem(write, a.world.putItemOk);
    if !stored {
      return Some(PutItemFailed);
    }
    if cfg.topic != "" {
      var notice := SuccessNotice(pillowAvailable, a, originalSize, written);
      var sent := cloud.Publish(Message(cfg.topic, notice), a.world.publishOk);
      if !sent {
        assert Record(cfg, pillowAvailable, a, originalSize, contentType, written) ==
          Run(Effects([], [write], []), Some(PublishFailed));
        return Some(PublishFailed);
      }
      ThenAssociative(before, Effects([], [write], []), Effects([], [], [Message(cfg.topic, notice)]));
      assert Effects([], [write], []).Then(Effects([], [], [Message(cfg.topic, notice)])) ==
        Effects([], [write], [Message(cfg.topic, notice)]);
    }
    return None;
  }

  /** One pass of the loop body (lines 32-195) against the services. */
  method ProcessRecord(cloud: Cloud, cfg: Config, pillowAvailable: bool, a: Arrival)
    returns (error: Option<Error>)
    modifies cloud
    ensures cloud.State() == old(cloud.State()).Then(RunEvent(cfg, pillowAvailable, a).effects)
    ensures error == RunEvent(cfg, pillowAvailable, a).error
  {
    if a.world.fetch.FetchFailed? {
      assert old(cloud.State()).Then(NoEffects) == cloud.State();
      return Some(GetObjectFailed);
    }
    var originalSize := a.world.fetch.length;
    var contentType := a.world.fetch.contentType.GetOr(DefaultContentType);
    ghost var before := cloud.State();
    var written := StoreOutput(cloud, cfg, pillowAvailable, a, originalSize, contentType);
    if written.None? {
      return Some(CopyObjectFailed);
    }
    ghost var stored := Effects([written.value.stored], [], []);
    error := RecordAndNotify(cloud, cfg, pillowAvailable, a, originalSize, contentType, written.value);
    ThenAssociative(before, stored, Record(cfg, pillowAvailable, a, originalSize, contentType, written.value).effects);
  }

  /** Lines 208-217: publish the failure message if a topic is configured; a failure to publish is swallowed. */
  method ReportFailure(cloud: Cloud, cfg: Config, error: Error, delivered: bool)
    modifies cloud
    ensures cloud.State() == old(cloud.State()).Then(FailureReport(cfg, error, delivered))
  {
    if cfg.topic != "" {
      var _ := cloud.Publish(Message(cfg.topic, FailedNotice(error)), delivered);
    } else {
      assert cloud.State().Then(NoEffects) == cloud.State();
    }
  }

  /** The `for` loop of line 31: the records in order, until one raises. */
  method ProcessRecords(cloud: Cloud, cfg: Config, pillowAvailable: bool, records: seq<Arrival>)
    returns (failure: Option<Error>)
    modifies cloud
    ensures cloud.State() == old(cloud.State()).Then(RunAll(Runs(cfg, pillowAvailable, records)).effects)
    ensures failure == RunAll(Runs(cfg, pillowAvailable, records)).error
  {
    ghost var runs := Runs(cfg, pillowAvailable, records);
    ghost var start := cloud.State();
    var i := 0;
    failure := None;
    while i < |records| && failure.None?
      invariant 0 <= i <= |records|
      invariant cloud.State() == start.Then(RunAll(runs[..i]).effects)
      invariant failure == RunAll(runs[..i]).error
    {
      ghost var done := RunAll(runs[..i]);
      failure := ProcessRecord(cloud, cfg, pillowAvailable, records[i]);
      RunAllSnoc(runs, i);
      ThenAssociative(start, done.effects, runs[i].effects);
      i := i + 1;
    }
    RunAllSplit(runs, i);
    assert runs[..|runs|] == runs;
  }

  /** `lambda_handler`: the loop inside the try block, then the except block, which re-raises. */
  method LambdaHandler(cloud: Cloud, cfg: Config, pillowAvailable: bool, records: seq<Arrival>,
                       failureNoticeDelivered: bool)
    returns (response: Response)
    modifies cloud
    ensures cloud.State() ==
      old(cloud.State()).Then(Handle(cfg, pillowAvailable, records, failureNoticeDelivered).effects)
    ensures response == Handle(cfg, pillowAvailable, records, failureNoticeDelivered).response
  {
    ghost var start := cloud.State();
    ghost var run := RunAll(Runs(cfg, pillowAvailable, records));
    var failure := ProcessRecords(cloud, cfg, pillowAvailable, records);
    if failure.None? {
      return Completed(pillowAvailable);
    }
    ReportFailure(cloud, cfg, failure.value, failureNoticeDelivered);
    ThenAssociative(start, run.effects, FailureReport(cfg, failure.value, failureNoticeDelivered));
    return Raised(failure.value);
  }

  // ---------------------------------------------------------------------------
  // The batch

  lemma CombineAssociative(a: Run, b: Run, c: Run)
    ensures Combine(a, Combine(b, c)) == Combine(Combine(a, b), c)
  {
  }

  /** Running the runs is running a prefix, then (unless the prefix raised) the rest. */
  lemma {:induction false} RunAllSplit(runs: seq<Run>, i: nat)
    requires i <= |runs|
    ensures RunAll(runs) == Combine(RunAll(runs[..i]), RunAll(runs[i..]))
    decreases i
  {
    if i == 0 {
      assert runs[..0] == [] && runs[0..] == runs;
      assert NoEffects.Then(RunAll(runs).effects) == RunAll(runs).effects;
    } else {
      RunAllSplit(runs[1..], i - 1);
      assert runs[1..][..i - 1] == runs[..i][1..];
      assert runs[1..][i - 1..] == runs[i..];
      CombineAssociative(runs[0], RunAll(runs[..i][1..]), RunAll(runs[i..]));
    }
  }

  /** One more run after a prefix that raised nothing. */
  lemma RunAllSnoc(runs: seq<Run>, i: nat)
    requires i < |runs| && RunAll(runs[..i]).error.None?
    ensures RunAll(runs[..i + 1]) == Run(RunAll(runs[..i]).effects.Then(runs[i].effects), runs[i].error)
  {
    RunAllSplit(runs[..i + 1], i);
    assert runs[..i + 1][..i] == runs[..i];
    assert runs[..i + 1][i..] == [runs[i]];
    assert [runs[i]][1..] == [];
    assert runs[i].effects.Then(NoEffects) == runs[i].effects;
  }

  /** When no run raises, the batch performs every run's effects in order and raises nothing. */
  lemma {:induction false} AllCompleteRunsEvery(runs: seq<Run>)
    requires forall i | 0 <= i < |runs| :: runs[i].error.None?
    ensures RunAll(runs) == Run(Concat(runs), None)
    decreases |runs|
  {
    if runs != [] {
      assert runs[0].error.None?;
      AllCompleteRunsEvery(runs[1..]);
    }
  }

  /**
   * When run k is the first to raise, the effects of runs 0..k-1 stay, run
   * k's partial effects follow, nothing after it runs, and its exception is
   * the batch's.
   */
  lemma StopsAtFirstFailure(runs: seq<Run>, k: nat)
    requires k < |runs|
    requires forall i | 0 <= i < k :: runs[i].error.None?
    requires runs[k].error.Some?
    ensures RunAll(runs) == Run(Concat(runs[..k]).Then(runs[k].effects), runs[k].error)
  {
    var prefix, rest := runs[..k], runs[k..];
    assert RunAll(prefix) == Run(Concat(prefix), None) by {
      AllCompleteRunsEvery(prefix);
    }
    assert RunAll(rest) == runs[k] by {
      assert rest[0] == runs[k];
    }
    assert RunAll(runs) == Combine(RunAll(prefix), RunAll(rest)) by {
      RunAllSplit(runs, k);
    }
  }

  /** The batch raises nothing exactly when no run raises. */
  lemma {:induction false} RunAllCompletesIff(runs: seq<Run>)
    ensures RunAll(runs).error.None? <==> forall i | 0 <= i < |runs| :: runs[i].error.None?
    decreases |runs|
  {
    if runs != [] {
      RunAllCompletesIff(runs[1..]);
      if runs[0].error.None? && RunAll(runs[1..]).error.None? {
        forall i | 0 <= i < |runs|
          ensures runs[i].error.None?
        {
          if i > 0 {
            assert runs[i] == runs[1..][i - 1];
          }
        }
      }
    }
  }

  /** Status code 200 is returned exactly when every record completed. */
  lemma HandleCompletesIff(cfg: Config, pillowAvailable: bool, records: seq<Arrival>, failureNoticeDelivered: bool)
    ensures Handle(cfg, pillowAvailable, records, failureNoticeDelivered).response == Completed(pillowAvailable) <==>
      forall i | 0 <= i < |records| :: Completes(cfg, pillowAvailable, records[i])
  {
    RunAllCompletesIff(Runs(cfg, pillowAvailable, records));
  }

  /**
   * When every record completes, the handler performs every record's effects
   * in order and returns status code 200.
   */
  lemma HandleSucceeds(cfg: Config, pillowAvailable: bool, records: seq<Arrival>, failureNoticeDelivered: bool)
    requires forall i | 0 <= i < |records| :: Completes(cfg, pillowAvailable, records[i])
    ensures Handle(cfg, pillowAvailable, records, failureNoticeDelivered) ==
      Outcome(Concat(Runs(cfg, pillowAvailable, records)), Completed(pillowAvailable))
  {
    AllCompleteRunsEvery(Runs(cfg, pillowAvailable, records));
  }

  /**
   * When record k is the first to raise, the handler keeps the effects of the
   * records before it and record k's partial effects, adds at most the
   * failure message, and re-raises record k's exception.
   */
  lemma HandleReRaises(cfg: Config, pillowAvailable: bool, records: seq<Arrival>, failureNoticeDelivered: bool,
                       k: nat)
    requires k < |records|
    requires forall i | 0 <= i < k :: Completes(cfg, pillowAvailable, records[i])
    requires !Completes(cfg, pillowAvailable, records[k])
    ensures var runs := Runs(cfg, pillowAvailable, records);
      var e := RunEvent(cfg, pillowAvailable, records[k]).error.value;
      Handle(cfg, pillowAvailable, records, failureNoticeDelivered) ==
      Outcome(Concat(runs[..k]).Then(RunEvent(cfg, pillowAvailable, records[k]).effects)
                .Then(FailureReport(cfg, e, failureNoticeDelivered)),
              Raised(e))
  {
    StopsAtFirstFailure(Runs(cfg, pillowAvailable, records), k);
  }

  /** Number of failure messages in a sequence of published messages. */
  function FailureNotices(ms: seq<Message>): nat
    decreases |ms|
  {
    if ms == [] then 0
    else (if ms[0].notice.FailedNotice? then 1 else 0) + FailureNotices(ms[1..])
  }

  lemma {:induction false} FailureNoticesAppend(a: seq<Message>, b: seq<Message>)
    ensures FailureNotices(a + b) == FailureNotices(a) + FailureNotices(b)
    decreases |a|
  {
    if a == [] {
      assert a + b == b;
    } else {
      FailureNoticesAppend(a[1..], b);
      assert (a + b)[0] == a[0];
      assert (a + b)[1..] == a[1..] + b;
    }
  }

  /** A record publishes only success messages. */
  lemma EventPublishesNoFailure(cfg: Config, pillowAvailable: bool, a: Arrival)
    ensures FailureNotices(RunEvent(cfg, pillowAvailable, a).effects.messages) == 0
  {
    var ms := RunEvent(cfg, pillowAvailable, a).effects.messages;
    if ms != [] {
      assert ms[1..] == [];
    }
  }

  /** Runs that publish no failure message combine into a batch that publishes none. */
  lemma {:induction false} RunAllPublishesNoFailure(runs: seq<Run>)
    requires forall i | 0 <= i < |runs| :: FailureNotices(runs[i].effects.messages) == 0
    ensures FailureNotices(RunAll(runs).effects.messages) == 0
    decreases |runs|
  {
    if runs != [] {
      assert FailureNotices(runs[0].effects.messages) == 0;
      if runs[0].error.None? {
        RunAllPublishesNoFailure(runs[1..]);
        FailureNoticesAppend(runs[0].effects.messages, RunAll(runs[1..]).effects.messages);
      }
    }
  }

  /**
   * One failure message is published exactly when the batch raised, a topic
   * is configured and publishing it succeeded; otherwise none.
   */
  lemma AtMostOneFailureNotice(cfg: Config, pillowAvailable: bool, records: seq<Arrival>, failureNoticeDelivered: bool)
    ensures var o := Handle(cfg, pillowAvailable, records, failureNoticeDelivered);
      FailureNotices(o.effects.messages) ==
        if o.response.Raised? && cfg.topic != "" && failureNoticeDelivered then 1 else 0
  {
    var runs := Runs(cfg, pillowAvailable, records);
    forall i | 0 <= i < |runs|
      ensures FailureNotices(runs[i].effects.messages) == 0
    {
      EventPublishesNoFailure(cfg, pillowAvailable, records[i]);
    }
    RunAllPublishesNoFailure(runs);
    var run := RunAll(runs);
    if run.error.Some? {
      var report := FailureReport(cfg, run.error.value, failureNoticeDelivered);
      FailureNoticesAppend(run.effects.messages, report.messages);
      if report.messages != [] {
        assert report.messages[1..] == [];
      }
    }
  }

  /** Runs that each wrote one object and one item give one of each per run, in order. */
  lemma {:induction false} OnePerRun(runs: seq<Run>)
    requires forall i | 0 <= i < |runs| :: |runs[i].effects.objects| == 1 && |runs[i].effects.writes| == 1
    ensures var e := Concat(runs);
      |e.objects| == |runs| && |e.writes| == |runs|
      && forall i | 0 <= i < |runs| :: e.objects[i] == runs[i].effects.objects[0] && e.writes[i] == runs[i].effects.writes[0]
    decreases |runs|
  {
    if runs != [] {
      assert |runs[0].effects.objects| == 1 && |runs[0].effects.writes| == 1;
      OnePerRun(runs[1..]);
      var e := Concat(runs);
      forall i | 0 <= i < |runs|
        ensures e.objects[i] == runs[i].effects.objects[0] && e.writes[i] == runs[i].effects.writes[0]
      {
        if i > 0 {
          assert runs[i] == runs[1..][i - 1];
        }
      }
    }
  }

  /** Every record of a batch completes: then every run wrote one object and one item. */
  lemma CompletedRuns(cfg: Config, pillowAvailable: bool, records: seq<Arrival>)
    requires forall i | 0 <= i < |records| :: Completes(cfg, pillowAvailable, records[i])
    ensures var runs := Runs(cfg, pillowAvailable, records);
      forall i | 0 <= i < |runs| :: |runs[i].effects.objects| == 1 && |runs[i].effects.writes| == 1
  {
    var runs := Runs(cfg, pillowAvailable, records);
    forall i | 0 <= i < |runs|
      ensures |runs[i].effects.objects| == 1 && |runs[i].effects.writes| == 1
    {
      CompletedRecordEffects(cfg, pillowAvailable, records[i]);
    }
  }

  /** A batch in which every record completes writes one object and one item per record, in order. */
  lemma OneItemPerRecord(cfg: Config, pillowAvailable: bool, records: seq<Arrival>, failureNoticeDelivered: bool)
    requires forall i | 0 <= i < |records| :: Completes(cfg, pillowAvailable, records[i])
    ensures var runs := Runs(cfg, pillowAvailable, records);
      forall i | 0 <= i < |runs| :: |runs[i].effects.objects| == 1 && |runs[i].effects.writes| == 1
    ensures var e := Handle(cfg, pillowAvailable, records, failureNoticeDelivered).effects;
      var runs := Runs(cfg, pillowAvailable, records);
      |e.objects| == |records| && |e.writes| == |records|
      && forall i | 0 <= i < |records| ::
           e.objects[i] == runs[i].effects.objects[0] && e.writes[i] == runs[i].effects.writes[0]
  {
    CompletedRuns(cfg, pillowAvailable, records);
    OnePerRun(Runs(cfg, pillowAvailable, records));
    HandleSucceeds(cfg, pillowAvailable, records, failureNoticeDelivered);
  }

  // ---------------------------------------------------------------------------
  // One record

  /**
   * A completed record wrote one object, one item and, when a topic is
   * configured, one message; a record never writes an item without an object.
   */
  lemma CompletedRecordEffects(cfg: Config, pillowAvailable: bool, a: Arrival)
    ensures var e := RunEvent(cfg, pillowAvailable, a).effects;
      |e.objects| <= 1 && |e.writes| <= |e.objects| && |e.messages| <= |e.writes|
    ensures Completes(cfg, pillowAvailable, a) ==>
      var e := RunEvent(cfg, pillowAvailable, a).effects;
      |e.objects| == 1 && |e.writes| == 1 && |e.messages| == (if cfg.topic == "" then 0 else 1)
  {
  }

  /** Where the object and the item of a record that wrote an item come from. */
  lemma RecordedShape(cfg: Config, pillowAvailable: bool, a: Arrival)
    requires RunEvent(cfg, pillowAvailable, a).effects.writes != []
    ensures a.world.fetch.Fetched?
    ensures var ct := a.world.fetch.contentType.GetOr(DefaultContentType);
      var w := Output(cfg, pillowAvailable, a, a.world.fetch.length, ct);
      var e := RunEvent(cfg, pillowAvailable, a).effects;
      w.Some? && e.objects == [w.value.stored]
      && e.writes == [ItemWrite(cfg.table, ItemOf(cfg, pillowAvailable, a, a.world.fetch.length, ct, w.value))]
  {
  }

  /** The fields of the item built for a record. */
  lemma ItemFields(cfg: Config, pillowAvailable: bool, a: Arrival, originalSize: nat, contentType: string, w: Written)
    requires w.dimensions.Keys <= DimensionFields
    ensures var item := ItemOf(cfg, pillowAvailable, a, originalSize, contentType, w);
      item.Keys == RecordFields + w.dimensions.Keys
      && item[StatusField] == Str(Status(pillowAvailable)) && item[PillowUsed] == Flag(pillowAvailable)
      && item[OriginalKey] == Str(a.key) && item[ProcessedKey] == Str(DestinationKey(a.key))
      && item[ProcessedBucket] == Str(cfg.resizedBucket) && item[ContentType] == Str(contentType)
      && item[OriginalSize] == Num(originalSize) && item[ResizedSize] == Num(w.resizedSize)
      && item[ImageId] == Str(a.world.imageId) && item[OriginalBucket] == Str(a.bucket)
      && item[ProcessedAt] == Str(a.world.processedAt)
      && forall f | f in w.dimensions :: item[f] == w.dimensions[f]
  {
    var base := BaseItem(a.world.imageId, a.bucket, a.key, cfg.resizedBucket, DestinationKey(a.key),
                         originalSize, w.resizedSize, contentType, a.world.processedAt, pillowAvailable);
    var item := ItemOf(cfg, pillowAvailable, a, originalSize, contentType, w);
    assert item == Merge(base, w.dimensions);
    MergeKeepsRecordFields(base, w.dimensions);
  }

  /** `status` is "resized" exactly when Pillow is available, and `pillow_used` is that flag. */
  lemma RecordedStatus(cfg: Config, pillowAvailable: bool, a: Arrival)
    requires RunEvent(cfg, pillowAvailable, a).effects.writes != []
    ensures var item := RunEvent(cfg, pillowAvailable, a).effects.writes[0].item;
      StatusField in item && PillowUsed in item
      && (item[StatusField] == Str("resized") <==> pillowAvailable)
      && (item[StatusField] == Str("copied") <==> !pillowAvailable)
      && item[PillowUsed] == Flag(pillowAvailable)
  {
    RecordedShape(cfg, pillowAvailable, a);
    var ct := a.world.fetch.contentType.GetOr(DefaultContentType);
    ItemFields(cfg, pillowAvailable, a, a.world.fetch.length, ct,
               Output(cfg, pillowAvailable, a, a.world.fetch.length, ct).value);
  }

  /**
   * The item has the eleven record fields, plus the four dimension fields
   * exactly when the resized image was uploaded.
   */
  lemma RecordedFields(cfg: Config, pillowAvailable: bool, a: Arrival)
    requires RunEvent(cfg, pillowAvailable, a).effects.writes != []
    ensures var e := RunEvent(cfg, pillowAvailable, a).effects;
      e.objects != []
      && e.writes[0].item.Keys == RecordFields + (if ResizeCompletes(cfg, pillowAvailable, a) then DimensionFields else {})
      && (e.objects[0].body.Encoded? <==> ResizeCompletes(cfg, pillowAvailable, a))
  {
    RecordedShape(cfg, pillowAvailable, a);
    var ct := a.world.fetch.contentType.GetOr(DefaultContentType);
    var w := Output(cfg, pillowAvailable, a, a.world.fetch.length, ct).value;
    if ResizeCompletes(cfg, pillowAvailable, a) {
      assert w.stored.body.Encoded? && w.dimensions.Keys == DimensionFields;
    } else {
      assert w.stored.body.CopyOf? && w.dimensions == map[];
    }
  }

  /** The dimension fields record the image's size and the size `Fit` computes for it. */
  lemma RecordedDimensions(cfg: Config, pillowAvailable: bool, a: Arrival)
    requires RunEvent(cfg, pillowAvailable, a).effects.writes != []
    requires ResizeCompletes(cfg, pillowAvailable, a)
    ensures a.world.probe.Opened? && a.world.probe.height > 0
    ensures var item := RunEvent(cfg, pillowAvailable, a).effects.writes[0].item;
      var w := a.world.probe.width;
      var h := a.world.probe.height;
      var r := Fit(w, h, cfg.maxWidth, cfg.maxHeight);
      DimensionFields <= item.Keys
      && item[OriginalWidth] == Num(w) && item[OriginalHeight] == Num(h)
      && item[ResizedWidth] == Num(r.width) && item[ResizedHeight] == Num(r.height)
  {
    RecordedShape(cfg, pillowAvailable, a);
    var ct := a.world.fetch.contentType.GetOr(DefaultContentType);
    var w := Output(cfg, pillowAvailable, a, a.world.fetch.length, ct).value;
    var rd := Render(cfg, a.world.probe, a.world.encoded).value;
    var d := DimensionsOf(rd.original, rd.target);
    assert w.dimensions == d;
    var item := ItemOf(cfg, pillowAvailable, a, a.world.fetch.length, ct, w);
    assert item.Keys == RecordFields + DimensionFields;
    assert d[OriginalWidth] == Num(rd.original.width) && d[OriginalHeight] == Num(rd.original.height);
    assert d[ResizedWidth] == Num(rd.target.width) && d[ResizedHeight] == Num(rd.target.height);
  }

  /** On either copy path the object stored is a verbatim copy of the original. */
  lemma CopyIsVerbatim(cfg: Config, pillowAvailable: bool, a: Arrival)
    requires RunEvent(cfg, pillowAvailable, a).effects.writes != []
    requires !ResizeCompletes(cfg, pillowAvailable, a)
    ensures var e := RunEvent(cfg, pillowAvailable, a).effects;
      e.objects != [] && e.objects[0].body == CopyOf(a.bucket, a.key)
  {
    RecordedShape(cfg, pillowAvailable, a);
  }

  /** On either copy path `resized_size` equals `original_size` and no dimension field is recorded. */
  lemma CopyKeepsSize(cfg: Config, pillowAvailable: bool, a: Arrival)
    requires RunEvent(cfg, pillowAvailable, a).effects.writes != []
    requires !ResizeCompletes(cfg, pillowAvailable, a)
    ensures a.world.fetch.Fetched?
    ensures var item := RunEvent(cfg, pillowAvailable, a).effects.writes[0].item;
      ResizedSize in item && OriginalSize in item
      && item[ResizedSize] == item[OriginalSize] == Num(a.world.fetch.length)
      && item.Keys !! DimensionFields
  {
    RecordedShape(cfg, pillowAvailable, a);
    var ct := a.world.fetch.contentType.GetOr(DefaultContentType);
    var w := Output(cfg, pillowAvailable, a, a.world.fetch.length, ct).value;
    assert w.dimensions == map[];
    ItemFields(cfg, pillowAvailable, a, a.world.fetch.length, ct, w);
    FieldSetsDisjoint();
  }

  /**
   * Pillow available but the resize path raised: the copy is still recorded
   * with status "resized", without dimensions, and the plain message is sent.
   */
  lemma FailedResizeStillRecordedResized(cfg: Config, a: Arrival)
    requires a.world.fetch.Fetched? && a.world.copyOk && a.world.putItemOk && a.world.publishOk
    requires !ResizeCompletes(cfg, true, a)
    ensures var r := RunEvent(cfg, true, a);
      r.error.None?
      && r.effects.objects == [StoredObject(cfg.resizedBucket, DestinationKey(a.key), CopyOf(a.bucket, a.key),
                                            a.world.fetch.contentType.GetOr(DefaultContentType))]
      && r.effects.writes[0].item[StatusField] == Str("resized")
      && r.effects.writes[0].item.Keys == RecordFields
      && (cfg.topic != "" ==> r.effects.messages[0].notice.ProcessedNotice?)
  {
  }

  /**
   * The object, the item's `processed_bucket`/`processed_key` and the message
   * all use the same destination, derived from the source key on every path;
   * the item goes to the configured table.
   */
  lemma SameDestinationEverywhere(cfg: Config, pillowAvailable: bool, a: Arrival)
    requires RunEvent(cfg, pillowAvailable, a).effects.writes != []
    ensures var e := RunEvent(cfg, pillowAvailable, a).effects;
      var item := e.writes[0].item;
      e.objects != []
      && e.objects[0].bucket == cfg.resizedBucket && e.objects[0].key == DestinationKey(a.key)
      && e.writes[0].table == cfg.table
      && ProcessedBucket in item && item[ProcessedBucket] == Str(cfg.resizedBucket)
      && ProcessedKey in item && item[ProcessedKey] == Str(DestinationKey(a.key))
      && OriginalKey in item && item[OriginalKey] == Str(a.key)
      && (e.messages != [] ==> e.messages[0].notice.newKey == DestinationKey(a.key))
  {
    RecordedShape(cfg, pillowAvailable, a);
    var ct := a.world.fetch.contentType.GetOr(DefaultContentType);
    ItemFields(cfg, pillowAvailable, a, a.world.fetch.length, ct,
               Output(cfg, pillowAvailable, a, a.world.fetch.length, ct).value);
  }

  /**
   * The content type is the source's, or "image/jpeg" when it has none, and
   * the same value goes on the object and into the item.
   */
  lemma SameContentType(cfg: Config, pillowAvailable: bool, a: Arrival)
    requires RunEvent(cfg, pillowAvailable, a).effects.writes != []
    ensures var e := RunEvent(cfg, pillowAvailable, a).effects;
      var ct := if a.world.fetch.contentType.Some? then a.world.fetch.contentType.value else "image/jpeg";
      e.objects != [] && e.objects[0].contentType == ct
      && ContentType in e.writes[0].item && e.writes[0].item[ContentType] == Str(ct)
  {
    RecordedShape(cfg, pillowAvailable, a);
    var ct := a.world.fetch.contentType.GetOr(DefaultContentType);
    ItemFields(cfg, pillowAvailable, a, a.world.fetch.length, ct,
               Output(cfg, pillowAvailable, a, a.world.fetch.length, ct).value);
  }

  /**
   * The success message goes to the configured topic and is the detailed
   * variant exactly when the resized image was uploaded.
   */
  lemma SuccessNoticeVariant(cfg: Config, pillowAvailable: bool, a: Arrival)
    requires RunEvent(cfg, pillowAvailable, a).effects.messages != []
    ensures var m := RunEvent(cfg, pillowAvailable, a).effects.messages[0];
      cfg.topic != "" && m.topic == cfg.topic && !m.notice.FailedNotice?
      && (m.notice.ResizedNotice? <==> ResizeCompletes(cfg, pillowAvailable, a))
  {
  }

  /** Without Pillow every object is a verbatim copy recorded as "copied" without dimensions. */
  lemma WithoutPillowCopies(cfg: Config, a: Arrival)
    requires RunEvent(cfg, false, a).effects.writes != []
    ensures var e := RunEvent(cfg, false, a).effects;
      e.objects != [] && e.objects[0].body == CopyOf(a.bucket, a.key)
      && e.writes[0].item[StatusField] == Str("copied")
      && e.writes[0].item.Keys == RecordFields
  {
  }

  /**
   * What a record leaves behind when a step raises. When `get_object` raises
   * (line 38) nothing is stored. When `put_item` raises (line 145) the stored
   * object stays and nothing follows it. When the success publish raises
   * (line 187) the object and the item stay and no message is sent. Any
   * object stored is `Output`'s.
   */
  lemma FailedStepEffects(cfg: Config, pillowAvailable: bool, a: Arrival)
    ensures a.world.fetch.FetchFailed? ==> RunEvent(cfg, pillowAvailable, a) == Run(NoEffects, Some(GetObjectFailed))
    ensures var e := RunEvent(cfg, pillowAvailable, a).effects;
      e.objects != [] ==>
        a.world.fetch.Fetched?
        && var w := Output(cfg, pillowAvailable, a, a.world.fetch.length, a.world.fetch.contentType.GetOr(DefaultContentType));
        w.Some? && e.objects == [w.value.stored]
    ensures var r := RunEvent(cfg, pillowAvailable, a);
      r.error == Some(PutItemFailed) <==> r.effects.objects != [] && !a.world.putItemOk
    ensures var r := RunEvent(cfg, pillowAvailable, a);
      r.error == Some(PutItemFailed) ==> |r.effects.objects| == 1 && r.effects.writes == [] && r.effects.messages == []
    ensures var r := RunEvent(cfg, pillowAvailable, a);
      r.error == Some(PublishFailed) <==> r.effects.writes != [] && cfg.topic != "" && !a.world.publishOk
    ensures var r := RunEvent(cfg, pillowAvailable, a);
      r.error == Some(PublishFailed) ==> |r.effects.objects| == 1 && |r.effects.writes| == 1 && r.effects.messages == []
  {
  }

  /** A record's published message is the success message of line 150, sent to the configured topic. */
  lemma PublishedSuccessNotice(cfg: Config, pillowAvailable: bool, a: Arrival)
    requires RunEvent(cfg, pillowAvailable, a).effects.messages != []
    ensures a.world.fetch.Fetched?
    ensures var ct := a.world.fetch.contentType.GetOr(DefaultContentType);
      var w := Output(cfg, pillowAvailable, a, a.world.fetch.length, ct);
      w.Some? && RunEvent(cfg, pillowAvailable, a).effects.messages
        == [Message(cfg.topic, SuccessNotice(pillowAvailable, a, a.world.fetch.length, w.value))]
  {
  }

  /** When the copy raises, nothing is written for the record and `copy_object`'s exception escapes. */
  lemma FailedCopyWritesNothing(cfg: Config, pillowAvailable: bool, a: Arrival)
    requires a.world.fetch.Fetched? && !a.world.copyOk && !ResizeCompletes(cfg, pillowAvailable, a)
    ensures RunEvent(cfg, pillowAvailable, a) == Run(NoEffects, Some(CopyObjectFailed))
  {
  }
}
