# Image resize handler: a Dafny model

The system is a serverless image ingestion handler (`lambda_function.py`).
An object-created event carries a batch of records. For each record, in
order, the handler:

1. fetches the object from the source bucket;
2. derives the destination key `name + "_resized" + ext`, using POSIX
   `os.path.splitext`;
3. resizes the image with Pillow to the size `Fit` computes from the
   configured box (default 800×600), which can fall outside that box, and
   uploads it. It copies the original verbatim instead when Pillow cannot
   be imported or any step of the resize path raises;
4. writes a metadata item to the table;
5. publishes a success message when a topic is configured.

The first exception that escapes a record ends the batch. When a topic is
configured, a failure message is then attempted, and any error publishing it
is swallowed. The exception is
re-raised. When every record completes, the handler returns status code 200
together with the Pillow flag.

The project has six modules:

- `Geometry` (`geometry.dfy`): the target size of a resize.
- `Keys` (`keys.dfy`): `splitext` and the destination key.
- `Metadata` (`metadata.dfy`): the metadata item and the `dimensions` dictionary.
- `Services` (`services.dfy`): the object store, the table and the topic.
  They form a `Cloud` class whose fields are the sequences of stored objects,
  written items and published messages. Every service call may raise, and
  the environment decides whether it does.
- `Handler` (`handler.dfy`): the specification functions. `RunEvent` gives the
  run of one record, `RunAll` the loop over a batch and `Handle` the whole
  invocation. The module also holds the imperative handler
  (`ProcessRecord`, `ProcessRecords`, `LambdaHandler`), which is proved equal
  to those functions, and the lemmas about them.
- `Wrappers` (`wrappers.dfy`): `Option`.

What the outside world answers for one record is an input of that record
(`Responses`). This covers what `get_object` returns, what Pillow makes of
the bytes, which service calls raise, and the uuid and timestamp.

The model follows the code where its behaviour is easy to misread:

- `status` depends only on whether Pillow could be imported (line 137). A
  resize that raised and fell back to a copy is recorded as `"resized"`
  without dimension fields. So `"resized"` does not imply that dimensions
  are present, and a fallback copy is not recorded as `"copied"`.
- The upload of the resized bytes (lines 83-88) sits inside the resize `try`.
  When it raises, the handler falls back to a copy; it does not fail the
  object.
- Only the failure message's publish is guarded (lines 210-217). When the
  success message's publish raises (line 187), the item is already written,
  and the exception aborts the batch like any other.
- The resize size does not always fit the box (lines 58-66). Only the
  branch's own dimension is set to the maximum. The other one is never
  checked, so a landscape image can come out taller than the maximum height
  (900×800 becomes 800×711 in an 800×600 box). An image just over the box
  can be enlarged (700×650 becomes 800×742). When the box is taller than it
  is wide, the portrait branch can enlarge too (700×700 becomes 800×800 in a
  600×800 box).
- The first failing record stops the batch: later records are not processed
  and the exception is re-raised (line 219). No record after it is attempted.

## Model

| member | source | states |
|---|---|---|
| Geometry.FloorDiv | lambda_function.py:61-64 | `int(...)` of a non-negative quotient is the floor: q·d ≤ n < (q+1)·d |
| Geometry.Fit | lambda_function.py:56-66 | an image that fits keeps its size; otherwise landscape (w > h) gets width maxWidth and the floored height maxWidth·h/w, and the rest get height maxHeight and the floored width maxHeight·w/h |
| Geometry.LandscapeHeightBelowMaxWidth | lambda_function.py:59-61 | in the landscape branch the new height is strictly below the maximum width |
| Geometry.PortraitWidthAtMostMaxHeight | lambda_function.py:62-64 | in the portrait branch the new width is at most the maximum height |
| Geometry.LandscapeWithinHeightIff | lambda_function.py:58-61 | the landscape result stays within the maximum height iff maxWidth·h < (maxHeight+1)·w; nothing in the code checks this |
| Geometry.PortraitWithinWidthIff | lambda_function.py:58-64 | the portrait result stays within the maximum width iff maxHeight·w < (maxWidth+1)·h |
| Geometry.DefaultBoxScenarios | lambda_function.py:14-15 | in the default 800×600 box: 1600×1200 → 800×600, 600×1200 → 300×600, 400×300 unchanged |
| Geometry.UnguardedEdges | lambda_function.py:58-66 | 900×800 → 800×711 (over the maximum height); 700×650 → 800×742 (enlarged); a 600×800 box enlarges 700×700 to 800×800; 1000×1 → 800×0 and 1×1000 → 0×600 |
| Keys.SplitExt | lambda_function.py:43 | name + ext is the key; ext is empty or a '.' followed by neither '.' nor '/' |
| Keys.SplitExtEmptyIff | lambda_function.py:43 | the extension is empty exactly when, in the last path segment, only dots precede every dot |
| Keys.DestinationKey | lambda_function.py:44 | the destination key is the source key lengthened by the eight characters of `_resized` |
| Keys.DestinationKeyKeepsExtension | lambda_function.py:43-44 | splitting the destination key gives the source stem with `_resized` appended and the same extension |
| Keys.SourceKeyRoundTrip | lambda_function.py:43-44 | the source key is recovered from its destination key: the derivation is injective |
| Keys.DestinationKeyOfJpg | test_pipeline.py:25 | for `stem + ".jpg"` whose stem's last path segment holds a character other than '.', the destination is `stem + "_resized.jpg"`, as the pipeline test expects |
| Keys.HiddenNameHasNoExtension | lambda_function.py:43-44 | a hidden name has no extension: `.jpg` becomes `.jpg_resized` |
| Metadata.DimensionsOf | lambda_function.py:93-98 | the `dimensions` dictionary holds exactly the four dimension fields |
| Metadata.NameInjective | lambda_function.py:128-138 | distinct fields have distinct attribute names, so the fields stand for the item's string keys |
| Metadata.Status | lambda_function.py:137 | the status is "resized" iff Pillow is available and "copied" otherwise |
| Metadata.BaseItem | lambda_function.py:127-139 | the item literal holds exactly the eleven record fields |
| Metadata.Merge | lambda_function.py:142-143 | `update` gives the union of the keys, dimension values win, the other fields keep their values |
| Metadata.MergeKeepsRecordFields | lambda_function.py:142-143 | merging the dimension fields leaves every record field present and unchanged |
| Services.Cloud.PutObject | lambda_function.py:83-88 | on success exactly one encoded object is appended to the store, otherwise nothing changes |
| Services.Cloud.CopyObject | lambda_function.py:103-108 | on success exactly one verbatim copy is appended to the store, otherwise nothing changes |
| Services.Cloud.PutItem | lambda_function.py:145 | on success exactly one item is appended to the table, otherwise nothing changes |
| Services.Cloud.Publish | lambda_function.py:187-191 | on success exactly one message is appended to the topic, otherwise nothing changes |
| Handler.Render | lambda_function.py:50-80 | the resize path yields nothing exactly when the image cannot be opened, its height is 0 (`aspect_ratio` divides by zero) or resizing or saving raises; otherwise the original size, `Fit`'s target and the encoded length |
| Handler.ResizeCompletes | lambda_function.py:47-98 | the resize path completes iff Pillow is available, the image opens with a positive height, the re-encoding succeeds and the upload succeeds |
| Handler.Output | lambda_function.py:47-121 | the object goes to the destination bucket and key with the record's content type; it is the resized upload iff the resize path completes, and then its body and `resized_size` are the re-encoded length and `dimensions` holds the image's size and `Fit`'s target; a copy is the original's bytes with resized_size = original_size and no dimensions; nothing is stored iff both the resize path and the copy fail |
| Handler.ItemOf | lambda_function.py:127-143 | the item's keys are the record fields plus the keys of `dimensions` |
| Handler.SuccessNotice | lambda_function.py:149-185 | the detailed message iff Pillow is available and `dimensions` is non-empty; both variants report the source key, the destination key, the original size and the image id; the detailed one also reports the dimensions and the resized size |
| Handler.Record | lambda_function.py:123-193 | no object is stored; `put_item` failing raises and writes nothing; otherwise the one item goes to the table, then the success message exactly when a topic is configured and the publish succeeds; the record completes iff the item is written and, with a topic, the message is published |
| Handler.RunEvent | lambda_function.py:32-195 | a record stores at most one object, an item only after an object and a message only after an item; the fetch fails exactly with `GetObjectFailed`; the copy fails exactly when the object was fetched and nothing was stored |
| Handler.RunAll | lambda_function.py:31 | when no exception escapes the loop, its effects are every run's effects in order |
| Handler.FailureReport | lambda_function.py:209-217 | no object or item; one failure message with the exception iff a topic is configured and its publish succeeds |
| Handler.Handle | lambda_function.py:20-219 | the invocation stores exactly the loop's objects and items, and raises exactly when the loop raised |
| Handler.Conclude | lambda_function.py:197-219 | after the loop only a failure message may be added; the exception is re-raised iff the loop raised, otherwise 200 is returned with the Pillow flag |
| Handler.StoreOutput | lambda_function.py:47-121 | the method stores exactly the object `Output` describes, and nothing when the copy raises |
| Handler.BuildItem | lambda_function.py:124-143 | the item built in place equals the literal merged with `dimensions` |
| Handler.RecordAndNotify | lambda_function.py:145-193 | the item write, then the success message, with the exception that escapes when either raises |
| Handler.ProcessRecord | lambda_function.py:32-195 | one pass of the loop body performs exactly the record's run and reports its exception |
| Handler.ReportFailure | lambda_function.py:208-217 | the failure message is published when a topic is configured and publishing succeeds; a failed publish changes nothing and is swallowed |
| Handler.ProcessRecords | lambda_function.py:31-195 | the loop performs the records' runs in order up to and including the first that raises, and returns that exception |
| Handler.LambdaHandler | lambda_function.py:17-219 | the new state and the response are those of `Handle`: the loop, then the failure message and the re-raise |
| Handler.RunAllSplit | lambda_function.py:31 | a batch is its prefix followed, unless the prefix raised, by the rest |
| Handler.AllCompleteRunsEvery | lambda_function.py:31 | when no run raises, the batch performs every run's effects in order |
| Handler.StopsAtFirstFailure | lambda_function.py:31-219 | when run k is the first to raise, runs 0..k-1 stay, run k's partial effects (as `FailedStepEffects` states them) follow, nothing later runs, and k's exception is the batch's |
| Handler.RunAllCompletesIff | lambda_function.py:31-203 | the batch raises nothing exactly when no run raises |
| Handler.HandleCompletesIff | lambda_function.py:197-203 | status code 200 is returned exactly when every record completes |
| Handler.HandleSucceeds | lambda_function.py:31-203 | when every record completes, every record's effects are performed in order and 200 is returned |
| Handler.HandleReRaises | lambda_function.py:205-219 | when record k is the first to raise, the effects of records 0..k-1 and k's partial effects (as `FailedStepEffects` states them) are kept, then at most the failure message, and k's exception is re-raised |
| Handler.EventPublishesNoFailure | lambda_function.py:149-193 | a record publishes no failure message |
| Handler.AtMostOneFailureNotice | lambda_function.py:209-217 | a batch publishes one failure message iff it raised, a topic is configured and the publish succeeded, else none |
| Handler.OneItemPerRecord | lambda_function.py:31-145 | when every record completes, whatever happens to the failure message, the batch stores one object and writes one item per record, in record order |
| Handler.CompletedRecordEffects | lambda_function.py:83-193 | a record stores at most one object, never an item without an object, never a message without an item; a completed record stores one of each, and one message iff a topic is configured |
| Handler.ItemFields | lambda_function.py:127-143 | the item has the record fields plus the dimension keys; every record field has its value (image id, both buckets and keys, sizes, content type, timestamp, status, Pillow flag), and the dimension fields their values |
| Handler.RecordedStatus | lambda_function.py:137-138 | `status` is "resized" iff Pillow is available and "copied" otherwise, and `pillow_used` is that flag |
| Handler.RecordedFields | lambda_function.py:127-143 | the item has the eleven record fields, plus the four dimension fields exactly when the resize path completed, which is exactly when the object is the resized upload |
| Handler.RecordedDimensions | lambda_function.py:93-98 | the dimension fields record the image's size and the size `Fit` computes for it |
| Handler.CopyIsVerbatim | lambda_function.py:100-121 | on either copy path the stored object is a copy of the original |
| Handler.CopyKeepsSize | lambda_function.py:100-121 | on either copy path resized_size = original_size = the fetched length, and no dimension field is recorded |
| Handler.FailedResizeStillRecordedResized | lambda_function.py:100-110 | with Pillow present but the resize path raising, the copy completes, is recorded as "resized" with only the record fields, and the plain message is sent |
| Handler.SameDestinationEverywhere | lambda_function.py:83-132 | the object, the item's processed bucket and key, and the message all use the derived destination; the item goes to the configured table |
| Handler.SameContentType | lambda_function.py:41-135 | the content type is the source's or "image/jpeg", and the same value goes on the object and into the item |
| Handler.SuccessNoticeVariant | lambda_function.py:149-191 | the success message goes to the configured topic and is the detailed variant exactly when the resized image was uploaded |
| Handler.WithoutPillowCopies | lambda_function.py:111-121 | without Pillow the object is a verbatim copy, recorded as "copied" with only the record fields |
| Handler.FailedCopyWritesNothing | lambda_function.py:103-108 | when the fallback copy raises, nothing is written for the record and the copy's exception escapes |
| Handler.FailedStepEffects | lambda_function.py:35-191 | a failed fetch leaves nothing; any stored object is `Output`'s; `put_item` raises exactly when an object was stored and the write fails, leaving that object alone; the success publish raises exactly when an item was written, a topic is set and the publish fails, leaving the object and the item but no message |
| Handler.PublishedSuccessNotice | lambda_function.py:149-191 | a record's one published message is `SuccessNotice` of that record's upload, sent to the configured topic |

## Left out

- The service calls (`get_object`, `put_object`, `copy_object`, `put_item`, `publish`) are network I/O. Each is modelled only by what it stores and by whether it raises, which is an input.
- Pillow's decoding, LANCZOS resize and re-encoding are a foreign library. The image's size and the byte count of the re-encoded image (or the fact that resizing or saving raised) are inputs. Whether a 0-pixel target raises is part of that input.
- The `ImportError` probe for Pillow is a boolean parameter.
- `aspect_ratio` is a float. The model uses the exact integer floor, and IEEE rounding could differ from it in rare cases.
- `uuid.uuid4()` and `datetime.utcnow()` are nondeterministic. They are per-record inputs.
- Log lines and the text of the messages are formatted floating-point display strings. A message is modelled by its variant and by the keys, sizes, dimensions and image id it reports. It leaves out the destination bucket that both success variants name (lines 167 and 180), the timestamp each message takes from its own `datetime.utcnow()` call (lines 169, 182 and 214), and the exception text of the failure message beyond which call raised. The log line at line 91 divides by `original_size`, so an empty object would raise after the upload and fall back to a copy. The model does not capture this: it would record the resized upload. No real input reaches that case, because Pillow cannot open an empty object, so `Opened` never comes with a zero length.
- Environment parsing (lines 11-15) is not modelled: the settings are a `Config` parameter. The maximum sizes are natural numbers, so negative settings are not modelled.
- Malformed events (a missing `Records`, `s3`, `bucket` or `key` entry) are not modelled. Such an event raises `KeyError` inside the `try`, which reports and re-raises it like any other exception.
- `load_test.py` is a concurrent S3 uploader. `test_pipeline.py` is a live smoke test; only its key rule at line 25 is modelled.
