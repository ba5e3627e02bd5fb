/**
 * The metadata item written to the table for each processed object
 * (lambda_function.py, lines 93-98 and 124-143). The item is a dictionary;
 * the four dimension fields are merged into it only when the resize path
 * produced them. Its keys are the fields below, each standing for the
 * attribute name `Name` gives.
 */
module Metadata {
  import opened Geometry

  datatype Field =
    | ImageId | OriginalBucket | OriginalKey | ProcessedBucket | ProcessedKey
    | OriginalSize | ResizedSize | ContentType | ProcessedAt | StatusField | PillowUsed
    | OriginalWidth | OriginalHeight | ResizedWidth | ResizedHeight

  /** The attribute name stored in the table. */
  function Name(f: Field): string {
    match f
    case ImageId => "image_id"
    case OriginalBucket => "original_bucket"
    case OriginalKey => "original_key"
    case ProcessedBucket => "processed_bucket"
    case ProcessedKey => "processed_key"
    case OriginalSize => "original_size"
    case ResizedSize => "resized_size"
    case ContentType => "content_type"
    case ProcessedAt => "processed_at"
    case StatusField => "status"
    case PillowUsed => "pillow_used"
    case OriginalWidth => "original_width"
    case OriginalHeight => "original_height"
    case ResizedWidth => "resized_width"
    case ResizedHeight => "resized_height"
  }

  /** A value stored in an item: a string, a number or a boolean. */
  datatype Value = Str(text: string) | Num(number: int) | Flag(flag: bool)

  type Item = map<Field, Value>

  /** The fields every item carries. */
  const RecordFields: set<Field> := {
    ImageId, OriginalBucket, OriginalKey, ProcessedBucket, ProcessedKey,
    OriginalSize, ResizedSize, ContentType, ProcessedAt, StatusField, PillowUsed
  }

  /** The fields of the `dimensions` dictionary. */
  const DimensionFields: set<Field> := {OriginalWidth, OriginalHeight, ResizedWidth, ResizedHeight}

  /** Content type used when the source object has none. */
  const DefaultContentType: string := "image/jpeg"

  /** The `dimensions` dictionary of a completed resize. */
  function DimensionsOf(original: Size, resized: Size): (d: Item)
    ensures d.Keys == DimensionFields
  {
    map[
      OriginalWidth := Num(original.width),
      OriginalHeight := Num(original.height),
      ResizedWidth := Num(resized.width),
      ResizedHeight := Num(resized.height)
    ]
  }

  /** The status string; it depends on whether Pillow could be imported, nothing else. */
  function Status(pillowAvailable: bool): (s: string)
    ensures s == "resized" <==> pillowAvailable
    ensures s == "copied" <==> !pillowAvailable
  {
    if pillowAvailable then "resized" else "copied"
  }

  /** The item as built before the optional merge of `dimensions`. */
  function BaseItem(
    imageId: string, originalBucket: string, originalKey: string,
    processedBucket: string, processedKey: string,
    originalSize: nat, resizedSize: nat, contentType: string, processedAt: string,
    pillowAvailable: bool): (item: Item)
    ensures item.Keys == RecordFields
  {
    map[
      ImageId := Str(imageId),
      OriginalBucket := Str(originalBucket),
      OriginalKey := Str(originalKey),
      ProcessedBucket := Str(processedBucket),
      ProcessedKey := Str(processedKey),
      OriginalSize := Num(originalSize),
      ResizedSize := Num(resizedSize),
      ContentType := Str(contentType),
      ProcessedAt := Str(processedAt),
      StatusField := Str(Status(pillowAvailable)),
      PillowUsed := Flag(pillowAvailable)
    ]
  }

  /**
   * `metadata_item.update(dimensions)`, which the handler performs only when
   * `dimensions` is non-empty (an update with an empty dictionary changes nothing).
   */
  function Merge(item: Item, dimensions: Item): (merged: Item)
    ensures merged.Keys == item.Keys + dimensions.Keys
    ensures forall f :: f in dimensions ==> merged[f] == dimensions[f]
    ensures forall f :: f in item && f !in dimensions ==> merged[f] == item[f]
  {
    item + dimensions
  }

  /** Merging the dimension fields into an item leaves its record fields as they were. */
  lemma MergeKeepsRecordFields(item: Item, dimensions: Item)
    requires item.Keys == RecordFields && dimensions.Keys <= DimensionFields
    ensures forall f | f in RecordFields :: f in Merge(item, dimensions) && Merge(item, dimensions)[f] == item[f]
  {
    forall f | f in RecordFields
      ensures f in Merge(item, dimensions) && Merge(item, dimensions)[f] == item[f]
    {
      assert f !in DimensionFields;
    }
  }

  /** No dimension field is a record field. */
  lemma FieldSetsDisjoint()
    ensures RecordFields !! DimensionFields
  {
  }

  /** Distinct fields have distinct attribute names, so a field stands for its name as a key. */
  lemma NameInjective(f: Field, g: Field)
    requires Name(f) == Name(g)
    ensures f == g
  {
  }
}
