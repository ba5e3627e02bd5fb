/**
 * The external services the handler talks to: the object store (S3), the
 * item table (DynamoDB) and the notification topic (SNS). Each is modelled
 * only by what it has been asked to store, in order; every write may fail,
 * and whether it does is decided by the environment and passed in.
 */
module Services {
  import opened Metadata

  /** The bytes of a stored object: an encoding of the given length, or a server-side copy. */
  datatype Body = Encoded(length: nat) | CopyOf(sourceBucket: string, sourceKey: string)

  datatype StoredObject = StoredObject(bucket: string, key: string, body: Body, contentType: string)

  datatype ItemWrite = ItemWrite(table: string, item: Item)

  /** The exceptions that escape the per-object work. */
  datatype Error = GetObjectFailed | CopyObjectFailed | PutItemFailed | PublishFailed

  /** What a published message reports. */
  datatype Notice =
    | ResizedNotice(objectKey: string, newKey: string, dimensions: Item,
                    originalSize: nat, resizedSize: nat, imageId: string)
    | ProcessedNotice(objectKey: string, newKey: string, originalSize: nat, imageId: string)
    | FailedNotice(error: Error)

  datatype Message = Message(topic: string, notice: Notice)

  /** Everything written to the three services, each in order. */
  datatype Effects = Effects(objects: seq<StoredObject>, writes: seq<ItemWrite>, messages: seq<Message>) {
    function Then(next: Effects): Effects {
      Effects(objects + next.objects, writes + next.writes, messages + next.messages)
    }
  }

  const NoEffects: Effects := Effects([], [], [])

  lemma ThenAssociative(a: Effects, b: Effects, c: Effects)
    ensures a.Then(b).Then(c) == a.Then(b.Then(c))
  {
  }

  /** The process-wide service clients and what they have written so far. */
  class Cloud {
    var objects: seq<StoredObject>
    var writes: seq<ItemWrite>
    var messages: seq<Message>

    function State(): Effects
      reads this
    {
      Effects(objects, writes, messages)
    }

    constructor ()
      ensures State() == NoEffects
    {
      objects, writes, messages := [], [], [];
    }

    /** `s3_client.put_object`: stores encoded bytes, or raises. */
    method PutObject(bucket: string, key: string, length: nat, contentType: string, succeeds: bool)
      returns (ok: bool)
      modifies this
      ensures ok == succeeds
      ensures State() == old(State()).Then(
        if ok then Effects([StoredObject(bucket, key, Encoded(length), contentType)], [], []) else NoEffects)
    {
      ok := succeeds;
      if ok {
        objects := objects + [StoredObject(bucket, key, Encoded(length), contentType)];
      }
    }

    /** `s3_client.copy_object`: stores a verbatim copy of another object, or raises. */
    method CopyObject(sourceBucket: string, sourceKey: string, bucket: string, key: string,
                      contentType: string, succeeds: bool)
      returns (ok: bool)
      modifies this
      ensures ok == succeeds
      ensures State() == old(State()).Then(
        if ok then Effects([StoredObject(bucket, key, CopyOf(sourceBucket, sourceKey), contentType)], [], [])
        else NoEffects)
    {
      ok := succeeds;
      if ok {
        objects := objects + [StoredObject(bucket, key, CopyOf(sourceBucket, sourceKey), contentType)];
      }
    }

    /** `table.put_item`: stores an item, or raises. */
    method PutItem(w: ItemWrite, succeeds: bool) returns (ok: bool)
      modifies this
      ensures ok == succeeds
      ensures State() == old(State()).Then(if ok then Effects([], [w], []) else NoEffects)
    {
      ok := succeeds;
      if ok {
        writes := writes + [w];
      }
    }

    /** `sns_client.publish`: publishes a message, or raises. */
    method Publish(m: Message, succeeds: bool) returns (ok: bool)
      modifies this
      ensures ok == succeeds
      ensures State() == old(State()).Then(if ok then Effects([], [], [m]) else NoEffects)
    {
      ok := succeeds;
      if ok {
        messages := messages + [m];
      }
    }
  }
}
