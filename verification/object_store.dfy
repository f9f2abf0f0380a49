/** The S3 calls the lambdas make, answered from a snapshot of the bucket
    contents. Every call that raises in the source answers None (or
    GetError) here. */
module ObjectStore {
  import opened Wrappers
  import opened Timestamps

  datatype ObjectId = ObjectId(bucket: string, key: string)

  datatype S3Object = S3Object(body: string, lastModified: Timestamp)

  /** The objects, and the ids on which every call raises (access denied,
      throttling, any transient failure). */
  datatype Store = Store(objects: map<ObjectId, S3Object>, failing: set<ObjectId>)

  /** The id a call names, or None when the bucket or the key is unset:
      boto3 refuses `None` as a name before any request is made. */
  function Target(bucket: Option<string>, key: Option<string>): (id: Option<ObjectId>)
    ensures id.Some? <==> bucket.Some? && key.Some?
  {
    if bucket.Some? && key.Some? then Some(ObjectId(bucket.value, key.value)) else None
  }

  predicate Reachable(s: Store, id: Option<ObjectId>) {
    id.Some? && id.value !in s.failing
  }

  /** `head_object`: the object's LastModified, None where the call raises. */
  function Head(s: Store, bucket: Option<string>, key: Option<string>): (r: Option<Timestamp>)
    ensures r.Some? <==> var id := Target(bucket, key); Reachable(s, id) && id.value in s.objects
    ensures r.Some? ==> r.value == s.objects[Target(bucket, key).value].lastModified
  {
    var id := Target(bucket, key);
    if Reachable(s, id) && id.value in s.objects then Some(s.objects[id.value].lastModified) else None
  }

  /** The ways `get_object` can end. */
  datatype GetOutcome = Body(text: string) | NoSuchKey | GetError

  /** `get_object`: the body, NoSuchKey for a missing object, GetError for
      any other exception. */
  function Get(s: Store, bucket: Option<string>, key: Option<string>): (r: GetOutcome)
    ensures r.Body? <==> Head(s, bucket, key).Some?
    ensures r.Body? ==> r.text == s.objects[Target(bucket, key).value].body
    ensures r.NoSuchKey? <==> Reachable(s, Target(bucket, key)) && Head(s, bucket, key).None?
  {
    var id := Target(bucket, key);
    if !Reachable(s, id) then GetError
    else if id.value !in s.objects then NoSuchKey
    else Body(s.objects[id.value].body)
  }

  /** `put_object`: the store with the object created or replaced, stamped
      with the service's clock, or None where the call raises. */
  function Put(s: Store, bucket: Option<string>, key: string, body: string,
               serverNow: Timestamp): (r: Option<Store>)
    ensures r.Some? <==> Reachable(s, Target(bucket, Some(key)))
    ensures r.Some? ==> r.value.failing == s.failing
    ensures r.Some? ==> r.value.objects.Keys == s.objects.Keys + {ObjectId(bucket.value, key)}
    ensures r.Some? ==> r.value.objects[ObjectId(bucket.value, key)] == S3Object(body, serverNow)
    ensures r.Some? ==>
              forall id :: id in s.objects && id != ObjectId(bucket.value, key) ==>
                r.value.objects[id] == s.objects[id]
  {
    var id := Target(bucket, Some(key));
    if Reachable(s, id)
    then Some(Store(s.objects[id.value := S3Object(body, serverNow)], s.failing))
    else None
  }

  /** A put to one object leaves what `head_object` and `get_object` answer
      for every other name as it was. */
  lemma PutLeavesOthers(s: Store, bucket: string, key: string, body: string, serverNow: Timestamp,
                        otherBucket: Option<string>, otherKey: Option<string>)
    requires ObjectId(bucket, key) !in s.failing
    requires Target(otherBucket, otherKey) != Some(ObjectId(bucket, key))
    ensures var s' := Put(s, Some(bucket), key, body, serverNow).value;
            Head(s', otherBucket, otherKey) == Head(s, otherBucket, otherKey)
            && Get(s', otherBucket, otherKey) == Get(s, otherBucket, otherKey)
  {
  }
}
