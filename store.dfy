/** The object-store bucket the dashboard writes to and reads from: objects with a key,
    a store-assigned `LastModified` time and a JSON body, listed in ascending key order. */
module ObjectStore {
  import opened Keys
  import Json

  datatype StoredObject = StoredObject(key: string, lastModified: int, body: Json.Value)

  /** What `put_object` did: raised, or stored the object at the given store time. */
  datatype PutOutcome = PutRaised | Stored(lastModified: int)

  /** Whether a read call of the store (`list_objects_v2`, `get_object`) raised. */
  datatype ReadOutcome = ReadRaised | Completed

  /** The most keys one `list_objects_v2` call returns (its default `MaxKeys`). */
  const MaxKeys: nat := 1000

  /** Keys strictly ascending: the listing order, and no key twice. */
  predicate Sorted(objects: seq<StoredObject>)
  {
    forall i, j :: 0 <= i < j < |objects| ==> KeyLess(objects[i].key, objects[j].key)
  }

  lemma SortedPrepend(o: StoredObject, objects: seq<StoredObject>)
    requires Sorted(objects)
    requires forall x :: x in objects ==> KeyLess(o.key, x.key)
    ensures Sorted([o] + objects)
  {
    forall i, j | 0 <= i < j < |[o] + objects|
      ensures KeyLess(([o] + objects)[i].key, ([o] + objects)[j].key)
    {
      if i > 0 {
        assert ([o] + objects)[i] == objects[i - 1] && ([o] + objects)[j] == objects[j - 1];
      } else {
        assert ([o] + objects)[j] == objects[j - 1];
      }
    }
  }

  lemma SortedHeadBelowRest(objects: seq<StoredObject>)
    requires Sorted(objects) && objects != []
    ensures forall x :: x in objects[1..] ==> KeyLess(objects[0].key, x.key)
  {
    forall x | x in objects[1..] ensures KeyLess(objects[0].key, x.key) {
      var j :| 0 <= j < |objects[1..]| && objects[1..][j] == x;
      assert objects[j + 1] == x;
    }
  }

  /** `put_object` of a new object: it replaces the object with the same key, if there
      is one, and otherwise joins the listing in key order; nothing else changes. */
  function Put(objects: seq<StoredObject>, o: StoredObject): (r: seq<StoredObject>)
    requires Sorted(objects)
    ensures Sorted(r)
    ensures o in r
    ensures forall x :: x in r ==> x == o || (x in objects && x.key != o.key)
    ensures forall x :: x in objects && x.key != o.key ==> x in r
    decreases |objects|
  {
    if objects == [] then [o]
    else if objects[0].key == o.key then
      SortedHeadBelowRest(objects);
      forall x | x in objects[1..] ensures x.key != o.key {
        KeyLessIrreflexive(o.key);
      }
      SortedPrepend(o, objects[1..]);
      [o] + objects[1..]
    else if KeyLess(o.key, objects[0].key) then
      SortedHeadBelowRest(objects);
      forall x | x in objects ensures KeyLess(o.key, x.key) && x.key != o.key {
        if x != objects[0] {
          assert x in objects[1..];
          KeyLessTransitive(o.key, objects[0].key, x.key);
        }
        KeyLessIrreflexive(o.key);
      }
      SortedPrepend(o, objects);
      [o] + objects
    else
      var rest := Put(objects[1..], o);
      SortedHeadBelowRest(objects);
      KeyLessTotal(o.key, objects[0].key);
      SortedPrepend(objects[0], rest);
      assert objects == [objects[0]] + objects[1..];
      [objects[0]] + rest
  }

  /** Every object whose key starts with `prefix`, in listing order. */
  function Matching(objects: seq<StoredObject>, prefix: string): (r: seq<StoredObject>)
    ensures forall x :: x in r <==> x in objects && StartsWith(x.key, prefix)
    ensures |r| <= |objects|
    decreases |objects|
  {
    if objects == [] then []
    else
      assert objects == [objects[0]] + objects[1..];
      if StartsWith(objects[0].key, prefix) then [objects[0]] + Matching(objects[1..], prefix)
      else Matching(objects[1..], prefix)
  }

  /** The listing under a prefix keeps the key order of the bucket. */
  lemma {:induction false} MatchingSorted(objects: seq<StoredObject>, prefix: string)
    requires Sorted(objects)
    ensures Sorted(Matching(objects, prefix))
    decreases |objects|
  {
    if objects != [] {
      MatchingSorted(objects[1..], prefix);
      if StartsWith(objects[0].key, prefix) {
        SortedHeadBelowRest(objects);
        SortedPrepend(objects[0], Matching(objects[1..], prefix));
      }
    }
  }

  lemma {:induction false} MatchingNone(objects: seq<StoredObject>, prefix: string)
    requires forall x :: x in objects ==> !StartsWith(x.key, prefix)
    ensures Matching(objects, prefix) == []
    decreases |objects|
  {
    if objects != [] {
      assert objects[0] in objects;
      MatchingNone(objects[1..], prefix);
    }
  }

  /** One call's worth of a listing: its first `MaxKeys` entries. */
  function FirstPage(listing: seq<StoredObject>): (page: seq<StoredObject>)
    ensures |page| <= MaxKeys && |page| <= |listing|
    ensures page == listing[..|page|]
    ensures |listing| <= MaxKeys ==> page == listing
    ensures |listing| > MaxKeys ==> |page| == MaxKeys
  {
    if |listing| <= MaxKeys then listing else listing[..MaxKeys]
  }

  /** The bucket, a store state that saves change in place. */
  class Bucket {
    var objects: seq<StoredObject>

    ghost predicate Valid()
      reads this
    {
      Sorted(objects)
    }

    /** A freshly provisioned, empty bucket. */
    constructor ()
      ensures Valid() && objects == []
    {
      objects := [];
    }

    method PutObject(key: string, body: Json.Value, outcome: PutOutcome) returns (stored: bool)
      requires Valid()
      modifies this
      ensures Valid()
      ensures stored <==> outcome.Stored?
      ensures stored ==> objects == Put(old(objects), StoredObject(key, outcome.lastModified, body))
      ensures !stored ==> objects == old(objects)
    {
      stored := outcome.Stored?;
      if stored {
        objects := Put(objects, StoredObject(key, outcome.lastModified, body));
      }
    }

    /** `list_objects_v2(Prefix=prefix)`: one call, so at most `MaxKeys` entries,
        the first ones in key order. */
    function ListObjectsV2(prefix: string): (page: seq<StoredObject>)
      reads this
      ensures |page| <= MaxKeys
      ensures forall x :: x in page ==> x in objects && StartsWith(x.key, prefix)
      ensures |Matching(objects, prefix)| <= MaxKeys ==> page == Matching(objects, prefix)
    {
      FirstPage(Matching(objects, prefix))
    }

    /** Every page of `list_objects_v2(Prefix=prefix)`, following the continuation
        token until the listing is no longer truncated, concatenated in order. */
    function ListAllPages(prefix: string): (listing: seq<StoredObject>)
      reads this
      ensures forall x :: x in listing <==> x in objects && StartsWith(x.key, prefix)
      ensures FirstPage(listing) == ListObjectsV2(prefix)
    {
      Matching(objects, prefix)
    }
  }
}
