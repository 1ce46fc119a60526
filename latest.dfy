/** Latest-for-city lookup: among the objects listed under a city's prefix, the one with
    the greatest store `LastModified`, picked as `max(..., key=LastModified)` picks it. */
module Latest {
  import opened Wrappers
  import opened Keys
  import opened ObjectStore

  /** The index `max(listing, key=lambda obj: obj['LastModified'])` selects: it walks the
      listing and replaces its candidate only by a strictly newer object, so the first
      of several equally new objects wins. */
  function ArgMaxLastModified(listing: seq<StoredObject>): (i: nat)
    requires listing != []
    ensures i < |listing|
    ensures forall j :: 0 <= j < |listing| ==> listing[j].lastModified <= listing[i].lastModified
    ensures forall j :: 0 <= j < i ==> listing[j].lastModified < listing[i].lastModified
    decreases |listing|
  {
    if |listing| == 1 then 0
    else
      var best := ArgMaxLastModified(listing[..|listing| - 1]);
      if listing[|listing| - 1].lastModified > listing[best].lastModified then |listing| - 1 else best
  }

  /** The newest object of a listing, or nothing for an empty listing (no `Contents`). */
  function SelectLatest(listing: seq<StoredObject>): (r: Option<StoredObject>)
    ensures r.None? <==> listing == []
    ensures r.Some? ==> r.value in listing
    ensures r.Some? ==> forall x :: x in listing ==> x.lastModified <= r.value.lastModified
  {
    if listing == [] then None else Some(listing[ArgMaxLastModified(listing)])
  }

  /** The lookup as the source writes it: one `list_objects_v2` call, hence the newest
      object among the first `MaxKeys` keys under the prefix only. */
  function LatestAsWritten(objects: seq<StoredObject>, city: string): (r: Option<StoredObject>)
    ensures r.Some? ==> r.value in objects && StartsWith(r.value.key, CityPrefix(city))
    ensures r.Some? ==> r.value in FirstPage(Matching(objects, CityPrefix(city)))
    ensures r.None? <==> Matching(objects, CityPrefix(city)) == []
    ensures r.Some? ==> forall x :: x in FirstPage(Matching(objects, CityPrefix(city))) ==>
      x.lastModified <= r.value.lastModified
  {
    var page := FirstPage(Matching(objects, CityPrefix(city)));
    assert page != [] ==> page[0] in page;
    SelectLatest(page)
  }

  /** The lookup over every key under the city's prefix: nothing exactly when no key of
      the bucket has the prefix, and otherwise an object with the greatest `LastModified`. */
  function LatestForCity(objects: seq<StoredObject>, city: string): (r: Option<StoredObject>)
    ensures r.None? <==> forall x :: x in objects ==> !StartsWith(x.key, CityPrefix(city))
    ensures r.Some? ==> r.value in objects && StartsWith(r.value.key, CityPrefix(city))
    ensures r.Some? ==> forall x :: x in objects && StartsWith(x.key, CityPrefix(city)) ==>
      x.lastModified <= r.value.lastModified
  {
    var listing := Matching(objects, CityPrefix(city));
    assert listing != [] ==> listing[0] in listing;
    SelectLatest(listing)
  }

  lemma SortedNotBelowEarlier(listing: seq<StoredObject>, i: nat, j: nat)
    requires Sorted(listing) && i <= j < |listing|
    ensures !KeyLess(listing[j].key, listing[i].key)
  {
    if i == j {
      KeyLessIrreflexive(listing[i].key);
    } else {
      KeyLessAsymmetric(listing[i].key, listing[j].key);
    }
  }

  /** Ties go to the first object in listing order: every matching object with a smaller
      key is strictly older than the one returned. */
  lemma LatestTiesGoToSmallestKey(objects: seq<StoredObject>, city: string)
    requires Sorted(objects)
    requires LatestForCity(objects, city).Some?
    ensures forall x :: (x in objects && StartsWith(x.key, CityPrefix(city))
                         && KeyLess(x.key, LatestForCity(objects, city).value.key))
                        ==> x.lastModified < LatestForCity(objects, city).value.lastModified
  {
    var listing := Matching(objects, CityPrefix(city));
    MatchingSorted(objects, CityPrefix(city));
    var i := ArgMaxLastModified(listing);
    assert LatestForCity(objects, city).value == listing[i];
    forall x | x in objects && StartsWith(x.key, CityPrefix(city)) && KeyLess(x.key, listing[i].key)
      ensures x.lastModified < listing[i].lastModified
    {
      var j :| 0 <= j < |listing| && listing[j] == x;
      if i <= j {
        SortedNotBelowEarlier(listing, i, j);
      }
    }
  }

  /** Save-then-lookup: an object put under the city's prefix, newer than everything
      already stored under that prefix, is what the lookup returns afterwards. */
  lemma LatestAfterPut(objects: seq<StoredObject>, city: string, o: StoredObject)
    requires Sorted(objects)
    requires StartsWith(o.key, CityPrefix(city))
    requires forall x :: x in objects && StartsWith(x.key, CityPrefix(city)) ==> x.lastModified < o.lastModified
    ensures LatestForCity(Put(objects, o), city) == Some(o)
  {
    var r := LatestForCity(Put(objects, o), city);
    assert r.Some?;
    assert o.lastModified <= r.value.lastModified;
  }

  /** While a city has at most one page of keys, the single call sees all of them and
      the lookup as written returns what the full lookup returns. */
  lemma AsWrittenAgreesWithinOnePage(objects: seq<StoredObject>, city: string)
    requires |Matching(objects, CityPrefix(city))| <= MaxKeys
    ensures LatestAsWritten(objects, city) == LatestForCity(objects, city)
  {
  }

  /** In a sorted listing, an object whose key is greater than every other key is
      listed last. */
  lemma GreatestKeyIsLast(listing: seq<StoredObject>, newest: StoredObject)
    requires Sorted(listing) && newest in listing
    requires forall x :: x in listing && x != newest ==> KeyLess(x.key, newest.key)
    ensures forall j :: 0 <= j < |listing| - 1 ==> listing[j] != newest
  {
    var last := |listing| - 1;
    forall j | 0 <= j < last ensures listing[j] != newest {
      if listing[last] != newest {
        KeyLessAsymmetric(listing[j].key, listing[last].key);
      } else {
        KeyLessIrreflexive(newest.key);
      }
    }
  }

  /** Beyond one page the lookup as written misses the newest observation: when the
      newest object also has the greatest key, as a save with a later stamp does, it
      sorts after the first `MaxKeys` keys and the single call never lists it. */
  lemma AsWrittenMissesNewestBeyondFirstPage(objects: seq<StoredObject>, city: string, newest: StoredObject)
    requires Sorted(objects)
    requires |Matching(objects, CityPrefix(city))| > MaxKeys
    requires newest in objects && StartsWith(newest.key, CityPrefix(city))
    requires forall x :: x in objects && StartsWith(x.key, CityPrefix(city)) && x != newest ==>
      KeyLess(x.key, newest.key) && x.lastModified < newest.lastModified
    ensures LatestForCity(objects, city) == Some(newest)
    ensures LatestAsWritten(objects, city).Some?
    ensures LatestAsWritten(objects, city) != Some(newest)
  {
    var listing := Matching(objects, CityPrefix(city));
    MatchingSorted(objects, CityPrefix(city));
    GreatestKeyIsLast(listing, newest);
    var page := FirstPage(listing);
    assert page[0] in page;
    forall x | x in page ensures x != newest {
      var j :| 0 <= j < |page| && page[j] == x;
      assert listing[j] == x;
    }
  }

  /** No key under `prefix` sorts after `o` while every key of the bucket does: then
      nothing of the bucket lies under the prefix. */
  lemma NothingMatchesAboveLaterKey(objects: seq<StoredObject>, prefix: string, o: StoredObject)
    requires Sorted(objects) && objects != [] && KeyLess(o.key, objects[0].key)
    requires forall x :: x in objects && StartsWith(x.key, prefix) ==> KeyLess(x.key, o.key)
    ensures Matching(objects, prefix) == []
  {
    SortedHeadBelowRest(objects);
    forall x | x in objects ensures !StartsWith(x.key, prefix) {
      if x != objects[0] {
        assert x in objects[1..];
        KeyLessTransitive(o.key, objects[0].key, x.key);
      }
      KeyLessAsymmetric(o.key, x.key);
    }
    MatchingNone(objects, prefix);
  }

  /** Putting an object whose key sorts after every key under `prefix` adds it at the end
      of that prefix's listing. */
  lemma {:induction false} MatchingAfterLaterPut(objects: seq<StoredObject>, prefix: string, o: StoredObject)
    requires Sorted(objects)
    requires StartsWith(o.key, prefix)
    requires forall x :: x in objects && StartsWith(x.key, prefix) ==> KeyLess(x.key, o.key)
    ensures Matching(Put(objects, o), prefix) == Matching(objects, prefix) + [o]
    decreases |objects|
  {
    if objects != [] {
      var h, tail := objects[0], objects[1..];
      KeyLessIrreflexive(o.key);
      assert h.key != o.key;
      if KeyLess(o.key, h.key) {
        NothingMatchesAboveLaterKey(objects, prefix, o);
        assert ([o] + objects)[1..] == objects;
      } else {
        var p := Put(tail, o);
        assert Put(objects, o) == [h] + p;
        MatchingAfterLaterPut(tail, prefix, o);
        assert ([h] + p)[0] == h && ([h] + p)[1..] == p;
        if StartsWith(h.key, prefix) {
          assert Matching([h] + p, prefix) == [h] + Matching(p, prefix);
          assert Matching(objects, prefix) == [h] + Matching(tail, prefix);
        } else {
          assert Matching([h] + p, prefix) == Matching(p, prefix);
          assert Matching(objects, prefix) == Matching(tail, prefix);
        }
      }
    }
  }

  /** The failing save-then-lookup: once a city has `MaxKeys` objects, a save that is
      newer than all of them and sorts after them, as a later stamp does, is returned by
      the full lookup and never by the lookup as written. */
  lemma AsWrittenMissesLaterSave(objects: seq<StoredObject>, city: string, o: StoredObject)
    requires Sorted(objects)
    requires StartsWith(o.key, CityPrefix(city))
    requires |Matching(objects, CityPrefix(city))| >= MaxKeys
    requires forall x :: x in objects && StartsWith(x.key, CityPrefix(city)) ==>
      KeyLess(x.key, o.key) && x.lastModified < o.lastModified
    ensures LatestForCity(Put(objects, o), city) == Some(o)
    ensures LatestAsWritten(Put(objects, o), city) != Some(o)
  {
    MatchingAfterLaterPut(objects, CityPrefix(city), o);
    AsWrittenMissesNewestBeyondFirstPage(Put(objects, o), city, o);
  }
}
