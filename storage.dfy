/**
 * The in-memory tag store: records keyed by id, with upsert, lookup,
 * delete-one, clear, size and four list queries that answer newest first.
 * The concurrent hash map of the source is a plain map field updated by
 * sequential method calls.
 */
module Storage {
  import opened Wrappers
  import opened Models
  import Text

  /** Kotlin's `Int.MAX_VALUE`, the ceiling `ConcurrentHashMap.size()` clamps to. */
  const IntMaxValue: nat := 0x7fff_ffff

  /** The map every store holds: each record is filed under its own id and is "processed". */
  ghost predicate WellFormed(m: map<string, NfcTagResponse>)
  {
    forall k :: k in m ==> m[k].id == k && m[k].status == ProcessedStatus
  }

  /** The id a save files its record under: the caller's when non-empty, else the generated one. */
  function StoreKey(tagData: NfcTagData, freshId: string): (key: string)
    ensures tagData.id != "" ==> key == tagData.id
    ensures tagData.id == "" ==> key == freshId
  {
    if |tagData.id| > 0 then tagData.id else freshId
  }

  /** The record a save builds from a tag read and the chosen id. */
  function BuildResponse(tagData: NfcTagData, id: string): (r: NfcTagResponse)
    ensures r.id == id && r.status == ProcessedStatus
    ensures r.tagType == tagData.tagType && r.serialNumber == tagData.serialNumber
    ensures r.actualDate == tagData.actualDate && r.location == tagData.location
    ensures r.timestamp == tagData.timestamp
  {
    NfcTagResponse(
      id := id,
      tagType := tagData.tagType,
      serialNumber := tagData.serialNumber,
      actualDate := tagData.actualDate,
      location := tagData.location,
      timestamp := tagData.timestamp)
  }

  /** What a generated id must be: non-empty and not yet a key (a random UUID in the source). */
  predicate FreshFor(m: map<string, NfcTagResponse>, tagData: NfcTagData, freshId: string)
  {
    tagData.id == "" ==> freshId != "" && freshId !in m
  }

  /** The four list queries, as one filter each. */
  datatype Query =
    | AllTags
    | BySerialNumber(serialNumber: string)
    | ByType(tagType: string)
    | ByLocation(location: string)

  /** Whether a record belongs in the answer to a query. */
  predicate Matches(q: Query, r: NfcTagResponse)
  {
    match q
    case AllTags => true
    case BySerialNumber(s) => r.serialNumber == s
    case ByType(t) => Text.ContainsIgnoreCase(r.tagType, t)
    case ByLocation(l) => Text.ContainsIgnoreCase(r.location, l)
  }

  /** The stored records under the given keys that a query selects. */
  ghost function MatchingAmong(m: map<string, NfcTagResponse>, keys: set<string>, q: Query): set<NfcTagResponse>
  {
    set k | k in keys && k in m && Matches(q, m[k]) :: m[k]
  }

  /** All stored records a query selects. */
  ghost function Matching(m: map<string, NfcTagResponse>, q: Query): set<NfcTagResponse>
  {
    MatchingAmong(m, m.Keys, q)
  }

  /** Newest first: timestamps never increase along the list. */
  predicate SortedByTimestampDesc(s: seq<NfcTagResponse>)
  {
    forall i, j :: 0 <= i < j < |s| ==> s[i].timestamp >= s[j].timestamp
  }

  /** A correct answer to a query: the selected records, each once, newest first. */
  ghost predicate IsListing(r: seq<NfcTagResponse>, m: map<string, NfcTagResponse>, q: Query)
  {
    SortedByTimestampDesc(r) && multiset(r) == multiset(Matching(m, q))
  }

  /**
   * Inserts a record into a list in front of the first record that is not
   * newer. Into a newest-first list this puts it, of two equal timestamps,
   * before the records already there: the stable choice, since those came
   * later in the input.
   */
  function InsertByTimestampDesc(x: NfcTagResponse, s: seq<NfcTagResponse>): (r: seq<NfcTagResponse>)
    ensures |r| == |s| + 1
    ensures r[0] == x || (s != [] && r[0] == s[0])
  {
    if s == [] || x.timestamp >= s[0].timestamp then [x] + s else [s[0]] + InsertByTimestampDesc(x, s[1..])
  }

  /** Inserting into a newest-first list keeps it newest first. */
  lemma {:induction false} InsertKeepsSorted(x: NfcTagResponse, s: seq<NfcTagResponse>)
    requires SortedByTimestampDesc(s)
    ensures SortedByTimestampDesc(InsertByTimestampDesc(x, s))
  {
    if !(s == [] || x.timestamp >= s[0].timestamp) {
      var rest := InsertByTimestampDesc(x, s[1..]);
      InsertKeepsSorted(x, s[1..]);
      var r := [s[0]] + rest;
      assert rest[0].timestamp <= s[0].timestamp;
      assert forall i :: 0 <= i < |rest| ==> rest[i].timestamp <= rest[0].timestamp;
      assert forall i :: 1 <= i < |r| ==> r[i] == rest[i - 1];
    }
  }

  /** Inserting adds exactly the one record and loses none. */
  lemma {:induction false} InsertIsPermutation(x: NfcTagResponse, s: seq<NfcTagResponse>)
    ensures multiset(InsertByTimestampDesc(x, s)) == multiset(s) + multiset{x}
  {
    if !(s == [] || x.timestamp >= s[0].timestamp) {
      InsertIsPermutation(x, s[1..]);
      assert s == [s[0]] + s[1..];
    }
  }

  /** `sortedByDescending { it.timestamp }` as an insertion sort. */
  function SortByTimestampDesc(s: seq<NfcTagResponse>): (r: seq<NfcTagResponse>)
    ensures |r| == |s|
  {
    if s == [] then [] else InsertByTimestampDesc(s[0], SortByTimestampDesc(s[1..]))
  }

  /** The sort puts every list newest first. */
  lemma {:induction false} SortIsSorted(s: seq<NfcTagResponse>)
    ensures SortedByTimestampDesc(SortByTimestampDesc(s))
  {
    if s != [] {
      SortIsSorted(s[1..]);
      InsertKeepsSorted(s[0], SortByTimestampDesc(s[1..]));
    }
  }

  /** The sort only rearranges: the result holds the same records, each as often as the input. */
  lemma {:induction false} SortIsPermutation(s: seq<NfcTagResponse>)
    ensures multiset(SortByTimestampDesc(s)) == multiset(s)
  {
    if s != [] {
      var sortedTail := SortByTimestampDesc(s[1..]);
      SortIsPermutation(s[1..]);
      InsertIsPermutation(s[0], sortedTail);
      assert multiset(s) == multiset(s[1..]) + multiset{s[0]} by {
        assert s == [s[0]] + s[1..];
      }
    }
  }

  /** `ConcurrentHashMap.size()`: the number of entries, clamped to `Int.MAX_VALUE`. */
  function ClampedSize(n: nat): (size: int)
    ensures 0 <= size <= IntMaxValue
    ensures n <= IntMaxValue ==> size == n
    ensures n > IntMaxValue ==> size == IntMaxValue
  {
    if n > IntMaxValue then IntMaxValue else n
  }

  /**
   * A correct listing holds exactly the stored records its query selects:
   * every element is stored and selected (soundness), and every stored,
   * selected record is in it (completeness).
   */
  lemma ListingSoundAndComplete(r: seq<NfcTagResponse>, m: map<string, NfcTagResponse>, q: Query)
    requires IsListing(r, m, q)
    ensures forall x :: x in r ==> x in m.Values && Matches(q, x)
    ensures forall k :: k in m && Matches(q, m[k]) ==> m[k] in r
  {
    forall x | x in r ensures x in m.Values && Matches(q, x) {
      assert x in multiset(r);
      assert x in Matching(m, q);
    }
    forall k | k in m && Matches(q, m[k]) ensures m[k] in r {
      assert m[k] in Matching(m, q);
      assert m[k] in multiset(r);
    }
  }

  /** A sequence in which nothing occurs twice, judged by its multiset, has distinct elements. */
  lemma {:induction false} DistinctFromCounts(s: seq<NfcTagResponse>)
    requires forall x :: multiset(s)[x] <= 1
    ensures forall i, j :: 0 <= i < j < |s| ==> s[i] != s[j]
  {
    if s != [] {
      var tail := s[1..];
      assert s == [s[0]] + tail;
      assert forall x :: multiset(tail)[x] <= multiset(s)[x];
      DistinctFromCounts(tail);
      assert multiset(tail)[s[0]] == 0;
      forall i, j | 0 <= i < j < |s| ensures s[i] != s[j] {
        if i > 0 {
          assert s[i] == tail[i - 1] && s[j] == tail[j - 1];
        } else {
          assert s[j] in tail;
        }
      }
    }
  }

  /** A correct listing holds no record twice. */
  lemma ListingDistinct(r: seq<NfcTagResponse>, m: map<string, NfcTagResponse>, q: Query)
    requires IsListing(r, m, q)
    ensures forall i, j :: 0 <= i < j < |r| ==> r[i] != r[j]
  {
    DistinctFromCounts(r);
  }

  /** The cardinality of the records picked out by the keys in a set. */
  lemma {:induction false} MatchingAmongSize(m: map<string, NfcTagResponse>, keys: set<string>)
    requires WellFormed(m) && keys <= m.Keys
    ensures |MatchingAmong(m, keys, AllTags)| == |keys|
    decreases keys
  {
    if keys != {} {
      var k :| k in keys;
      var rest := keys - {k};
      MatchingAmongSize(m, rest);
      assert MatchingAmong(m, keys, AllTags) == MatchingAmong(m, rest, AllTags) + {m[k]};
      assert m[k] !in MatchingAmong(m, rest, AllTags);
    } else {
      assert MatchingAmong(m, keys, AllTags) == {};
    }
  }

  /** Taking one more key into account adds its record exactly when the query selects it. */
  lemma MatchingAmongInsert(m: map<string, NfcTagResponse>, done: set<string>, k: string, q: Query)
    requires WellFormed(m) && k in m && k !in done
    ensures m[k] !in MatchingAmong(m, done, q)
    ensures MatchingAmong(m, done + {k}, q)
            == MatchingAmong(m, done, q) + (if Matches(q, m[k]) then {m[k]} else {})
  {
  }

  /** One step of the filter walk: the collected records stay in step with the keys visited. */
  lemma CollectStep(m: map<string, NfcTagResponse>, done: set<string>, k: string, q: Query,
                    found: seq<NfcTagResponse>)
    requires WellFormed(m) && k in m && k !in done
    requires multiset(found) == multiset(MatchingAmong(m, done, q))
    ensures multiset(found + if Matches(q, m[k]) then [m[k]] else [])
            == multiset(MatchingAmong(m, done + {k}, q))
  {
    MatchingAmongInsert(m, done, k, q);
  }

  /** Listing every record of a well-formed store gives exactly as many records as keys. */
  lemma ListingAllLength(r: seq<NfcTagResponse>, m: map<string, NfcTagResponse>)
    requires WellFormed(m) && IsListing(r, m, AllTags)
    ensures |r| == |m|
  {
    MatchingAmongSize(m, m.Keys);
    assert |multiset(r)| == |multiset(Matching(m, AllTags))|;
  }

  /** Case-insensitive type filtering: "nfca" selects an "NfcA" record and not a "Desfire" one. */
  lemma TypeFilterIgnoresCase(r: NfcTagResponse)
    ensures r.tagType == "NfcA" ==> Matches(ByType("nfca"), r)
    ensures r.tagType == "Desfire" ==> !Matches(ByType("nfca"), r)
  {
    if r.tagType == "NfcA" {
      assert Text.RegionMatchesIgnoreCase(r.tagType, 0, "nfca");
    }
    if r.tagType == "Desfire" {
      forall i | 0 <= i && i + 4 <= 7 ensures !Text.RegionMatchesIgnoreCase(r.tagType, i, "nfca") {
        assert !Text.CharEqualsIgnoreCase(r.tagType[i], "nfca"[0]);
      }
    }
  }

  class NfcDataStorage {
    /** The records, keyed by id. */
    var storage: map<string, NfcTagResponse>

    ghost predicate Valid()
      reads this
    {
      WellFormed(storage)
    }

    /** A new store is empty. */
    constructor()
      ensures Valid() && storage == map[]
    {
      storage := map[];
    }

    /**
     * `saveNfcTag`: files a record built from the tag read under the caller's
     * id, or under `freshId` (the generated UUID) when that id is empty, and
     * replaces whatever that key held. Every other key keeps its record.
     */
    method SaveNfcTag(tagData: NfcTagData, freshId: string) returns (r: NfcTagResponse)
      requires Valid() && FreshFor(storage, tagData, freshId)
      modifies this
      ensures Valid()
      ensures r == BuildResponse(tagData, StoreKey(tagData, freshId))
      ensures r.id != "" && (tagData.id != "" ==> r.id == tagData.id)
      ensures tagData.id == "" ==> r.id !in old(storage)
      ensures r.tagType == tagData.tagType && r.serialNumber == tagData.serialNumber
      ensures r.actualDate == tagData.actualDate && r.location == tagData.location
      ensures r.timestamp == tagData.timestamp && r.status == "processed"
      ensures storage == old(storage)[r.id := r]
      ensures GetNfcTag(r.id) == Some(r)
      ensures forall k :: k != r.id ==> GetNfcTag(k) == old(GetNfcTag(k))
      ensures |storage| == if r.id in old(storage) then |old(storage)| else |old(storage)| + 1
    {
      var id := StoreKey(tagData, freshId);
      r := BuildResponse(tagData, id);
      storage := storage[id := r];
    }

    /** `getNfcTag`: the record filed under `id`, or null. */
    function GetNfcTag(id: string): (r: Option<NfcTagResponse>)
      reads this
      ensures r.Some? <==> id in storage
      ensures r.Some? ==> r.value == storage[id]
      ensures Valid() && r.Some? ==> r.value.id == id
    {
      if id in storage then Some(storage[id]) else None
    }

    /**
     * `storage.values.filter { … }`: walks the stored records in an
     * unspecified order and keeps each one the query selects.
     */
    method CollectMatching(q: Query) returns (found: seq<NfcTagResponse>)
      requires Valid()
      ensures multiset(found) == multiset(Matching(storage, q))
    {
      var m := storage;
      var remaining := m.Keys;
      found := [];
      while remaining != {}
        invariant remaining <= m.Keys
        invariant multiset(found) == multiset(MatchingAmong(m, m.Keys - remaining, q))
        decreases |remaining|
      {
        var k :| k in remaining;
        CollectStep(m, m.Keys - remaining, k, q, found);
        found := found + if Matches(q, m[k]) then [m[k]] else [];
        assert m.Keys - (remaining - {k}) == (m.Keys - remaining) + {k};
        remaining := remaining - {k};
      }
    }

    /** The shared pipeline of the four list queries: filter, then sort newest first. */
    method Select(q: Query) returns (r: seq<NfcTagResponse>)
      requires Valid()
      ensures IsListing(r, storage, q)
    {
      var found := CollectMatching(q);
      r := SortByTimestampDesc(found);
      SortIsSorted(found);
      SortIsPermutation(found);
    }

    /** `getAllNfcTags`: every stored record once, newest first; as many as there are keys. */
    method GetAllNfcTags() returns (r: seq<NfcTagResponse>)
      requires Valid()
      ensures IsListing(r, storage, AllTags)
      ensures |r| == |storage|
    {
      r := Select(AllTags);
      ListingAllLength(r, storage);
    }

    /** `getTagsBySerialNumber`: the records whose serial number equals the argument, newest first. */
    method GetTagsBySerialNumber(serialNumber: string) returns (r: seq<NfcTagResponse>)
      requires Valid()
      ensures IsListing(r, storage, BySerialNumber(serialNumber))
    {
      r := Select(BySerialNumber(serialNumber));
    }

    /** `getTagsByType`: the records whose tag type contains the argument ignoring case, newest first. */
    method GetTagsByType(tagType: string) returns (r: seq<NfcTagResponse>)
      requires Valid()
      ensures IsListing(r, storage, ByType(tagType))
    {
      r := Select(ByType(tagType));
    }

    /** `getTagsByLocation`: the records whose location contains the argument ignoring case, newest first. */
    method GetTagsByLocation(location: string) returns (r: seq<NfcTagResponse>)
      requires Valid()
      ensures IsListing(r, storage, ByLocation(location))
    {
      r := Select(ByLocation(location));
    }

    /**
     * `deleteNfcTag`: removes the record filed under `id`; reports whether
     * there was one. Every other key keeps its record.
     */
    method DeleteNfcTag(id: string) returns (removed: bool)
      requires Valid()
      modifies this
      ensures Valid()
      ensures removed <==> id in old(storage)
      ensures storage == old(storage) - {id}
      ensures GetNfcTag(id) == None
      ensures forall k :: k != id ==> GetNfcTag(k) == old(GetNfcTag(k))
      ensures |storage| == if removed then |old(storage)| - 1 else |old(storage)|
    {
      removed := id in storage;
      storage := storage - {id};
    }

    /** `clear`: removes every record. */
    method Clear()
      requires Valid()
      modifies this
      ensures Valid()
      ensures storage == map[]
      ensures Size() == 0
      ensures forall k :: GetNfcTag(k) == None
    {
      storage := map[];
    }

    /** `size`: the number of records, as the source's `Int` result (clamped). */
    function Size(): (n: int)
      reads this
      ensures 0 <= n <= IntMaxValue
      ensures |storage| <= IntMaxValue ==> n == |storage|
    {
      ClampedSize(|storage|)
    }
  }

  /**
   * Upsert: two saves under one non-empty id leave one record there, built
   * from the second read; the second save does not change the size.
   */
  method UpsertKeepsLastWrite(store: NfcDataStorage, first: NfcTagData, second: NfcTagData, freshId: string)
    requires store.Valid() && first.id != "" && first.id == second.id
    modifies store
    ensures store.Valid()
    ensures store.storage == old(store.storage)[first.id := BuildResponse(second, first.id)]
    ensures |store.storage| == |old(store.storage)[first.id := BuildResponse(first, first.id)]|
  {
    var r1 := store.SaveNfcTag(first, freshId);
    var r2 := store.SaveNfcTag(second, freshId);
  }
}
