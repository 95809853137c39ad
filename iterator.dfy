/** The iterator demo: cursor-based iterators over a slice of user profiles
    and over a map of them keyed by id. */
module Iterator {
  import opened Wrappers
  import GoMaps

  datatype UserProfile = UserProfile(id: int, name: string)

  /** The zero value Go's map index yields for a missing key. */
  const ZeroProfile := UserProfile(0, "")

  class SliceIterator {
    const profiles: seq<UserProfile>
    var index: nat

    /** The cursor never passes the end. */
    ghost predicate Valid()
      reads this
    {
      index <= |profiles|
    }

    constructor (profiles: seq<UserProfile>)
      ensures Valid() && this.profiles == profiles && index == 0
    {
      this.profiles := profiles;
      index := 0;
    }

    predicate HasNext()
      reads this
    {
      index < |profiles|
    }

    /** The profile under the cursor, moving the cursor one step; nil (None)
        once exhausted, with the cursor left where it is. */
    method Next() returns (p: Option<UserProfile>)
      requires Valid()
      modifies this
      ensures Valid()
      ensures old(HasNext()) ==> p == Some(profiles[old(index)]) && index == old(index) + 1
      ensures !old(HasNext()) ==> p == None && index == old(index)
    {
      if HasNext() {
        var profile := profiles[index];
        index := index + 1;
        return Some(profile);
      }
      return None;
    }
  }

  class UserProfileSlice {
    var profiles: seq<UserProfile>

    constructor (profiles: seq<UserProfile>)
      ensures this.profiles == profiles
    {
      this.profiles := profiles;
    }

    method CreateIterator() returns (it: SliceIterator)
      ensures fresh(it) && it.Valid() && it.profiles == profiles && it.index == 0
    {
      it := new SliceIterator(profiles);
    }
  }

  /** `for it.HasNext() { it.Next() }` on a slice iterator: the remaining
      profiles in slice order, one call of Next per profile. */
  method DrainSlice(it: SliceIterator) returns (out: seq<UserProfile>)
    requires it.Valid()
    modifies it
    ensures it.Valid() && !it.HasNext()
    ensures out == it.profiles[old(it.index)..]
  {
    out := [];
    while it.HasNext()
      invariant it.Valid() && old(it.index) <= it.index
      invariant out == it.profiles[old(it.index)..it.index]
      decreases |it.profiles| - it.index
    {
      var p := it.Next();
      out := out + [p.value];
    }
  }

  class MapIterator {
    const profiles: map<int, UserProfile>
    const keys: seq<int>
    var index: nat

    ghost predicate Valid()
      reads this
    {
      index <= |keys|
    }

    constructor (profiles: map<int, UserProfile>, keys: seq<int>)
      ensures Valid() && this.profiles == profiles && this.keys == keys && index == 0
    {
      this.profiles := profiles;
      this.keys := keys;
      index := 0;
    }

    predicate HasNext()
      reads this
    {
      index < |keys|
    }

    /** The profile stored under the key at the cursor (Go's zero value if the
        key were missing), moving the cursor; nil once exhausted. */
    method Next() returns (p: Option<UserProfile>)
      requires Valid()
      modifies this
      ensures Valid()
      ensures old(HasNext()) ==> p == Some(Lookup(keys[old(index)])) && index == old(index) + 1
      ensures !old(HasNext()) ==> p == None && index == old(index)
    {
      if HasNext() {
        var key := keys[index];
        var profile := Lookup(key);
        index := index + 1;
        return Some(profile);
      }
      return None;
    }

    function Lookup(key: int): (p: UserProfile)
      ensures key in profiles ==> p == profiles[key]
      ensures key !in profiles ==> p == ZeroProfile
    {
      if key in profiles then profiles[key] else ZeroProfile
    }
  }

  class UserProfileMap {
    var profiles: map<int, UserProfile>

    constructor (profiles: map<int, UserProfile>)
      ensures this.profiles == profiles
    {
      this.profiles := profiles;
    }

    /** Snapshots the keys, each exactly once, in Go's unspecified order. */
    method CreateIterator() returns (it: MapIterator)
      ensures fresh(it) && it.Valid() && it.index == 0
      ensures it.profiles == profiles
      ensures GoMaps.EnumeratesKeys(profiles, it.keys) && |it.keys| == |profiles|
    {
      var keys := GoMaps.Keys(profiles);
      it := new MapIterator(profiles, keys);
    }
  }

  /** Draining a map iterator yields the profile under each remaining
      snapshot key, in snapshot order; for a fresh iterator that is every
      stored profile exactly once. */
  method DrainMap(it: MapIterator) returns (out: seq<UserProfile>)
    requires it.Valid()
    modifies it
    ensures it.Valid() && !it.HasNext()
    ensures |out| == |it.keys| - old(it.index)
    ensures forall i :: 0 <= i < |out| ==> out[i] == it.Lookup(it.keys[old(it.index) + i])
  {
    out := [];
    while it.HasNext()
      invariant it.Valid() && old(it.index) <= it.index
      invariant |out| == it.index - old(it.index)
      invariant forall i :: 0 <= i < |out| ==> out[i] == it.Lookup(it.keys[old(it.index) + i])
      decreases |it.keys| - it.index
    {
      var p := it.Next();
      out := out + [p.value];
    }
  }

  /** A slice iterator has a next profile exactly when some of its profiles
      are still to be returned. */
  lemma SliceHasNextIffRemaining(it: SliceIterator)
    requires it.Valid()
    ensures it.HasNext() <==> it.profiles[it.index..] != []
  {
    assert |it.profiles[it.index..]| == |it.profiles| - it.index;
  }

  /** A map iterator has a next profile exactly when some snapshot keys are
      still to be visited. */
  lemma MapHasNextIffRemaining(it: MapIterator)
    requires it.Valid()
    ensures it.HasNext() <==> it.keys[it.index..] != []
  {
    assert |it.keys[it.index..]| == |it.keys| - it.index;
  }

  /** On a key snapshot taken from the map itself, as CreateIterator takes
      it, Lookup never falls back to the zero value: every snapshot key reads
      the profile stored under it. */
  lemma SnapshotLookups(it: MapIterator)
    requires GoMaps.EnumeratesKeys(it.profiles, it.keys)
    ensures forall i :: 0 <= i < |it.keys| ==> it.keys[i] in it.profiles
    ensures forall i :: 0 <= i < |it.keys| ==> it.Lookup(it.keys[i]) == it.profiles[it.keys[i]]
  {
    forall i | 0 <= i < |it.keys|
      ensures it.keys[i] in it.profiles
    {
      assert it.keys[i] in it.keys;
    }
  }

  /** Draining a fresh iterator over a snapshot of the map's keys yields every
      stored profile, and only stored profiles, one per key. */
  lemma DrainedFreshMap(m: map<int, UserProfile>, ks: seq<int>, out: seq<UserProfile>)
    requires GoMaps.EnumeratesKeys(m, ks) && |out| == |ks|
    requires forall i :: 0 <= i < |out| ==> out[i] == (if ks[i] in m then m[ks[i]] else ZeroProfile)
    ensures |out| == |m|
    ensures forall i :: 0 <= i < |out| ==> ks[i] in m && out[i] == m[ks[i]]
    ensures forall k :: k in m ==> m[k] in out
  {
    GoMaps.EnumerationLength(m, ks);
    forall i | 0 <= i < |out|
      ensures ks[i] in m && out[i] == m[ks[i]]
    {
      assert ks[i] in ks;
    }
    forall k | k in m
      ensures m[k] in out
    {
      var i :| 0 <= i < |ks| && ks[i] == k;
      assert out[i] == m[k];
    }
  }

  /** A distinct enumeration of a two-key map is one of its two orders. */
  lemma TwoKeys(ks: seq<int>, m: map<int, UserProfile>)
    requires m.Keys == {3, 4} && GoMaps.EnumeratesKeys(m, ks)
    ensures ks == [3, 4] || ks == [4, 3]
  {
    assert 3 in ks && 4 in ks;
    GoMaps.EnumerationLength(m, ks);
  }

  /** The demo: the slice yields Alice then Bob; the map yields Charlie and
      Dave, once each, in either order. */
  method Demo() returns (fromSlice: seq<UserProfile>, fromMap: seq<UserProfile>)
    ensures fromSlice == [UserProfile(1, "Alice"), UserProfile(2, "Bob")]
    ensures fromMap == [UserProfile(3, "Charlie"), UserProfile(4, "Dave")] ||
            fromMap == [UserProfile(4, "Dave"), UserProfile(3, "Charlie")]
  {
    var sliceData := new UserProfileSlice([UserProfile(1, "Alice"), UserProfile(2, "Bob")]);
    var mapData := new UserProfileMap(map[3 := UserProfile(3, "Charlie"), 4 := UserProfile(4, "Dave")]);
    var sliceIterator := sliceData.CreateIterator();
    fromSlice := DrainSlice(sliceIterator);
    var mapIterator := mapData.CreateIterator();
    TwoKeys(mapIterator.keys, mapData.profiles);
    fromMap := DrainMap(mapIterator);
  }
}
