/** The cache directory of filesystem.cc: which entries a restore loads and which ones
    a save keeps, deletes or replaces. */
module KvCache {
  const TWO64: nat := 0x1_0000_0000_0000_0000

  /** What the header line of a cache file says; main and mtp are unsigned 64-bit. */
  datatype Header = Unreadable | Sizes(length: nat, main: nat, mtp: nat)

  datatype Entry = Entry(header: Header, size: nat)
  {
    /** A file: its size is a signed 64-bit number, its header line is found in the
        first 512 bytes. */
    predicate Valid() {
      && size < TWO64 / 2
      && (header.Sizes? ==> header.main < TWO64 && header.mtp < TWO64 && header.length < 512 && header.length + 1 <= size)
    }

    /** The writer's own layout: header line, main state, mirror state. */
    predicate Exact() {
      header.Sizes? && size == header.length + 1 + header.main + header.mtp
    }

    predicate Mirrored() {
      header.Sizes? && header.mtp > 0
    }
  }

  function Wrap64(n: nat): nat {
    n % TWO64
  }

  /** The size check of try_load_v1_cache, in 64-bit arithmetic. */
  predicate LoaderAccepts(e: Entry)
    requires e.Valid()
  {
    && e.header.Sizes?
    && var payload := e.size - (e.header.length + 1);
       !(e.header.main > payload || e.header.mtp > payload - e.header.main
         || payload != Wrap64(e.header.main + e.header.mtp))
  }

  /** The size check of the sweep in write_v1_cache, in 64-bit arithmetic. */
  predicate SweepKeeps(e: Entry)
    requires e.Valid()
  {
    && e.header.Sizes?
    && !(e.header.main > e.size || e.header.mtp > e.size - e.header.main
         || e.size != Wrap64(e.header.length + 1 + e.header.main + e.header.mtp))
  }

  /** The two checks are the same, and exact over unbounded integers. */
  lemma ChecksAreExact(e: Entry)
    requires e.Valid()
    ensures LoaderAccepts(e) <==> e.Exact()
    ensures SweepKeeps(e) <==> e.Exact()
  {
    if e.header.Sizes? {
      var sum := e.header.main + e.header.mtp;
      if sum <= e.size {
        assert Wrap64(sum) == sum && Wrap64(e.header.length + 1 + sum) == e.header.length + 1 + sum;
      }
    }
  }

  /** Without the bounds, a wrapping sum would accept sizes that are not there. */
  lemma BoundsAreNeeded()
    ensures exists e: Entry ::
              && e.Valid() && e.header.Sizes? && !e.Exact()
              && e.size - (e.header.length + 1) == Wrap64(e.header.main + e.header.mtp)
  {
    var e := Entry(Sizes(20, TWO64 - 1, 101), 121);
    assert e.header.main + e.header.mtp == TWO64 + 100;
    assert Wrap64(TWO64 + 100) == 100;
  }

  /** A file name: the save's name and the hash of its tokens and model. */
  datatype Key = Key(name: string, hash: string)

  class Directory {
    var files: map<Key, Entry>

    ghost predicate Valid()
      reads this
    {
      forall k :: k in files ==> files[k].Valid()
    }

    constructor ()
      ensures Valid() && files == map[]
    {
      files := map[];
    }

    /** Delete every same-hash entry whose size check fails, and say what is left. */
    method Sweep(hash: string) returns (kept: bool, mirrored: bool)
      requires Valid()
      modifies this
      ensures Valid()
      ensures forall k :: k in files <==> k in old(files) && (k.hash == hash ==> LoaderAccepts(old(files)[k]))
      ensures forall k :: k in files ==> files[k] == old(files)[k]
      ensures kept <==> exists k :: k in files && k.hash == hash
      ensures mirrored <==> exists k :: k in files && k.hash == hash && files[k].Mirrored()
    {
      var todo := set k | k in files && k.hash == hash;
      ghost var all := todo;
      kept, mirrored := false, false;
      while todo != {}
        invariant Valid() && todo <= all && all == (set k | k in old(files) && k.hash == hash)
        invariant forall k :: k in files <==> k in old(files) && (k in all - todo ==> LoaderAccepts(old(files)[k]))
        invariant forall k :: k in files ==> files[k] == old(files)[k]
        invariant kept <==> exists k :: k in all - todo && k in files
        invariant mirrored <==> exists k :: k in all - todo && k in files && files[k].Mirrored()
        decreases |todo|
      {
        var k :| k in todo;
        ChecksAreExact(files[k]);
        if SweepKeeps(files[k]) {
          kept, mirrored := true, mirrored || files[k].Mirrored();
        } else {
          files := files - {k};
        }
        todo := todo - {k};
      }
    }

    method DeleteAll(hash: string)
      requires Valid()
      modifies this
      ensures Valid()
      ensures files == map k | k in old(files) && k.hash != hash :: old(files)[k]
    {
      files := map k | k in files && k.hash != hash :: files[k];
    }

    /** Not one of the stale entries a save clears first: other contents saved under
        the same name (or a name that continues it), and the previous save's hash. */
    predicate Spared(k: Key, key: Key, oldHash: string) {
      && !(key.name != "" && k != key && (k.name == key.name || key.name + "-" <= k.name))
      && (oldHash == "" || k.hash != oldHash)
    }

    method DropStale(key: Key, oldHash: string)
      requires Valid()
      modifies this
      ensures Valid()
      ensures files == map k | k in old(files) && Spared(k, key, oldHash) :: old(files)[k]
    {
      files := map k | k in files && Spared(k, key, oldHash) :: files[k];
    }

    /** An entry these tokens could be restored from is good enough for a write: it is not
        stale, and it holds a mirror if the write would bring one. */
    ghost predicate GoodEnough(k: Key, key: Key, oldHash: string, withMirror: bool)
      requires Valid()
      reads this
    {
      && k in files && k.hash == key.hash && files[k].Exact() && (files[k].Mirrored() || !withMirror)
      && (k == key || key.name == "" || !(k.name == key.name || key.name + "-" <= k.name))
      && (oldHash == "" || k.hash != oldHash)
    }

    /** write_v1_cache.  `state` is the entry it would write; `covered` says that the
        memory holds exactly the saved tokens; `withMirror` that a mirror is given.

        Other tokens' entries are untouched but for the stale ones: those of the same name, or
        of a name that continues it, and those of the previous save.  If an entry for these
        tokens is good enough, nothing is written, and exactly the loadable ones stay; else the
        new one is the only one, or there is none if the memory does not hold the tokens. */
    method Write(key: Key, oldHash: string, state: Entry, withMirror: bool, covered: bool) returns (ok: bool)
      requires Valid() && state.Valid() && state.Exact() && (state.Mirrored() ==> withMirror)
      modifies this
      ensures Valid()
      ensures forall k: Key :: k.hash != key.hash ==>
                (k in files <==> && k in old(files) && (oldHash == "" || k.hash != oldHash)
                                 && (key.name == "" || !(k.name == key.name || key.name + "-" <= k.name)))
      ensures forall k: Key :: k.hash != key.hash && k in files ==> files[k] == old(files)[k]
      ensures old(exists k: Key :: GoodEnough(k, key, oldHash, withMirror)) ==>
                && ok
                && (forall k :: k in files && k.hash == key.hash ==>
                      k in old(files) && files[k] == old(files)[k] && files[k].Exact())
                && (forall k :: k in old(files) && k.hash == key.hash && old(files)[k].Exact() && Spared(k, key, oldHash) ==>
                      k in files)
                && (forall k: Key :: old(GoodEnough(k, key, oldHash, withMirror)) ==> k in files)
      ensures !old(exists k: Key :: GoodEnough(k, key, oldHash, withMirror)) ==>
                && ok == covered && (ok ==> key in files && files[key] == state)
                && (forall k :: k in files && k.hash == key.hash ==> ok && k == key)
    {
      forall e: Entry | e.Valid() ensures LoaderAccepts(e) <==> e.Exact() {
        ChecksAreExact(e);
      }
      DropStale(key, oldHash);
      var kept, mirrored := Sweep(key.hash);
      if mirrored || (!withMirror && kept) {
        ghost var k :| k in files && k.hash == key.hash && (files[k].Mirrored() || !withMirror);
        assert old(GoodEnough(k, key, oldHash, withMirror));
        return true;
      }
      DeleteAll(key.hash);
      if !covered {
        return false;
      }
      files := files[key := state];
      return true;
    }
  }
}
