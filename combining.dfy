/**
  What `TorBoost.combine` computes: the `.chunk` names of a directory listing,
  sorted by the numeric start in their names, and the concatenation of those
  files' contents, written to the file named after the URL's basename.
 */
module Combining {
  import opened Wrappers
  import opened Ranges
  import opened Naming

  /** Why `combine` stops before writing anything. */
  datatype CombineError =
    | BadChunkName        // a `.chunk` name whose start `int()` rejects: ValueError
    | OutputIsDirectory   // the output path names a directory, which `unlink` refuses

  /** The chunk directory: file name to contents. */
  type Store = map<string, seq<byte>>

  predicate Distinct<T(==)>(s: seq<T>)
  {
    forall i, j :: 0 <= i < j < |s| ==> s[i] != s[j]
  }

  /** `listing` names every file of `store` exactly once, in some order (what `os.listdir` returns). */
  ghost predicate Enumerates(listing: seq<string>, store: Store)
  {
    Distinct(listing) && forall n :: n in listing <==> n in store
  }

  /** `[fil for fil in listing if fil.endswith('.chunk')]`. */
  function ChunkFiles(listing: seq<string>): (files: seq<string>)
    ensures forall n :: n in files <==> n in listing && IsChunkFile(n)
    ensures Distinct(listing) ==> Distinct(files)
  {
    if listing == [] then []
    else (if IsChunkFile(listing[0]) then [listing[0]] else []) + ChunkFiles(listing[1..])
  }

  /** Every name has a start that `int()` accepts. */
  predicate AllParse(names: seq<string>)
  {
    forall n :: n in names ==> ParseStart(n).Some?
  }

  /** The sort key `int(name.split('-')[0])`, for names that have one. */
  function StartKey(name: string): int
  {
    match ParseStart(name)
    case Some(start) => start
    case None => 0
  }

  predicate SortedBy<T>(names: seq<T>, key: T -> int)
  {
    forall i, j :: 0 <= i < j < |names| ==> key(names[i]) <= key(names[j])
  }

  predicate StrictlySortedBy<T>(names: seq<T>, key: T -> int)
  {
    forall i, j :: 0 <= i < j < |names| ==> key(names[i]) < key(names[j])
  }

  /** Inserts `n` after every name whose key is not larger, keeping the order by key. */
  function InsertBy<T(==)>(n: T, sorted: seq<T>, key: T -> int): (r: seq<T>)
    requires SortedBy(sorted, key)
    ensures SortedBy(r, key)
    ensures multiset(r) == multiset(sorted) + multiset{n}
  {
    if sorted == [] then [n]
    else if key(n) < key(sorted[0]) then [n] + sorted
    else
      var rest := sorted[1..];
      SortedTail(sorted, key);
      var rec := InsertBy(n, rest, key);
      HeadBelow(sorted, n, rec, key);
      assert sorted == [sorted[0]] + rest;
      [sorted[0]] + rec
  }

  /**
    The first of a sorted sequence has a key no larger than anything in a
    rearrangement of the rest with one more element whose key is not smaller.
   */
  lemma HeadBelow<T>(sorted: seq<T>, n: T, rec: seq<T>, key: T -> int)
    requires SortedBy(sorted, key) && sorted != [] && key(sorted[0]) <= key(n)
    requires SortedBy(rec, key)
    requires multiset(rec) == multiset(sorted[1..]) + multiset{n}
    ensures SortedBy([sorted[0]] + rec, key)
  {
    var rest := sorted[1..];
    forall x | x in rec
      ensures key(sorted[0]) <= key(x)
    {
      assert x in multiset(rec);
      if x != n {
        assert x in multiset(rest);
        var i :| 0 <= i < |rest| && rest[i] == x;
        assert sorted[i + 1] == x;
      }
    }
    var s := [sorted[0]] + rec;
    forall p, q | 0 <= p < q < |s|
      ensures key(s[p]) <= key(s[q])
    {
      if p > 0 {
        assert s[p] == rec[p - 1] && s[q] == rec[q - 1];
      } else {
        assert s[q] == rec[q - 1] && rec[q - 1] in rec;
      }
    }
  }

  /**
    Python's `sorted(names, key=key)`: the same names ordered by key; names
    with equal keys keep their order, as Python's stable sort keeps them.
   */
  function SortBy<T(==)>(names: seq<T>, key: T -> int): (r: seq<T>)
    ensures SortedBy(r, key)
    ensures multiset(r) == multiset(names)
  {
    if names == [] then []
    else
      var init, last := names[..|names| - 1], names[|names| - 1];
      assert names == init + [last];
      InsertBy(last, SortBy(init, key), key)
  }

  /** The bytes of the files `names`, one after the other. */
  function Concat(names: seq<string>, store: Store): seq<byte>
    requires forall n :: n in names ==> n in store
  {
    if names == [] then []
    else Concat(names[..|names| - 1], store) + store[names[|names| - 1]]
  }

  /**
    What `combine` produces from a listing of the chunk directory and the URL's
    path: either the error it raises before touching the output, or the output
    file's name and its new contents.
   */
  function CombineOutcome(listing: seq<string>, store: Store, urlPath: string, subdirs: set<string>): (out: Result<(string, seq<byte>), CombineError>)
    requires forall n :: n in listing ==> n in store
    ensures out.Failure? <==> !AllParse(ChunkFiles(listing)) || IsDirectoryName(Basename(urlPath), subdirs)
    ensures out.Failure? ==> (out.error == BadChunkName <==> !AllParse(ChunkFiles(listing)))
    ensures out.Success? ==> out.value.0 == Basename(urlPath)
  {
    var files := ChunkFiles(listing);
    if !AllParse(files) then Failure(BadChunkName)
    else
      var name := Basename(urlPath);
      if IsDirectoryName(name, subdirs) then Failure(OutputIsDirectory)
      else
        var sorted := SortBy(files, StartKey);
        assert forall n :: n in sorted ==> n in multiset(files);
        Success((name, Concat(sorted, store)))
  }

  /** The chunk names of a plan, in plan order. */
  function PlanNames(plan: seq<ByteRange>): (names: seq<string>)
    ensures |names| == |plan|
    ensures forall i :: 0 <= i < |plan| ==> names[i] == ChunkName(plan[i])
  {
    seq(|plan|, i requires 0 <= i < |plan| => ChunkName(plan[i]))
  }

  /** The file for `r` in `store` holds exactly the bytes of `buf` that `r` selects. */
  predicate SliceStored(store: Store, buf: seq<byte>, r: ByteRange)
  {
    && 0 <= r.start <= r.end + 1 <= |buf|
    && ChunkName(r) in store
    && store[ChunkName(r)] == buf[r.start..r.end + 1]
  }

  /**
    Two orderings of the same names, one sorted by key and one strictly
    sorted by key, are the same sequence: sorting leaves no freedom when the
    keys are distinct.
   */
  lemma {:induction false} SortedUnique<T>(s1: seq<T>, s2: seq<T>, key: T -> int)
    requires SortedBy(s1, key) && StrictlySortedBy(s2, key)
    requires multiset(s1) == multiset(s2)
    ensures s1 == s2
  {
    if s1 == [] {
      assert |s2| == |multiset(s2)| == 0;
    } else {
      SameHead(s1, s2, key);
      SameTail(s1, s2);
      SortedTail(s1, key);
      StrictlySortedTail(s2, key);
      SortedUnique(s1[1..], s2[1..], key);
      assert s1 == [s1[0]] + s1[1..] && s2 == [s2[0]] + s2[1..];
    }
  }

  /** The first of the sorted names is the first of the strictly sorted ones. */
  lemma SameHead<T>(s1: seq<T>, s2: seq<T>, key: T -> int)
    requires SortedBy(s1, key) && StrictlySortedBy(s2, key)
    requires multiset(s1) == multiset(s2) && s1 != []
    ensures s2 != [] && s1[0] == s2[0]
  {
    var x := s1[0];
    assert x in multiset(s2);
    var j :| 0 <= j < |s2| && s2[j] == x;
    var y := s2[0];
    assert j > 0 ==> key(y) < key(x);
    assert y in multiset(s1);
    var i :| 0 <= i < |s1| && s1[i] == y;
    assert i > 0 ==> key(x) <= key(y);
  }

  /** Removing the same first element from two orderings of the same multiset leaves the same multiset. */
  lemma SameTail<T>(s1: seq<T>, s2: seq<T>)
    requires multiset(s1) == multiset(s2) && s1 != [] && s2 != [] && s1[0] == s2[0]
    ensures multiset(s1[1..]) == multiset(s2[1..])
  {
    var x, t1, t2 := s1[0], s1[1..], s2[1..];
    assert s1 == [x] + t1 && s2 == [x] + t2;
    assert multiset(s1) == multiset{x} + multiset(t1);
    assert multiset(s2) == multiset{x} + multiset(t2);
    forall z
      ensures multiset(t1)[z] == multiset(t2)[z]
    {
      assert multiset(s1)[z] == multiset{x}[z] + multiset(t1)[z];
      assert multiset(s2)[z] == multiset{x}[z] + multiset(t2)[z];
    }
  }

  lemma SortedTail<T>(s: seq<T>, key: T -> int)
    requires SortedBy(s, key) && s != []
    ensures SortedBy(s[1..], key)
  {
    var t := s[1..];
    forall p, q | 0 <= p < q < |t|
      ensures key(t[p]) <= key(t[q])
    {
      assert t[p] == s[p + 1] && t[q] == s[q + 1];
    }
  }

  lemma StrictlySortedTail<T>(s: seq<T>, key: T -> int)
    requires StrictlySortedBy(s, key) && s != []
    ensures StrictlySortedBy(s[1..], key)
  {
    var t := s[1..];
    forall p, q | 0 <= p < q < |t|
      ensures key(t[p]) < key(t[q])
    {
      assert t[p] == s[p + 1] && t[q] == s[q + 1];
    }
  }

  /** A duplicate-free sequence holds each of its elements once. */
  lemma {:induction false} DistinctCount<T>(s: seq<T>, x: T)
    requires Distinct(s)
    ensures multiset(s)[x] == if x in s then 1 else 0
  {
    if s != [] {
      var t := s[1..];
      assert s == [s[0]] + t;
      assert Distinct(t) by {
        forall p, q | 0 <= p < q < |t| ensures t[p] != t[q] {
          assert t[p] == s[p + 1] && t[q] == s[q + 1];
        }
      }
      assert s[0] !in t by {
        forall k | 0 <= k < |t| ensures t[k] != s[0] {
          assert t[k] == s[k + 1];
        }
      }
      DistinctCount(t, x);
    }
  }

  /** Two duplicate-free sequences with the same elements hold them equally often. */
  lemma DistinctSameElements<T>(a: seq<T>, b: seq<T>)
    requires Distinct(a) && Distinct(b)
    requires forall x :: x in a <==> x in b
    ensures multiset(a) == multiset(b)
  {
    forall x ensures multiset(a)[x] == multiset(b)[x] {
      DistinctCount(a, x);
      DistinctCount(b, x);
    }
  }

  /** Concatenating the chunk files of a run of ranges gives the buffer's slices for that run. */
  lemma {:induction false} ConcatPlanNames(buf: seq<byte>, rs: seq<ByteRange>, store: Store)
    requires forall i :: 0 <= i < |rs| ==> SliceStored(store, buf, rs[i])
    ensures WithinBounds(rs, |buf|)
    ensures forall n :: n in PlanNames(rs) ==> n in store
    ensures Concat(PlanNames(rs), store) == Slices(buf, rs)
  {
    PlanNamesStored(buf, rs, store);
    if rs != [] {
      var init := rs[..|rs| - 1];
      assert forall i :: 0 <= i < |init| ==> init[i] == rs[i];
      ConcatPlanNames(buf, init, store);
      var names := PlanNames(rs);
      assert names[..|names| - 1] == PlanNames(init);
      assert SliceStored(store, buf, rs[|rs| - 1]);
    }
  }

  /** Ranges whose slices are stored lie in the buffer, and their names are in the store. */
  lemma PlanNamesStored(buf: seq<byte>, rs: seq<ByteRange>, store: Store)
    requires forall i :: 0 <= i < |rs| ==> SliceStored(store, buf, rs[i])
    ensures WithinBounds(rs, |buf|)
    ensures forall n :: n in PlanNames(rs) ==> n in store
  {
    forall n | n in PlanNames(rs)
      ensures n in store
    {
      var i :| 0 <= i < |rs| && PlanNames(rs)[i] == n;
      assert SliceStored(store, buf, rs[i]);
    }
  }

  /**
    Splitting a buffer along the plan for its length, storing each piece under
    its chunk name, and combining whatever listing order the directory gives,
    reproduces the buffer byte for byte, provided the directory holds no
    `.chunk` file other than the plan's.
   */
  lemma CombinePlanRoundTrip(buf: seq<byte>, chunkSize: int, plan: seq<ByteRange>,
                             listing: seq<string>, store: Store, urlPath: string, subdirs: set<string>)
    requires PlanChunks(Some(|buf|), chunkSize) == Success(plan)
    requires forall r :: r in plan ==> SliceStored(store, buf, r)
    requires forall n :: n in store && IsChunkFile(n) ==> n in PlanNames(plan)
    requires Enumerates(listing, store)
    requires !IsDirectoryName(Basename(urlPath), subdirs)
    ensures CombineOutcome(listing, store, urlPath, subdirs) == Success((Basename(urlPath), buf))
  {
    PlanOutcome(Some(|buf|), chunkSize);
    assert forall i :: 0 <= i < |plan| ==> SliceStored(store, buf, plan[i]);
    PlanNamesStored(buf, plan, store);
    PlanNamesOrdered(|buf|, chunkSize, plan);
    ListedChunks(plan, listing, store);
    CombineSucceeds(listing, store, urlPath, subdirs);
    var files: seq<string> :| && SortedBy(files, StartKey)
                              && multiset(files) == multiset(ChunkFiles(listing))
                              && (forall n :: n in files ==> n in store)
                              && CombineOutcome(listing, store, urlPath, subdirs).value.1 == Concat(files, store);
    SortedUnique(files, PlanNames(plan), StartKey);
    ConcatPlanNames(buf, plan, store);
    PlanReassemble(buf, chunkSize);
  }

  /**
    When both checks pass, `combine` writes the output file under the URL's
    basename, and its contents are the `.chunk` files of the listing, each
    once, one after the other in order of their starts.
   */
  lemma CombineSucceeds(listing: seq<string>, store: Store, urlPath: string, subdirs: set<string>)
    requires forall n :: n in listing ==> n in store
    requires AllParse(ChunkFiles(listing)) && !IsDirectoryName(Basename(urlPath), subdirs)
    ensures CombineOutcome(listing, store, urlPath, subdirs).Success?
    ensures CombineOutcome(listing, store, urlPath, subdirs).value.0 == Basename(urlPath)
    ensures exists files: seq<string> ::
              && SortedBy(files, StartKey)
              && multiset(files) == multiset(ChunkFiles(listing))
              && (forall n :: n in files ==> n in store)
              && CombineOutcome(listing, store, urlPath, subdirs).value.1 == Concat(files, store)
  {
    CombineWrites(listing, store, urlPath, subdirs);
    var files := SortBy(ChunkFiles(listing), StartKey);
    assert SortedBy(files, StartKey) && multiset(files) == multiset(ChunkFiles(listing));
  }

  /** The successful outcome of `combine`, unfolded: the basename and the bytes of the sorted chunk files. */
  lemma CombineWrites(listing: seq<string>, store: Store, urlPath: string, subdirs: set<string>)
    requires forall n :: n in listing ==> n in store
    requires AllParse(ChunkFiles(listing)) && !IsDirectoryName(Basename(urlPath), subdirs)
    ensures forall n :: n in SortBy(ChunkFiles(listing), StartKey) ==> n in store
    ensures CombineOutcome(listing, store, urlPath, subdirs) ==
              Success((Basename(urlPath), Concat(SortBy(ChunkFiles(listing), StartKey), store)))
  {
    var files := ChunkFiles(listing);
    assert forall n :: n in SortBy(files, StartKey) ==> n in multiset(files);
  }

  /**
    The chunk names of a plan all parse, are duplicate-free and are strictly
    increasing in their parsed starts.
   */
  lemma PlanNamesOrdered(contentSize: int, chunkSize: int, plan: seq<ByteRange>)
    requires PlanChunks(Some(contentSize), chunkSize) == Success(plan) && 0 < chunkSize <= contentSize
    ensures forall n :: n in PlanNames(plan) ==> IsChunkFile(n) && ParseStart(n).Some?
    ensures StrictlySortedBy(PlanNames(plan), StartKey)
    ensures Distinct(PlanNames(plan))
  {
    PlanLayout(contentSize, chunkSize);
    var names := PlanNames(plan);
    forall i | 0 <= i < |plan|
      ensures ParseStart(names[i]) == Some(i * chunkSize)
      ensures IsChunkFile(names[i])
    {
      ParseStartOfChunkName(plan[i]);
    }
    forall i, j | 0 <= i < j < |names|
      ensures StartKey(names[i]) < StartKey(names[j])
    {
      MulStrict(i, j, chunkSize);
    }
  }

  /**
    When the directory holds every plan chunk and no other `.chunk` file, the
    `.chunk` names of its listing are the plan's names, each once.
   */
  lemma ListedChunks(plan: seq<ByteRange>, listing: seq<string>, store: Store)
    requires forall n :: n in PlanNames(plan) ==> n in store && IsChunkFile(n)
    requires forall n :: n in store && IsChunkFile(n) ==> n in PlanNames(plan)
    requires Distinct(PlanNames(plan))
    requires Enumerates(listing, store)
    ensures AllParse(ChunkFiles(listing)) <==> AllParse(PlanNames(plan))
    ensures multiset(ChunkFiles(listing)) == multiset(PlanNames(plan))
  {
    var files, names := ChunkFiles(listing), PlanNames(plan);
    assert forall n :: n in files <==> n in names;
    DistinctSameElements(files, names);
  }
}
