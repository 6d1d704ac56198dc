/** The sequence-record chunk codec (`formatConversion`): a long nucleotide
    sequence is cut into fixed-size slices, each slice compressed and tagged
    with its position, so that it fits one MongoDB document or one Azure Table
    entity; merging sorts the slices by position, decompresses and joins them. */
module ChunkCodec {
  import opened PyObjects
  import opened Text

  /** Slice length used when the target is MongoDB (`int(3*10e4)`). */
  const MongoChunkSize: nat := 300000
  /** Slice length used for any other target, i.e. Azure Table (`int(6*10e3)`). */
  const TableChunkSize: nat := 60000

  type Bytes = seq<bv8>

  /** `zstandard.compress(s.encode())` and `zstandard.decompress(b).decode()`;
      decompression may raise on bytes that are not a compressed frame. */
  datatype Compressor = Compressor(pack: string -> Bytes, unpack: Bytes -> Result<string>)

  /** Decompressing what was compressed gives the text back. */
  ghost predicate Lossless(c: Compressor)
  {
    forall s :: c.unpack(c.pack(s)) == Ok(s)
  }

  /** One stored slice: `{_id, accession_version, sequence, chunk_number}`. */
  datatype Chunk = Chunk(id: string, accessionVersion: string, payload: Bytes, chunkNumber: int)

  /** What merging returns: `{accession_version, sequence}`. */
  datatype Record = Record(accessionVersion: string, sequence: string)

  function ChunkSizeFor(target: string): (n: nat)
    ensures 0 < n
    ensures n == MongoChunkSize <==> target == "mongodb"
    ensures target != "mongodb" ==> n == TableChunkSize
  {
    if target == "mongodb" then MongoChunkSize else TableChunkSize
  }

  /** `f"{identifier}_{idx}"`. */
  function ChunkId(identifier: string, idx: nat): string
  {
    identifier + "_" + NatToString(idx)
  }

  function MakeChunk(c: Compressor, identifier: string, idx: nat, piece: string): Chunk
  {
    Chunk(ChunkId(identifier, idx), identifier, c.pack(piece), idx)
  }

  function Min(a: int, b: int): int
  {
    if a < b then a else b
  }

  /** The chunks `_split_` appends for `rest`, numbering them from `first`. */
  function SplitChunks(c: Compressor, identifier: string, rest: string, size: nat, first: nat): seq<Chunk>
    requires 0 < size
    decreases |rest|
  {
    if rest == [] then []
    else
      var n := Min(size, |rest|);
      [MakeChunk(c, identifier, first, rest[..n])] + SplitChunks(c, identifier, rest[n..], size, first + 1)
  }

  /** `_split_` yields ceil(len(sequence) / size) chunks: none for an empty
      sequence, otherwise the fewest slices of `size` that cover it. */
  lemma {:induction false} SplitCount(c: Compressor, identifier: string, s: string, size: nat, first: nat)
    requires 0 < size
    ensures |SplitChunks(c, identifier, s, size, first)| == 0 <==> s == []
    ensures s != [] ==> (|SplitChunks(c, identifier, s, size, first)| - 1) * size < |s|
                        <= |SplitChunks(c, identifier, s, size, first)| * size
    decreases |s|
  {
    if s != [] {
      var n := Min(size, |s|);
      var k := |SplitChunks(c, identifier, s[n..], size, first + 1)|;
      SplitCount(c, identifier, s[n..], size, first + 1);
      assert (k + 1) * size == k * size + size;
      if 0 < k {
        assert k * size == (k - 1) * size + size;
      }
    }
  }

  /** Where slice `j` starts: `j` steps of `size` from the beginning. */
  function Start(j: nat, size: nat): nat
  {
    if j == 0 then 0 else Start(j - 1, size) + size
  }

  lemma {:induction false} StartIsProduct(j: nat, size: nat)
    ensures Start(j, size) == j * size
  {
    if j > 0 {
      StartIsProduct(j - 1, size);
      assert (j - 1) * size + size == j * size;
    }
  }

  /** Chunk `j` carries number `first + j`, the `_id` built from that number,
      the identifier as accession, and the compressed slice that starts
      `j` steps of `size` in and holds `size` characters, or what is left. */
  lemma {:induction false} SplitChunkAt(c: Compressor, identifier: string, s: string, size: nat, first: nat, j: nat)
    requires 0 < size
    requires j < |SplitChunks(c, identifier, s, size, first)|
    ensures Start(j, size) < |s|
    ensures SplitChunks(c, identifier, s, size, first)[j]
            == MakeChunk(c, identifier, first + j, s[Start(j, size) .. Min(Start(j, size) + size, |s|)])
    decreases |s|
  {
    var n := Min(size, |s|);
    if j > 0 {
      assert n == size;
      assert SplitChunks(c, identifier, s, size, first)[j] == SplitChunks(c, identifier, s[size..], size, first + 1)[j - 1];
      SplitChunkAt(c, identifier, s[size..], size, first + 1, j - 1);
      var lo := Start(j - 1, size);
      SliceOfSuffix(s, size, lo, Min(lo + size, |s| - size));
    }
  }

  /** `_split_`'s chunk `j` is `s[j * size : j * size + size]`, compressed; so
      every chunk but the last holds exactly `size` characters. */
  lemma SplitChunkSlice(c: Compressor, identifier: string, s: string, size: nat, j: nat)
    requires 0 < size
    requires j < |SplitChunks(c, identifier, s, size, 0)|
    ensures j * size < |s|
    ensures SplitChunks(c, identifier, s, size, 0)[j]
            == MakeChunk(c, identifier, j, s[j * size .. Min(j * size + size, |s|)])
  {
    SplitChunkAt(c, identifier, s, size, 0, j);
    StartIsProduct(j, size);
  }

  /** A slice of a suffix is a slice of the whole, shifted by where the suffix starts. */
  lemma SliceOfSuffix(s: string, n: nat, lo: nat, hi: nat)
    requires n <= |s| && lo <= hi <= |s| - n
    ensures s[n..][lo..hi] == s[n + lo .. n + hi]
  {
  }

  /** `_id`s of the chunks of one split are pairwise distinct. */
  lemma SplitIdsDistinct(c: Compressor, identifier: string, s: string, size: nat, i: nat, j: nat)
    requires 0 < size
    requires i < j < |SplitChunks(c, identifier, s, size, 0)|
    ensures SplitChunks(c, identifier, s, size, 0)[i].id != SplitChunks(c, identifier, s, size, 0)[j].id
  {
    SplitChunkAt(c, identifier, s, size, 0, i);
    SplitChunkAt(c, identifier, s, size, 0, j);
    var p := identifier + "_";
    if ChunkId(identifier, i) == ChunkId(identifier, j) {
      assert (p + NatToString(i))[|p|..] == NatToString(i);
      assert (p + NatToString(j))[|p|..] == NatToString(j);
      NatToStringInjective(i, j);
    }
  }

  predicate SortedByNumber(cs: seq<Chunk>)
  {
    forall i, j :: 0 <= i < j < |cs| ==> cs[i].chunkNumber <= cs[j].chunkNumber
  }

  /** The numbers of a split run `first, first + 1, ...`. */
  lemma {:induction false} SplitNumbers(c: Compressor, identifier: string, s: string, size: nat, first: nat)
    requires 0 < size
    ensures forall j :: 0 <= j < |SplitChunks(c, identifier, s, size, first)|
              ==> SplitChunks(c, identifier, s, size, first)[j].chunkNumber == first + j
    decreases |s|
  {
    if s != [] {
      SplitNumbers(c, identifier, s[Min(size, |s|)..], size, first + 1);
    }
  }

  /** Puts `x` in front of the first chunk whose number is not below its
      own; chunks of equal number keep their input order (`sorted` is stable). */
  function InsertByNumber(x: Chunk, cs: seq<Chunk>): (r: seq<Chunk>)
    requires SortedByNumber(cs)
    ensures SortedByNumber(r)
    ensures multiset(r) == multiset(cs) + multiset{x}
  {
    if cs == [] || x.chunkNumber <= cs[0].chunkNumber then [x] + cs
    else
      var rest := InsertByNumber(x, cs[1..]);
      InsertKeepsHeadFirst(x, cs, rest);
      [cs[0]] + rest
  }

  lemma InsertKeepsHeadFirst(x: Chunk, cs: seq<Chunk>, rest: seq<Chunk>)
    requires SortedByNumber(cs) && cs != [] && cs[0].chunkNumber < x.chunkNumber
    requires SortedByNumber(rest) && multiset(rest) == multiset(cs[1..]) + multiset{x}
    ensures SortedByNumber([cs[0]] + rest)
    ensures multiset([cs[0]] + rest) == multiset(cs) + multiset{x}
  {
    forall k | 0 <= k < |rest| ensures cs[0].chunkNumber <= rest[k].chunkNumber {
      assert rest[k] in multiset(rest);
      if rest[k] != x {
        assert rest[k] in multiset(cs[1..]);
        var m :| 0 <= m < |cs[1..]| && cs[1..][m] == rest[k];
        assert cs[m + 1] == rest[k];
      }
    }
    var r := [cs[0]] + rest;
    forall i, j | 0 <= i < j < |r| ensures r[i].chunkNumber <= r[j].chunkNumber {
      if i > 0 {
        assert r[i] == rest[i - 1] && r[j] == rest[j - 1];
      }
    }
    assert cs == [cs[0]] + cs[1..];
  }

  /** `sorted(chunks, key=lambda x: x['chunk_number'])`. */
  function SortByNumber(cs: seq<Chunk>): (r: seq<Chunk>)
    ensures SortedByNumber(r)
    ensures multiset(r) == multiset(cs)
  {
    if cs == [] then []
    else
      assert cs == [cs[0]] + cs[1..];
      InsertByNumber(cs[0], SortByNumber(cs[1..]))
  }

  /** No two different chunks carry the same number. */
  ghost predicate NumbersIdentify(cs: seq<Chunk>)
  {
    forall x, y :: x in cs && y in cs && x.chunkNumber == y.chunkNumber ==> x == y
  }

  /** The least-numbered chunk of a sorted list stands first. */
  lemma SortedHeadIsLeast(a: seq<Chunk>, x: Chunk)
    requires SortedByNumber(a) && x in a
    ensures a[0].chunkNumber <= x.chunkNumber
  {
    var i :| 0 <= i < |a| && a[i] == x;
    if i > 0 {
      assert a[0].chunkNumber <= a[i].chunkNumber;
    }
  }

  lemma MultisetHeadTail(a: seq<Chunk>)
    requires a != []
    ensures multiset(a) == multiset{a[0]} + multiset(a[1..])
    ensures multiset(a[1..]) == multiset(a) - multiset{a[0]}
  {
    assert a == [a[0]] + a[1..];
  }

  lemma SortedTail(a: seq<Chunk>)
    requires a != [] && SortedByNumber(a)
    ensures SortedByNumber(a[1..])
  {
    var t := a[1..];
    forall i, j | 0 <= i < j < |t| ensures t[i].chunkNumber <= t[j].chunkNumber {
      assert t[i] == a[i + 1] && t[j] == a[j + 1];
    }
  }

  lemma IdentifyTail(a: seq<Chunk>)
    requires a != [] && NumbersIdentify(a)
    ensures NumbersIdentify(a[1..])
  {
    forall x, y | x in a[1..] && y in a[1..] && x.chunkNumber == y.chunkNumber ensures x == y {
      assert x in a && y in a;
    }
  }

  /** Two sorted lists holding the same chunks start with the same one. */
  lemma SortedHeadsEqual(a: seq<Chunk>, b: seq<Chunk>)
    requires a != [] && SortedByNumber(a) && SortedByNumber(b)
    requires multiset(a) == multiset(b)
    requires NumbersIdentify(a)
    ensures b != [] && a[0] == b[0]
  {
    assert a[0] in multiset(b);
    assert b != [];
    assert b[0] in multiset(a);
    SortedHeadIsLeast(b, a[0]);
    SortedHeadIsLeast(a, b[0]);
  }

  /** Sorting by number leaves nothing to choose once numbers identify chunks. */
  lemma {:induction false} SortedPermutationsEqual(a: seq<Chunk>, b: seq<Chunk>)
    requires SortedByNumber(a) && SortedByNumber(b)
    requires multiset(a) == multiset(b)
    requires NumbersIdentify(a)
    ensures a == b
    decreases |a|
  {
    if a == [] {
      assert |b| == |multiset(b)| == 0;
    } else {
      SortedHeadsEqual(a, b);
      MultisetHeadTail(a);
      MultisetHeadTail(b);
      SortedTail(a);
      SortedTail(b);
      IdentifyTail(a);
      SortedPermutationsEqual(a[1..], b[1..]);
      assert a == [a[0]] + a[1..] && b == [b[0]] + b[1..];
    }
  }

  /** `"".join(decompress(x['sequence']).decode() for x in chunks)`; the
      first failing decompression raises. */
  function JoinPieces(c: Compressor, cs: seq<Chunk>): Result<string>
  {
    if cs == [] then Ok("")
    else
      var head :- c.unpack(cs[0].payload);
      var tail :- JoinPieces(c, cs[1..]);
      Ok(head + tail)
  }

  /** `raise ValueError(f"Error: {e}")`. */
  function Rewrap(e: Error): Error
  {
    ValueError("Error: " + Message(e))
  }

  /** `_merge_`: sort by number, decompress and join, and take the accession
      of the first chunk after sorting; `sequences[0]` of an empty list raises. */
  function Merge(c: Compressor, cs: seq<Chunk>): (r: Result<Record>)
    ensures cs == [] ==> r == Err(ValueError("Error: list index out of range"))
    ensures r.Err? ==> r.error.ValueError?
    ensures r.Ok? ==> exists k :: k in cs && r.value.accessionVersion == k.accessionVersion
                       && forall m :: m in cs ==> k.chunkNumber <= m.chunkNumber
  {
    var sorted := SortByNumber(cs);
    match JoinPieces(c, sorted)
    case Err(e) => Err(Rewrap(e))
    case Ok(text) =>
      if sorted == [] then Err(ValueError("Error: list index out of range"))
      else
        assert sorted[0] in multiset(cs);
        assert forall m :: m in cs ==> m in multiset(sorted);
        Ok(Record(sorted[0].accessionVersion, text))
  }

  /** Merging any reordering of a set of chunks whose numbers identify them
      gives the same result. */
  lemma MergeOrderIndependent(c: Compressor, a: seq<Chunk>, b: seq<Chunk>)
    requires multiset(a) == multiset(b)
    requires NumbersIdentify(a)
    ensures Merge(c, a) == Merge(c, b)
  {
    var sa, sb := SortByNumber(a), SortByNumber(b);
    assert forall x :: x in sa ==> x in a by {
      forall x | x in sa ensures x in a { assert x in multiset(sa); }
    }
    SortedPermutationsEqual(sa, sb);
  }

  lemma {:induction false} JoinSplit(c: Compressor, identifier: string, s: string, size: nat, first: nat)
    requires Lossless(c) && 0 < size
    ensures JoinPieces(c, SplitChunks(c, identifier, s, size, first)) == Ok(s)
    decreases |s|
  {
    if s != [] {
      var n := Min(size, |s|);
      JoinSplit(c, identifier, s[n..], size, first + 1);
      assert c.unpack(c.pack(s[..n])) == Ok(s[..n]);
      assert s[..n] + s[n..] == s;
    }
  }

  /** The numbers of a split identify its chunks. */
  lemma SplitNumbersIdentify(c: Compressor, identifier: string, s: string, size: nat)
    requires 0 < size
    ensures NumbersIdentify(SplitChunks(c, identifier, s, size, 0))
  {
    var cs := SplitChunks(c, identifier, s, size, 0);
    SplitNumbers(c, identifier, s, size, 0);
    forall x, y | x in cs && y in cs && x.chunkNumber == y.chunkNumber ensures x == y {
      var i :| 0 <= i < |cs| && cs[i] == x;
      var j :| 0 <= j < |cs| && cs[j] == y;
    }
  }

  /** A split is already in number order. */
  lemma SplitIsSorted(c: Compressor, identifier: string, s: string, size: nat)
    requires 0 < size
    ensures SortByNumber(SplitChunks(c, identifier, s, size, 0)) == SplitChunks(c, identifier, s, size, 0)
  {
    var cs := SplitChunks(c, identifier, s, size, 0);
    SplitNumbers(c, identifier, s, size, 0);
    SplitNumbersIdentify(c, identifier, s, size);
    var sorted := SortByNumber(cs);
    assert NumbersIdentify(sorted) by {
      forall x, y | x in sorted && y in sorted && x.chunkNumber == y.chunkNumber ensures x == y {
        assert x in multiset(sorted) && y in multiset(sorted);
        assert x in cs && y in cs;
      }
    }
    SortedPermutationsEqual(sorted, cs);
  }

  /** Round trip: merging the chunks of a split restores the record. */
  lemma MergeSplitRoundTrip(c: Compressor, identifier: string, s: string, size: nat)
    requires Lossless(c) && 0 < size && s != []
    ensures Merge(c, SplitChunks(c, identifier, s, size, 0)) == Ok(Record(identifier, s))
  {
    var cs := SplitChunks(c, identifier, s, size, 0);
    SplitIsSorted(c, identifier, s, size);
    JoinSplit(c, identifier, s, size, 0);
    assert cs[0].accessionVersion == identifier;
  }

  /** One turn of the `_split_` loop: the chunks from `pos` are the slice
      at `pos` followed by the chunks from the next start. */
  lemma SplitStep(c: Compressor, identifier: string, s: string, size: nat, idx: nat, pos: nat)
    requires 0 < size && pos < |s|
    ensures SplitChunks(c, identifier, s[pos..], size, idx)
            == [MakeChunk(c, identifier, idx, s[pos..Min(pos + size, |s|)])]
               + SplitChunks(c, identifier, s[Min(pos + size, |s|)..], size, idx + 1)
  {
    var rest := s[pos..];
    var n := Min(size, |rest|);
    assert rest[..n] == s[pos..Min(pos + size, |s|)];
    assert rest[n..] == s[Min(pos + size, |s|)..];
  }

  /** The argument `modification` receives: an accession (`str`) or a list of chunks. */
  datatype Input = AccessionInput(identifier: string) | ChunkListInput(chunks: seq<Chunk>)

  datatype Output = MergedRecord(record: Record) | ChunkList(chunks: seq<Chunk>)

  /** The `formatConversion` class object; `n_size` is absent until `set` runs. */
  class FormatConversion {
    var nSize: Option<nat>

    constructor ()
      ensures nSize == None
    {
      nSize := None;
    }

    /** `set`: 300000 for "mongodb", 60000 for any other target. */
    method Set(target: string)
      modifies this
      ensures nSize == Some(ChunkSizeFor(target))
    {
      nSize := Some(if target == "mongodb" then MongoChunkSize else TableChunkSize);
    }

    /** `_split_`: `enumerate(range(0, len(sequence), size))`; a zero step
        raises inside `range`, a negative one gives an empty range. */
    static method Split(c: Compressor, identifier: string, sequence: string, size: int)
      returns (r: Result<seq<Chunk>>)
      ensures size == 0 ==> r == Err(ValueError("Error: range() arg 3 must not be zero"))
      ensures size < 0 ==> r == Ok([])
      ensures 0 < size ==> r == Ok(SplitChunks(c, identifier, sequence, size, 0))
    {
      if size == 0 {
        return Err(ValueError("Error: range() arg 3 must not be zero"));
      }
      if size < 0 {
        return Ok([]);
      }
      var result: seq<Chunk> := [];
      var idx: nat := 0;
      var pos: nat := 0;
      while pos < |sequence|
        invariant pos <= |sequence|
        invariant result + SplitChunks(c, identifier, sequence[pos..], size, idx)
                  == SplitChunks(c, identifier, sequence, size, 0)
        decreases |sequence| - pos
      {
        // sequence[pos:pos+size], clamped at the end as Python slicing does
        var end := Min(pos + size, |sequence|);
        SplitStep(c, identifier, sequence, size, idx, pos);
        result := result + [MakeChunk(c, identifier, idx, sequence[pos..end])];
        idx := idx + 1;
        // the next start of the range; past the end the loop stops either way
        pos := end;
      }
      assert sequence[pos..] == [];
      assert SplitChunks(c, identifier, [], size, idx) == [];
      assert result + [] == result;
      return Ok(result);
    }

    /** `modification`: checks that `set` ran, then dispatches on `mode`;
        every failure leaves as `ValueError(f"Error: {e}")`. */
    method Modification(c: Compressor, input: Input, sequence: Option<string>, mode: string)
      returns (r: Result<Output>)
      ensures nSize.None? ==>
                r == Err(Rewrap(AttributeError("type object 'formatConversion' has no attribute 'n_size'")))
      ensures nSize == Some(0) ==> r == Err(Rewrap(AssertionError("")))
      ensures nSize.Some? && 0 < nSize.value && mode == "merge" ==>
                r == (if !input.ChunkListInput? then Err(Rewrap(AssertionError("")))
                      else match Merge(c, input.chunks)
                           case Ok(rec) => Ok(MergedRecord(rec))
                           case Err(e) => Err(Rewrap(e)))
      ensures nSize.Some? && 0 < nSize.value && mode == "split" ==>
                r == (if input.AccessionInput? && Given(sequence)
                      then Ok(ChunkList(SplitChunks(c, input.identifier, sequence.value, nSize.value, 0)))
                      else Err(Rewrap(AssertionError(""))))
      ensures nSize.Some? && 0 < nSize.value && mode != "merge" && mode != "split" ==>
                r == Err(Rewrap(ValueError("Mode " + mode + " does not exist")))
    {
      if nSize.None? {
        return Err(Rewrap(AttributeError("type object 'formatConversion' has no attribute 'n_size'")));
      }
      var size := nSize.value;
      if size == 0 {
        return Err(Rewrap(AssertionError("")));
      }
      if mode == "merge" {
        if !input.ChunkListInput? {
          return Err(Rewrap(AssertionError("")));
        }
        match Merge(c, input.chunks)
        case Ok(rec) => return Ok(MergedRecord(rec));
        case Err(e) => return Err(Rewrap(e));
      } else if mode == "split" {
        if !input.AccessionInput? || !Given(sequence) {
          return Err(Rewrap(AssertionError("")));
        }
        var chunks := Split(c, input.identifier, sequence.value, size);
        return Ok(ChunkList(chunks.value));
      } else {
        return Err(Rewrap(ValueError("Mode " + mode + " does not exist")));
      }
    }
  }
}
