/** The partition split of the ReadSource step of `PipelineBuilder::build`
    (src/processors/pipeline_builder.rs): the chunk-size arithmetic and
    Rust's `slice::chunks`. */
module Chunking {

  /** Concatenation of a sequence of chunks. */
  function Flatten<T>(chunks: seq<seq<T>>): seq<T>
    decreases |chunks|
  {
    if chunks == [] then [] else chunks[0] + Flatten(chunks[1..])
  }

  /** The chunk size for `parts` partitions and a budget of `workers`
      threads: 1 when the budget is zero or covers every partition, otherwise
      the ceiling of `parts / workers`. The division is only reached with
      `0 < workers < parts`. */
  function ChunkSize(parts: nat, workers: nat): (size: nat)
    ensures size >= 1
    ensures workers == 0 || workers >= parts ==> size == 1
    ensures 0 < workers < parts ==> (size - 1) * workers < parts <= size * workers
  {
    if workers == 0 || workers >= parts then 1
    else
      var q := parts / workers;
      assert parts == q * workers + parts % workers;
      if parts % workers != 0 then q + 1 else q
  }

  /** `slice::chunks(size)`: consecutive pieces of `size` elements, the last
      one possibly shorter; no piece for an empty slice. */
  function Chunks<T>(s: seq<T>, size: nat): (r: seq<seq<T>>)
    requires size > 0
    ensures Flatten(r) == s
    ensures forall i :: 0 <= i < |r| ==> 0 < |r[i]| <= size
    ensures forall i :: 0 <= i < |r| - 1 ==> |r[i]| == size
    ensures r == [] <==> s == []
    ensures |r| > 0 ==> (|r| - 1) * size < |s| <= |r| * size
    decreases |s|
  {
    if |s| == 0 then []
    else if |s| <= size then [s]
    else
      var rest := Chunks(s[size..], size);
      assert s == s[..size] + s[size..];
      assert (|rest| - 1) * size + size == |rest| * size;
      [s[..size]] + rest
  }

  lemma MulCancel(a: int, b: int, c: int)
    requires c > 0 && a * c < b * c
    ensures a < b
  {
  }

  /** The number of source lanes: one per partition when the budget is zero
      or covers every partition (none for no partitions), otherwise between
      one and the budget. */
  lemma SourceLaneCount<T>(parts: seq<T>, workers: nat)
    ensures var lanes := |Chunks(parts, ChunkSize(|parts|, workers))|;
      && (workers == 0 || workers >= |parts| ==> lanes == |parts|)
      && (0 < workers < |parts| ==> 1 <= lanes <= workers)
  {
    var size := ChunkSize(|parts|, workers);
    var lanes := |Chunks(parts, size)|;
    if 0 < workers < |parts| {
      assert (lanes - 1) * size < |parts| <= size * workers;
      assert (lanes - 1) * size < workers * size;
      MulCancel(lanes - 1, workers, size);
    }
  }

  /** Ten partitions over three threads: chunks of four, four and two. */
  lemma TenPartitionsThreeWorkers<T>(parts: seq<T>)
    requires |parts| == 10
    ensures ChunkSize(10, 3) == 4
    ensures Chunks(parts, 4) == [parts[..4], parts[4..8], parts[8..]]
  {
    assert ChunkSize(10, 3) == 4 by {
      assert 10 / 3 == 3 && 10 % 3 == 1;
    }
    var s1 := parts[4..];
    var s2 := s1[4..];
    assert Chunks(s2, 4) == [s2];
    assert Chunks(s1, 4) == [s1[..4]] + [s2];
    assert s1[..4] == parts[4..8];
    assert s2 == parts[8..];
  }

  /** Ceiling division. */
  function CeilDiv(a: nat, b: nat): nat
    requires b > 0
  {
    (a + b - 1) / b
  }

  lemma MulMono(a: nat, b: nat, k: nat)
    requires a <= b
    ensures a * k <= b * k
    ensures (a + 1) * k == a * k + k
  {
  }

  lemma DivBetween(x: nat, k: nat, l: nat)
    requires k > 0 && l * k <= x < (l + 1) * k
    ensures x / k == l
  {
    var q, r := x / k, x % k;
    assert x == q * k + r && 0 <= r < k;
    if q > l {
      MulMono(l + 1, q, k);
    } else if q < l {
      MulMono(q + 1, l, k);
    }
  }

  /** The number of chunks is the ceiling of length over chunk size. */
  lemma ChunkCount<T>(s: seq<T>, size: nat)
    requires size > 0
    ensures |Chunks(s, size)| == CeilDiv(|s|, size)
  {
    var l := |Chunks(s, size)|;
    if l == 0 {
      assert s == [];
    } else {
      assert (l - 1) * size < |s| <= l * size;
      assert l * size <= |s| + size - 1 < (l + 1) * size;
      DivBetween(|s| + size - 1, size, l);
    }
  }

  /** Chunks of size one hold one element each. */
  lemma {:induction false} ChunksOfOne<T>(s: seq<T>, i: nat)
    requires i < |s|
    ensures |Chunks(s, 1)| == |s| && Chunks(s, 1)[i] == [s[i]]
    decreases |s|
  {
    if |s| > 1 {
      assert Chunks(s, 1) == [s[..1]] + Chunks(s[1..], 1);
      if i > 0 {
        ChunksOfOne(s[1..], i - 1);
      } else {
        ChunkCount(s, 1);
      }
    }
  }
}
