/** chunkBy (exporter/traceids.go): a list of trace ids cut into consecutive
    chunks of a fixed size, the last one holding the remainder. */
module Chunking {

  /** The chunks chunkBy returns: full chunks while more than `size` items
      remain, then everything left as the last chunk (possibly empty). */
  function Chunks<T>(items: seq<T>, size: nat): (chunks: seq<seq<T>>)
    requires size > 0
    ensures |chunks| >= 1
    decreases |items|
  {
    if |items| <= size then [items] else [items[..size]] + Chunks(items[size..], size)
  }

  function Flatten<T>(chunks: seq<seq<T>>): seq<T>
  {
    if chunks == [] then [] else chunks[0] + Flatten(chunks[1..])
  }

  /** chunkBy: the loop peels `size` items off the front while more than
      `size` remain, then appends the rest. */
  method ChunkBy<T>(items: seq<T>, size: nat) returns (chunks: seq<seq<T>>)
    requires size > 0
    ensures chunks == Chunks(items, size)
  {
    var rest := items;
    chunks := [];
    while size < |rest|
      invariant chunks + Chunks(rest, size) == Chunks(items, size)
      decreases |rest|
    {
      assert Chunks(rest, size) == [rest[..size]] + Chunks(rest[size..], size);
      chunks, rest := chunks + [rest[..size]], rest[size..];
    }
    chunks := chunks + [rest];
  }

  // ---------------------------------------------------------------------------
  // Partition properties

  lemma {:induction false} FlattenAppend<T>(a: seq<seq<T>>, b: seq<seq<T>>)
    ensures Flatten(a + b) == Flatten(a) + Flatten(b)
  {
    if a == [] {
      assert a + b == b;
    } else {
      assert (a + b)[1..] == a[1..] + b;
      FlattenAppend(a[1..], b);
    }
  }

  /** Concatenating the chunks gives back the input exactly. */
  lemma {:induction false} ChunksFlatten<T>(items: seq<T>, size: nat)
    requires size > 0
    ensures Flatten(Chunks(items, size)) == items
    decreases |items|
  {
    if |items| <= size {
      assert Flatten([items]) == items + Flatten([items][1..]);
    } else {
      var c := Chunks(items, size);
      ChunksFlatten(items[size..], size);
      assert c[1..] == Chunks(items[size..], size);
      assert items[..size] + items[size..] == items;
    }
  }

  /** Every chunk but the last holds exactly `size` items; the last holds at
      most `size`, and is empty only when the input is. */
  lemma {:induction false} ChunkSizes<T>(items: seq<T>, size: nat)
    requires size > 0
    ensures var c := Chunks(items, size);
      && (forall i :: 0 <= i < |c| - 1 ==> |c[i]| == size)
      && |c[|c| - 1]| <= size
      && (c[|c| - 1] == [] <==> items == [])
    decreases |items|
  {
    if |items| > size {
      var c := Chunks(items, size);
      ChunkSizes(items[size..], size);
      assert c[1..] == Chunks(items[size..], size);
      forall i | 0 <= i < |c| - 1
        ensures |c[i]| == size
      {
        if i > 0 {
          assert c[i] == c[1..][i - 1];
        }
      }
    }
  }

  /** One chunk for empty input; otherwise ceil(N / size) chunks, stated
      without division: the fewest chunks of `size` that hold N items. */
  lemma {:induction false} ChunkCount<T>(items: seq<T>, size: nat)
    requires size > 0
    ensures var n := |Chunks(items, size)|;
      && (items == [] ==> n == 1)
      && (items != [] ==> (n - 1) * size < |items| <= n * size)
    decreases |items|
  {
    if |items| > size {
      var n' := |Chunks(items[size..], size)|;
      ChunkCount(items[size..], size);
      assert (n' + 1) * size == n' * size + size;
    }
  }
}
