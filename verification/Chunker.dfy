/** Replaying a complete response as a stream (proxy/proxy.py): its words in chunks, about as many as a
    divisor says, 8 for the OpenAI and Anthropic formats and 10 for Ollama's. */
module Chunker {
  import opened Common

  /** " ".join(words) */
  function Join(words: seq<string>): string
    decreases |words|
  {
    if words == [] then "" else if |words| == 1 then words[0] else words[0] + " " + Join(words[1..])
  }

  function Concat(chunks: seq<string>): string
    decreases |chunks|
  {
    if chunks == [] then "" else Concat(chunks[..|chunks| - 1]) + chunks[|chunks| - 1]
  }

  lemma {:induction false} JoinOfBoth(a: seq<string>, b: seq<string>)
    requires a != [] && b != []
    ensures Join(a + b) == Join(a) + " " + Join(b)
    decreases |a|
  {
    assert (a + b)[1..] == a[1..] + b;
    if |a| > 1 {
      JoinOfBoth(a[1..], b);
    }
  }

  lemma Times(a: nat, b: nat, c: nat)
    requires a >= b
    ensures a * c >= b * c
  {
  }

  lemma ManyChunksCoverAll(n: nat, divisor: nat, count: nat)
    requires divisor >= 2 && count >= 2 * divisor - 1
    ensures count * Max(1, n / divisor) >= n
  {
    var q := n / divisor;
    assert n < divisor * q + divisor;
    if q == 0 {
      assert divisor * q == 0;
    } else {
      Times(count, 2 * divisor - 1, q);
      assert (2 * divisor - 1) * q == divisor * q + (divisor - 1) * q;
      Times(q, 1, divisor - 1);
    }
  }

  /** range(0, n, size) has at most 2 * divisor - 1 values. */
  lemma FewChunks(n: nat, divisor: nat, count: nat)
    requires divisor >= 2 && count * Max(1, n / divisor) < n
    ensures count < 2 * divisor - 1
  {
    if count >= 2 * divisor - 1 {
      ManyChunksCoverAll(n, divisor, count);
    }
  }

  /** The number of chunks so far, when the loop is at the i-th word. */
  ghost predicate Counted(n: nat, divisor: nat, chunks: nat, i: nat)
    requires divisor > 0
  {
    var size := Max(1, n / divisor);
    i == chunks * size && chunks <= 2 * divisor - 1 && (chunks > 0 ==> 0 < i && i - size < n)
  }

  lemma CountedMore(n: nat, divisor: nat, chunks: nat, i: nat)
    requires divisor >= 2 && Counted(n, divisor, chunks, i) && i < n
    ensures Counted(n, divisor, chunks + 1, i + Max(1, n / divisor))
  {
    var size := Max(1, n / divisor);
    FewChunks(n, divisor, chunks);
    assert (chunks + 1) * size == chunks * size + size;
  }

  /** The chunks so far read as the words so far. */
  lemma ReadsOn(words: seq<string>, chunks: seq<string>, i: nat, end: nat, content: string)
    requires i < end <= |words| && Concat(chunks) == Join(words[..i]) && (i == 0 ==> chunks == [])
    requires content == if i > 0 then " " + Join(words[i..end]) else Join(words[i..end])
    ensures Concat(chunks + [content]) == Join(words[..end])
  {
    assert (chunks + [content])[..|chunks|] == chunks;
    if i > 0 {
      assert words[..end] == words[..i] + words[i..end];
      JoinOfBoth(words[..i], words[i..end]);
    } else {
      assert words[..end] == words[i..end];
    }
  }

  /** Every chunk but the last holds so many words, the last what is left; a chunk after the first starts with a
      space. */
  ghost predicate AreChunks(words: seq<string>, size: nat, chunks: seq<string>) {
    forall k :: 0 <= k < |chunks| ==> IsChunk(words, size, k, chunks[k])
  }

  ghost predicate IsChunk(words: seq<string>, size: nat, k: nat, chunk: string) {
    && k * size < |words|
    && var end := if (k + 1) * size < |words| then (k + 1) * size else |words|;
       k * size <= end && chunk == (if k > 0 then " " else "") + Join(words[k * size..end])
  }

  lemma ChunkAt(words: seq<string>, size: nat, k: nat, i: nat, content: string)
    requires size > 0 && i == k * size && i < |words|
    requires content == if i > 0 then " " + Join(words[i..Min(i + size, |words|)]) else Join(words[i..Min(i + size, |words|)])
    ensures IsChunk(words, size, k, content)
  {
    assert (k + 1) * size == i + size;
    if k == 0 {
      assert "" + content == content;
    } else {
      Times(k, 1, size);
    }
  }

  lemma ChunksOn(words: seq<string>, size: nat, chunks: seq<string>, i: nat, content: string)
    requires size > 0 && i == |chunks| * size && i < |words| && AreChunks(words, size, chunks)
    requires content == if i > 0 then " " + Join(words[i..Min(i + size, |words|)]) else Join(words[i..Min(i + size, |words|)])
    ensures AreChunks(words, size, chunks + [content])
  {
    ChunkAt(words, size, |chunks|, i, content);
  }

  /** The chunks so far, when the loop is at the i-th word. */
  ghost predicate Streamed(words: seq<string>, divisor: nat, chunks: seq<string>, i: nat)
    requires divisor > 0
  {
    && Counted(|words|, divisor, |chunks|, i)
    && Concat(chunks) == Join(words[..Min(i, |words|)])
    && AreChunks(words, Max(1, |words| / divisor), chunks)
  }

  lemma StreamedMore(words: seq<string>, divisor: nat, chunks: seq<string>, i: nat, content: string)
    requires divisor >= 2 && Streamed(words, divisor, chunks, i) && i < |words|
    requires var end := Min(i + Max(1, |words| / divisor), |words|);
      content == if i > 0 then " " + Join(words[i..end]) else Join(words[i..end])
    ensures Streamed(words, divisor, chunks + [content], i + Max(1, |words| / divisor))
  {
    var size := Max(1, |words| / divisor);
    CountedMore(|words|, divisor, |chunks|, i);
    ReadsOn(words, chunks, i, Min(i + size, |words|), content);
    ChunksOn(words, size, chunks, i, content);
  }

  lemma AllStreamed(words: seq<string>, divisor: nat, chunks: seq<string>, i: nat)
    requires divisor >= 2 && Streamed(words, divisor, chunks, i) && i >= |words|
    ensures Concat(chunks) == Join(words) && |chunks| <= 2 * divisor - 1
    ensures var size := if |words| < divisor then 1 else |words| / divisor;
      && |words| <= |chunks| * size && (chunks != [] ==> (|chunks| - 1) * size < |words|)
      && AreChunks(words, size, chunks)
    ensures |chunks| >= if |words| < divisor then |words| else divisor
  {
    assert words[..|words|] == words;
    SizeIs(|words|, divisor);
    LastChunk(|words|, divisor, |chunks|, i);
    ManyChunks(|words|, divisor, |chunks|);
  }

  /** The loop of handle_streaming_request: the words are dealt out evenly, one to a chunk if there are fewer than
      the divisor says. */
  method StreamChunks(words: seq<string>, divisor: nat) returns (chunks: seq<string>)
    requires divisor >= 2
    ensures Concat(chunks) == Join(words)
    ensures |chunks| <= 2 * divisor - 1
    ensures var size := if |words| < divisor then 1 else |words| / divisor;
      && |words| <= |chunks| * size && (chunks != [] ==> (|chunks| - 1) * size < |words|)
      && AreChunks(words, size, chunks)
    ensures |chunks| >= if |words| < divisor then |words| else divisor
  {
    chunks := [];
    var chunkSize := Max(1, |words| / divisor);
    var i := 0;
    while i < |words|
      invariant 0 <= i && Streamed(words, divisor, chunks, i)
      decreases |words| - i
    {
      var end := Min(i + chunkSize, |words|);
      var content := Join(words[i..end]);
      if i > 0 {
        content := " " + content;
      }
      StreamedMore(words, divisor, chunks, i, content);
      chunks := chunks + [content];
      i := i + chunkSize;
    }
    AllStreamed(words, divisor, chunks, i);
  }

  lemma SizeIs(n: nat, divisor: nat)
    requires divisor > 0
    ensures Max(1, n / divisor) == if n < divisor then 1 else n / divisor
  {
    if n >= divisor {
      assert n / divisor >= 1;
    }
  }

  lemma ManyChunks(n: nat, divisor: nat, chunks: nat)
    requires divisor > 0 && n <= chunks * Max(1, n / divisor)
    ensures chunks >= if n < divisor then n else divisor
  {
    SizeIs(n, divisor);
    if n >= divisor {
      assert divisor * (n / divisor) <= n;
      if chunks < divisor {
        TimesMore(chunks, divisor, n / divisor);
      }
    }
  }

  lemma TimesMore(a: nat, b: nat, c: nat)
    requires a < b && c > 0
    ensures a * c < b * c
  {
  }

  lemma LastChunk(n: nat, divisor: nat, chunks: nat, i: nat)
    requires divisor > 0 && Counted(n, divisor, chunks, i) && i >= n
    ensures n <= chunks * Max(1, n / divisor) && (chunks > 0 ==> (chunks - 1) * Max(1, n / divisor) < n)
  {
    var size := Max(1, n / divisor);
    assert (chunks - 1) * size == chunks * size - size;
  }
}
