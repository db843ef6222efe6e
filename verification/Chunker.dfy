/** Fixed-size chunking with overlap: the text can be put together again
    from its chunks, and their number is known beforehand. */
module Chunking {
  const DEFAULT_CHUNK_SIZE: int := 512

  /** Texts are sequences of characters, the source's runes. */
  type Text = string

  datatype FixedSizeChunker = FixedSizeChunker(size: int, overlap: int) {
    /** What the constructor function makes of its arguments. */
    static function New(size: int, overlap: int): (c: FixedSizeChunker)
      ensures c.Proper()
      ensures size > 0 ==> c.size == size
      ensures size <= 0 ==> c.size == 512
      ensures c.overlap == overlap <==> 0 <= overlap < c.size
      ensures c.overlap != overlap ==> c.overlap == 0
    {
      var s := if size <= 0 then DEFAULT_CHUNK_SIZE else size;
      FixedSizeChunker(s, if overlap < 0 || overlap >= s then 0 else overlap)
    }

    predicate Proper() {
      0 <= overlap < size
    }

    /** How far the next chunk starts from this one. */
    function Step(): int {
      if size - overlap <= 0 then size else size - overlap
    }

    /** The chunks of `text`: the first, then those of the text one step on. */
    function ChunksOf(text: Text): seq<Text>
      requires size > 0
      decreases |text|
    {
      if text == [] then []
      else if |text| <= size then [text]
      else [text[..size]] + if Step() < |text| then ChunksOf(text[Step()..]) else []
    }

    function Rest(text: Text, i: int): seq<Text>
      requires size > 0 && 0 <= i
    {
      if i < |text| then ChunksOf(text[i..]) else []
    }

    lemma OneChunk(text: Text, i: nat)
      requires size > 0 && i < |text|
      ensures Rest(text, i) ==
                if i + size >= |text| then [text[i..]] else [text[i..i + size]] + Rest(text, i + Step())
    {
      if i + size < |text| {
        assert text[i..][..size] == text[i..i + size];
        if i + Step() < |text| {
          assert text[i..][Step()..] == text[i + Step()..];
        }
      }
    }

    method Chunk(text: Text) returns (chunks: seq<Text>)
      requires size > 0
      ensures chunks == ChunksOf(text)
    {
      chunks := [];
      if |text| == 0 {
        return;
      }
      var step := size - overlap;
      if step <= 0 {
        step := size;
      }
      var i := 0;
      RestEnds(text, chunks, 0);
      while i < |text|
        invariant 0 <= i && step == Step() && ChunksOf(text) == chunks + Rest(text, i)
        decreases |text| - i
      {
        ChunkAdded(text, chunks, i);
        var end := i + size;
        if end > |text| {
          end := |text|;
        }
        chunks := chunks + [text[i..end]];
        if end == |text| {
          return;
        }
        i := i + step;
      }
      RestEnds(text, chunks, i);
    }

    lemma RestEnds(text: Text, chunks: seq<Text>, i: nat)
      requires size > 0
      ensures [] + Rest(text, 0) == ChunksOf(text)
      ensures i >= |text| ==> chunks + Rest(text, i) == chunks
    {
      assert text[0..] == text;
    }

    lemma ChunkAdded(text: Text, chunks: seq<Text>, i: nat)
      requires size > 0 && i < |text| && ChunksOf(text) == chunks + Rest(text, i)
      ensures i + size >= |text| ==> ChunksOf(text) == chunks + [text[i..|text|]]
      ensures i + size < |text| ==> ChunksOf(text) == chunks + [text[i..i + size]] + Rest(text, i + Step())
    {
      OneChunk(text, i);
      if i + size < |text| {
        Regroup(chunks, [text[i..i + size]], Rest(text, i + Step()));
      } else {
        assert text[i..|text|] == text[i..];
      }
    }

    // ---------- putting the text together again ----------

    /** The chunks without their first `overlap` characters, one after the other. */
    ghost function Tails(chunks: seq<Text>): Text
      requires 0 <= overlap && forall c :: c in chunks ==> overlap <= |c|
    {
      if chunks == [] then [] else chunks[0][overlap..] + Tails(chunks[1..])
    }

    lemma RestOf(text: Text)
      requires Proper() && |text| > size
      ensures ChunksOf(text) == [text[..size]] + ChunksOf(text[Step()..])
      ensures |text[Step()..]| > overlap && text[Step()..][overlap..] == text[size..]
    {
    }

    lemma TailsMore(c: Text, chunks: seq<Text>)
      requires 0 <= overlap && overlap < |c| <= size && forall d :: d in chunks ==> overlap < |d| <= size
      ensures forall d :: d in [c] + chunks ==> overlap < |d| <= size
      ensures Tails([c] + chunks) == c[overlap..] + Tails(chunks)
    {
      assert ([c] + chunks)[1..] == chunks;
    }

    lemma {:induction false} TailsOfChunks(text: Text)
      requires Proper() && overlap < |text|
      ensures forall c :: c in ChunksOf(text) ==> overlap < |c| <= size
      ensures ChunksOf(text) != [] && Tails(ChunksOf(text)) == text[overlap..]
      decreases |text|
    {
      if |text| > size {
        RestOf(text);
        TailsOfChunks(text[Step()..]);
        TailsMore(text[..size], ChunksOf(text[Step()..]));
        Spliced(text, overlap, size);
      } else {
        assert [text][1..] == [];
      }
    }

    lemma ReconstructLong(text: Text)
      requires Proper() && |text| > size
      ensures forall c :: c in ChunksOf(text) ==> overlap < |c| <= size
      ensures ChunksOf(text)[0] + Tails(ChunksOf(text)[1..]) == text
    {
      RestOf(text);
      TailsOfChunks(text);
      TailsOfChunks(text[Step()..]);
      assert ChunksOf(text)[1..] == ChunksOf(text[Step()..]);
      assert text[..size] + text[size..] == text;
    }

    /** The first chunk, followed by every later one without its
        first `overlap` characters, is the text. */
    lemma {:induction false} Reconstruct(text: Text)
      requires Proper()
      ensures forall c :: c in ChunksOf(text) ==> 0 < |c| <= size
      ensures forall c :: c in ChunksOf(text)[if text == [] then 0 else 1..] ==> overlap < |c|
      ensures text != [] ==> ChunksOf(text) != [] && ChunksOf(text)[0] + Tails(ChunksOf(text)[1..]) == text
    {
      if |text| > size {
        ReconstructLong(text);
      } else if text != [] {
        assert [text][1..] == [];
      }
    }

    // ---------- how many chunks, and where ----------

    /** One chunk for a text that fits; otherwise one more for
        each step, or part of one, that the text is longer. */
    lemma {:induction false} CountChunks(text: Text)
      requires Proper()
      ensures |ChunksOf(text)| ==
                if text == [] then 0
                else if |text| <= size then 1
                else 1 + (|text| - size + Step() - 1) / Step()
      decreases |text|
    {
      if |text| > size {
        var rest := text[Step()..];
        CountChunks(rest);
        var a := |text| - size;
        if a <= Step() {
          assert (a + Step() - 1) / Step() == 1 by { DivOnce(a - 1, Step()); }
        } else {
          DivNext(a - 1, Step());
          assert |rest| - size + Step() - 1 == a - 1;
        }
      }
    }

    /** Consecutive chunks share `overlap` characters, or none when that is as long as a chunk. */
    lemma StepIs()
      ensures Step() == if overlap < size then size - overlap else size
    {
    }

    /** Where chunk `k` starts: `k` steps on. */
    ghost function Start(k: nat): int {
      if k == 0 then 0 else Start(k - 1) + Step()
    }

    lemma {:induction false} StartIs(k: nat)
      ensures Start(k) == k * Step()
      decreases k
    {
      if k > 0 {
        StartIs(k - 1);
        MulNext(k, Step());
      }
    }

    ghost function EndOf(k: nat, n: nat): int {
      if Start(k) + size > n then n else Start(k) + size
    }

    /** Chunk `k` is what the text holds from `k` steps on, cut to the chunk size. */
    lemma {:induction false} ChunkAt(text: Text, k: nat)
      requires Proper() && k < |ChunksOf(text)|
      ensures 0 <= Start(k) < |text| && ChunksOf(text)[k] == text[Start(k)..EndOf(k, |text|)]
      decreases k
    {
      if k > 0 {
        var rest := text[Step()..];
        assert ChunksOf(text)[k] == ChunksOf(rest)[k - 1];
        ChunkAt(rest, k - 1);
        SliceShift(text, Step(), Start(k - 1), EndOf(k - 1, |rest|));
      }
    }
  }

  lemma Spliced(text: Text, i: nat, k: nat)
    requires i <= k <= |text|
    ensures text[..k][i..] + text[k..] == text[i..]
  {
  }

  lemma Regroup(a: seq<Text>, b: seq<Text>, c: seq<Text>)
    ensures a + (b + c) == a + b + c
  {
  }

  lemma SliceShift(text: Text, d: nat, a: nat, b: nat)
    requires d <= |text| && a <= b <= |text| - d
    ensures text[d..][a..b] == text[d + a..d + b]
  {
  }

  lemma MulNext(k: int, step: int)
    ensures k * step == (k - 1) * step + step
  {
  }

  lemma DivOnce(x: int, d: int)
    requires 0 <= x < d
    ensures (x + d) / d == 1
  {
  }

  lemma DivNext(x: int, d: int)
    requires 0 <= x && d > 0
    ensures (x + d) / d == x / d + 1
  {
    var p, q := (x + d) / d, x / d + 1;
    assert 0 <= (x + d) - p * d < d;
    assert 0 <= x - (q - 1) * d < d;
    assert (q - 1) * d == q * d - d;
    if p < q {
      MulMono(p + 1, q, d);
    } else if q < p {
      MulMono(q + 1, p, d);
    }
  }

  lemma MulMono(a: int, b: int, d: int)
    requires a <= b && d > 0
    ensures a * d <= b * d && a * d == (a - 1) * d + d
  {
  }
}
