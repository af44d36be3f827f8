/** The sliding-window mean of filter.c: a ring buffer and a running sum, refined to the mean of
    the most recent samples. */
module MoveFilter {

  const MaxSize := 512
  const MaxBitSize := 9

  function Sum(s: seq<real>): real {
    if s == [] then 0.0 else s[0] + Sum(s[1..])
  }

  function Zeros(n: nat): seq<real> {
    seq(n, i => 0.0)
  }

  /** The window a buffer of `size` elements holds: it starts out as zeros and every sample
      pushes the oldest element out. */
  function Window(samples: seq<real>, size: nat): seq<real> {
    (Zeros(size) + samples)[|samples|..]
  }

  /** The last `size` samples, or all of them while there are fewer. */
  function Recent(samples: seq<real>, size: int): seq<real> {
    if size <= 0 then [] else
    if |samples| <= size then samples else samples[|samples| - size..]
  }

  function Mean(s: seq<real>): real {
    if s == [] then 0.0 else Sum(s) / |s| as real
  }

  lemma {:induction false} SumConcat(s: seq<real>, t: seq<real>)
    ensures Sum(s + t) == Sum(s) + Sum(t)
  {
    if s == [] {
      assert s + t == t;
    } else {
      SumConcat(s[1..], t);
      assert (s + t)[1..] == s[1..] + t;
    }
  }

  lemma {:induction false} SumZeros(n: nat)
    ensures Sum(Zeros(n)) == 0.0
  {
    if n > 0 {
      SumZeros(n - 1);
      assert Zeros(n)[1..] == Zeros(n - 1);
    }
  }

  lemma SumSlide(s: seq<real>, v: real)
    requires s != []
    ensures Sum(s[1..] + [v]) == Sum(s) - s[0] + v
  {
    SumConcat(s[1..], [v]);
  }

  lemma SumRotate(s: seq<real>, k: nat)
    requires k <= |s|
    ensures Sum(s[k..] + s[..k]) == Sum(s)
  {
    SumConcat(s[k..], s[..k]);
    SumConcat(s[..k], s[k..]);
    assert s[..k] + s[k..] == s;
  }

  /** The ring of `size` cells read from position `i` round to the cell before it. */
  function From(b: seq<real>, i: nat, size: nat): seq<real>
    requires i <= size <= |b|
  {
    b[i..size] + b[..i]
  }

  /** Overwriting the oldest cell and stepping over it slides the window. */
  lemma RingPush(b: seq<real>, i: nat, size: nat, v: real)
    requires i < size <= |b|
    ensures From(b, i, size)[0] == b[i] && |From(b, i, size)| == size
    ensures From(b[i := v], if i + 1 >= size then 0 else i + 1, size) == From(b, i, size)[1..] + [v]
  {
  }

  lemma WindowSlides(samples: seq<real>, size: nat, v: real)
    requires size >= 1
    ensures |Window(samples, size)| == size
    ensures Window(samples + [v], size) == Window(samples, size)[1..] + [v]
  {
    assert Zeros(size) + (samples + [v]) == (Zeros(size) + samples) + [v];
  }

  lemma WindowSum(samples: seq<real>, size: nat)
    ensures Sum(Window(samples, size)) == Sum(Recent(samples, size))
  {
    if |samples| <= size {
      assert Window(samples, size) == Zeros(size - |samples|) + samples;
      SumConcat(Zeros(size - |samples|), samples);
      SumZeros(size - |samples|);
      assert size == 0 ==> samples == [];
    } else {
      assert Window(samples, size) == Recent(samples, size);
    }
  }

  class Filter {
    const buf: array<real>
    var size: int
    var index: int
    var filled: int
    var bufSum: real
    var val: real
    var bitSize: int
    ghost var samples: seq<real>

    /** The buffer from its oldest element to its newest. */
    ghost function Chronological(): seq<real>
      reads this, buf
      requires 0 <= index <= size <= buf.Length
    {
      From(buf[..], index, size)
    }

    ghost predicate Valid()
      reads this, buf
    {
      && buf.Length == MaxSize && size <= MaxSize
      && filled == |Recent(samples, size)|
      && (if size >= 1 then
            0 <= index < size && Chronological() == Window(samples, size) && bufSum == Sum(Chronological())
          else index == 0)
    }

    constructor ()
      ensures buf.Length == MaxSize && fresh(buf)
      ensures index == 0 && filled == 0 && bufSum == 0.0 && samples == []
    {
      buf := new real[MaxSize];
      size, index, filled, bufSum, val, bitSize := 0, 0, 0, 0.0, 0.0, 0;
      samples := [];
    }

    /** Clears the buffer but not the running state, which only a fresh filter or `Reset`
        makes consistent with it. */
    method Init(bufSize: int, newBitSize: int)
      requires buf.Length == MaxSize
      modifies this`size, this`bitSize, buf
      ensures size == (if bufSize > MaxSize then MaxSize else bufSize)
      ensures bitSize == (if bufSize > MaxSize then MaxBitSize else newBitSize)
      ensures forall i :: 0 <= i < MaxSize ==> buf[i] == if i < size then 0.0 else old(buf[i])
      ensures index == 0 && filled == 0 && bufSum == 0.0 && samples == [] ==> Valid()
    {
      var n := bufSize;
      if bufSize > MaxSize {
        n := MaxSize;
        bitSize := MaxBitSize;
      } else {
        bitSize := newBitSize;
      }
      size := n;
      Clear();
    }

    method Clear()
      requires buf.Length == MaxSize && size <= MaxSize
      modifies buf
      ensures forall i :: 0 <= i < MaxSize ==> buf[i] == if i < size then 0.0 else old(buf[i])
      ensures size >= 1 ==> buf[..size] == Window([], size) && Sum(buf[..size]) == 0.0
    {
      var i := 0;
      while i < size
        invariant i == 0 || 0 <= i <= size
        invariant forall k :: 0 <= k < MaxSize ==> buf[k] == if k < i then 0.0 else old(buf[k])
      {
        buf[i] := 0.0;
        i := i + 1;
      }
      if size >= 1 {
        SumZeros(size);
        assert Zeros(size) + [] == Zeros(size);
        assert buf[..size] == Zeros(size);
      }
    }

    method Reset()
      requires buf.Length == MaxSize && size <= MaxSize
      modifies this`filled, this`index, this`bufSum, this`val, this`samples, buf
      ensures Valid() && samples == [] && val == 0.0
    {
      filled, index, bufSum, val := 0, 0, 0.0, 0.0;
      samples := [];
      Clear();
    }

    method Fill(v: real)
      requires Valid()
      modifies this`bufSum, this`index, this`filled, this`samples, buf
      ensures Valid() && samples == old(samples) + [v]
    {
      hide Sum, Window, From;
      ghost var cells := buf[..];
      if size >= 1 {
        RingPush(cells, index, size, v);
        WindowSlides(samples, size, v);
        SumSlide(Window(samples, size), v);
      }
      bufSum := bufSum - buf[index];
      buf[index] := v;
      assert buf[..] == cells[index := v];
      bufSum := bufSum + buf[index];
      index := index + 1;
      if index >= size {
        index := 0;
      }
      if filled < size {
        filled := filled + 1;
      }
      samples := samples + [v];
    }

    /** The mean of the last `size` samples, of all of them while there are fewer, and zero
        while there are none. */
    method Calc() returns (mean: real)
      requires Valid()
      modifies this`val
      ensures mean == Mean(Recent(samples, size))
      ensures val == if Recent(samples, size) == [] then old(val) else mean
      ensures Valid()
    {
      if filled == 0 {
        return 0.0;
      }
      WindowSum(samples, size);
      if filled < size {
        mean := bufSum / filled as real;
      } else {
        mean := bufSum / size as real;
      }
      val := mean;
    }

    /** The running sum is the sum of the buffer as it lies in memory. */
    lemma BufferSum()
      requires Valid() && size >= 1
      ensures bufSum == Sum(buf[..size]) && bufSum == Sum(Recent(samples, size))
    {
      SumRotate(buf[..size], index);
      assert buf[..size][index..] == buf[index..size];
      assert buf[..size][..index] == buf[..index];
      WindowSum(samples, size);
    }
  }
}
