/** The list of invoices read from the input file, and the ways the
    processor reads it: its length, fixed-size batches, and one element. */
module InputHandler {
  import opened Common

  function Min(a: int, b: int): int {
    if a <= b then a else b
  }

  /** The number of batches of `b` that cover `n` invoices. */
  function NumChunks(n: nat, b: nat): nat
    requires b >= 1
  {
    if n == 0 then 0 else 1 + NumChunks(n - Min(b, n), b)
  }

  /** `len(range(0, n, b))`: the batch count is the ceiling of n / b. */
  lemma {:induction false} NumChunksIsCeiling(n: nat, b: nat)
    requires b >= 1
    ensures n == 0 ==> NumChunks(n, b) == 0
    ensures n > 0 ==> (NumChunks(n, b) - 1) * b < n <= NumChunks(n, b) * b
  {
    if n > b {
      NumChunksIsCeiling(n - b, b);
      var c := NumChunks(n - b, b);
      assert (c + 1) * b == c * b + b;
      assert c * b == (c - 1) * b + b;
    }
  }

  /** `[s[i:i + b] for i in range(0, len(s), b)]`, batch by batch: the first
      `b` invoices (or all, if fewer), then the batches of the rest. */
  function Chunks<T>(s: seq<T>, b: nat): (r: seq<seq<T>>)
    requires b >= 1
    ensures |r| == NumChunks(|s|, b)
    decreases |s|
  {
    if s == [] then []
    else [s[..Min(b, |s|)]] + Chunks(s[Min(b, |s|)..], b)
  }

  /** The `k`-th batch is the slice starting at `k * b`, as the comprehension
      writes it. */
  lemma {:induction false} ChunkAt<T>(s: seq<T>, b: nat, k: nat)
    requires b >= 1 && k < NumChunks(|s|, b)
    ensures 0 <= k * b < |s|
    ensures Chunks(s, b)[k] == s[k * b..Min(k * b + b, |s|)]
    decreases |s|
  {
    var m := Min(b, |s|);
    assert s != [] && NumChunks(|s|, b) == 1 + NumChunks(|s| - m, b);
    if k > 0 {
      var t := s[m..];
      ChunkAt(t, b, k - 1);
      var j := (k - 1) * b;
      MultipleStep(k, b);
      assert m == b;
      assert Chunks(s, b)[k] == Chunks(t, b)[k - 1];
      var e := Min(j + b, |t|);
      SuffixSlice(s, m, j, e);
      assert m + j == k * b && m + e == Min(k * b + b, |s|);
    }
  }

  lemma SuffixSlice<T>(s: seq<T>, m: nat, i: nat, j: nat)
    requires m <= |s| && i <= j <= |s| - m
    ensures s[m..][i..j] == s[m + i..m + j]
  {
  }

  lemma MultipleStep(k: nat, b: nat)
    requires k >= 1
    ensures k * b == (k - 1) * b + b
  {
  }

  /** Concatenating the batches gives back the list exactly. */
  lemma {:induction false} FlattenChunks<T>(s: seq<T>, b: nat)
    requires b >= 1
    ensures Flatten(Chunks(s, b)) == s
    decreases |s|
  {
    if s != [] {
      var m := Min(b, |s|);
      FlattenChunks(s[m..], b);
      assert Chunks(s, b)[1..] == Chunks(s[m..], b);
      assert s[..m] + s[m..] == s;
    }
  }

  /** Every batch but the last holds exactly `b` invoices; the last holds
      between one and `b`; there are no batches exactly when there are no
      invoices. */
  lemma {:induction false} ChunkSizes<T>(s: seq<T>, b: nat)
    requires b >= 1
    ensures forall k :: 0 <= k < |Chunks(s, b)| - 1 ==> |Chunks(s, b)[k]| == b
    ensures |Chunks(s, b)| > 0 ==> 1 <= |Chunks(s, b)[|Chunks(s, b)| - 1]| <= b
    ensures s == [] <==> Chunks(s, b) == []
    decreases |s|
  {
    if s != [] {
      var m := Min(b, |s|);
      ChunkSizes(s[m..], b);
      var c := Chunks(s, b);
      assert c[1..] == Chunks(s[m..], b);
      if |s| > b {
        assert Chunks(s[m..], b) != [];
      }
    }
  }

  const RangeStepZeroMessage := "range() arg 3 must not be zero"

  /** `InvoiceInputHandler`: holds the invoices of the loaded file. */
  class InvoiceInputHandler<T> {
    var invoiceData: seq<T>

    /** A handler with no file loaded. */
    constructor()
      ensures invoiceData == []
    {
      invoiceData := [];
    }

    /** `load_invoice_file`, with the parsed contents of the file given. */
    method LoadInvoiceData(data: seq<T>)
      modifies this
      ensures invoiceData == data
    {
      invoiceData := data;
    }

    /** `get_invoice_count`. */
    function GetInvoiceCount(): (r: nat)
      reads this
      ensures r == |invoiceData|
    {
      |invoiceData|
    }

    /** `get_invoice_batch`: the list in consecutive batches of `batchSize`.
        A zero size makes `range` raise; a negative size yields no batches. */
    function GetInvoiceBatch(batchSize: int): (r: Result<seq<seq<T>>, string>)
      reads this
      ensures r.Err? <==> batchSize == 0
      ensures batchSize < 0 ==> r == Ok([])
      ensures batchSize > 0 ==> r.Ok? && Flatten(r.value) == invoiceData
      ensures batchSize > 0 ==> r.value == Chunks(invoiceData, batchSize)
    {
      if batchSize == 0 then Err(RangeStepZeroMessage)
      else if batchSize < 0 then Ok([])
      else
        FlattenChunks(invoiceData, batchSize);
        Ok(Chunks(invoiceData, batchSize))
    }

    /** `get_invoice_data`: Python list indexing, negative indices counting
        from the end; `None` where it raises IndexError. */
    function GetInvoiceData(invoiceIndex: int): (r: Option<T>)
      reads this
      ensures r.Some? <==> -|invoiceData| <= invoiceIndex < |invoiceData|
      ensures 0 <= invoiceIndex < |invoiceData| ==> r == Some(invoiceData[invoiceIndex])
      ensures -|invoiceData| <= invoiceIndex < 0 ==> r == Some(invoiceData[|invoiceData| + invoiceIndex])
    {
      if 0 <= invoiceIndex < |invoiceData| then Some(invoiceData[invoiceIndex])
      else if -|invoiceData| <= invoiceIndex < 0 then Some(invoiceData[|invoiceData| + invoiceIndex])
      else None
    }
  }

  /** Batches of five over seven invoices: one of five, one of two. */
  lemma SevenInBatchesOfFive<T>(s: seq<T>)
    requires |s| == 7
    ensures Chunks(s, 5) == [s[..5], s[5..]]
  {
    assert s[5..][..2] == s[5..];
  }
}
