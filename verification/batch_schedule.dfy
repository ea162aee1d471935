/** What `_create_issuer_groups` and `_create_batches` compute, stated as
    functions: the issuers in first-seen order, each issuer's invoices in
    input order, and the batches, each taking the head invoice of the first
    `max` remaining issuers. */
module BatchSchedule {
  import opened Common
  import opened Requests

  function Min(a: int, b: int): int {
    if a <= b then a else b
  }

  predicate Distinct(keys: seq<string>) {
    forall i, j :: 0 <= i < j < |keys| ==> keys[i] != keys[j]
  }

  /** No two invoices of one batch share an issuer. */
  predicate DistinctIssuers(batch: seq<InvoiceRequest>) {
    forall i, j :: 0 <= i < j < |batch| ==> batch[i].issuerCuit != batch[j].issuerCuit
  }

  /** The invoices of issuer `c`, in input order. */
  function Filter(s: seq<InvoiceRequest>, c: string): (r: seq<InvoiceRequest>)
    ensures |r| <= |s|
    ensures forall x :: x in r ==> x in s && x.issuerCuit == c
  {
    if s == [] then []
    else Filter(s[..|s| - 1], c) + (if s[|s| - 1].issuerCuit == c then [s[|s| - 1]] else [])
  }

  lemma {:induction false} FilterAppend(a: seq<InvoiceRequest>, b: seq<InvoiceRequest>, c: string)
    ensures Filter(a + b, c) == Filter(a, c) + Filter(b, c)
    decreases |b|
  {
    if b != [] {
      assert (a + b)[..|a + b| - 1] == a + b[..|b| - 1];
      FilterAppend(a, b[..|b| - 1], c);
    } else {
      assert a + b == a;
    }
  }

  /** The issuers of `s`, each once, in the order they first appear: the
      key order of the dictionary `_create_issuer_groups` builds. */
  function IssuerOrder(s: seq<InvoiceRequest>): (r: seq<string>)
    ensures Distinct(r)
    ensures forall c :: c in r <==> Filter(s, c) != []
  {
    if s == [] then []
    else
      var p := IssuerOrder(s[..|s| - 1]);
      var c := s[|s| - 1].issuerCuit;
      if c in p then p else p + [c]
  }

  /** Issuers already seen keep their place as more invoices are read. */
  lemma {:induction false} IssuerOrderPrefix(s: seq<InvoiceRequest>, t: seq<InvoiceRequest>)
    ensures IssuerOrder(s) <= IssuerOrder(s + t)
    decreases |t|
  {
    if t != [] {
      assert (s + t)[..|s + t| - 1] == s + t[..|t| - 1];
      IssuerOrderPrefix(s, t[..|t| - 1]);
    } else {
      assert s + t == s;
    }
  }

  /** The dictionary `_create_issuer_groups` returns. */
  function Groups(s: seq<InvoiceRequest>): map<string, seq<InvoiceRequest>> {
    if s == [] then map[]
    else
      var g := Groups(s[..|s| - 1]);
      var x := s[|s| - 1];
      g[x.issuerCuit := (if x.issuerCuit in g then g[x.issuerCuit] else []) + [x]]
  }

  /** The state of the batching loop: issuers in dictionary order, each
      with the invoices it still has, none of them exhausted. */
  ghost predicate WellFormed(keys: seq<string>, rem: map<string, seq<InvoiceRequest>>) {
    && Distinct(keys)
    && (forall k :: k in rem <==> k in keys)
    && (forall k :: k in rem ==> rem[k] != [])
    && (forall k, x :: k in rem && x in rem[k] ==> x.issuerCuit == k)
  }

  /** Each issuer seen is a key, holding that issuer's invoices in order. */
  lemma {:induction false} GroupsKeys(s: seq<InvoiceRequest>, c: string)
    ensures c in Groups(s) <==> c in IssuerOrder(s)
    ensures c in Groups(s) ==> Groups(s)[c] == Filter(s, c)
    decreases |s|
  {
    if s != [] {
      GroupsKeys(s[..|s| - 1], c);
    }
  }

  /** Reading one more invoice: a new issuer is added at the end of the key
      order with an empty list, then the invoice joins its issuer's list. */
  lemma GroupingStep(s: seq<InvoiceRequest>, x: InvoiceRequest)
    ensures var c := x.issuerCuit;
            && IssuerOrder(s + [x]) == (if c in Groups(s) then IssuerOrder(s) else IssuerOrder(s) + [c])
            && Groups(s + [x]) == (var g := if c in Groups(s) then Groups(s) else Groups(s)[c := []];
                                   g[c := g[c] + [x]])
  {
    assert (s + [x])[..|s|] == s;
    GroupsKeys(s, x.issuerCuit);
  }

  lemma GroupsWellFormed(s: seq<InvoiceRequest>)
    ensures WellFormed(IssuerOrder(s), Groups(s))
  {
    forall k
      ensures k in Groups(s) <==> k in IssuerOrder(s)
      ensures k in Groups(s) ==> Groups(s)[k] == Filter(s, k)
    {
      GroupsKeys(s, k);
    }
  }

  /** The invoices still to be batched. */
  function Total(keys: seq<string>, rem: map<string, seq<InvoiceRequest>>): nat
    requires forall k :: k in keys ==> k in rem
  {
    if keys == [] then 0 else Total(keys[..|keys| - 1], rem) + |rem[keys[|keys| - 1]]|
  }

  lemma {:induction false} TotalAppend(a: seq<string>, b: seq<string>, rem: map<string, seq<InvoiceRequest>>)
    requires forall k :: k in a + b ==> k in rem
    ensures Total(a + b, rem) == Total(a, rem) + Total(b, rem)
    decreases |b|
  {
    if b != [] {
      assert (a + b)[..|a + b| - 1] == a + b[..|b| - 1];
      TotalAppend(a, b[..|b| - 1], rem);
    } else {
      assert a + b == a;
    }
  }

  lemma {:induction false} TotalAgree(keys: seq<string>, r1: map<string, seq<InvoiceRequest>>,
                                      r2: map<string, seq<InvoiceRequest>>)
    requires forall k :: k in keys ==> k in r1 && k in r2 && r1[k] == r2[k]
    ensures Total(keys, r1) == Total(keys, r2)
    decreases |keys|
  {
    if keys != [] {
      TotalAgree(keys[..|keys| - 1], r1, r2);
    }
  }

  /** The issuers a pass takes from: the first `max`, or all if fewer. */
  function Taken(keys: seq<string>, max: int): (r: seq<string>)
    requires max >= 1
    ensures r == keys[..Min(max, |keys|)]
  {
    keys[..Min(max, |keys|)]
  }

  /** The head invoice of each issuer taken, in issuer order. */
  function Heads(taken: seq<string>, rem: map<string, seq<InvoiceRequest>>): (r: seq<InvoiceRequest>)
    requires forall k :: k in taken ==> k in rem && rem[k] != []
    ensures |r| == |taken|
  {
    if taken == [] then []
    else Heads(taken[..|taken| - 1], rem) + [rem[taken[|taken| - 1]][0]]
  }

  /** The issuers taken that still have invoices after giving one. */
  function KeepLive(taken: seq<string>, rem: map<string, seq<InvoiceRequest>>): (r: seq<string>)
    requires forall k :: k in taken ==> k in rem
    ensures forall k :: k in r <==> k in taken && |rem[k]| > 1
    ensures Distinct(taken) ==> Distinct(r)
  {
    if taken == [] then []
    else
      var p := KeepLive(taken[..|taken| - 1], rem);
      var t := taken[|taken| - 1];
      if |rem[t]| > 1 then p + [t] else p
  }

  /** The remaining invoices after the issuers taken each gave their head;
      exhausted issuers are deleted. */
  function Advance(rem: map<string, seq<InvoiceRequest>>, taken: seq<string>)
    : map<string, seq<InvoiceRequest>>
  {
    map k | k in rem && (k !in taken || |rem[k]| > 1) :: if k in taken then rem[k][1..] else rem[k]
  }

  /** The dictionary order after a pass: surviving taken issuers stay in
      front of the issuers the pass did not reach. */
  function NextKeys(keys: seq<string>, rem: map<string, seq<InvoiceRequest>>, max: int): seq<string>
    requires max >= 1 && forall k :: k in keys ==> k in rem
  {
    KeepLive(Taken(keys, max), rem) + keys[Min(max, |keys|)..]
  }

  lemma {:induction false} KeepLiveTotal(taken: seq<string>, rem: map<string, seq<InvoiceRequest>>,
                                         r: map<string, seq<InvoiceRequest>>)
    requires forall k :: k in taken ==> k in rem && rem[k] != []
    requires forall k :: k in KeepLive(taken, rem) ==> k in r && r[k] == rem[k][1..]
    ensures Total(KeepLive(taken, rem), r) + |taken| == Total(taken, rem)
    decreases |taken|
  {
    if taken != [] {
      var p := taken[..|taken| - 1];
      var t := taken[|taken| - 1];
      KeepLiveTotal(p, rem, r);
      if |rem[t]| > 1 {
        var kl := KeepLive(p, rem) + [t];
        assert kl[..|kl| - 1] == KeepLive(p, rem);
      }
    }
  }

  lemma DistinctAppend(a: seq<string>, b: seq<string>)
    requires Distinct(a) && Distinct(b) && forall k :: k in a ==> k !in b
    ensures Distinct(a + b)
  {
    forall i, j | 0 <= i < j < |a + b|
      ensures (a + b)[i] != (a + b)[j]
    {
      if i < |a| && j >= |a| {
        assert (a + b)[i] in a;
      }
    }
  }

  /** The two parts of a list of distinct issuers are distinct and apart. */
  lemma SplitDistinct(keys: seq<string>, n: nat)
    requires Distinct(keys) && n <= |keys|
    ensures Distinct(keys[..n]) && Distinct(keys[n..])
    ensures forall k :: k in keys[..n] ==> k !in keys[n..]
  {
    forall k | k in keys[..n]
      ensures k !in keys[n..]
    {
      var i :| 0 <= i < n && keys[..n][i] == k;
      assert keys[i] == k;
    }
    forall i, j | 0 <= i < j < |keys| - n
      ensures keys[n..][i] != keys[n..][j]
    {
      assert keys[n..][i] == keys[n + i] && keys[n..][j] == keys[n + j];
    }
  }

  /** After a pass the dictionary holds exactly the surviving issuers. */
  lemma NextKeysMembers(keys: seq<string>, rem: map<string, seq<InvoiceRequest>>, max: int)
    requires WellFormed(keys, rem) && max >= 1
    ensures forall k :: k in Advance(rem, Taken(keys, max)) <==> k in NextKeys(keys, rem, max)
  {
    var n := Min(max, |keys|);
    var taken := keys[..n];
    var rest := keys[n..];
    assert keys == taken + rest;
    SplitDistinct(keys, n);
    forall k
      ensures k in Advance(rem, taken) <==> k in KeepLive(taken, rem) + rest
    {
      AdvanceAt(rem, taken, k);
    }
  }

  /** After a pass every issuer left still has invoices, all its own. */
  lemma NextValues(keys: seq<string>, rem: map<string, seq<InvoiceRequest>>, max: int)
    requires WellFormed(keys, rem) && max >= 1
    ensures forall k :: k in Advance(rem, Taken(keys, max)) ==> Advance(rem, Taken(keys, max))[k] != []
    ensures forall k, x :: k in Advance(rem, Taken(keys, max)) && x in Advance(rem, Taken(keys, max))[k]
                           ==> x.issuerCuit == k
  {
    var taken := Taken(keys, max);
    var next := Advance(rem, taken);
    forall k | k in next
      ensures next[k] != []
    {
      AdvanceAt(rem, taken, k);
    }
    forall k, x: InvoiceRequest | k in next && x in next[k]
      ensures x.issuerCuit == k
    {
      AdvanceAt(rem, taken, k);
      if k in taken {
        assert x in rem[k];
      }
    }
  }

  /** One pass keeps the state well formed. */
  lemma NextWellFormedState(keys: seq<string>, rem: map<string, seq<InvoiceRequest>>, max: int)
    requires WellFormed(keys, rem) && max >= 1
    ensures WellFormed(NextKeys(keys, rem, max), Advance(rem, Taken(keys, max)))
  {
    var n := Min(max, |keys|);
    SplitDistinct(keys, n);
    DistinctAppend(KeepLive(keys[..n], rem), keys[n..]);
    NextKeysMembers(keys, rem, max);
    NextValues(keys, rem, max);
  }

  /** The total of a pass's state, given what it keeps of each issuer. */
  lemma TotalAfterPass(taken: seq<string>, rest: seq<string>, rem: map<string, seq<InvoiceRequest>>,
                       next: map<string, seq<InvoiceRequest>>)
    requires forall k :: k in taken + rest ==> k in rem
    requires forall k :: k in taken ==> rem[k] != []
    requires forall k :: k in rest ==> k in next && next[k] == rem[k]
    requires forall k :: k in KeepLive(taken, rem) ==> k in next && next[k] == rem[k][1..]
    ensures Total(KeepLive(taken, rem) + rest, next) == Total(taken + rest, rem) - |taken|
  {
    TotalAppend(taken, rest, rem);
    TotalAppend(KeepLive(taken, rem), rest, next);
    TotalAgree(rest, rem, next);
    KeepLiveTotal(taken, rem, next);
  }

  /** What a pass keeps: the issuers it did not reach untouched, the
      surviving issuers it took without their heads. */
  lemma NextAgrees(keys: seq<string>, rem: map<string, seq<InvoiceRequest>>, max: int)
    requires WellFormed(keys, rem) && max >= 1
    ensures var next := Advance(rem, Taken(keys, max));
            && (forall k :: k in keys[Min(max, |keys|)..] ==> k in next && next[k] == rem[k])
            && (forall k :: k in KeepLive(Taken(keys, max), rem) ==> k in next && next[k] == rem[k][1..])
  {
    var n := Min(max, |keys|);
    var taken := keys[..n];
    var next := Advance(rem, taken);
    SplitDistinct(keys, n);
    forall k | k in keys[n..]
      ensures k in next && next[k] == rem[k]
    {
      assert k in keys;
      AdvanceAt(rem, taken, k);
    }
    forall k | k in KeepLive(taken, rem)
      ensures k in next && next[k] == rem[k][1..]
    {
      AdvanceAt(rem, taken, k);
    }
  }

  /** One pass uses up exactly as many invoices as it batches. */
  lemma NextTotal(keys: seq<string>, rem: map<string, seq<InvoiceRequest>>, max: int)
    requires WellFormed(keys, rem) && max >= 1
    ensures forall k :: k in NextKeys(keys, rem, max) ==> k in Advance(rem, Taken(keys, max))
    ensures Total(NextKeys(keys, rem, max), Advance(rem, Taken(keys, max)))
         == Total(keys, rem) - |Taken(keys, max)|
  {
    var n := Min(max, |keys|);
    NextKeysMembers(keys, rem, max);
    NextAgrees(keys, rem, max);
    assert keys == keys[..n] + keys[n..];
    TotalAfterPass(keys[..n], keys[n..], rem, Advance(rem, keys[..n]));
  }

  /** One pass keeps the state well formed and uses up exactly as many
      invoices as it batches. */
  lemma NextWellFormed(keys: seq<string>, rem: map<string, seq<InvoiceRequest>>, max: int)
    requires WellFormed(keys, rem) && max >= 1
    ensures WellFormed(NextKeys(keys, rem, max), Advance(rem, Taken(keys, max)))
    ensures Total(NextKeys(keys, rem, max), Advance(rem, Taken(keys, max)))
         == Total(keys, rem) - |Taken(keys, max)|
  {
    NextWellFormedState(keys, rem, max);
    NextTotal(keys, rem, max);
  }

  /** `_create_batches` from the issuers' state: while any issuer has
      invoices, one pass makes one batch. */
  function Schedule(keys: seq<string>, rem: map<string, seq<InvoiceRequest>>, max: int)
    : seq<seq<InvoiceRequest>>
    requires WellFormed(keys, rem) && (max >= 1 || keys == [])
    decreases Total(keys, rem)
  {
    if keys == [] then []
    else
      NextWellFormed(keys, rem, max);
      [Heads(Taken(keys, max), rem)]
        + Schedule(NextKeys(keys, rem, max), Advance(rem, Taken(keys, max)), max)
  }

  /** One pass of a scheduler with issuers left: its batch, then the
      schedule of the state the pass leaves, which holds fewer invoices. */
  lemma ScheduleUnfold(keys: seq<string>, rem: map<string, seq<InvoiceRequest>>, max: int)
    requires WellFormed(keys, rem) && max >= 1 && keys != []
    ensures WellFormed(NextKeys(keys, rem, max), Advance(rem, Taken(keys, max)))
    ensures Total(NextKeys(keys, rem, max), Advance(rem, Taken(keys, max))) < Total(keys, rem)
    ensures Schedule(keys, rem, max)
         == [Heads(Taken(keys, max), rem)] + Schedule(NextKeys(keys, rem, max), Advance(rem, Taken(keys, max)), max)
  {
    NextWellFormed(keys, rem, max);
  }

  /** One pass of a scheduler with issuers left: its batch, non-empty, is
      appended to those made so far, and the state the pass leaves holds
      fewer invoices and has the rest of the schedule ahead of it. */
  lemma ScheduleStep(done: seq<seq<InvoiceRequest>>, keys: seq<string>, rem: map<string, seq<InvoiceRequest>>,
                     max: int, batch: seq<InvoiceRequest>, nextKeys: seq<string>,
                     next: map<string, seq<InvoiceRequest>>)
    requires WellFormed(keys, rem) && max >= 1 && keys != []
    requires batch == Heads(Taken(keys, max), rem)
    requires nextKeys == NextKeys(keys, rem, max) && next == Advance(rem, Taken(keys, max))
    ensures WellFormed(nextKeys, next)
    ensures Total(nextKeys, next) < Total(keys, rem)
    ensures batch != []
    ensures (done + [batch]) + Schedule(nextKeys, next, max) == done + Schedule(keys, rem, max)
  {
    ScheduleUnfold(keys, rem, max);
  }

  /** `any(remaining.values())`: walking the values in key order, some
      issuer's list is non-empty. */
  predicate AnyValues(keys: seq<string>, rem: map<string, seq<InvoiceRequest>>)
    requires forall k :: k in keys ==> k in rem
  {
    keys != [] && (rem[keys[0]] != [] || AnyValues(keys[1..], rem))
  }

  /** Some issuer has invoices left exactly while keys are left, since
      emptied lists are deleted with their keys. */
  lemma WorkLeft(keys: seq<string>, rem: map<string, seq<InvoiceRequest>>)
    requires WellFormed(keys, rem)
    ensures AnyValues(keys, rem) <==> keys != []
  {
    if keys != [] {
      assert keys[0] in rem && rem[keys[0]] != [];
    }
  }

  /** The batches `_create_batches(invoices)` returns. */
  function CreateBatchesSpec(invoices: seq<InvoiceRequest>, max: int): seq<seq<InvoiceRequest>>
    requires max >= 1 || invoices == []
  {
    GroupsWellFormed(invoices);
    Schedule(IssuerOrder(invoices), Groups(invoices), max)
  }

  /** Heads are taken in issuer order, one from each issuer. */
  lemma {:induction false} HeadsIssuers(taken: seq<string>, rem: map<string, seq<InvoiceRequest>>)
    requires forall k :: k in taken ==> k in rem && rem[k] != []
    requires forall k, x :: k in rem && x in rem[k] ==> x.issuerCuit == k
    ensures forall i :: 0 <= i < |taken| ==>
              Heads(taken, rem)[i] == rem[taken[i]][0] && Heads(taken, rem)[i].issuerCuit == taken[i]
    decreases |taken|
  {
    if taken != [] {
      HeadsIssuers(taken[..|taken| - 1], rem);
    }
  }

  /** Issuer `c` contributes to the heads exactly its first invoice, and
      only if it was taken. */
  lemma {:induction false} FilterHeads(taken: seq<string>, rem: map<string, seq<InvoiceRequest>>, c: string)
    requires Distinct(taken)
    requires forall k :: k in taken ==> k in rem && rem[k] != [] && rem[k][0].issuerCuit == k
    ensures Filter(Heads(taken, rem), c) == if c in taken then [rem[c][0]] else []
    decreases |taken|
  {
    if taken != [] {
      var n := |taken| - 1;
      var p, t := taken[..n], taken[n];
      SplitDistinct(taken, n);
      assert taken[n..] == [t] && taken == p + [t];
      assert t !in p;
      FilterHeads(p, rem, c);
      FilterSnoc(Heads(p, rem), rem[t][0], c);
      assert Heads(taken, rem) == Heads(p, rem) + [rem[t][0]];
      assert (c in taken) == (c in p || c == t);
    }
  }

  /** Filtering a sequence extended by one invoice. */
  lemma FilterSnoc(s: seq<InvoiceRequest>, x: InvoiceRequest, c: string)
    ensures Filter(s + [x], c) == Filter(s, c) + (if x.issuerCuit == c then [x] else [])
  {
    assert (s + [x])[..|s|] == s;
  }

  lemma FlattenCons<T>(x: seq<T>, rest: seq<seq<T>>)
    ensures Flatten([x] + rest) == x + Flatten(rest)
  {
    assert ([x] + rest)[1..] == rest;
  }

  /** The issuers a pass takes are distinct keys with invoices left. */
  lemma TakenFacts(keys: seq<string>, rem: map<string, seq<InvoiceRequest>>, max: int)
    requires WellFormed(keys, rem) && max >= 1
    ensures Distinct(Taken(keys, max))
    ensures forall k :: k in Taken(keys, max) ==> k in rem && rem[k] != []
  {
    var taken := Taken(keys, max);
    forall i, j | 0 <= i < j < |taken|
      ensures taken[i] != taken[j]
    {
      assert taken[i] == keys[i] && taken[j] == keys[j];
    }
  }

  /** What a pass leaves of issuer `c`'s invoices. */
  lemma AdvanceAt(rem: map<string, seq<InvoiceRequest>>, taken: seq<string>, c: string)
    ensures c in Advance(rem, taken) <==> c in rem && (c !in taken || |rem[c]| > 1)
    ensures c in Advance(rem, taken) ==>
              Advance(rem, taken)[c] == if c in taken then rem[c][1..] else rem[c]
  {
  }

  /** Taking the heads of distinct issuers moves exactly the first invoice
      of each issuer taken out of the remaining invoices and into the batch. */
  lemma HeadsFilter(taken: seq<string>, rem: map<string, seq<InvoiceRequest>>, c: string)
    requires Distinct(taken)
    requires forall k :: k in taken ==> k in rem && rem[k] != []
    requires forall k, x :: k in rem && x in rem[k] ==> x.issuerCuit == k
    ensures Filter(Heads(taken, rem), c) + (if c in Advance(rem, taken) then Advance(rem, taken)[c] else [])
            == if c in rem then rem[c] else []
  {
    var next := Advance(rem, taken);
    forall k | k in taken
      ensures rem[k][0].issuerCuit == k
    {
      assert rem[k][0] in rem[k];
    }
    FilterHeads(taken, rem, c);
    AdvanceAt(rem, taken, c);
    if c in taken {
      HeadAndRest(rem[c]);
    }
  }

  /** A non-empty list is its head followed by what is left after it. */
  lemma HeadAndRest(s: seq<InvoiceRequest>)
    requires s != []
    ensures [s[0]] + (if |s| > 1 then s[1..] else []) == s
  {
  }

  /** One pass moves exactly the first invoice of each issuer taken out of
      the remaining invoices and into the batch. */
  lemma PassFilter(keys: seq<string>, rem: map<string, seq<InvoiceRequest>>, max: int, c: string)
    requires WellFormed(keys, rem) && max >= 1
    ensures var next := Advance(rem, Taken(keys, max));
            Filter(Heads(Taken(keys, max), rem), c) + (if c in next then next[c] else [])
            == if c in rem then rem[c] else []
  {
    TakenFacts(keys, rem, max);
    HeadsFilter(Taken(keys, max), rem, c);
  }

  /** Every issuer's invoices come out of the batches complete and in the
      order they had: batching neither loses, duplicates nor reorders them. */
  lemma {:induction false} ScheduleFilter(keys: seq<string>, rem: map<string, seq<InvoiceRequest>>,
                                          max: int, c: string)
    requires WellFormed(keys, rem) && (max >= 1 || keys == [])
    ensures Filter(Flatten(Schedule(keys, rem, max)), c) == if c in rem then rem[c] else []
    decreases Total(keys, rem)
  {
    if keys != [] {
      var taken := Taken(keys, max);
      var next := Advance(rem, taken);
      ScheduleUnfold(keys, rem, max);
      ScheduleFilter(NextKeys(keys, rem, max), next, max, c);
      var batch := Heads(taken, rem);
      var later := Schedule(NextKeys(keys, rem, max), next, max);
      FlattenCons(batch, later);
      FilterAppend(batch, Flatten(later), c);
      PassFilter(keys, rem, max, c);
    } else {
      assert rem == map[];
    }
  }

  /** Every batch holds between one and `max` invoices, all of different
      issuers. */
  lemma {:induction false} ScheduleBatches(keys: seq<string>, rem: map<string, seq<InvoiceRequest>>, max: int)
    requires WellFormed(keys, rem) && (max >= 1 || keys == [])
    ensures forall b :: b in Schedule(keys, rem, max) ==> 1 <= |b| <= max && DistinctIssuers(b)
    decreases Total(keys, rem)
  {
    if keys != [] {
      var taken := Taken(keys, max);
      ScheduleUnfold(keys, rem, max);
      ScheduleBatches(NextKeys(keys, rem, max), Advance(rem, taken), max);
      HeadsShape(keys, rem, max);
    }
  }

  /** A pass with issuers left takes between one and `max` invoices, all of
      different issuers. */
  lemma HeadsShape(keys: seq<string>, rem: map<string, seq<InvoiceRequest>>, max: int)
    requires WellFormed(keys, rem) && max >= 1 && keys != []
    ensures var batch := Heads(Taken(keys, max), rem);
            1 <= |batch| <= max && DistinctIssuers(batch)
  {
    var taken := Taken(keys, max);
    TakenFacts(keys, rem, max);
    HeadsIssuers(taken, rem);
  }


  /** A pass batches the head invoice of each of the first `max` issuers
      (all of them if fewer remain), in dictionary order. */
  lemma FirstBatch(keys: seq<string>, rem: map<string, seq<InvoiceRequest>>, max: int)
    requires WellFormed(keys, rem) && max >= 1 && keys != []
    ensures |Schedule(keys, rem, max)[0]| == Min(max, |keys|)
    ensures forall i :: 0 <= i < Min(max, |keys|) ==>
              Schedule(keys, rem, max)[0][i] == rem[keys[i]][0]
  {
    HeadsIssuers(Taken(keys, max), rem);
  }

  /** How often `x` occurs is decided by its own issuer's invoices. */
  lemma {:induction false} CountInFilter(s: seq<InvoiceRequest>, x: InvoiceRequest)
    ensures multiset(s)[x] == multiset(Filter(s, x.issuerCuit))[x]
    decreases |s|
  {
    if s != [] {
      var p, y := s[..|s| - 1], s[|s| - 1];
      CountInFilter(p, x);
      assert s == p + [y];
      FilterSnoc(p, y, x.issuerCuit);
      assert multiset(s) == multiset(p) + multiset{y};
    }
  }

  /** Sequences that agree issuer by issuer are permutations of each other. */
  lemma MultisetFromFilters(a: seq<InvoiceRequest>, b: seq<InvoiceRequest>)
    requires forall c :: Filter(a, c) == Filter(b, c)
    ensures multiset(a) == multiset(b)
  {
    forall x | true
      ensures multiset(a)[x] == multiset(b)[x]
    {
      CountInFilter(a, x);
      CountInFilter(b, x);
    }
  }

  /** `_create_batches` keeps each issuer's invoices in input order. */
  lemma CreateBatchesIssuerOrder(invoices: seq<InvoiceRequest>, max: int, c: string)
    requires max >= 1 || invoices == []
    ensures Filter(Flatten(CreateBatchesSpec(invoices, max)), c) == Filter(invoices, c)
  {
    GroupsWellFormed(invoices);
    GroupsKeys(invoices, c);
    ScheduleFilter(IssuerOrder(invoices), Groups(invoices), max, c);
  }

  /** `_create_batches` puts every invoice in exactly one batch. */
  lemma CreateBatchesPartition(invoices: seq<InvoiceRequest>, max: int)
    requires max >= 1 || invoices == []
    ensures multiset(Flatten(CreateBatchesSpec(invoices, max))) == multiset(invoices)
    ensures |Flatten(CreateBatchesSpec(invoices, max))| == |invoices|
  {
    forall c | true
      ensures Filter(Flatten(CreateBatchesSpec(invoices, max)), c) == Filter(invoices, c)
    {
      CreateBatchesIssuerOrder(invoices, max, c);
    }
    MultisetFromFilters(Flatten(CreateBatchesSpec(invoices, max)), invoices);
    assert |multiset(Flatten(CreateBatchesSpec(invoices, max)))| == |multiset(invoices)|;
  }

  /** Batches of `_create_batches` are never empty, never exceed
      `max_concurrent` and never hold two invoices of one issuer. */
  lemma CreateBatchesShape(invoices: seq<InvoiceRequest>, max: int)
    requires max >= 1 || invoices == []
    ensures forall b :: b in CreateBatchesSpec(invoices, max) ==> 1 <= |b| <= max && DistinctIssuers(b)
  {
    GroupsWellFormed(invoices);
    ScheduleBatches(IssuerOrder(invoices), Groups(invoices), max);
  }

  /** `del d[c]` on the dictionary's key order. */
  function RemoveKey(keys: seq<string>, c: string): (r: seq<string>)
    ensures c !in r && forall k :: k in r <==> k in keys && k != c
  {
    if keys == [] then []
    else RemoveKey(keys[..|keys| - 1], c) + (if keys[|keys| - 1] == c then [] else [keys[|keys| - 1]])
  }

  lemma {:induction false} RemoveKeyAbsent(keys: seq<string>, c: string)
    requires c !in keys
    ensures RemoveKey(keys, c) == keys
    decreases |keys|
  {
    if keys != [] {
      RemoveKeyAbsent(keys[..|keys| - 1], c);
    }
  }

  lemma {:induction false} RemoveKeyAppend(a: seq<string>, b: seq<string>, c: string)
    ensures RemoveKey(a + b, c) == RemoveKey(a, c) + RemoveKey(b, c)
    decreases |b|
  {
    if b != [] {
      assert (a + b)[..|a + b| - 1] == a + b[..|b| - 1];
      RemoveKeyAppend(a, b[..|b| - 1], c);
    } else {
      assert a + b == a;
    }
  }

  /** Visiting the next issuer of the snapshot during a pass that still has
      room: it is present with all its invoices, and taking its head
      extends the batch, the surviving keys and the advanced invoices by
      that one issuer. */
  lemma PassStep(snapshot: seq<string>, rem0: map<string, seq<InvoiceRequest>>, j: nat)
    requires WellFormed(snapshot, rem0) && j < |snapshot|
    ensures var p, c := snapshot[..j], snapshot[j];
            && c !in p
            && c in Advance(rem0, p) && Advance(rem0, p)[c] == rem0[c]
            && Heads(p + [c], rem0) == Heads(p, rem0) + [rem0[c][0]]
  {
    var p, c := snapshot[..j], snapshot[j];
    assert (p + [c])[..j] == p;
  }

  lemma PassStepLive(snapshot: seq<string>, rem0: map<string, seq<InvoiceRequest>>, j: nat)
    requires WellFormed(snapshot, rem0) && j < |snapshot| && |rem0[snapshot[j]]| > 1
    ensures var p, c := snapshot[..j], snapshot[j];
            && KeepLive(p + [c], rem0) + snapshot[j + 1..] == KeepLive(p, rem0) + snapshot[j..]
            && Advance(rem0, p + [c]) == Advance(rem0, p)[c := rem0[c][1..]]
  {
    var p, c := snapshot[..j], snapshot[j];
    assert (p + [c])[..j] == p;
    assert snapshot[j..] == [c] + snapshot[j + 1..];
    var m1 := Advance(rem0, p + [c]);
    var m2 := Advance(rem0, p)[c := rem0[c][1..]];
    assert m1.Keys == m2.Keys;
    MapExtensionality(m1, m2);
  }

  lemma PassStepExhausted(snapshot: seq<string>, rem0: map<string, seq<InvoiceRequest>>, j: nat)
    requires WellFormed(snapshot, rem0) && j < |snapshot| && |rem0[snapshot[j]]| == 1
    ensures var p, c := snapshot[..j], snapshot[j];
            && KeepLive(p + [c], rem0) + snapshot[j + 1..]
               == RemoveKey(KeepLive(p, rem0) + snapshot[j..], c)
            && Advance(rem0, p + [c]) == Advance(rem0, p)[c := []] - {c}
  {
    PassStepExhaustedKeys(snapshot, rem0, j);
    var p, c := snapshot[..j], snapshot[j];
    var m1 := Advance(rem0, p + [c]);
    var m2 := Advance(rem0, p)[c := []] - {c};
    assert m1.Keys == m2.Keys;
    MapExtensionality(m1, m2);
  }

  lemma PassStepExhaustedKeys(snapshot: seq<string>, rem0: map<string, seq<InvoiceRequest>>, j: nat)
    requires WellFormed(snapshot, rem0) && j < |snapshot| && |rem0[snapshot[j]]| == 1
    ensures var p, c := snapshot[..j], snapshot[j];
            KeepLive(p + [c], rem0) + snapshot[j + 1..]
            == RemoveKey(KeepLive(p, rem0) + snapshot[j..], c)
  {
    var p, c := snapshot[..j], snapshot[j];
    var kl := KeepLive(p, rem0);
    assert (p + [c])[..j] == p;
    assert KeepLive(p + [c], rem0) == kl;
    assert snapshot[j..] == [c] + snapshot[j + 1..];
    var rest := snapshot[j + 1..];
    assert c !in kl;
    assert c !in rest;
    calc {
      RemoveKey(kl + snapshot[j..], c);
      { RemoveKeyAppend(kl, snapshot[j..], c); }
      RemoveKey(kl, c) + RemoveKey([c] + rest, c);
      { RemoveKeyAbsent(kl, c); RemoveKeyAppend([c], rest, c); }
      kl + (RemoveKey([c], c) + RemoveKey(rest, c));
      { RemoveKeyAbsent(rest, c); assert [c][..0] == []; }
      kl + ([] + rest);
      { assert [] + rest == rest; }
      kl + rest;
    }
  }

  /** At the end of the snapshot, the issuers taken are exactly the
      first `max` (or all, if fewer). */
  lemma PassEnd(snapshot: seq<string>, taken: seq<string>, max: int)
    requires max >= 1
    requires |taken| <= max && |taken| <= |snapshot| && (|taken| < max ==> |taken| == |snapshot|)
    requires taken == snapshot[..|taken|]
    ensures taken == Taken(snapshot, max) && |taken| == Min(max, |snapshot|)
  {
  }

  /** An issuer the pass passes over: its key is distinct from those
      taken, so it is skipped only because the batch is full. */
  lemma VisitSkip(snapshot: seq<string>, j: nat, taken: seq<string>, max: int)
    requires Distinct(snapshot) && j < |snapshot| && max >= 1
    requires |taken| <= max && |taken| <= j && (|taken| < max ==> |taken| == j)
    requires taken == snapshot[..|taken|]
    requires snapshot[j] in taken || |taken| >= max
    ensures |taken| == max
  {
    if snapshot[j] in taken {
      assert false;
    }
  }

  /** The state after visiting `taken`, the first `j` issuers of the
      snapshot, with room left, and what taking the head of the next issuer
      `c` makes of it: its list loses its head, and is deleted with its key
      when that leaves it empty. */
  lemma VisitTake(snapshot: seq<string>, rem0: map<string, seq<InvoiceRequest>>, j: nat, taken: seq<string>,
                  batch: seq<InvoiceRequest>, keys: seq<string>, remaining: map<string, seq<InvoiceRequest>>)
    requires WellFormed(snapshot, rem0) && j < |snapshot| && taken == snapshot[..j]
    requires batch == Heads(taken, rem0)
    requires keys == KeepLive(taken, rem0) + snapshot[|taken|..]
    requires remaining == Advance(rem0, taken)
    ensures var c := snapshot[j];
            var rest := remaining[c][1..];
            var t := taken + [c];
            && c in remaining && remaining[c] != []
            && |t| == j + 1 && t == snapshot[..|t|]
            && batch + [remaining[c][0]] == Heads(t, rem0)
            && (rest != [] ==>
                  && keys == KeepLive(t, rem0) + snapshot[|t|..]
                  && remaining[c := rest] == Advance(rem0, t))
            && (rest == [] ==>
                  && RemoveKey(keys, c) == KeepLive(t, rem0) + snapshot[|t|..]
                  && remaining[c := rest] - {c} == Advance(rem0, t))
  {
    PrefixExtend(snapshot, j);
    PassStep(snapshot, rem0, j);
    var c := snapshot[j];
    if |rem0[c]| > 1 {
      PassStepLive(snapshot, rem0, j);
    } else {
      PassStepExhausted(snapshot, rem0, j);
    }
  }

  /** Where issuer `k` stands in `order`. */
  function Pos(order: seq<string>, k: string): (r: nat)
    requires k in order
    ensures r < |order| && order[r] == k && k !in order[..r]
  {
    if order[0] == k then 0
    else
      var r := 1 + Pos(order[1..], k);
      assert order[..r] == [order[0]] + order[1..][..r - 1];
      r
  }

  lemma PosDistinct(order: seq<string>, i: int)
    requires Distinct(order) && 0 <= i < |order|
    ensures Pos(order, order[i]) == i
  {
  }

  /** `keys` lists some of the issuers of `order`, in the same order. */
  ghost predicate SubOrder(keys: seq<string>, order: seq<string>) {
    && (forall k :: k in keys ==> k in order)
    && (forall i, j :: 0 <= i < j < |keys| ==> Pos(order, keys[i]) < Pos(order, keys[j]))
  }

  /** The issuers of a batch, read left to right, follow `order`. */
  ghost predicate IssuersInOrder(batch: seq<InvoiceRequest>, order: seq<string>) {
    && (forall i :: 0 <= i < |batch| ==> batch[i].issuerCuit in order)
    && (forall i, j :: 0 <= i < j < |batch| ==>
          Pos(order, batch[i].issuerCuit) < Pos(order, batch[j].issuerCuit))
  }

  /** Two ordered runs, the first wholly before the second, make one. */
  lemma SubOrderAppend(a: seq<string>, b: seq<string>, order: seq<string>)
    requires SubOrder(a, order) && SubOrder(b, order)
    requires forall x, y :: x in a && y in b ==> Pos(order, x) < Pos(order, y)
    ensures SubOrder(a + b, order)
  {
    var r := a + b;
    forall i, j | 0 <= i < j < |r|
      ensures Pos(order, r[i]) < Pos(order, r[j])
    {
      if j < |a| {
        assert r[i] == a[i] && r[j] == a[j];
      } else if i >= |a| {
        assert r[i] == b[i - |a|] && r[j] == b[j - |a|];
      } else {
        assert r[i] in a && r[j] in b;
      }
    }
  }

  /** Cutting an ordered run in two: each part is ordered and the first
      comes wholly before the second. */
  lemma SubOrderSplit(keys: seq<string>, n: nat, order: seq<string>)
    requires SubOrder(keys, order) && n <= |keys|
    ensures SubOrder(keys[..n], order) && SubOrder(keys[n..], order)
    ensures forall x, y :: x in keys[..n] && y in keys[n..] ==> Pos(order, x) < Pos(order, y)
  {
    forall x, y | x in keys[..n] && y in keys[n..]
      ensures Pos(order, x) < Pos(order, y)
    {
      var a :| 0 <= a < n && keys[..n][a] == x;
      var b :| 0 <= b < |keys| - n && keys[n..][b] == y;
      assert keys[a] == x && keys[n + b] == y;
    }
    forall i, j | 0 <= i < j < |keys| - n
      ensures Pos(order, keys[n..][i]) < Pos(order, keys[n..][j])
    {
      assert keys[n..][i] == keys[n + i] && keys[n..][j] == keys[n + j];
    }
  }

  lemma {:induction false} KeepLiveOrder(taken: seq<string>, rem: map<string, seq<InvoiceRequest>>,
                                         order: seq<string>)
    requires forall k :: k in taken ==> k in rem
    requires SubOrder(taken, order)
    ensures SubOrder(KeepLive(taken, rem), order)
    decreases |taken|
  {
    if taken != [] {
      var p := taken[..|taken| - 1];
      var t := taken[|taken| - 1];
      SubOrderSplit(taken, |taken| - 1, order);
      assert taken[|taken| - 1..] == [t];
      KeepLiveOrder(p, rem, order);
      if |rem[t]| > 1 {
        SubOrderAppend(KeepLive(p, rem), [t], order);
      }
    }
  }

  /** After a pass the remaining issuers are still in first-seen order. */
  lemma NextKeysOrder(keys: seq<string>, rem: map<string, seq<InvoiceRequest>>, max: int,
                      order: seq<string>)
    requires WellFormed(keys, rem) && max >= 1 && SubOrder(keys, order)
    ensures SubOrder(NextKeys(keys, rem, max), order)
  {
    var n := Min(max, |keys|);
    SubOrderSplit(keys, n, order);
    KeepLiveOrder(keys[..n], rem, order);
    SubOrderAppend(KeepLive(keys[..n], rem), keys[n..], order);
  }

  /** The heads taken in an ordered pass come out in that order. */
  lemma HeadsInOrder(taken: seq<string>, rem: map<string, seq<InvoiceRequest>>, order: seq<string>)
    requires forall k :: k in taken ==> k in rem && rem[k] != []
    requires forall k, x :: k in rem && x in rem[k] ==> x.issuerCuit == k
    requires SubOrder(taken, order)
    ensures IssuersInOrder(Heads(taken, rem), order)
  {
    HeadsIssuers(taken, rem);
  }

  /** Every batch lists its issuers in the order they stand in `order`. */
  lemma {:induction false} ScheduleOrder(keys: seq<string>, rem: map<string, seq<InvoiceRequest>>,
                                         max: int, order: seq<string>)
    requires WellFormed(keys, rem) && (max >= 1 || keys == []) && SubOrder(keys, order)
    ensures forall b :: b in Schedule(keys, rem, max) ==> IssuersInOrder(b, order)
    decreases Total(keys, rem)
  {
    if keys != [] {
      var taken := Taken(keys, max);
      var batch := Heads(taken, rem);
      ScheduleUnfold(keys, rem, max);
      NextKeysOrder(keys, rem, max, order);
      ScheduleOrder(NextKeys(keys, rem, max), Advance(rem, taken), max, order);
      SubOrderSplit(keys, |taken|, order);
      HeadsInOrder(taken, rem, order);
    }
  }

  /** Within each batch of `_create_batches`, issuers appear in the order
      their first invoice appears in the input. */
  lemma CreateBatchesFirstSeen(invoices: seq<InvoiceRequest>, max: int)
    requires max >= 1 || invoices == []
    ensures forall b :: b in CreateBatchesSpec(invoices, max) ==> IssuersInOrder(b, IssuerOrder(invoices))
  {
    var order := IssuerOrder(invoices);
    forall i | 0 <= i < |order|
      ensures Pos(order, order[i]) == i
    {
      PosDistinct(order, i);
    }
    assert SubOrder(order, order);
    GroupsWellFormed(invoices);
    ScheduleOrder(order, Groups(invoices), max, order);
  }

  /** The prefixes of the arrival sequence A, A, B, C, B. */
  lemma ExamplePrefixes(a1: InvoiceRequest, a2: InvoiceRequest, b1: InvoiceRequest,
                        b2: InvoiceRequest, c1: InvoiceRequest)
    ensures [a1, a2][..1] == [a1]
    ensures [a1, a2, b1][..2] == [a1, a2]
    ensures [a1, a2, b1, c1][..3] == [a1, a2, b1]
    ensures [a1, a2, b1, c1, b2][..4] == [a1, a2, b1, c1]
  {
  }

  /** The issuer order of invoices arriving A, A, B, C, B. */
  lemma ExampleOrder(a1: InvoiceRequest, a2: InvoiceRequest, b1: InvoiceRequest,
                     b2: InvoiceRequest, c1: InvoiceRequest)
    requires a1.issuerCuit == a2.issuerCuit && b1.issuerCuit == b2.issuerCuit
    requires a1.issuerCuit != b1.issuerCuit && a1.issuerCuit != c1.issuerCuit
    requires b1.issuerCuit != c1.issuerCuit
    ensures IssuerOrder([a1, a2, b1, c1, b2]) == [a1.issuerCuit, b1.issuerCuit, c1.issuerCuit]
  {
    var A, B, C := a1.issuerCuit, b1.issuerCuit, c1.issuerCuit;
    ExamplePrefixes(a1, a2, b1, b2, c1);
    ExampleOrderStart(a1, a2, b1);
    assert IssuerOrder([a1, a2, b1, c1]) == [A, B, C];
  }

  lemma ExampleOrderStart(a1: InvoiceRequest, a2: InvoiceRequest, b1: InvoiceRequest)
    requires a1.issuerCuit == a2.issuerCuit != b1.issuerCuit
    ensures IssuerOrder([a1, a2, b1]) == [a1.issuerCuit, b1.issuerCuit]
  {
    assert [a1, a2, b1][..2] == [a1, a2] && [a1, a2][..1] == [a1] && [a1][..0] == [];
    assert IssuerOrder([a1]) == [a1.issuerCuit];
    assert IssuerOrder([a1, a2]) == [a1.issuerCuit];
  }

  /** The grouping of invoices arriving A, A, B, C, B. */
  lemma ExampleGroups(a1: InvoiceRequest, a2: InvoiceRequest, b1: InvoiceRequest,
                      b2: InvoiceRequest, c1: InvoiceRequest)
    requires a1.issuerCuit == a2.issuerCuit && b1.issuerCuit == b2.issuerCuit
    requires a1.issuerCuit != b1.issuerCuit && a1.issuerCuit != c1.issuerCuit
    requires b1.issuerCuit != c1.issuerCuit
    ensures Groups([a1, a2, b1, c1, b2])
         == map[a1.issuerCuit := [a1, a2], b1.issuerCuit := [b1, b2], c1.issuerCuit := [c1]]
  {
    var A, B, C := a1.issuerCuit, b1.issuerCuit, c1.issuerCuit;
    ExamplePrefixes(a1, a2, b1, b2, c1);
    var g1 := map[A := [a1]];
    assert Groups([a1]) == g1 by {
      assert [a1][..0] == [];
      assert Groups([]) == map[];
      assert [] + [a1] == [a1];
    }
    var g2 := map[A := [a1, a2]];
    assert Groups([a1, a2]) == g2 by {
      assert g1[A] + [a2] == [a1, a2];
      assert g1[A := [a1, a2]] == g2;
    }
    var g3 := map[A := [a1, a2], B := [b1]];
    assert Groups([a1, a2, b1]) == g3 by {
      assert B !in g2;
      assert [] + [b1] == [b1];
      assert g2[B := [b1]] == g3;
    }
    var g4 := map[A := [a1, a2], B := [b1], C := [c1]];
    assert Groups([a1, a2, b1, c1]) == g4 by {
      assert C !in g3;
      assert [] + [c1] == [c1];
      assert g3[C := [c1]] == g4;
    }
    assert g4[B] + [b2] == [b1, b2];
    assert g4[B := [b1, b2]] == map[A := [a1, a2], B := [b1, b2], C := [c1]];
  }

  lemma MapExtensionality(m1: map<string, seq<InvoiceRequest>>, m2: map<string, seq<InvoiceRequest>>)
    requires m1.Keys == m2.Keys && forall k :: k in m1 ==> m1[k] == m2[k]
    ensures m1 == m2
  {
  }

  /** The passes over issuers A, B, C holding two, two and one invoices. */
  lemma ExamplePasses(A: string, B: string, C: string, a1: InvoiceRequest, a2: InvoiceRequest,
                      b1: InvoiceRequest, b2: InvoiceRequest, c1: InvoiceRequest)
    requires A != B && A != C && B != C
    requires a1.issuerCuit == a2.issuerCuit == A && b1.issuerCuit == b2.issuerCuit == B
    requires c1.issuerCuit == C
    ensures WellFormed([A, B, C], map[A := [a1, a2], B := [b1, b2], C := [c1]])
    ensures Schedule([A, B, C], map[A := [a1, a2], B := [b1, b2], C := [c1]], 2)
         == [[a1, b1], [a2, b2], [c1]]
  {
    ExamplePass1(A, B, C, a1, a2, b1, b2, c1);
    ExamplePass2(A, B, C, a2, b2, c1);
    ExamplePass3(C, c1);
  }

  lemma ExamplePass1(A: string, B: string, C: string, a1: InvoiceRequest, a2: InvoiceRequest,
                     b1: InvoiceRequest, b2: InvoiceRequest, c1: InvoiceRequest)
    requires A != B && A != C && B != C
    requires a1.issuerCuit == a2.issuerCuit == A && b1.issuerCuit == b2.issuerCuit == B
    requires c1.issuerCuit == C
    ensures var rem0 := map[A := [a1, a2], B := [b1, b2], C := [c1]];
            && WellFormed([A, B, C], rem0)
            && Heads(Taken([A, B, C], 2), rem0) == [a1, b1]
            && NextKeys([A, B, C], rem0, 2) == [A, B, C]
            && Advance(rem0, Taken([A, B, C], 2)) == map[A := [a2], B := [b2], C := [c1]]
  {
    var rem0 := map[A := [a1, a2], B := [b1, b2], C := [c1]];
    ExampleStart(A, B, C, a1, a2, b1, b2, c1);
    assert Taken([A, B, C], 2) == [A, B];
    assert Heads([A, B], rem0) == [a1, b1] by {
      assert [A, B][..1] == [A];
    }
    assert |rem0[A]| == 2 && |rem0[B]| == 2;
    assert KeepLive([A, B], rem0) == [A, B] by {
      assert [A, B][..1] == [A] && [A][..0] == [];
      assert KeepLive([A], rem0) == KeepLive([], rem0) + [A];
    }
    ExampleAdvance1(A, B, C, a1, a2, b1, b2, c1);
  }

  /** The dictionary the example starts from is a well-formed state. */
  lemma ExampleStart(A: string, B: string, C: string, a1: InvoiceRequest, a2: InvoiceRequest,
                     b1: InvoiceRequest, b2: InvoiceRequest, c1: InvoiceRequest)
    requires A != B && A != C && B != C
    requires a1.issuerCuit == a2.issuerCuit == A && b1.issuerCuit == b2.issuerCuit == B
    requires c1.issuerCuit == C
    ensures WellFormed([A, B, C], map[A := [a1, a2], B := [b1, b2], C := [c1]])
  {
    var rem0 := map[A := [a1, a2], B := [b1, b2], C := [c1]];
    forall k, x: InvoiceRequest | k in rem0 && x in rem0[k]
      ensures x.issuerCuit == k
    {
    }
  }

  lemma ExampleAdvance1(A: string, B: string, C: string, a1: InvoiceRequest, a2: InvoiceRequest,
                        b1: InvoiceRequest, b2: InvoiceRequest, c1: InvoiceRequest)
    requires A != B && A != C && B != C
    ensures Advance(map[A := [a1, a2], B := [b1, b2], C := [c1]], [A, B])
         == map[A := [a2], B := [b2], C := [c1]]
  {
    var next := Advance(map[A := [a1, a2], B := [b1, b2], C := [c1]], [A, B]);
    var expected := map[A := [a2], B := [b2], C := [c1]];
    assert next.Keys == {A, B, C} == expected.Keys;
    assert next[A] == expected[A] && next[B] == expected[B] && next[C] == expected[C];
    MapExtensionality(next, expected);
  }

  lemma ExamplePass2(A: string, B: string, C: string, a2: InvoiceRequest, b2: InvoiceRequest,
                     c1: InvoiceRequest)
    requires A != B && A != C && B != C
    requires a2.issuerCuit == A && b2.issuerCuit == B && c1.issuerCuit == C
    ensures var rem1 := map[A := [a2], B := [b2], C := [c1]];
            && WellFormed([A, B, C], rem1)
            && Heads(Taken([A, B, C], 2), rem1) == [a2, b2]
            && NextKeys([A, B, C], rem1, 2) == [C]
            && Advance(rem1, Taken([A, B, C], 2)) == map[C := [c1]]
  {
    var rem1 := map[A := [a2], B := [b2], C := [c1]];
    assert Taken([A, B, C], 2) == [A, B];
    assert Heads([A, B], rem1) == [a2, b2] by {
      assert [A, B][..1] == [A];
    }
    assert KeepLive([A, B], rem1) == [] by {
      assert [A, B][..1] == [A];
      assert KeepLive([A], rem1) == [];
    }
    var next := Advance(rem1, [A, B]);
    assert next.Keys == {C};
    MapExtensionality(next, map[C := [c1]]);
  }

  lemma ExamplePass3(C: string, c1: InvoiceRequest)
    requires c1.issuerCuit == C
    ensures WellFormed([C], map[C := [c1]])
    ensures Schedule([C], map[C := [c1]], 2) == [[c1]]
  {
    var rem2 := map[C := [c1]];
    assert Taken([C], 2) == [C];
    assert Heads([C], rem2) == [c1];
    assert KeepLive([C], rem2) == [];
    assert Advance(rem2, [C]) == map[];
    assert NextKeys([C], rem2, 2) == [];
  }

  /** Three issuers A, B, C with invoices arriving A, A, B, C, B and room
      for two at a time: the batches are [a1, b1], [a2, b2], [c1]. */
  lemma CreateBatchesExample(a1: InvoiceRequest, a2: InvoiceRequest, b1: InvoiceRequest,
                             b2: InvoiceRequest, c1: InvoiceRequest)
    requires a1.issuerCuit == a2.issuerCuit && b1.issuerCuit == b2.issuerCuit
    requires a1.issuerCuit != b1.issuerCuit && a1.issuerCuit != c1.issuerCuit
    requires b1.issuerCuit != c1.issuerCuit
    ensures CreateBatchesSpec([a1, a2, b1, c1, b2], 2) == [[a1, b1], [a2, b2], [c1]]
  {
    var s := [a1, a2, b1, c1, b2];
    ExampleOrder(a1, a2, b1, b2, c1);
    ExampleGroups(a1, a2, b1, b2, c1);
    ExamplePasses(a1.issuerCuit, b1.issuerCuit, c1.issuerCuit, a1, a2, b1, b2, c1);
    assert CreateBatchesSpec(s, 2) == Schedule(IssuerOrder(s), Groups(s), 2);
  }
}
