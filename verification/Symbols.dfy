/** Symbol spans inferred from a map file, and the two lookups over them. */
module Symbols {
  import opened Numbers
  import opened Options

  /** A parsed record: its exclusive end is filled in after sorting. */
  datatype Symbol = Symbol(bank: u16, start: u16, end: nat, name: string)

  predicate KeyLess(a: Symbol, b: Symbol) { a.bank < b.bank || (a.bank == b.bank && a.start < b.start) }

  predicate KeyLeq(a: Symbol, b: Symbol) { a.bank < b.bank || (a.bank == b.bank && a.start <= b.start) }

  predicate Sorted(s: seq<Symbol>) {
    forall i, j :: 0 <= i < j < |s| ==> KeyLeq(s[i], s[j])
  }

  // ---- the stable sort ----

  /** Insert before the first greater key, hence after equal keys. */
  function Insert(s: seq<Symbol>, x: Symbol): (r: seq<Symbol>)
    ensures multiset(r) == multiset(s) + multiset{x} && |r| == |s| + 1
  {
    if s == [] then [x]
    else if KeyLess(x, s[|s| - 1]) then
      assert s == s[..|s| - 1] + [s[|s| - 1]];
      Insert(s[..|s| - 1], x) + [s[|s| - 1]]
    else s + [x]
  }

  function SortByKey(s: seq<Symbol>): (r: seq<Symbol>)
    ensures multiset(r) == multiset(s) && |r| == |s|
  {
    if s == [] then []
    else
      assert s == s[..|s| - 1] + [s[|s| - 1]];
      Insert(SortByKey(s[..|s| - 1]), s[|s| - 1])
  }

  function IfKey(x: Symbol, bank: u16, start: u16): seq<Symbol> {
    if x.bank == bank && x.start == start then [x] else []
  }

  /** The records with one key, in order. */
  function WithKey(s: seq<Symbol>, bank: u16, start: u16): seq<Symbol> {
    if s == [] then [] else WithKey(s[..|s| - 1], bank, start) + IfKey(s[|s| - 1], bank, start)
  }

  lemma WithKeyAppend(s: seq<Symbol>, x: Symbol, bank: u16, start: u16)
    ensures WithKey(s + [x], bank, start) == WithKey(s, bank, start) + IfKey(x, bank, start)
  {
    assert (s + [x])[..|s|] == s;
  }

  lemma {:induction false} InsertSorts(s: seq<Symbol>, x: Symbol)
    requires Sorted(s)
    ensures Sorted(Insert(s, x))
  {
    if s != [] && KeyLess(x, s[|s| - 1]) {
      var front, last := s[..|s| - 1], s[|s| - 1];
      InsertSorts(front, x);
      var r := Insert(front, x);
      hide Insert;
      forall i | 0 <= i < |r| ensures KeyLeq(r[i], last) {
        assert r[i] in multiset(r);
        assert r[i] in multiset(front) || r[i] == x;
      }
    }
  }

  lemma InsertUnfolds(s: seq<Symbol>, x: Symbol)
    ensures s != [] && KeyLess(x, s[|s| - 1]) ==> Insert(s, x) == Insert(s[..|s| - 1], x) + [s[|s| - 1]]
    ensures s == [] || !KeyLess(x, s[|s| - 1]) ==> Insert(s, x) == s + [x]
  {
  }

  lemma OneKey(x: Symbol, last: Symbol, bank: u16, start: u16)
    requires KeyLess(x, last)
    ensures IfKey(x, bank, start) == [] || IfKey(last, bank, start) == []
  {
  }

  lemma SwapEmpty<T>(w: seq<T>, a: seq<T>, b: seq<T>)
    requires a == [] || b == []
    ensures w + a + b == w + b + a
  {
    if a == [] {
      assert w + a == w && w + b + a == w + b;
    } else {
      assert w + b == w && w + a + b == w + a;
    }
  }

  /** Inserting a record is, for every key, appending it. */
  lemma {:induction false} InsertIsStable(s: seq<Symbol>, x: Symbol, bank: u16, start: u16)
    ensures WithKey(Insert(s, x), bank, start) == WithKey(s, bank, start) + IfKey(x, bank, start)
  {
    hide Insert, WithKey, IfKey, KeyLess;
    InsertUnfolds(s, x);
    if s == [] || !KeyLess(x, s[|s| - 1]) {
      WithKeyAppend(s, x, bank, start);
    } else {
      var front, last := s[..|s| - 1], s[|s| - 1];
      InsertIsStable(front, x, bank, start);
      WithKeyAppend(front, last, bank, start);
      WithKeyAppend(Insert(front, x), last, bank, start);
      OneKey(x, last, bank, start);
      SwapEmpty(WithKey(front, bank, start), IfKey(x, bank, start), IfKey(last, bank, start));
      assert s == front + [last];
    }
  }

  /** Sorting by key orders the records and keeps records with equal keys in their original order. */
  lemma {:induction false} SortIsStable(s: seq<Symbol>, bank: u16, start: u16)
    ensures Sorted(SortByKey(s))
    ensures WithKey(SortByKey(s), bank, start) == WithKey(s, bank, start)
  {
    if s != [] {
      var front, last := s[..|s| - 1], s[|s| - 1];
      assert s == front + [last];
      SortIsStable(front, bank, start);
      InsertSorts(SortByKey(front), last);
      InsertIsStable(SortByKey(front), last, bank, start);
      WithKeyAppend(front, last, bank, start);
    }
  }

  // ---- span inference ----

  /** The end a record gets: the next record's start, but at least one byte, and the top of memory for the last
      record of a bank. */
  function InferredEnd(s: seq<Symbol>, i: nat): nat
    requires i < |s|
  {
    if i + 1 < |s| && s[i].bank == s[i + 1].bank then Max(s[i + 1].start, s[i].start + 1) else 0x1_0000
  }

  ghost predicate Inferred(s: seq<Symbol>) {
    Sorted(s) && forall i :: 0 <= i < |s| ==> s[i].end == InferredEnd(s, i)
  }

  /** Ordered by bank and start, each record ending where the next of its bank starts, but no sooner than one byte
      after its own start; the last of a bank ends at the top of memory. */
  ghost predicate Spans(s: seq<Symbol>) {
    && (forall i, j :: 0 <= i < j < |s| ==>
          s[i].bank < s[j].bank || (s[i].bank == s[j].bank && s[i].start <= s[j].start))
    && (forall i :: 0 <= i < |s| ==>
          s[i].end == if i + 1 < |s| && s[i + 1].bank == s[i].bank
                      then Max(s[i].start + 1, s[i + 1].start) else 65536)
  }

  lemma InferredMeans(s: seq<Symbol>)
    requires Inferred(s)
    ensures Spans(s)
  {
    forall i, j | 0 <= i < j < |s|
      ensures s[i].bank < s[j].bank || (s[i].bank == s[j].bank && s[i].start <= s[j].start)
    {
      assert KeyLeq(s[i], s[j]);
    }
  }

  class SymbolTable {
    var symbols: seq<Symbol>

    /** Sort in place, then overwrite every end from the record after it. */
    method SortAndInferEnds()
      modifies this
      ensures Inferred(symbols) && Spans(symbols)
      ensures var sorted := SortByKey(old(symbols));
              |symbols| == |sorted| &&
              forall i :: 0 <= i < |symbols| ==> symbols[i] == sorted[i].(end := InferredEnd(sorted, i))
    {
      hide SortByKey, Sorted, Inferred, Spans;
      ghost var sorted := SortByKey(symbols);
      SortIsStable(symbols, 0, 0);
      symbols := SortByKey(symbols);
      for i := 0 to |symbols|
        invariant |symbols| == |sorted| == |old(symbols)|
        invariant forall j :: 0 <= j < i ==> symbols[j] == sorted[j].(end := InferredEnd(sorted, j))
        invariant forall j :: i <= j < |symbols| ==> symbols[j] == sorted[j]
      {
        if i + 1 < |symbols| && symbols[i].bank == symbols[i + 1].bank {
          var next := symbols[i + 1].start;
          symbols := symbols[i := symbols[i].(end := Max(next, symbols[i].start + 1))];
        } else {
          symbols := symbols[i := symbols[i].(end := 0x1_0000)];
        }
      }
      EndsInferred(sorted, symbols);
      InferredMeans(symbols);
    }

    /** First record of the bank whose half-open span contains the address. */
    method Lookup(bank: u16, addr: u16) returns (found: Option<nat>)
      ensures found == LookupIn(symbols, bank, addr)
      ensures forall i :: 0 <= i < |symbols| ==>
                (symbols[i].bank == bank && symbols[i].start <= addr < symbols[i].end ==>
                   found.Some? && found.value <= i)
      ensures found.Some? ==> found.value < |symbols| && symbols[found.value].bank == bank
                              && symbols[found.value].start <= addr < symbols[found.value].end
    {
      for i := 0 to |symbols|
        invariant LookupIn(symbols, bank, addr) == LookupFrom(symbols, bank, addr, i)
      {
        if Contains(symbols[i], bank, addr) {
          return Some(i);
        }
      }
      return None;
    }

    /** The record of the bank with the greatest start at or below the address; the last one on ties. */
    method LookupNearestBefore(bank: u16, addr: u16) returns (found: Option<nat>)
      ensures found == NearestIn(symbols, bank, addr)
      ensures forall i :: 0 <= i < |symbols| && symbols[i].bank == bank && symbols[i].start <= addr ==>
                found.Some? && found.value < |symbols|
                && (symbols[i].start < symbols[found.value].start
                    || (symbols[i].start == symbols[found.value].start && i <= found.value))
      ensures found.Some? ==> found.value < |symbols| && symbols[found.value].bank == bank
                              && symbols[found.value].start <= addr
    {
      found := None;
      for i := 0 to |symbols|
        invariant found == NearestUpTo(symbols, bank, addr, i)
      {
        if symbols[i].bank == bank && symbols[i].start <= addr {
          if found.None? || symbols[found.value].start <= symbols[i].start {
            found := Some(i);
          }
        }
      }
    }
  }

  lemma EndsInferred(sorted: seq<Symbol>, s: seq<Symbol>)
    requires Sorted(sorted) && |s| == |sorted|
    requires forall i :: 0 <= i < |s| ==> s[i] == sorted[i].(end := InferredEnd(sorted, i))
    ensures Inferred(s)
  {
    forall i, j | 0 <= i < j < |s| ensures KeyLeq(s[i], s[j]) {
      assert KeyLeq(sorted[i], sorted[j]);
    }
  }

  predicate Contains(s: Symbol, bank: u16, addr: u16) { s.bank == bank && s.start <= addr < s.end }

  function LookupFrom(s: seq<Symbol>, bank: u16, addr: u16, i: nat): (r: Option<nat>)
    requires i <= |s|
    ensures r.Some? ==> i <= r.value < |s| && Contains(s[r.value], bank, addr)
    ensures r.Some? ==> forall j :: i <= j < r.value ==> !Contains(s[j], bank, addr)
    ensures r.None? ==> forall j :: i <= j < |s| ==> !Contains(s[j], bank, addr)
    decreases |s| - i
  {
    if i == |s| then None else if Contains(s[i], bank, addr) then Some(i) else LookupFrom(s, bank, addr, i + 1)
  }

  function LookupIn(s: seq<Symbol>, bank: u16, addr: u16): Option<nat> { LookupFrom(s, bank, addr, 0) }

  predicate AtOrBefore(s: Symbol, bank: u16, addr: u16) { s.bank == bank && s.start <= addr }

  function NearestUpTo(s: seq<Symbol>, bank: u16, addr: u16, n: nat): (r: Option<nat>)
    requires n <= |s|
    ensures r.Some? ==> r.value < n && AtOrBefore(s[r.value], bank, addr)
    ensures r.Some? ==> forall j :: 0 <= j < n && AtOrBefore(s[j], bank, addr) ==>
                          s[j].start <= s[r.value].start && (s[j].start == s[r.value].start ==> j <= r.value)
    ensures r.None? ==> forall j :: 0 <= j < n ==> !AtOrBefore(s[j], bank, addr)
  {
    if n == 0 then None
    else
      var r := NearestUpTo(s, bank, addr, n - 1);
      if AtOrBefore(s[n - 1], bank, addr) && (r.None? || s[r.value].start <= s[n - 1].start) then Some(n - 1) else r
  }

  function NearestIn(s: seq<Symbol>, bank: u16, addr: u16): Option<nat> { NearestUpTo(s, bank, addr, |s|) }

  /** In a sorted table with inferred ends the nearest record also contains the address. */
  lemma NearestContains(s: seq<Symbol>, bank: u16, addr: u16)
    requires Inferred(s)
    ensures NearestIn(s, bank, addr).Some? ==> Contains(s[NearestIn(s, bank, addr).value], bank, addr)
  {
    var r := NearestIn(s, bank, addr);
    if r.Some? && r.value + 1 < |s| && s[r.value].bank == s[r.value + 1].bank {
      assert KeyLeq(s[r.value], s[r.value + 1]);
      assert !AtOrBefore(s[r.value + 1], bank, addr);
    }
  }

  /** A record with a smaller start than the nearest one ends before the address. */
  lemma EarlierEndsBefore(s: seq<Symbol>, bank: u16, addr: u16, i: nat)
    requires Inferred(s) && i < |s| && Contains(s[i], bank, addr)
    ensures var r := NearestIn(s, bank, addr);
            r.Some? && s[i].start == s[r.value].start && i <= r.value && (i < r.value ==> addr == s[i].start)
  {
    assert AtOrBefore(s[i], bank, addr);
    var r := NearestIn(s, bank, addr).value;
    if i != r {
      assert KeyLeq(s[i], s[i + 1]) && (i + 1 == r || KeyLeq(s[i + 1], s[r]));
      assert s[i].end == InferredEnd(s, i);
    }
  }

  ghost predicate TwoRecordsAt(s: seq<Symbol>, bank: u16, addr: u16) {
    exists i, j :: 0 <= i < j < |s| && s[i].bank == s[j].bank == bank && s[i].start == s[j].start == addr
  }

  /** Containment and nearest-before agree: one finds a record exactly when the other does, both records start at the
      same address, and they are the same record exactly when no two records start at the queried address itself. */
  lemma LookupsAgree(s: seq<Symbol>, bank: u16, addr: u16)
    requires Inferred(s)
    ensures var l, n := LookupIn(s, bank, addr), NearestIn(s, bank, addr);
            && (l.Some? <==> n.Some?)
            && (l.Some? ==> s[l.value].start == s[n.value].start && s[l.value].bank == s[n.value].bank == bank)
            && (l == n <==> !TwoRecordsAt(s, bank, addr))
  {
    var l, n := LookupIn(s, bank, addr), NearestIn(s, bank, addr);
    NearestContains(s, bank, addr);
    if l.Some? {
      EarlierEndsBefore(s, bank, addr, l.value);
    }
    if TwoRecordsAt(s, bank, addr) {
      var i, j :| 0 <= i < j < |s| && s[i].bank == s[j].bank == bank && s[i].start == s[j].start == addr;
      assert KeyLeq(s[i], s[j]);
      assert Contains(s[i], bank, addr) by { SpanNonEmpty(s, i); }
      assert AtOrBefore(s[j], bank, addr);
    }
  }

  lemma SpanNonEmpty(s: seq<Symbol>, i: nat)
    requires Inferred(s) && i < |s|
    ensures s[i].start < s[i].end
  {
  }
}
