// The de-duplicating symbol set, its two producers, and the slices cut for the market data streams
// (src/roq/bybit/gateway/controller.cpp, rest.cpp, shared.hpp).

module Symbols {
  import opened Options

  // ---- New symbols ----

  // The items not seen before, in the order of their first occurrence.
  function Fresh(known: set<string>, items: seq<string>): seq<string> {
    if items == [] then []
    else
      var front := Fresh(known, items[..|items| - 1]);
      var item := items[|items| - 1];
      if item in known || item in front then front else front + [item]
  }

  function Members(items: seq<string>): set<string> {
    set s | s in items
  }

  ghost predicate Distinct(items: seq<string>) {
    forall i, j | 0 <= i < j < |items| :: items[i] != items[j]
  }

  /** A delivered batch has no duplicates, nothing already known, and with the known symbols makes up everything seen. */
  lemma {:induction false} FreshBatch(known: set<string>, items: seq<string>)
    ensures Distinct(Fresh(known, items))
    ensures Members(Fresh(known, items)) !! known
    ensures known + Members(Fresh(known, items)) == known + Members(items)
  {
    if items != [] {
      var front, item := items[..|items| - 1], items[|items| - 1];
      FreshBatch(known, front);
      assert items == front + [item];
      var before, now := Fresh(known, front), Fresh(known, items);
      assert Members(items) == Members(front) + {item};
      if now != before {
        assert Members(now) == Members(before) + {item};
      }
    }
  }

  datatype Instrument = Instrument(symbol: string, discard: bool)

  // The symbols of an instrument download that the dispatcher does not discard.
  function Kept(items: seq<Instrument>): seq<string> {
    if items == [] then []
    else
      var item := items[|items| - 1];
      Kept(items[..|items| - 1]) + (if item.discard then [] else [item.symbol])
  }

  // How often the download calls the dispatcher: with the reference data of every item, and with the market status
  // of every item that is not discarded.
  function Dispatches(items: seq<Instrument>): nat {
    if items == [] then 0
    else Dispatches(items[..|items| - 1]) + (if items[|items| - 1].discard then 1 else 2)
  }

  // `throwAt` is the call, counted within one download, at which the dispatcher throws.
  predicate CutShort(items: seq<Instrument>, throwAt: Option<nat>) {
    throwAt.Some? && throwAt.value < Dispatches(items)
  }

  // The symbols inserted before the throw: those whose reference data was accepted.
  function Inserted(items: seq<Instrument>, throwAt: Option<nat>): seq<string> {
    if items == [] then []
    else
      var front, item := items[..|items| - 1], items[|items| - 1];
      Inserted(front, throwAt)
      + (if item.discard || (throwAt.Some? && throwAt.value <= Dispatches(front)) then [] else [item.symbol])
  }

  // The symbols whose market status was accepted.
  function Published(items: seq<Instrument>, throwAt: Option<nat>): seq<string> {
    if items == [] then []
    else
      var front, item := items[..|items| - 1], items[|items| - 1];
      Published(front, throwAt)
      + (if item.discard || (throwAt.Some? && throwAt.value <= Dispatches(front) + 1) then [] else [item.symbol])
  }

  /** Without a throw everything kept is inserted and published; a throw leaves at most one inserted symbol
      unpublished, and cuts both lists short. */
  lemma {:induction false} InsertedBeforeThrow(items: seq<Instrument>, throwAt: Option<nat>)
    ensures !CutShort(items, throwAt) ==> Inserted(items, throwAt) == Published(items, throwAt) == Kept(items)
    ensures Published(items, throwAt) <= Inserted(items, throwAt) <= Kept(items)
    ensures |Inserted(items, throwAt)| <= |Published(items, throwAt)| + 1
  {
    if items != [] {
      var front := items[..|items| - 1];
      InsertedBeforeThrow(front, throwAt);
      if CutShort(front, throwAt) {
        CutShortStays(items, throwAt);
      }
    }
  }

  lemma {:induction false} DispatchesCounted(items: seq<Instrument>)
    ensures Dispatches(items) == |items| + |Kept(items)|
  {
    if items != [] {
      DispatchesCounted(items[..|items| - 1]);
    }
  }

  /** Which throw leaves what: one at the reference data of an item leaves the items before it inserted and published;
      one at its market status leaves the item inserted but not published. */
  lemma ThrowPoints(items: seq<Instrument>, n: nat)
    requires n < |items|
    ensures var before := Kept(items[..n]);
            var calls := n + |before|;
            && CutShort(items, Some(calls))
            && Inserted(items, Some(calls)) == Published(items, Some(calls)) == before
            && (!items[n].discard ==>
                  && CutShort(items, Some(calls + 1))
                  && Inserted(items, Some(calls + 1)) == before + [items[n].symbol]
                  && Published(items, Some(calls + 1)) == before)
  {
    hide Dispatches, Inserted, Published, Kept;
    var calls := n + |Kept(items[..n])|;
    DispatchesCounted(items[..n]);
    InsertedBeforeThrow(items[..n], Some(calls));
    InsertedBeforeThrow(items[..n], Some(calls + 1));
    InstrumentStep(items, n, Some(calls));
    InstrumentStep(items, n, Some(calls + 1));
    SettledByThrow(items, n + 1, Some(calls));
    if !items[n].discard {
      SettledByThrow(items, n + 1, Some(calls + 1));
    }
  }

  // Nothing happens after the throw.
  lemma CutShortStays(items: seq<Instrument>, throwAt: Option<nat>)
    requires items != [] && CutShort(items[..|items| - 1], throwAt)
    ensures CutShort(items, throwAt)
    ensures Inserted(items, throwAt) == Inserted(items[..|items| - 1], throwAt)
    ensures Published(items, throwAt) == Published(items[..|items| - 1], throwAt)
  {
  }

  lemma {:induction false} KeptExactly(items: seq<Instrument>, symbol: string)
    ensures symbol in Kept(items) <==> exists i :: 0 <= i < |items| && items[i] == Instrument(symbol, false)
  {
    if items != [] {
      var front, last := items[..|items| - 1], items[|items| - 1];
      KeptExactly(front, symbol);
      assert items == front + [last];
      if symbol in Kept(front) {
        var i :| 0 <= i < |front| && front[i] == Instrument(symbol, false);
        assert items[i] == front[i];
      } else if i :| 0 <= i < |items| && items[i] == Instrument(symbol, false) {
        assert i < |front| ==> front[i] == items[i];
      }
    }
  }

  lemma FreshSnoc(known: set<string>, items: seq<string>, item: string)
    ensures Fresh(known, items + [item])
         == Fresh(known, items) + (if item in known + Members(items) then [] else [item])
    ensures Members(items + [item]) == Members(items) + {item}
  {
    assert (items + [item])[..|items|] == items;
    FreshBatch(known, items);
    assert item in known || item in Fresh(known, items) <==> item in known + Members(items) by {
      assert item in Members(Fresh(known, items)) <==> item in Fresh(known, items);
      assert item in known + Members(Fresh(known, items)) <==> item in known + Members(items);
    }
  }

  lemma NothingFresh(known: set<string>)
    ensures Fresh(known, []) == [] && Members([]) == {}
  {
  }

  lemma {:induction false} SettledByThrow(items: seq<Instrument>, n: nat, throwAt: Option<nat>)
    requires n <= |items| && CutShort(items[..n], throwAt)
    ensures CutShort(items, throwAt)
    ensures Inserted(items, throwAt) == Inserted(items[..n], throwAt)
    ensures Published(items, throwAt) == Published(items[..n], throwAt)
    decreases |items| - n
  {
    if n == |items| {
      assert items[..n] == items;
    } else {
      assert items[..n + 1][..n] == items[..n];
      CutShortStays(items[..n + 1], throwAt);
      SettledByThrow(items, n + 1, throwAt);
    }
  }

  lemma InstrumentStep(items: seq<Instrument>, n: nat, throwAt: Option<nat>)
    requires n < |items|
    ensures Dispatches(items[..n + 1]) == Dispatches(items[..n]) + (if items[n].discard then 1 else 2)
    ensures Inserted(items[..n + 1], throwAt)
         == Inserted(items[..n], throwAt)
            + (if items[n].discard || (throwAt.Some? && throwAt.value <= Dispatches(items[..n])) then [] else [items[n].symbol])
    ensures Published(items[..n + 1], throwAt)
         == Published(items[..n], throwAt)
            + (if items[n].discard || (throwAt.Some? && throwAt.value <= Dispatches(items[..n]) + 1) then [] else [items[n].symbol])
  {
    assert items[..n + 1][..n] == items[..n];
  }

  /** The shared set of all symbols and its two producers. */
  class Registry {
    var allSymbols: set<string>

    constructor ()
      ensures allSymbols == {}
    {
      allSymbols := {};
    }

    method Emplace(item: string) returns (inserted: bool)
      modifies this
      ensures inserted == (item !in old(allSymbols))
      ensures allSymbols == old(allSymbols) + {item}
    {
      inserted := item !in allSymbols;
      allSymbols := allSymbols + {item};
    }

    // Client subscription; duplicates are only warned about.
    method OnSubscribe(items: seq<string>) returns (symbols: seq<string>)
      modifies this
      ensures symbols == Fresh(old(allSymbols), items)
      ensures allSymbols == old(allSymbols) + Members(items)
    {
      hide Fresh;
      symbols := [];
      NothingFresh(allSymbols);
      for i := 0 to |items|
        invariant symbols == Fresh(old(allSymbols), items[..i])
        invariant allSymbols == old(allSymbols) + Members(items[..i])
      {
        FreshSnoc(old(allSymbols), items[..i], items[i]);
        assert items[..i + 1] == items[..i] + [items[i]];
        var inserted := Emplace(items[i]);
        if inserted {
          symbols := symbols + [items[i]];
        }
      }
      assert items[..|items|] == items;
    }

    // Instrument download; `statuses` are the symbols whose market status was published.  An exception of the
    // dispatcher leaves the loop, with the symbols inserted so far.
    method OnInstruments(items: seq<Instrument>, throwAt: Option<nat>)
      returns (symbols: seq<string>, statuses: seq<string>, thrown: bool)
      modifies this
      ensures thrown == CutShort(items, throwAt)
      ensures symbols == Fresh(old(allSymbols), Inserted(items, throwAt))
      ensures allSymbols == old(allSymbols) + Members(Inserted(items, throwAt))
      ensures statuses == Published(items, throwAt)
    {
      hide Fresh, Inserted, Published, Dispatches;
      symbols, statuses, thrown := [], [], false;
      var calls := 0;
      NothingFresh(allSymbols);
      NoInstruments(throwAt);
      for i := 0 to |items|
        invariant !thrown && calls == Dispatches(items[..i]) && (throwAt.Some? ==> calls <= throwAt.value)
        invariant statuses == Published(items[..i], throwAt)
        invariant symbols == Fresh(old(allSymbols), Inserted(items[..i], throwAt))
        invariant allSymbols == old(allSymbols) + Members(Inserted(items[..i], throwAt))
      {
        var item := items[i];
        ghost var inserted := Inserted(items[..i], throwAt);
        InstrumentStep(items, i, throwAt);
        assert inserted + [] == inserted && statuses + [] == statuses;
        // the reference data
        if throwAt == Some(calls) {
          thrown := true;
          SettledByThrow(items, i + 1, throwAt);
          return;
        }
        calls := calls + 1;
        if item.discard {
          continue;
        }
        FreshSnoc(old(allSymbols), inserted, item.symbol);
        var isNew := Emplace(item.symbol);
        if isNew {
          symbols := symbols + [item.symbol];
        }
        // the market status
        if throwAt == Some(calls) {
          thrown := true;
          SettledByThrow(items, i + 1, throwAt);
          return;
        }
        calls := calls + 1;
        statuses := statuses + [item.symbol];
      }
      assert items[..|items|] == items;
    }
  }

  lemma NoInstruments(throwAt: Option<nat>)
    ensures Dispatches([]) == 0 && Inserted([], throwAt) == [] && Published([], throwAt) == []
  {
  }

  // ---- Slices ----

  // Number of slices of at most `size` symbols.
  function SliceCount(n: nat, size: nat): (count: nat)
    requires size > 0
    ensures count == 0 <==> n == 0
    decreases n
  {
    if n == 0 then 0 else if n <= size then 1 else 1 + SliceCount(n - size, size)
  }

  // The part of slice `index` that starts at global position `from` or later.
  function Slice(symbols: seq<string>, size: nat, index: nat, from: nat): seq<string>
    requires size > 0
  {
    var low := if index * size < from then from else index * size;
    var high := if index * size + size < |symbols| then index * size + size else |symbols|;
    if low < high then symbols[low..high] else []
  }

  lemma {:induction false} SliceCountBounds(n: nat, size: nat)
    requires size > 0
    ensures n <= SliceCount(n, size) * size < n + size
  {
    if n > size {
      SliceCountBounds(n - size, size);
      assert SliceCount(n, size) * size == SliceCount(n - size, size) * size + size;
    }
  }

  lemma {:induction false} SliceMonotonic(i: nat, j: nat, size: nat)
    requires i < j
    ensures i * size + size <= j * size
    decreases j
  {
    if i + 1 < j {
      SliceMonotonic(i, j - 1, size);
    }
    assert j * size == (j - 1) * size + size;
  }

  lemma {:induction false} SliceCountMonotonic(n: nat, m: nat, size: nat)
    requires size > 0 && n <= m
    ensures SliceCount(n, size) <= SliceCount(m, size)
  {
    SliceCountBounds(n, size);
    SliceCountBounds(m, size);
    if SliceCount(m, size) < SliceCount(n, size) {
      SliceMonotonic(SliceCount(m, size), SliceCount(n, size), size);
    }
  }

  /** A slice grows by exactly the new symbols that fall into it. */
  lemma SliceGrows(symbols: seq<string>, batch: seq<string>, size: nat, index: nat)
    requires size > 0
    ensures Slice(symbols + batch, size, index, 0)
         == Slice(symbols, size, index, 0) + Slice(symbols + batch, size, index, |symbols|)
  {
  }

  lemma PositionSlice(k: nat, n: nat, size: nat) returns (index: nat)
    requires size > 0 && k < n
    ensures index < SliceCount(n, size) && index * size <= k < index * size + size
    decreases n
  {
    if k < size {
      index := 0;
    } else {
      var rest := PositionSlice(k - size, n - size, size);
      index := rest + 1;
      assert index * size == rest * size + size;
    }
  }

  lemma Window(symbols: seq<string>, low: nat, high: nat, k: nat)
    requires Distinct(symbols) && k < |symbols| && low <= high <= |symbols|
    ensures symbols[k] in symbols[low..high] <==> low <= k < high
    ensures Distinct(symbols[low..high])
  {
    var window := symbols[low..high];
    if low <= k < high {
      assert window[k - low] == symbols[k];
    }
    if symbols[k] in window {
      var j :| 0 <= j < |window| && window[j] == symbols[k];
      assert window[j] == symbols[low + j];
    }
  }

  lemma PlaceInSlice(symbols: seq<string>, size: nat, i: nat, k: nat)
    requires size > 0 && Distinct(symbols) && k < |symbols|
    ensures symbols[k] in Slice(symbols, size, i, 0) <==> i * size <= k < i * size + size
    ensures Distinct(Slice(symbols, size, i, 0))
  {
    var low := i * size;
    var high := if low + size < |symbols| then low + size else |symbols|;
    if low < high {
      hide Distinct;
      Window(symbols, low, high, k);
      assert Slice(symbols, size, i, 0) == symbols[low..high];
    }
  }

  /** Every known symbol belongs to exactly one slice, and to it once. */
  lemma ExactlyOneSlice(symbols: seq<string>, size: nat, s: string) returns (index: nat)
    requires size > 0 && Distinct(symbols) && s in symbols
    ensures index < SliceCount(|symbols|, size) && s in Slice(symbols, size, index, 0)
    ensures forall i: nat | s in Slice(symbols, size, i, 0) :: i == index
    ensures Distinct(Slice(symbols, size, index, 0))
  {
    var k :| 0 <= k < |symbols| && symbols[k] == s;
    index := PositionSlice(k, |symbols|, size);
    hide Slice, Distinct;
    PlaceInSlice(symbols, size, index, k);
    forall i: nat | s in Slice(symbols, size, i, 0) ensures i == index {
      PlaceInSlice(symbols, size, i, k);
      if i < index {
        SliceMonotonic(i, index, size);
      } else if index < i {
        SliceMonotonic(index, i, size);
      }
    }
  }
}
