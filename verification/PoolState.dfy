/** Live state of one pool on the server: its scalar state, its bins by text key, and the numeric index
    that windowed queries read. */
module PoolState {
  import opened Domain
  import opened PairIndex
  import opened SortedIds

  const UINT24_MAX: nat := 16_777_215

  datatype PoolBin = PoolBin(bin: BinKey, reserveX: int, reserveY: int, totalSupply: int, chainId: int, pair: Id,
                             updatedAtBlock: int, updatedAtHash: Id, updatedAtTimestamp: int, revision: nat)

  datatype State = State(chainId: int, ident: PairIdentity, reserveX: int, reserveY: int, activeId: int,
                         binStep: int, marketPriceQuote: int, priceUsd: Option<int>, tvlUsd: Option<int>,
                         missing: set<Id>, fees: FeeState, asOfBlock: int, asOfHash: Id, asOfTimestamp: int,
                         revision: nat)

  datatype EventId = EventId(chainId: int, blockHash: Id, pair: Id, sources: seq<Id>)

  /** The message sent to subscribers: a complete scalar state and only the bins that changed. */
  datatype Update = Update(eventId: EventId, state: State, binReplacements: seq<PoolBin>, replaceBinWindow: bool)

  type BinMap = map<BinKey, PoolBin>
  type NumericIndex = map<nat, BinMap>

  datatype Pool = Pool(state: Option<State>, bins: BinMap, numeric: NumericIndex)

  const EMPTY_POOL := Pool(None, map[], map[])

  predicate SameSnapshot(current: PoolBin, s: BinSnapshot) {
    current.reserveX == s.reserveX && current.reserveY == s.reserveY && current.totalSupply == s.totalSupply
  }

  /** The block a pool observation comes from. */
  datatype At = At(chainId: int, pair: Id, block: int, blockHash: Id, timestamp: int)

  function Replacement(current: Option<PoolBin>, s: BinSnapshot, at: At): PoolBin {
    PoolBin(s.bin, s.reserveX, s.reserveY, s.totalSupply, at.chainId, at.pair, at.block, at.blockHash, at.timestamp,
            (if current.Some? then current.value.revision else 0) + 1)
  }

  function MatchesAt(numeric: NumericIndex, id: nat): BinMap {
    if id in numeric then numeric[id] else map[]
  }

  function IndexBin(numeric: NumericIndex, b: PoolBin): NumericIndex {
    numeric[b.bin.id := MatchesAt(numeric, b.bin.id)[b.bin := b]]
  }

  /** Bins, index and replacements while an observation's bin updates are applied. */
  datatype Applying = Applying(bins: BinMap, numeric: NumericIndex, replaced: seq<PoolBin>)

  function FindBin(bins: BinMap, key: BinKey): Option<PoolBin> {
    if key in bins then Some(bins[key]) else None
  }

  /** The bin an update produces, if it produces one. A window replacement repeats unchanged bins; otherwise
      unchanged bins are skipped. */
  function Produced(current: Option<PoolBin>, s: BinSnapshot, replace: bool, at: At): Option<PoolBin> {
    if current.Some? && SameSnapshot(current.value, s) then (if replace then current else None)
    else Some(Replacement(current, s, at))
  }

  /** One bin update. Without a window replacement the previous bins are the bins being updated. */
  function ApplyBin(previous: BinMap, a: Applying, s: BinSnapshot, replace: bool, at: At): Applying {
    var produced := Produced(FindBin(if replace then previous else a.bins, s.bin), s, replace, at);
    if produced.None? then a
    else Applying(a.bins[produced.value.bin := produced.value], IndexBin(a.numeric, produced.value),
                  a.replaced + [produced.value])
  }

  function ApplyBins(previous: BinMap, start: Applying, updates: seq<BinSnapshot>, replace: bool, at: At): Applying {
    if updates == [] then start
    else ApplyBin(previous, ApplyBins(previous, start, updates[..|updates| - 1], replace, at),
                  updates[|updates| - 1], replace, at)
  }

  function StartBins(pool: Pool, replace: bool): Applying {
    if replace then Applying(map[], map[], []) else Applying(pool.bins, pool.numeric, [])
  }

  /** Insertion after every bin with a smaller or equal numeric id: a stable sort by numeric id. */
  function InsertBin(bins: seq<PoolBin>, b: PoolBin): seq<PoolBin> {
    if bins == [] || bins[|bins| - 1].bin.id <= b.bin.id then bins + [b]
    else InsertBin(bins[..|bins| - 1], b) + [bins[|bins| - 1]]
  }

  function SortBins(bins: seq<PoolBin>): seq<PoolBin> {
    if bins == [] then [] else InsertBin(SortBins(bins[..|bins| - 1]), bins[|bins| - 1])
  }

  /** The scalar state after an observation; the engine admits only pairs whose market fields are known. */
  function StateOf(pool: Pool, pair: PairState, observation: Observation, at: At): State
  {
    State(at.chainId, pair.ident, pair.reserveX, pair.reserveY, pair.activeId.GetOr(0), pair.binStep.GetOr(0),
          pair.marketPriceQuote.GetOr(0), pair.priceUsd, pair.tvlUsd, pair.missing, observation.fees,
          at.block, at.blockHash, at.timestamp, (if pool.state.Some? then pool.state.value.revision else 0) + 1)
  }

  /** The pool after an observation, and the message it emits. */
  function Observed(pool: Pool, pair: PairState, observation: Observation, at: At): (Pool, Update)
  {
    var state := StateOf(pool, pair, observation, at);
    var a := ApplyBins(pool.bins, StartBins(pool, observation.replaceBinWindow), observation.binUpdates,
                       observation.replaceBinWindow, at);
    (Pool(Some(state), a.bins, a.numeric),
     Update(EventId(at.chainId, at.blockHash, at.pair, SortIds(observation.sourceEventIds)), state,
            SortBins(a.replaced), observation.replaceBinWindow))
  }

  // The numeric index

  /** The index groups exactly the bins of the full map by numeric id, and bins are stored under their key. */
  ghost predicate IndexAgrees(bins: BinMap, numeric: NumericIndex) {
    && (forall key :: key in bins ==> bins[key].bin == key)
    && (forall key :: key in bins <==> key in MatchesAt(numeric, key.id))
    && (forall key :: key in bins ==> MatchesAt(numeric, key.id)[key] == bins[key])
    && (forall id, key :: key in MatchesAt(numeric, id) ==> key.id == id)
  }

  lemma IndexBinAgrees(bins: BinMap, numeric: NumericIndex, b: PoolBin)
    requires IndexAgrees(bins, numeric)
    ensures IndexAgrees(bins[b.bin := b], IndexBin(numeric, b))
  {
    var n := IndexBin(numeric, b);
    assert MatchesAt(n, b.bin.id) == MatchesAt(numeric, b.bin.id)[b.bin := b];
    forall id: nat | id != b.bin.id
      ensures MatchesAt(n, id) == MatchesAt(numeric, id)
    {
    }
  }

  lemma {:induction false} ApplyBinsAgrees(previous: BinMap, start: Applying, updates: seq<BinSnapshot>,
                                           replace: bool, at: At)
    requires IndexAgrees(start.bins, start.numeric)
    requires forall key :: key in previous ==> previous[key].bin == key
    ensures var a := ApplyBins(previous, start, updates, replace, at); IndexAgrees(a.bins, a.numeric)
  {
    if updates != [] {
      var init, s := updates[..|updates| - 1], updates[|updates| - 1];
      ApplyBinsAgrees(previous, start, init, replace, at);
      var a := ApplyBins(previous, start, init, replace, at);
      var produced := Produced(FindBin(if replace then previous else a.bins, s.bin), s, replace, at);
      if produced.Some? {
        IndexBinAgrees(a.bins, a.numeric, produced.value);
      }
    }
  }

  /** Main result on the index: every observation keeps the numeric index and the full bin map in agreement. */
  lemma ObservedAgrees(pool: Pool, pair: PairState, observation: Observation, at: At)
    requires IndexAgrees(pool.bins, pool.numeric)
    ensures var after := Observed(pool, pair, observation, at).0; IndexAgrees(after.bins, after.numeric)
  {
    ApplyBinsAgrees(pool.bins, StartBins(pool, observation.replaceBinWindow), observation.binUpdates,
                    observation.replaceBinWindow, at);
  }

  // Sorted windows

  ghost predicate SortedById(bins: seq<PoolBin>) {
    forall i, j :: 0 <= i < j < |bins| ==> bins[i].bin.id <= bins[j].bin.id
  }

  ghost predicate DistinctKeys(bins: seq<PoolBin>) {
    forall i, j :: 0 <= i < j < |bins| ==> bins[i].bin != bins[j].bin
  }

  lemma {:induction false} InsertBinMembers(bins: seq<PoolBin>, b: PoolBin)
    ensures forall x :: x in InsertBin(bins, b) <==> x in bins || x == b
  {
    if bins != [] && bins[|bins| - 1].bin.id > b.bin.id {
      InsertBinMembers(bins[..|bins| - 1], b);
      assert bins == bins[..|bins| - 1] + [bins[|bins| - 1]];
    }
  }

  lemma {:induction false} InsertBinKeeps(bins: seq<PoolBin>, b: PoolBin)
    requires SortedById(bins) && DistinctKeys(bins)
    requires forall x :: x in bins ==> x.bin != b.bin
    ensures SortedById(InsertBin(bins, b)) && DistinctKeys(InsertBin(bins, b))
  {
    if bins != [] && bins[|bins| - 1].bin.id > b.bin.id {
      var init, last := bins[..|bins| - 1], bins[|bins| - 1];
      assert bins == init + [last];
      InsertBinKeeps(init, b);
      InsertBinMembers(init, b);
      LastDominates(bins);
      AppendLast(InsertBin(init, b), last);
    } else {
      if bins != [] {
        LastDominates(bins);
      }
      AppendLast(bins, b);
    }
  }

  lemma LastDominates(bins: seq<PoolBin>)
    requires SortedById(bins) && DistinctKeys(bins) && bins != []
    ensures forall x :: x in bins[..|bins| - 1] ==>
              x.bin.id <= bins[|bins| - 1].bin.id && x.bin != bins[|bins| - 1].bin
  {
  }

  lemma AppendLast(bins: seq<PoolBin>, b: PoolBin)
    requires SortedById(bins) && DistinctKeys(bins)
    requires forall x :: x in bins ==> x.bin.id <= b.bin.id && x.bin != b.bin
    ensures SortedById(bins + [b]) && DistinctKeys(bins + [b])
  {
    forall i | 0 <= i < |bins|
      ensures bins[i].bin.id <= b.bin.id && bins[i].bin != b.bin
    {
      assert bins[i] in bins;
    }
  }

  lemma {:induction false} SortBinsKeeps(bins: seq<PoolBin>)
    requires DistinctKeys(bins)
    ensures SortedById(SortBins(bins)) && DistinctKeys(SortBins(bins))
    ensures forall x :: x in SortBins(bins) <==> x in bins
  {
    if bins != [] {
      var init, last := bins[..|bins| - 1], bins[|bins| - 1];
      SortBinsKeeps(init);
      assert bins == init + [last];
      InsertBinMembers(SortBins(init), last);
      InsertBinKeeps(SortBins(init), last);
    }
  }

  /** The bins filed under `keys`, in order of numeric id, each once. */
  ghost predicate Lists(r: seq<PoolBin>, bins: BinMap, keys: set<BinKey>) {
    && SortedById(r)
    && DistinctKeys(r)
    && (forall b :: b in r <==> b.bin in keys && b.bin in bins && bins[b.bin] == b)
  }

  ghost function Within(bins: BinMap, low: int, high: int): set<BinKey> {
    set key | key in bins && low <= key.id <= high
  }

  /** The bins of a window in order of numeric id, each once. */
  ghost predicate IsWindow(r: seq<PoolBin>, bins: BinMap, low: int, high: int) {
    Lists(r, bins, Within(bins, low, high))
  }

  lemma ListOneMore(r: seq<PoolBin>, bins: BinMap, keys: set<BinKey>, key: BinKey)
    requires Lists(r, bins, keys) && key in bins && key !in keys && bins[key].bin == key
    requires forall k :: k in keys ==> k.id <= key.id
    ensures Lists(r + [bins[key]], bins, keys + {key})
  {
    AppendLast(r, bins[key]);
  }

  /** The windowed query: one index lookup per numeric id, then a sort. */
  method QueryPoolState(pool: Pool, radius: nat) returns (r: Option<(State, seq<PoolBin>)>)
    requires IndexAgrees(pool.bins, pool.numeric)
    ensures r.None? <==> pool.state.None?
    ensures r.Some? ==> r.value.0 == pool.state.value
    ensures r.Some? ==> var active := pool.state.value.activeId;
                        IsWindow(r.value.1, pool.bins, active - radius, active + radius)
  {
    if pool.state.None? {
      return None;
    }
    var active := pool.state.value.activeId;
    var found: seq<PoolBin> := [];
    var binId := active - radius;
    assert Within(pool.bins, active - radius, binId - 1) == {};
    while binId <= active + radius
      invariant active - radius <= binId <= active + radius + 1
      invariant IsWindow(found, pool.bins, active - radius, binId - 1)
    {
      if binId >= 0 {
        found := CollectMatches(pool, found, active - radius, binId);
      } else {
        assert Within(pool.bins, active - radius, binId) == Within(pool.bins, active - radius, binId - 1);
      }
      binId := binId + 1;
    }
    r := Some((pool.state.value, found));
  }

  /** Appends the bins filed under one numeric id. */
  method CollectMatches(pool: Pool, found: seq<PoolBin>, low: int, id: nat) returns (r: seq<PoolBin>)
    requires IndexAgrees(pool.bins, pool.numeric)
    requires IsWindow(found, pool.bins, low, id - 1) && low <= id
    ensures IsWindow(r, pool.bins, low, id)
  {
    MatchesExtendWindow(pool, low, id);
    r := AppendMatches(found, pool.bins, MatchesAt(pool.numeric, id), id, Within(pool.bins, low, id - 1));
  }

  lemma MatchesExtendWindow(pool: Pool, low: int, id: nat)
    requires IndexAgrees(pool.bins, pool.numeric) && low <= id
    ensures var matches := MatchesAt(pool.numeric, id);
            && Within(pool.bins, low, id - 1) + matches.Keys == Within(pool.bins, low, id)
            && (forall key :: key in matches ==>
                  key.id == id && key in pool.bins && pool.bins[key] == matches[key] && matches[key].bin == key)
  {
  }

  method AppendMatches(found: seq<PoolBin>, ghost bins: BinMap, matches: BinMap, id: nat, ghost before: set<BinKey>)
    returns (r: seq<PoolBin>)
    requires Lists(found, bins, before)
    requires forall key :: key in before ==> key.id < id
    requires forall key :: key in matches ==>
               key.id == id && key in bins && bins[key] == matches[key] && matches[key].bin == key
    ensures Lists(r, bins, before + matches.Keys)
  {
    hide Lists;
    r := found;
    var rest := matches.Keys;
    ghost var listed := before;
    while rest != {}
      invariant rest <= matches.Keys && rest !! listed && listed + rest == before + matches.Keys
      invariant forall key :: key in listed ==> key.id <= id
      invariant Lists(r, bins, listed)
      decreases |rest|
    {
      var key :| key in rest;
      ListOneMore(r, bins, listed, key);
      r := r + [matches[key]];
      rest, listed := rest - {key}, listed + {key};
    }
    assert listed == before + matches.Keys;
  }

  /** Applies an observation's bin updates one by one. */
  method ApplyBinUpdates(pool: Pool, updates: seq<BinSnapshot>, replace: bool, at: At) returns (a: Applying)
    ensures a == ApplyBins(pool.bins, StartBins(pool, replace), updates, replace, at)
  {
    a := StartBins(pool, replace);
    var i := 0;
    while i < |updates|
      invariant i <= |updates|
      invariant a == ApplyBins(pool.bins, StartBins(pool, replace), updates[..i], replace, at)
    {
      var snapshot := updates[i];
      assert updates[..i + 1][..i] == updates[..i];
      var bins := if replace then pool.bins else a.bins;
      var current := if snapshot.bin in bins then Some(bins[snapshot.bin]) else None;
      if current.Some? && SameSnapshot(current.value, snapshot) {
        if replace {
          a := Applying(a.bins[current.value.bin := current.value], IndexBin(a.numeric, current.value),
                        a.replaced + [current.value]);
        }
      } else {
        var replacement := Replacement(current, snapshot, at);
        a := Applying(a.bins[replacement.bin := replacement], IndexBin(a.numeric, replacement),
                      a.replaced + [replacement]);
      }
      i := i + 1;
    }
    assert updates[..i] == updates;
  }
}
