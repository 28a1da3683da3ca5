/** What an incoming block, a rewind and an enrichment of the head are answered, and what is retained and counts as
    covered afterwards, told from the retained blocks. */
module ChainAnswers {
  import opened Domain
  import opened Chain
  import opened Ingest
  import opened EngineSpec
  import opened EngineTheorems
  import opened Redelivery

  // Malformed blocks

  /** The source is named without a chain, out of order, or with the fields of the other kind of source. */
  predicate BadSource(s: Source, chainId: Option<int>) {
    || chainId.None? || s.sequence < 0
    || (s.kind == Log && (s.transaction.None? || s.logIndex.None? || s.logIndex.value < 0))
    || (s.kind == BlockSnapshot && (s.transaction.Some? || s.logIndex.Some?))
  }

  /** A quote that is not positive, an active bin beyond 24 bits, or a step of nothing or beyond 16 bits. */
  predicate BadMarket(m: Market) {
    || (m.priceQuote.Some? && m.priceQuote.value <= 0)
    || (m.activeId.Some? && (m.activeId.value < 0 || m.activeId.value > 16_777_215))
    || (m.binStep.Some? && (m.binStep.value <= 0 || m.binStep.value > 65_535))
  }

  /** A negative fee, or a protocol share that is negative or more than its fee. */
  predicate BadFee(fee: int, share: Option<int>) {
    fee < 0 || (share.Some? && (share.value < 0 || share.value > fee))
  }

  /** No source events or one of them twice, or a bin twice, beyond 24 bits, or with a negative amount. */
  predicate BadObservation(o: Observation) {
    || |o.sourceEventIds| == 0
    || (exists i, j :: 0 <= i < j < |o.sourceEventIds| && o.sourceEventIds[i] == o.sourceEventIds[j])
    || (exists i, j :: 0 <= i < j < |o.binUpdates| && o.binUpdates[i].bin == o.binUpdates[j].bin)
    || exists b :: b in o.binUpdates
                   && (b.bin.id > 16_777_215 || b.reserveX < 0 || b.reserveY < 0 || b.totalSupply < 0)
  }

  predicate BadEvent(e: Event, chainId: Option<int>) {
    || (e.source.Some? && BadSource(e.source.value, chainId))
    || (e.Swap? && (BadFee(e.feeX, e.protocolFeeX) || BadFee(e.feeY, e.protocolFeeY)))
    || ((e.Swap? || e.Liquidity? || e.PairSnapshot?) && BadMarket(e.market))
    || (e.PairSnapshot? && e.poolState.Some?
        && (|| chainId.None? || e.source.None? || e.source.value.kind != BlockSnapshot
            || e.market.activeId.None? || e.market.binStep.None? || e.market.priceQuote.None?
            || BadObservation(e.poolState.value)))
  }

  /** Main result on malformed blocks: one is refused as such exactly when a number is out of range or an event is
      bad. */
  lemma MalformedIff(blocks: seq<Block>, b: Block)
    ensures PlanFor(blocks, b) == Refuse(Malformed) <==>
              || b.number < 0 || b.timestamp < 0 || (b.chainId.Some? && b.chainId.value <= 0)
              || exists e :: e in b.events && BadEvent(e, b.chainId)
  {
    forall e | e in b.events
      ensures ValidEvent(e, b.chainId) <==> !BadEvent(e, b.chainId)
    {
    }
    hide ValidEvent, BadEvent;
    PlanCases(blocks, b);
    var known := HashIndex(blocks, b.hash);
    hide PlanFor, HashIndex, CanonicalIn, SamePayload, WithMissing;
  }

  // Blocks with a new hash

  /** The block is the first, or continues the head by number and hash. */
  predicate Continues(blocks: seq<Block>, b: Block) {
    blocks != [] ==> b.number == blocks[|blocks| - 1].number + 1 && b.parentHash == blocks[|blocks| - 1].hash
  }

  /** Main result on incoming blocks whose hash is new: one that continues the chain is appended, one whose parent is
      retained further down replaces everything above that parent, and it is refused exactly when it is malformed, its
      parent is not retained or not one lower, or its events contradict those below it. `throws` tells whether applying
      the new chain throws. */
  lemma NewBlockIs(blocks: seq<Block>, b: Block, throws: bool)
    requires CanonicalChain(blocks) && forall i :: 0 <= i < |blocks| ==> blocks[i].hash != b.hash
    ensures var plan := PlanFor(blocks, b);
            var r, after := Answer(plan, !throws), Retained(blocks, plan);
            if !ValidBlock(b) then r == Refused(Malformed) && after == blocks
            else if Continues(blocks, b) then
              var c := CanonicalIn(blocks, b);
              if c.None? then r == Refused(IdentityConflict) && after == blocks
              else r == (if throws then Failed else Appended) && after == blocks + [c.value]
            else if forall i :: 0 <= i < |blocks| ==> blocks[i].hash != b.parentHash
            then r == Refused(BeyondHistory) && after == blocks
            else forall i :: 0 <= i < |blocks| && blocks[i].hash == b.parentHash ==>
              if blocks[i].number + 1 != b.number then r == Refused(NumberGap) && after == blocks
              else
                var c := CanonicalIn(blocks[..i + 1], b);
                if c.None? then r == Refused(IdentityConflict) && after == blocks
                else r == (if throws then Failed else Reorganized) && after == blocks[..i + 1] + [c.value]
  {
    hide ValidBlock, CanonicalIn, CanonicalChain, PlanFor, HashIndex;
    NewBlockPlans(blocks, b);
    if ValidBlock(b) && !Continues(blocks, b) {
      forall i | 0 <= i < |blocks| && blocks[i].hash == b.parentHash
        ensures PlanFor(blocks, b) == ForkPlan(blocks, b, i)
      {
        ForksAt(blocks, b, i);
      }
    }
  }

  /** What a block with its parent retained at the index does. */
  function ForkPlan(blocks: seq<Block>, b: Block, i: nat): Plan
    requires i < |blocks|
  {
    var c := CanonicalIn(blocks[..i + 1], b);
    if blocks[i].number + 1 != b.number then Refuse(NumberGap)
    else if c.None? then Refuse(IdentityConflict) else Fork(i, c.value)
  }

  lemma NewBlockPlans(blocks: seq<Block>, b: Block)
    requires forall i :: 0 <= i < |blocks| ==> blocks[i].hash != b.hash
    ensures !ValidBlock(b) ==> PlanFor(blocks, b) == Refuse(Malformed)
    ensures ValidBlock(b) && Continues(blocks, b) ==>
              var c := CanonicalIn(blocks, b);
              PlanFor(blocks, b) == if c.None? then Refuse(IdentityConflict) else Append(c.value)
    ensures ValidBlock(b) && !Continues(blocks, b)
            && (forall i :: 0 <= i < |blocks| ==> blocks[i].hash != b.parentHash) ==>
              PlanFor(blocks, b) == Refuse(BeyondHistory)
  {
    hide ValidBlock, CanonicalIn, PlanForKnown;
    var known, parent := HashIndex(blocks, b.hash), HashIndex(blocks, b.parentHash);
    hide HashIndex;
  }

  lemma ForksAt(blocks: seq<Block>, b: Block, i: nat)
    requires CanonicalChain(blocks) && ValidBlock(b) && !Continues(blocks, b)
    requires forall j :: 0 <= j < |blocks| ==> blocks[j].hash != b.hash
    requires i < |blocks| && blocks[i].hash == b.parentHash
    ensures PlanFor(blocks, b) == ForkPlan(blocks, b, i)
  {
    hide ValidBlock, CanonicalIn, CanonicalChain, PlanForKnown;
    forall j | 0 <= j < i ensures blocks[j].hash != b.parentHash {
      HashesApart(blocks, j, i);
    }
    HashIndexIs(blocks, b.parentHash, i);
    var known := HashIndex(blocks, b.hash);
    hide HashIndex;
  }

  lemma HashesApart(blocks: seq<Block>, i: nat, j: nat)
    requires CanonicalChain(blocks) && i < j < |blocks|
    ensures blocks[i].hash != blocks[j].hash
  {
    hide Canonicalize, ContextOf, ValidBlock;
    PrefixCanonical(blocks, j);
    assert blocks[..j][i] == blocks[i];
  }

  predicate IsHead(b: Block, h: Head) {
    b.number == h.number && b.hash == h.hash && b.timestamp == h.timestamp
  }

  /** Main result on rewinds: the answer is "rewound" exactly when the named block is retained below the head, "at head"
      exactly when it is the head, "moved" exactly when another block is retained at its height, and "outside" exactly
      when none is. */
  lemma RewindIff(blocks: seq<Block>, expected: Head)
    requires CanonicalChain(blocks)
    ensures var r, n := RewindAnswer(blocks, expected), |blocks|;
            && (r == InvalidHead <==> expected.number < 0 || expected.timestamp < 0)
            && (r == AtHead <==> n > 0 && IsHead(blocks[n - 1], expected))
            && (r == Rewound <==> exists i :: 0 <= i < n - 1 && IsHead(blocks[i], expected))
            && (r == HeadMoved <==>
                  && r != InvalidHead
                  && exists i :: 0 <= i < n && blocks[i].number == expected.number && !IsHead(blocks[i], expected))
            && (r == OutsideHistory <==>
                  r != InvalidHead && forall i :: 0 <= i < n ==> blocks[i].number != expected.number)
  {
    hide CanonicalChain, ValidBlock;
    forall i | 0 <= i < |blocks|
      ensures blocks[i].number >= 0 && blocks[i].timestamp >= 0
    {
      ChainValid(blocks, i);
      ValidBounds(blocks[i]);
    }
    var index := NumberIndex(blocks, expected.number);
    if index.Some? {
      forall i | 0 <= i < |blocks| && blocks[i].number == expected.number
        ensures i == index.value
      {
        var low, high := if i < index.value then i else index.value, if i < index.value then index.value else i;
        NumbersConsecutive(blocks, low, high);
      }
    }
    hide NumberIndex;
  }

  lemma ValidBounds(b: Block)
    requires ValidBlock(b)
    ensures b.number >= 0 && b.timestamp >= 0
  {
  }

  /** A rewind takes coverage back to the block rewound to; a new block carries it on once backfilling is complete. */
  lemma CoverageIs(b: Backfill, timestamp: int)
    ensures var r := Receded(b, timestamp);
            && r == b.(coverageThrough := r.coverageThrough) && (r.coverageThrough.None? <==> b.coverageThrough.None?)
            && (r.coverageThrough.Some? ==>
                  && r.coverageThrough.value in {b.coverageThrough.value, timestamp}
                  && r.coverageThrough.value <= timestamp && r.coverageThrough.value <= b.coverageThrough.value)
    ensures var a := Advanced(b, timestamp);
            a == b.(coverageThrough := if b.status == Complete then Some(timestamp) else b.coverageThrough)
  {
  }

  /** The snapshot names its source as a block of this chain demands it. */
  predicate WellSourced(e: Event, chainId: Option<int>) {
    e.source.Some? ==>
      var source := e.source.value;
      && chainId.Some? && source.sequence >= 0
      && (source.kind == Log ==> source.transaction.Some? && source.logIndex.Some? && source.logIndex.value >= 0)
      && (source.kind == BlockSnapshot ==> source.transaction.None? && source.logIndex.None?)
  }

  /** Main result on enrichments: one is refused exactly when there is no head or it is another one, when a snapshot
      names its source wrongly, or when the head with the snapshots is not canonical on the chain below it. */
  lemma AugmentIff(blocks: seq<Block>, number: int, hash: Id, snapshots: seq<Event>, replays: bool)
    requires CanonicalChain(blocks) && forall e :: e in snapshots ==> e.PositionSnapshot?
    ensures var r := AugmentAnswer(blocks, number, hash, snapshots, replays);
            && (r == NoHead <==> blocks == [])
            && (blocks != [] ==>
                  var head := blocks[|blocks| - 1];
                  && (r == OtherHead <==> head.number != number || head.hash != hash)
                  && (head.number == number && head.hash == hash ==>
                        var malformed := exists e :: e in snapshots && !WellSourced(e, head.chainId);
                        var canonical := CanonicalIn(blocks[..|blocks| - 1], Candidate(head, snapshots)).Some?;
                        && (r == MalformedSnapshots <==> malformed)
                        && (r == SnapshotConflict <==> !malformed && !canonical)
                        && (r == Augmented <==> !malformed && canonical && replays)
                        && (r == AugmentFailed <==> !malformed && canonical && !replays)))
  {
    hide CanonicalChain, Canonicalize, ContextOf;
    if blocks != [] {
      var head := blocks[|blocks| - 1];
      ChainValid(blocks, |blocks| - 1);
      CandidateValidIff(head, snapshots);
    }
    hide ValidBlock, Unreplaced, WellSourced;
  }

  lemma {:induction false} UnreplacedWithin(events: seq<Event>, snapshots: seq<Event>)
    ensures forall e :: e in Unreplaced(events, snapshots) ==> e in events
  {
    if events != [] {
      UnreplacedWithin(events[..|events| - 1], snapshots);
      assert events == events[..|events| - 1] + [events[|events| - 1]];
    }
  }

  lemma CandidateValidIff(head: Block, snapshots: seq<Event>)
    requires ValidBlock(head) && forall e :: e in snapshots ==> e.PositionSnapshot?
    ensures ValidBlock(Candidate(head, snapshots)) <==> forall e :: e in snapshots ==> WellSourced(e, head.chainId)
  {
    UnreplacedWithin(head.events, snapshots);
    var events := Unreplaced(head.events, snapshots) + snapshots;
    assert forall e :: e in events <==> e in Unreplaced(head.events, snapshots) || e in snapshots;
    forall e | e in snapshots
      ensures ValidEvent(e, head.chainId) <==> WellSourced(e, head.chainId)
    {
    }
    hide ValidEvent, WellSourced, Unreplaced;
  }
}
