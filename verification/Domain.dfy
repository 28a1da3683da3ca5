/** The values the analytics engine works on: block envelopes, events and price samples.

    Hashes, addresses, tokens and event identifiers are case-folded before the engine compares
    them, so a folded identifier is an abstract `Id`. `Id` is an integer because the engine also
    orders some of them, and any total order will do. */
module Domain {
  type Id = nat

  datatype Option<T> = None | Some(value: T) {
    /** The source's `a ?? b`. */
    function Or(other: Option<T>): Option<T> {
      if Some? then this else other
    }

    function GetOr(default: T): T {
      if Some? then value else default
    }
  }

  function AddNullable(a: Option<int>, b: Option<int>): Option<int> {
    if a.Some? && b.Some? then Some(a.value + b.value) else None
  }

  function SubtractNullable(a: Option<int>, b: Option<int>): Option<int> {
    if a.Some? && b.Some? then Some(a.value - b.value) else None
  }

  /** Token decimals the fixed-point code accepts. */
  type Decimals = d: nat | d <= 255

  /** A price observation offered for one token. `verified` says that a verifier is named. */
  datatype Sample = Sample(token: Id, source: PriceFeed, feedId: Id, priceUsd: int, confidenceUsd: int,
                           observedAt: int, sequence: int, verified: bool)

  datatype PriceFeed = DataFeeds | DataStreams | FixedTest

  datatype Policy = Policy(source: PriceFeed, feedId: Id, maxAgeSeconds: int, maxConfidenceBps: int)

  type Policies = map<Id, Policy>

  datatype Provenance = Provenance(factory: Option<Id>, createdAtBlock: Option<int>, createdAtBlockHash: Option<Id>,
                                   creationTransaction: Option<Id>, creationLogIndex: Option<int>)

  datatype PairIdentity = PairIdentity(pair: Id, tokenX: Id, tokenY: Id, decimalsX: Decimals, decimalsY: Decimals,
                                       provenance: Provenance)

  /** Optional market fields that most events may carry. */
  datatype Market = Market(priceQuote: Option<int>, activeId: Option<int>, binStep: Option<int>)

  /** A bin identifier as text: its numeric value and the number of superfluous leading zeros.
      The engine accepts any digit string, so "7" and "07" are two texts for bin 7. */
  datatype BinKey = BinKey(id: nat, zeros: nat)

  datatype BinChange = BinChange(bin: BinKey, liquidityDelta: int, amountX: int, amountY: int)
  datatype BinValuation = BinValuation(bin: BinKey, liquidity: int, amountX: int, amountY: int)
  datatype BinTransfer = BinTransfer(bin: BinKey, liquidity: int)
  datatype BinSnapshot = BinSnapshot(bin: BinKey, reserveX: int, reserveY: int, totalSupply: int)

  /** Fee parameters travel through the engine unread. */
  type FeeState = nat

  datatype Observation = Observation(fees: FeeState, binUpdates: seq<BinSnapshot>, sourceEventIds: seq<Id>,
                                     replaceBinWindow: bool)

  datatype SourceKind = Log | BlockSnapshot
  datatype Source = Source(eventId: Id, transaction: Option<Id>, logIndex: Option<int>, sequence: int, kind: SourceKind)

  datatype Event =
    | PairSnapshot(source: Option<Source>, ident: PairIdentity, market: Market, reserveX: int, reserveY: int,
                   poolState: Option<Observation>)
    | Swap(source: Option<Source>, ident: PairIdentity, market: Market, reserveX: int, reserveY: int,
           amountInX: int, amountInY: int, feeX: int, feeY: int,
           protocolFeeX: Option<int>, protocolFeeY: Option<int>)
    | Liquidity(source: Option<Source>, ident: PairIdentity, market: Market, reserveX: int, reserveY: int,
                deposit: bool, owner: Id, changes: seq<BinChange>)
    | PositionSnapshot(source: Option<Source>, ident: PairIdentity, owner: Id, valuations: seq<BinValuation>)
    | PositionTransfer(source: Option<Source>, ident: PairIdentity, from: Id, to: Id, transfers: seq<BinTransfer>)
  {
    /** Events that move the pair's market state, its candles and its as-of index. */
    predicate IsMarket() {
      PairSnapshot? || Swap? || Liquidity?
    }
  }

  datatype Block = Block(chainId: Option<int>, number: int, hash: Id, parentHash: Id, timestamp: int,
                         prices: seq<Sample>, events: seq<Event>)
}
