/** Which offers the price book stores and which price it gives out, told from the samples and the policy. */
module TrustedPrices {
  import opened Domain
  import opened PriceBook

  /** The sample comes from the feed that the policy names, verified unless it is fixed for tests, has a positive
      price and no negative confidence, and lies at most thirty seconds in the future. */
  predicate Trusted(policies: Policies, s: Sample, blockTimestamp: int) {
    && s.token in policies && s.source == policies[s.token].source && s.feedId == policies[s.token].feedId
    && (s.verified || s.source == FixedTest)
    && s.priceUsd > 0 && s.confidenceUsd >= 0 && s.observedAt - blockTimestamp <= 30
  }

  /** Main result on offers: a trusted sample with a new sequence number is stored for its token, and nothing else
      happens. */
  lemma OfferIs(policies: Policies, book: Book, offer: Offer)
    ensures var s, after := offer.sample, Applied(policies, book, offer);
            if Trusted(policies, s, offer.blockTimestamp) && s.sequence !in SequencesOf(book, s.token) then
              && (forall x :: x in SamplesOf(after, s.token) <==> x in SamplesOf(book, s.token) || x == s)
              && |SamplesOf(after, s.token)| == |SamplesOf(book, s.token)| + 1
              && SequencesOf(after, s.token) == SequencesOf(book, s.token) + {s.sequence}
              && forall t :: t != s.token ==>
                   SamplesOf(after, t) == SamplesOf(book, t) && SequencesOf(after, t) == SequencesOf(book, t)
            else after == book
  {
    InsertMembers(SamplesOf(book, offer.sample.token), offer.sample);
  }

  /** The sample observed last at or before a time, by observation time and then by sequence. */
  ghost predicate LastAt(samples: seq<Sample>, at: int, s: Sample) {
    && s in samples && s.observedAt <= at
    && forall x :: x in samples && x.observedAt <= at ==>
         x.observedAt < s.observedAt || (x.observedAt == s.observedAt && x.sequence <= s.sequence)
  }

  /** Main result on lookups: the price is that of the last sample at or before the requested time, unless it is
      older than the policy allows or its confidence is more than the allowed number of basis points of its price. */
  lemma PriceIs(policies: Policies, book: Book, token: Id, at: int) returns (s: Option<Sample>)
    ensures s.None? <==> forall x :: x in SamplesOf(book, token) ==> x.observedAt > at
    ensures s.Some? ==> LastAt(SamplesOf(book, token), at, s.value)
    ensures var r := Lookup(policies, book, token, at);
            if token !in policies then r == PriceResult(None, MissingPolicy)
            else if s.None? then r == PriceResult(None, MissingSample)
            else if s.value.observedAt + policies[token].maxAgeSeconds < at then r == PriceResult(None, Stale)
            else if 10_000 * s.value.confidenceUsd > policies[token].maxConfidenceBps * s.value.priceUsd
            then r == PriceResult(None, InvalidConfidence)
            else r == PriceResult(Some(s.value.priceUsd), Available)
  {
    s := LatestAt(SamplesOf(book, token), at);
    if token in policies && s.Some? {
      assert s.value.priceUsd * policies[token].maxConfidenceBps == policies[token].maxConfidenceBps * s.value.priceUsd;
    }
  }

  /** The book prices the token at that time: its last sample by then is fresh and certain enough for the policy. */
  ghost predicate Priced(policies: Policies, book: Book, token: Id, at: int, priceUsd: int) {
    token in policies
    && exists s :: LastAt(SamplesOf(book, token), at, s) && s.priceUsd == priceUsd
                   && at <= s.observedAt + policies[token].maxAgeSeconds
                   && 10_000 * s.confidenceUsd <= policies[token].maxConfidenceBps * s.priceUsd
  }

  lemma OneLast(samples: seq<Sample>, at: int, a: Sample, b: Sample)
    requires Distinct(samples) && LastAt(samples, at, a) && LastAt(samples, at, b)
    ensures a == b
  {
    var i :| 0 <= i < |samples| && samples[i] == a;
    var j :| 0 <= j < |samples| && samples[j] == b;
    assert a.sequence == b.sequence;
  }

  lemma PriceFound(policies: Policies, book: Book, token: Id, at: int)
    ensures var p := PriceAt(policies, book, token, at); p.Some? ==> Priced(policies, book, token, at, p.value)
  {
    var s := PriceIs(policies, book, token, at);
    hide Lookup, LatestAt, LastAt;
  }

  lemma PricedFound(policies: Policies, book: Book, token: Id, at: int, n: int)
    requires BookValid(policies, book) && Priced(policies, book, token, at, n)
    ensures PriceAt(policies, book, token, at) == Some(n)
  {
    var samples := SamplesOf(book, token);
    assert Distinct(samples);
    var last :| LastAt(samples, at, last) && last.priceUsd == n
                && at <= last.observedAt + policies[token].maxAgeSeconds
                && 10_000 * last.confidenceUsd <= policies[token].maxConfidenceBps * last.priceUsd;
    var s := PriceIs(policies, book, token, at);
    LastIn(samples, at, last);
    OneLast(samples, at, s.value, last);
    hide Lookup, LatestAt, BookValid, SamplesOf, LastAt;
  }

  /** There is a price exactly when the book prices the token, and it is that one. */
  lemma PriceAtIs(policies: Policies, book: Book, token: Id, at: int)
    requires BookValid(policies, book)
    ensures var p := PriceAt(policies, book, token, at);
            && (p.Some? <==> exists n :: Priced(policies, book, token, at, n))
            && (p.Some? ==> Priced(policies, book, token, at, p.value))
  {
    hide PriceAt, Priced, BookValid;
    PriceFound(policies, book, token, at);
    forall n | Priced(policies, book, token, at, n) ensures PriceAt(policies, book, token, at) == Some(n) {
      PricedFound(policies, book, token, at, n);
    }
  }

  lemma LastIn(samples: seq<Sample>, at: int, s: Sample)
    requires LastAt(samples, at, s)
    ensures s in samples && s.observedAt <= at
  {
  }
}
