/** The trusted price book: per token, the accepted samples sorted by observation time and sequence. */
module PriceBook {
  import opened Domain
  import opened Fixed

  datatype Reason = Available | MissingPolicy | MissingSample | Stale | InvalidConfidence

  datatype PriceResult = PriceResult(price: Option<int>, reason: Reason)

  /** What the book's two maps hold. */
  datatype Book = Book(samples: map<Id, seq<Sample>>, sequences: map<Id, set<int>>)

  const EMPTY_BOOK := Book(map[], map[])

  /** One call to `apply`: the sample and the timestamp of the block that carried it. */
  datatype Offer = Offer(sample: Sample, blockTimestamp: int)

  function SamplesOf(book: Book, token: Id): seq<Sample> {
    if token in book.samples then book.samples[token] else []
  }

  function SequencesOf(book: Book, token: Id): set<int> {
    if token in book.sequences then book.sequences[token] else {}
  }

  predicate Accepts(policies: Policies, offer: Offer) {
    var s := offer.sample;
    && s.token in policies
    && s.source == policies[s.token].source
    && s.feedId == policies[s.token].feedId
    && (s.source != FixedTest ==> s.verified)
    && s.priceUsd > 0
    && s.confidenceUsd >= 0
    && s.observedAt <= offer.blockTimestamp + 30
  }

  /** The order of the sample array: observation time, then sequence. */
  predicate OrderedBeforeOrEqual(a: Sample, b: Sample) {
    a.observedAt < b.observedAt || (a.observedAt == b.observedAt && a.sequence <= b.sequence)
  }

  ghost predicate Sorted(samples: seq<Sample>) {
    forall i, j :: 0 <= i < j < |samples| ==> OrderedBeforeOrEqual(samples[i], samples[j])
  }

  function Insert(samples: seq<Sample>, s: Sample): (r: seq<Sample>)
    ensures |r| == |samples| + 1
  {
    if samples == [] || OrderedBeforeOrEqual(samples[|samples| - 1], s) then samples + [s]
    else
      var init := samples[..|samples| - 1];
      var last := samples[|samples| - 1];
      Insert(init, s) + [last]
  }

  function Applied(policies: Policies, book: Book, offer: Offer): Book {
    var s := offer.sample;
    if !Accepts(policies, offer) || s.sequence in SequencesOf(book, s.token) then book
    else Book(book.samples[s.token := Insert(SamplesOf(book, s.token), s)],
              book.sequences[s.token := SequencesOf(book, s.token) + {s.sequence}])
  }

  function AppliedAll(policies: Policies, book: Book, offers: seq<Offer>): Book {
    if offers == [] then book
    else Applied(policies, AppliedAll(policies, book, offers[..|offers| - 1]), offers[|offers| - 1])
  }

  /** The linear scan that the binary search stands for: the greatest sample observed at or before `t`. */
  function LatestAt(samples: seq<Sample>, t: int): (r: Option<Sample>)
    ensures r.None? <==> forall x :: x in samples ==> x.observedAt > t
    ensures r.Some? ==> r.value in samples && r.value.observedAt <= t
    ensures r.Some? ==> forall x :: x in samples && x.observedAt <= t ==> OrderedBeforeOrEqual(x, r.value)
  {
    if samples == [] then None
    else
      var best := LatestAt(samples[..|samples| - 1], t);
      var last := samples[|samples| - 1];
      assert samples == samples[..|samples| - 1] + [last];
      if last.observedAt <= t && (best.None? || OrderedBeforeOrEqual(best.value, last)) then Some(last) else best
  }

  function Judge(policy: Policy, sample: Option<Sample>, at: int): PriceResult {
    match sample
    case None => PriceResult(None, MissingSample)
    case Some(s) =>
      if s.observedAt > at || at - s.observedAt > policy.maxAgeSeconds then PriceResult(None, Stale)
      else if s.confidenceUsd * BPS_SCALE > s.priceUsd * policy.maxConfidenceBps then
        PriceResult(None, InvalidConfidence)
      else PriceResult(Some(s.priceUsd), Available)
  }

  function Lookup(policies: Policies, book: Book, token: Id, at: int): PriceResult {
    if token !in policies then PriceResult(None, MissingPolicy)
    else Judge(policies[token], LatestAt(SamplesOf(book, token), at), at)
  }

  function PriceAt(policies: Policies, book: Book, token: Id, at: int): Option<int> {
    Lookup(policies, book, token, at).price
  }

  /** Every stored sample was acceptable, the arrays are sorted, and the sequence sets list exactly
      the sequences of the stored samples, each once. */
  ghost predicate BookValid(policies: Policies, book: Book) {
    && book.samples.Keys == book.sequences.Keys
    && (forall token :: token in book.samples ==> TokenValid(token, book.samples[token], book.sequences[token]))
    && (forall token :: token in book.samples ==> book.samples[token] != [])
  }

  ghost predicate TokenValid(token: Id, samples: seq<Sample>, sequences: set<int>) {
    && Sorted(samples)
    && Distinct(samples)
    && (forall s :: s in samples ==> s.token == token && s.priceUsd > 0)
    && (forall s :: s in samples ==> s.sequence in sequences)
    && (forall n :: n in sequences ==> HasSequence(samples, n))
  }

  ghost predicate Distinct(samples: seq<Sample>) {
    forall i, j :: 0 <= i < j < |samples| ==> samples[i].sequence != samples[j].sequence
  }

  ghost predicate HasSequence(samples: seq<Sample>, n: int) {
    exists s :: s in samples && s.sequence == n
  }

  lemma {:induction false} InsertMembers(samples: seq<Sample>, s: Sample)
    ensures forall x :: x in Insert(samples, s) <==> x in samples || x == s
  {
    if samples != [] && !OrderedBeforeOrEqual(samples[|samples| - 1], s) {
      InsertMembers(samples[..|samples| - 1], s);
      assert samples == samples[..|samples| - 1] + [samples[|samples| - 1]];
    }
  }

  /** Insertion is the splice at the end of the samples ordered before the new one. */
  lemma {:induction false} InsertAt(samples: seq<Sample>, s: Sample, at: nat)
    requires at <= |samples|
    requires at > 0 ==> OrderedBeforeOrEqual(samples[at - 1], s)
    requires forall i :: at <= i < |samples| ==> !OrderedBeforeOrEqual(samples[i], s)
    ensures Insert(samples, s) == samples[..at] + [s] + samples[at..]
  {
    if at < |samples| {
      var init := samples[..|samples| - 1];
      InsertAt(init, s, at);
      assert samples[..at] + [s] + samples[at..] == init[..at] + [s] + init[at..] + [samples[|samples| - 1]];
    } else {
      assert samples[..at] + [s] + samples[at..] == samples + [s];
    }
  }

  lemma SpliceSorted(samples: seq<Sample>, s: Sample, at: nat)
    requires Sorted(samples) && at <= |samples|
    requires forall i :: 0 <= i < at ==> OrderedBeforeOrEqual(samples[i], s)
    requires forall i :: at <= i < |samples| ==> !OrderedBeforeOrEqual(samples[i], s)
    ensures Sorted(samples[..at] + [s] + samples[at..])
  {
    var r := samples[..at] + [s] + samples[at..];
    forall i, j | 0 <= i < j < |r|
      ensures OrderedBeforeOrEqual(r[i], r[j])
    {
      assert r[i] == if i < at then samples[i] else if i == at then s else samples[i - 1];
      assert r[j] == if j < at then samples[j] else if j == at then s else samples[j - 1];
    }
  }

  lemma SpliceDistinct(samples: seq<Sample>, s: Sample, at: nat)
    requires Distinct(samples) && at <= |samples|
    requires forall x :: x in samples ==> x.sequence != s.sequence
    ensures Distinct(samples[..at] + [s] + samples[at..])
  {
    var r := samples[..at] + [s] + samples[at..];
    forall i, j | 0 <= i < j < |r|
      ensures r[i].sequence != r[j].sequence
    {
      assert r[i] == if i < at then samples[i] else if i == at then s else samples[i - 1];
      assert r[j] == if j < at then samples[j] else if j == at then s else samples[j - 1];
    }
  }

  /** In a sorted array the samples ordered before a new one form a prefix. */
  lemma InsertionPoint(samples: seq<Sample>, s: Sample) returns (at: nat)
    requires Sorted(samples)
    ensures at <= |samples|
    ensures forall i :: 0 <= i < at ==> OrderedBeforeOrEqual(samples[i], s)
    ensures forall i :: at <= i < |samples| ==> !OrderedBeforeOrEqual(samples[i], s)
  {
    at := |samples|;
    while at > 0 && !OrderedBeforeOrEqual(samples[at - 1], s)
      invariant at <= |samples|
      invariant forall i :: at <= i < |samples| ==> !OrderedBeforeOrEqual(samples[i], s)
    {
      at := at - 1;
    }
  }

  lemma InsertKeepsTokenValid(token: Id, samples: seq<Sample>, sequences: set<int>, s: Sample)
    requires TokenValid(token, samples, sequences)
    requires s.token == token && s.priceUsd > 0 && s.sequence !in sequences
    ensures TokenValid(token, Insert(samples, s), sequences + {s.sequence})
  {
    var at := InsertionPoint(samples, s);
    InsertAt(samples, s, at);
    SpliceSorted(samples, s, at);
    SpliceDistinct(samples, s, at);
    InsertMembers(samples, s);
    var r := Insert(samples, s);
    forall n | n in sequences + {s.sequence}
      ensures HasSequence(r, n)
    {
      if n == s.sequence {
        assert s in r;
      } else {
        assert HasSequence(samples, n);
        var x :| x in samples && x.sequence == n;
        assert x in r;
      }
    }
  }

  /** Applying a sample keeps the book's two maps consistent. */
  lemma AppliedKeepsValid(policies: Policies, book: Book, offer: Offer)
    requires BookValid(policies, book)
    ensures BookValid(policies, Applied(policies, book, offer))
  {
    var s := offer.sample;
    if Accepts(policies, offer) && s.sequence !in SequencesOf(book, s.token) {
      InsertKeepsTokenValid(s.token, SamplesOf(book, s.token), SequencesOf(book, s.token), s);
    }
  }

  lemma {:induction false} AppliedAllKeepsValid(policies: Policies, book: Book, offers: seq<Offer>)
    requires BookValid(policies, book)
    ensures BookValid(policies, AppliedAll(policies, book, offers))
  {
    if offers != [] {
      AppliedAllKeepsValid(policies, book, offers[..|offers| - 1]);
      AppliedKeepsValid(policies, AppliedAll(policies, book, offers[..|offers| - 1]), offers[|offers| - 1]);
    }
  }

  /** The test for a sample observed in the future can never be the reason for a stale answer:
      the lookup reports stale exactly when the sample it judges is older than the policy allows. */
  lemma FutureTestUnreachable(policies: Policies, book: Book, token: Id, at: int)
    requires token in policies
    ensures var s := LatestAt(SamplesOf(book, token), at);
            && (s.Some? ==> s.value.observedAt <= at)
            && (Lookup(policies, book, token, at).reason == Stale
                <==> s.Some? && at - s.value.observedAt > policies[token].maxAgeSeconds)
  {
  }

  /** A price that the book answers is positive. */
  lemma PricePositive(policies: Policies, book: Book, token: Id, at: int)
    requires BookValid(policies, book)
    ensures var p := PriceAt(policies, book, token, at); p.Some? ==> p.value > 0
  {
  }

  /** Index `i` of the offers is the first acceptable offer of its token and sequence. */
  ghost predicate Wins(policies: Policies, offers: seq<Offer>, i: nat)
    requires i < |offers|
  {
    && Accepts(policies, offers[i])
    && forall j :: 0 <= j < i && Accepts(policies, offers[j])
                   && offers[j].sample.token == offers[i].sample.token ==>
                     offers[j].sample.sequence != offers[i].sample.sequence
  }

  ghost predicate WinsIn(policies: Policies, offers: seq<Offer>, s: Sample) {
    exists i: nat :: i < |offers| && Wins(policies, offers, i) && offers[i].sample == s
  }

  ghost predicate Offered(policies: Policies, offers: seq<Offer>, token: Id, sequence: int) {
    exists i: nat :: i < |offers| && Accepts(policies, offers[i])
                     && offers[i].sample.token == token && offers[i].sample.sequence == sequence
  }

  ghost predicate HoldsWinners(policies: Policies, offers: seq<Offer>, book: Book) {
    && (forall token, n :: n in SequencesOf(book, token) <==> Offered(policies, offers, token, n))
    && (forall token, s :: s in SamplesOf(book, token) <==> s.token == token && WinsIn(policies, offers, s))
  }

  /** After any run of `apply` the book holds exactly the first acceptable sample of every
      token and sequence. */
  lemma {:induction false} BookHoldsWinners(policies: Policies, offers: seq<Offer>)
    ensures BookValid(policies, AppliedAll(policies, EMPTY_BOOK, offers))
    ensures HoldsWinners(policies, offers, AppliedAll(policies, EMPTY_BOOK, offers))
  {
    AppliedAllKeepsValid(policies, EMPTY_BOOK, offers);
    if offers == [] {
      assert forall token :: SamplesOf(EMPTY_BOOK, token) == [];
    } else {
      var init, last := offers[..|offers| - 1], offers[|offers| - 1];
      BookHoldsWinners(policies, init);
      assert offers == init + [last];
      WinnersOfPrefix(policies, init, last);
      AppliedContents(policies, AppliedAll(policies, EMPTY_BOOK, init), last);
    }
  }

  lemma AppliedContents(policies: Policies, book: Book, offer: Offer)
    ensures var after := Applied(policies, book, offer);
            var s := offer.sample;
            && (forall token, n :: n in SequencesOf(after, token) <==>
                  n in SequencesOf(book, token)
                  || (Accepts(policies, offer) && s.token == token && s.sequence == n))
            && (forall token, x :: x in SamplesOf(after, token) <==>
                  x in SamplesOf(book, token)
                  || (x == s && token == s.token && Accepts(policies, offer)
                      && s.sequence !in SequencesOf(book, s.token)))
  {
    var s := offer.sample;
    var after := Applied(policies, book, offer);
    InsertMembers(SamplesOf(book, s.token), s);
    forall token | token != s.token
      ensures SamplesOf(after, token) == SamplesOf(book, token)
      ensures SequencesOf(after, token) == SequencesOf(book, token)
    {
    }
  }

  lemma WinnersOfPrefix(policies: Policies, init: seq<Offer>, last: Offer)
    ensures forall token, n :: Offered(policies, init + [last], token, n) <==>
              Offered(policies, init, token, n)
              || (Accepts(policies, last) && last.sample.token == token && last.sample.sequence == n)
    ensures forall s :: WinsIn(policies, init + [last], s) <==>
              WinsIn(policies, init, s)
              || (s == last.sample && Accepts(policies, last)
                  && !Offered(policies, init, s.token, s.sequence))
  {
    var offers := init + [last];
    assert forall i: nat :: i < |init| ==> offers[i] == init[i];
    assert offers[|init|] == last;
    assert forall i: nat :: i < |init| ==> (Wins(policies, init, i) <==> Wins(policies, offers, i));
    assert Wins(policies, offers, |init|) <==>
           Accepts(policies, last) && !Offered(policies, init, last.sample.token, last.sample.sequence);
    forall token, n
      ensures Offered(policies, offers, token, n) <==>
        Offered(policies, init, token, n)
        || (Accepts(policies, last) && last.sample.token == token && last.sample.sequence == n)
    {
      if Offered(policies, init, token, n) {
        var i: nat :| i < |init| && Accepts(policies, init[i])
                      && init[i].sample.token == token && init[i].sample.sequence == n;
        assert offers[i] == init[i];
      }
      if Accepts(policies, last) && last.sample.token == token && last.sample.sequence == n {
        assert offers[|init|] == last;
      }
    }
    forall s
      ensures WinsIn(policies, offers, s) <==>
        WinsIn(policies, init, s)
        || (s == last.sample && Accepts(policies, last) && !Offered(policies, init, s.token, s.sequence))
    {
      if WinsIn(policies, init, s) {
        var i: nat :| i < |init| && Wins(policies, init, i) && init[i].sample == s;
        assert Wins(policies, offers, i) && offers[i].sample == s;
      }
    }
  }

  /** Main result: at any time the book prices a token with the greatest (observation time, sequence)
      among the first acceptable samples observed at or before that time, whatever was offered. */
  lemma LookupJudgesGreatestWinner(policies: Policies, offers: seq<Offer>, token: Id, t: int)
    ensures var judged := LatestAt(SamplesOf(AppliedAll(policies, EMPTY_BOOK, offers), token), t);
            && (judged.None? <==> forall s :: WinsIn(policies, offers, s) && s.token == token ==> s.observedAt > t)
            && (judged.Some? ==>
                  && WinsIn(policies, offers, judged.value) && judged.value.token == token
                  && judged.value.observedAt <= t
                  && forall s :: WinsIn(policies, offers, s) && s.token == token && s.observedAt <= t ==>
                       OrderedBeforeOrEqual(s, judged.value))
  {
    BookHoldsWinners(policies, offers);
  }

  /** Two acceptable offers compete for one token and sequence number. */
  predicate Compete(policies: Policies, a: Offer, b: Offer) {
    && Accepts(policies, a) && Accepts(policies, b)
    && a.sample.token == b.sample.token && a.sample.sequence == b.sample.sequence
  }

  /** Offers that compete carry the same sample; a sample repeated by several blocks is harmless. */
  ghost predicate NoClash(policies: Policies, offers: seq<Offer>) {
    forall a, b :: a in offers && b in offers && Compete(policies, a, b) ==> a.sample == b.sample
  }

  ghost predicate SameOffers(a: seq<Offer>, b: seq<Offer>) {
    forall o :: o in a <==> o in b
  }

  lemma NonEmptyTogether(a: seq<Sample>, b: seq<Sample>)
    requires forall s :: s in a ==> s in b
    ensures a != [] ==> b != []
  {
    if a != [] {
      assert a[0] in b;
    }
  }

  lemma LastIsGreatest(samples: seq<Sample>, s: Sample)
    requires Sorted(samples) && s in samples
    ensures OrderedBeforeOrEqual(s, samples[|samples| - 1])
  {
    var i :| 0 <= i < |samples| && samples[i] == s;
    assert i < |samples| - 1 ==> OrderedBeforeOrEqual(samples[i], samples[|samples| - 1]);
  }

  lemma SequenceIdentifies(samples: seq<Sample>, x: Sample, y: Sample)
    requires Distinct(samples) && x in samples && y in samples && x.sequence == y.sequence
    ensures x == y
  {
    var i :| 0 <= i < |samples| && samples[i] == x;
    var j :| 0 <= j < |samples| && samples[j] == y;
    assert i == j;
  }

  lemma WithoutLast(a: seq<Sample>)
    requires Distinct(a) && a != []
    ensures forall s :: s in a[..|a| - 1] <==> s in a && s != a[|a| - 1]
  {
    var init, last := a[..|a| - 1], a[|a| - 1];
    assert a == init + [last];
    assert last !in init;
  }

  lemma {:induction false} SortedUnique(a: seq<Sample>, b: seq<Sample>)
    requires Sorted(a) && Sorted(b)
    requires Distinct(a) && Distinct(b)
    requires forall s :: s in a <==> s in b
    ensures a == b
  {
    NonEmptyTogether(a, b);
    NonEmptyTogether(b, a);
    if a != [] {
      var la, lb := a[|a| - 1], b[|b| - 1];
      assert la in a && lb in b;
      LastIsGreatest(b, la);
      LastIsGreatest(a, lb);
      SequenceIdentifies(b, la, lb);
      WithoutLast(a);
      WithoutLast(b);
      var a', b' := a[..|a| - 1], b[..|b| - 1];
      forall s
        ensures s in a' <==> s in b'
      {
        assert s in a' <==> s in a && s != la;
        assert s in b' <==> s in b && s != lb;
      }
      SortedUnique(a', b');
      assert a == a' + [la] && b == b' + [lb];
    }
  }

  /** Without a clash two runs over the same offers, in any order and with any repetitions, end in one book. */
  lemma SameBook(policies: Policies, a: seq<Offer>, b: seq<Offer>)
    requires NoClash(policies, a) && SameOffers(a, b)
    ensures AppliedAll(policies, EMPTY_BOOK, a) == AppliedAll(policies, EMPTY_BOOK, b)
  {
    var x, y := AppliedAll(policies, EMPTY_BOOK, a), AppliedAll(policies, EMPTY_BOOK, b);
    BookHoldsWinners(policies, a);
    BookHoldsWinners(policies, b);
    ContentsWithin(policies, a, b, x, y);
    ContentsWithin(policies, b, a, y, x);
    BooksEqual(policies, x, y);
  }

  function MovedToFront(offers: seq<Offer>, i: nat): (r: seq<Offer>)
    requires i < |offers|
    ensures |r| == |offers| && r[0] == offers[i]
    ensures multiset(r) == multiset(offers)
  {
    assert offers == offers[..i] + [offers[i]] + offers[i + 1..];
    [offers[i]] + offers[..i] + offers[i + 1..]
  }

  /** The first of two competing offers is kept and the other one is not. */
  lemma FirstOfferKept(policies: Policies, offers: seq<Offer>, loser: Offer)
    requires offers != [] && Compete(policies, offers[0], loser) && offers[0].sample != loser.sample
    ensures var kept := SamplesOf(AppliedAll(policies, EMPTY_BOOK, offers), loser.sample.token);
            offers[0].sample in kept && loser.sample !in kept
  {
    hide AppliedAll, SamplesOf, Accepts;
    BookHoldsWinners(policies, offers);
    assert Wins(policies, offers, 0);
    assert WinsIn(policies, offers, offers[0].sample);
    LoserNeverWins(policies, offers, loser);
  }

  lemma LoserNeverWins(policies: Policies, offers: seq<Offer>, loser: Offer)
    requires offers != [] && Compete(policies, offers[0], loser) && offers[0].sample != loser.sample
    ensures !WinsIn(policies, offers, loser.sample)
  {
    hide Accepts;
    forall i: nat | i < |offers| && offers[i].sample == loser.sample
      ensures !Wins(policies, offers, i)
    {
      assert i > 0 && Accepts(policies, offers[0]);
    }
  }

  lemma SameMultiset(a: seq<Offer>, b: seq<Offer>)
    requires multiset(a) == multiset(b)
    ensures SameOffers(a, b)
  {
    forall o
      ensures o in a <==> o in b
    {
      assert o in a <==> o in multiset(a);
      assert o in b <==> o in multiset(b);
    }
  }

  /** The book of the offers is the book of every permutation of them. */
  ghost predicate PermutationsAgree(policies: Policies, offers: seq<Offer>) {
    forall other: seq<Offer> :: multiset(other) == multiset(offers) ==>
      AppliedAll(policies, EMPTY_BOOK, other) == AppliedAll(policies, EMPTY_BOOK, offers)
  }

  /** The book of the offers is the book of every sequence that offers the same, however often. */
  ghost predicate OfferingsAgree(policies: Policies, offers: seq<Offer>) {
    forall other: seq<Offer> :: SameOffers(other, offers) ==>
      AppliedAll(policies, EMPTY_BOOK, other) == AppliedAll(policies, EMPTY_BOOK, offers)
  }

  /** Main result: the book does not depend on the order of application exactly when no two acceptable offers of
      one token and sequence number carry different samples; then repetitions do not matter either. */
  lemma OrderIndependentIff(policies: Policies, offers: seq<Offer>)
    ensures PermutationsAgree(policies, offers) <==> NoClash(policies, offers)
    ensures OfferingsAgree(policies, offers) <==> NoClash(policies, offers)
  {
    if NoClash(policies, offers) {
      forall other: seq<Offer> | SameOffers(other, offers)
        ensures AppliedAll(policies, EMPTY_BOOK, other) == AppliedAll(policies, EMPTY_BOOK, offers)
      {
        SameBook(policies, offers, other);
      }
    } else {
      var a, b :| a in offers && b in offers && Compete(policies, a, b) && a.sample != b.sample;
      var i :| 0 <= i < |offers| && offers[i] == a;
      var j :| 0 <= j < |offers| && offers[j] == b;
      FirstOfferKept(policies, MovedToFront(offers, i), b);
      FirstOfferKept(policies, MovedToFront(offers, j), a);
      SameMultiset(MovedToFront(offers, i), offers);
      SameMultiset(MovedToFront(offers, j), offers);
    }
    forall other: seq<Offer> | multiset(other) == multiset(offers)
      ensures SameOffers(other, offers)
    {
      SameMultiset(other, offers);
    }
  }

  ghost predicate Within(x: Book, y: Book) {
    && (forall token, s :: s in SamplesOf(x, token) ==> s in SamplesOf(y, token))
    && (forall token, n :: n in SequencesOf(x, token) ==> n in SequencesOf(y, token))
  }

  lemma ContentsWithin(policies: Policies, a: seq<Offer>, b: seq<Offer>, x: Book, y: Book)
    requires HoldsWinners(policies, a, x) && HoldsWinners(policies, b, y)
    requires NoClash(policies, b)
    requires forall o :: o in a ==> o in b
    ensures Within(x, y)
  {
    WinnersWithin(policies, a, b);
    OfferedSame(policies, a, b);
    forall token, s | s in SamplesOf(x, token)
      ensures s in SamplesOf(y, token)
    {
      assert s.token == token && WinsIn(policies, a, s);
      assert WinsIn(policies, b, s);
    }
  }

  /** A valid book is determined by which samples and sequences it holds. */
  lemma BooksEqual(policies: Policies, x: Book, y: Book)
    requires BookValid(policies, x) && BookValid(policies, y)
    requires Within(x, y) && Within(y, x)
    ensures x == y
  {
    hide Sorted, Distinct, HasSequence;
    forall token
      ensures SequencesOf(x, token) == SequencesOf(y, token)
    {
      assert forall n :: n in SequencesOf(x, token) <==> n in SequencesOf(y, token);
    }
    forall token
      ensures SamplesOf(x, token) == SamplesOf(y, token)
      ensures token in x.samples <==> token in y.samples
    {
      SortedUnique(SamplesOf(x, token), SamplesOf(y, token));
    }
    assert x.samples.Keys == y.samples.Keys;
    assert x.sequences.Keys == y.sequences.Keys;
    forall token | token in x.samples
      ensures x.samples[token] == y.samples[token]
      ensures x.sequences[token] == y.sequences[token]
    {
      assert SamplesOf(x, token) == SamplesOf(y, token);
      assert SequencesOf(x, token) == SequencesOf(y, token);
    }
  }

  lemma OfferedSame(policies: Policies, a: seq<Offer>, b: seq<Offer>)
    requires forall o :: o in a ==> o in b
    ensures forall token, n :: Offered(policies, a, token, n) ==> Offered(policies, b, token, n)
  {
    forall token, n | Offered(policies, a, token, n)
      ensures Offered(policies, b, token, n)
    {
      var i: nat :| i < |a| && Accepts(policies, a[i]) && a[i].sample.token == token && a[i].sample.sequence == n;
      assert a[i] in a;
      var j :| 0 <= j < |b| && b[j] == a[i];
      assert Accepts(policies, b[j]);
    }
  }

  /** Some offer wins the token and sequence number of an acceptable offer. */
  lemma {:induction false} SomeWinner(policies: Policies, offers: seq<Offer>, n: nat) returns (i: nat)
    requires n < |offers| && Accepts(policies, offers[n])
    ensures i <= n && Wins(policies, offers, i) && Compete(policies, offers[i], offers[n])
  {
    i := n;
    if !Wins(policies, offers, n) {
      var j :| 0 <= j < n && Accepts(policies, offers[j]) && offers[j].sample.token == offers[n].sample.token
               && offers[j].sample.sequence == offers[n].sample.sequence;
      i := SomeWinner(policies, offers, j);
    }
  }

  lemma WinnersWithin(policies: Policies, a: seq<Offer>, b: seq<Offer>)
    requires NoClash(policies, b)
    requires forall o :: o in a ==> o in b
    ensures forall s :: WinsIn(policies, a, s) ==> WinsIn(policies, b, s)
  {
    forall s | WinsIn(policies, a, s)
      ensures WinsIn(policies, b, s)
    {
      var i: nat :| i < |a| && Wins(policies, a, i) && a[i].sample == s;
      assert a[i] in a;
      var n: nat :| n < |b| && b[n] == a[i];
      var j := SomeWinner(policies, b, n);
      assert b[j] in b && b[n] in b;
    }
  }

  const CLASH_POLICIES: Policies := map[1 := Policy(FixedTest, 7, 60, 0)]
  const CLASH_FIRST := Offer(Sample(1, FixedTest, 7, 100, 0, 10, 5, true), 10)
  const CLASH_SECOND := Offer(Sample(1, FixedTest, 7, 200, 0, 10, 5, true), 10)

  lemma OnlyFirstKept(policies: Policies, a: Offer, b: Offer)
    requires Accepts(policies, a) && a.sample.token == b.sample.token && a.sample.sequence == b.sample.sequence
    ensures SamplesOf(AppliedAll(policies, EMPTY_BOOK, [a, b]), a.sample.token) == [a.sample]
  {
    assert [a, b][..1] == [a] && [a][..0] == [];
    var one := Applied(policies, EMPTY_BOOK, a);
    assert Insert([], a.sample) == [a.sample];
    assert SequencesOf(EMPTY_BOOK, a.sample.token) == {} && SamplesOf(EMPTY_BOOK, a.sample.token) == [];
    assert {} + {a.sample.sequence} == {a.sample.sequence};
    assert one == Book(map[a.sample.token := [a.sample]], map[a.sample.token := {a.sample.sequence}]);
    assert AppliedAll(policies, EMPTY_BOOK, [a]) == one;
    assert Applied(policies, one, b) == one;
  }

  /** A clash: with a reused sequence number the first offer wins, so there the order does matter. */
  lemma ReusedSequenceDependsOnOrder()
    ensures PriceAt(CLASH_POLICIES, AppliedAll(CLASH_POLICIES, EMPTY_BOOK, [CLASH_FIRST, CLASH_SECOND]), 1, 10)
            == Some(100)
    ensures PriceAt(CLASH_POLICIES, AppliedAll(CLASH_POLICIES, EMPTY_BOOK, [CLASH_SECOND, CLASH_FIRST]), 1, 10)
            == Some(200)
  {
    OnlyFirstKept(CLASH_POLICIES, CLASH_FIRST, CLASH_SECOND);
    OnlyFirstKept(CLASH_POLICIES, CLASH_SECOND, CLASH_FIRST);
    assert LatestAt([CLASH_FIRST.sample], 10) == Some(CLASH_FIRST.sample);
    assert LatestAt([CLASH_SECOND.sample], 10) == Some(CLASH_SECOND.sample);
  }

  /** Binary search for the insertion point. */
  method UpperBoundSample(samples: seq<Sample>, sample: Sample) returns (low: nat)
    requires Sorted(samples)
    ensures low <= |samples|
    ensures forall i :: 0 <= i < low ==> OrderedBeforeOrEqual(samples[i], sample)
    ensures forall i :: low <= i < |samples| ==> !OrderedBeforeOrEqual(samples[i], sample)
  {
    low := 0;
    var high := |samples|;
    while low < high
      invariant low <= high <= |samples|
      invariant forall i :: 0 <= i < low ==> OrderedBeforeOrEqual(samples[i], sample)
      invariant forall i :: high <= i < |samples| ==> !OrderedBeforeOrEqual(samples[i], sample)
    {
      var middle := (low + high) / 2;
      if OrderedBeforeOrEqual(samples[middle], sample) {
        low := middle + 1;
      } else {
        high := middle;
      }
    }
  }

  /** Binary search for the sample a price query judges: it finds what the linear scan finds. */
  method SampleAt(samples: seq<Sample>, t: int) returns (r: Option<Sample>)
    requires Sorted(samples)
    requires Distinct(samples)
    ensures r == LatestAt(samples, t)
  {
    var low, high := 0, |samples|;
    while low < high
      invariant 0 <= low <= high <= |samples|
      invariant forall i :: 0 <= i < low ==> samples[i].observedAt <= t
      invariant forall i :: high <= i < |samples| ==> samples[i].observedAt > t
    {
      var middle := (low + high) / 2;
      if samples[middle].observedAt <= t {
        low := middle + 1;
      } else {
        high := middle;
      }
    }
    if low == 0 {
      r := None;
    } else {
      r := Some(samples[low - 1]);
      ghost var best := LatestAt(samples, t);
      assert samples[low - 1] in samples;
      ghost var k :| 0 <= k < |samples| && samples[k] == best.value;
      assert k <= low - 1;
      assert OrderedBeforeOrEqual(samples[low - 1], samples[k]);
    }
  }

  class TrustedPriceBook {
    const policies: Policies
    var samples: map<Id, seq<Sample>>
    var sampleSequences: map<Id, set<int>>

    ghost function Contents(): Book
      reads this
    {
      Book(samples, sampleSequences)
    }

    ghost predicate Valid()
      reads this
    {
      BookValid(policies, Contents())
    }

    constructor (policies: Policies)
      ensures this.policies == policies && Contents() == EMPTY_BOOK && Valid()
    {
      this.policies := policies;
      samples := map[];
      sampleSequences := map[];
    }

    method Apply(sample: Sample, blockTimestamp: int)
      requires Valid()
      modifies this
      ensures Valid()
      ensures Contents() == Applied(policies, old(Contents()), Offer(sample, blockTimestamp))
    {
      hide Insert;
      AppliedKeepsValid(policies, Contents(), Offer(sample, blockTimestamp));
      var token := sample.token;
      if token !in policies {
        return;
      }
      var policy := policies[token];
      if sample.source != policy.source || sample.feedId != policy.feedId {
        return;
      }
      if sample.source != FixedTest && !sample.verified {
        return;
      }
      if sample.priceUsd <= 0 || sample.confidenceUsd < 0 || sample.observedAt > blockTimestamp + 30 {
        return;
      }
      var existing := if token in samples then samples[token] else [];
      var sequences := if token in sampleSequences then sampleSequences[token] else {};
      if sample.sequence in sequences {
        return;
      }
      var insertionIndex := UpperBoundSample(existing, sample);
      InsertAt(existing, sample, insertionIndex);
      samples := samples[token := existing[..insertionIndex] + [sample] + existing[insertionIndex..]];
      sampleSequences := sampleSequences[token := sequences + {sample.sequence}];
    }

    method Get(token: Id, at: int) returns (r: PriceResult)
      requires Valid()
      ensures r == Lookup(policies, Contents(), token, at)
    {
      if token !in policies {
        return PriceResult(None, MissingPolicy);
      }
      var policy := policies[token];
      var sample := SampleAt(if token in samples then samples[token] else [], at);
      if sample.None? {
        return PriceResult(None, MissingSample);
      }
      var s := sample.value;
      if s.observedAt > at || at - s.observedAt > policy.maxAgeSeconds {
        return PriceResult(None, Stale);
      }
      if s.confidenceUsd * BPS_SCALE > s.priceUsd * policy.maxConfidenceBps {
        return PriceResult(None, InvalidConfidence);
      }
      return PriceResult(Some(s.priceUsd), Available);
    }
  }
}
