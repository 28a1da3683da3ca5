/** Blocks without a chain id, whose events name no source: each is retained as it came. */
module PlainBlocks {
  import opened Domain
  import opened Chain
  import opened Ingest

  /** Nothing in the block can repeat an earlier event or observe a pool. */
  predicate Plain(b: Block) {
    ValidBlock(b) && b.chainId.None? && forall e :: e in b.events ==> e.source.None?
  }

  ghost predicate AllPlain(blocks: seq<Block>) {
    forall b :: b in blocks ==> Plain(b)
  }

  lemma KeepPlain(kept: seq<Event>, known: map<SourceKey, Event>, e: Event)
    requires e.source.None?
    ensures Keep(Dedup(kept, map[], true), known, KeyIn(None, e), e) == Dedup(kept + [e], map[], true)
  {
  }

  lemma {:induction false} PlainKept(known: map<SourceKey, Event>, events: seq<Event>)
    requires forall i :: 0 <= i < |events| ==> events[i].source.None?
    ensures DedupAll(None, known, events) == Dedup(events, map[], true)
  {
    hide Keep, KeyIn;
    if events != [] {
      var init, last := events[..|events| - 1], events[|events| - 1];
      PlainKept(known, init);
      KeepPlain(init, known, last);
      assert events == init + [last];
    }
  }

  lemma PlainCanonical(b: Block, ctx: Context)
    requires Plain(b)
    ensures Canonicalize(b, ctx) == Some(b) && AddBlock(ctx, b) == Some(ctx)
  {
    PlainKept(ctx.sources, b.events);
    assert forall e :: e in b.events ==> ValidEvent(e, None) && !IsObservation(e);
  }

  lemma {:induction false} PlainContext(blocks: seq<Block>)
    requires AllPlain(blocks)
    ensures ContextOf(blocks) == Some(EMPTY_CONTEXT)
  {
    hide AddBlock, Plain;
    if blocks != [] {
      PlainContext(blocks[..|blocks| - 1]);
      PlainCanonical(blocks[|blocks| - 1], EMPTY_CONTEXT);
    }
  }

  /** A plain block above plain blocks is appended unchanged. */
  lemma PlainAppends(blocks: seq<Block>, b: Block)
    requires AllPlain(blocks) && Plain(b) && Follows(blocks, b)
    requires forall x :: x in blocks ==> x.hash != b.hash
    ensures PlanFor(blocks, b) == Append(b)
  {
    hide Canonicalize, ContextOf, ValidBlock;
    PlainContext(blocks);
    PlainCanonical(b, EMPTY_CONTEXT);
  }
}
