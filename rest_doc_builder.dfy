/**
 * The REST Docs DSL of the shared test module (`RestDocBuilder`): a builder
 * collects the documentation snippets that `request { }` and `response { }`
 * blocks produce, and `restDoc` hands them to the documentation wrapper.
 * A snippet is opaque (the type parameter `S`); a request or response block
 * is represented by the snippets its inner builder ended up holding, and a
 * `restDoc` configuration block by the sequence of blocks it runs.
 */
module RestDoc {
  import opened Wrappers

  /** What a `RestDocRequestBuilder` holds after its block has run. */
  datatype RequestParts<S> = RequestParts(header: Option<S>, body: Option<S>, query: Option<S>)

  /** What a `RestDocResponseBuilder` holds after its block has run: it has no query snippet. */
  datatype ResponseParts<S> = ResponseParts(header: Option<S>, body: Option<S>)

  /** One block of a `restDoc` configuration. */
  datatype Block<S> = RequestBlock(request: RequestParts<S>) | ResponseBlock(response: ResponseParts<S>)

  /** The two documentation wrappers `restDoc` can hand over to. */
  datatype Wrapper = WebTestClient | MockMvc

  /** The arguments of the wrapper's `document(identifier, description, snippets)`. */
  datatype Document<S> = Document(wrapper: Wrapper, identifier: string, description: string, snippets: seq<S>)

  /** The present values of a sequence of optional slots, in slot order. */
  function Present<S>(slots: seq<Option<S>>): (r: seq<S>)
    ensures |r| == Count(slots)
    decreases |slots|
  {
    if slots == [] then []
    else
      (if slots[0].Some? then [slots[0].value] else []) + Present(slots[1..])
  }

  /** The number of present slots, counted independently of `Present` so that its length can be stated. */
  function Count<S>(slots: seq<Option<S>>): (n: nat)
    ensures n <= |slots|
    decreases |slots|
  {
    if slots == [] then 0
    else (if slots[0].Some? then 1 else 0) + Count(slots[1..])
  }

  /** The one-element sequence of a present slot, empty for an absent one: the effect of one `if (… != null) snippets.add(…)`. */
  function Opt<S>(slot: Option<S>): seq<S>
  {
    if slot.Some? then [slot.value] else []
  }

  lemma PresentTwo<S>(a: Option<S>, b: Option<S>)
    ensures Present([a, b]) == Opt(a) + Opt(b)
  {
  }

  lemma PresentThree<S>(a: Option<S>, b: Option<S>, c: Option<S>)
    ensures Present([a, b, c]) == Opt(a) + Opt(b) + Opt(c)
  {
    assert [a, b, c][1..] == [b, c];
    PresentTwo(b, c);
  }

  /** The snippets a request block contributes: header, body, query, the absent ones skipped. */
  function RequestSnippets<S>(parts: RequestParts<S>): seq<S>
  {
    Present([parts.header, parts.body, parts.query])
  }

  /** The snippets a response block contributes: header, body, the absent ones skipped. */
  function ResponseSnippets<S>(parts: ResponseParts<S>): seq<S>
  {
    Present([parts.header, parts.body])
  }

  function BlockSnippets<S>(block: Block<S>): seq<S>
  {
    match block
    case RequestBlock(parts) => RequestSnippets(parts)
    case ResponseBlock(parts) => ResponseSnippets(parts)
  }

  /** The optional slots a block offers, in the order the builder looks at them. */
  function BlockSlots<S>(block: Block<S>): seq<Option<S>>
  {
    match block
    case RequestBlock(parts) => [parts.header, parts.body, parts.query]
    case ResponseBlock(parts) => [parts.header, parts.body]
  }

  /** The snippets a sequence of blocks accumulates, block after block. */
  function Accumulated<S>(blocks: seq<Block<S>>): seq<S>
    decreases |blocks|
  {
    if blocks == [] then []
    else BlockSnippets(blocks[0]) + Accumulated(blocks[1..])
  }

  /** All slots of a sequence of blocks, flattened in order. */
  function AllSlots<S>(blocks: seq<Block<S>>): seq<Option<S>>
    decreases |blocks|
  {
    if blocks == [] then []
    else BlockSlots(blocks[0]) + AllSlots(blocks[1..])
  }

  class RestDocBuilder<S> {
    /** The snippets collected so far (`snippets`, a mutable list). */
    var snippets: seq<S>

    /** A fresh builder holds no snippets. */
    constructor ()
      ensures snippets == []
    {
      snippets := [];
    }

    /** `request { }`: appends the request block's header, body and query snippets, skipping absent ones. */
    method Request(parts: RequestParts<S>)
      modifies this
      ensures snippets == old(snippets) + RequestSnippets(parts)
    {
      PresentThree(parts.header, parts.body, parts.query);
      if parts.header.Some? { snippets := snippets + [parts.header.value]; }
      if parts.body.Some? { snippets := snippets + [parts.body.value]; }
      if parts.query.Some? { snippets := snippets + [parts.query.value]; }
    }

    /** `response { }`: appends the response block's header and body snippets, skipping absent ones. */
    method Response(parts: ResponseParts<S>)
      modifies this
      ensures snippets == old(snippets) + ResponseSnippets(parts)
    {
      PresentTwo(parts.header, parts.body);
      if parts.header.Some? { snippets := snippets + [parts.header.value]; }
      if parts.body.Some? { snippets := snippets + [parts.body.value]; }
    }
  }

  /**
   * `restDoc`: runs the configuration on a fresh builder and hands the
   * wrapper exactly the snippets it accumulated, in accumulation order.
   */
  method RestDoc<S>(wrapper: Wrapper, identifier: string, description: string, config: seq<Block<S>>)
    returns (d: Document<S>)
    ensures d == Document(wrapper, identifier, description, Accumulated(config))
  {
    var builder := new RestDocBuilder<S>();
    var i := 0;
    while i < |config|
      invariant 0 <= i <= |config|
      invariant builder.snippets == Accumulated(config[..i])
    {
      assert config[..i + 1] == config[..i] + [config[i]];
      AccumulatedSnoc(config[..i], config[i]);
      match config[i] {
        case RequestBlock(parts) => builder.Request(parts);
        case ResponseBlock(parts) => builder.Response(parts);
      }
      i := i + 1;
    }
    assert config[..|config|] == config;
    d := Document(wrapper, identifier, description, builder.snippets);
  }

  /** Present distributes over concatenation of slot sequences. */
  lemma {:induction false} PresentAppend<S>(a: seq<Option<S>>, b: seq<Option<S>>)
    ensures Present(a + b) == Present(a) + Present(b)
    decreases |a|
  {
    if a == [] {
      assert a + b == b;
    } else {
      assert (a + b)[1..] == a[1..] + b;
      PresentAppend(a[1..], b);
    }
  }

  /** The accumulated snippets are the present slots of all blocks, in order. */
  lemma {:induction false} AccumulatedIsPresentSlots<S>(blocks: seq<Block<S>>)
    ensures Accumulated(blocks) == Present(AllSlots(blocks))
    decreases |blocks|
  {
    if blocks != [] {
      AccumulatedIsPresentSlots(blocks[1..]);
      PresentAppend(BlockSlots(blocks[0]), AllSlots(blocks[1..]));
      match blocks[0]
      case RequestBlock(parts) =>
        assert BlockSnippets(blocks[0]) == Present(BlockSlots(blocks[0]));
      case ResponseBlock(parts) =>
        assert BlockSnippets(blocks[0]) == Present(BlockSlots(blocks[0]));
    }
  }

  /** Running more blocks only appends: earlier snippets stay, in their places. */
  lemma {:induction false} AccumulatedAppend<S>(a: seq<Block<S>>, b: seq<Block<S>>)
    ensures Accumulated(a + b) == Accumulated(a) + Accumulated(b)
    decreases |a|
  {
    if a == [] {
      assert a + b == b;
    } else {
      assert (a + b)[1..] == a[1..] + b;
      AccumulatedAppend(a[1..], b);
    }
  }

  /** Running one more block appends exactly that block's snippets. */
  lemma AccumulatedSnoc<S>(blocks: seq<Block<S>>, last: Block<S>)
    ensures Accumulated(blocks + [last]) == Accumulated(blocks) + BlockSnippets(last)
  {
    AccumulatedAppend(blocks, [last]);
    assert [last][1..] == [];
  }

  /** A request block adds between none and three snippets, one per present slot. */
  lemma RequestGrowth<S>(parts: RequestParts<S>)
    ensures |RequestSnippets(parts)| ==
            (if parts.header.Some? then 1 else 0) + (if parts.body.Some? then 1 else 0) + (if parts.query.Some? then 1 else 0)
    ensures |RequestSnippets(parts)| <= 3
  {
    PresentThree(parts.header, parts.body, parts.query);
  }

  /** A response block adds what a request block with the same header and body and no query would. */
  lemma ResponseIsRequestWithoutQuery<S>(parts: ResponseParts<S>)
    ensures ResponseSnippets(parts) == RequestSnippets(RequestParts(parts.header, parts.body, None))
    ensures |ResponseSnippets(parts)| <= 2
  {
    PresentTwo(parts.header, parts.body);
    PresentThree(parts.header, parts.body, None);
  }

  /** In a request block the header comes first, then the body, then the query: `PresentThree` on concrete slots. */
  lemma RequestOrder<S>(h: S, b: S, q: S)
    ensures RequestSnippets(RequestParts(Some(h), Some(b), Some(q))) == [h, b, q]
    ensures RequestSnippets(RequestParts(Some(h), None, Some(q))) == [h, q]
    ensures RequestSnippets(RequestParts(None, Some(b), Some(q))) == [b, q]
    ensures RequestSnippets(RequestParts(Some(h), Some(b), None)) == [h, b]
  {
    PresentThree(Some(h), Some(b), Some(q));
    PresentThree(Some(h), None, Some(q));
    PresentThree(None, Some(b), Some(q));
    PresentThree(Some(h), Some(b), None);
  }
}
