/** The catch-up scan: blocks from the sealed height to the node's tip, with the reorg check and
    a seal per block, against nodes that may fail at any call. */
module Sync {
  import opened Prelude
  import opened Chain
  import opened IndexSpec
  import opened IndexTheorems
  import opened Indexer
  import opened Snapshot

  datatype Block = Block(prev: nat, txs: seq<Tx>)

  /** What the node answers about one height: either of the two calls may fail. */
  datatype Reply = NoHash | NoBlock | Got(hash: nat, block: Block)

  /** The node, as one scan sees it. */
  datatype Node = Node(tip: Option<nat>, reply: nat -> Reply)

  datatype SyncError = NodeError | Reorg(height: nat)

  type Scanned = Result<seq<Notice>, SyncError>

  /** What a block does to the index, and what it reports. The laws of scanning below hold
      whatever these are. */
  datatype Player = Player(play: (nat, Index, seq<Tx>) -> Index, tell: (nat, Index, seq<Tx>) -> seq<Notice>)

  // ----- one scan

  /** A sealed state after one more block. */
  function Extended(p: Player, s: Sealed, hash: nat, block: Block): Sealed {
    Sealed(s.height + 1, hash, p.play(s.height + 1, s.st, block.txs))
  }

  /** Where a scan ends: the sealed state it leaves, and its result. */
  datatype Ended = Ended(s: Sealed, r: Scanned)

  /** Scan on from `s` to `tip`. */
  function Walk(p: Player, node: Node, s: Sealed, tip: nat, notices: seq<Notice>): Ended
    decreases SatSub(tip, s.height)
  {
    if s.height >= tip then Ended(s, Ok(notices))
    else
      var h := s.height + 1;
      match node.reply(h)
      case NoHash => Ended(s, Err(NodeError))
      case NoBlock => Ended(s, Err(NodeError))
      case Got(hash, block) =>
        if block.prev != s.tip then Ended(s, Err(Reorg(h)))
        else Walk(p, node, Extended(p, s, hash, block), tip, notices + p.tell(h, s.st, block.txs))
  }

  function Caught(p: Player, node: Node, s: Sealed): Ended {
    if node.tip.None? then Ended(s, Err(NodeError)) else Walk(p, node, s, node.tip.value, [])
  }

  function ViewOf(state: IndexState): Sealed reads state { Sealed(state.height, state.tip, state.View()) }

  method CatchUp(node: Node, owners: seq<Key>, state: IndexState) returns (r: Scanned)
    modifies state
    ensures Ended(ViewOf(state), r) == Caught(PlayerOf(state.validKey, owners), node, old(ViewOf(state)))
  {
    if node.tip.None? { return Err(NodeError); }
    PlayerPlays(state.validKey, owners);
    r := ScanBlocks(node, owners, state, node.tip.value, PlayerOf(state.validKey, owners));
  }

  /** The block loop. */
  method ScanBlocks(node: Node, owners: seq<Key>, state: IndexState, tip: nat, ghost p: Player) returns (r: Scanned)
    requires Plays(p, state.validKey, owners)
    modifies state
    ensures Ended(ViewOf(state), r) == Walk(p, node, old(ViewOf(state)), tip, [])
  {
    var notices: seq<Notice> := [];
    var h: nat := state.height + 1;
    while h <= tip
      invariant h == state.height + 1
      invariant Walk(p, node, ViewOf(state), tip, notices) == Walk(p, node, old(ViewOf(state)), tip, [])
    {
      var reply := node.reply(h);
      if !reply.Got? { return Err(NodeError); }
      if reply.block.prev != state.tip { return Err(Reorg(h)); }
      var more := ExtendBy(state, owners, reply.hash, reply.block, p);
      notices := notices + more;
      h := h + 1;
    }
    r := Ok(notices);
  }

  /** Apply one block and seal it. */
  method ExtendBy(state: IndexState, owners: seq<Key>, hash: nat, block: Block,
                  ghost p: Player) returns (notices: seq<Notice>)
    requires Plays(p, state.validKey, owners)
    modifies state
    ensures ViewOf(state) == Extended(p, old(ViewOf(state)), hash, block)
    ensures notices == p.tell(old(state.height) + 1, old(state.View()), block.txs)
  {
    var h := state.height + 1;
    notices := ApplyBlock(state, owners, h, block.txs);
    state.Seal(h, hash);
  }

  method ApplyBlock(state: IndexState, owners: seq<Key>, h: nat, txs: seq<Tx>) returns (notices: seq<Notice>)
    modifies state
    ensures state.height == old(state.height) && state.tip == old(state.tip)
    ensures state.View() == PlayBlock(state.validKey, owners, h, old(state.View()), txs)
    ensures notices == BlockNotices(state.validKey, owners, h, old(state.View()), txs)
  {
    notices := [];
    for i := 0 to |txs|
      invariant state.height == old(state.height) && state.tip == old(state.tip)
      invariant state.View() == PlayBlock(state.validKey, owners, h, old(state.View()), txs[..i])
      invariant notices == BlockNotices(state.validKey, owners, h, old(state.View()), txs[..i])
    {
      assert txs[..i + 1][..i] == txs[..i];
      var more := state.ApplyTx(owners, h, txs[i]);
      notices := notices + more;
    }
    assert txs[..|txs|] == txs;
  }

  // ----- what the indexer does with a block

  ghost function PlayBlock(validKey: Key -> bool, owners: seq<Key>, h: nat, st: Index, txs: seq<Tx>): Index {
    if txs == [] then st
    else
      var n := |txs| - 1;
      Apply(validKey, owners, h, PlayBlock(validKey, owners, h, st, txs[..n]), txs[n]).st
  }

  ghost function BlockNotices(validKey: Key -> bool, owners: seq<Key>, h: nat, st: Index, txs: seq<Tx>): seq<Notice> {
    if txs == [] then []
    else
      var n := |txs| - 1;
      var before := PlayBlock(validKey, owners, h, st, txs[..n]);
      BlockNotices(validKey, owners, h, st, txs[..n])
      + Stamp(h, txs[n].txid, Apply(validKey, owners, h, before, txs[n]).ev)
  }

  ghost function PlayerOf(validKey: Key -> bool, owners: seq<Key>): Player {
    Player((h: nat, st: Index, txs: seq<Tx>) => PlayBlock(validKey, owners, h, st, txs),
           (h: nat, st: Index, txs: seq<Tx>) => BlockNotices(validKey, owners, h, st, txs))
  }

  /** The player does what the indexer does. */
  ghost predicate Plays(p: Player, validKey: Key -> bool, owners: seq<Key>) {
    forall h: nat, st, txs {:trigger PlayBlock(validKey, owners, h, st, txs)} ::
      && p.play(h, st, txs) == PlayBlock(validKey, owners, h, st, txs)
      && p.tell(h, st, txs) == BlockNotices(validKey, owners, h, st, txs)
  }

  lemma PlayerPlays(validKey: Key -> bool, owners: seq<Key>)
    ensures Plays(PlayerOf(validKey, owners), validKey, owners)
  {
  }

  // ----- the chain

  datatype Link = Link(hash: nat, block: Block)

  /** A chain above its genesis hash: the block of height h is links[h - 1]. */
  datatype Blockchain = Blockchain(genesis: nat, links: seq<Link>) {
    function HashAt(h: nat): nat
      requires h <= |links|
    {
      if h == 0 then genesis else links[h - 1].hash
    }

    /** Every block names the one below it. */
    ghost predicate Linked() { forall h: nat :: h < |links| ==> Extends(h) }

    /** The block above height `h` names the one at it. */
    ghost predicate Extends(h: nat)
      requires h < |links|
    {
      links[h].block.prev == HashAt(h)
    }
  }

  /** The node serves this chain: any call may fail, and its tip may lag, but what it answers is
      the chain's. */
  ghost predicate Serves(node: Node, c: Blockchain) {
    && (node.tip.Some? ==> node.tip.value <= |c.links|)
    && forall i: nat :: i < |c.links| ==>
         node.reply(i + 1).Got? ==> node.reply(i + 1) == Got(c.links[i].hash, c.links[i].block)
  }

  /** The state one uninterrupted scan from an empty index has when it seals height `h`. */
  function ScanTo(p: Player, c: Blockchain, h: nat): Sealed
    requires h <= |c.links|
  {
    if h == 0 then Sealed(0, c.genesis, EMPTY)
    else Extended(p, ScanTo(p, c, h - 1), c.links[h - 1].hash, c.links[h - 1].block)
  }

  lemma {:induction false} ScanToSeals(p: Player, c: Blockchain, h: nat)
    requires h <= |c.links|
    ensures ScanTo(p, c, h).height == h && ScanTo(p, c, h).tip == c.HashAt(h)
  {
    if h > 0 {
      ScanToSeals(p, c, h - 1);
    }
  }

  ghost predicate OnChain(p: Player, c: Blockchain, s: Sealed) {
    s.height <= |c.links| && s == ScanTo(p, c, s.height)
  }

  /** The notices of the blocks in (lo, hi], as one scan gives them. */
  function NoticesOf(p: Player, c: Blockchain, lo: nat, hi: nat): seq<Notice>
    requires lo <= hi && hi <= |c.links|
    decreases hi
  {
    if lo == hi then []
    else NoticesOf(p, c, lo, hi - 1) + p.tell(hi, ScanTo(p, c, hi - 1).st, c.links[hi - 1].block.txs)
  }

  lemma {:induction false} NoticesJoin(p: Player, c: Blockchain, a: nat, b: nat, d: nat)
    requires a <= b <= d <= |c.links|
    ensures NoticesOf(p, c, a, d) == NoticesOf(p, c, a, b) + NoticesOf(p, c, b, d)
    decreases d
  {
    if b < d {
      NoticesJoin(p, c, a, b, d - 1);
    }
  }

  /** What a scan that stays on the chain guarantees. */
  ghost predicate Stays(p: Player, c: Blockchain, s: Sealed, tip: nat, notices: seq<Notice>, e: Ended) {
    && OnChain(p, c, e.s) && s.height <= e.s.height
    && (e.r.Err? ==> e.r.error == NodeError)
    && (e.r.Ok? ==> e.s.height == Max(s.height, tip) && e.r.value == notices + NoticesOf(p, c, s.height, e.s.height))
  }

  lemma StaysFromNext(p: Player, c: Blockchain, s: Sealed, tip: nat, notices: seq<Notice>, e: Ended)
    requires s.height < tip <= |c.links| && OnChain(p, c, s)
    requires Stays(p, c, ScanTo(p, c, s.height + 1), tip,
                   notices + p.tell(s.height + 1, s.st, c.links[s.height].block.txs), e)
    ensures Stays(p, c, s, tip, notices, e)
  {
    var h := s.height + 1;
    var more := p.tell(h, s.st, c.links[s.height].block.txs);
    ScanToSeals(p, c, h);
    NoticesJoin(p, c, s.height, h, e.s.height);
    assert NoticesOf(p, c, s.height, h) == more;
    assert notices + (more + NoticesOf(p, c, h, e.s.height)) == (notices + more) + NoticesOf(p, c, h, e.s.height);
  }

  /** A scan of a served chain stays on it: it never reports a reorg, never moves back, and if
      it succeeds it has reached the tip and reports exactly the notices of the new blocks. */
  lemma {:induction false} WalkStaysOnChain(p: Player, c: Blockchain, node: Node, s: Sealed, tip: nat,
                                            notices: seq<Notice>)
    requires c.Linked() && Serves(node, c) && OnChain(p, c, s) && tip <= |c.links|
    ensures Stays(p, c, s, tip, notices, Walk(p, node, s, tip, notices))
    decreases SatSub(tip, s.height)
  {
    if s.height >= tip {
      assert notices + [] == notices;
    } else if node.reply(s.height + 1).Got? {
      var h := s.height + 1;
      ScanToSeals(p, c, s.height);
      ScanToSeals(p, c, h);
      assert c.Extends(s.height);
      var more := notices + p.tell(h, s.st, c.links[s.height].block.txs);
      WalkStaysOnChain(p, c, node, ScanTo(p, c, h), tip, more);
      StaysFromNext(p, c, s, tip, notices, Walk(p, node, ScanTo(p, c, h), tip, more));
    }
  }

  lemma CaughtStaysOnChain(p: Player, c: Blockchain, node: Node, s: Sealed)
    requires c.Linked() && Serves(node, c) && OnChain(p, c, s)
    ensures var e := Caught(p, node, s);
            && OnChain(p, c, e.s) && s.height <= e.s.height
            && (e.r.Err? ==> e.r.error == NodeError)
            && (e.r.Ok? ==> && node.tip.Some? && e.s == ScanTo(p, c, Max(s.height, node.tip.value))
                            && e.r.value == NoticesOf(p, c, s.height, e.s.height))
  {
    if node.tip.Some? {
      WalkStaysOnChain(p, c, node, s, node.tip.value, []);
    }
  }

  /** Every height the scan asks for is answered. */
  ghost predicate Answered(node: Node, lo: nat, tip: nat) {
    forall h: nat :: lo < h <= tip ==> node.reply(h).Got?
  }

  lemma AnsweredFromNext(node: Node, lo: nat, tip: nat)
    requires lo < tip
    ensures Answered(node, lo, tip) <==> node.reply(lo + 1).Got? && Answered(node, lo + 1, tip)
  {
    if node.reply(lo + 1).Got? && Answered(node, lo + 1, tip) {
      forall h: nat | lo < h <= tip ensures node.reply(h).Got? {
        assert h == lo + 1 || lo + 1 < h;
      }
    }
  }

  lemma {:induction false} WalkSucceedsIffAnswered(p: Player, c: Blockchain, node: Node, s: Sealed, tip: nat,
                                                   notices: seq<Notice>)
    requires c.Linked() && Serves(node, c) && OnChain(p, c, s) && tip <= |c.links|
    ensures Walk(p, node, s, tip, notices).r.Ok? <==> Answered(node, s.height, tip)
    decreases SatSub(tip, s.height)
  {
    if s.height < tip {
      var h := s.height + 1;
      if node.reply(h).Got? {
        ScanToSeals(p, c, s.height);
        ScanToSeals(p, c, h);
        assert c.Extends(s.height);
        WalkSucceedsIffAnswered(p, c, node, ScanTo(p, c, h), tip,
                                notices + p.tell(h, s.st, c.links[s.height].block.txs));
      }
      AnsweredFromNext(node, s.height, tip);
    }
  }

  /** A scan of a served chain succeeds exactly when the node tells its tip and answers for every
      height up to it; it has then sealed the tip and reports the notices of the new blocks. */
  lemma ScanSucceedsIffAnswered(p: Player, c: Blockchain, node: Node, s: Sealed)
    requires c.Linked() && Serves(node, c) && OnChain(p, c, s)
    ensures Caught(p, node, s).r.Ok? <==> node.tip.Some? && Answered(node, s.height, node.tip.value)
    ensures node.tip.Some? && Answered(node, s.height, node.tip.value) ==>
              var end := ScanTo(p, c, Max(s.height, node.tip.value));
              end.height == Max(s.height, node.tip.value)
              && Caught(p, node, s) == Ended(end, Ok(NoticesOf(p, c, s.height, end.height)))
  {
    if node.tip.Some? {
      WalkSucceedsIffAnswered(p, c, node, s, node.tip.value, []);
      CaughtStaysOnChain(p, c, node, s);
      ScanToSeals(p, c, Max(s.height, node.tip.value));
    }
  }

  /** The reorg check, both ways: with the next block in hand, a scan stops for a reorg at once
      exactly when the sealed tip is not the chain's. */
  lemma ReorgIsSeen(p: Player, c: Blockchain, node: Node, s: Sealed)
    requires c.Linked() && Serves(node, c) && s.height < |c.links|
    requires node.tip.Some? && s.height < node.tip.value && node.reply(s.height + 1).Got?
    ensures Caught(p, node, s) == Ended(s, Err(Reorg(s.height + 1))) <==> s.tip != c.HashAt(s.height)
  {
    var h := s.height + 1;
    assert c.Extends(s.height);
    if s.tip == c.HashAt(s.height) {
      WalkAdvances(p, node, Extended(p, s, c.links[h - 1].hash, c.links[h - 1].block), node.tip.value,
                   [] + p.tell(h, s.st, c.links[h - 1].block.txs));
    }
  }

  lemma {:induction false} WalkAdvances(p: Player, node: Node, s: Sealed, tip: nat, notices: seq<Notice>)
    ensures Walk(p, node, s, tip, notices).s.height >= s.height
    decreases SatSub(tip, s.height)
  {
    var reply := node.reply(s.height + 1);
    if s.height < tip && reply.Got? && reply.block.prev == s.tip {
      WalkAdvances(p, node, Extended(p, s, reply.hash, reply.block), tip,
                   notices + p.tell(s.height + 1, s.st, reply.block.txs));
    }
  }

  /** A failed scan keeps the blocks it sealed but returns none of their notices, and the next
      successful one returns only its own: together they return everything exactly when the
      sealed blocks had no notices. */
  lemma FailedScanDropsNotices(p: Player, c: Blockchain, first: Node, second: Node, s: Sealed)
    requires c.Linked() && Serves(first, c) && Serves(second, c) && OnChain(p, c, s)
    requires Caught(p, first, s).r.Err? && Caught(p, second, Caught(p, first, s).s).r.Ok?
    ensures var mid := Caught(p, first, s).s;
            var e := Caught(p, second, mid);
            && s.height <= mid.height <= e.s.height <= |c.links|
            && (e.r.value == NoticesOf(p, c, s.height, e.s.height) <==> NoticesOf(p, c, s.height, mid.height) == [])
  {
    CaughtStaysOnChain(p, c, first, s);
    var mid := Caught(p, first, s).s;
    CaughtStaysOnChain(p, c, second, mid);
    var end := Caught(p, second, mid).s;
    NoticesJoin(p, c, s.height, mid.height, end.height);
    var dropped, rest := NoticesOf(p, c, s.height, mid.height), NoticesOf(p, c, mid.height, end.height);
    assert |dropped + rest| == |dropped| + |rest|;
  }
}
