/** The transactions of one sender in a tree of blocks. A block stands for its own hash: it fixes
    its transactions and every block before it. */
module ChainBlocks {

  /** Where a transaction was signed for: a request of the page, or something else. */
  datatype Origin = Page(request: nat) | Foreign(salt: nat)

  /** Call data: the creation of a market, or anything else. */
  datatype Call = Creation(data: nat) | OtherCall(data: nat)

  datatype Tx = Tx(nonce: nat, call: Call, origin: Origin)

  datatype Mined = Mined(tx: Tx, ok: bool)

  datatype Block = Genesis | Block(parent: Block, salt: nat, txs: seq<Mined>)

  function Height(b: Block): nat {
    if b.Genesis? then 0 else Height(b.parent) + 1
  }

  function Txs(b: Block): seq<Mined> {
    if b.Genesis? then [] else Txs(b.parent) + b.txs
  }

  predicate Ancestor(a: Block, b: Block) {
    a == b || (b.Block? && Ancestor(a, b.parent))
  }

  /** The block of `b`'s branch at a height. */
  function AtHeight(b: Block, h: nat): Block {
    if b.Genesis? || Height(b) <= h then b else AtHeight(b.parent, h)
  }

  /** A chain takes each nonce of the sender once, in order. */
  ghost predicate NoncesInOrder(b: Block) {
    forall i :: 0 <= i < |Txs(b)| ==> Txs(b)[i].tx.nonce == i
  }

  predicate Spent(b: Block, nonce: nat) {
    |Txs(b)| > nonce
  }

  lemma {:induction false} AncestorTxs(a: Block, b: Block)
    requires Ancestor(a, b)
    ensures |Txs(a)| <= |Txs(b)| && Txs(a) == Txs(b)[..|Txs(a)|] && Height(a) <= Height(b)
    decreases b
  {
    if a != b {
      AncestorTxs(a, b.parent);
    }
  }

  lemma {:induction false} AncestorTransitive(a: Block, b: Block, c: Block)
    requires Ancestor(a, b) && Ancestor(b, c)
    ensures Ancestor(a, c)
    decreases c
  {
    if b != c {
      AncestorTransitive(a, b, c.parent);
    }
  }

  /** Two ancestors of one block are on one branch. */
  lemma {:induction false} Comparable(a: Block, b: Block, c: Block)
    requires Ancestor(a, c) && Ancestor(b, c)
    ensures Ancestor(a, b) || Ancestor(b, a)
    decreases c
  {
    if a != c && b != c {
      Comparable(a, b, c.parent);
    }
  }

  lemma {:induction false} AtHeightAncestor(b: Block, h: nat)
    ensures Ancestor(AtHeight(b, h), b) && (h <= Height(b) ==> Height(AtHeight(b, h)) == h)
    decreases b
  {
    if b.Block? && Height(b) > h {
      AtHeightAncestor(b.parent, h);
    }
  }

  /** On one branch, the block at a height not above an ancestor is that ancestor's. */
  lemma {:induction false} SameBranch(a: Block, b: Block, h: nat)
    requires Ancestor(a, b) && h <= Height(a)
    ensures AtHeight(b, h) == AtHeight(a, h)
    decreases b
  {
    if a != b {
      AncestorTxs(a, b.parent);
      SameBranch(a, b.parent, h);
    }
  }

  lemma OrderedAncestor(a: Block, b: Block)
    requires NoncesInOrder(b) && Ancestor(a, b)
    ensures NoncesInOrder(a)
  {
    AncestorTxs(a, b);
  }

  /** A nonce that a block's own transactions use is spent from that block on. */
  lemma UsedIsSpent(a: Block, b: Block, m: Mined)
    requires NoncesInOrder(b) && Ancestor(a, b) && a.Block? && m in a.txs
    ensures Spent(b, m.tx.nonce)
  {
    AncestorTxs(a, b);
    OrderedAncestor(a, b);
    var i :| 0 <= i < |a.txs| && a.txs[i] == m;
    assert Txs(a)[|Txs(a.parent)| + i] == m;
  }

  lemma SpentForever(a: Block, b: Block, nonce: nat)
    requires Ancestor(a, b) && Spent(a, nonce)
    ensures Spent(b, nonce)
  {
    AncestorTxs(a, b);
  }

  /** Once a nonce is spent in `a`, every later chain has the same transaction for it. */
  lemma SpentIsFixed(a: Block, b: Block, nonce: nat)
    requires Ancestor(a, b) && Spent(a, nonce)
    ensures Spent(b, nonce) && Txs(b)[nonce] == Txs(a)[nonce]
  {
    AncestorTxs(a, b);
  }
}
