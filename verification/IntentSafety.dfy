/** What every run of the creation protocol keeps. */
module IntentSafety {
  import opened Wrappers
  import opened ChainBlocks
  import opened IntentProtocol

  /** An intent carries the nonce and call data it was submitted with, and so does its hash. */
  predicate Fits(w: World, i: Intent) {
    && i.id < |w.plans| && i.nonce == w.plans[i.id].nonce && i.call == w.plans[i.id].call
    && (i.txHash.Some? ==> i.txHash.value.nonce == i.nonce && i.txHash.value.call == i.call)
  }

  predicate RequestFits(w: World, q: Request) {
    q.intent < |w.plans| && q.nonce == w.plans[q.intent].nonce && q.call == w.plans[q.intent].call
  }

  ghost predicate GoodReceipt(w: World, r: Receipt, nonce: nat) {
    r.block.Block? && r.m in r.block.txs && GoodChain(w, r.block) && r.m.tx.nonce == nonce
  }

  /** What the recovery in flight has established so far. It counts as a replacement exactly when
      the intent itself has no transaction. */
  ghost predicate Evidence(w: World) {
    w.rec.Recovery? && !w.rec.progress.Started? ==>
      var r := w.rec.progress.receipt;
      && GoodReceipt(w, r, w.rec.intent.nonce)
      && (w.rec.progress.replaced <==> w.rec.intent.txHash.None?)
      && (w.rec.progress.replaced <==> r.m.tx.call != w.rec.intent.call)
      && (w.rec.progress.Finalized? ==> Height(r.block) <= Height(w.primary.finalized))
      && (w.rec.progress.Proven? ==> Ancestor(r.block, w.finalized))
  }

  ghost predicate ChainsGood(w: World) {
    && GoodChain(w, w.head) && Ancestor(w.finalized, w.head)
    && GoodView(w, w.primary) && GoodView(w, w.recovery)
  }

  ghost predicate RecordsFit(w: World) {
    && (forall r :: 0 <= r < |w.requests| ==> RequestFits(w, w.requests[r]))
    && (w.stored.Some? ==> Fits(w, w.stored.value))
    && (!w.busy.Idle? ==> Fits(w, w.busy.intent))
    && (w.busy.Prompted? ==> w.busy.request < |w.requests| && w.requests[w.busy.request].intent == w.busy.intent.id)
    && (w.rec.Recovery? ==> Fits(w, w.rec.intent))
  }

  ghost predicate Inv(w: World) {
    ChainsGood(w) && RecordsFit(w) && Evidence(w)
  }

  lemma StartGood()
    ensures Inv(START)
  {}

  // ---- one event keeps the invariant ----

  /** Chains stay good when requests are only added or answered for the first time. */
  ghost predicate AnswersKept(w: World, v: World) {
    |w.requests| <= |v.requests| && forall r :: 0 <= r < |w.requests| ==>
      && v.requests[r].nonce == w.requests[r].nonce && v.requests[r].call == w.requests[r].call
      && (w.requests[r].answer == SIGNED ==> v.requests[r].answer == SIGNED)
  }

  lemma ChainKept(w: World, v: World, b: Block)
    requires GoodChain(w, b) && AnswersKept(w, v)
    ensures GoodChain(v, b)
  {
    forall i | 0 <= i < |Txs(b)| ensures SignedTx(v, Txs(b)[i].tx) {
      assert SignedTx(w, Txs(b)[i].tx);
    }
  }

  lemma ReceiptKept(w: World, v: World)
    requires Evidence(w) && AnswersKept(w, v)
    ensures w.rec.Recovery? && !w.rec.progress.Started? ==> GoodReceipt(v, w.rec.progress.receipt, w.rec.intent.nonce)
  {
    hide GoodChain, AnswersKept;
    if w.rec.Recovery? && !w.rec.progress.Started? {
      ChainKept(w, v, w.rec.progress.receipt.block);
    }
  }

  lemma ChainsKept(w: World, v: World)
    requires ChainsGood(w) && AnswersKept(w, v)
    requires v.finalized == w.finalized && v.head == w.head && v.primary == w.primary && v.recovery == w.recovery
    ensures ChainsGood(v)
  {
    hide GoodChain, AnswersKept, Ancestor;
    ChainKept(w, v, w.head);
    ChainKept(w, v, w.primary.head);
    ChainKept(w, v, w.recovery.head);
  }

  lemma FinalizeKeeps(w: World, b: Block)
    requires Inv(w) && Enabled(w, Finalize(b))
    ensures Inv(Next(w, Finalize(b)))
  {
    hide GoodChain, Txs;
    AncestorTransitive(w.primary.finalized, w.finalized, b);
    AncestorTransitive(w.recovery.finalized, w.finalized, b);
    var v := Next(w, Finalize(b));
    ChainKept(w, v, w.head);
    ChainKept(w, v, w.primary.head);
    ChainKept(w, v, w.recovery.head);
    ReceiptKept(w, v);
    if w.rec.Recovery? && w.rec.progress.Proven? {
      AncestorTransitive(w.rec.progress.receipt.block, w.finalized, b);
    }
  }

  lemma GrowKeeps(w: World, b: Block)
    requires Inv(w) && Enabled(w, Grow(b))
    ensures Inv(Next(w, Grow(b)))
  {
    hide Txs;
    var v := Next(w, Grow(b));
    ChainKept(w, v, b);
    ReceiptKept(w, v);
    ChainKept(w, v, w.primary.head);
    ChainKept(w, v, w.recovery.head);
  }

  lemma ViewsKeep(w: World, e: Event)
    requires Inv(w) && Enabled(w, e) && (e.PrimaryMoves? || e.RecoveryMoves?)
    ensures Inv(Next(w, e))
  {
    hide Txs;
    var v := Next(w, e);
    ChainKept(w, v, w.head);
    ChainKept(w, v, v.primary.head);
    ChainKept(w, v, v.recovery.head);
    ReceiptKept(w, v);
    if e.PrimaryMoves? {
      AncestorTxs(w.primary.finalized, v.primary.finalized);
    }
  }

  predicate ChainEvent(e: Event) {
    e.Grow? || e.Finalize? || e.PrimaryMoves? || e.RecoveryMoves?
  }

  predicate WalletEvent(e: Event) {
    e.Sign? || e.Reject? || e.WalletAnswers? || e.WalletRejects? || e.Timeout? || e.LateHash? || e.Reload?
  }

  predicate PageEvent(e: Event) {
    e.Submit? || e.RetryStart? || e.RetrySend? || e.Clear?
  }

  lemma RequestsFit(w: World, e: Event)
    requires RecordsFit(w) && Enabled(w, e) && WalletEvent(e)
    ensures forall r :: 0 <= r < |Next(w, e).requests| ==> RequestFits(Next(w, e), Next(w, e).requests[r])
    ensures AnswersKept(w, Next(w, e)) && Next(w, e).plans == w.plans
  {
    hide GoodChain, GoodView, Ancestor, Reports, BothFinalized, BothAt, Confirmed, PastNonce, Fits;
    forall r | 0 <= r < |Next(w, e).requests| ensures RequestFits(w, Next(w, e).requests[r]) {
      assert RequestFits(w, w.requests[r]);
    }
  }

  lemma WalletRecords(w: World, e: Event)
    requires RecordsFit(w) && Enabled(w, e) && WalletEvent(e)
    ensures RecordsFit(Next(w, e)) && AnswersKept(w, Next(w, e))
  {
    hide GoodChain, GoodView, Ancestor, Reports, BothFinalized, BothAt, Confirmed, PastNonce, AnswersKept;
    RequestsFit(w, e);
    if e.LateHash? {
      assert RequestFits(w, w.requests[e.request]);
    }
    if e.WalletAnswers? {
      assert RequestFits(w, w.requests[w.busy.request]);
    }
  }

  lemma PageRecords(w: World, e: Event)
    requires RecordsFit(w) && Enabled(w, e) && PageEvent(e)
    ensures RecordsFit(Next(w, e)) && AnswersKept(w, Next(w, e))
  {
    hide GoodChain, GoodView, Ancestor, Reports, BothFinalized, BothAt, Confirmed, PastNonce;
    forall r | 0 <= r < |w.requests| ensures RequestFits(Next(w, e), w.requests[r]) {
      assert RequestFits(w, w.requests[r]);
    }
  }

  lemma RecoveryRecords(w: World, e: Event)
    requires RecordsFit(w) && Enabled(w, e) && !ChainEvent(e) && !WalletEvent(e) && !PageEvent(e)
    ensures RecordsFit(Next(w, e)) && AnswersKept(w, Next(w, e))
  {
    hide GoodChain, GoodView, Ancestor, Reports, BothFinalized, BothAt, Confirmed, PastNonce;
  }

  lemma RecordsKept(w: World, e: Event)
    requires RecordsFit(w) && Enabled(w, e) && !ChainEvent(e)
    ensures RecordsFit(Next(w, e)) && AnswersKept(w, Next(w, e))
  {
    hide RecordsFit, Enabled, Next, AnswersKept;
    if WalletEvent(e) {
      WalletRecords(w, e);
    } else if PageEvent(e) {
      PageRecords(w, e);
    } else {
      RecoveryRecords(w, e);
    }
  }

  lemma SignedAncestor(w: World, a: Block, b: Block)
    requires GoodChain(w, b) && Ancestor(a, b)
    ensures GoodChain(w, a)
  {
    AncestorTxs(a, b);
    OrderedAncestor(a, b);
    forall i | 0 <= i < |Txs(a)| ensures SignedTx(w, Txs(a)[i].tx) {
      assert Txs(a)[i] == Txs(b)[i];
    }
  }

  /** A reported receipt is of a block of a good chain. */
  lemma ReportedGood(w: World, v: View, r: Receipt, nonce: nat)
    requires GoodView(w, v) && Reports(v, r) && r.m.tx.nonce == nonce
    ensures GoodReceipt(w, r, nonce)
  {
    SignedAncestor(w, r.block, v.head);
  }

  /** A block that both views have finalized and still show at its height is finalized. */
  lemma CanonicalFinal(w: World, b: Block)
    requires GoodView(w, w.primary) && Height(b) <= Height(w.primary.finalized) && BothAt(w, b)
    ensures Ancestor(b, w.finalized)
  {
    hide GoodChain;
    var f := w.primary.finalized;
    SameBranch(f, w.primary.head, Height(b));
    AtHeightAncestor(f, Height(b));
    AncestorTransitive(b, f, w.finalized);
  }

  lemma ReceiptEvidence(w: World, tx: Tx, receipt: Receipt)
    requires Inv(w) && Enabled(w, RecoverReceipt(tx, receipt))
    ensures Evidence(Next(w, RecoverReceipt(tx, receipt)))
  {
    hide GoodChain, Txs, Ancestor;
    var v := Next(w, RecoverReceipt(tx, receipt));
    if Reports(w.primary, receipt) {
      ReportedGood(w, w.primary, receipt, w.rec.intent.nonce);
    } else {
      ReportedGood(w, w.recovery, receipt, w.rec.intent.nonce);
    }
    ChainKept(w, v, receipt.block);
  }

  lemma EvidenceKept(w: World, e: Event)
    requires Inv(w) && Enabled(w, e) && !ChainEvent(e) && AnswersKept(w, Next(w, e))
    ensures Evidence(Next(w, e))
  {
    hide GoodChain, GoodView, Txs, AnswersKept, RecordsFit, Reports, Confirmed, PastNonce;
    match e {
      case RecoverReceipt(tx, receipt) => ReceiptEvidence(w, tx, receipt);
      case RecoverCanonical =>
        ReceiptKept(w, Next(w, e));
        CanonicalFinal(w, w.rec.progress.receipt.block);
      case _ => ReceiptKept(w, Next(w, e));
    }
  }

  lemma StepKeeps(w: World, e: Event)
    requires Inv(w) && Enabled(w, e)
    ensures Inv(Next(w, e))
  {
    hide ChainsGood, RecordsFit, Evidence, GoodChain, GoodView, Ancestor;
    match e {
      case Grow(b) => GrowKeeps(w, b);
      case Finalize(b) => FinalizeKeeps(w, b);
      case PrimaryMoves(_) => ViewsKeep(w, e);
      case RecoveryMoves(_) => ViewsKeep(w, e);
      case _ =>
        RecordsKept(w, e);
        SameChains(w, e);
        ChainsKept(w, Next(w, e));
        EvidenceKept(w, e);
    }
  }

  lemma SameChains(w: World, e: Event)
    requires !ChainEvent(e)
    ensures var v := Next(w, e);
      v.finalized == w.finalized && v.head == w.head && v.primary == w.primary && v.recovery == w.recovery
  {}

  lemma {:induction false} RunKeeps(w: World, es: seq<Event>)
    requires Inv(w) && Happens(w, es)
    ensures Inv(After(w, es))
    decreases |es|
  {
    hide Inv, Enabled, Next;
    if es != [] {
      StepKeeps(w, es[0]);
      RunKeeps(Next(w, es[0]), es[1..]);
    }
  }

  // ---- the two promises ----

  /** Whenever a recovery concludes, in any run whatever, a finalized transaction of the sender has
      spent the nonce of the intent it was started for. */
  lemma ConcludesOnFinality(es: seq<Event>)
    requires Happens(START, es) && Enabled(After(START, es), RecoverConclude)
    ensures var w := After(START, es); Spent(w.finalized, w.rec.intent.nonce)
  {
    hide Happens, After, Next;
    StartGood();
    RunKeeps(START, es);
    ProvenSpent(After(START, es));
  }

  lemma ProvenSpent(w: World)
    requires Inv(w) && w.rec.Recovery? && w.rec.progress.Proven?
    ensures Spent(w.finalized, w.rec.intent.nonce)
  {
    hide Txs;
    var r := w.rec.progress.receipt;
    OrderedAncestor(w.finalized, w.head);
    UsedIsSpent(r.block, w.finalized, r.m);
  }

  predicate OfIntent(w: World, tx: Tx, id: nat) {
    tx.origin.Page? && tx.origin.request < |w.requests| && w.requests[tx.origin.request].intent == id
  }

  /** However often an intent was retried and however late its signatures are broadcast, a chain
      holds at most one of its transactions, in the place of its nonce. */
  lemma AtMostOneLands(es: seq<Event>, chain: Block, id: nat, i: nat, j: nat)
    requires Happens(START, es) && GoodChain(After(START, es), chain)
    requires i < |Txs(chain)| && j < |Txs(chain)|
    requires OfIntent(After(START, es), Txs(chain)[i].tx, id) && OfIntent(After(START, es), Txs(chain)[j].tx, id)
    ensures i == j && id < |After(START, es).plans| && i == After(START, es).plans[id].nonce
  {
    hide Happens, After, Next, ChainsGood, Evidence;
    StartGood();
    RunKeeps(START, es);
    LandsAtNonce(After(START, es), chain, id, i);
    LandsAtNonce(After(START, es), chain, id, j);
  }

  lemma LandsAtNonce(w: World, chain: Block, id: nat, i: nat)
    requires RecordsFit(w) && GoodChain(w, chain) && i < |Txs(chain)| && OfIntent(w, Txs(chain)[i].tx, id)
    ensures id < |w.plans| && i == w.plans[id].nonce
  {
    var tx := Txs(chain)[i].tx;
    assert SignedTx(w, tx) && RequestFits(w, w.requests[tx.origin.request]);
  }
}
