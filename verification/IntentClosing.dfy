/** When closing an intent is final: as long as nothing is submitted while a recovery is in flight
    that can still interfere, and exactly then. */
module IntentClosing {
  import opened Wrappers
  import opened ChainBlocks
  import opened IntentProtocol
  import opened IntentSafety

  /** The user rejected every prompt for the intent, so nothing of it was signed. */
  ghost predicate AllRejected(w: World, id: nat) {
    forall r :: 0 <= r < |w.requests| && w.requests[r].intent == id ==> w.requests[r].answer == REJECTED
  }

  /** Nothing of the intent can land any more. */
  ghost predicate Settled(w: World, id: nat)
    requires id < |w.plans|
  {
    Spent(w.finalized, w.plans[id].nonce) || AllRejected(w, id)
  }

  predicate IsStored(w: World, id: nat) {
    w.stored.Some? && w.stored.value.id == id
  }

  /** Every intent that is no longer stored is settled. */
  ghost predicate ClosedSettled(w: World) {
    forall id :: 0 <= id < |w.plans| ==> IsStored(w, id) || Settled(w, id)
  }

  /** The finalized chain has passed the block by: neither is on the other's branch. */
  predicate Orphaned(final: Block, b: Block) {
    !Ancestor(b, final) && !Ancestor(final, b)
  }

  /** A recovery in flight can still act on an intent submitted now with this nonce: it may yet
      locate its own transaction, or it has a receipt that can become final without the nonce
      being spent. The page knows only whether a recovery is in flight at all. */
  predicate Interferes(w: World, nonce: nat) {
    w.rec.Recovery? &&
      (w.rec.progress.Started?
       || (!Orphaned(w.finalized, w.rec.progress.receipt.block) && !Spent(w.rec.progress.receipt.block, nonce)))
  }

  /** Nothing is submitted while a recovery interferes. */
  predicate Disciplined(w: World, e: Event) {
    e.Submit? ==> !Interferes(w, e.nonce)
  }

  /** The check the page can make: submitting while no recovery is in flight is always disciplined. */
  lemma GuardSuffices(w: World, nonce: nat, call: Call)
    requires w.rec.NoRecovery?
    ensures Disciplined(w, Submit(nonce, call))
  {}

  ghost predicate DisciplinedRun(w: World, es: seq<Event>)
    decreases |es|
  {
    es == [] || (Enabled(w, es[0]) && Disciplined(w, es[0]) && DisciplinedRun(Next(w, es[0]), es[1..]))
  }

  /** A recovery of an earlier intent that can no longer do harm to an intent with this nonce. */
  predicate Harmless(w: World, nonce: nat)
    requires w.rec.Recovery?
  {
    && !w.rec.progress.Started? && w.rec.progress.replaced
    && (Orphaned(w.finalized, w.rec.progress.receipt.block) || Spent(w.rec.progress.receipt.block, nonce))
  }

  /** On such runs, page and handlers are about the last submission, and so is the recovery unless
      it is harmless. A recovery that knows its transaction belongs to a stored intent. */
  ghost predicate Latest(w: World) {
    var last := |w.plans| - 1;
    && (w.stored.Some? ==> w.stored.value.id == last)
    && (!w.busy.Idle? ==> w.busy.intent.id == last)
    && (w.rec.Recovery? ==> last >= 0 && (w.rec.intent.id == last || Harmless(w, w.plans[last].nonce)))
    && (w.rec.Recovery? && w.rec.intent.txHash.Some? ==>
          w.stored.Some? && (w.busy.Prompted? && !w.busy.retry ==> w.stored.value.txHash.Some?))
    && (w.busy.Prompted? && !w.busy.retry ==>
          forall q :: 0 <= q < |w.requests| && w.requests[q].intent == last ==> q == w.busy.request)
    && (w.canClear ==> w.rec.NoRecovery? && last >= 0 && Spent(w.finalized, w.plans[last].nonce))
  }

  ghost predicate Closing(w: World) {
    Inv(w) && Latest(w) && ClosedSettled(w)
  }

  /** Settled intents stay settled as long as no new prompt is opened for them. */
  lemma SettledKept(w: World, v: World, id: nat)
    requires id < |w.plans| && Settled(w, id) && |v.plans| >= |w.plans| && v.plans[id] == w.plans[id]
    requires Ancestor(w.finalized, v.finalized)
    requires |v.requests| >= |w.requests|
    requires forall r :: 0 <= r < |w.requests| && w.requests[r].answer == REJECTED ==>
      v.requests[r].answer == REJECTED
    requires forall r :: 0 <= r < |w.requests| ==> v.requests[r].intent == w.requests[r].intent
    requires forall r :: |w.requests| <= r < |v.requests| ==> v.requests[r].intent != id
    ensures Settled(v, id)
  {
    if Spent(w.finalized, w.plans[id].nonce) {
      SpentForever(w.finalized, v.finalized, w.plans[id].nonce);
    }
  }

  /** An orphan stays one: the finalized chain only grows. */
  lemma OrphanKept(before: Block, after: Block, b: Block)
    requires Orphaned(before, b) && Ancestor(before, after)
    ensures Orphaned(after, b)
  {
    if Ancestor(b, after) {
      Comparable(b, before, after);
    } else if Ancestor(after, b) {
      AncestorTransitive(before, after, b);
    }
  }

  // ---- events that change neither prompts nor submissions ----

  predicate Quiet(e: Event) {
    e.Grow? || e.Finalize? || e.PrimaryMoves? || e.RecoveryMoves? || e.RetryStart? || e.Timeout?
    || e.RecoverStart? || e.RecoverRetryable? || e.RecoverReceipt? || e.RecoverFinalized? || e.RecoverCanonical?
    || e.RecoverStop? || e.LateHash?
  }

  lemma QuietCloses(w: World, e: Event)
    requires Closing(w) && Enabled(w, e) && Quiet(e)
    ensures Latest(Next(w, e)) && ClosedSettled(Next(w, e))
  {
    hide Inv, GoodChain, GoodView, Spent, Reports, BothFinalized, BothAt, Confirmed, PastNonce, Settled, Orphaned;
    var v := Next(w, e);
    if w.rec.Recovery? && !w.rec.progress.Started? && Orphaned(w.finalized, w.rec.progress.receipt.block) {
      OrphanKept(w.finalized, v.finalized, w.rec.progress.receipt.block);
    }
    if v.canClear && e.Finalize? {
      SpentForever(w.finalized, v.finalized, w.plans[|w.plans| - 1].nonce);
    }
    forall id | 0 <= id < |v.plans| ensures IsStored(v, id) || Settled(v, id) {
      assert IsStored(w, id) || Settled(w, id);
      if Settled(w, id) {
        SettledKept(w, v, id);
      }
    }
  }

  lemma AnswerCloses(w: World, e: Event)
    requires Closing(w) && Enabled(w, e) && (e.Sign? || e.Reject? || e.Reload?)
    ensures Latest(Next(w, e)) && ClosedSettled(Next(w, e))
  {
    hide Inv, GoodChain, Spent, Settled;
    var v := Next(w, e);
    forall id | 0 <= id < |v.plans| ensures IsStored(v, id) || Settled(v, id) {
      assert IsStored(w, id) || Settled(w, id);
      if Settled(w, id) {
        SettledKept(w, v, id);
      }
    }
  }

  /** With nothing stored, a recovery that has a receipt has that of a replacement. */
  lemma UnstoredReplaced(w: World)
    requires Closing(w) && w.stored.None? && w.rec.Recovery?
    ensures w.rec.intent.txHash.None? && (!w.rec.progress.Started? ==> w.rec.progress.replaced)
  {
    hide ChainsGood, RecordsFit, ClosedSettled, GoodChain;
  }

  /** Opening a prompt stores its intent, which is the last one. */
  lemma PromptCloses(w: World, e: Event)
    requires Closing(w) && Enabled(w, e) && Disciplined(w, e) && (e.Submit? || e.RetrySend?)
    ensures Latest(Next(w, e)) && ClosedSettled(Next(w, e))
  {
    hide ChainsGood, Evidence, GoodChain, Spent, Settled, Orphaned;
    var v := Next(w, e);
    if e.Submit? && w.rec.Recovery? {
      UnstoredReplaced(w);
    }
    assert forall r :: 0 <= r < |w.requests| ==> RequestFits(w, w.requests[r]);
    forall id | 0 <= id < |v.plans| ensures IsStored(v, id) || Settled(v, id) {
      if id < |v.plans| - 1 {
        assert IsStored(w, id) || Settled(w, id);
        SettledKept(w, v, id);
      }
    }
  }

  /** The wallet's answer to the prompt being waited for. */
  lemma ReplyCloses(w: World, e: Event)
    requires Closing(w) && Enabled(w, e) && (e.WalletAnswers? || e.WalletRejects?)
    ensures Latest(Next(w, e)) && ClosedSettled(Next(w, e))
  {
    hide ChainsGood, Evidence, GoodChain, Spent;
    var v := Next(w, e);
    forall id | 0 <= id < |v.plans| ensures IsStored(v, id) || Settled(v, id) {
      assert IsStored(w, id) || Settled(w, id);
      if Settled(w, id) {
        SettledKept(w, v, id);
      }
    }
  }

  /** A concluding recovery proves the last intent's nonce spent, whichever intent it is about. */
  lemma ConcludesSpent(w: World)
    requires Inv(w) && Latest(w) && w.rec.Recovery? && w.rec.progress.Proven?
    ensures Spent(w.finalized, w.plans[|w.plans| - 1].nonce)
    ensures w.rec.intent.id == |w.plans| - 1 || w.rec.progress.replaced
  {
    hide GoodChain, GoodView, Spent, ChainsGood;
    ProvenSpent(w);
    if w.rec.intent.id != |w.plans| - 1 {
      SpentForever(w.rec.progress.receipt.block, w.finalized, w.plans[|w.plans| - 1].nonce);
    }
  }

  /** Closing by proof: the recovery's evidence, or the button it enables. */
  lemma ProofCloses(w: World, e: Event)
    requires Closing(w) && Enabled(w, e) && (e.Clear? || e.RecoverConclude? || e.RecoverLocate?)
    ensures Latest(Next(w, e)) && ClosedSettled(Next(w, e))
  {
    hide GoodChain, GoodView, Spent, ChainsGood;
    var v := Next(w, e);
    if e.RecoverConclude? {
      ConcludesSpent(w);
    }
    forall id | 0 <= id < |v.plans| ensures IsStored(v, id) || Settled(v, id) {
      assert IsStored(w, id) || Settled(w, id);
      if Settled(w, id) {
        SettledKept(w, v, id);
      }
    }
  }

  lemma StepCloses(w: World, e: Event)
    requires Closing(w) && Enabled(w, e) && Disciplined(w, e)
    ensures Closing(Next(w, e))
  {
    hide Inv, Latest, ClosedSettled, Enabled, Next;
    StepKeeps(w, e);
    if Quiet(e) {
      QuietCloses(w, e);
    } else if e.Sign? || e.Reject? || e.Reload? {
      AnswerCloses(w, e);
    } else if e.Submit? || e.RetrySend? {
      PromptCloses(w, e);
    } else if e.WalletAnswers? || e.WalletRejects? {
      ReplyCloses(w, e);
    } else {
      ProofCloses(w, e);
    }
  }

  lemma {:induction false} RunCloses(w: World, es: seq<Event>)
    requires Closing(w) && DisciplinedRun(w, es)
    ensures Closing(After(w, es))
    decreases |es|
  {
    hide Closing, Enabled, Next, Disciplined;
    if es != [] {
      StepCloses(w, es[0]);
      RunCloses(Next(w, es[0]), es[1..]);
    }
  }

  /** On a disciplined run, a transaction of an intent the page no longer stores is on a chain only
      if it is finalized already: nothing of a closed intent lands late. */
  lemma ClosedNeverLandsLate(es: seq<Event>, chain: Block, id: nat, i: nat)
    requires DisciplinedRun(START, es)
    requires var w := After(START, es);
      && GoodChain(w, chain) && Ancestor(w.finalized, chain)
      && i < |Txs(chain)| && OfIntent(w, Txs(chain)[i].tx, id) && !IsStored(w, id)
    ensures i < |Txs(After(START, es).finalized)|
  {
    hide DisciplinedRun, After, Next, Enabled;
    StartGood();
    RunCloses(START, es);
    var w := After(START, es);
    LandsAtNonce(w, chain, id, i);
    LateIsFinal(w, chain, id, i);
  }

  lemma LateIsFinal(w: World, chain: Block, id: nat, i: nat)
    requires RecordsFit(w) && GoodChain(w, chain) && i < |Txs(chain)| && OfIntent(w, Txs(chain)[i].tx, id)
    requires id < |w.plans| && i == w.plans[id].nonce && Settled(w, id)
    ensures i < |Txs(w.finalized)|
  {
    assert SignedTx(w, Txs(chain)[i].tx);
  }

  /** So at any time at most one submission, the one stored, can still create a market. */
  lemma OneSubmissionOpen(es: seq<Event>, id: nat, other: nat)
    requires DisciplinedRun(START, es)
    requires var w := After(START, es);
      id < |w.plans| && other < |w.plans| && !Settled(w, id) && !Settled(w, other)
    ensures id == other && IsStored(After(START, es), id)
  {
    hide DisciplinedRun, After, Next, Enabled, Settled;
    StartGood();
    RunCloses(START, es);
    var w := After(START, es);
    ClosedAt(w, id);
    ClosedAt(w, other);
  }

  lemma ClosedAt(w: World, id: nat)
    requires ClosedSettled(w) && id < |w.plans|
    ensures IsStored(w, id) || Settled(w, id)
  {}

  // ---- the discipline is necessary ----

  /** Every disciplined continuation keeps closed intents settled. */
  ghost predicate StaysClosed(w: World) {
    forall es :: DisciplinedRun(w, es) ==> ClosedSettled(After(w, es))
  }

  predicate NoSubmission(es: seq<Event>) {
    forall i :: 0 <= i < |es| ==> !es[i].Submit?
  }

  lemma {:induction false} QuietlyDisciplined(w: World, es: seq<Event>)
    requires Happens(w, es) && NoSubmission(es)
    ensures DisciplinedRun(w, es)
    decreases |es|
  {
    hide Enabled, Next, Interferes;
    if es != [] {
      assert !es[0].Submit?;
      QuietlyDisciplined(Next(w, es[0]), es[1..]);
    }
  }

  /** The last intent is live: unspent, with its prompt open. */
  ghost predicate LastOpen(w: World) {
    var last := |w.plans| - 1;
    && last >= 0 && !Spent(w.finalized, w.plans[last].nonce)
    && |w.requests| > 0 && w.requests[|w.requests| - 1].intent == last && w.requests[|w.requests| - 1].answer == OPEN
  }

  lemma LastOpenUnsettled(w: World)
    requires LastOpen(w) && !IsStored(w, |w.plans| - 1)
    ensures !ClosedSettled(w)
  {
    var last := |w.plans| - 1;
    assert w.requests[|w.requests| - 1].intent == last && w.requests[|w.requests| - 1].answer != REJECTED;
    assert !Settled(w, last);
  }

  /** A recovery that has not looked yet may still find a transaction with its nonce and call data,
      and then stores its own intent over the new one. */
  lemma LocateBreaks(w: World, nonce: nat, call: Call) returns (es: seq<Event>)
    requires Closing(w) && Enabled(w, Submit(nonce, call)) && !Spent(w.finalized, nonce)
    requires w.rec.Recovery? && w.rec.progress.Started?
    ensures var v := Next(w, Submit(nonce, call)); DisciplinedRun(v, es) && !ClosedSettled(After(v, es))
  {
    hide Inv, Settled, ClosedSettled, Spent;
    UnstoredReplaced(w);
    var v := Next(w, Submit(nonce, call));
    var e := RecoverLocate(Tx(w.rec.intent.nonce, w.rec.intent.call, Foreign(0)));
    es := [e];
    assert Next(v, e).stored.value.id == w.rec.intent.id;
    RecoveredEarlier(w);
    LastOpenUnsettled(Next(v, e));
    assert es[1..] == [];
  }

  lemma RecoveredEarlier(w: World)
    requires Closing(w) && w.rec.Recovery?
    ensures w.rec.intent.id < |w.plans|
  {
    hide ChainsGood, Evidence, ClosedSettled, Latest;
  }

  /** Concluding on a replacement closes whatever is stored, or makes it clearable. */
  lemma ConcludeBreaks(v: World) returns (es: seq<Event>)
    requires v.rec.Recovery? && v.rec.progress.Proven? && v.rec.progress.replaced && v.stored.Some? && LastOpen(v)
    ensures Happens(v, es) && !ClosedSettled(After(v, es)) && NoSubmission(es)
  {
    hide Spent, ClosedSettled;
    var u := Next(v, RecoverConclude);
    if u.stored.None? {
      es := [RecoverConclude];
      LastOpenUnsettled(u);
      assert es[1..] == [];
    } else {
      es := [RecoverConclude, Clear];
      RunOf2(v, RecoverConclude, Clear);
      LastOpenUnsettled(Next(u, Clear));
    }
  }

  /** A world in which the receipt's block is final and both views see it so, with a block on top. */
  ghost predicate ViewsCaughtUp(v: World, b: Block, nonce: nat) {
    && Ancestor(b, v.primary.head) && Ancestor(b, v.recovery.head)
    && BothFinalized(v, b) && Confirmed(v, b) && PastNonce(v, nonce)
  }

  lemma CaughtUpBreaks(v: World) returns (es: seq<Event>)
    requires v.rec.Recovery? && !v.rec.progress.Started? && v.rec.progress.replaced && v.stored.Some? && LastOpen(v)
    requires ViewsCaughtUp(v, v.rec.progress.receipt.block, v.rec.intent.nonce)
    ensures Happens(v, es) && NoSubmission(es) && !ClosedSettled(After(v, es))
  {
    hide Spent, ClosedSettled, Confirmed, PastNonce, BothFinalized, LastOpen, BothAt, Ancestor;
    var b := v.rec.progress.receipt.block;
    assert BothAt(v, b) by { AtItsHeight(v, b); }
    if v.rec.progress.Proven? {
      es := ConcludeBreaks(v);
    } else if v.rec.progress.Finalized? {
      es := CanonicalBreaks(v);
    } else {
      var u := Next(v, RecoverFinalized);
      SameStanding(v, u);
      var fs := CanonicalBreaks(u);
      es := [RecoverFinalized] + fs;
      assert es[0] == RecoverFinalized && es[1..] == fs;
    }
  }

  lemma AtItsHeight(v: World, b: Block)
    requires Ancestor(b, v.primary.head) && Ancestor(b, v.recovery.head)
    ensures BothAt(v, b)
  {
    SameBranch(b, v.primary.head, Height(b));
    SameBranch(b, v.recovery.head, Height(b));
  }

  lemma SameStanding(v: World, u: World)
    requires LastOpen(v) && u == v.(rec := u.rec)
    ensures LastOpen(u) && (forall b :: BothAt(v, b) ==> BothAt(u, b))
  {}

  lemma CanonicalBreaks(v: World) returns (es: seq<Event>)
    requires v.rec.Recovery? && v.rec.progress.Finalized? && v.rec.progress.replaced && v.stored.Some? && LastOpen(v)
    requires BothAt(v, v.rec.progress.receipt.block)
    ensures Happens(v, es) && NoSubmission(es) && !ClosedSettled(After(v, es))
  {
    hide Spent, ClosedSettled, BothAt, LastOpen;
    var u := Next(v, RecoverCanonical);
    SameStanding(v, u);
    var fs := ConcludeBreaks(u);
    es := [RecoverCanonical] + fs;
    assert es[0] == RecoverCanonical && es[1..] == fs;
  }

  /** The chain and the views can move so that a receipt that is not orphaned becomes final. */
  lemma CatchUp(v: World, b: Block, nonce: nat, n: nat) returns (es: seq<Event>)
    requires Inv(v) && GoodChain(v, b) && !Orphaned(v.finalized, b) && Spent(b, nonce)
    requires !Spent(v.finalized, n) && !Spent(b, n)
    ensures Happens(v, es) && NoSubmission(es)
    ensures var u := After(v, es);
      && ViewsCaughtUp(u, b, nonce) && !Spent(u.finalized, n)
      && u == v.(finalized := u.finalized, head := u.head, primary := u.primary, recovery := u.recovery)
  {
    hide GoodChain, NoncesInOrder;
    var top := if Ancestor(b, v.finalized) then v.finalized else b;
    var tip := Block(top, 0, []);
    var view := View(tip, top);
    SignedAncestor(v, v.finalized, v.head);
    TipGood(v, top);
    AncestorTransitive(v.primary.finalized, v.finalized, top);
    AncestorTransitive(v.recovery.finalized, v.finalized, top);
    es := [Grow(tip), Finalize(top), PrimaryMoves(view), RecoveryMoves(view)];
    MoveAll(v, tip, top);
    AncestorTxs(b, top);
  }

  lemma TipGood(v: World, top: Block)
    requires GoodChain(v, top)
    ensures GoodChain(v, Block(top, 0, [])) && Ancestor(top, Block(top, 0, [])) && Txs(Block(top, 0, [])) == Txs(top)
  {
    assert Txs(Block(top, 0, [])) == Txs(top);
  }

  lemma MoveAll(v: World, tip: Block, top: Block)
    requires GoodChain(v, tip) && Ancestor(v.finalized, top) && Ancestor(top, tip)
    requires Ancestor(v.primary.finalized, top) && Ancestor(v.recovery.finalized, top)
    ensures var es := [Grow(tip), Finalize(top), PrimaryMoves(View(tip, top)), RecoveryMoves(View(tip, top))];
      && Happens(v, es)
      && After(v, es) == v.(head := tip, finalized := top, primary := View(tip, top), recovery := View(tip, top))
  {
    hide Txs, NoncesInOrder;
    AncestorTransitive(v.finalized, top, tip);
    var v1 := Next(v, Grow(tip));
    var v2 := Next(v1, Finalize(top));
    var v3 := Next(v2, PrimaryMoves(View(tip, top)));
    ChainKept(v, v2, tip);
    ChainKept(v, v3, tip);
    RunOf4(v, Grow(tip), Finalize(top), PrimaryMoves(View(tip, top)), RecoveryMoves(View(tip, top)));
  }

  /** A recovery with a receipt that can still become final clears the new intent. */
  lemma ReceiptBreaks(w: World, nonce: nat, call: Call) returns (es: seq<Event>)
    requires Closing(w) && Enabled(w, Submit(nonce, call)) && !Spent(w.finalized, nonce)
    requires w.rec.Recovery? && !w.rec.progress.Started? && Interferes(w, nonce)
    ensures var v := Next(w, Submit(nonce, call)); DisciplinedRun(v, es) && !ClosedSettled(After(v, es))
  {
    hide ClosedSettled, Latest, GoodChain, Evidence, RecordsFit, ChainsGood, Happens, After, DisciplinedRun, NoSubmission;
    var v := Next(w, Submit(nonce, call));
    UnstoredReplaced(w);
    StepKeeps(w, Submit(nonce, call));
    var b := w.rec.progress.receipt.block;
    ReceiptSpends(v);
    var moves := CatchUp(v, b, w.rec.intent.nonce, nonce);
    var u := After(v, moves);
    var rest := CaughtUpBreaks(u);
    HappensThen(v, moves, rest);
    assert NoSubmission(moves + rest) by { BothQuiet(moves, rest); }
    QuietlyDisciplined(v, moves + rest);
    es := moves + rest;
  }

  lemma BothQuiet(es: seq<Event>, fs: seq<Event>)
    requires NoSubmission(es) && NoSubmission(fs)
    ensures NoSubmission(es + fs)
  {}

  lemma ReceiptSpends(v: World)
    requires Inv(v) && v.rec.Recovery? && !v.rec.progress.Started?
    ensures GoodChain(v, v.rec.progress.receipt.block) && Spent(v.rec.progress.receipt.block, v.rec.intent.nonce)
  {
    hide Txs;
    var r := v.rec.progress.receipt;
    UsedIsSpent(r.block, r.block, r.m);
  }

  /** Submitting with a nonce that is not finalized yet is safe, whatever happens from then on,
      exactly when no recovery interferes. */
  lemma SafeExactlyWithoutInterference(w: World, nonce: nat, call: Call)
    requires Closing(w) && Enabled(w, Submit(nonce, call)) && !Spent(w.finalized, nonce)
    ensures StaysClosed(Next(w, Submit(nonce, call))) <==> !Interferes(w, nonce)
  {
    hide Closing, ClosedSettled, DisciplinedRun, After, Next, Interferes, Enabled;
    if Interferes(w, nonce) {
      var es := InterferenceBreaks(w, nonce, call);
    } else {
      StepCloses(w, Submit(nonce, call));
      var v := Next(w, Submit(nonce, call));
      forall es | DisciplinedRun(v, es) ensures ClosedSettled(After(v, es)) {
        RunCloses(v, es);
        ClosingSettled(After(v, es));
      }
    }
  }

  lemma ClosingSettled(w: World)
    requires Closing(w)
    ensures ClosedSettled(w)
  {}

  lemma InterferenceBreaks(w: World, nonce: nat, call: Call) returns (es: seq<Event>)
    requires Closing(w) && Enabled(w, Submit(nonce, call)) && !Spent(w.finalized, nonce) && Interferes(w, nonce)
    ensures var v := Next(w, Submit(nonce, call)); DisciplinedRun(v, es) && !ClosedSettled(After(v, es))
  {
    hide Closing, ClosedSettled, DisciplinedRun, After, Next, Enabled, Orphaned, Spent;
    if w.rec.progress.Started? {
      es := LocateBreaks(w, nonce, call);
    } else {
      es := ReceiptBreaks(w, nonce, call);
    }
  }

  /** For the page's own check: unless the recovery in flight holds a receipt that is orphaned, or
      whose block spends the new nonce as well, submitting is safe exactly when none is in flight. */
  lemma GuardIsExact(w: World, nonce: nat, call: Call)
    requires Closing(w) && Enabled(w, Submit(nonce, call)) && !Spent(w.finalized, nonce)
    requires w.rec.Recovery? && !w.rec.progress.Started? ==>
      !Orphaned(w.finalized, w.rec.progress.receipt.block) && !Spent(w.rec.progress.receipt.block, nonce)
    ensures StaysClosed(Next(w, Submit(nonce, call))) <==> w.rec.NoRecovery?
  {
    hide Closing, StaysClosed, Next, Enabled, Orphaned, Spent;
    SafeExactlyWithoutInterference(w, nonce, call);
  }

  // ---- a run without the discipline ----

  const CALL := Creation(7)
  const OTHER := Mined(Tx(0, OtherCall(9), Foreign(0)), true)
  const BLOCK1 := Block(Genesis, 0, [OTHER])
  const BLOCK2 := Block(BLOCK1, 0, [])
  const FIRST := Mined(Tx(1, CALL, Page(1)), true)
  const SECOND := Mined(Tx(2, CALL, Page(2)), true)
  const BLOCK3 := Block(BLOCK2, 0, [FIRST, SECOND])

  const AFTER_REJECTION := START.(
    requests := [Request(0, 0, CALL, REJECTED, true)], plans := [Plan(0, CALL)],
    rec := Recovery(Intent(0, 0, CALL, AWAITING_SIGNATURE, None), Started))

  function RejectionEvents(): seq<Event> {
    [Submit(0, CALL), Reject(0), WalletRejects]
  }

  /** A first prompt is rejected, and closed, while its recovery is in flight. */
  lemma RejectionRun()
    ensures Happens(START, RejectionEvents()) && After(START, RejectionEvents()) == AFTER_REJECTION
  {
    var w1 := Next(START, Submit(0, CALL));
    var w2 := Next(w1, Reject(0));
    RunOf3(START, Submit(0, CALL), Reject(0), WalletRejects);
    assert w2.requests == [Request(0, 0, CALL, REJECTED, true)];
  }

  const AFTER_RESUBMISSION := AFTER_REJECTION.(
    finalized := BLOCK1, head := BLOCK1,
    requests := [Request(0, 0, CALL, REJECTED, true), Request(1, 1, CALL, OPEN, true)],
    plans := [Plan(0, CALL), Plan(1, CALL)],
    stored := Some(Intent(1, 1, CALL, AWAITING_SIGNATURE, None)),
    busy := Idle)

  lemma Block1Good(w: World)
    ensures GoodChain(w, BLOCK1) && Ancestor(Genesis, BLOCK1) && Txs(BLOCK1) == [OTHER]
    ensures GoodChain(w, BLOCK2) && Ancestor(BLOCK1, BLOCK2) && Txs(BLOCK2) == [OTHER]
    ensures AtHeight(BLOCK2, Height(BLOCK1)) == BLOCK1
  {
    assert Txs(Genesis) == [];
    SameBranch(BLOCK1, BLOCK2, Height(BLOCK1));
    assert AtHeight(BLOCK1, Height(BLOCK1)) == BLOCK1;
  }

  function ResubmissionEvents(): seq<Event> {
    [Grow(BLOCK1), Finalize(BLOCK1), Submit(1, CALL), Timeout]
  }

  /** Another transaction takes its nonce, and the same market is submitted again with the next
      nonce, the old recovery still in flight. */
  lemma ResubmissionRun()
    ensures Happens(AFTER_REJECTION, ResubmissionEvents())
    ensures After(AFTER_REJECTION, ResubmissionEvents()) == AFTER_RESUBMISSION
  {
    Block1Good(AFTER_REJECTION);
    var w1 := Next(AFTER_REJECTION, Grow(BLOCK1));
    var w2 := Next(w1, Finalize(BLOCK1));
    var w3 := Next(w2, Submit(1, CALL));
    RunOf4(AFTER_REJECTION, Grow(BLOCK1), Finalize(BLOCK1), Submit(1, CALL), Timeout);
  }

  const LAGGING := View(BLOCK2, BLOCK1)

  const RECEIPT := Receipt(OTHER, BLOCK1)

  const AFTER_RECEIPT := AFTER_RESUBMISSION.(
    primary := LAGGING, recovery := LAGGING,
    rec := Recovery(Intent(0, 0, CALL, AWAITING_SIGNATURE, None), Seen(RECEIPT, true)))

  function ReceiptEvents(): seq<Event> {
    [PrimaryMoves(LAGGING), RecoveryMoves(LAGGING), RecoverReceipt(OTHER.tx, RECEIPT)]
  }

  /** The old recovery sees the transaction that took its nonce. */
  lemma ReceiptRun()
    ensures Happens(AFTER_RESUBMISSION, ReceiptEvents()) && After(AFTER_RESUBMISSION, ReceiptEvents()) == AFTER_RECEIPT
  {
    Block1Good(AFTER_RESUBMISSION);
    var w1 := Next(AFTER_RESUBMISSION, PrimaryMoves(LAGGING));
    Block1Good(w1);
    RunOf3(AFTER_RESUBMISSION, PrimaryMoves(LAGGING), RecoveryMoves(LAGGING), RecoverReceipt(OTHER.tx, RECEIPT));
  }

  const AFTER_RECOVERY := AFTER_RESUBMISSION.(primary := LAGGING, recovery := LAGGING, rec := NoRecovery, canClear := true)

  function RecoveryEvents(): seq<Event> {
    [RecoverFinalized, RecoverCanonical, RecoverConclude]
  }

  /** It proves its nonce spent and offers to clear, but what is stored is the new intent, whose
      nonce is free and whose prompt is open. */
  lemma StaleRecoveryRun()
    ensures Happens(AFTER_RECEIPT, RecoveryEvents()) && After(AFTER_RECEIPT, RecoveryEvents()) == AFTER_RECOVERY
    ensures !Spent(AFTER_RECOVERY.finalized, AFTER_RECOVERY.stored.value.nonce)
  {
    Block1Good(AFTER_RECEIPT);
    RunOf3(AFTER_RECEIPT, RecoverFinalized, RecoverCanonical, RecoverConclude);
  }

  lemma RunOf2(w: World, a: Event, b: Event)
    requires Enabled(w, a) && Enabled(Next(w, a), b)
    ensures Happens(w, [a, b]) && After(w, [a, b]) == Next(Next(w, a), b)
  {
    hide Enabled, Next;
    assert [a, b][1..] == [b] && [b][1..] == [];
    assert Happens(Next(w, a), [b]);
    assert After(Next(w, a), [b]) == Next(Next(w, a), b);
  }

  lemma RunOf3(w: World, a: Event, b: Event, c: Event)
    requires Enabled(w, a) && Enabled(Next(w, a), b) && Enabled(Next(Next(w, a), b), c)
    ensures Happens(w, [a, b, c]) && After(w, [a, b, c]) == Next(Next(Next(w, a), b), c)
  {
    hide Enabled, Next;
    assert [a, b, c][1..] == [b, c];
    RunOf2(Next(w, a), b, c);
  }

  lemma RunOf4(w: World, a: Event, b: Event, c: Event, d: Event)
    requires Enabled(w, a) && Enabled(Next(w, a), b) && Enabled(Next(Next(w, a), b), c)
    requires Enabled(Next(Next(Next(w, a), b), c), d)
    ensures Happens(w, [a, b, c, d]) && After(w, [a, b, c, d]) == Next(Next(Next(Next(w, a), b), c), d)
  {
    hide Enabled, Next;
    assert [a, b, c, d][1..] == [b, c, d];
    RunOf3(Next(w, a), b, c, d);
  }

  const FINAL_REQUESTS := [Request(0, 0, CALL, REJECTED, true), Request(1, 1, CALL, SIGNED, true),
                           Request(2, 2, CALL, SIGNED, true)]

  function ThirdEvents(): seq<Event> {
    [Clear, Submit(2, CALL), Sign(1)]
  }

  function LandingEvents(): seq<Event> {
    [Sign(2), Grow(BLOCK3)]
  }

  const AFTER_THIRD := AFTER_RECOVERY.(
    requests := [Request(0, 0, CALL, REJECTED, true), Request(1, 1, CALL, SIGNED, true), Request(2, 2, CALL, OPEN, true)],
    plans := [Plan(0, CALL), Plan(1, CALL), Plan(2, CALL)],
    stored := Some(Intent(2, 2, CALL, AWAITING_SIGNATURE, None)), canClear := false,
    busy := Prompted(2, false, Intent(2, 2, CALL, AWAITING_SIGNATURE, None)),
    rec := Recovery(Intent(2, 2, CALL, AWAITING_SIGNATURE, None), Started))

  /** The new intent is cleared as well, the market submitted a third time, and the open prompt of
      the cleared intent signed. */
  lemma ThirdRun()
    ensures Happens(AFTER_RECOVERY, ThirdEvents()) && After(AFTER_RECOVERY, ThirdEvents()) == AFTER_THIRD
  {
    var w1 := Next(AFTER_RECOVERY, Clear);
    var w2 := Next(w1, Submit(2, CALL));
    RunOf3(AFTER_RECOVERY, Clear, Submit(2, CALL), Sign(1));
    assert Next(w2, Sign(1)).requests == AFTER_THIRD.requests;
  }

  /** The last prompt is signed too, and both transactions land. */
  lemma LandingRun()
    ensures Happens(AFTER_THIRD, LandingEvents())
    ensures After(AFTER_THIRD, LandingEvents()) == AFTER_THIRD.(head := BLOCK3, requests := FINAL_REQUESTS)
  {
    var w1 := Next(AFTER_THIRD, Sign(2));
    assert w1.requests == FINAL_REQUESTS;
    Block3Good(w1);
    RunOf2(AFTER_THIRD, Sign(2), Grow(BLOCK3));
  }

  lemma Block3Good(w: World)
    requires w.requests == FINAL_REQUESTS
    ensures GoodChain(w, BLOCK3) && Ancestor(BLOCK1, BLOCK3) && Txs(BLOCK3) == [OTHER, FIRST, SECOND]
  {
    Block1Good(w);
    assert Txs(BLOCK3) == Txs(BLOCK2) + [FIRST, SECOND];
    AncestorTransitive(BLOCK1, BLOCK2, BLOCK3);
  }

  lemma {:induction false} HappensThen(w: World, es: seq<Event>, fs: seq<Event>)
    requires Happens(w, es) && Happens(After(w, es), fs)
    ensures Happens(w, es + fs) && After(w, es + fs) == After(After(w, es), fs)
    decreases |es|
  {
    hide Enabled, Next;
    if es == [] {
      assert es + fs == fs;
    } else {
      HappensThen(Next(w, es[0]), es[1..], fs);
      assert (es + fs)[1..] == es[1..] + fs;
    }
  }

  function StaleRun(): seq<Event> {
    RejectionEvents() + ResubmissionEvents() + ReceiptEvents() + RecoveryEvents() + ThirdEvents() + LandingEvents()
  }

  lemma StaleRunHappens()
    ensures Happens(START, StaleRun())
    ensures After(START, StaleRun()) == AFTER_THIRD.(head := BLOCK3, requests := FINAL_REQUESTS)
  {
    hide Happens, After, RejectionEvents, ResubmissionEvents, ReceiptEvents, RecoveryEvents, ThirdEvents, LandingEvents;
    RejectionRun();
    ResubmissionRun();
    ReceiptRun();
    StaleRecoveryRun();
    ThirdRun();
    LandingRun();
    var a, b := RejectionEvents(), ResubmissionEvents();
    HappensThen(START, a, b);
    HappensThen(START, a + b, ReceiptEvents());
    HappensThen(START, a + b + ReceiptEvents(), RecoveryEvents());
    HappensThen(START, a + b + ReceiptEvents() + RecoveryEvents(), ThirdEvents());
    HappensThen(START, a + b + ReceiptEvents() + RecoveryEvents() + ThirdEvents(), LandingEvents());
  }

  lemma BothLand(w: World)
    requires w.head == BLOCK3 && w.requests == FINAL_REQUESTS
    ensures Txs(w.head) == [OTHER, FIRST, SECOND] && OfIntent(w, FIRST.tx, 1) && OfIntent(w, SECOND.tx, 2)
  {
    hide Txs, GoodChain;
    Block3Good(w);
  }

  /** Without the discipline two submissions of the same market can both create it: a recovery
      started for an earlier intent acts on whatever intent is stored when it concludes. */
  lemma StaleRecoveryLetsTwoLand()
    ensures Happens(START, StaleRun())
    ensures var w := After(START, StaleRun());
      && Txs(w.head) == [OTHER, FIRST, SECOND] && FIRST.ok && SECOND.ok
      && OfIntent(w, FIRST.tx, 1) && OfIntent(w, SECOND.tx, 2)
      && w.plans == [Plan(0, CALL), Plan(1, CALL), Plan(2, CALL)]
  {
    hide Happens, After, StaleRun, Txs, OfIntent;
    StaleRunHappens();
    BothLand(AFTER_THIRD.(head := BLOCK3, requests := FINAL_REQUESTS));
  }
}
