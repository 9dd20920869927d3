/** What a recovery concludes, in terms of the transaction that took the intent's nonce on the
    finalized chain. */
module IntentConclusions {
  import opened Wrappers
  import opened ChainBlocks
  import opened IntentProtocol
  import opened IntentSafety
  import opened IntentClosing

  /** The transaction created a market. */
  predicate Created(m: Mined) {
    m.ok && m.tx.call.Creation?
  }

  /** The intent is closed if its nonce went to a creation that succeeded, its own or another;
      marked reverted if its own creation failed; and only made clearable if the nonce went to
      anything else. */
  ghost predicate ConcludesBy(w: World, v: World, i: Intent, m: Mined) {
    if m.ok && m.tx.call.Creation? then
      v == w.(stored := None, canClear := false, canRetry := false, rec := NoRecovery)
    else if m.tx.call == i.call then
      v == w.(stored := Some(i.(stage := REVERTED)), canClear := true, rec := NoRecovery)
    else
      v == w.(canClear := true, rec := NoRecovery)
  }

  /** A transaction in a block of the chain is the one at its nonce. */
  lemma AtItsNonce(a: Block, b: Block, m: Mined)
    requires NoncesInOrder(b) && Ancestor(a, b) && a.Block? && m in a.txs
    ensures Spent(b, m.tx.nonce) && Txs(b)[m.tx.nonce] == m
  {
    AncestorTxs(a, b);
    OrderedAncestor(a, b);
    var i :| 0 <= i < |a.txs| && a.txs[i] == m;
    assert Txs(a)[|Txs(a.parent)| + i] == m;
  }

  /** Submitted intents create markets. */
  ghost predicate PlansCreate(w: World) {
    forall id :: 0 <= id < |w.plans| ==> w.plans[id].call.Creation?
  }

  lemma StepPlans(w: World, e: Event)
    requires PlansCreate(w) && Enabled(w, e)
    ensures PlansCreate(Next(w, e))
  {
    hide GoodChain, GoodView, Reports, BothFinalized, BothAt, Confirmed, PastNonce;
  }

  lemma ProvenAt(w: World)
    requires Inv(w) && w.rec.Recovery? && w.rec.progress.Proven?
    ensures Spent(w.finalized, w.rec.intent.nonce) && Txs(w.finalized)[w.rec.intent.nonce] == w.rec.progress.receipt.m
  {
    hide Txs;
    var r := w.rec.progress.receipt;
    OrderedAncestor(w.finalized, w.head);
    AtItsNonce(r.block, w.finalized, r.m);
  }

  lemma StepConcludes(w: World)
    requires Inv(w) && PlansCreate(w) && Enabled(w, RecoverConclude)
    ensures Spent(w.finalized, w.rec.intent.nonce)
    ensures ConcludesBy(w, Next(w, RecoverConclude), w.rec.intent, Txs(w.finalized)[w.rec.intent.nonce])
  {
    hide Txs, GoodChain, GoodView, ChainsGood;
    ProvenAt(w);
    assert Fits(w, w.rec.intent);
  }

  lemma {:induction false} RunPlans(w: World, es: seq<Event>)
    requires Inv(w) && PlansCreate(w) && Happens(w, es)
    ensures Inv(After(w, es)) && PlansCreate(After(w, es))
    decreases |es|
  {
    hide Inv, PlansCreate, Enabled, Next;
    if es != [] {
      StepKeeps(w, es[0]);
      StepPlans(w, es[0]);
      RunPlans(Next(w, es[0]), es[1..]);
    }
  }

  /** On every run, what a recovery concludes is decided by the transaction that holds its intent's
      nonce on the finalized chain: whether it succeeded, and whether it is a creation. */
  lemma ConcludesByChain(es: seq<Event>)
    requires Happens(START, es) && Enabled(After(START, es), RecoverConclude)
    ensures var w := After(START, es);
      && Spent(w.finalized, w.rec.intent.nonce)
      && ConcludesBy(w, Next(w, RecoverConclude), w.rec.intent, Txs(w.finalized)[w.rec.intent.nonce])
  {
    hide Happens, After, Next, Enabled, ConcludesBy;
    StartGood();
    RunPlans(START, es);
    StepConcludes(After(START, es));
  }

  // ---- a stored intent marked as reverted ----

  /** The chain has finalized the failure of this very creation. */
  ghost predicate Failed(final: Block, i: Intent) {
    Spent(final, i.nonce) && !Txs(final)[i.nonce].ok && Txs(final)[i.nonce].tx.call == i.call
  }

  ghost predicate MarkTrue(w: World) {
    && (w.stored.Some? && w.stored.value.stage == REVERTED ==> Failed(w.finalized, w.stored.value))
    && (w.rec.Recovery? && w.rec.intent.stage == REVERTED ==> Failed(w.finalized, w.rec.intent))
    && (!w.busy.Idle? ==> w.busy.intent.stage != REVERTED)
  }

  lemma FailedForever(a: Block, b: Block, i: Intent)
    requires Ancestor(a, b) && Failed(a, i)
    ensures Failed(b, i)
  {
    SpentIsFixed(a, b, i.nonce);
  }

  lemma ConcludeMarks(w: World)
    requires Inv(w) && PlansCreate(w) && MarkTrue(w) && w.rec.Recovery? && Enabled(w, RecoverConclude)
    ensures MarkTrue(Next(w, RecoverConclude))
  {
    hide Txs, Inv, Enabled, Next, GoodChain, PlansCreate;
    StepConcludes(w);
    var i, m := w.rec.intent, Txs(w.finalized)[w.rec.intent.nonce];
    assert PlansCreate(w) && Fits(w, i) by { RecoveredFits(w); }
    OwnIsCreation(w, i);
  }

  lemma RecoveredFits(w: World)
    requires Inv(w) && w.rec.Recovery?
    ensures Fits(w, w.rec.intent)
  {
    hide ChainsGood, Evidence;
  }

  lemma OwnIsCreation(w: World, i: Intent)
    requires PlansCreate(w) && Fits(w, i)
    ensures i.call.Creation?
  {}

  lemma StepMarks(w: World, e: Event)
    requires Inv(w) && PlansCreate(w) && MarkTrue(w) && Enabled(w, e)
    ensures MarkTrue(Next(w, e))
  {
    hide Inv, GoodChain, GoodView, Reports, BothFinalized, BothAt, Confirmed, PastNonce, Txs, Failed, Ancestor,
      Concluded;
    match e {
      case RecoverConclude => ConcludeMarks(w);
      case Finalize(b) =>
        if w.stored.Some? && w.stored.value.stage == REVERTED {
          FailedForever(w.finalized, b, w.stored.value);
        }
        if w.rec.Recovery? && w.rec.intent.stage == REVERTED {
          FailedForever(w.finalized, b, w.rec.intent);
        }
      case _ =>
    }
  }

  lemma {:induction false} RunMarks(w: World, es: seq<Event>)
    requires Inv(w) && PlansCreate(w) && MarkTrue(w) && Happens(w, es)
    ensures MarkTrue(After(w, es))
    decreases |es|
  {
    hide Inv, PlansCreate, MarkTrue, Enabled, Next;
    if es != [] {
      StepKeeps(w, es[0]);
      StepPlans(w, es[0]);
      StepMarks(w, es[0]);
      RunMarks(Next(w, es[0]), es[1..]);
    }
  }

  /** On every run, an intent is stored as reverted only if its own creation has failed for good. */
  lemma RevertedIsFinal(es: seq<Event>)
    requires Happens(START, es)
    ensures var w := After(START, es);
      w.stored.Some? && w.stored.value.stage == REVERTED ==> Failed(w.finalized, w.stored.value)
  {
    assert PlansCreate(START) && MarkTrue(START);
    hide Happens, After, Next, Enabled, Inv, PlansCreate, Failed;
    StartGood();
    RunMarks(START, es);
  }

  // ---- the stage tells whether a transaction is known ----

  predicate StageFits(i: Intent) {
    i.stage == AWAITING_SIGNATURE <==> i.txHash.None?
  }

  ghost predicate StagesFit(w: World) {
    && (w.stored.Some? ==> StageFits(w.stored.value))
    && (w.rec.Recovery? ==> StageFits(w.rec.intent))
    && (!w.busy.Idle? ==> w.busy.intent.stage == AWAITING_SIGNATURE && w.busy.intent.txHash.None?)
  }

  lemma StepStages(w: World, e: Event)
    requires Evidence(w) && StagesFit(w) && Enabled(w, e)
    ensures StagesFit(Next(w, e))
  {
    hide GoodChain, GoodView, GoodReceipt, Reports, BothFinalized, BothAt, Confirmed, PastNonce, Ancestor, Height;
  }

  lemma {:induction false} RunStages(w: World, es: seq<Event>)
    requires Inv(w) && StagesFit(w) && Happens(w, es)
    ensures StagesFit(After(w, es))
    decreases |es|
  {
    hide ChainsGood, RecordsFit, Evidence, StagesFit, Enabled, Next;
    if es != [] {
      StepKeeps(w, es[0]);
      StepStages(w, es[0]);
      RunStages(Next(w, es[0]), es[1..]);
    }
  }

  /** On every run the stored intent awaits its signature exactly as long as no transaction of it is
      known. */
  lemma StageTellsHash(es: seq<Event>)
    requires Happens(START, es)
    ensures var w := After(START, es);
      w.stored.Some? ==> (w.stored.value.stage == AWAITING_SIGNATURE <==> w.stored.value.txHash.None?)
  {
    hide Happens, After, Inv;
    StartGood();
    RunStages(START, es);
  }

  // ---- each view alone vouches for what is concluded ----

  /** What has been established so far holds in the view's own finalized chain. */
  ghost predicate Vouches(v: View, p: Progress) {
    && (p.Finalized? ==> Height(p.receipt.block) <= Height(v.finalized))
    && (p.Proven? ==> Ancestor(p.receipt.block, v.finalized))
  }

  ghost predicate BothVouch(w: World) {
    w.rec.Recovery? ==> Vouches(w.primary, w.rec.progress) && Vouches(w.recovery, w.rec.progress)
  }

  lemma VouchesOn(v: View, u: View, p: Progress)
    requires Vouches(v, p) && Ancestor(v.finalized, u.finalized)
    ensures Vouches(u, p)
  {
    AncestorTxs(v.finalized, u.finalized);
    if p.Proven? {
      AncestorTransitive(p.receipt.block, v.finalized, u.finalized);
    }
  }

  /** A block that a view has finalized and still shows at its height is in its finalized chain. */
  lemma ShownIsFinal(v: View, b: Block)
    requires Ancestor(v.finalized, v.head) && Height(b) <= Height(v.finalized) && AtHeight(v.head, Height(b)) == b
    ensures Ancestor(b, v.finalized)
  {
    SameBranch(v.finalized, v.head, Height(b));
    AtHeightAncestor(v.finalized, Height(b));
  }

  lemma StepVouches(w: World, e: Event)
    requires Inv(w) && BothVouch(w) && Enabled(w, e)
    ensures BothVouch(Next(w, e))
  {
    assert GoodView(w, w.primary) && GoodView(w, w.recovery);
    hide Inv, GoodChain, Reports, Confirmed, PastNonce, Ancestor, Height, AtHeight, Concluded;
    match e {
      case PrimaryMoves(v) =>
        if w.rec.Recovery? {
          VouchesOn(w.primary, v, w.rec.progress);
        }
      case RecoveryMoves(v) =>
        if w.rec.Recovery? {
          VouchesOn(w.recovery, v, w.rec.progress);
        }
      case RecoverCanonical =>
        ShownIsFinal(w.primary, w.rec.progress.receipt.block);
        ShownIsFinal(w.recovery, w.rec.progress.receipt.block);
      case RecoverConclude => ConcludedOver(w);
      case _ =>
    }
  }

  lemma ConcludedOver(w: World)
    requires w.rec.Recovery? && w.rec.progress.Proven?
    ensures Concluded(w).rec.NoRecovery?
  {}

  lemma {:induction false} RunVouches(w: World, es: seq<Event>)
    requires Inv(w) && BothVouch(w) && Happens(w, es)
    ensures BothVouch(After(w, es))
    decreases |es|
  {
    hide Inv, BothVouch, Enabled, Next;
    if es != [] {
      StepKeeps(w, es[0]);
      StepVouches(w, es[0]);
      RunVouches(Next(w, es[0]), es[1..]);
    }
  }

  /** On every run a conclusion rests on a block in the finalized chain of either view, so one of them
      suffices to vouch for it; before that both views had seen a block on top of it. */
  lemma EitherViewSuffices(es: seq<Event>)
    requires Happens(START, es)
    ensures var w := After(START, es);
      && (Enabled(w, RecoverConclude) ==>
            && Ancestor(w.rec.progress.receipt.block, w.primary.finalized)
            && Ancestor(w.rec.progress.receipt.block, w.recovery.finalized))
      && (Enabled(w, RecoverFinalized) ==>
            var h := Height(w.rec.progress.receipt.block);
            Height(w.primary.head) > h && Height(w.recovery.head) > h)
  {
    hide Happens, After, Inv;
    StartGood();
    RunVouches(START, es);
  }

  // ---- retries ----

  /** The page knows no transaction of the intent, and in both views every earlier nonce is taken and
      the intent's own is not, mined or pending. */
  ghost predicate Untaken(w: World, i: Intent, primaryPending: nat, recoveryPending: nat) {
    && i.txHash.None? && i.stage == AWAITING_SIGNATURE
    && primaryPending == i.nonce && recoveryPending == i.nonce
    && !Spent(w.primary.head, i.nonce) && !Spent(w.recovery.head, i.nonce)
    && forall n :: 0 <= n < i.nonce ==> Spent(w.primary.head, n) && Spent(w.recovery.head, n)
  }

  /** On every run a retry is offered, and sent, only while nothing has taken the intent's nonce as far
      as both views can tell; and it asks for the very nonce and call data of the submission. */
  lemma RetriesOnlyUntaken(es: seq<Event>, p: nat, q: nat)
    requires Happens(START, es)
    ensures var w := After(START, es);
      && (Enabled(w, RecoverRetryable(p, q)) ==> Untaken(w, w.rec.intent, p, q))
      && (Enabled(w, RetrySend(p, q)) ==>
            && Untaken(w, w.busy.intent, p, q)
            && var v := Next(w, RetrySend(p, q));
               && v.requests == w.requests + [v.requests[|w.requests|]] && w.busy.intent.id < |w.plans|
               && v.requests[|w.requests|].nonce == w.plans[w.busy.intent.id].nonce
               && v.requests[|w.requests|].call == w.plans[w.busy.intent.id].call)
  {
    hide Happens, After, Txs, GoodChain;
    StartGood();
    RunKeeps(START, es);
    RunStages(START, es);
  }

  // ---- runs that submit only when no recovery is in flight ----

  predicate Careful(w: World, e: Event) {
    e.Submit? ==> w.rec.NoRecovery?
  }

  ghost predicate CarefulRun(w: World, es: seq<Event>)
    decreases |es|
  {
    es == [] || (Enabled(w, es[0]) && Careful(w, es[0]) && CarefulRun(Next(w, es[0]), es[1..]))
  }

  /** The recovery is always about the last submission, and what may be cleared has lost its nonce
      to something that created no market. */
  ghost predicate AboutLast(w: World) {
    var last := |w.plans| - 1;
    && (w.rec.Recovery? ==> w.rec.intent.id == last)
    && (w.canClear ==> last >= 0 && Lost(w.finalized, w.plans[last].nonce))
  }

  ghost predicate Lost(final: Block, nonce: nat) {
    Spent(final, nonce) && !Created(Txs(final)[nonce])
  }

  lemma LostForever(a: Block, b: Block, nonce: nat)
    requires Ancestor(a, b) && Lost(a, nonce)
    ensures Lost(b, nonce)
  {
    SpentIsFixed(a, b, nonce);
  }

  lemma ConcludeAboutLast(w: World)
    requires Closing(w) && PlansCreate(w) && AboutLast(w) && Enabled(w, RecoverConclude)
    ensures AboutLast(Next(w, RecoverConclude))
  {
    assert Inv(w);
    assert Fits(w, w.rec.intent) by { RecoveredFits(w); }
    hide Txs, Closing, Inv, Enabled, Next, GoodChain, PlansCreate;
    StepConcludes(w);
  }

  lemma StepAboutLast(w: World, e: Event)
    requires Closing(w) && PlansCreate(w) && AboutLast(w) && Enabled(w, e) && Careful(w, e)
    ensures AboutLast(Next(w, e))
  {
    assert Latest(w);
    hide Closing, Inv, GoodChain, GoodView, Reports, BothFinalized, BothAt, Confirmed, PastNonce, Txs, Lost, Ancestor,
      Concluded, Harmless;
    match e {
      case RecoverConclude => ConcludeAboutLast(w);
      case Finalize(b) =>
        if w.canClear {
          LostForever(w.finalized, b, w.plans[|w.plans| - 1].nonce);
        }
      case _ =>
    }
  }

  lemma {:induction false} CarefulRunHolds(w: World, es: seq<Event>)
    requires Closing(w) && PlansCreate(w) && AboutLast(w) && CarefulRun(w, es)
    ensures Closing(After(w, es)) && PlansCreate(After(w, es)) && AboutLast(After(w, es))
    decreases |es|
  {
    hide Closing, PlansCreate, AboutLast, Enabled, Next;
    if es != [] {
      StepCloses(w, es[0]);
      StepPlans(w, es[0]);
      StepAboutLast(w, es[0]);
      CarefulRunHolds(Next(w, es[0]), es[1..]);
    }
  }

  /** With that care the recovery is always about the stored intent. So a conclusion closes an
      intent only if its nonce created a market, and the page offers to clear one only if its nonce
      is gone for good without having created any. */
  lemma CarefulConclusions(es: seq<Event>)
    requires CarefulRun(START, es)
    ensures var w := After(START, es);
      && (w.stored.Some? && w.rec.Recovery? ==>
            w.stored.value.nonce == w.rec.intent.nonce && w.stored.value.call == w.rec.intent.call)
      && (w.stored.Some? && w.canClear ==>
            && Spent(w.finalized, w.stored.value.nonce)
            && var m := Txs(w.finalized)[w.stored.value.nonce]; !(m.ok && m.tx.call.Creation?))
      && (w.stored.Some? && Enabled(w, RecoverConclude) ==>
            && Spent(w.finalized, w.stored.value.nonce)
            && var m := Txs(w.finalized)[w.stored.value.nonce];
               Next(w, RecoverConclude).stored.None? <==> m.ok && m.tx.call.Creation?)
  {
    hide CarefulRun, After, Next, Enabled;
    StartGood();
    CarefulRunHolds(START, es);
    var w := After(START, es);
    assert w.stored.Some? ==> Fits(w, w.stored.value);
    if w.stored.Some? && Enabled(w, RecoverConclude) {
      CarefulConclusion(w);
    }
  }

  lemma CarefulConclusion(w: World)
    requires Closing(w) && PlansCreate(w) && AboutLast(w) && w.stored.Some? && Enabled(w, RecoverConclude)
    ensures Spent(w.finalized, w.stored.value.nonce)
    ensures var m := Txs(w.finalized)[w.stored.value.nonce];
      Next(w, RecoverConclude).stored.None? <==> m.ok && m.tx.call.Creation?
  {
    assert Inv(w) && Fits(w, w.rec.intent) && Fits(w, w.stored.value);
    hide Txs, Closing, Inv, Next, GoodChain, PlansCreate, ClosedSettled;
    StepConcludes(w);
  }
}
