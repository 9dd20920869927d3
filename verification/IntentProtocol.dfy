/** The market creation page: one stored intent, a wallet that may answer late or never, a chain
    whose unfinalized end may be replaced, and two RPC views that lag behind it. Every atomic step
    of the page, the wallet, the chain and the views is an event; what several steps apart may
    happen in any order. */
module IntentProtocol {
  import opened Wrappers
  import opened ChainBlocks

  datatype Stage = AWAITING_SIGNATURE | PENDING | REVERTED

  /** The record in local storage. `id` tells one submission from another; the page itself compares
      sender, nonce and call data. */
  datatype Intent = Intent(id: nat, nonce: nat, call: Call, stage: Stage, txHash: Option<Tx>)
  {
    predicate Same(i: Intent) { nonce == i.nonce && call == i.call }
  }

  datatype Answer = OPEN | SIGNED | REJECTED

  /** A wallet prompt. Its handler for late hashes is lost when the page is reloaded. */
  datatype Request = Request(intent: nat, nonce: nat, call: Call, answer: Answer, tracked: bool)

  datatype View = View(head: Block, finalized: Block)

  datatype Receipt = Receipt(m: Mined, block: Block)

  datatype Progress =
    | Started
    | Seen(receipt: Receipt, replaced: bool)
    | Finalized(receipt: Receipt, replaced: bool)
    | Proven(receipt: Receipt, replaced: bool)

  /** The recovery in flight, with the intent it was started for. */
  datatype Recovery = NoRecovery | Recovery(intent: Intent, progress: Progress)

  /** What the submit or retry handler is busy with. */
  datatype Busy = Idle | Preparing(intent: Intent) | Prompted(request: nat, retry: bool, intent: Intent)

  datatype Plan = Plan(nonce: nat, call: Call)

  datatype World = World(finalized: Block, head: Block, primary: View, recovery: View,
                         requests: seq<Request>, plans: seq<Plan>,
                         stored: Option<Intent>, canClear: bool, canRetry: bool, busy: Busy, rec: Recovery)

  datatype Event =
    | Grow(head: Block)
    | Finalize(block: Block)
    | PrimaryMoves(view: View)
    | RecoveryMoves(view: View)
    | Sign(request: nat)
    | Reject(request: nat)
    | Submit(nonce: nat, call: Call)
    | RetryStart
    | RetrySend(primaryPending: nat, recoveryPending: nat)
    | WalletAnswers
    | WalletRejects
    | Timeout
    | LateHash(request: nat)
    | Reload
    | Clear
    | RecoverStart
    | RecoverRetryable(primaryPending: nat, recoveryPending: nat)
    | RecoverLocate(tx: Tx)
    | RecoverReceipt(tx: Tx, receipt: Receipt)
    | RecoverFinalized
    | RecoverCanonical
    | RecoverConclude
    | RecoverStop

  /** The one transaction a signed request stands for: the wallet keeps nonce and call data. */
  function TxOf(w: World, r: nat): Tx
    requires r < |w.requests|
  {
    Tx(w.requests[r].nonce, w.requests[r].call, Page(r))
  }

  predicate SignedTx(w: World, tx: Tx) {
    tx.origin.Page? ==>
      var r := tx.origin.request;
      r < |w.requests| && w.requests[r].answer == SIGNED && tx == TxOf(w, r)
  }

  /** A chain as it can exist: nonces in order, and page transactions only if signed. */
  ghost predicate GoodChain(w: World, b: Block) {
    NoncesInOrder(b) && forall i :: 0 <= i < |Txs(b)| ==> SignedTx(w, Txs(b)[i].tx)
  }

  function Count(v: View): nat {
    |Txs(v.head)|
  }

  /** `canRetryPendingWithSameNonce`: both views, latest and pending, still expect this nonce. */
  predicate CanRetry(i: Intent, latest: nat, pending: nat, recoveryLatest: nat, recoveryPending: nat) {
    && i.stage == AWAITING_SIGNATURE && i.txHash.None?
    && latest == i.nonce && pending == i.nonce && recoveryLatest == i.nonce && recoveryPending == i.nonce
  }

  /** A receipt as a view reports it: the transaction is in a block of the view's branch. */
  predicate Reports(v: View, r: Receipt) {
    r.block.Block? && r.m in r.block.txs && Ancestor(r.block, v.head)
  }

  predicate BothFinalized(w: World, b: Block) {
    Height(b) <= Height(w.primary.finalized) && Height(b) <= Height(w.recovery.finalized)
  }

  predicate BothAt(w: World, b: Block) {
    AtHeight(w.primary.head, Height(b)) == b && AtHeight(w.recovery.head, Height(b)) == b
  }

  const CONFIRMATIONS := 2

  predicate Confirmed(w: World, b: Block) {
    Height(w.primary.head) + 1 >= Height(b) + CONFIRMATIONS && Height(w.recovery.head) + 1 >= Height(b) + CONFIRMATIONS
  }

  /** A replacement must also have moved both nonce counts past the intent's. */
  predicate PastNonce(w: World, nonce: nat) {
    Count(w.primary) > nonce && Count(w.recovery) > nonce
  }

  function SetAnswer(w: World, r: nat, answer: Answer): World
    requires r < |w.requests|
  {
    w.(requests := w.requests[r := w.requests[r].(answer := answer)])
  }

  /** Storing an intent makes the page start a recovery of it, unless one is in flight. */
  function Watched(w: World, i: Intent): World {
    if w.rec.NoRecovery? then w.(rec := Recovery(i, Started), canClear := false, canRetry := false) else w
  }

  function Prompt(w: World, i: Intent, retry: bool): World {
    w.(requests := w.requests + [Request(i.id, i.nonce, i.call, OPEN, true)],
       stored := Some(i), busy := Prompted(|w.requests|, retry, i))
  }

  ghost predicate GoodView(w: World, v: View) {
    GoodChain(w, v.head) && Ancestor(v.finalized, v.head) && Ancestor(v.finalized, w.finalized)
  }

  /** Which events may happen; the chain may grow or reorganize in any way that keeps what is
      finalized, and a view may lag but never takes back what it has reported finalized. */
  ghost predicate Enabled(w: World, e: Event) {
    match e
    case Grow(head) => GoodChain(w, head) && Ancestor(w.finalized, head)
    case Finalize(b) => Ancestor(w.finalized, b) && Ancestor(b, w.head)
    case PrimaryMoves(v) => GoodView(w, v) && Ancestor(w.primary.finalized, v.finalized)
    case RecoveryMoves(v) => GoodView(w, v) && Ancestor(w.recovery.finalized, v.finalized)
    case Sign(r) => r < |w.requests| && w.requests[r].answer == OPEN
    case Reject(r) => r < |w.requests| && w.requests[r].answer == OPEN
    case Submit(_, call) => w.stored.None? && w.busy.Idle? && call.Creation?
    case RetryStart =>
      w.stored.Some? && w.busy.Idle? && w.canRetry && w.stored.value.txHash.None?
      && w.stored.value.stage == AWAITING_SIGNATURE
    case RetrySend(p, q) =>
      && w.busy.Preparing? && Count(w.primary) == w.busy.intent.nonce && Count(w.recovery) == w.busy.intent.nonce
      && p == w.busy.intent.nonce && q == w.busy.intent.nonce
    case WalletAnswers =>
      w.busy.Prompted? && w.busy.request < |w.requests| && w.requests[w.busy.request].answer == SIGNED
    case WalletRejects =>
      w.busy.Prompted? && w.busy.request < |w.requests| && w.requests[w.busy.request].answer == REJECTED
    case Timeout => !w.busy.Idle?
    case LateHash(r) => r < |w.requests| && w.requests[r].answer == SIGNED && w.requests[r].tracked
    case Reload => true
    case Clear => w.canClear && w.stored.Some?
    case RecoverStart => w.rec.NoRecovery? && w.stored.Some?
    case RecoverRetryable(p, q) =>
      w.rec.Recovery? && w.rec.progress.Started? && CanRetry(w.rec.intent, Count(w.primary), p, Count(w.recovery), q)
    case RecoverLocate(tx) =>
      w.rec.Recovery? && w.rec.progress.Started? && w.rec.intent.txHash.None?
      && tx.nonce == w.rec.intent.nonce && tx.call == w.rec.intent.call
    case RecoverReceipt(tx, receipt) =>
      && w.rec.Recovery? && w.rec.progress.Started? && receipt.m.tx == tx
      && (w.rec.intent.txHash == Some(tx)
          || (w.rec.intent.txHash.None? && tx.nonce == w.rec.intent.nonce && tx.call != w.rec.intent.call))
      && (Reports(w.primary, receipt) || Reports(w.recovery, receipt))
    case RecoverFinalized =>
      && w.rec.Recovery? && w.rec.progress.Seen? && BothFinalized(w, w.rec.progress.receipt.block)
      && Confirmed(w, w.rec.progress.receipt.block)
      && (w.rec.progress.replaced ==> PastNonce(w, w.rec.intent.nonce))
    case RecoverCanonical =>
      w.rec.Recovery? && w.rec.progress.Finalized? && BothAt(w, w.rec.progress.receipt.block)
    case RecoverConclude =>
      && w.rec.Recovery? && w.rec.progress.Proven?
      && (w.rec.progress.receipt.m.ok && !w.rec.progress.replaced ==> w.rec.progress.receipt.m.tx.call == w.rec.intent.call)
    case RecoverStop => w.rec.Recovery?
  }

  /** Success of the intent's own transaction, or of another creation with its nonce, closes the
      intent; anything else that spent the nonce makes it clearable. */
  function Concluded(w: World): World
    requires w.rec.Recovery? && w.rec.progress.Proven?
  {
    var ok, replaced := w.rec.progress.receipt.m.ok, w.rec.progress.replaced;
    var isCreate := w.rec.progress.receipt.m.tx.call.Creation?;
    var done := w.(rec := NoRecovery);
    if ok && (replaced ==> isCreate) then done.(stored := None, canClear := false, canRetry := false)
    else if replaced then done.(canClear := true)
    else done.(stored := Some(w.rec.intent.(stage := REVERTED)), canClear := true)
  }

  function Next(w: World, e: Event): World {
    match e
    case Grow(head) => w.(head := head)
    case Finalize(b) => w.(finalized := b)
    case PrimaryMoves(v) => w.(primary := v)
    case RecoveryMoves(v) => w.(recovery := v)
    case Sign(r) => if r < |w.requests| then SetAnswer(w, r, SIGNED) else w
    case Reject(r) => if r < |w.requests| then SetAnswer(w, r, REJECTED) else w
    case Submit(nonce, call) =>
      var i := Intent(|w.plans|, nonce, call, AWAITING_SIGNATURE, None);
      Watched(Prompt(w.(plans := w.plans + [Plan(nonce, call)]), i, false), i)
    case RetryStart => if w.stored.Some? then w.(busy := Preparing(w.stored.value)) else w
    case RetrySend(_, _) => if w.busy.Preparing? then Prompt(w, w.busy.intent, true) else w
    case WalletAnswers =>
      if w.busy.Prompted? && w.busy.request < |w.requests|
      then w.(stored := Some(w.busy.intent.(stage := PENDING, txHash := Some(TxOf(w, w.busy.request)))), busy := Idle,
              canRetry := w.canRetry && !w.busy.retry)
      else w
    case WalletRejects =>
      if w.busy.Prompted? && !w.busy.retry && w.stored.Some? && w.stored.value.Same(w.busy.intent) && w.stored.value.txHash.None?
      then w.(stored := None, busy := Idle)
      else w.(busy := Idle)
    case Timeout => w.(busy := Idle)
    case LateHash(r) =>
      if w.stored.Some? && w.stored.value.txHash.None? && r < |w.requests|
         && w.stored.value.nonce == w.requests[r].nonce && w.stored.value.call == w.requests[r].call
      then w.(stored := Some(w.stored.value.(stage := PENDING, txHash := Some(TxOf(w, r)))))
      else w
    case Reload =>
      w.(busy := Idle, rec := NoRecovery, canClear := false, canRetry := false,
         requests := seq(|w.requests|, k requires 0 <= k < |w.requests| => w.requests[k].(tracked := false)))
    case Clear => w.(stored := None, canClear := false, canRetry := false)
    case RecoverStart => if w.stored.Some? then Watched(w, w.stored.value) else w
    case RecoverRetryable(_, _) => w.(canRetry := true, rec := NoRecovery)
    case RecoverLocate(tx) =>
      if w.rec.Recovery? then
        var i := w.rec.intent.(stage := PENDING, txHash := Some(tx));
        w.(stored := Some(i), rec := w.rec.(intent := i))
      else w
    case RecoverReceipt(tx, receipt) =>
      if w.rec.Recovery? then w.(rec := w.rec.(progress := Seen(receipt, w.rec.intent.txHash.None?))) else w
    case RecoverFinalized =>
      if w.rec.Recovery? && w.rec.progress.Seen?
      then w.(rec := w.rec.(progress := Finalized(w.rec.progress.receipt, w.rec.progress.replaced)))
      else w
    case RecoverCanonical =>
      if w.rec.Recovery? && w.rec.progress.Finalized?
      then w.(rec := w.rec.(progress := Proven(w.rec.progress.receipt, w.rec.progress.replaced)))
      else w
    case RecoverConclude =>
      if w.rec.Recovery? && w.rec.progress.Proven? then Concluded(w) else w
    case RecoverStop => w.(rec := NoRecovery)
  }

  /** A run: every event is enabled where it happens. */
  ghost predicate Happens(w: World, es: seq<Event>)
    decreases |es|
  {
    es == [] || (Enabled(w, es[0]) && Happens(Next(w, es[0]), es[1..]))
  }

  function After(w: World, es: seq<Event>): World
    decreases |es|
  {
    if es == [] then w else After(Next(w, es[0]), es[1..])
  }

  const START := World(Genesis, Genesis, View(Genesis, Genesis), View(Genesis, Genesis), [], [],
                       None, false, false, Idle, NoRecovery)
}
