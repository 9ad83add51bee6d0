/**
 * The Starknet withdrawal step (`StarknetWalletWithdrawStep`): four pieces of
 * component state (`loading`, `account`, `isWrongNetwork`, `transferDone`),
 * the handlers that change them (connect, disconnect, transfer, refresh), the
 * reconciliation effect that forces navigation from the backend's swap
 * status, and the guards that decide which buttons are offered.
 *
 * Every state setter and every call into the wallet SDK, the backend or the
 * wizard is recorded, in order, as an `Effect`. The state is a function of
 * the recorded effects (`Replay`), and each handler is specified by the
 * effect sequence it produces for given SDK outcomes (`ConnectEffects`,
 * `TransferEffects`, ...). The wallet SDK results and the backend responses
 * are parameters, so each handler is specified for each of them.
 */
module StarknetWithdraw {
  import opened Wrappers
  import opened StarknetAmount

  /**
   * A swap status; only `UserTransferPending` is named by this step. The name
   * of an `OtherStatus` is never "UserTransferPending".
   */
  datatype SwapStatus = UserTransferPending | OtherStatus(name: string)

  /**
   * Steps of the withdrawal wizard; only `SwapProcessing` is named by this
   * step. The name of an `OtherStep` is never "SwapProcessing".
   */
  datatype WithdrawalStep = SwapProcessing | OtherStep(name: string)

  /** The status this step reports with a published transaction. */
  datatype PublishedTxStatus = Completed

  datatype Swap = Swap(id: string, requestedAmount: Decimal, sequenceNumber: int, status: SwapStatus)

  /** A Starknet account handle: its address and the chain it is connected to. */
  datatype Account = Account(address: string, chainId: string)

  /** The wallet object `connect()` resolves to; it may carry no account. */
  datatype Wallet = Wallet(account: Option<Account>)

  /** The source currency on the source network. */
  datatype Currency = Currency(contractAddress: string, decimals: Option<nat>)

  /**
   * What `connect()` does: rejects with an error, rejects with `null` or
   * `undefined` (so reading its `message` throws), or resolves (possibly to
   * nothing).
   */
  datatype ConnectOutcome = ConnectThrew(message: string) | ConnectThrewNullish | Connected(wallet: Option<Wallet>)

  /** What `account.execute(calls)` does: rejects, or resolves with a (possibly missing) hash. */
  datatype ExecuteOutcome = ExecuteThrew(message: string) | Executed(transactionHash: Option<string>)

  /** A populated contract call. */
  datatype Call =
    | Erc20Transfer(token: string, recipient: string, amount: Uint256)
    | WatchdogWatch(watchdog: string, sequenceNumber: int)

  /** Everything the transfer handler reads besides the component state. */
  datatype TransferContext = TransferContext(
    swap: Swap,
    sourceCurrency: Option<Currency>,
    depositAddress: Option<string>,
    watchdogContract: string)

  /** One observable action of the step, in the order the code performs it. */
  datatype Effect =
    | LoadingSet(on: bool)
    | AccountSet(account: Option<Account>)
    | WrongNetworkSet(wrong: bool)
    | TransferDoneSet(done: bool)
    | WalletConnectCalled
    | WalletDisconnectCalled(clearLastWallet: bool)
    | ExecuteCalled(calls: seq<Call>)
    | PublishedTxSet(swapId: string, status: PublishedTxStatus, hash: string)
    | SwapMutated
    | StepChanged(step: WithdrawalStep)
    | Toasted(message: string)

  datatype Field = LoadingField | AccountField | WrongNetworkField | TransferDoneField

  datatype StepState = StepState(loading: bool, account: Option<Account>, isWrongNetwork: bool, transferDone: bool)

  /** The `useState` initial values; an unset boolean is falsy like `false`. */
  const Initial := StepState(false, None, false, false)

  const NOT_CONNECTED := "starknet wallet not connected"
  const TRANSFER_FAILED := "Transfer failed or terminated"
  /** Stands for the runtime's TypeError text on reading a field of `undefined`. */
  const TYPE_ERROR := "TypeError: cannot read properties of undefined"
  /** Stands for the message of the error `parseUnits`/`bnToUint256` throw. */
  const AMOUNT_ERROR := "invalid amount"

  /** The state field an effect writes, if any. */
  function Writes(e: Effect): Option<Field> {
    match e
    case LoadingSet(_) => Some(LoadingField)
    case AccountSet(_) => Some(AccountField)
    case WrongNetworkSet(_) => Some(WrongNetworkField)
    case TransferDoneSet(_) => Some(TransferDoneField)
    case _ => None
  }

  function Apply(s: StepState, e: Effect): (r: StepState)
    ensures Writes(e).None? ==> r == s
  {
    match e
    case LoadingSet(b) => s.(loading := b)
    case AccountSet(a) => s.(account := a)
    case WrongNetworkSet(b) => s.(isWrongNetwork := b)
    case TransferDoneSet(b) => s.(transferDone := b)
    case _ => s
  }

  /** The state after performing `es`, in order, from `s`. */
  function Replay(s: StepState, es: seq<Effect>): StepState
    decreases |es|
  {
    if es == [] then s else Apply(Replay(s, es[..|es| - 1]), es[|es| - 1])
  }

  predicate Agree(s: StepState, t: StepState, f: Field) {
    match f
    case LoadingField => s.loading == t.loading
    case AccountField => s.account == t.account
    case WrongNetworkField => s.isWrongNetwork == t.isWrongNetwork
    case TransferDoneField => s.transferDone == t.transferDone
  }

  /** JavaScript truthiness of an optional string. */
  predicate Truthy(o: Option<string>) {
    o.Some? && o.value != ""
  }

  // ---------------------------------------------------------------------
  // The handlers, as the effect sequences they produce
  // ---------------------------------------------------------------------

  /** `res?.account?.chainId` */
  function ReportedChainId(w: Option<Wallet>): Option<string> {
    if w.Some? && w.value.account.Some? then Some(w.value.account.value.chainId) else None
  }

  /** `res?.account` */
  function AccountOf(w: Option<Wallet>): Option<Account> {
    if w.Some? then w.value.account else None
  }

  /** `handleConnect` against the source network's chain id. */
  function ConnectEffects(sourceChainId: Option<string>, outcome: ConnectOutcome): seq<Effect> {
    [LoadingSet(true), WalletConnectCalled] + ConnectSettled(sourceChainId, outcome) + LoadingReleased(outcome)
  }

  /**
   * The final `setLoading(false)`. A nullish rejection makes `e.message` in
   * the `catch` block throw, and the handler stops before reaching it.
   */
  function LoadingReleased(outcome: ConnectOutcome): seq<Effect> {
    if outcome.ConnectThrewNullish? then [] else [LoadingSet(false)]
  }

  /** What `handleConnect` does once `connect` has settled. */
  function ConnectSettled(sourceChainId: Option<string>, outcome: ConnectOutcome): seq<Effect> {
    match outcome
    case ConnectThrew(message) => [Toasted(message)]
    case ConnectThrewNullish => []
    case Connected(w) =>
      if ReportedChainId(w) != sourceChainId then [WrongNetworkSet(true), WalletDisconnectCalled(false)]
      else [WrongNetworkSet(false), AccountSet(AccountOf(w))]
  }

  /** `handleDisconnect` */
  function DisconnectEffects(): seq<Effect> {
    [WalletDisconnectCalled(true), AccountSet(None)]
  }

  /** `handleRefresh`: reconnects and stores the account without a chain check. */
  function RefreshEffects(outcome: ConnectOutcome): seq<Effect> {
    match outcome
    case Connected(w) => [WalletConnectCalled, AccountSet(AccountOf(w))]
    case _ => [WalletConnectCalled]
  }

  /** The reconciliation effect: navigate when the backend is past the user's transfer. */
  function ReconcileEffects(classified: Option<WithdrawalStep>, status: SwapStatus): seq<Effect> {
    if classified.Some? && status != UserTransferPending then [StepChanged(classified.value)] else []
  }

  /** The precision `parseInputAmountToUint256` ends up using. */
  function DecimalsOf(currency: Currency): nat {
    if currency.decimals.Some? then currency.decimals.value else DEFAULT_DECIMALS
  }

  /** The amount argument of the ERC-20 transfer; an undeclared precision takes the default. */
  function EncodeAmount(swap: Swap, currency: Currency): (r: Option<Uint256>)
    ensures r.Some? ==> IsUint256Struct(r.value)
    ensures r.Some? ==> Scales(Uint256ToBn(r.value), swap.requestedAmount, DecimalsOf(currency))
  {
    match currency.decimals
    case None => ParseInputAmountToUint256(swap.requestedAmount)
    case Some(d) => ParseInputAmountToUint256(swap.requestedAmount, d)
  }

  /** The batch handed to `account.execute`: the token transfer, then the watchdog call. */
  function TransferCalls(ctx: TransferContext, amount: Uint256): seq<Call>
    requires ctx.sourceCurrency.Some? && ctx.depositAddress.Some?
  {
    [Erc20Transfer(ctx.sourceCurrency.value.contractAddress, ctx.depositAddress.value, amount),
     WatchdogWatch(ctx.watchdogContract, ctx.swap.sequenceNumber)]
  }

  /** The outer `catch`: toast the error only when it has a message. */
  function OuterCatch(message: string): seq<Effect> {
    if message != "" then [Toasted(message)] else []
  }

  /** What follows a resolved or rejected `execute`. */
  function AfterExecute(swapId: string, outcome: ExecuteOutcome, mutateError: Option<string>): seq<Effect> {
    match outcome
    case ExecuteThrew(message) => [Toasted(message)]
    case Executed(hash) =>
      if Truthy(hash) then Published(swapId, hash.value, mutateError)
      else [Toasted(TRANSFER_FAILED)]
  }

  /** Publishing the hash, then advancing unless refreshing the swap failed. */
  function Published(swapId: string, hash: string, mutateError: Option<string>): seq<Effect> {
    [PublishedTxSet(swapId, Completed, hash), SwapMutated]
    + (match mutateError
       case None => [StepChanged(SwapProcessing), TransferDoneSet(true)]
       case Some(message) => [Toasted(message)])
  }

  /** The body of `handleTransfer` between the two `setLoading` calls. */
  function TransferAttempt(account: Option<Account>, ctx: TransferContext, outcome: ExecuteOutcome, mutateError: Option<string>): seq<Effect> {
    if account.None? then OuterCatch(NOT_CONNECTED) else TransferWithAccount(ctx, outcome, mutateError)
  }

  /** Building the two calls and submitting them, once an account is connected. */
  function TransferWithAccount(ctx: TransferContext, outcome: ExecuteOutcome, mutateError: Option<string>): seq<Effect> {
    if ctx.sourceCurrency.None? || ctx.depositAddress.None? then OuterCatch(TYPE_ERROR)
    else match EncodeAmount(ctx.swap, ctx.sourceCurrency.value)
      case None => OuterCatch(AMOUNT_ERROR)
      case Some(amount) =>
        [ExecuteCalled(TransferCalls(ctx, amount))] + AfterExecute(ctx.swap.id, outcome, mutateError)
  }

  /** `handleTransfer` */
  function TransferEffects(account: Option<Account>, ctx: TransferContext, outcome: ExecuteOutcome, mutateError: Option<string>): seq<Effect> {
    [LoadingSet(true)] + TransferAttempt(account, ctx, outcome, mutateError) + [LoadingSet(false)]
  }

  // ---------------------------------------------------------------------
  // Which controls are offered
  // ---------------------------------------------------------------------

  /** The Connect button is rendered. */
  predicate ConnectShown(s: StepState) {
    s.account.None?
  }

  /** The Connect button is clickable. */
  predicate ConnectEnabled(s: StepState) {
    !s.loading
  }

  /** The Transfer button is rendered. */
  predicate TransferShown(s: StepState, depositAddress: Option<string>) {
    s.account.Some? && Truthy(depositAddress) && !s.isWrongNetwork
  }

  /** The Transfer button is clickable. */
  predicate TransferEnabled(s: StepState) {
    !(s.loading || s.transferDone)
  }

  /** A stored account is connected to the required chain. */
  predicate AccountOnChain(s: StepState, sourceChainId: Option<string>) {
    s.account.Some? ==> Some(s.account.value.chainId) == sourceChainId
  }

  // ---------------------------------------------------------------------
  // The component
  // ---------------------------------------------------------------------

  class WithdrawStep {
    var loading: bool
    var account: Option<Account>
    var isWrongNetwork: bool
    var transferDone: bool
    /** Every effect performed so far, oldest first. */
    var trace: seq<Effect>

    function State(): StepState
      reads this
    {
      StepState(loading, account, isWrongNetwork, transferDone)
    }

    /** The state is exactly what the recorded effects produce from the initial state. */
    ghost predicate Valid()
      reads this
    {
      State() == Replay(Initial, trace)
    }

    constructor ()
      ensures Valid() && trace == [] && State() == Initial
    {
      loading, account, isWrongNetwork, transferDone := false, None, false, false;
      trace := [];
    }

    /** Performs one effect: a state setter updates its field, a call is only recorded. */
    method Perform(e: Effect)
      requires Valid()
      modifies this
      ensures Valid()
      ensures trace == old(trace) + [e]
      ensures State() == Apply(old(State()), e)
    {
      ghost var before := State();
      match e {
        case LoadingSet(b) => loading := b;
        case AccountSet(a) => account := a;
        case WrongNetworkSet(b) => isWrongNetwork := b;
        case TransferDoneSet(b) => transferDone := b;
        case _ =>
      }
      assert State() == Apply(before, e);
      ReplaySnoc(Initial, trace, e);
      trace := trace + [e];
    }

    method HandleConnect(sourceChainId: Option<string>, outcome: ConnectOutcome)
      requires Valid()
      modifies this
      ensures Valid()
      ensures trace == old(trace) + ConnectEffects(sourceChainId, outcome)
      ensures State() == Replay(old(State()), ConnectEffects(sourceChainId, outcome))
    {
      Perform(LoadingSet(true));
      Perform(WalletConnectCalled);
      assert trace == old(trace) + [LoadingSet(true), WalletConnectCalled];
      Settle(sourceChainId, outcome);
      if !outcome.ConnectThrewNullish? {
        Perform(LoadingSet(false));
      }
      assert trace == old(trace) + ([LoadingSet(true), WalletConnectCalled] + ConnectSettled(sourceChainId, outcome)
                                    + LoadingReleased(outcome));
      ReplayConcat(Initial, old(trace), ConnectEffects(sourceChainId, outcome));
    }

    /** The awaited `connect` call settling: check the chain, or toast the rejection. */
    method Settle(sourceChainId: Option<string>, outcome: ConnectOutcome)
      requires Valid()
      modifies this
      ensures Valid()
      ensures trace == old(trace) + ConnectSettled(sourceChainId, outcome)
    {
      match outcome {
        case ConnectThrew(message) =>
          Perform(Toasted(message));
        case ConnectThrewNullish =>
        case Connected(w) =>
          if ReportedChainId(w) != sourceChainId {
            Perform(WrongNetworkSet(true));
            Perform(WalletDisconnectCalled(false));
          } else {
            Perform(WrongNetworkSet(false));
            Perform(AccountSet(AccountOf(w)));
          }
      }
    }

    method HandleDisconnect()
      requires Valid()
      modifies this
      ensures Valid()
      ensures trace == old(trace) + DisconnectEffects()
      ensures State() == Replay(old(State()), DisconnectEffects())
    {
      Perform(WalletDisconnectCalled(true));
      Perform(AccountSet(None));
      ReplayConcat(Initial, old(trace), DisconnectEffects());
    }

    method HandleRefresh(outcome: ConnectOutcome)
      requires Valid()
      modifies this
      ensures Valid()
      ensures trace == old(trace) + RefreshEffects(outcome)
      ensures State() == Replay(old(State()), RefreshEffects(outcome))
    {
      Perform(WalletConnectCalled);
      if outcome.Connected? {
        Perform(AccountSet(AccountOf(outcome.wallet)));
      }
      ReplayConcat(Initial, old(trace), RefreshEffects(outcome));
    }

    /** The effect run on every change of the swap or of its classified step. */
    method Reconcile(classified: Option<WithdrawalStep>, swap: Swap)
      requires Valid()
      modifies this
      ensures Valid()
      ensures trace == old(trace) + ReconcileEffects(classified, swap.status)
      ensures State() == Replay(old(State()), ReconcileEffects(classified, swap.status))
    {
      if classified.Some? && swap.status != UserTransferPending {
        Perform(StepChanged(classified.value));
      }
      ReplayConcat(Initial, old(trace), ReconcileEffects(classified, swap.status));
    }

    method HandleTransfer(ctx: TransferContext, outcome: ExecuteOutcome, mutateError: Option<string>)
      requires Valid()
      modifies this
      ensures Valid()
      ensures trace == old(trace) + TransferEffects(old(account), ctx, outcome, mutateError)
      ensures State() == Replay(old(State()), TransferEffects(old(account), ctx, outcome, mutateError))
    {
      var signedIn := account;
      ghost var before := trace;
      Perform(LoadingSet(true));
      Attempt(signedIn, ctx, outcome, mutateError);
      Perform(LoadingSet(false));
      Bracketed(before, TransferAttempt(signedIn, ctx, outcome, mutateError));
      ReplayConcat(Initial, old(trace), TransferEffects(old(account), ctx, outcome, mutateError));
    }

    /** The `try` block of `handleTransfer` with its outer `catch`. */
    method Attempt(signedIn: Option<Account>, ctx: TransferContext, outcome: ExecuteOutcome, mutateError: Option<string>)
      requires Valid()
      modifies this
      ensures Valid()
      ensures trace == old(trace) + TransferAttempt(signedIn, ctx, outcome, mutateError)
    {
      if signedIn.None? {
        Throw(NOT_CONNECTED);
      } else {
        BuildAndSubmit(ctx, outcome, mutateError);
      }
    }

    /** Reading the currency and deposit address, encoding the amount, and submitting. */
    method BuildAndSubmit(ctx: TransferContext, outcome: ExecuteOutcome, mutateError: Option<string>)
      requires Valid()
      modifies this
      ensures Valid()
      ensures account == old(account)
      ensures trace == old(trace) + TransferWithAccount(ctx, outcome, mutateError)
    {
      if ctx.sourceCurrency.None? || ctx.depositAddress.None? {
        Throw(TYPE_ERROR);
      } else {
        var amount := EncodeAmount(ctx.swap, ctx.sourceCurrency.value);
        match amount {
          case None =>
            Throw(AMOUNT_ERROR);
          case Some(a) =>
            Execute(ctx, a, outcome, mutateError);
        }
      }
    }

    /** `account.execute` on the two calls, then what follows it. */
    method Execute(ctx: TransferContext, amount: Uint256, outcome: ExecuteOutcome, mutateError: Option<string>)
      requires Valid()
      requires ctx.sourceCurrency.Some? && ctx.depositAddress.Some?
      modifies this
      ensures Valid()
      ensures account == old(account)
      ensures trace == old(trace) + ([ExecuteCalled(TransferCalls(ctx, amount))] + AfterExecute(ctx.swap.id, outcome, mutateError))
    {
      Perform(ExecuteCalled(TransferCalls(ctx, amount)));
      Submit(ctx.swap.id, outcome, mutateError);
    }

    /** Awaiting `execute`, then publishing, refreshing and advancing on a truthy hash. */
    method Submit(swapId: string, outcome: ExecuteOutcome, mutateError: Option<string>)
      requires Valid()
      modifies this
      ensures Valid()
      ensures account == old(account)
      ensures trace == old(trace) + AfterExecute(swapId, outcome, mutateError)
    {
      match outcome {
        case ExecuteThrew(message) =>
          Perform(Toasted(message));
        case Executed(hash) =>
          if Truthy(hash) {
            Publish(swapId, hash.value, mutateError);
          } else {
            Perform(Toasted(TRANSFER_FAILED));
          }
      }
    }

    /** Recording the hash on the swap, refreshing it, then advancing to processing. */
    method Publish(swapId: string, hash: string, mutateError: Option<string>)
      requires Valid()
      modifies this
      ensures Valid()
      ensures account == old(account)
      ensures trace == old(trace) + Published(swapId, hash, mutateError)
    {
      Perform(PublishedTxSet(swapId, Completed, hash));
      Perform(SwapMutated);
      if mutateError.Some? {
        Perform(Toasted(mutateError.value));
      } else {
        Perform(StepChanged(SwapProcessing));
        Perform(TransferDoneSet(true));
      }
    }

    /** The outer `catch` of `handleTransfer`. */
    method Throw(message: string)
      requires Valid()
      modifies this
      ensures Valid()
      ensures trace == old(trace) + OuterCatch(message)
      ensures State() == old(State())
      ensures account == old(account)
    {
      if message != "" {
        Perform(Toasted(message));
      }
    }
  }

  // ---------------------------------------------------------------------
  // Properties
  // ---------------------------------------------------------------------

  /** Regrouping a handler's trace around its `setLoading(true)` ... `setLoading(false)` bracket. */
  lemma Bracketed(before: seq<Effect>, body: seq<Effect>)
    ensures before + [LoadingSet(true)] + body + [LoadingSet(false)]
         == before + ([LoadingSet(true)] + body + [LoadingSet(false)])
  {
  }

  /** Performing one more effect applies it to the state reached so far. */
  lemma ReplaySnoc(s: StepState, es: seq<Effect>, e: Effect)
    ensures Replay(s, es + [e]) == Apply(Replay(s, es), e)
  {
  }

  /** Performing two effect sequences in turn is performing their concatenation. */
  lemma {:induction false} ReplayConcat(s: StepState, a: seq<Effect>, b: seq<Effect>)
    ensures Replay(s, a + b) == Replay(Replay(s, a), b)
    decreases |b|
  {
    if b != [] {
      assert (a + b)[..|a + b| - 1] == a + b[..|b| - 1];
      ReplayConcat(s, a, b[..|b| - 1]);
    } else {
      assert a + b == a;
    }
  }

  /** Effects that write none of a field leave it as it was. */
  lemma {:induction false} ReplayFrame(s: StepState, es: seq<Effect>, f: Field)
    requires forall i | 0 <= i < |es| :: Writes(es[i]) != Some(f)
    ensures Agree(s, Replay(s, es), f)
    decreases |es|
  {
    if es != [] {
      ReplayFrame(s, es[..|es| - 1], f);
    }
  }

  /** The last write of a field decides its value. */
  lemma LastWriteWins(s: StepState, es: seq<Effect>, k: nat, f: Field)
    requires k < |es| && Writes(es[k]) == Some(f)
    requires forall i | k < i < |es| :: Writes(es[i]) != Some(f)
    ensures Agree(Apply(Replay(s, es[..k]), es[k]), Replay(s, es), f)
  {
    ReplayConcat(s, es[..k + 1], es[k + 1..]);
    assert es[..k + 1] + es[k + 1..] == es;
    assert es[..k + 1][..k] == es[..k];
    ReplayFrame(Replay(s, es[..k + 1]), es[k + 1..], f);
  }

  /**
   * A handler bracketed by `setLoading(true)` ... `setLoading(false)` with no
   * other write of `loading` in between holds `loading` true after every
   * effect but the last, and ends with it false.
   */
  lemma LoadingHeld(s: StepState, es: seq<Effect>)
    requires |es| >= 2 && es[0] == LoadingSet(true) && es[|es| - 1] == LoadingSet(false)
    requires forall i | 0 < i < |es| - 1 :: Writes(es[i]) != Some(LoadingField)
    ensures forall k | 1 <= k < |es| :: Replay(s, es[..k]).loading
    ensures !Replay(s, es).loading
  {
    forall k | 1 <= k < |es| ensures Replay(s, es[..k]).loading {
      var head, rest := es[..1], es[1..k];
      assert es[..k] == head + rest;
      ReplayConcat(s, head, rest);
      assert Replay(s, head).loading by {
        assert head[..0] == [];
      }
      ReplayFrame(Replay(s, head), rest, LoadingField);
    }
  }

  /**
   * `loading` is true while `handleConnect` runs, whatever `connect()` does,
   * and false after it unless `connect()` rejected with `null` or `undefined`.
   */
  lemma ConnectHoldsLoading(s: StepState, sourceChainId: Option<string>, outcome: ConnectOutcome)
    ensures forall k | 1 <= k < |ConnectEffects(sourceChainId, outcome)| ::
      Replay(s, ConnectEffects(sourceChainId, outcome)[..k]).loading
    ensures Replay(s, ConnectEffects(sourceChainId, outcome)).loading <==> outcome.ConnectThrewNullish?
  {
    if outcome.ConnectThrewNullish? {
      ConnectNullishStaysLoading(s, sourceChainId);
    } else {
      LoadingHeld(s, ConnectEffects(sourceChainId, outcome));
    }
  }

  /**
   * A `connect()` rejected with `null` or `undefined`: reading `e.message` in
   * the `catch` block throws, so nothing is toasted, `setLoading(false)` is
   * never reached and Connect stays disabled.
   */
  lemma ConnectNullishStaysLoading(s: StepState, sourceChainId: Option<string>)
    ensures ConnectEffects(sourceChainId, ConnectThrewNullish) == [LoadingSet(true), WalletConnectCalled]
    ensures Replay(s, ConnectEffects(sourceChainId, ConnectThrewNullish)) == s.(loading := true)
    ensures !ConnectEnabled(Replay(s, ConnectEffects(sourceChainId, ConnectThrewNullish)))
  {
    var es := ConnectEffects(sourceChainId, ConnectThrewNullish);
    assert es[..1] == [LoadingSet(true)];
    ReplaySnoc(s, [], LoadingSet(true));
    ReplaySnoc(s, [LoadingSet(true)], WalletConnectCalled);
    assert [LoadingSet(true)] + [WalletConnectCalled] == es;
  }

  /** `loading` is true while `handleTransfer` runs and false after it, on every path. */
  lemma TransferHoldsLoading(s: StepState, ctx: TransferContext, outcome: ExecuteOutcome, mutateError: Option<string>)
    ensures forall k | 1 <= k < |TransferEffects(s.account, ctx, outcome, mutateError)| ::
      Replay(s, TransferEffects(s.account, ctx, outcome, mutateError)[..k]).loading
    ensures !Replay(s, TransferEffects(s.account, ctx, outcome, mutateError)).loading
  {
    var es := TransferEffects(s.account, ctx, outcome, mutateError);
    TransferWrites(s.account, ctx, outcome, mutateError);
    LoadingHeld(s, es);
  }

  /** While a handler runs, its own button is disabled: Connect during `handleConnect`, Transfer during `handleTransfer`. */
  lemma HandlersDisableTheirButtons(s: StepState, sourceChainId: Option<string>, connect: ConnectOutcome,
                                    ctx: TransferContext, outcome: ExecuteOutcome, mutateError: Option<string>)
    ensures forall k | 1 <= k < |ConnectEffects(sourceChainId, connect)| ::
      !ConnectEnabled(Replay(s, ConnectEffects(sourceChainId, connect)[..k]))
    ensures forall k | 1 <= k < |TransferEffects(s.account, ctx, outcome, mutateError)| ::
      !TransferEnabled(Replay(s, TransferEffects(s.account, ctx, outcome, mutateError)[..k]))
  {
    ConnectHoldsLoading(s, sourceChainId, connect);
    TransferHoldsLoading(s, ctx, outcome, mutateError);
  }

  /** Between its two `setLoading` calls `handleTransfer` writes only `transferDone`. */
  lemma TransferWrites(account: Option<Account>, ctx: TransferContext, outcome: ExecuteOutcome, mutateError: Option<string>)
    ensures forall i | 0 <= i < |TransferAttempt(account, ctx, outcome, mutateError)| ::
      Writes(TransferAttempt(account, ctx, outcome, mutateError)[i]) in {None, Some(TransferDoneField)}
  {
  }

  /** Over the whole of `handleTransfer`, only `loading` and `transferDone` are written. */
  lemma TransferEffectsWrites(account: Option<Account>, ctx: TransferContext, outcome: ExecuteOutcome, mutateError: Option<string>)
    ensures forall i | 0 <= i < |TransferEffects(account, ctx, outcome, mutateError)| ::
      Writes(TransferEffects(account, ctx, outcome, mutateError)[i]) in {None, Some(LoadingField), Some(TransferDoneField)}
  {
  }

  /** `handleTransfer` leaves the account and the wrong-network flag as they were. */
  lemma TransferKeepsConnection(s: StepState, ctx: TransferContext, outcome: ExecuteOutcome, mutateError: Option<string>)
    ensures Replay(s, TransferEffects(s.account, ctx, outcome, mutateError)).account == s.account
    ensures Replay(s, TransferEffects(s.account, ctx, outcome, mutateError)).isWrongNetwork == s.isWrongNetwork
  {
    var es := TransferEffects(s.account, ctx, outcome, mutateError);
    TransferEffectsWrites(s.account, ctx, outcome, mutateError);
    ReplayFrame(s, es, AccountField);
    ReplayFrame(s, es, WrongNetworkField);
  }

  /** A rejected `connect()` only toasts: account and network flag are untouched. */
  lemma ConnectRejected(s: StepState, sourceChainId: Option<string>, message: string)
    ensures ConnectEffects(sourceChainId, ConnectThrew(message))
         == [LoadingSet(true), WalletConnectCalled, Toasted(message), LoadingSet(false)]
    ensures Replay(s, ConnectEffects(sourceChainId, ConnectThrew(message))) == s.(loading := false)
  {
    var es := ConnectEffects(sourceChainId, ConnectThrew(message));
    LastWriteWins(s, es, 3, LoadingField);
    ReplayFrame(s, es, AccountField);
    ReplayFrame(s, es, WrongNetworkField);
    ReplayFrame(s, es, TransferDoneField);
  }

  /**
   * A wallet on another chain than the source network's: the flag is raised,
   * the wallet is disconnected, and no account is stored.
   */
  lemma ConnectWrongChain(s: StepState, sourceChainId: Option<string>, w: Option<Wallet>)
    requires ReportedChainId(w) != sourceChainId
    ensures ConnectEffects(sourceChainId, Connected(w))
         == [LoadingSet(true), WalletConnectCalled, WrongNetworkSet(true), WalletDisconnectCalled(false), LoadingSet(false)]
    ensures Replay(s, ConnectEffects(sourceChainId, Connected(w))) == s.(loading := false, isWrongNetwork := true)
  {
    var es := ConnectEffects(sourceChainId, Connected(w));
    LastWriteWins(s, es, 4, LoadingField);
    LastWriteWins(s, es, 2, WrongNetworkField);
    ReplayFrame(s, es, AccountField);
    ReplayFrame(s, es, TransferDoneField);
  }

  /** A wallet on the source network's chain: the flag is cleared and the wallet's account stored. */
  lemma ConnectMatchingChain(s: StepState, sourceChainId: Option<string>, w: Option<Wallet>)
    requires ReportedChainId(w) == sourceChainId
    ensures ConnectEffects(sourceChainId, Connected(w))
         == [LoadingSet(true), WalletConnectCalled, WrongNetworkSet(false), AccountSet(AccountOf(w)), LoadingSet(false)]
    ensures Replay(s, ConnectEffects(sourceChainId, Connected(w)))
         == s.(loading := false, isWrongNetwork := false, account := AccountOf(w))
  {
    var es := ConnectEffects(sourceChainId, Connected(w));
    LastWriteWins(s, es, 4, LoadingField);
    LastWriteWins(s, es, 2, WrongNetworkField);
    LastWriteWins(s, es, 3, AccountField);
    ReplayFrame(s, es, TransferDoneField);
  }

  /**
   * Connect, disconnect, transfer and reconciliation never leave an account
   * on another chain than the source network's.
   */
  lemma HandlersKeepAccountOnChain(s: StepState, sourceChainId: Option<string>, connect: ConnectOutcome,
                                   ctx: TransferContext, execute: ExecuteOutcome, mutateError: Option<string>,
                                   classified: Option<WithdrawalStep>, status: SwapStatus)
    requires AccountOnChain(s, sourceChainId)
    ensures AccountOnChain(Replay(s, ConnectEffects(sourceChainId, connect)), sourceChainId)
    ensures AccountOnChain(Replay(s, DisconnectEffects()), sourceChainId)
    ensures AccountOnChain(Replay(s, TransferEffects(s.account, ctx, execute, mutateError)), sourceChainId)
    ensures AccountOnChain(Replay(s, ReconcileEffects(classified, status)), sourceChainId)
  {
    ConnectKeepsAccountOnChain(s, sourceChainId, connect);
    DisconnectOffersConnect(s, None);
    TransferKeepsConnection(s, ctx, execute, mutateError);
    ReconcileForcesNavigation(s, classified, status);
  }

  /** Whatever `connect()` does, `handleConnect` never stores an account on another chain. */
  lemma ConnectKeepsAccountOnChain(s: StepState, sourceChainId: Option<string>, connect: ConnectOutcome)
    requires AccountOnChain(s, sourceChainId)
    ensures AccountOnChain(Replay(s, ConnectEffects(sourceChainId, connect)), sourceChainId)
  {
    match connect {
      case ConnectThrew(m) => ConnectRejected(s, sourceChainId, m);
      case ConnectThrewNullish => ConnectNullishStaysLoading(s, sourceChainId);
      case Connected(w) =>
        if ReportedChainId(w) != sourceChainId {
          ConnectWrongChain(s, sourceChainId, w);
        } else {
          ConnectMatchingChain(s, sourceChainId, w);
        }
    }
  }

  /** `handleRefresh` stores whatever account the wallet reports, even one on another chain. */
  lemma RefreshSkipsChainCheck(s: StepState, sourceChainId: string, acct: Account)
    requires acct.chainId != sourceChainId
    ensures Replay(s, RefreshEffects(Connected(Some(Wallet(Some(acct)))))).account == Some(acct)
    ensures !AccountOnChain(Replay(s, RefreshEffects(Connected(Some(Wallet(Some(acct)))))), Some(sourceChainId))
  {
  }

  /**
   * A successful transfer submits exactly the token transfer and the
   * watchdog call, in that order, then publishes the hash, refreshes the
   * swap, moves to processing and marks the transfer done, in that order.
   */
  lemma TransferSucceeds(s: StepState, ctx: TransferContext, amount: Uint256, hash: string)
    requires s.account.Some? && ctx.sourceCurrency.Some? && ctx.depositAddress.Some?
    requires EncodeAmount(ctx.swap, ctx.sourceCurrency.value) == Some(amount)
    requires hash != ""
    ensures TransferEffects(s.account, ctx, Executed(Some(hash)), None)
         == [LoadingSet(true),
             ExecuteCalled([Erc20Transfer(ctx.sourceCurrency.value.contractAddress, ctx.depositAddress.value, amount),
                            WatchdogWatch(ctx.watchdogContract, ctx.swap.sequenceNumber)]),
             PublishedTxSet(ctx.swap.id, Completed, hash),
             SwapMutated,
             StepChanged(SwapProcessing),
             TransferDoneSet(true),
             LoadingSet(false)]
    ensures IsUint256Struct(amount)
    ensures Scales(Uint256ToBn(amount), ctx.swap.requestedAmount, DecimalsOf(ctx.sourceCurrency.value))
    ensures Replay(s, TransferEffects(s.account, ctx, Executed(Some(hash)), None))
         == s.(loading := false, transferDone := true)
    ensures !TransferEnabled(Replay(s, TransferEffects(s.account, ctx, Executed(Some(hash)), None)))
  {
    var es := TransferEffects(s.account, ctx, Executed(Some(hash)), None);
    LastWriteWins(s, es, 6, LoadingField);
    LastWriteWins(s, es, 5, TransferDoneField);
    ReplayFrame(s, es, AccountField);
    ReplayFrame(s, es, WrongNetworkField);
  }

  /**
   * Without an account, or when `execute` rejects or resolves without a
   * hash, nothing is published, the step does not change, `transferDone`
   * keeps its value and only `loading` ends false.
   */
  lemma TransferNotConfirmed(s: StepState, ctx: TransferContext, outcome: ExecuteOutcome, mutateError: Option<string>)
    requires s.account.None? || outcome.ExecuteThrew? || !Truthy(outcome.transactionHash)
    ensures forall i | 0 <= i < |TransferEffects(s.account, ctx, outcome, mutateError)| ::
      var e := TransferEffects(s.account, ctx, outcome, mutateError)[i];
      !e.PublishedTxSet? && !e.StepChanged? && !e.TransferDoneSet? && !e.SwapMutated?
    ensures s.account.None? ==>
      TransferEffects(s.account, ctx, outcome, mutateError) == [LoadingSet(true), Toasted(NOT_CONNECTED), LoadingSet(false)]
    ensures Replay(s, TransferEffects(s.account, ctx, outcome, mutateError)) == s.(loading := false)
  {
    var attempt := TransferAttempt(s.account, ctx, outcome, mutateError);
    var es := TransferEffects(s.account, ctx, outcome, mutateError);
    UnconfirmedOnlyToasts(s.account, ctx, outcome, mutateError);
    forall i | 0 <= i < |es|
      ensures !es[i].PublishedTxSet? && !es[i].StepChanged? && !es[i].TransferDoneSet? && !es[i].SwapMutated?
    {
      if 0 < i < |es| - 1 {
        assert es[i] == attempt[i - 1];
      }
    }
    TransferHoldsLoading(s, ctx, outcome, mutateError);
    TransferKeepsConnection(s, ctx, outcome, mutateError);
    ReplayFrame(s, es, TransferDoneField);
  }

  /** When nothing is confirmed, the body of `handleTransfer` at most submits the batch and toasts. */
  lemma UnconfirmedOnlyToasts(account: Option<Account>, ctx: TransferContext, outcome: ExecuteOutcome, mutateError: Option<string>)
    requires account.None? || outcome.ExecuteThrew? || !Truthy(outcome.transactionHash)
    ensures forall i | 0 <= i < |TransferAttempt(account, ctx, outcome, mutateError)| ::
      TransferAttempt(account, ctx, outcome, mutateError)[i].Toasted?
      || TransferAttempt(account, ctx, outcome, mutateError)[i].ExecuteCalled?
  {
  }

  /**
   * On every path, the step changes only right after `setSwapPublishedTx` was
   * issued (it is not awaited) and the swap refreshed.
   */
  lemma TransferPublishesBeforeAdvancing(account: Option<Account>, ctx: TransferContext, outcome: ExecuteOutcome,
                                         mutateError: Option<string>, j: nat)
    requires j < |TransferEffects(account, ctx, outcome, mutateError)|
    requires TransferEffects(account, ctx, outcome, mutateError)[j].StepChanged?
    ensures j >= 2
    ensures TransferEffects(account, ctx, outcome, mutateError)[j - 2].PublishedTxSet?
    ensures TransferEffects(account, ctx, outcome, mutateError)[j - 1] == SwapMutated
    ensures TransferEffects(account, ctx, outcome, mutateError)[j] == StepChanged(SwapProcessing)
    ensures TransferEffects(account, ctx, outcome, mutateError)[j + 1] == TransferDoneSet(true)
  {
  }

  /**
   * The handler has no guard of its own against a second submission: a
   * transfer already marked done submits again if invoked. Only the
   * disabled button prevents it.
   */
  lemma NoReentrancyGuard(s: StepState, ctx: TransferContext, amount: Uint256, outcome: ExecuteOutcome)
    requires s.transferDone && s.account.Some? && ctx.sourceCurrency.Some? && ctx.depositAddress.Some?
    requires EncodeAmount(ctx.swap, ctx.sourceCurrency.value) == Some(amount)
    ensures !TransferEnabled(s)
    ensures TransferEffects(s.account, ctx, outcome, None)[1] == ExecuteCalled(TransferCalls(ctx, amount))
  {
  }

  /** Once marked done, a transfer stays done through every handler. */
  lemma TransferDoneSticky(s: StepState, sourceChainId: Option<string>, connect: ConnectOutcome,
                           ctx: TransferContext, execute: ExecuteOutcome, mutateError: Option<string>,
                           classified: Option<WithdrawalStep>, status: SwapStatus)
    requires s.transferDone
    ensures Replay(s, ConnectEffects(sourceChainId, connect)).transferDone
    ensures Replay(s, DisconnectEffects()).transferDone
    ensures Replay(s, RefreshEffects(connect)).transferDone
    ensures Replay(s, TransferEffects(s.account, ctx, execute, mutateError)).transferDone
    ensures Replay(s, ReconcileEffects(classified, status)).transferDone
  {
    ReplayFrame(s, ConnectEffects(sourceChainId, connect), TransferDoneField);
    ReplayFrame(s, DisconnectEffects(), TransferDoneField);
    ReplayFrame(s, RefreshEffects(connect), TransferDoneField);
    ReplayFrame(s, ReconcileEffects(classified, status), TransferDoneField);
    TransferNeverClearsDone(s.account, ctx, execute, mutateError);
    TransferDoneOnlySetTrue(s, TransferEffects(s.account, ctx, execute, mutateError));
  }

  lemma TransferNeverClearsDone(account: Option<Account>, ctx: TransferContext, outcome: ExecuteOutcome, mutateError: Option<string>)
    ensures forall i | 0 <= i < |TransferEffects(account, ctx, outcome, mutateError)| ::
      TransferEffects(account, ctx, outcome, mutateError)[i] != TransferDoneSet(false)
  {
  }

  lemma {:induction false} TransferDoneOnlySetTrue(s: StepState, es: seq<Effect>)
    requires s.transferDone
    requires forall i | 0 <= i < |es| :: es[i] != TransferDoneSet(false)
    ensures Replay(s, es).transferDone
    decreases |es|
  {
    if es != [] {
      TransferDoneOnlySetTrue(s, es[..|es| - 1]);
    }
  }

  /** Disconnecting clears the account: Connect is offered again and Transfer is not. */
  lemma DisconnectOffersConnect(s: StepState, depositAddress: Option<string>)
    ensures ConnectShown(Replay(s, DisconnectEffects()))
    ensures !TransferShown(Replay(s, DisconnectEffects()), depositAddress)
  {
  }

  /** The two controls are never offered together. */
  lemma ControlsExclusive(s: StepState, depositAddress: Option<string>)
    ensures !(ConnectShown(s) && TransferShown(s, depositAddress))
  {
  }

  /**
   * After a connect on the right chain that yields an account, Transfer is
   * offered exactly when a deposit address is known; after a wrong-chain
   * connect it is not offered.
   */
  lemma ConnectOffersTransfer(s: StepState, sourceChainId: Option<string>, w: Option<Wallet>, depositAddress: Option<string>)
    ensures ReportedChainId(w) == sourceChainId && AccountOf(w).Some? ==>
      !ConnectShown(Replay(s, ConnectEffects(sourceChainId, Connected(w))))
      && (TransferShown(Replay(s, ConnectEffects(sourceChainId, Connected(w))), depositAddress) <==> Truthy(depositAddress))
    ensures ReportedChainId(w) != sourceChainId ==>
      !TransferShown(Replay(s, ConnectEffects(sourceChainId, Connected(w))), depositAddress)
  {
    if ReportedChainId(w) == sourceChainId {
      ConnectMatchingChain(s, sourceChainId, w);
    } else {
      ConnectWrongChain(s, sourceChainId, w);
    }
  }

  /**
   * The reconciliation navigates, to the classified step, exactly when a
   * step is classified and the swap is no longer awaiting the user's
   * transfer, and it touches no wallet state.
   */
  lemma ReconcileForcesNavigation(s: StepState, classified: Option<WithdrawalStep>, status: SwapStatus)
    ensures (classified.Some? && status != UserTransferPending) <==> ReconcileEffects(classified, status) != []
    ensures ReconcileEffects(classified, status) != [] ==> ReconcileEffects(classified, status) == [StepChanged(classified.value)]
    ensures Replay(s, ReconcileEffects(classified, status)) == s
  {
  }
}
