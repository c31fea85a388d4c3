/**
 * The `Home` component: its catch-block classifier, the step sequence of `onMint`,
 * `refreshCandyMachineState`, the whitelist effect and the mint-button predicates.
 */
module Home {
  import opened Wrappers
  import Js
  import opened MintFlow

  // ---------------------------------------------------------------- the catch-block classifier

  /** The catch block's choice of alert text; `if (s.indexOf(t))` is a truthiness test on the index.
      Only a truthy `msg` with code 311 marks the machine sold out, and then the text is
      "SOLD OUT!"; the text shown is never empty. */
  function Classify(e: ThrownError): (c: Caught)
    ensures c.marksSoldOut <==> Js.TruthyString(e.msg) && e.code == Some(SoldOutCode)
    ensures c.marksSoldOut ==> c.message == SoldOutText
    ensures Js.TruthyString(c.message)
  {
    var message := if Js.TruthyString(e.msg) then e.msg else DefaultText;  // `error.msg || default`
    if !Js.TruthyString(e.msg) then
      if Js.TruthyNumber(Js.IndexOf(e.message, "0x138")) then
        if e.message == NotWhitelistedText then Caught(e.message, false)
        else if e.message == NotEnoughReservesText then Caught(e.message, false)
        else Caught(message, false)
      else if Js.TruthyNumber(Js.IndexOf(e.message, "0x137")) then Caught(SoldOutText, false)
      else if Js.TruthyNumber(Js.IndexOf(e.message, "0x135")) then Caught(InsufficientText, false)
      else Caught(message, false)
    else if e.code == Some(SoldOutCode) then Caught(SoldOutText, true)
    else if e.code == Some(NotStartedCode) then Caught(NotStartedText, false)
    else Caught(message, false)
  }

  /** With a truthy `error.msg`: code 311 is sold out (and marks the machine sold out), code 312 is
      "not started", any other code shows `error.msg` itself. */
  lemma ClassifyWithMsg(e: ThrownError)
    requires Js.TruthyString(e.msg)
    ensures Classify(e) ==
      if e.code == Some(SoldOutCode) then Caught(SoldOutText, true)
      else if e.code == Some(NotStartedCode) then Caught(NotStartedText, false)
      else Caught(e.msg, false)
  {
  }

  /** Without `error.msg`, a message not starting with "0x138" keeps only the two gate texts;
      everything else becomes the default text. */
  lemma ClassifyWithoutMsgOther(e: ThrownError)
    requires !Js.TruthyString(e.msg) && !("0x138" <= e.message)
    ensures Classify(e) ==
      if e.message == NotWhitelistedText || e.message == NotEnoughReservesText
      then Caught(e.message, false)
      else Caught(DefaultText, false)
  {
    Js.IndexOfTruthyIffNotPrefix(e.message, "0x138");
  }

  /** Without `error.msg`, a message starting with "0x138" is reported as sold out, without
      setting isSoldOut. */
  lemma ClassifyWithoutMsg0x138(e: ThrownError)
    requires !Js.TruthyString(e.msg) && "0x138" <= e.message
    ensures Classify(e) == Caught(SoldOutText, false)
  {
    Js.IndexOfTruthyIffNotPrefix(e.message, "0x138");
    Js.DistinctPrefixTruthy(e.message, "0x138", "0x137");
  }

  /** The "Insufficient funds" branch is dead: that text is shown only when `error.msg` itself
      carries it. */
  lemma InsufficientFundsUnreachable(e: ThrownError)
    ensures Classify(e).message == InsufficientText ==> e.msg == InsufficientText
  {
    if !Js.TruthyString(e.msg) {
      if "0x138" <= e.message {
        ClassifyWithoutMsg0x138(e);
      } else {
        ClassifyWithoutMsgOther(e);
      }
    }
  }

  /** Every verdict is one of the fixed texts or `error.msg`. */
  lemma ClassifyTexts(e: ThrownError)
    ensures Classify(e).message in
      {DefaultText, SoldOutText, NotStartedText, NotWhitelistedText, NotEnoughReservesText, e.msg}
  {
    if !Js.TruthyString(e.msg) {
      if "0x138" <= e.message {
        ClassifyWithoutMsg0x138(e);
      } else {
        ClassifyWithoutMsgOther(e);
      }
    }
  }

  // ---------------------------------------------------------------- onMint as a run

  /** The try block: isMinting is set first; only with a wallet and a program is the mint sent
      and its confirmation awaited. */
  function Try(v: MintView, wallet: bool, program: bool,
               mint: Result<()>, confirm: Result<Option<ConfirmStatus>>): (t: Attempt)
    ensures t.run.after.isMinting && t.run.after.isSoldOut == v.isSoldOut
    ensures t.thrown.Some? ==> wallet && program
    ensures RequestRefresh !in t.run.events && StopMinting !in t.run.events
  {
    var r0 := Then(Run([], v), StartMinting);
    if !(wallet && program) then Attempt(r0, None)
    else
      var r1 := Then(r0, CallMint);
      match mint
      case Throws(e) => Attempt(r1, Some(e))
      case Ok(_) =>
        var r2 := Then(r1, AwaitConfirmation);
        match confirm
        case Throws(e) => Attempt(r2, Some(e))
        case Ok(status) =>
          Attempt(Then(r2, ShowAlert(if StatusFailed(status) then MintFailedAlert else SuccessAlert)), None)
  }

  /** One whole `onMint`: try, catch, finally. */
  function MintRun(v: MintView, wallet: bool, program: bool, mint: Result<()>,
                   confirm: Result<Option<ConfirmStatus>>, balanceThrows: bool): (r: Run)
    ensures RequestRefresh in r.events <==> !(wallet && balanceThrows)
    ensures r.after.isMinting <==> wallet && balanceThrows
  {
    var t := Try(v, wallet, program, mint, confirm);
    Finish(Recover(t.run, Verdict(t.thrown, Classify)), wallet, balanceThrows)
  }

  /** The fields a run ends with are exactly what its steps produce. */
  lemma {:induction false} MintRunCoherent(v: MintView, wallet: bool, program: bool, mint: Result<()>,
                                           confirm: Result<Option<ConfirmStatus>>, balanceThrows: bool)
    ensures Coherent(v, MintRun(v, wallet, program, mint, confirm, balanceThrows))
  {
    var r := Run([], v);
    ThenCoherent(v, r, StartMinting);
    var r0 := Then(r, StartMinting);
    if wallet && program {
      ThenCoherent(v, r0, CallMint);
      var r1 := Then(r0, CallMint);
      if mint.Ok? {
        ThenCoherent(v, r1, AwaitConfirmation);
        var r2 := Then(r1, AwaitConfirmation);
        if confirm.Ok? {
          ThenCoherent(v, r2, ShowAlert(if StatusFailed(confirm.value) then MintFailedAlert else SuccessAlert));
        }
      }
    }
    var t := Try(v, wallet, program, mint, confirm);
    RecoverCoherent(v, t.run, Verdict(t.thrown, Classify));
    FinishCoherent(v, Recover(t.run, Verdict(t.thrown, Classify)), wallet, balanceThrows);
  }

  /** What `HomeComponent.OnMint` promises determines its final fields from its trace alone: they
      are what replaying the steps it appended gives, from the fields it started with. */
  lemma MintRunReplays(v: MintView, wallet: bool, program: bool, mint: Result<()>,
                       confirm: Result<Option<ConfirmStatus>>, balanceThrows: bool,
                       before: seq<Event>, trace: seq<Event>, view: MintView)
    requires trace == before + MintRun(v, wallet, program, mint, confirm, balanceThrows).events
    requires view == MintRun(v, wallet, program, mint, confirm, balanceThrows).after
    ensures view == Replay(v, trace[|before|..])
  {
    MintRunCoherent(v, wallet, program, mint, confirm, balanceThrows);
    TraceReplays(v, before, trace, MintRun(v, wallet, program, mint, confirm, balanceThrows), view);
  }

  /** isMinting is set before anything else happens. */
  lemma StartsMinting(v: MintView, wallet: bool, program: bool, mint: Result<()>,
                      confirm: Result<Option<ConfirmStatus>>, balanceThrows: bool)
    ensures var es := MintRun(v, wallet, program, mint, confirm, balanceThrows).events;
      |es| > 0 && es[0] == StartMinting
  {
  }

  /** `onMint` has no re-entrancy guard; the button's `disabled` expression is the only one. It
      holds from the first step until isMinting is cleared: every intermediate state before
      `StopMinting` has the button disabled, so no second click can start another run. */
  lemma ButtonDisabledWhileMinting(v: MintView, wallet: bool, program: bool, mint: Result<()>,
                                   confirm: Result<Option<ConfirmStatus>>, balanceThrows: bool,
                                   k: nat, isActive: bool)
    requires 1 <= k <= |MintRun(v, wallet, program, mint, confirm, balanceThrows).events|
    requires StopMinting !in MintRun(v, wallet, program, mint, confirm, balanceThrows).events[..k]
    ensures var w := Replay(v, MintRun(v, wallet, program, mint, confirm, balanceThrows).events[..k]);
      MintDisabled(w.isSoldOut, w.isMinting, isActive)
  {
    var es := MintRun(v, wallet, program, mint, confirm, balanceThrows).events;
    StartsMinting(v, wallet, program, mint, confirm, balanceThrows);
    MintingUntilStopped(v, es, k);
  }

  /** Without a wallet or a program the mint is never sent and the alert is left alone. */
  lemma NoWalletOrProgram(v: MintView, wallet: bool, program: bool, mint: Result<()>,
                          confirm: Result<Option<ConfirmStatus>>, balanceThrows: bool)
    requires !(wallet && program)
    ensures var r := MintRun(v, wallet, program, mint, confirm, balanceThrows);
      CallMint !in r.events && AwaitConfirmation !in r.events &&
      r.after.alert == v.alert && r.after.isSoldOut == v.isSoldOut
  {
  }

  /** The mint is sent exactly when there is a wallet and a program. */
  lemma MintSentIff(v: MintView, wallet: bool, program: bool, mint: Result<()>,
                    confirm: Result<Option<ConfirmStatus>>, balanceThrows: bool)
    ensures CallMint in MintRun(v, wallet, program, mint, confirm, balanceThrows).events <==> wallet && program
  {
  }

  /** Unless the balance read in the finally block rejects, onMint ends with isMinting false and
      exactly one refresh requested, as its last step; if it rejects, isMinting stays true and no
      refresh is requested. */
  lemma EndsIdle(v: MintView, wallet: bool, program: bool, mint: Result<()>,
                 confirm: Result<Option<ConfirmStatus>>, balanceThrows: bool)
    ensures var r := MintRun(v, wallet, program, mint, confirm, balanceThrows);
      if wallet && balanceThrows then
        r.after.isMinting && RequestRefresh !in r.events
      else
        !r.after.isMinting && r.events[|r.events| - 1] == RequestRefresh &&
        multiset(r.events)[RequestRefresh] == 1
  {
    var t := Try(v, wallet, program, mint, confirm);
    var rc := Recover(t.run, Verdict(t.thrown, Classify));
    assert RequestRefresh !in rc.events && t.run.after.isMinting;
    assert MintRun(v, wallet, program, mint, confirm, balanceThrows) == Finish(rc, wallet, balanceThrows);
    FinishRefreshesOnce(rc, wallet, balanceThrows);
  }

  /** With a wallet and a program the final alert is the success alert exactly when the mint
      returned and its status has no `err`; a returned status with `err` shows the failure alert;
      a throw from either call shows the classifier's text with severity "error". */
  lemma FinalAlert(v: MintView, wallet: bool, program: bool, mint: Result<()>,
                   confirm: Result<Option<ConfirmStatus>>, balanceThrows: bool)
    requires wallet && program
    ensures var a := MintRun(v, wallet, program, mint, confirm, balanceThrows).after.alert;
      (a == SuccessAlert <==> mint.Ok? && confirm.Ok? && !StatusFailed(confirm.value)) &&
      (mint.Ok? && confirm.Ok? && StatusFailed(confirm.value) ==> a == MintFailedAlert) &&
      (mint.Throws? ==> a == ErrorAlert(Classify(mint.error).message)) &&
      (mint.Ok? && confirm.Throws? ==> a == ErrorAlert(Classify(confirm.error).message))
  {
  }

  /** isSoldOut is set by onMint only through a thrown error with a truthy `msg` and code 311. */
  lemma SoldOutOnlyByCode311(v: MintView, wallet: bool, program: bool, mint: Result<()>,
                             confirm: Result<Option<ConfirmStatus>>, balanceThrows: bool)
    ensures var t := Try(v, wallet, program, mint, confirm);
      MintRun(v, wallet, program, mint, confirm, balanceThrows).after.isSoldOut <==>
      v.isSoldOut ||
      (t.thrown.Some? && Js.TruthyString(t.thrown.value.msg) && t.thrown.value.code == Some(SoldOutCode))
  {
  }

  /** The successful mint, step by step. */
  lemma SuccessfulMintSteps(v: MintView, status: Option<ConfirmStatus>)
    requires !StatusFailed(status)
    ensures MintRun(v, true, true, Ok(()), Ok(status), false).events ==
      [StartMinting, CallMint, AwaitConfirmation, ShowAlert(SuccessAlert), ReadBalance, StopMinting, RequestRefresh]
  {
  }

  // ---------------------------------------------------------------- the component

  /** The state hooks of `Home` that the core reads or writes. `wallet` is the wallet adapter's
      value (present or not); nothing here changes it. */
  class HomeComponent {
    var wallet: bool
    var isActive: bool
    var isSoldOut: bool
    var isMinting: bool
    var isWhitelisted: bool
    var itemsAvailable: int
    var itemsRedeemed: int
    var itemsRemaining: int
    var alertState: AlertState
    var startDate: int
    var candyMachine: Option<CandyMachine>
    /** The observable steps taken by `onMint` runs so far. */
    ghost var trace: seq<Event>

    /** The initial values of the state hooks. */
    constructor (wallet: bool, startDate: int)
      ensures this.wallet == wallet && this.startDate == startDate
      ensures !isActive && !isSoldOut && !isMinting && !isWhitelisted
      ensures itemsAvailable == 0 && itemsRedeemed == 0 && itemsRemaining == 0
      ensures alertState == InitialAlert && candyMachine == None && trace == []
    {
      this.wallet := wallet;
      this.startDate := startDate;
      isActive, isSoldOut, isMinting, isWhitelisted := false, false, false, false;
      itemsAvailable, itemsRedeemed, itemsRemaining := 0, 0, 0;
      alertState := InitialAlert;
      candyMachine := None;
      trace := [];
    }

    /** The fields `onMint` writes. */
    function View(): MintView
      reads this
    {
      MintView(isMinting, isSoldOut, alertState)
    }

    /** `candyMachine?.program` is truthy. */
    predicate HasProgram()
      reads this
    {
      candyMachine.Some? && candyMachine.value.hasProgram
    }

    /** The mint button's `disabled` expression. */
    predicate MintButtonDisabled()
      reads this
    {
      MintDisabled(isSoldOut, isMinting, isActive)
    }

    /** The connect button is rendered in place of the mint button. */
    predicate ShowsConnectButton()
      reads this
    {
      !wallet && !isSoldOut
    }

    /** The mint button can only be clicked with a wallet: without one it is either replaced by the
        connect button or shown disabled because the machine is sold out. */
    lemma ClickableNeedsWallet()
      ensures !ShowsConnectButton() && !MintButtonDisabled() ==> wallet
    {
    }

    /** `refreshCandyMachineState`: without a wallet, or when the ledger read rejects, nothing
        changes; otherwise the counters, go-live date and machine are replaced, isSoldOut becomes
        `itemsRemaining == 0` and isActive is cleared (until the countdown sets it again). */
    method RefreshCandyMachineState(read: Result<LedgerState>)
      modifies this`itemsAvailable, this`itemsRemaining, this`itemsRedeemed, this`isSoldOut,
               this`startDate, this`candyMachine, this`isActive
      ensures !wallet || read.Throws? ==>
        itemsAvailable == old(itemsAvailable) && itemsRemaining == old(itemsRemaining) &&
        itemsRedeemed == old(itemsRedeemed) && isSoldOut == old(isSoldOut) &&
        startDate == old(startDate) && candyMachine == old(candyMachine) && isActive == old(isActive)
      ensures wallet && read.Ok? ==>
        itemsAvailable == read.value.itemsAvailable && itemsRemaining == read.value.itemsRemaining &&
        itemsRedeemed == read.value.itemsRedeemed && (isSoldOut <==> read.value.itemsRemaining == 0) &&
        startDate == read.value.goLiveDate && candyMachine == Some(read.value.candyMachine) && !isActive
      ensures wallet && read.Ok? ==> MintButtonDisabled()
    {
      if !wallet {
        return;
      }
      match read
      case Throws(_) =>
      case Ok(s) =>
        itemsAvailable := s.itemsAvailable;
        itemsRemaining := s.itemsRemaining;
        itemsRedeemed := s.itemsRedeemed;
        isSoldOut := s.itemsRemaining == 0;
        startDate := s.goLiveDate;
        candyMachine := Some(s.candyMachine);
        isActive := false;
    }

    /** The countdown's `onComplete` (and `onMount` once completed): the only writer of isActive true. */
    method OnCountdownComplete()
      modifies this`isActive
      ensures isActive
      ensures MintButtonDisabled() <==> isSoldOut || isMinting
    {
      isActive := true;
    }

    /** The whitelist effect: with a wallet, read the balance, then look the member up; any status
        other than 404 sets isWhitelisted. No path clears it. */
    method WhitelistEffect(balanceThrows: bool, status: Result<int>)
      modifies this`isWhitelisted
      ensures isWhitelisted == AfterLookup(old(isWhitelisted), Lookup(wallet, balanceThrows, status))
      ensures old(isWhitelisted) ==> isWhitelisted
    {
      if wallet {
        if balanceThrows {
          return;
        }
        match status
        case Throws(_) =>
        case Ok(code) =>
          if code != NotFoundStatus {
            isWhitelisted := true;
          }
      }
    }

    /** The try block of `onMint`; returns what it threw, if anything. */
    method TryBlock(mint: Result<()>, confirm: Result<Option<ConfirmStatus>>)
      returns (thrown: Option<ThrownError>)
      modifies this`isMinting, this`alertState, this`trace
      ensures var t := Try(old(View()), wallet, HasProgram(), mint, confirm);
        trace == old(trace) + t.run.events && View() == t.run.after && thrown == t.thrown
    {
      ghost var r := Run([], View());
      thrown := None;
      isMinting := true;
      trace := trace + [StartMinting];
      r := Then(r, StartMinting);
      if wallet && HasProgram() {
        trace := trace + [CallMint];
        r := Then(r, CallMint);
        match mint
        case Throws(e) =>
          thrown := Some(e);
        case Ok(_) =>
          trace := trace + [AwaitConfirmation];
          r := Then(r, AwaitConfirmation);
          match confirm
          case Throws(e) =>
            thrown := Some(e);
          case Ok(status) =>
            if !StatusFailed(status) {
              alertState := SuccessAlert;
            } else {
              alertState := MintFailedAlert;
            }
            trace := trace + [ShowAlert(alertState)];
            r := Then(r, ShowAlert(alertState));
      }
      assert Attempt(r, thrown) == Try(old(View()), wallet, HasProgram(), mint, confirm);
    }

    /** The catch block of `onMint`, continuing the run `r` that the trace so far ends with. */
    method CatchBlock(thrown: Option<ThrownError>, ghost base: seq<Event>, ghost r: Run)
      requires trace == base + r.events && View() == r.after
      modifies this`isSoldOut, this`alertState, this`trace
      ensures var r' := Recover(r, Verdict(thrown, Classify));
        trace == base + r'.events && View() == r'.after
    {
      if thrown.Some? {
        var c := Classify(thrown.value);
        ghost var r1 := r;
        if c.marksSoldOut {
          isSoldOut := true;
          trace := trace + [MarkSoldOut];
          r1 := Then(r1, MarkSoldOut);
          assert trace == base + r1.events;
        }
        alertState := ErrorAlert(c.message);
        trace := trace + [ShowAlert(alertState)];
        assert trace == base + Then(r1, ShowAlert(alertState)).events;
      }
    }

    /** The finally block of `onMint`, continuing the run `r`. */
    method FinallyBlock(balanceThrows: bool, ghost base: seq<Event>, ghost r: Run)
      requires trace == base + r.events && View() == r.after
      modifies this`isMinting, this`trace
      ensures var r' := Finish(r, wallet, balanceThrows);
        trace == base + r'.events && View() == r'.after
    {
      ghost var r1 := r;
      if wallet {
        trace := trace + [ReadBalance];
        r1 := Then(r1, ReadBalance);
        assert trace == base + r1.events;
        if balanceThrows {
          return;
        }
      }
      isMinting := false;
      trace := trace + [StopMinting];
      r1 := Then(r1, StopMinting);
      assert trace == base + r1.events;
      trace := trace + [RequestRefresh];
      r1 := Then(r1, RequestRefresh);
      assert trace == base + r1.events;
    }

    /** `onMint`, given the outcomes of its external calls: the mint, the confirmation wait and the
        balance read in the finally block. */
    method OnMint(mint: Result<()>, confirm: Result<Option<ConfirmStatus>>, balanceThrows: bool)
      modifies this`isMinting, this`isSoldOut, this`alertState, this`trace
      ensures var r := MintRun(old(View()), wallet, HasProgram(), mint, confirm, balanceThrows);
        trace == old(trace) + r.events && View() == r.after
      ensures !(wallet && HasProgram()) ==> alertState == old(alertState)
    {
      ghost var v0 := View();
      var thrown := TryBlock(mint, confirm);
      ghost var t := Try(v0, wallet, HasProgram(), mint, confirm);
      CatchBlock(thrown, old(trace), t.run);
      ghost var rc := Recover(t.run, Verdict(thrown, Classify));
      FinallyBlock(balanceThrows, old(trace), rc);
      if !(wallet && HasProgram()) {
        NoWalletOrProgram(v0, wallet, HasProgram(), mint, confirm, balanceThrows);
      }
    }
  }
}
