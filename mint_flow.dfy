/**
 * What the two mint components have in common: the values that cross their boundary
 * (thrown errors, confirmation statuses, ledger reads, registry answers), the alert
 * texts, the observable steps of one `onMint` run, and the catch and finally phases
 * that both components share word for word. Every external call is an outcome that
 * the caller passes in.
 */
module MintFlow {
  import opened Wrappers
  import Js

  // ---------------------------------------------------------------- values

  /** What a `catch (error: any)` block reads of the thrown value: `error.msg` (absent is ""),
      `error.code` (absent is None) and `error.message`. */
  datatype ThrownError = ThrownError(msg: string, code: Option<int>, message: string)

  /** The outcome of an awaited external call: it returns a value or it throws. */
  datatype Result<T> = Ok(value: T) | Throws(error: ThrownError)

  /** `new Error(text)`: only `message` is set. */
  function JsError(text: string): ThrownError
  {
    ThrownError("", None, text)
  }

  /** The candy machine handle held in component state; `candyMachine?.program` is truthy exactly when `hasProgram`. */
  datatype CandyMachine = CandyMachine(hasProgram: bool)

  /** What one `getCandyMachineState` call yields. */
  datatype LedgerState = LedgerState(
    candyMachine: CandyMachine,
    goLiveDate: int,
    itemsAvailable: int,
    itemsRemaining: int,
    itemsRedeemed: int)

  /** The confirmation status; `err` is either set or not. */
  datatype ConfirmStatus = ConfirmStatus(hasErr: bool)

  /** `status?.err` is truthy: a null or undefined status has no `err`. */
  predicate StatusFailed(status: Option<ConfirmStatus>)
  {
    status.Some? && status.value.hasErr
  }

  /** The registry's member record as `onMint` reads it. `None` is a body without a `reserve`
      key (`undefined`, which turns `res_num - 1` into NaN); a `reserve` of JSON `null` is not
      modelled. */
  datatype MemberRecord = MemberRecord(reserve: Option<int>)

  datatype Severity = NoSeverity | Success | Info | Warning | Error

  /** The Snackbar alert kept in component state. */
  datatype AlertState = AlertState(open: bool, message: string, severity: Severity)

  // ---------------------------------------------------------------- texts

  const SuccessText := "Congratulations! Mint succeeded!"
  const MintFailedText := "Mint failed! Please try again!"
  const DefaultText := "Minting failed! Please try again!"
  const SoldOutText := "SOLD OUT!"
  const NotStartedText := "Minting period hasn't started yet."
  const InsufficientText := "Insufficient funds to mint. Please fund your wallet."
  const NotWhitelistedText := "You are not whitelisted"
  const NotEnoughReservesText := "Not enough reserves"

  /** The program error codes the catch blocks look for. */
  const SoldOutCode := 311
  const NotStartedCode := 312

  /** The HTTP status the whitelist lookup treats as "not a member". */
  const NotFoundStatus := 404

  const InitialAlert := AlertState(false, "", NoSeverity)
  const SuccessAlert := AlertState(true, SuccessText, Success)
  const MintFailedAlert := AlertState(true, MintFailedText, Error)

  /** The alert of every catch path. It is visible and an error, it is never the success alert,
      and it coincides with the mint-failed alert exactly when the caught text is that alert's
      text: the user cannot tell those two apart. */
  function ErrorAlert(message: string): (a: AlertState)
    ensures a.open && a.severity == Error
    ensures a != SuccessAlert && a != InitialAlert
    ensures a == MintFailedAlert <==> message == MintFailedText
  {
    AlertState(true, message, Error)
  }

  // ---------------------------------------------------------------- one run of onMint

  /** The observable steps of `onMint`, in the order they happen: its external calls, the state
      setters it runs, and the (un-awaited) refresh it starts. */
  datatype Event =
    | GetMember                      // GET of the member record
    | StartMinting                   // setIsMinting(true)
    | CallMint                       // mintOneToken
    | AwaitConfirmation              // awaitTransactionSignatureConfirmation
    | ShowAlert(alert: AlertState)   // setAlertState
    | PutReserve(reserve: Option<int>) // PUT of the decremented reserve (None: JSON null)
    | MarkSoldOut                    // setIsSoldOut(true)
    | ReadBalance                    // connection.getBalance
    | StopMinting                    // setIsMinting(false)
    | RequestRefresh                 // refreshCandyMachineState()

  /** The component fields that `onMint` itself writes. */
  datatype MintView = MintView(isMinting: bool, isSoldOut: bool, alert: AlertState)

  /** How one step changes those fields; calls change none of them. */
  function Step(v: MintView, e: Event): MintView
  {
    match e
    case StartMinting => v.(isMinting := true)
    case StopMinting => v.(isMinting := false)
    case ShowAlert(a) => v.(alert := a)
    case MarkSoldOut => v.(isSoldOut := true)
    case _ => v
  }

  /** A run so far: the steps taken and the fields they have produced. */
  datatype Run = Run(events: seq<Event>, after: MintView)

  /** Take one more step. */
  function Then(r: Run, e: Event): Run
  {
    Run(r.events + [e], Step(r.after, e))
  }

  /** The fields after replaying `es` from `v`, one `Step` at a time. */
  function Replay(v: MintView, es: seq<Event>): (w: MintView)
    decreases |es|
  {
    if es == [] then v else Step(Replay(v, es[..|es| - 1]), es[|es| - 1])
  }

  /** Between a `StartMinting` step and the next `StopMinting`, isMinting stays true whatever
      else happens: every state of that stretch has the mint button disabled. */
  lemma {:induction false} MintingUntilStopped(v: MintView, es: seq<Event>, k: nat)
    requires 1 <= k <= |es| && es[0] == StartMinting && StopMinting !in es[..k]
    ensures Replay(v, es[..k]).isMinting
  {
    var p := es[..k];
    assert p[..|p| - 1] == es[..k - 1];
    if k > 1 {
      MintingUntilStopped(v, es, k - 1);
    } else {
      assert es[..k - 1] == [];
    }
  }

  /** A run is coherent when its fields are what its steps produce from `start`. */
  predicate Coherent(start: MintView, r: Run)
  {
    r.after == Replay(start, r.events)
  }

  /** A component whose trace grew by the steps of a coherent run, and whose fields are the run's
      result, has exactly the fields that replaying the new part of its trace gives. */
  lemma TraceReplays(start: MintView, before: seq<Event>, trace: seq<Event>, r: Run, view: MintView)
    requires Coherent(start, r) && trace == before + r.events && view == r.after
    ensures view == Replay(start, trace[|before|..])
  {
    assert trace[|before|..] == r.events;
  }

  /** Taking a step keeps a run coherent. */
  lemma ThenCoherent(start: MintView, r: Run, e: Event)
    requires Coherent(start, r)
    ensures Coherent(start, Then(r, e))
  {
    var es := r.events + [e];
    assert es[..|es| - 1] == r.events;
  }

  /** The try block ends with the run so far and, when something was thrown, the thrown value. */
  datatype Attempt = Attempt(run: Run, thrown: Option<ThrownError>)

  /** What a catch block decides: the alert text and whether it also calls setIsSoldOut(true). */
  datatype Caught = Caught(message: string, marksSoldOut: bool)

  /** The catch block's verdict, by the component's classifier, on what the try block threw. */
  function Verdict(thrown: Option<ThrownError>, classify: ThrownError -> Caught): Option<Caught>
  {
    if thrown.Some? then Some(classify(thrown.value)) else None
  }

  /** The catch block, given the classifier's verdict on the thrown value (None: nothing thrown). */
  function Recover(r: Run, caught: Option<Caught>): (r': Run)
    ensures caught.None? ==> r' == r
    ensures caught.Some? ==> r'.after.alert == ErrorAlert(caught.value.message)
    ensures caught.Some? ==> r'.after.isSoldOut == (r.after.isSoldOut || caught.value.marksSoldOut)
    ensures r'.after.isMinting == r.after.isMinting
  {
    match caught
    case None => r
    case Some(c) =>
      var r1 := if c.marksSoldOut then Then(r, MarkSoldOut) else r;
      Then(r1, ShowAlert(ErrorAlert(c.message)))
  }

  /** The finally block: with a wallet the balance is read first, and if that read rejects the
      block stops there; otherwise isMinting is cleared and a refresh is started. */
  function Finish(r: Run, wallet: bool, balanceThrows: bool): (r': Run)
    ensures wallet && balanceThrows ==> r'.after == r.after && r'.events == r.events + [ReadBalance]
    ensures !(wallet && balanceThrows) ==> !r'.after.isMinting
    ensures !(wallet && balanceThrows) ==>
      r'.events == r.events + (if wallet then [ReadBalance] else []) + [StopMinting, RequestRefresh]
    ensures r'.after.alert == r.after.alert && r'.after.isSoldOut == r.after.isSoldOut
  {
    var r1 := if wallet then Then(r, ReadBalance) else r;
    if wallet && balanceThrows then r1
    else Then(Then(r1, StopMinting), RequestRefresh)
  }

  /** A run that has not yet requested a refresh ends, through the finally block, with exactly one
      refresh request as its last step and isMinting cleared, unless the balance read rejects. */
  lemma FinishRefreshesOnce(r: Run, wallet: bool, balanceThrows: bool)
    requires RequestRefresh !in r.events
    ensures var r' := Finish(r, wallet, balanceThrows);
      if wallet && balanceThrows then
        r'.after.isMinting == r.after.isMinting && RequestRefresh !in r'.events
      else
        !r'.after.isMinting && r'.events[|r'.events| - 1] == RequestRefresh &&
        multiset(r'.events)[RequestRefresh] == 1
  {
    var r' := Finish(r, wallet, balanceThrows);
    var mid := if wallet then [ReadBalance] else [];
    if !(wallet && balanceThrows) {
      assert r'.events == r.events + mid + [StopMinting, RequestRefresh];
      assert multiset(r'.events) == multiset(r.events) + multiset(mid) + multiset([StopMinting, RequestRefresh]);
    }
  }

  /** The catch and finally blocks only append to a run, and never a reserve write-back. */
  lemma RecoverFinishAppendNoPut(r: Run, caught: Option<Caught>, wallet: bool, balanceThrows: bool)
    ensures var es := Finish(Recover(r, caught), wallet, balanceThrows).events;
      |r.events| <= |es| && es[..|r.events|] == r.events &&
      forall i :: |r.events| <= i < |es| ==> !es[i].PutReserve?
  {
    var rc := Recover(r, caught);
    var es := Finish(rc, wallet, balanceThrows).events;
    assert |r.events| <= |rc.events| && rc.events[..|r.events|] == r.events;
    assert forall i :: |r.events| <= i < |rc.events| ==> !rc.events[i].PutReserve?;
    assert |rc.events| <= |es| && es[..|rc.events|] == rc.events;
  }

  /** The three phases keep a run coherent whatever the outcomes. */
  lemma {:induction false} RecoverCoherent(start: MintView, r: Run, caught: Option<Caught>)
    requires Coherent(start, r)
    ensures Coherent(start, Recover(r, caught))
  {
    if caught.Some? {
      var r1 := if caught.value.marksSoldOut then Then(r, MarkSoldOut) else r;
      if caught.value.marksSoldOut { ThenCoherent(start, r, MarkSoldOut); }
      ThenCoherent(start, r1, ShowAlert(ErrorAlert(caught.value.message)));
    }
  }

  lemma {:induction false} FinishCoherent(start: MintView, r: Run, wallet: bool, balanceThrows: bool)
    requires Coherent(start, r)
    ensures Coherent(start, Finish(r, wallet, balanceThrows))
  {
    var r1 := if wallet then Then(r, ReadBalance) else r;
    if wallet { ThenCoherent(start, r, ReadBalance); }
    if !(wallet && balanceThrows) {
      ThenCoherent(start, r1, StopMinting);
      ThenCoherent(start, Then(r1, StopMinting), RequestRefresh);
    }
  }

  /** Some PUT of the reserve occurs among the steps. */
  predicate SentPut(es: seq<Event>)
  {
    exists i :: 0 <= i < |es| && es[i].PutReserve?
  }

  // ---------------------------------------------------------------- the mint button

  /** `disabled={isSoldOut || isMinting || !isActive}`: the only guard against a second click. */
  predicate MintDisabled(isSoldOut: bool, isMinting: bool, isActive: bool)
  {
    isSoldOut || isMinting || !isActive
  }

  // ---------------------------------------------------------------- the whitelist effect

  /** One run of the whitelist effect: the wallet at that time, whether the balance read rejected
      (the async body then stops) and the lookup's HTTP status or its failure. */
  datatype Lookup = Lookup(wallet: bool, balanceThrows: bool, status: Result<int>)

  /** The run reaches `SetWhitelisted(true)`. */
  predicate Listed(l: Lookup)
  {
    l.wallet && !l.balanceThrows && l.status.Ok? && l.status.value != NotFoundStatus
  }

  /** `isWhitelisted` after one effect run: only ever set to true. */
  function AfterLookup(was: bool, l: Lookup): (now: bool)
    ensures was ==> now
    ensures now <==> was || Listed(l)
  {
    if Listed(l) then true else was
  }

  /** `isWhitelisted` after a session's effect runs, in order. */
  function WhitelistedAfter(was: bool, ls: seq<Lookup>): (w: bool)
    decreases |ls|
    ensures was ==> w
  {
    if ls == [] then was else AfterLookup(WhitelistedAfter(was, ls[..|ls| - 1]), ls[|ls| - 1])
  }

  /** Over any series of effect runs the flag is true exactly when it started true or some run
      found the member. */
  lemma {:induction false} WhitelistedAfterIff(was: bool, ls: seq<Lookup>)
    ensures WhitelistedAfter(was, ls) <==> was || exists i :: 0 <= i < |ls| && Listed(ls[i])
  {
    if ls != [] {
      var init := ls[..|ls| - 1];
      WhitelistedAfterIff(was, init);
      if exists i :: 0 <= i < |ls| && Listed(ls[i]) {
        var i :| 0 <= i < |ls| && Listed(ls[i]);
        if i < |ls| - 1 {
          assert Listed(init[i]);
        }
      }
      if exists i :: 0 <= i < |init| && Listed(init[i]) {
        var i :| 0 <= i < |init| && Listed(init[i]);
        assert Listed(ls[i]);
      }
    }
  }

  /** Consequently the flag never goes back to false. */
  lemma {:induction false} WhitelistedMonotone(was: bool, ls: seq<Lookup>, more: seq<Lookup>)
    ensures WhitelistedAfter(was, ls) ==> WhitelistedAfter(was, ls + more)
  {
    WhitelistedAfterIff(was, ls);
    WhitelistedAfterIff(was, ls + more);
    if WhitelistedAfter(was, ls) && !was {
      var i :| 0 <= i < |ls| && Listed(ls[i]);
      assert (ls + more)[i] == ls[i];
    }
  }
}
