/**
 * The `HomeWhitelist` component: `onMint` with its whitelist and reserve gate, the reserve
 * write-back after a successful mint, its own catch-block classifier, and the same
 * `refreshCandyMachineState`, whitelist effect and mint-button predicate as `Home`.
 */
module HomeWhitelist {
  import opened Wrappers
  import Js
  import opened MintFlow

  // ---------------------------------------------------------------- the catch-block classifier

  /** The message of the TypeError that `(wallet as anchor.Wallet).publicKey` raises without a
      wallet (the wording of the V8 engine). Written in two pieces so that the verifier can see
      its first character. */
  const PublicKeyTypeErrorText := "Cannot read " + "properties of undefined (reading 'publicKey')"

  /** The text this catch block compares against: the same words between double quotes. */
  const QuotedTypeErrorText := "\"" + PublicKeyTypeErrorText + "\""

  /** The three messages the catch block keeps verbatim when `error.msg` is falsy. */
  predicate Kept(message: string)
  {
    message == QuotedTypeErrorText || message == NotWhitelistedText || message == NotEnoughReservesText
  }

  /** None of the kept texts starts with a program error code such as "0x138". */
  lemma KeptHasNoCode(message: string, code: string)
    requires Kept(message) && |code| > 0 && code[0] == '0'
    ensures !(code <= message)
  {
    assert QuotedTypeErrorText[0] == '"';
    assert NotWhitelistedText[0] == 'Y' && NotEnoughReservesText[0] == 'N';
  }

  /** The catch block's choice of alert text. The last test has an empty body. Only a truthy
      `msg` with code 311 marks the machine sold out, and then the text is "SOLD OUT!"; the text
      shown is never empty. */
  function Classify(e: ThrownError): (c: Caught)
    ensures c.marksSoldOut <==> Js.TruthyString(e.msg) && e.code == Some(SoldOutCode)
    ensures c.marksSoldOut ==> c.message == SoldOutText
    ensures Js.TruthyString(c.message)
  {
    var message := if Js.TruthyString(e.msg) then e.msg else DefaultText;  // `error.msg || default`
    if !Js.TruthyString(e.msg) then
      if e.message == QuotedTypeErrorText then Caught(e.message, false)
      else if e.message == NotWhitelistedText then Caught(e.message, false)
      else if e.message == NotEnoughReservesText then Caught(e.message, false)
      else if Js.TruthyNumber(Js.IndexOf(e.message, "0x137")) then Caught(SoldOutText, false)
      else if Js.TruthyNumber(Js.IndexOf(e.message, "0x135")) then Caught(InsufficientText, false)
      else if Js.TruthyNumber(Js.IndexOf(e.message, "0x138")) then Caught(message, false)
      else Caught(message, false)
    else if e.code == Some(SoldOutCode) then Caught(SoldOutText, true)
    else if e.code == Some(NotStartedCode) then Caught(NotStartedText, false)
    else Caught(message, false)
  }

  /** With a truthy `error.msg`: code 311 is sold out (and marks the machine sold out), code 312 is
      "not started", any other code shows `error.msg` itself. */
  lemma ClassifyWithMsg(e: ThrownError)
    requires Js.TruthyString(e.msg)
    ensures Classify(e) ==
      if e.code == Some(SoldOutCode) then Caught(SoldOutText, true)
      else if e.code == Some(NotStartedCode) then Caught(NotStartedText, false)
      else Caught(e.msg, false)
  {
  }

  /** Without `error.msg`: the three kept texts stay, a message starting with "0x137" becomes the
      insufficient-funds text, and every other message becomes "SOLD OUT!". */
  lemma ClassifyWithoutMsg(e: ThrownError)
    requires !Js.TruthyString(e.msg)
    ensures Classify(e) ==
      if Kept(e.message) then Caught(e.message, false)
      else if "0x137" <= e.message then Caught(InsufficientText, false)
      else Caught(SoldOutText, false)
  {
    Js.IndexOfTruthyIffNotPrefix(e.message, "0x137");
    if "0x137" <= e.message {
      Js.DistinctPrefixTruthy(e.message, "0x137", "0x135");
    }
  }

  /** Without `error.msg` the default text is never shown. */
  lemma DefaultNeverKept(e: ThrownError)
    requires !Js.TruthyString(e.msg)
    ensures Classify(e).message != DefaultText
  {
    ClassifyWithoutMsg(e);
  }

  /** The catch block reaches its last `indexOf("0x138")` test. */
  predicate Reaches0x138Test(e: ThrownError)
  {
    !Js.TruthyString(e.msg) && !Kept(e.message) &&
    !Js.TruthyNumber(Js.IndexOf(e.message, "0x137")) && !Js.TruthyNumber(Js.IndexOf(e.message, "0x135"))
  }

  /** That test is dead code: no message starts with both "0x137" and "0x135". */
  lemma Test0x138Unreachable(e: ThrownError)
    ensures !Reaches0x138Test(e)
  {
    Js.IndexOfTruthyIffNotPrefix(e.message, "0x137");
    if "0x137" <= e.message {
      Js.DistinctPrefixTruthy(e.message, "0x137", "0x135");
    }
  }

  /** The TypeError raised without a wallet is not the quoted text the catch block looks for, so it
      is reported as "SOLD OUT!". */
  lemma MissingWalletReadsAsSoldOut()
    ensures Classify(JsError(PublicKeyTypeErrorText)) == Caught(SoldOutText, false)
  {
    var e := JsError(PublicKeyTypeErrorText);
    assert |e.message| < |QuotedTypeErrorText|;
    assert e.message[0] == 'C';
    ClassifyWithoutMsg(e);
  }

  // ---------------------------------------------------------------- the gate

  /** `res_num - 1 < 0`; a missing reserve makes the difference NaN, and the test false. */
  predicate ReserveShort(reserve: Option<int>)
  {
    reserve.Some? && reserve.value - 1 < 0
  }

  /** The reserve sent back: `res_num - 1`, where NaN is serialised as null. */
  function Decremented(reserve: Option<int>): Option<int>
  {
    if reserve.Some? then Some(reserve.value - 1) else None
  }

  /** The gate after the member lookup: the whitelisted flag first, then the reserve. What it
      throws is an `Error` whose text the catch block keeps verbatim. */
  function GateCheck(isWhitelisted: bool, reserve: Option<int>): (g: Option<ThrownError>)
    ensures g.Some? ==> !Js.TruthyString(g.value.msg) && Kept(g.value.message)
  {
    if !isWhitelisted then Some(JsError(NotWhitelistedText))
    else if ReserveShort(reserve) then Some(JsError(NotEnoughReservesText))
    else None
  }

  /** The gate passes exactly for a whitelisted user whose reserve is not below one; the whitelist
      check wins when both fail. */
  lemma GateCheckIff(isWhitelisted: bool, reserve: Option<int>)
    ensures GateCheck(isWhitelisted, reserve).None? <==> isWhitelisted && !ReserveShort(reserve)
    ensures !isWhitelisted ==> GateCheck(isWhitelisted, reserve) == Some(JsError(NotWhitelistedText))
    ensures isWhitelisted && ReserveShort(reserve) ==>
      GateCheck(isWhitelisted, reserve) == Some(JsError(NotEnoughReservesText))
  {
  }

  /** A reserve that passed the gate is written back as a count that is not negative. */
  lemma PassedGateWritesNonNegative(isWhitelisted: bool, reserve: Option<int>)
    requires GateCheck(isWhitelisted, reserve).None? && reserve.Some?
    ensures Decremented(reserve).Some? && Decremented(reserve).value >= 0
    ensures Decremented(reserve).value == reserve.value - 1
  {
  }

  // ---------------------------------------------------------------- onMint as a run

  /** The part of the try block after the gate: isMinting is set, and with a program the mint is
      sent and confirmed; on success the reserve is written back. */
  function Minting(r: Run, program: bool, reserve: Option<int>, mint: Result<()>,
                   confirm: Result<Option<ConfirmStatus>>, put: Result<()>): (a: Attempt)
    ensures a.run.after.isMinting
    ensures a.thrown.Some? ==> program
    ensures |a.run.events| > |r.events| && a.run.events[..|r.events|] == r.events
    ensures a.run.events[|r.events|] == StartMinting
    ensures StopMinting !in r.events && RequestRefresh !in r.events ==>
      StopMinting !in a.run.events && RequestRefresh !in a.run.events
  {
    var r0 := Then(r, StartMinting);
    if !program then Attempt(r0, None)
    else
      var r1 := Then(r0, CallMint);
      match mint
      case Throws(e) => Attempt(r1, Some(e))
      case Ok(_) =>
        var r2 := Then(r1, AwaitConfirmation);
        match confirm
        case Throws(e) => Attempt(r2, Some(e))
        case Ok(status) =>
          if StatusFailed(status) then Attempt(Then(r2, ShowAlert(MintFailedAlert)), None)
          else
            var r3 := Then(Then(r2, ShowAlert(SuccessAlert)), PutReserve(Decremented(reserve)));
            Attempt(r3, if put.Throws? then Some(put.error) else None)
  }

  /** The try block: without a wallet the first line throws; otherwise the member record is
      fetched, then the gate is checked, and only then does minting start. */
  function Try(v: MintView, wallet: bool, isWhitelisted: bool, program: bool,
               member: Result<MemberRecord>, mint: Result<()>,
               confirm: Result<Option<ConfirmStatus>>, put: Result<()>): (t: Attempt)
    ensures StartMinting in t.run.events <==>
      wallet && member.Ok? && GateCheck(isWhitelisted, member.value.reserve).None?
    ensures RequestRefresh !in t.run.events && StopMinting !in t.run.events
  {
    var r := Run([], v);
    if !wallet then Attempt(r, Some(JsError(PublicKeyTypeErrorText)))
    else
      var r1 := Then(r, GetMember);
      assert r1.events == [GetMember];
      match member
      case Throws(e) => Attempt(r1, Some(e))
      case Ok(record) =>
        match GateCheck(isWhitelisted, record.reserve)
        case Some(e) => Attempt(r1, Some(e))
        case None =>
          var a := Minting(r1, program, record.reserve, mint, confirm, put);
          assert a.run.events[1] == StartMinting;
          a
  }

  /** The outcomes of the external calls one `onMint` makes. */
  datatype Outcomes = Outcomes(
    member: Result<MemberRecord>,
    mint: Result<()>,
    confirm: Result<Option<ConfirmStatus>>,
    put: Result<()>,
    balanceThrows: bool)

  /** One whole `onMint`: try, catch, finally. */
  function MintRun(v: MintView, wallet: bool, isWhitelisted: bool, program: bool, o: Outcomes): (r: Run)
    ensures RequestRefresh in r.events <==> !(wallet && o.balanceThrows)
  {
    var t := Try(v, wallet, isWhitelisted, program, o.member, o.mint, o.confirm, o.put);
    Finish(Recover(t.run, Verdict(t.thrown, Classify)), wallet, o.balanceThrows)
  }

  /** The gate lets the mint go ahead. */
  predicate GatePasses(wallet: bool, isWhitelisted: bool, o: Outcomes)
  {
    wallet && o.member.Ok? && GateCheck(isWhitelisted, o.member.value.reserve).None?
  }

  /** The mint is sent and confirmed without `err`. */
  predicate MintSucceeds(wallet: bool, isWhitelisted: bool, program: bool, o: Outcomes)
  {
    GatePasses(wallet, isWhitelisted, o) && program &&
    o.mint.Ok? && o.confirm.Ok? && !StatusFailed(o.confirm.value)
  }

  /** The fields a run ends with are exactly what its steps produce. */
  lemma {:induction false} MintRunCoherent(v: MintView, wallet: bool, isWhitelisted: bool, program: bool, o: Outcomes)
    ensures Coherent(v, MintRun(v, wallet, isWhitelisted, program, o))
  {
    var t := Try(v, wallet, isWhitelisted, program, o.member, o.mint, o.confirm, o.put);
    var r := Run([], v);
    if wallet {
      ThenCoherent(v, r, GetMember);
      var r1 := Then(r, GetMember);
      if GatePasses(wallet, isWhitelisted, o) {
        MintingCoherent(v, r1, program, o.member.value.reserve, o.mint, o.confirm, o.put);
      }
    }
    RecoverCoherent(v, t.run, Verdict(t.thrown, Classify));
    FinishCoherent(v, Recover(t.run, Verdict(t.thrown, Classify)), wallet, o.balanceThrows);
  }

  lemma {:induction false} MintingCoherent(v: MintView, r: Run, program: bool, reserve: Option<int>, mint: Result<()>,
                                           confirm: Result<Option<ConfirmStatus>>, put: Result<()>)
    requires Coherent(v, r)
    ensures Coherent(v, Minting(r, program, reserve, mint, confirm, put).run)
  {
    ThenCoherent(v, r, StartMinting);
    var r0 := Then(r, StartMinting);
    if program {
      ThenCoherent(v, r0, CallMint);
      var r1 := Then(r0, CallMint);
      if mint.Ok? {
        ThenCoherent(v, r1, AwaitConfirmation);
        var r2 := Then(r1, AwaitConfirmation);
        if confirm.Ok? {
          if StatusFailed(confirm.value) {
            ThenCoherent(v, r2, ShowAlert(MintFailedAlert));
          } else {
            ThenCoherent(v, r2, ShowAlert(SuccessAlert));
            ThenCoherent(v, Then(r2, ShowAlert(SuccessAlert)), PutReserve(Decremented(reserve)));
          }
        }
      }
    }
  }

  /** Without a wallet nothing is fetched or minted, and the TypeError is shown as "SOLD OUT!". */
  lemma NoWalletShowsSoldOut(v: MintView, isWhitelisted: bool, program: bool, o: Outcomes)
    ensures var r := MintRun(v, false, isWhitelisted, program, o);
      r.events == [ShowAlert(ErrorAlert(SoldOutText)), StopMinting, RequestRefresh] &&
      r.after == v.(isMinting := false, alert := ErrorAlert(SoldOutText))
  {
    MissingWalletReadsAsSoldOut();
  }

  /** What `HomeWhitelistComponent.OnMint` promises determines its final fields from its trace
      alone: they are what replaying the steps it appended gives, from the fields it started with. */
  lemma MintRunReplays(v: MintView, wallet: bool, isWhitelisted: bool, program: bool, o: Outcomes,
                       before: seq<Event>, trace: seq<Event>, view: MintView)
    requires trace == before + MintRun(v, wallet, isWhitelisted, program, o).events
    requires view == MintRun(v, wallet, isWhitelisted, program, o).after
    ensures view == Replay(v, trace[|before|..])
  {
    MintRunCoherent(v, wallet, isWhitelisted, program, o);
    TraceReplays(v, before, trace, MintRun(v, wallet, isWhitelisted, program, o), view);
  }

  /** With a wallet the member record is fetched first, before isMinting is set. */
  lemma MemberFetchedFirst(v: MintView, isWhitelisted: bool, program: bool, o: Outcomes)
    ensures var es := MintRun(v, true, isWhitelisted, program, o).events;
      |es| > 1 && es[0] == GetMember && StartMinting !in es[..1]
  {
    var t := Try(v, true, isWhitelisted, program, o.member, o.mint, o.confirm, o.put);
    var es := MintRun(v, true, isWhitelisted, program, o).events;
    assert t.run.events[0] == GetMember;
    RecoverFinishAppendNoPut(t.run, Verdict(t.thrown, Classify), true, o.balanceThrows);
    assert |es| > |Recover(t.run, Verdict(t.thrown, Classify)).events|;
    assert es[..1] == [GetMember];
  }

  /** isMinting is set only after the member fetch, so while that fetch is pending the fields are
      those before the click: an enabled button stays enabled and a second click can start a
      second run. */
  lemma ButtonLiveDuringGateFetch(v: MintView, isWhitelisted: bool, program: bool, o: Outcomes, isActive: bool)
    ensures var es := MintRun(v, true, isWhitelisted, program, o).events;
      |es| > 0 && es[0] == GetMember && Replay(v, es[..1]) == v &&
      (!MintDisabled(v.isSoldOut, v.isMinting, isActive) ==>
        !MintDisabled(Replay(v, es[..1]).isSoldOut, Replay(v, es[..1]).isMinting, isActive))
  {
    var es := MintRun(v, true, isWhitelisted, program, o).events;
    MemberFetchedFirst(v, isWhitelisted, program, o);
    assert es[..1][..0] == [];
  }

  /** When the gate does not let the mint go ahead, the try block changes none of the fields. */
  lemma NoGateLeavesFields(v: MintView, wallet: bool, isWhitelisted: bool, program: bool, o: Outcomes)
    requires !GatePasses(wallet, isWhitelisted, o)
    ensures Try(v, wallet, isWhitelisted, program, o.member, o.mint, o.confirm, o.put).run.after == v
  {
    if wallet {
      assert Then(Run([], v), GetMember).after == v;
    }
  }

  /** When the gate fails nothing is minted, isMinting is never set and no reserve is written; the
      alert shows the gate's text. */
  lemma GateFailure(v: MintView, isWhitelisted: bool, program: bool, o: Outcomes)
    requires o.member.Ok? && GateCheck(isWhitelisted, o.member.value.reserve).Some?
    ensures var r := MintRun(v, true, isWhitelisted, program, o);
      var text := if !isWhitelisted then NotWhitelistedText else NotEnoughReservesText;
      StartMinting !in r.events && CallMint !in r.events && !SentPut(r.events) &&
      r.after.isMinting == (v.isMinting && o.balanceThrows) &&
      r.after.alert == ErrorAlert(text) &&
      (!o.balanceThrows ==>
        r.events == [GetMember, ShowAlert(ErrorAlert(text)), ReadBalance, StopMinting, RequestRefresh])
  {
    var e := GateCheck(isWhitelisted, o.member.value.reserve).value;
    ClassifyWithoutMsg(e);
  }

  /** The try block of a successful mint, step by step, with nothing thrown unless the PUT throws. */
  lemma SuccessTry(v: MintView, isWhitelisted: bool, program: bool, o: Outcomes)
    requires MintSucceeds(true, isWhitelisted, program, o)
    ensures var t := Try(v, true, isWhitelisted, program, o.member, o.mint, o.confirm, o.put);
      t.run.events == [GetMember, StartMinting, CallMint, AwaitConfirmation, ShowAlert(SuccessAlert),
                       PutReserve(Decremented(o.member.value.reserve))] &&
      (t.thrown.Some? <==> o.put.Throws?)
  {
  }

  /** A successful mint: the success alert is shown and then the reserve, decremented by one, is
      written back, before anything else happens. */
  lemma SuccessSteps(v: MintView, isWhitelisted: bool, program: bool, o: Outcomes)
    requires MintSucceeds(true, isWhitelisted, program, o)
    ensures var es := MintRun(v, true, isWhitelisted, program, o).events;
      |es| >= 6 &&
      es[..6] == [GetMember, StartMinting, CallMint, AwaitConfirmation, ShowAlert(SuccessAlert),
                  PutReserve(Decremented(o.member.value.reserve))]
  {
    var t := Try(v, true, isWhitelisted, program, o.member, o.mint, o.confirm, o.put);
    SuccessTry(v, isWhitelisted, program, o);
    RecoverFinishAppendNoPut(t.run, Verdict(t.thrown, Classify), true, o.balanceThrows);
  }

  /** The reserve is written back exactly on the success branch. */
  lemma PutSentIff(v: MintView, wallet: bool, isWhitelisted: bool, program: bool, o: Outcomes)
    ensures SentPut(MintRun(v, wallet, isWhitelisted, program, o).events) <==>
      MintSucceeds(wallet, isWhitelisted, program, o)
  {
    var es := MintRun(v, wallet, isWhitelisted, program, o).events;
    if MintSucceeds(wallet, isWhitelisted, program, o) {
      SuccessSteps(v, isWhitelisted, program, o);
      assert es[5].PutReserve?;
    } else {
      NoPutOffSuccess(v, wallet, isWhitelisted, program, o);
    }
  }

  /** Off the success branch, the try block writes nothing back. */
  lemma TryNoPutOffSuccess(v: MintView, wallet: bool, isWhitelisted: bool, program: bool, o: Outcomes)
    requires !MintSucceeds(wallet, isWhitelisted, program, o)
    ensures var es := Try(v, wallet, isWhitelisted, program, o.member, o.mint, o.confirm, o.put).run.events;
      forall i :: 0 <= i < |es| ==> !es[i].PutReserve?
  {
    if GatePasses(wallet, isWhitelisted, o) {
      var r1 := Then(Run([], v), GetMember);
      var a := Minting(r1, program, o.member.value.reserve, o.mint, o.confirm, o.put);
      assert forall i :: 0 <= i < |a.run.events| ==> !a.run.events[i].PutReserve?;
    }
  }

  /** Off the success branch, no step of the run is a PUT. */
  lemma NoPutOffSuccess(v: MintView, wallet: bool, isWhitelisted: bool, program: bool, o: Outcomes)
    requires !MintSucceeds(wallet, isWhitelisted, program, o)
    ensures !SentPut(MintRun(v, wallet, isWhitelisted, program, o).events)
  {
    var t := Try(v, wallet, isWhitelisted, program, o.member, o.mint, o.confirm, o.put);
    var es := MintRun(v, wallet, isWhitelisted, program, o).events;
    TryNoPutOffSuccess(v, wallet, isWhitelisted, program, o);
    RecoverFinishAppendNoPut(t.run, Verdict(t.thrown, Classify), wallet, o.balanceThrows);
    forall i | 0 <= i < |es|
      ensures !es[i].PutReserve?
    {
      if i < |t.run.events| {
        assert es[i] == t.run.events[i];
      }
    }
  }

  /** Every reserve written back is a count that is not negative, or null. */
  lemma PutNeverNegative(v: MintView, wallet: bool, isWhitelisted: bool, program: bool, o: Outcomes)
    ensures var es := MintRun(v, wallet, isWhitelisted, program, o).events;
      forall i :: 0 <= i < |es| && es[i].PutReserve? && es[i].reserve.Some? ==> es[i].reserve.value >= 0
  {
    var es := MintRun(v, wallet, isWhitelisted, program, o).events;
    if MintSucceeds(wallet, isWhitelisted, program, o) {
      var reserve := o.member.value.reserve;
      var t := Try(v, true, isWhitelisted, program, o.member, o.mint, o.confirm, o.put);
      SuccessTry(v, isWhitelisted, program, o);
      RecoverFinishAppendNoPut(t.run, Verdict(t.thrown, Classify), true, o.balanceThrows);
      assert forall i :: 0 <= i < 6 ==> es[i] == t.run.events[i];
      if reserve.Some? {
        PassedGateWritesNonNegative(isWhitelisted, reserve);
      }
    } else {
      NoPutOffSuccess(v, wallet, isWhitelisted, program, o);
    }
  }

  /** When the PUT throws after the success alert, the catch block replaces that alert with an
      error alert: the user ends up seeing an error although the mint went through. */
  lemma PutFailureOverwritesSuccess(v: MintView, isWhitelisted: bool, program: bool, o: Outcomes)
    requires MintSucceeds(true, isWhitelisted, program, o) && o.put.Throws?
    ensures var r := MintRun(v, true, isWhitelisted, program, o);
      ShowAlert(SuccessAlert) in r.events &&
      r.after.alert == ErrorAlert(Classify(o.put.error).message) && r.after.alert.severity == Error
  {
    SuccessSteps(v, isWhitelisted, program, o);
  }

  /** With a program, the final alert is the success alert exactly when the mint succeeded and the
      reserve write-back did not throw. */
  lemma FinalSuccessIff(v: MintView, wallet: bool, isWhitelisted: bool, program: bool, o: Outcomes)
    requires program
    ensures MintRun(v, wallet, isWhitelisted, program, o).after.alert == SuccessAlert <==>
      MintSucceeds(wallet, isWhitelisted, program, o) && o.put.Ok?
  {
  }

  /** A confirmed status with `err` shows the failure alert and writes nothing back. */
  lemma StatusErrorShowsFailure(v: MintView, isWhitelisted: bool, o: Outcomes)
    requires GatePasses(true, isWhitelisted, o) && o.mint.Ok? && o.confirm.Ok? && StatusFailed(o.confirm.value)
    ensures MintRun(v, true, isWhitelisted, true, o).after.alert == MintFailedAlert
  {
  }

  /** Unless the balance read in the finally block rejects, onMint ends with isMinting false and
      exactly one refresh requested, as its last step. */
  lemma EndsIdle(v: MintView, wallet: bool, isWhitelisted: bool, program: bool, o: Outcomes)
    requires !(wallet && o.balanceThrows)
    ensures var r := MintRun(v, wallet, isWhitelisted, program, o);
      !r.after.isMinting && r.events[|r.events| - 1] == RequestRefresh &&
      multiset(r.events)[RequestRefresh] == 1
  {
    var t := Try(v, wallet, isWhitelisted, program, o.member, o.mint, o.confirm, o.put);
    var rc := Recover(t.run, Verdict(t.thrown, Classify));
    assert RequestRefresh !in rc.events;
    assert MintRun(v, wallet, isWhitelisted, program, o) == Finish(rc, wallet, o.balanceThrows);
    FinishRefreshesOnce(rc, wallet, o.balanceThrows);
  }

  // ---------------------------------------------------------------- the component

  /** The state hooks of `HomeWhitelist` that the core reads or writes. `wallet` is the wallet
      adapter's value (present or not); nothing here changes it. */
  class HomeWhitelistComponent {
    var wallet: bool
    var isActive: bool
    var isSoldOut: bool
    var isMinting: bool
    var isWhitelisted: bool
    var itemsAvailable: int
    var itemsRedeemed: int
    var itemsRemaining: int
    var alertState: AlertState
    var startDate: int
    var candyMachine: Option<CandyMachine>
    /** The observable steps taken by `onMint` runs so far. */
    ghost var trace: seq<Event>

    /** The initial values of the state hooks. */
    constructor (wallet: bool, startDate: int)
      ensures this.wallet == wallet && this.startDate == startDate
      ensures !isActive && !isSoldOut && !isMinting && !isWhitelisted
      ensures itemsAvailable == 0 && itemsRedeemed == 0 && itemsRemaining == 0
      ensures alertState == InitialAlert && candyMachine == None && trace == []
    {
      this.wallet := wallet;
      this.startDate := startDate;
      isActive, isSoldOut, isMinting, isWhitelisted := false, false, false, false;
      itemsAvailable, itemsRedeemed, itemsRemaining := 0, 0, 0;
      alertState := InitialAlert;
      candyMachine := None;
      trace := [];
    }

    /** The fields `onMint` writes. */
    function View(): MintView
      reads this
    {
      MintView(isMinting, isSoldOut, alertState)
    }

    /** `candyMachine?.program` is truthy. */
    predicate HasProgram()
      reads this
    {
      candyMachine.Some? && candyMachine.value.hasProgram
    }

    /** The mint button's `disabled` expression. */
    predicate MintButtonDisabled()
      reads this
    {
      MintDisabled(isSoldOut, isMinting, isActive)
    }

    /** `refreshCandyMachineState`, as in `Home`. */
    method RefreshCandyMachineState(read: Result<LedgerState>)
      modifies this`itemsAvailable, this`itemsRemaining, this`itemsRedeemed, this`isSoldOut,
               this`startDate, this`candyMachine, this`isActive
      ensures !wallet || read.Throws? ==>
        itemsAvailable == old(itemsAvailable) && itemsRemaining == old(itemsRemaining) &&
        itemsRedeemed == old(itemsRedeemed) && isSoldOut == old(isSoldOut) &&
        startDate == old(startDate) && candyMachine == old(candyMachine) && isActive == old(isActive)
      ensures wallet && read.Ok? ==>
        itemsAvailable == read.value.itemsAvailable && itemsRemaining == read.value.itemsRemaining &&
        itemsRedeemed == read.value.itemsRedeemed && (isSoldOut <==> read.value.itemsRemaining == 0) &&
        startDate == read.value.goLiveDate && candyMachine == Some(read.value.candyMachine) && !isActive
      ensures wallet && read.Ok? ==> MintButtonDisabled()
    {
      if !wallet {
        return;
      }
      match read
      case Throws(_) =>
      case Ok(s) =>
        itemsAvailable := s.itemsAvailable;
        itemsRemaining := s.itemsRemaining;
        itemsRedeemed := s.itemsRedeemed;
        isSoldOut := s.itemsRemaining == 0;
        startDate := s.goLiveDate;
        candyMachine := Some(s.candyMachine);
        isActive := false;
    }

    /** The countdown's `onComplete` (and `onMount` once completed): the only writer of isActive true. */
    method OnCountdownComplete()
      modifies this`isActive
      ensures isActive
      ensures MintButtonDisabled() <==> isSoldOut || isMinting
    {
      isActive := true;
    }

    /** The whitelist effect, as in `Home`; here `onMint` reads the flag it sets. */
    method WhitelistEffect(balanceThrows: bool, status: Result<int>)
      modifies this`isWhitelisted
      ensures isWhitelisted == AfterLookup(old(isWhitelisted), Lookup(wallet, balanceThrows, status))
      ensures old(isWhitelisted) ==> isWhitelisted
    {
      if wallet {
        if balanceThrows {
          return;
        }
        match status
        case Throws(_) =>
        case Ok(code) =>
          if code != NotFoundStatus {
            isWhitelisted := true;
          }
      }
    }

    /** The try block up to the gate; past the gate it continues in `MintBlock`. */
    method TryBlock(o: Outcomes) returns (thrown: Option<ThrownError>)
      modifies this`isMinting, this`alertState, this`trace
      ensures var t := Try(old(View()), wallet, isWhitelisted, HasProgram(), o.member, o.mint, o.confirm, o.put);
        trace == old(trace) + t.run.events && View() == t.run.after && thrown == t.thrown
    {
      if !wallet {
        thrown := Some(JsError(PublicKeyTypeErrorText));
        return;
      }
      ghost var r := Then(Run([], View()), GetMember);
      trace := trace + [GetMember];
      match o.member
      case Throws(e) =>
        thrown := Some(e);
      case Ok(record) =>
        if !isWhitelisted {
          thrown := Some(JsError(NotWhitelistedText));
        } else if ReserveShort(record.reserve) {
          thrown := Some(JsError(NotEnoughReservesText));
        } else {
          thrown := MintBlock(record.reserve, o, old(trace), r);
        }
    }

    /** The try block past the gate, continuing the run `r`. */
    method MintBlock(reserve: Option<int>, o: Outcomes, ghost base: seq<Event>, ghost r: Run)
      returns (thrown: Option<ThrownError>)
      requires trace == base + r.events && View() == r.after
      modifies this`isMinting, this`alertState, this`trace
      ensures var t := Minting(r, HasProgram(), reserve, o.mint, o.confirm, o.put);
        trace == base + t.run.events && View() == t.run.after && thrown == t.thrown
    {
      thrown := None;
      ghost var r1 := Then(r, StartMinting);
      isMinting := true;
      trace := trace + [StartMinting];
      assert trace == base + r1.events;
      if HasProgram() {
        r1 := Then(r1, CallMint);
        trace := trace + [CallMint];
        assert trace == base + r1.events;
        match o.mint
        case Throws(e) =>
          thrown := Some(e);
        case Ok(_) =>
          r1 := Then(r1, AwaitConfirmation);
          trace := trace + [AwaitConfirmation];
          assert trace == base + r1.events;
          match o.confirm
          case Throws(e) =>
            thrown := Some(e);
          case Ok(status) =>
            if !StatusFailed(status) {
              alertState := SuccessAlert;
              r1 := Then(r1, ShowAlert(SuccessAlert));
              trace := trace + [ShowAlert(SuccessAlert)];
              assert trace == base + r1.events;
              r1 := Then(r1, PutReserve(Decremented(reserve)));
              trace := trace + [PutReserve(Decremented(reserve))];
              assert trace == base + r1.events;
              if o.put.Throws? {
                thrown := Some(o.put.error);
              }
            } else {
              alertState := MintFailedAlert;
              r1 := Then(r1, ShowAlert(MintFailedAlert));
              trace := trace + [ShowAlert(MintFailedAlert)];
              assert trace == base + r1.events;
            }
      }
    }

    /** The catch block of `onMint`, continuing the run `r`. */
    method CatchBlock(thrown: Option<ThrownError>, ghost base: seq<Event>, ghost r: Run)
      requires trace == base + r.events && View() == r.after
      modifies this`isSoldOut, this`alertState, this`trace
      ensures var r' := Recover(r, Verdict(thrown, Classify));
        trace == base + r'.events && View() == r'.after
    {
      if thrown.Some? {
        var c := Classify(thrown.value);
        ghost var r1 := r;
        if c.marksSoldOut {
          isSoldOut := true;
          trace := trace + [MarkSoldOut];
          r1 := Then(r1, MarkSoldOut);
          assert trace == base + r1.events;
        }
        alertState := ErrorAlert(c.message);
        trace := trace + [ShowAlert(alertState)];
        assert trace == base + Then(r1, ShowAlert(alertState)).events;
      }
    }

    /** The finally block of `onMint`, continuing the run `r`. */
    method FinallyBlock(balanceThrows: bool, ghost base: seq<Event>, ghost r: Run)
      requires trace == base + r.events && View() == r.after
      modifies this`isMinting, this`trace
      ensures var r' := Finish(r, wallet, balanceThrows);
        trace == base + r'.events && View() == r'.after
    {
      ghost var r1 := r;
      if wallet {
        trace := trace + [ReadBalance];
        r1 := Then(r1, ReadBalance);
        assert trace == base + r1.events;
        if balanceThrows {
          return;
        }
      }
      isMinting := false;
      trace := trace + [StopMinting];
      r1 := Then(r1, StopMinting);
      assert trace == base + r1.events;
      trace := trace + [RequestRefresh];
      r1 := Then(r1, RequestRefresh);
      assert trace == base + r1.events;
    }

    /** `onMint`, given the outcomes of its external calls. */
    method OnMint(o: Outcomes)
      modifies this`isMinting, this`isSoldOut, this`alertState, this`trace
      ensures var r := MintRun(old(View()), wallet, isWhitelisted, HasProgram(), o);
        trace == old(trace) + r.events && View() == r.after
      ensures !GatePasses(wallet, isWhitelisted, o) ==> isMinting == (old(isMinting) && wallet && o.balanceThrows)
    {
      ghost var v0 := View();
      var thrown := TryBlock(o);
      ghost var t := Try(v0, wallet, isWhitelisted, HasProgram(), o.member, o.mint, o.confirm, o.put);
      CatchBlock(thrown, old(trace), t.run);
      ghost var rc := Recover(t.run, Verdict(thrown, Classify));
      FinallyBlock(o.balanceThrows, old(trace), rc);
    }
  }
}
