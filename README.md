# candy-machine-mint: the mint page's decision logic

The mint page of candy-machine-mint is a React component that lets a connected Solana wallet
mint one token from a candy machine. It exists in two variants:

- `Home`: the open mint.
- `HomeWhitelist`: the same page, gated by an allow-list registry over HTTP. The registry says
  whether the wallet is listed and how many mints (its *reserve*) it has left.

This project models what the two components decide, not how they render:

- the catch-block classifier that turns a thrown error into the alert text;
- the try/catch/finally step sequence of `onMint`;
- `refreshCandyMachineState`;
- the whitelist-lookup effect;
- the mint button's `disabled` expression.

Every external call is an outcome given as a parameter: the ledger read, `mintOneToken`, the
confirmation wait, the balance read, and the registry `GET` and `PUT`. Each outcome either
returns a value or throws.

## Layout

- `wrappers.dfy` (`Wrappers`): `Option`.
- `js.dfy` (`Js`): what the components rely on from JavaScript.
  - `indexOf` returns `-1` or the first index.
  - A number used as a condition is truthy unless it is `0`. So `if (s.indexOf(t))` means "`s`
    does not start with `t`".
  - A string is truthy unless it is empty, which gives the meaning of `error.msg || default`.
- `mint_flow.dfy` (`MintFlow`): the parts shared by both components.
  - The thrown-error record (`msg`, `code`, `message`), the alert state and the fixed alert texts.
  - The steps an `onMint` run takes, recorded as a sequence of `Event`s together with the fields
    it leaves (`Run`).
  - The catch block (`Recover`) and the finally block (`Finish`) as functions on runs.
  - The button predicate and the whitelist effect.
- `home.dfy` (`Home`):
  - `Home`'s classifier.
  - Its try block (`Try`) and a whole run as a function (`MintRun`).
  - The lemmas about `MintRun`.
  - The `HomeComponent` class: one field per state hook the core reads or writes. Its methods update the fields in the
    order the source does and append each step to a ghost `trace`. `OnMint` is proved to leave
    exactly the fields and steps `MintRun` describes.
- `home_whitelist.dfy` (`HomeWhitelist`): the same for `HomeWhitelist`, plus:
  - the gate (the whitelisted flag first, then the reserve);
  - the reserve write-back after a successful mint.
- `variants.dfy` (`Variants`): where the two classifiers agree and where they do not.

Behaviours of the code that the model keeps:

- There is no ordered error taxonomy. The classifier is an if/else chain over `msg`, `code`
  and `message`, and its `indexOf` tests are truthiness tests on the index. As a result, some
  labelled outcomes are unreachable: insufficient funds in `Home`, and the `0x138` test in
  `HomeWhitelist`.
- There is no re-entrancy guard in `onMint`. The only guard is the button's `disabled`
  expression.
- The reserve `PUT` is not best-effort. If it throws, the success alert is replaced by an
  error alert.
- The refresh is not issued on every path. If the balance read in the finally block rejects,
  `isMinting` stays true and no refresh is requested.

## Model

| member | source | states |
|---|---|---|
| Js.IndexOf | src/Home.tsx:178-189 | the result is -1 exactly when `t` occurs nowhere in `s`; otherwise `t` occurs at the result and at no smaller index |
| Js.IndexOfTruthyIffNotPrefix | src/Home.tsx:178-189 | `if (s.indexOf(t))` takes its branch exactly when `s` does not start with `t` |
| Js.DistinctPrefixTruthy | src/Home.tsx:178-189 | a string starting with one five-character code makes `indexOf` of any other code of that length truthy |
| MintFlow.ErrorAlert | src/Home.tsx:204-208 | the catch block's alert is open with severity "error"; it is never the success alert or the closed initial alert, and it equals the mint-failed alert exactly when the caught text is "Mint failed! Please try again!", so those two paths look the same to the user |
| MintFlow.Recover | src/Home.tsx:171-208 | nothing thrown leaves the run as it is; a throw sets the alert to an error alert with the verdict's text and ORs the sold-out mark into isSoldOut; isMinting is untouched |
| MintFlow.Finish | src/Home.tsx:209-216 | with a wallet the balance is read first; if that read rejects nothing else happens; otherwise isMinting is cleared and a refresh is requested as the last two steps; alert and isSoldOut are untouched |
| MintFlow.StatusFailed | src/Home.tsx:147 | `status?.err`: a missing status counts as no error; `Home.FinalAlert` and `HomeWhitelist.StatusErrorShowsFailure` show which alert each value gives |
| MintFlow.RecoverFinishAppendNoPut | src/HomeWhitelist.tsx:147-190 | the catch and finally blocks only append steps to the try block's steps, and none of the appended steps writes the reserve back |
| MintFlow.FinishRefreshesOnce | src/Home.tsx:209-216 | unless the balance read rejects, the run ends with isMinting false and exactly one refresh request, as its last step; if it rejects, isMinting is unchanged and no refresh is requested |
| MintFlow.ThenCoherent | src/Home.tsx:109-217 | appending a step keeps the recorded fields equal to the replay of the recorded steps |
| MintFlow.RecoverCoherent | src/Home.tsx:171-208 | the catch block keeps a run's fields equal to the replay of its steps |
| MintFlow.FinishCoherent | src/Home.tsx:209-216 | the finally block keeps a run's fields equal to the replay of its steps |
| MintFlow.TraceReplays | src/Home.tsx:109-217 | when a coherent run is appended to a trace, the run's final fields are the replay of the appended part of the trace |
| MintFlow.MintingUntilStopped | src/Home.tsx:127-216 | in a run that starts with `setIsMinting(true)`, every prefix that does not contain `setIsMinting(false)` leaves isMinting true |
| MintFlow.MintDisabled | src/Home.tsx:334 | the button's `disabled` expression; `Home.ButtonDisabledWhileMinting`, `HomeWhitelist.ButtonLiveDuringGateFetch` and `Home.HomeComponent.ClickableNeedsWallet` state what it guards and what it does not |
| MintFlow.Listed | src/Home.tsx:221-226 | an effect run reaches `SetWhitelisted(true)`: a wallet, a resolved balance read, and a lookup status other than 404; `MintFlow.AfterLookup` states its effect on the flag |
| MintFlow.AfterLookup | src/Home.tsx:219-233 | after one effect run the flag is true exactly when it was true or the run found the wallet (wallet present, balance read resolved, status not 404); it never turns false |
| MintFlow.WhitelistedAfter | src/Home.tsx:219-233 | the flag after a series of effect runs; it stays true once true, and `MintFlow.WhitelistedAfterIff` gives both directions of when it is true |
| MintFlow.WhitelistedAfterIff | src/Home.tsx:219-233 | after any series of effect runs the flag is true exactly when it started true or some run found the wallet |
| MintFlow.WhitelistedMonotone | src/HomeWhitelist.tsx:193-207 | further effect runs never turn the flag back to false |
| Home.Classify | src/Home.tsx:171-202 | only a truthy `msg` with code 311 marks the machine sold out, and the text is then "SOLD OUT!"; the text shown is never empty; `ClassifyWithMsg`, `ClassifyWithoutMsgOther` and `ClassifyWithoutMsg0x138` give each branch |
| Home.ClassifyWithMsg | src/Home.tsx:193-202 | with a truthy `msg`: code 311 gives "SOLD OUT!" and marks sold out, code 312 gives the not-started text, any other code gives `msg` |
| Home.ClassifyWithoutMsgOther | src/Home.tsx:173-185 | without `msg`, a message not starting with "0x138" is kept only if it is one of the two gate texts; otherwise the default text is shown |
| Home.ClassifyWithoutMsg0x138 | src/Home.tsx:176-192 | without `msg`, a message starting with "0x138" gives "SOLD OUT!" without marking sold out |
| Home.InsufficientFundsUnreachable | src/Home.tsx:186-192 | the insufficient-funds text is shown only when `msg` itself carries it: its branch is dead |
| Home.ClassifyTexts | src/Home.tsx:171-208 | every verdict is one of five fixed texts or `msg` |
| Home.Try | src/Home.tsx:110-170 | the try block leaves isMinting true and isSoldOut unchanged, throws only with a wallet and a program, and neither stops minting nor requests a refresh |
| Home.MintRun | src/Home.tsx:109-217 | a refresh is requested exactly when it is not the case that a wallet is present and the balance read rejects, and isMinting ends true exactly in that case |
| Home.MintRunCoherent | src/Home.tsx:109-217 | the fields a run ends with are the replay of its steps from the fields it started with |
| Home.MintRunReplays | src/Home.tsx:109-217 | given what `HomeComponent.OnMint` ensures, its final fields are the replay of the steps it appended |
| Home.StartsMinting | src/Home.tsx:127 | every run sets isMinting first |
| Home.ButtonDisabledWhileMinting | src/Home.tsx:127-216 | every intermediate state of a run before `setIsMinting(false)` has the button of line 334 disabled, whatever isActive is |
| Home.NoWalletOrProgram | src/Home.tsx:128-170 | without a wallet or a program the mint is not sent, no confirmation is awaited, and the alert and isSoldOut are unchanged |
| Home.MintSentIff | src/Home.tsx:128-137 | the mint is sent exactly when there is a wallet and a program |
| Home.EndsIdle | src/Home.tsx:209-216 | unless the balance read rejects, the run ends with isMinting false and exactly one refresh request, as its last step; if it rejects, isMinting stays true and no refresh is requested |
| Home.FinalAlert | src/Home.tsx:139-208 | with a wallet and a program: the final alert is the success alert exactly when both calls return and the status has no `err`; a status with `err` gives the failure alert; a throw from either call gives the classifier's error alert |
| Home.SoldOutOnlyByCode311 | src/Home.tsx:194-197 | isSoldOut ends true exactly when it was true or the thrown error has a truthy `msg` and code 311 |
| Home.SuccessfulMintSteps | src/Home.tsx:127-216 | a successful mint takes exactly seven steps: start, send, await, success alert, balance read, stop, refresh |
| Home.HomeComponent.constructor | src/Home.tsx:57-79 | every state hook starts at the source's initial value |
| Home.HomeComponent.ShowsConnectButton | src/Home.tsx:330-331 | the connect button replaces the mint button when there is no wallet and the machine is not sold out; `ClickableNeedsWallet` states what follows for clicks |
| Home.HomeComponent.ClickableNeedsWallet | src/Home.tsx:330-334 | an enabled mint button that is not replaced by the connect button implies a wallet |
| Home.HomeComponent.RefreshCandyMachineState | src/Home.tsx:81-107 | without a wallet, or when the ledger read rejects, nothing changes; otherwise the counters, start date and machine are replaced, isSoldOut is `itemsRemaining == 0`, isActive is false, and so the button is disabled |
| Home.HomeComponent.OnCountdownComplete | src/Home.tsx:354-355 | isActive becomes true, and the button is then disabled exactly when sold out or minting |
| Home.HomeComponent.WhitelistEffect | src/Home.tsx:219-233 | isWhitelisted becomes the result of `AfterLookup` on its old value and never turns false |
| Home.HomeComponent.TryBlock | src/Home.tsx:110-170 | the try block's field updates and steps are those of `Try`, and it throws what `Try` throws |
| Home.HomeComponent.CatchBlock | src/Home.tsx:171-208 | the catch block's field updates and steps are those of `Recover` with the classifier's verdict |
| Home.HomeComponent.FinallyBlock | src/Home.tsx:209-216 | the finally block's field updates and steps are those of `Finish` |
| Home.HomeComponent.OnMint | src/Home.tsx:109-217 | `onMint` leaves exactly the fields and appends exactly the steps of `MintRun`; without a wallet or a program the alert is unchanged |
| HomeWhitelist.KeptHasNoCode | src/HomeWhitelist.tsx:151-160 | none of the three texts kept verbatim starts with a program error code, so they never reach the `indexOf` tests |
| HomeWhitelist.Classify | src/HomeWhitelist.tsx:147-176 | only a truthy `msg` with code 311 marks the machine sold out, and the text is then "SOLD OUT!"; the text shown is never empty; `ClassifyWithMsg` and `ClassifyWithoutMsg` give each branch |
| HomeWhitelist.ClassifyWithMsg | src/HomeWhitelist.tsx:169-176 | with a truthy `msg`: code 311 gives "SOLD OUT!" and marks sold out, code 312 gives the not-started text, any other code gives `msg` |
| HomeWhitelist.ClassifyWithoutMsg | src/HomeWhitelist.tsx:149-168 | without `msg`: the quoted TypeError text and the two gate texts are kept, a message starting with "0x137" gives the insufficient-funds text, and every other message gives "SOLD OUT!" |
| HomeWhitelist.DefaultNeverKept | src/HomeWhitelist.tsx:149-168 | without `msg` the default text is never shown |
| HomeWhitelist.Test0x138Unreachable | src/HomeWhitelist.tsx:160-168 | no message reaches the `indexOf("0x138")` test |
| HomeWhitelist.MissingWalletReadsAsSoldOut | src/HomeWhitelist.tsx:149-161 | the TypeError thrown without a wallet is not the quoted text the catch block compares against, so it is shown as "SOLD OUT!" |
| HomeWhitelist.ReserveShort | src/HomeWhitelist.tsx:102 | `res_num - 1 < 0`: a missing reserve gives NaN and does not fail the test; `GateCheckIff` states its place in the gate |
| HomeWhitelist.GateCheck | src/HomeWhitelist.tsx:99-105 | what the gate throws is an `Error` with no `msg` whose text the catch block keeps verbatim |
| HomeWhitelist.GateCheckIff | src/HomeWhitelist.tsx:99-105 | the gate passes exactly for a whitelisted wallet whose reserve is not below one; the whitelist test comes first |
| HomeWhitelist.PassedGateWritesNonNegative | src/HomeWhitelist.tsx:102-129 | a reserve that passed the gate is written back as one less than it was, which is not negative |
| HomeWhitelist.Minting | src/HomeWhitelist.tsx:106-146 | the try block past the gate extends the run, sets isMinting first, throws only with a program, and neither stops minting nor requests a refresh |
| HomeWhitelist.Try | src/HomeWhitelist.tsx:95-146 | minting starts exactly when there is a wallet, the member lookup resolves and the gate passes; the try block neither stops minting nor requests a refresh |
| HomeWhitelist.MintRun | src/HomeWhitelist.tsx:94-191 | a refresh is requested exactly when it is not the case that a wallet is present and the balance read rejects |
| HomeWhitelist.MintRunCoherent | src/HomeWhitelist.tsx:94-191 | the fields a run ends with are the replay of its steps from the fields it started with |
| HomeWhitelist.MintingCoherent | src/HomeWhitelist.tsx:106-146 | the part of the try block after the gate keeps a run's fields equal to the replay of its steps |
| HomeWhitelist.MintRunReplays | src/HomeWhitelist.tsx:94-191 | given what `HomeWhitelistComponent.OnMint` ensures, its final fields are the replay of the steps it appended |
| HomeWhitelist.NoWalletShowsSoldOut | src/HomeWhitelist.tsx:94-190 | without a wallet nothing is fetched or minted, "SOLD OUT!" is shown as an error, and the run stops and requests a refresh |
| HomeWhitelist.MemberFetchedFirst | src/HomeWhitelist.tsx:96-106 | with a wallet, the member record is fetched before isMinting is set |
| HomeWhitelist.ButtonLiveDuringGateFetch | src/HomeWhitelist.tsx:96-106 | while the member fetch is pending the fields are those before the click, so an enabled button stays enabled and a second click can start a second run |
| HomeWhitelist.GateFailure | src/HomeWhitelist.tsx:94-190 | when the gate fails, isMinting is never set, nothing is minted, no reserve is written back, and the gate's text is the final alert; the exact five steps are given |
| HomeWhitelist.NoGateLeavesFields | src/HomeWhitelist.tsx:95-105 | when the wallet is missing, the member lookup throws or the gate fails, the try block leaves isMinting, isSoldOut and the alert as they were |
| HomeWhitelist.SuccessSteps | src/HomeWhitelist.tsx:96-136 | a successful mint fetches, starts, sends, awaits, shows the success alert and then writes back the decremented reserve, in that order |
| HomeWhitelist.SuccessTry | src/HomeWhitelist.tsx:95-136 | the try block of a successful mint takes exactly six steps, ending with the reserve write-back, and throws exactly when the write-back throws |
| HomeWhitelist.PutSentIff | src/HomeWhitelist.tsx:123-145 | the reserve is written back exactly on the success branch |
| HomeWhitelist.TryNoPutOffSuccess | src/HomeWhitelist.tsx:95-146 | off the success branch the try block takes no write-back step |
| HomeWhitelist.NoPutOffSuccess | src/HomeWhitelist.tsx:123-145 | off the success branch no step writes the reserve back |
| HomeWhitelist.PutNeverNegative | src/HomeWhitelist.tsx:102-135 | every reserve written back as a number is not negative; a missing reserve is written back as null |
| HomeWhitelist.PutFailureOverwritesSuccess | src/HomeWhitelist.tsx:123-182 | if the write-back throws after the success alert, the final alert is the classifier's error alert |
| HomeWhitelist.FinalSuccessIff | src/HomeWhitelist.tsx:94-182 | with a program, the final alert is the success alert exactly when the mint succeeded and the write-back did not throw |
| HomeWhitelist.StatusErrorShowsFailure | src/HomeWhitelist.tsx:139-145 | a status with `err` gives the failure alert |
| HomeWhitelist.EndsIdle | src/HomeWhitelist.tsx:183-190 | unless the balance read rejects, the run ends with isMinting false and exactly one refresh request, as its last step |
| HomeWhitelist.HomeWhitelistComponent.constructor | src/HomeWhitelist.tsx:44-64 | every state hook starts at the source's initial value |
| HomeWhitelist.HomeWhitelistComponent.RefreshCandyMachineState | src/HomeWhitelist.tsx:66-92 | without a wallet, or when the ledger read rejects, nothing changes; otherwise the counters, start date and machine are replaced, isSoldOut is `itemsRemaining == 0`, and isActive is false |
| HomeWhitelist.HomeWhitelistComponent.OnCountdownComplete | src/HomeWhitelist.tsx:293-294 | isActive becomes true, and the button is then disabled exactly when sold out or minting |
| HomeWhitelist.HomeWhitelistComponent.WhitelistEffect | src/HomeWhitelist.tsx:193-207 | isWhitelisted becomes the result of `AfterLookup` on its old value and never turns false |
| HomeWhitelist.HomeWhitelistComponent.TryBlock | src/HomeWhitelist.tsx:95-146 | the try block's field updates and steps are those of `Try`, and it throws what `Try` throws |
| HomeWhitelist.HomeWhitelistComponent.MintBlock | src/HomeWhitelist.tsx:106-146 | the try block past the gate does what `Minting` describes |
| HomeWhitelist.HomeWhitelistComponent.CatchBlock | src/HomeWhitelist.tsx:147-182 | the catch block's field updates and steps are those of `Recover` with this file's classifier |
| HomeWhitelist.HomeWhitelistComponent.FinallyBlock | src/HomeWhitelist.tsx:183-190 | the finally block's field updates and steps are those of `Finish` |
| HomeWhitelist.HomeWhitelistComponent.OnMint | src/HomeWhitelist.tsx:94-191 | `onMint` leaves exactly the fields and appends exactly the steps of `MintRun`; when the gate does not pass, isMinting ends true only if it was true and the balance read rejected |
| Variants.AgreeWithMsg | src/HomeWhitelist.tsx:169-176 | with a truthy `msg` the two classifiers agree |
| Variants.AgreeWithoutMsgIff | src/HomeWhitelist.tsx:149-168 | without `msg` the two classifiers agree exactly on the two gate texts and on messages starting with "0x138" |
| Variants.Disagree0x137 | src/Home.tsx:186-192 | a bare "0x137" error gives the default text in `Home` and the insufficient-funds text in `HomeWhitelist` |

## Left out

- Rendering: JSX, styling, the Snackbar, the Countdown widget, `renderCounter`, and the alert's
  `onClose`. All of these are display.
- `mintOneToken`, `awaitTransactionSignatureConfirmation` and `getCandyMachineState`, which come
  from `./candy-machine`. That file is not part of this model. Each is an outcome that returns or
  throws; their timeouts and commitment level are not modelled.
- `fetch`, JSON and the environment. `process.env` is where the registry URL and the secret come
  from. Only these are modelled:
  - whether a lookup throws;
  - the lookup's status (404 or not);
  - the `reserve` value, possibly absent;
  - whether the `PUT` throws.
- The balance value, `balance / LAMPORTS_PER_SOL`: it is floating point and only displayed. Only
  whether its read rejects is modelled.
- Async interleaving. Two things are left out here:
  - other events running during `onMint`'s awaits, such as a second click while the gate fetch
    is pending, or an effect;
  - stale closures.

  The un-awaited `refreshCandyMachineState()` in the finally block is modelled as a
  `RequestRefresh` step. Its effect on the state is the separate `RefreshCandyMachineState`
  method.
- A refresh whose ledger read rejects: it becomes an unhandled rejection and changes nothing. It
  is modelled only as "nothing changes".
- A thrown value whose `message` is undefined. It would make `indexOf` throw inside the catch
  block; `message` is always a string here.
- Strings are sequences of characters. UTF-16 code units and engine-specific error wording are
  not modelled, apart from the V8 text of the missing-wallet TypeError.
- A `reserve` that is not an integer. `None` stands for a record without a `reserve` key, which
  makes `res_num - 1` NaN and lets the gate pass. A `reserve` of JSON `null` is not modelled: it
  would make `null - 1 < 0` true and throw "Not enough reserves". Fractional reserves are not
  modelled either.
- Home.EndsIdle: it does not promise idle on every path. When the balance read in the finally
  block rejects, the code skips `setIsMinting(false)` and the refresh, and the model keeps that.
- HomeWhitelist.EndsIdle: as for `Home`, it excludes the path where the balance read rejects.
