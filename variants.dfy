/**
 * How the catch blocks of `Home` and `HomeWhitelist` differ. They are copies of one another that
 * drifted apart: with `error.msg` present they agree, without it they agree only on the gate
 * texts and on messages starting with "0x138".
 */
module Variants {
  import Js
  import opened MintFlow
  import Home
  import HomeWhitelist

  /** With a truthy `error.msg` the two classifiers give the same verdict. */
  lemma AgreeWithMsg(e: ThrownError)
    requires Js.TruthyString(e.msg)
    ensures Home.Classify(e) == HomeWhitelist.Classify(e)
  {
    Home.ClassifyWithMsg(e);
    HomeWhitelist.ClassifyWithMsg(e);
  }

  /** Without `error.msg` they agree exactly on the two gate texts and on messages starting with
      "0x138"; every other message is classified differently by the two components. */
  lemma AgreeWithoutMsgIff(e: ThrownError)
    requires !Js.TruthyString(e.msg)
    ensures Home.Classify(e) == HomeWhitelist.Classify(e) <==>
      e.message == NotWhitelistedText || e.message == NotEnoughReservesText || "0x138" <= e.message
  {
    HomeWhitelist.ClassifyWithoutMsg(e);
    if "0x138" <= e.message {
      Home.ClassifyWithoutMsg0x138(e);
      if HomeWhitelist.Kept(e.message) {
        HomeWhitelist.KeptHasNoCode(e.message, "0x138");
      }
      assert !("0x137" <= e.message) by {
        assert e.message[4] == '8';
      }
    } else {
      Home.ClassifyWithoutMsgOther(e);
    }
  }

  /** A bare "0x137" error: `Home` shows the default text, `HomeWhitelist` the insufficient-funds
      text. */
  lemma Disagree0x137()
    ensures Home.Classify(JsError("0x137")).message == DefaultText
    ensures HomeWhitelist.Classify(JsError("0x137")).message == InsufficientText
  {
    assert !("0x138" <= "0x137") by {
      assert "0x137"[4] != "0x138"[4];
    }
    Home.ClassifyWithoutMsgOther(JsError("0x137"));
    HomeWhitelist.ClassifyWithoutMsg(JsError("0x137"));
    if HomeWhitelist.Kept("0x137") {
      HomeWhitelist.KeptHasNoCode("0x137", "0x137");
    }
  }
}
