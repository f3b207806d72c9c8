// HelpFAB: on the quiz and headset pages a floating "?" button is injected;
// each click opens the same kind of video dialog as the welcome popup, but
// this one never navigates and never reads or writes storage: the class
// holds no storage at all, and its methods modify only the object itself.

module HelpFab {
  import opened Browser
  import opened Paths
  import Welcome

  /** `isTargetPage` as written: four suffix tests on the lower-cased
      `location.pathname || ''`. The two tests with a leading `/` add
      nothing: the page is a target exactly when the lower-cased path ends in
      one of the two page names. */
  predicate IsTargetPage(pathname: string): (b: bool)
    ensures b <==> EndsWith(Lower(pathname), QuizPage) || EndsWith(Lower(pathname), HeadsetPage)
  {
    var path := Lower(pathname);
    EndsWithLonger(path, "/", QuizPage);
    EndsWithLonger(path, "/", HeadsetPage);
    EndsWith(path, "/" + QuizPage) || EndsWith(path, "/" + HeadsetPage) ||
    EndsWith(path, QuizPage) || EndsWith(path, HeadsetPage)
  }

  /** The help button appears on exactly the pages whose links the welcome
      popup gates: the two page tests agree on every path. */
  lemma SamePagesAsWelcome(pathname: string)
    ensures IsTargetPage(pathname) <==> Welcome.IsGatedHref(Some(pathname))
  {
    assert IsLowerCase(QuizPage) by {
      forall k | 0 <= k < |QuizPage| ensures LowerChar(QuizPage[k]) == QuizPage[k] {
        assert QuizPage[k] in "quiz.html";
      }
    }
    assert IsLowerCase(HeadsetPage) by {
      forall k | 0 <= k < |HeadsetPage| ensures LowerChar(HeadsetPage[k]) == HeadsetPage[k] {
        assert HeadsetPage[k] in "headset.html";
      }
    }
    IgnoringCaseIsLowerSuffix(pathname, QuizPage);
    IgnoringCaseIsLowerSuffix(pathname, HeadsetPage);
  }

  class HelpButton {
    /** How many `.help-fab` buttons `init` injected. */
    var buttons: nat
    /** Every help dialog opened so far. */
    var dialogs: seq<Welcome.Wrapper>

    /** `init`: exactly one button on a target page, none elsewhere. */
    constructor (pathname: string)
      ensures buttons == if IsTargetPage(pathname) then 1 else 0
      ensures dialogs == []
    {
      buttons := if IsTargetPage(pathname) then 1 else 0;
      dialogs := [];
    }

    /** A click on the injected button: its listener calls `open`, so a
        dialog opens only on a page where the button exists. */
    method ClickFab()
      modifies this
      ensures dialogs == if old(buttons) > 0 then old(dialogs) + [Welcome.Open] else old(dialogs)
      ensures buttons == old(buttons)
    {
      if buttons > 0 {
        Open();
      }
    }

    /** `open`: render one more dialog; nothing else changes. Only the
        button's listener calls it, so a button exists. */
    method Open()
      requires buttons > 0
      modifies this
      ensures dialogs == old(dialogs) + [Welcome.Open]
      ensures buttons == old(buttons)
    {
      dialogs := dialogs + [Welcome.Open];
    }

    /** The dialog's `close`: it fades out; no flag, no navigation. */
    method Close(i: nat)
      requires i < |dialogs| && dialogs[i] != Welcome.Removed
      modifies this
      ensures dialogs == old(dialogs)[i := Welcome.Closing]
      ensures buttons == old(buttons)
    {
      dialogs := dialogs[i := Welcome.Closing];
    }

    /** The 300 ms removal timer of dialog `i` fires. */
    method FadeOut(i: nat)
      requires i < |dialogs| && dialogs[i] != Welcome.Open
      modifies this
      ensures dialogs == old(dialogs)[i := Welcome.Removed]
      ensures buttons == old(buttons)
    {
      dialogs := dialogs[i := Welcome.Removed];
    }
  }
}
