/**
 * The onboarding page (src/pages/Onboarding.tsx): the user picks interests
 * and physicists locally, and "continue" copies both into the user context
 * once neither list is empty.
 */
module OnboardingPage {
  import opened Common
  import opened UserContext
  import Selection
  import PhysicistSelector

  datatype Toast = Toast(title: string, description: string, destructive: bool)

  const SelectInterestsToast := Toast("Select interests", "Please select at least one area of interest", true)
  const SelectPhysicistsToast := Toast("Select physicists", "Please select at least one physicist to chat with", true)
  const WelcomeToast := Toast("Welcome to Photon!", "Your physics journey begins now", false)
  const ReplicasPath := "/replicas"

  /** The toast `handleContinue` shows: the first unmet requirement, or the welcome. */
  function ContinueToast(interests: seq<string>, physicistIds: seq<string>): (t: Toast)
    ensures t == WelcomeToast <==> interests != [] && physicistIds != []
    ensures t == SelectInterestsToast <==> interests == []
    ensures t == SelectPhysicistsToast <==> interests != [] && physicistIds == []
    ensures t.destructive <==> t != WelcomeToast
  {
    if |interests| == 0 then SelectInterestsToast
    else if |physicistIds| == 0 then SelectPhysicistsToast
    else WelcomeToast
  }

  /** What continuing leads to: a toast, and a page to go to on success. */
  datatype ContinueOutcome = ContinueOutcome(toast: Toast, navigateTo: Option<string>)

  class Onboarding {
    var interests: seq<string>
    var selectedPhysicistIds: seq<string>

    constructor ()
      ensures interests == [] && selectedPhysicistIds == []
      ensures ContinueToast(interests, selectedPhysicistIds) == SelectInterestsToast
    {
      interests := [];
      selectedPhysicistIds := [];
    }

    /** A click on an interest badge. */
    method ToggleInterest(interest: string)
      modifies this`interests
      ensures interests == Selection.Toggle(old(interests), interest)
    {
      interests := Selection.Toggle(interests, interest);
    }

    /** A click on a physicist card. */
    method ClickPhysicist(id: string)
      modifies this`selectedPhysicistIds
      ensures selectedPhysicistIds == PhysicistSelector.Click(old(selectedPhysicistIds), id)
    {
      selectedPhysicistIds := PhysicistSelector.Click(selectedPhysicistIds, id);
    }

    /**
     * `handleContinue`: the context receives exactly the two local lists,
     * and only when neither is empty; the user's notes are never touched.
     */
    method HandleContinue(user: UserProvider) returns (outcome: ContinueOutcome)
      modifies user`selectedInterests, user`selectedPhysicists
      ensures outcome.toast == ContinueToast(interests, selectedPhysicistIds)
      ensures outcome.navigateTo.Some? <==> outcome.toast == WelcomeToast
      ensures outcome.navigateTo.Some? ==> outcome.navigateTo.value == ReplicasPath
      ensures outcome.toast == WelcomeToast ==>
        user.selectedInterests == interests && user.selectedPhysicists == selectedPhysicistIds
      ensures outcome.toast != WelcomeToast ==>
        user.selectedInterests == old(user.selectedInterests) && user.selectedPhysicists == old(user.selectedPhysicists)
    {
      if |interests| == 0 {
        return ContinueOutcome(SelectInterestsToast, None);
      }
      if |selectedPhysicistIds| == 0 {
        return ContinueOutcome(SelectPhysicistsToast, None);
      }
      user.SetSelectedInterests(interests);
      user.SetSelectedPhysicists(selectedPhysicistIds);
      outcome := ContinueOutcome(WelcomeToast, Some(ReplicasPath));
    }
  }
}
