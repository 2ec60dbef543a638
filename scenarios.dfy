/** Concrete runs of the result screen on fixed classifier answers. */
module Scenarios {
  import opened Wrappers
  import opened Predictions
  import opened CharacterTable
  import opened ResultScreen

  /**
   A face is found and the character classifier ranks "Harry Potter" first:
   the screen shows Harry's portrait, name and description, and "Dobby", below
   it, plays no part.
   */
  lemma HarryPotterMatch(s: Screen, assets: set<string>)
    requires s.userImage.Some? && "Harry Potter" in assets
    ensures
      var personModel := (_: Image) => [Prediction("People", 0.9)];
      var characterModel := (_: Image) => [Prediction("Harry Potter", 0.8), Prediction("Dobby", 0.05)];
      && RouteFor(s.userImage, personModel) == CharacterDetection
      && AfterAppear(s, personModel, characterModel, assets)
         == s.(characterImage := Some(Portrait("Harry Potter")),
               descriptionText := HarryPotterText,
               characterNameText := "Harry Potter",
               displayedImage := Some(Portrait("Harry Potter")))
  {
    var characterModel := (_: Image) => [Prediction("Harry Potter", 0.8), Prediction("Dobby", 0.05)];
    assert FirstSurvivorAt(characterModel(s.userImage.value), 0);
  }

  /** An empty answer and an answer whose top label is not "People" both raise the alert. */
  lemma NoFaceFound(photo: Image)
    ensures RouteFor(Some(photo), (_: Image) => []) == NoFaceAlert
    ensures RouteFor(Some(photo), (_: Image) => [Prediction("Dog", 0.9)]) == NoFaceAlert
  {
    assert Surviving([Prediction("Dog", 0.9)]) == [Prediction("Dog", 0.9)];
  }

  /** A prediction ranked first but below the floor does not hide the "People" behind it. */
  lemma LowConfidenceSkipped(photo: Image)
    ensures RouteFor(Some(photo), (_: Image) => [Prediction("Dog", 0.005), Prediction("People", 0.5)]) == CharacterDetection
  {
    PersonFoundSkipsBelowFloor(Prediction("Dog", 0.005), [Prediction("People", 0.5)]);
  }

  /**
   The label "Ronald Wesley" is shown and shared as "Ronald Weasley" while the
   description is Ron's own.
   */
  lemma RonaldWeasleyShown(s: Screen, assets: set<string>)
    ensures
      var t := AfterDetection(s, [Prediction("Ronald Wesley", 0.7)], assets);
      && t.characterNameText == "Ronald Weasley"
      && t.descriptionText == RonaldWesleyText
      && ShareMessage(t.characterNameText) == "I got Ronald Weasley! Check who you look like here!"
  {
    assert FirstSurvivorAt([Prediction("Ronald Wesley", 0.7)], 0);
    RonShareText();
  }

  /** The share text for Ron spelled out. */
  lemma RonShareText()
    ensures ShareMessage(RonDisplayName) == "I got Ronald Weasley! Check who you look like here!"
  {
    assert "I got " + "Ronald Weasley" == "I got Ronald Weasley";
    assert "I got Ronald Weasley" + "! Check who you look like here!"
        == "I got Ronald Weasley! Check who you look like here!";
  }
}
