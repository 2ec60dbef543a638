/**
 The result screen (`ResultViewController`): the state it keeps between user
 actions, the pure transitions that specify each action, and the controller
 class whose methods update that state in place.
 */
module ResultScreen {
  import opened Wrappers
  import opened Predictions
  import opened CharacterTable

  /**
   Images as opaque tokens: a photo the user supplied, the bundled portrait of
   a character, or the sorting-hat placeholder. Two tokens are the same image
   exactly when they are equal.
   */
  datatype Image = Photo(id: nat) | Portrait(character: string) | SelectorHat

  /**
   `UIImage(named:)` for a character label: the portrait of that name when the
   app bundle holds an asset called so (`assets`), and nothing otherwise.
   */
  function CharacterImage(name: string, assets: set<string>): (image: Option<Image>)
    ensures image.Some? <==> name in assets
    ensures image.Some? ==> image.value.Portrait? && image.value.character == name
  {
    if name in assets then Some(Portrait(name)) else None
  }

  /** What the screen holds: the two images, the two label texts and the image on display. */
  datatype Screen = Screen(
    userImage: Option<Image>,
    characterImage: Option<Image>,
    characterNameText: string,
    descriptionText: string,
    displayedImage: Option<Image>)

  /**
   `detectHPCharacter` on the character classifier's answer `ps`: with no
   prediction at or above the floor nothing changes; otherwise the first one
   that reaches it sets the portrait, the description (looked up with the raw
   label), the shown name, and, once the reveal animation has run, the image
   on display. The user's photo is never touched.
   */
  function AfterDetection(s: Screen, ps: seq<Prediction>, assets: set<string>): (t: Screen)
    ensures t.userImage == s.userImage
    ensures (forall i :: 0 <= i < |ps| ==> !Passes(ps[i])) ==> t == s
    ensures forall i :: FirstSurvivorAt(ps, i) ==>
              && t.characterImage == CharacterImage(ps[i].name, assets)
              && t.descriptionText == Description(ps[i].name)
              && t.characterNameText == DisplayName(ps[i].name)
              && t.displayedImage == t.characterImage
  {
    match SelectCharacter(ps)
    case None => s
    case Some(character) =>
      var portrait := CharacterImage(character.name, assets);
      s.(characterImage := portrait,
         descriptionText := Description(character.name),
         characterNameText := DisplayName(character.name),
         displayedImage := portrait)
  }

  /** `tryAgain`: both images are dropped and the placeholder hat is shown; the texts stay. */
  function AfterTryAgain(s: Screen): (t: Screen)
    ensures t.userImage.None? && t.characterImage.None?
    ensures t.displayedImage == Some(SelectorHat)
    ensures t.characterNameText == s.characterNameText && t.descriptionText == s.descriptionText
  {
    s.(userImage := None, characterImage := None, displayedImage := Some(SelectorHat))
  }

  /**
   `transformImage`, the tap on the picture: nothing happens unless both
   images are present; then the picture switches to the portrait when the
   user's photo is showing, and to the user's photo otherwise.
   */
  function AfterTransform(s: Screen): (t: Screen)
    ensures t.(displayedImage := s.displayedImage) == s
    ensures s.userImage.None? || s.characterImage.None? ==> t == s
    ensures s.userImage.Some? && s.characterImage.Some? ==>
              t.displayedImage == s.userImage || t.displayedImage == s.characterImage
    ensures s.userImage.Some? && s.characterImage.Some? && s.displayedImage == s.userImage ==>
              t.displayedImage == s.characterImage
    ensures s.userImage.Some? && s.characterImage.Some? && s.displayedImage != s.userImage ==>
              t.displayedImage == s.userImage
    ensures s.userImage.Some? && s.characterImage.Some? && s.userImage != s.characterImage ==>
              t.displayedImage != s.displayedImage
  {
    if s.userImage.None? || s.characterImage.None? then s
    else if s.displayedImage == s.userImage then s.(displayedImage := s.characterImage)
    else s.(displayedImage := s.userImage)
  }

  /** Where `viewDidAppear` goes. */
  datatype Route = NoPhoto | NoFaceAlert | CharacterDetection

  /**
   `viewDidAppear` routing: without a photo it stops; with one it runs the
   face-presence gate on the person classifier's answer for that photo and
   either detects the character or shows the "no wizard face" alert.
   */
  function RouteFor(user: Option<Image>, personModel: Image -> seq<Prediction>): (route: Route)
    ensures route == NoPhoto <==> user.None?
    ensures route == CharacterDetection <==> user.Some? && PersonFound(personModel(user.value))
  {
    match user
    case None => NoPhoto
    case Some(photo) => if PersonFound(personModel(photo)) then CharacterDetection else NoFaceAlert
  }

  /** The screen after `viewDidAppear`: only the detection route changes it. */
  function AfterAppear(s: Screen, personModel: Image -> seq<Prediction>,
                       characterModel: Image -> seq<Prediction>, assets: set<string>): (t: Screen)
    ensures t != s ==> s.userImage.Some? && PersonFound(personModel(s.userImage.value))
    ensures t != s ==> exists i :: FirstSurvivorAt(characterModel(s.userImage.value), i)
    ensures s.userImage.Some? && PersonFound(personModel(s.userImage.value)) ==>
              t == AfterDetection(s, characterModel(s.userImage.value), assets)
    ensures !(s.userImage.Some? && PersonFound(personModel(s.userImage.value))) ==> t == s
  {
    if RouteFor(s.userImage, personModel) == CharacterDetection
    then AfterDetection(s, characterModel(s.userImage.value), assets)
    else s
  }

  /** Retrying twice is the same as retrying once. */
  lemma TryAgainIdempotent(s: Screen)
    ensures AfterTryAgain(AfterTryAgain(s)) == AfterTryAgain(s)
  {
  }

  /** After a retry the picture cannot be toggled: there is no image to toggle between. */
  lemma TransformAfterTryAgain(s: Screen)
    ensures AfterTransform(AfterTryAgain(s)) == AfterTryAgain(s)
  {
  }

  /**
   While the picture shows one of two distinct images, two taps bring it back:
   the tap is a toggle between the user's photo and the portrait.
   */
  lemma TransformTwice(s: Screen)
    requires s.userImage.Some? && s.characterImage.Some? && s.userImage != s.characterImage
    requires s.displayedImage == s.userImage || s.displayedImage == s.characterImage
    ensures AfterTransform(AfterTransform(s)) == s
  {
  }

  /** The result screen as a controller: the fields it updates in place. */
  class ResultViewController {
    var userImage: Option<Image>
    var characterImage: Option<Image>
    var characterNameText: string
    var descriptionText: string
    var displayedImage: Option<Image>
    /** The names of the portraits bundled with the app. */
    const assets: set<string>

    function State(): Screen
      reads this
    {
      Screen(userImage, characterImage, characterNameText, descriptionText, displayedImage)
    }

    /**
     The screen as `viewDidLoad` leaves it: the presenting screen has handed
     over the user's photo, the picture shows what the layout put there, and
     both labels are empty.
     */
    constructor (assets: set<string>, photo: Option<Image>, shown: Option<Image>)
      ensures State() == Screen(photo, None, "", "", shown)
      ensures this.assets == assets
    {
      this.assets := assets;
      userImage := photo;
      characterImage := None;
      characterNameText := "";
      descriptionText := "";
      displayedImage := shown;
    }

    /** `didSelect`: the image picker hands back a new photo (or none). */
    method DidSelect(image: Option<Image>)
      modifies this
      ensures State() == old(State()).(userImage := image)
    {
      userImage := image;
    }

    /** `setCharImage`. */
    method SetCharImage(character: string)
      modifies this
      ensures State() == old(State()).(characterImage := CharacterImage(character, assets))
    {
      characterImage := CharacterImage(character, assets);
    }

    /** `setCharDescription`. */
    method SetCharDescription(character: string)
      modifies this
      ensures State() == old(State()).(descriptionText := Description(character))
    {
      descriptionText := Description(character);
    }

    /**
     The end effect of `magicUserToCharAnimation`: the user's photo is shown
     first, and the portrait once the animation has run.
     */
    method MagicUserToCharAnimation()
      modifies this
      ensures State() == old(State()).(displayedImage := characterImage)
    {
      displayedImage := userImage;
      displayedImage := characterImage;
    }

    /** `detectHPCharacter`, given the character classifier's answer for the photo. */
    method DetectHPCharacter(ps: seq<Prediction>)
      modifies this
      ensures State() == AfterDetection(old(State()), ps, assets)
    {
      var predicts := Surviving(ps);
      if predicts == [] {
        return;
      }
      var character := predicts[0];
      SetCharImage(character.name);
      SetCharDescription(character.name);
      characterNameText := character.name;
      if character.name == RonLabel {
        characterNameText := RonDisplayName;
      }
      MagicUserToCharAnimation();
    }

    /** `viewDidAppear`, given the two classifiers as functions of the photo. */
    method ViewDidAppear(personModel: Image -> seq<Prediction>, characterModel: Image -> seq<Prediction>)
      returns (route: Route)
      modifies this
      ensures route == RouteFor(old(userImage), personModel)
      ensures State() == AfterAppear(old(State()), personModel, characterModel, assets)
    {
      if userImage.None? {
        return NoPhoto;
      }
      var photo := userImage.value;
      if PersonFound(personModel(photo)) {
        DetectHPCharacter(characterModel(photo));
        route := CharacterDetection;
      } else {
        route := NoFaceAlert;
      }
    }

    /** `transformImage`, the tap on the picture. */
    method TransformImage()
      modifies this
      ensures State() == AfterTransform(old(State()))
    {
      if userImage.None? || characterImage.None? {
        return;
      }
      if displayedImage == userImage {
        displayedImage := characterImage;
      } else {
        displayedImage := userImage;
      }
    }

    /** `tryAgain`: the camera is reopened (not modelled) and the screen is reset. */
    method TryAgain()
      modifies this
      ensures State() == AfterTryAgain(old(State()))
    {
      userImage := None;
      characterImage := None;
      displayedImage := Some(SelectorHat);
    }

    /** `share`: the text handed to the share sheet, built from the name on screen. */
    method Share() returns (message: string)
      ensures message == ShareMessage(characterNameText)
      ensures SharedName(message) == Some(characterNameText)
    {
      message := SharePrefix + characterNameText + ShareSuffix;
      ShareMessageRoundTrip(characterNameText);
    }
  }
}
