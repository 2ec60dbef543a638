/**
 The static character data of the result screen: the personality description
 picked for a classifier label, the name shown for a label, and the text
 offered to the share sheet.
 */
module CharacterTable {
  import opened Wrappers

  /** The nine labels the description switch names explicitly. */
  const KnownCharacters: set<string> := {
    "Cho Chang", "Dobby", "Draco Malfoy", "Harry Potter", "Hermione Granger",
    "Minerva McGonagall", "Ronald Wesley", "Rubeo Hagrid", "Severus Snape"
  }

  /** The "Harry Potter" description, which is also the one given to every unlisted label. */
  const HarryPotterText: string :=
    "You are extremely brave, loyal and a selfless person! You would go to great lengths in order to help others, always following your sense of rightness."

  /** The descriptions of the other eight listed characters. */
  const ChoChangText: string :=
    "You are polite, sweet and well-mannered! You are also easy to get along and very intelligent, having a certain position on Ravenclaw."
  const DobbyText: string :=
    "You are a free elf! You are brave, loyal and willing to put yourself in danger for your friends! "
  const DracoMalfoyText: string :=
    "You may be a little bit narcissist, but you are very intelligent and quick-witted! Slytherin surely wouldn’t be the same without you!"
  const HermioneGrangerText: string :=
    "You are extremely intelectual, curious and hard-working! You continuously  stand out in every task you have to do!"
  const MinervaMcGonagallText: string :=
    "You are magnanimous and stern, being very respected and admired by the others around you!"
  const RonaldWesleyText: string :=
    "You have a unique and strong sense of humor! You are also very empathic with the others around you, always looking forward to helping!"
  const RubeoHagridText: string :=
    "You are warm, kind-hearted and brave! You always stand up for your friends when needed!"
  const SeverusSnapeText: string :=
    "You are a reserved, calm and analytical person. You are also sarcastic and very strong, sometimes being seem as arrogant. "

  /** The nine texts differ in length, except Cho's and Draco's, which differ in their last character. */
  lemma TextsDiffer()
    ensures |HarryPotterText| == 150 && |ChoChangText| == 133 && |DobbyText| == 97
    ensures |DracoMalfoyText| == 133 && |HermioneGrangerText| == 114 && |MinervaMcGonagallText| == 89
    ensures |RonaldWesleyText| == 134 && |RubeoHagridText| == 87 && |SeverusSnapeText| == 122
    ensures ChoChangText[132] == '.' && DracoMalfoyText[132] == '!'
  {
  }

  /** The classifier's label for Ron, spelled as the classifier spells it. */
  const RonLabel: string := "Ronald Wesley"
  /** The name shown on screen for `RonLabel`. */
  const RonDisplayName: string := "Ronald Weasley"

  /**
   The description switch (`setCharDescription`): total over all strings,
   with the "Harry Potter" text as its default branch.
   */
  function Description(name: string): (text: string)
    ensures name !in KnownCharacters ==> text == HarryPotterText
    ensures text == HarryPotterText <==> name == "Harry Potter" || name !in KnownCharacters
  {
    TextsDiffer();
    match name
    case "Cho Chang" => ChoChangText
    case "Dobby" => DobbyText
    case "Draco Malfoy" => DracoMalfoyText
    case "Harry Potter" => HarryPotterText
    case "Hermione Granger" => HermioneGrangerText
    case "Minerva McGonagall" => MinervaMcGonagallText
    case "Ronald Wesley" => RonaldWesleyText
    case "Rubeo Hagrid" => RubeoHagridText
    case "Severus Snape" => SeverusSnapeText
    case _ => HarryPotterText
  }

  /** Every listed character gets a description of its own. */
  lemma DescriptionsDistinct(a: string, b: string)
    requires a in KnownCharacters && b in KnownCharacters && a != b
    ensures Description(a) != Description(b)
  {
    TextsDiffer();
  }

  /** Every unlisted label, whatever it is, reads the same as "Harry Potter". */
  lemma DefaultIsHarryPotter(name: string)
    requires name !in KnownCharacters
    ensures Description(name) == Description("Harry Potter")
  {
  }

  /** The name shown for a label: the label itself, except that "Ronald Wesley" is shown as "Ronald Weasley". */
  function DisplayName(raw: string): (shown: string)
    ensures shown != raw <==> raw == RonLabel
    ensures raw == RonLabel ==> shown == RonDisplayName
  {
    if raw == RonLabel then RonDisplayName else raw
  }

  /**
   The description is looked up with the raw label: looking it up with the
   shown name would give Ron the default text instead of his own.
   */
  lemma DescriptionUsesRawLabel()
    ensures Description(RonLabel) != HarryPotterText
    ensures Description(DisplayName(RonLabel)) == HarryPotterText
  {
    assert RonDisplayName !in KnownCharacters;
  }

  const SharePrefix: string := "I got "
  const ShareSuffix: string := "! Check who you look like here!"

  /** The text handed to the share sheet (`share`), embedding the shown character name. */
  function ShareMessage(name: string): (message: string)
    ensures |message| == |SharePrefix| + |name| + |ShareSuffix|
    ensures message[..|SharePrefix|] == SharePrefix
    ensures message[|SharePrefix|..|SharePrefix| + |name|] == name
    ensures message[|SharePrefix| + |name|..] == ShareSuffix
  {
    SharePrefix + name + ShareSuffix
  }

  /** Reads the character name back out of a share text, if the text has the template's shape. */
  function SharedName(message: string): (name: Option<string>)
    ensures name.Some? ==> |message| == |SharePrefix| + |name.value| + |ShareSuffix|
  {
    if |message| >= |SharePrefix| + |ShareSuffix|
       && message[..|SharePrefix|] == SharePrefix
       && message[|message| - |ShareSuffix|..] == ShareSuffix
    then Some(message[|SharePrefix|..|message| - |ShareSuffix|])
    else None
  }

  /** The share text determines the name it was built from. */
  lemma ShareMessageRoundTrip(name: string)
    ensures SharedName(ShareMessage(name)) == Some(name)
  {
    var m := ShareMessage(name);
    assert m[|m| - |ShareSuffix|..] == ShareSuffix;
  }

  /** Different shown names give different share texts. */
  lemma ShareMessageInjective(a: string, b: string)
    requires ShareMessage(a) == ShareMessage(b)
    ensures a == b
  {
    ShareMessageRoundTrip(a);
    ShareMessageRoundTrip(b);
  }
}
