/**
 * Classification of an incoming chat text into a bot command (main.py, handle_updates).
 * The prefixes are tested in the order /start, /ask, /image; the argument is then cut
 * at a fixed offset that is one character past the tested prefix.
 */
module Commands {
  import opened Text

  const StartCommand := "/start"
  const AskCommand := "/ask"
  const ImageCommand := "/image"

  /** `len("/ask ")`: where the question starts. */
  const AskArgumentStart: nat := |"/ask "|
  /** `len("/image ")`: where the prompt starts. */
  const ImageArgumentStart: nat := |"/image "|

  datatype Command = Start | Ask(question: string) | Image(prompt: string) | Help

  /** The command a message text selects, with its argument. */
  function Classify(text: string): (c: Command)
    ensures c == Start <==> StartsWith(text, StartCommand)
    ensures c.Ask? <==> !StartsWith(text, StartCommand) && StartsWith(text, AskCommand)
    ensures c.Image? <==>
      !StartsWith(text, StartCommand) && !StartsWith(text, AskCommand) && StartsWith(text, ImageCommand)
    ensures c.Ask? ==> c.question == SliceFrom(text, AskArgumentStart)
    ensures c.Image? ==> c.prompt == SliceFrom(text, ImageArgumentStart)
  {
    if StartsWith(text, StartCommand) then Start
    else if StartsWith(text, AskCommand) then Ask(SliceFrom(text, AskArgumentStart))
    else if StartsWith(text, ImageCommand) then Image(SliceFrom(text, ImageArgumentStart))
    else Help
  }

  /** No text starts with two of the three command prefixes, so the order of the tests never decides. */
  lemma PrefixesExclusive(text: string)
    ensures !(StartsWith(text, StartCommand) && StartsWith(text, AskCommand))
    ensures !(StartsWith(text, StartCommand) && StartsWith(text, ImageCommand))
    ensures !(StartsWith(text, AskCommand) && StartsWith(text, ImageCommand))
  {
    if StartsWith(text, StartCommand) {
      assert text[1] == StartCommand[1];
    } else if StartsWith(text, AskCommand) {
      assert text[1] == AskCommand[1];
    }
  }

  /** Whatever follows "/start" (even "/ask ..."), the text is a Start command. */
  lemma StartWins(rest: string)
    ensures Classify(StartCommand + rest) == Start
  {
    assert (StartCommand + rest)[..|StartCommand|] == StartCommand;
  }

  /** The documented form "/ask <question>" yields exactly the question. */
  lemma AskRoundTrip(question: string)
    ensures Classify("/ask " + question) == Ask(question)
  {
    var text := "/ask " + question;
    assert text[..|AskCommand|] == AskCommand;
    assert text[1] == 'a';
    assert text[AskArgumentStart..] == question;
  }

  /** The documented form "/image <prompt>" yields exactly the prompt. */
  lemma ImageRoundTrip(prompt: string)
    ensures Classify("/image " + prompt) == Image(prompt)
  {
    var text := "/image " + prompt;
    assert text[..|ImageCommand|] == ImageCommand;
    assert text[1] == 'i';
    assert text[ImageArgumentStart..] == prompt;
  }

  /**
   * The prefix test does not require the space, but the cut skips one character anyway:
   * the character right after "/ask" or "/image" is lost, whatever it is ("/askhello" asks "ello").
   */
  lemma ArgumentDropsNextChar(ch: char, rest: string)
    ensures Classify(AskCommand + [ch] + rest) == Ask(rest)
    ensures Classify(ImageCommand + [ch] + rest) == Image(rest)
  {
    var ask := AskCommand + [ch] + rest;
    assert ask[..|AskCommand|] == AskCommand;
    assert ask[1] == 'a';
    assert ask[AskArgumentStart..] == rest;
    var image := ImageCommand + [ch] + rest;
    assert image[..|ImageCommand|] == ImageCommand;
    assert image[1] == 'i';
    assert image[ImageArgumentStart..] == rest;
  }

  /** A bare command, or one too short to reach the cut, has an empty argument. */
  lemma ShortArgumentIsEmpty(text: string)
    ensures Classify(text).Ask? && |text| <= AskArgumentStart ==> Classify(text).question == ""
    ensures Classify(text).Image? && |text| <= ImageArgumentStart ==> Classify(text).prompt == ""
    ensures Classify(AskCommand) == Ask("") && Classify(ImageCommand) == Image("")
  {
    assert AskCommand[..|AskCommand|] == AskCommand;
    assert ImageCommand[..|ImageCommand|] == ImageCommand;
  }
}
