/** The script parser service (internal/service/parser_service.go): the
    metadata the service fills in after the language model has parsed the
    text, and the error wrapping around the call and the saved files. The
    model call and the files are inputs. */
module ParserService {
  import opened Wrappers
  import opened Model

  /** Fills in the counts the model left at zero: the word count becomes
      the number of characters (runes) of the text, the scene count the
      number of scenes. A count the model did give is kept. */
  function FillMetadata(parsed: ParsedScript, text: string): (r: ParsedScript)
    ensures r.scenes == parsed.scenes && r.characters == parsed.characters
    ensures r.metadata.totalShots == parsed.metadata.totalShots
    ensures r.metadata.estimatedDuration == parsed.metadata.estimatedDuration
    ensures parsed.metadata.wordCount != 0 ==> r.metadata.wordCount == parsed.metadata.wordCount
    ensures parsed.metadata.wordCount == 0 ==> r.metadata.wordCount == |text|
    ensures parsed.metadata.totalScenes != 0 ==> r.metadata.totalScenes == parsed.metadata.totalScenes
    ensures parsed.metadata.totalScenes == 0 ==> r.metadata.totalScenes == |parsed.scenes|
  {
    var m := parsed.metadata;
    var words := if m.wordCount == 0 then |text| else m.wordCount;
    var scenes := if m.totalScenes == 0 then |parsed.scenes| else m.totalScenes;
    parsed.(metadata := m.(wordCount := words, totalScenes := scenes))
  }

  /** Filling twice is filling once. */
  lemma FillMetadataIdempotent(parsed: ParsedScript, text: string)
    ensures FillMetadata(FillMetadata(parsed, text), text) == FillMetadata(parsed, text)
  {
  }

  /** After filling, a zero count means there really is nothing to count. */
  lemma FilledZeroMeansEmpty(parsed: ParsedScript, text: string)
    ensures var r := FillMetadata(parsed, text);
            && (r.metadata.wordCount == 0 ==> text == [])
            && (r.metadata.totalScenes == 0 ==> parsed.scenes == [])
  {
  }

  /** `Parse`: the parsed script with its metadata filled in, or the first
      error wrapped with the step that failed. Failing to save the original
      text is only a warning. */
  function Parse(reply: Outcome<ParsedScript>, text: string, dirErr: Option<string>, saveErr: Option<string>)
    : (r: Outcome<ParsedScript>)
    ensures reply.Err? ==> r == Err("failed to parse script: " + reply.error)
    ensures reply.Ok? && dirErr.Some? ==> r == Err("failed to create project directory: " + dirErr.value)
    ensures reply.Ok? && dirErr.None? && saveErr.Some? ==> r == Err("failed to save parsed script: " + saveErr.value)
    ensures r.Ok? <==> reply.Ok? && dirErr.None? && saveErr.None?
    ensures r.Ok? ==> r.value == FillMetadata(reply.value, text)
  {
    match reply
    case Err(e) => Err("failed to parse script: " + e)
    case Ok(parsed) =>
      var filled := FillMetadata(parsed, text);
      if dirErr.Some? then Err("failed to create project directory: " + dirErr.value)
      else if saveErr.Some? then Err("failed to save parsed script: " + saveErr.value)
      else Ok(filled)
  }
}
