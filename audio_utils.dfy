/**
  Audio upload checks (middleware/utils/audioUtils.js): which uploads are
  accepted, and how an error is turned into a status and a message.
*/
module AudioUtils {
  import opened Json
  import opened Text

  const SupportedAudioFormats: seq<string> := ["audio/wav", "audio/mp3", "audio/mpeg", "audio/ogg", "audio/webm"]

  /** An uploaded file, reduced to its declared MIME type. */
  datatype AudioFile = AudioFile(mimetype: string)

  const NoAudioMessage := "No audio file provided"
  const UnsupportedPrefix := "Unsupported audio format"

  /** The message of the unsupported-format error, listing the formats. */
  function UnsupportedMessage(): string
  {
    UnsupportedPrefix + ". Supported formats: " + Join(SupportedAudioFormats, ", ")
  }

  /** `validateAudio(file)`: a missing file first, then an unsupported type. */
  function ValidateAudio(file: Option<AudioFile>): (r: Outcome)
    ensures r == Pass <==> file.Some? && file.value.mimetype in SupportedAudioFormats
    ensures file.None? ==> r == Fail(NoAudioMessage)
    ensures file.Some? && file.value.mimetype !in SupportedAudioFormats ==> r == Fail(UnsupportedMessage())
  {
    if file.None? then Fail(NoAudioMessage)
    else if file.value.mimetype !in SupportedAudioFormats then Fail(UnsupportedMessage())
    else Pass
  }

  /** `handleAudioError(error)`: a message naming a missing file or an
      unsupported format is the client's fault (400, message kept); anything
      else is a 500 with a generic message. */
  function HandleAudioError(message: string): (r: StatusMessage)
    ensures r.status == 400 <==> Contains(message, NoAudioMessage) || Contains(message, UnsupportedPrefix)
    ensures r.status == 400 ==> r.message == message
    ensures r.status != 400 ==> r == StatusMessage(500, "Error processing audio file")
  {
    if Contains(message, NoAudioMessage) || Contains(message, UnsupportedPrefix) then
      StatusMessage(400, message)
    else
      StatusMessage(500, "Error processing audio file")
  }

  /** Every error validateAudio raises is answered 400 with its own message. */
  lemma ValidationErrorsAreClientErrors(file: Option<AudioFile>)
    requires ValidateAudio(file).Fail?
    ensures HandleAudioError(ValidateAudio(file).message) == StatusMessage(400, ValidateAudio(file).message)
  {
    if file.None? {
      ContainsPrefix(NoAudioMessage, "");
      assert NoAudioMessage + "" == NoAudioMessage;
    } else {
      ContainsPrefix(UnsupportedPrefix, ". Supported formats: " + Join(SupportedAudioFormats, ", "));
      assert UnsupportedPrefix + (". Supported formats: " + Join(SupportedAudioFormats, ", ")) == UnsupportedMessage();
    }
  }
}
