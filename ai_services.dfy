/** The values the speech-to-text, translation and text-to-speech services exchange. */
module AiServices {
  import opened Shared

  /** One timed piece of a transcription: its index, start and end in seconds, and text. */
  datatype Segment = Segment(id: int, start: real, end: real, text: string)

  /** A transcription: the text, and the segments and detected language when the service gives them. */
  datatype TranscriptionResult = TranscriptionResult(text: string, segments: Option<seq<Segment>>, language: Option<string>)

  /** A translation, with the languages it was asked for. */
  datatype TranslationResult = TranslationResult(translatedText: string, sourceLang: Option<string>, targetLang: string)

  /** What a speech synthesis is asked for: a voice, and optionally a model and a speed. */
  datatype SynthesisOptions = SynthesisOptions(voice: string, model: Option<string>, speed: Option<real>)
}
