/** The transcription response (JGP.DotNetGPT/Models/WhisperResponseModel.cs). */
module WhisperResponses {
  import opened Wrappers
  import DotNet

  datatype WhisperError = WhisperError(message: Option<string>, errorType: Option<string>)

  datatype WhisperResponseModel = WhisperResponseModel(text: Option<string>, error: Option<WhisperError>)
  {
    /** A transcription succeeded when it has some text. */
    predicate IsSuccess()
    {
      !DotNet.IsNullOrEmpty(text)
    }
  }

  /** Success is exactly having a non-empty text: a null or empty text is a failure, any
      non-empty text a success, and the error object plays no part either way. */
  lemma SuccessIsNonEmptyText(r: WhisperResponseModel)
    ensures r.IsSuccess() <==> r.text.Some? && r.text.value != []
    ensures r.text == None ==> !r.IsSuccess()
    ensures r.text == Some([]) ==> !r.IsSuccess()
    ensures forall e :: r.(error := e).IsSuccess() == r.IsSuccess()
  {
  }
}
