/** The request model shared by both namespaces (JGP.DotNetGPT/Core/Models/RequestModel.cs and
    JGP.DotNetGPT/Models/RequestModel.cs): the two classes hold the same code and differ only in
    the message and function classes they list, which are the type parameters here. */
module RequestModels {
  import opened Wrappers

  const DefaultRequestModel: string := "gpt-3.5-turbo-0613"
  const AutoFunctionCall: string := "auto"

  class RequestModel<M, F> {
    var model: Option<string>
    var messages: seq<M>
    /** Null until the first function is appended. */
    var functions: Option<seq<F>>
    var functionCall: Option<string>

    /** The property initialisers: the default model, no messages, no functions, no call mode. */
    constructor ()
      ensures model == Some(DefaultRequestModel)
      ensures messages == []
      ensures functions == None && functionCall == None
    {
      model := Some(DefaultRequestModel);
      messages := [];
      functions := None;
      functionCall := None;
    }

    /** `AppendFunction`: a null function changes nothing; otherwise the function goes at the end of
        the (possibly just created) list and the call mode is set. */
    method AppendFunction(fn: Option<F>, functionCallValue: string := AutoFunctionCall)
      modifies this
      ensures fn.None? ==> unchanged(this)
      ensures fn.Some? ==>
                && functions == Some(old(functions).GetOr([]) + [fn.value])
                && functionCall == Some(functionCallValue)
                && model == old(model) && messages == old(messages)
    {
      if fn.None? {
        return;
      }
      if functions.None? {
        functions := Some([]);
      }
      functions := Some(functions.value + [fn.value]);
      functionCall := Some(functionCallValue);
    }

    /** `AppendFunctions`: a null or empty list changes nothing; otherwise its functions go at the
        end, in order, and the call mode is set. */
    method AppendFunctions(fs: Option<seq<F>>, functionCallValue: string := AutoFunctionCall)
      modifies this
      ensures (fs.None? || fs.value == []) ==> unchanged(this)
      ensures fs.Some? && fs.value != [] ==>
                && functions == Some(old(functions).GetOr([]) + fs.value)
                && functionCall == Some(functionCallValue)
                && model == old(model) && messages == old(messages)
    {
      if fs.None? || |fs.value| == 0 {
        return;
      }
      if functions.None? {
        functions := Some([]);
      }
      functions := Some(functions.value + fs.value);
      functionCall := Some(functionCallValue);
    }
  }
}
