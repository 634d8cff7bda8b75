/** The chat completion response (JGP.DotNetGPT/Models/ResponseModel.cs). Every member there is a
    read-only property or an expression-bodied predicate, so the response is a value. */
module Responses {
  import opened Wrappers

  /** A function invocation requested by the model: its name and its JSON-encoded arguments. */
  datatype FunctionCall = FunctionCall(name: Option<string>, arguments: Option<string>)

  /** A reply message: the role, content and name of a plain message plus its own `FunctionCall`. */
  datatype ResponseMessage = ResponseMessage(
    role: Option<string>,
    content: Option<string>,
    name: Option<string>,
    functionCall: Option<FunctionCall>)
  {
    /** The reply asks for a function to be invoked exactly when it carries a function call. */
    predicate HasFunctionCall()
    {
      functionCall.Some?
    }
  }

  datatype Choice = Choice(index: Option<int>, message: Option<ResponseMessage>, finishReason: Option<string>)

  datatype Usage = Usage(promptTokens: Option<int>, completionTokens: Option<int>, totalTokens: Option<int>)

  datatype Error = Error(message: Option<string>, errorType: Option<string>)

  datatype ResponseModel = ResponseModel(
    id: Option<string>,
    objectKind: Option<string>,
    created: Option<int>,
    model: Option<string>,
    choices: Option<seq<Choice>>,
    usage: Option<Usage>,
    error: Option<Error>)
  {
    /** Reading the first choice's message dereferences it, so a first choice without a message
        makes `IsFunctionCall` throw; callers must not ask then. */
    predicate FirstMessagePresent()
    {
      choices.Some? && |choices.value| >= 1 ==> choices.value[0].message.Some?
    }

    /** The response is a function call when it has a first choice whose message has a function
        call; choices after the first are never looked at. */
    predicate IsFunctionCall()
      requires FirstMessagePresent()
    {
      choices.Some? && |choices.value| >= 1 && choices.value[0].message.value.HasFunctionCall()
    }

    /** The response succeeded exactly when it carries no error object. */
    predicate IsSuccess()
    {
      error.None?
    }
  }

  /** With no choices (null or empty) the response is never a function call. */
  lemma NoChoicesIsNoFunctionCall(r: ResponseModel)
    requires r.choices.None? || r.choices.value == []
    ensures !r.IsFunctionCall()
  {
  }

  /** With at least one choice, being a function call is decided by the first choice alone:
      changing or adding later choices does not change the answer. */
  lemma FunctionCallIsDecidedByFirstChoice(r: ResponseModel, first: Choice, rest: seq<Choice>)
    requires first.message.Some?
    ensures r.(choices := Some([first] + rest)).IsFunctionCall() <==> first.message.value.HasFunctionCall()
  {
  }

  /** A response succeeds when its error is absent and fails when any error is present,
      whatever its choices say. */
  lemma SuccessIsAbsenceOfError(r: ResponseModel, e: Error)
    ensures r.(error := None).IsSuccess()
    ensures !r.(error := Some(e)).IsSuccess()
  {
  }

  /** A reply message asks for a function exactly when its own function call is set. */
  lemma FunctionCallFlagFollowsField(m: ResponseMessage, fc: FunctionCall)
    ensures m.(functionCall := Some(fc)).HasFunctionCall()
    ensures !m.(functionCall := None).HasFunctionCall()
  {
  }
}
