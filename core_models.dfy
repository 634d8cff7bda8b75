/** The request side of the Core namespace (JGP.DotNetGPT/Core/Models/RequestModel.cs): the chat
    message, whose fields are updated in place and whose `Equals` drives the context window's
    de-duplication, and the function declarations a request offers. */
module CoreModels {
  import opened Wrappers
  import Responses
  import RequestModels

  /** The Core namespace's `FunctionCall` class is not part of this model; it is taken to carry the
      same two fields as the one in JGP.DotNetGPT/Models/ResponseModel.cs. */
  type FunctionCall = Responses.FunctionCall

  /** `FunctionCall.Equals(object?)`, whatever that class defines it to be. */
  type FunctionCallEquality = (FunctionCall, Option<FunctionCall>) -> bool

  /** `GetType()` of a message built with `new Message { ... }`. */
  const MessageTypeName: string := "JGP.DotNetGPT.Core.Models.Message"

  const SystemRole: string := "system"
  const UserRole: string := "user"
  const FunctionRole: string := "function"

  /** The JSON-visible fields of a message at one moment. */
  datatype MessageData = MessageData(
    role: Option<string>,
    content: Option<string>,
    name: Option<string>,
    functionCall: Option<FunctionCall>)

  /** The field-by-field part of `Message.Equals`: equal role, content and name, and a non-null
      function call of the receiver that equals the other's. */
  predicate FieldsEqual(mine: MessageData, theirs: MessageData, fcEquals: FunctionCallEquality)
  {
    && mine.role == theirs.role
    && mine.content == theirs.content
    && mine.name == theirs.name
    && mine.functionCall.Some?
    && fcEquals(mine.functionCall.value, theirs.functionCall)
  }

  /** `self.Equals(other)` for a non-null `other`, with the two messages holding the fields
      `mine` and `theirs`: the same reference, or the same runtime type and equal fields. */
  predicate SnapshotEquals(self: Message, mine: MessageData, other: Message, theirs: MessageData,
                           fcEquals: FunctionCallEquality)
  {
    self == other || (self.runtimeType == other.runtimeType && FieldsEqual(mine, theirs, fcEquals))
  }

  class Message {
    /** The runtime type that `GetType()` reports: a message or an instance of a derived class. */
    const runtimeType: string
    var role: Option<string>
    var content: Option<string>
    var name: Option<string>
    var functionCall: Option<FunctionCall>

    /** `new Message { Role = ..., Content = ..., Name = ..., FunctionCall = ... }`. */
    constructor (role: Option<string>, content: Option<string>, name: Option<string>,
                 functionCall: Option<FunctionCall>)
      ensures runtimeType == MessageTypeName
      ensures Data() == MessageData(role, content, name, functionCall)
    {
      this.runtimeType := MessageTypeName;
      this.role := role;
      this.content := content;
      this.name := name;
      this.functionCall := functionCall;
    }

    function Data(): MessageData
      reads this
    {
      MessageData(role, content, name, functionCall)
    }

    predicate HasFunctionCall()
      reads this
    {
      functionCall.Some?
    }

    /** `Equals(object? obj)`: never equal to null, always equal to itself, never equal to an
        object of another runtime type, and otherwise equal only on equal role, content and name
        with a non-null function call equal to the other's. */
    predicate Equals(obj: Message?, fcEquals: FunctionCallEquality)
      reads this, obj
      ensures obj == null ==> !Equals(obj, fcEquals)
      ensures obj == this ==> Equals(obj, fcEquals)
      ensures obj != null && obj != this && obj.runtimeType != runtimeType ==> !Equals(obj, fcEquals)
      ensures obj != null && obj != this && functionCall.None? ==> !Equals(obj, fcEquals)
      ensures obj != null && obj != this && Equals(obj, fcEquals) ==>
                role == obj.role && content == obj.content && name == obj.name
                && functionCall.Some? && fcEquals(functionCall.value, obj.functionCall)
      ensures (obj != null && obj.runtimeType == runtimeType
               && role == obj.role && content == obj.content && name == obj.name
               && functionCall.Some? && fcEquals(functionCall.value, obj.functionCall)) ==> Equals(obj, fcEquals)
    {
      obj != null && SnapshotEquals(this, Data(), obj, obj.Data(), fcEquals)
    }
  }

  /** `HasFunctionCall` is set exactly when the message carries a function call, whatever else it holds. */
  lemma HasFunctionCallFollowsField(m: Message)
    ensures m.functionCall.Some? ==> m.HasFunctionCall()
    ensures m.functionCall.None? ==> !m.HasFunctionCall()
  {
  }

  /** Two different messages without function calls are never equal, even with identical fields:
      for plain chat turns, equality is reference identity. */
  lemma PlainMessagesEqualOnlyThemselves(a: Message, b: Message, fcEquals: FunctionCallEquality)
    requires a.functionCall.None?
    ensures a.Equals(b, fcEquals) <==> a == b
  {
  }

  datatype Property = Property(
    propertyType: Option<string>,
    description: Option<string>,
    properties: map<string, Property>,
    enumValues: seq<string>)

  datatype Parameter = Parameter(
    parameterType: Option<string>,
    properties: map<string, Property>,
    required: seq<string>)

  /** A function declaration offered to the model. */
  datatype Function = Function(name: Option<string>, description: Option<string>, parameters: Option<Parameter>)

  /** The Core namespace's request: its messages are the chat messages above. */
  type Request = RequestModels.RequestModel<Message, Function>
}
