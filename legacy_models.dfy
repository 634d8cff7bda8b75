/** The older request types of the JGP.DotNetGPT.Models namespace
    (JGP.DotNetGPT/Models/RequestModel.cs): a message without a function call or `Equals`, and the
    same request model as the Core namespace's. */
module LegacyModels {
  import opened Wrappers
  import CoreModels
  import RequestModels

  /** A message of this namespace: nothing reads it but the serializer, so it is a value. */
  datatype Message = Message(role: Option<string>, content: Option<string>, name: Option<string>)

  /** This namespace's `Function` class has the same fields as the Core namespace's. */
  type Function = CoreModels.Function

  type Request = RequestModels.RequestModel<Message, Function>
}
