/** The function-call dispatcher (JGP.DotNetGPT/FunctionHandlerFactory.cs): a dictionary from
    function name to handler, keyed by exact, case-sensitive names. */
module FunctionHandlers {
  import opened Wrappers
  import opened DotNet

  /** The message `Dictionary.Add` throws with on a key already present. */
  function DuplicateKeyMessage(name: string): string
  {
    "An item with the same key has already been added. Key: " + name
  }

  function NoHandlerMessage(name: string): string
  {
    "No handler found for function: " + name
  }

  /** `Dictionary.Add`: a new name gets its handler and every other entry stays; a name already
      present throws and the dictionary is left as it was. */
  function AddHandler<H>(handlers: map<string, H>, name: string, handler: H): (r: Result<map<string, H>, Exception>)
    ensures name in handlers <==> r.Failure?
    ensures r.Failure? ==> r.error == ArgumentException(DuplicateKeyMessage(name))
    ensures r.Success? ==> r.value.Keys == handlers.Keys + {name} && r.value[name] == handler
    ensures r.Success? ==> forall n :: n in handlers ==> r.value[n] == handlers[n]
  {
    if name in handlers then Failure(ArgumentException(DuplicateKeyMessage(name)))
    else Success(handlers[name := handler])
  }

  /** `TryGetValue` then invoke: the handler registered under exactly `name`, applied to
      `parameter`, or the missing-handler error. */
  function Dispatch<R>(handlers: map<string, string -> R>, name: string, parameter: string): (r: Result<R, Exception>)
    ensures name in handlers <==> r.Success?
    ensures r.Success? ==> r.value == handlers[name](parameter)
    ensures r.Failure? ==> r.error == InvalidOperationException(NoHandlerMessage(name))
  {
    if name in handlers then Success(handlers[name](parameter))
    else Failure(InvalidOperationException(NoHandlerMessage(name)))
  }

  /** The caller-supplied handlers: each takes the function's JSON arguments to a result. */
  class FunctionHandlerFactory<R> {
    var handlers: map<string, string -> R>

    constructor ()
      ensures handlers == map[]
    {
      handlers := map[];
    }

    /** `Create`: a factory with no handlers. */
    static method Create() returns (factory: FunctionHandlerFactory<R>)
      ensures fresh(factory) && factory.handlers == map[]
    {
      factory := new FunctionHandlerFactory();
    }

    /** `AddFunctionHandler`: registers the handler under the name, or throws if the name is taken. */
    method AddFunctionHandler(functionName: string, functionHandler: string -> R) returns (outcome: Outcome<Exception>)
      modifies this
      ensures AddHandler(old(handlers), functionName, functionHandler).Success? ==>
                outcome == Pass && handlers == AddHandler(old(handlers), functionName, functionHandler).value
      ensures AddHandler(old(handlers), functionName, functionHandler).Failure? ==>
                outcome == Fail(AddHandler(old(handlers), functionName, functionHandler).error) && handlers == old(handlers)
    {
      var added := AddHandler(handlers, functionName, functionHandler);
      if added.Failure? {
        return Fail(added.error);
      }
      handlers := added.value;
      outcome := Pass;
    }

    /** `ExecuteFunctionHandlerAsync`: the registered handler's result, or the missing-handler error. */
    method ExecuteFunctionHandler(functionName: string, parameter: string) returns (r: Result<R, Exception>)
      ensures r == Dispatch(handlers, functionName, parameter)
    {
      if functionName in handlers {
        var handler := handlers[functionName];
        return Success(handler(parameter));
      }
      return Failure(InvalidOperationException(NoHandlerMessage(functionName)));
    }
  }

  /** After a successful registration, dispatching that name runs the new handler and dispatching
      any other name does what it did before. */
  lemma DispatchAfterAdd<R>(handlers: map<string, string -> R>, name: string, handler: string -> R,
                            other: string, parameter: string)
    requires AddHandler(handlers, name, handler).Success?
    ensures Dispatch(AddHandler(handlers, name, handler).value, name, parameter) == Success(handler(parameter))
    ensures other != name ==>
              Dispatch(AddHandler(handlers, name, handler).value, other, parameter) == Dispatch(handlers, other, parameter)
  {
  }

  /** Registering a name twice fails the second time and keeps the first handler. */
  lemma SecondAddFails<R>(handlers: map<string, string -> R>, name: string, first: string -> R,
                          second: string -> R, parameter: string)
    requires AddHandler(handlers, name, first).Success?
    ensures AddHandler(AddHandler(handlers, name, first).value, name, second).Failure?
    ensures Dispatch(AddHandler(handlers, name, first).value, name, parameter) == Success(first(parameter))
  {
  }

  /** Lookup is exact: a handler registered under one spelling is not found under another, even
      one differing only in letter case. */
  lemma LookupIsExact<R>(name: string, handler: string -> R, other: string, parameter: string)
    requires other != name
    ensures Dispatch(map[name := handler], other, parameter).Failure?
  {
  }
}
