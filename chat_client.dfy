/** The chat client (JGP.DotNetGPT/Clients/ChatClient.cs): a registry of at most three functions
    offered to the model, and the order in which each submission appends prompt, system,
    re-submitted and reply messages to its `ChatContext`.

    The HTTP exchange is not modelled: each submission takes the response it would have
    received as a parameter, and returns it. */
module ChatClients {
  import opened Wrappers
  import opened DotNet
  import opened CoreModels
  import opened RequestModels
  import opened ChatContexts
  import opened RequestBuilders

  const DirectChatUrl: string := "https://api.openai.com/v1/chat/completions"
  const DefaultClientModel: string := GPT35Turbo16k
  /** `AppendFunction` does nothing once this many functions are registered. */
  const MaxFunctions: nat := 3

  // ---------------------------------------------------------------------------------------------
  // The function registry

  /** `x.Name.Equals(name, StringComparison.OrdinalIgnoreCase)` for a registered function with a
      name: the two names agree after case folding (`fold`); a null `name` matches nothing. */
  predicate Matches(f: Function, name: Option<string>, fold: string -> string)
  {
    f.name.Some? && name.Some? && fold(f.name.value) == fold(name.value)
  }

  /** Two registered names that `AppendFunction` would treat as the same: both null (the second
      could never have been added), or equal after case folding. */
  predicate SameName(a: Option<string>, b: Option<string>, fold: string -> string)
  {
    (a.None? && b.None?) || (a.Some? && b.Some? && fold(a.value) == fold(b.value))
  }

  /** What `AppendFunction` and `RemoveFunction` keep true of the registry: at most three entries,
      no two with the same name. */
  predicate RegistryValid(fs: seq<Function>, fold: string -> string)
  {
    |fs| <= MaxFunctions && forall i, j :: 0 <= i < j < |fs| ==> !SameName(fs[i].name, fs[j].name, fold)
  }

  /** `Functions.TrueForAll(x => !x.Name.Equals(name, OrdinalIgnoreCase))`: the entries are checked
      oldest first and the check stops at the first match; an entry without a name reached before
      any match throws. */
  function NoneMatch(fs: seq<Function>, name: Option<string>, fold: string -> string): (r: Result<bool, Exception>)
    ensures r == Success(true) <==> forall i :: 0 <= i < |fs| ==> fs[i].name.Some? && !Matches(fs[i], name, fold)
    ensures r == Success(false) <==>
              exists i :: 0 <= i < |fs| && Matches(fs[i], name, fold) && forall j :: 0 <= j < i ==> fs[j].name.Some?
    ensures r.Failure? ==> r.error == NullReferenceException
  {
    if fs == [] then Success(true)
    else if fs[0].name.None? then Failure(NullReferenceException)
    else if Matches(fs[0], name, fold) then Success(false)
    else
      NoneMatchStep(fs, name, fold);
      NoneMatch(fs[1..], name, fold)
  }

  /** Past a named, non-matching first entry, both outcomes of `NoneMatch` are decided by the rest. */
  lemma NoneMatchStep(fs: seq<Function>, name: Option<string>, fold: string -> string)
    requires fs != [] && fs[0].name.Some? && !Matches(fs[0], name, fold)
    ensures (forall i :: 0 <= i < |fs| ==> fs[i].name.Some? && !Matches(fs[i], name, fold)) <==>
            (forall i :: 0 <= i < |fs[1..]| ==> fs[1..][i].name.Some? && !Matches(fs[1..][i], name, fold))
    ensures (exists i :: 0 <= i < |fs| && Matches(fs[i], name, fold) && forall j :: 0 <= j < i ==> fs[j].name.Some?) <==>
            (exists i :: 0 <= i < |fs[1..]| && Matches(fs[1..][i], name, fold) && forall j :: 0 <= j < i ==> fs[1..][j].name.Some?)
  {
    var rest := fs[1..];
    assert forall i :: 1 <= i < |fs| ==> fs[i] == rest[i - 1];
    if exists i :: 0 <= i < |fs| && Matches(fs[i], name, fold) && forall j :: 0 <= j < i ==> fs[j].name.Some? {
      var i :| 0 <= i < |fs| && Matches(fs[i], name, fold) && forall j :: 0 <= j < i ==> fs[j].name.Some?;
      assert Matches(rest[i - 1], name, fold) && forall j :: 0 <= j < i - 1 ==> rest[j].name.Some?;
    }
    if exists i :: 0 <= i < |rest| && Matches(rest[i], name, fold) && forall j :: 0 <= j < i ==> rest[j].name.Some? {
      var i :| 0 <= i < |rest| && Matches(rest[i], name, fold) && forall j :: 0 <= j < i ==> rest[j].name.Some?;
      assert Matches(fs[i + 1], name, fold) && forall j :: 0 <= j < i + 1 ==> fs[j].name.Some?;
    }
  }

  /** The registry after `AppendFunction(f)` on `fs`, or the exception it throws. */
  function RegistryAfterAppend(fs: seq<Function>, f: Function, fold: string -> string): (r: Result<seq<Function>, Exception>)
  {
    if |fs| >= MaxFunctions then Success(fs)
    else
      match NoneMatch(fs, f.name, fold)
      case Failure(e) => Failure(e)
      case Success(unique) => Success(if unique then fs + [f] else fs)
  }

  /** `AppendFunction` adds `f` at the end exactly when fewer than three functions are registered,
      all of them named and none named like `f`; otherwise the registry is left as it was, and it
      throws exactly when a nameless entry is met before any entry named like `f`. */
  lemma AppendAddsOnlyNewNames(fs: seq<Function>, f: Function, fold: string -> string)
    ensures RegistryAfterAppend(fs, f, fold) == Success(fs + [f]) <==>
              |fs| < MaxFunctions && forall i :: 0 <= i < |fs| ==> fs[i].name.Some? && !Matches(fs[i], f.name, fold)
    ensures RegistryAfterAppend(fs, f, fold).Success? ==>
              RegistryAfterAppend(fs, f, fold).value in {fs, fs + [f]}
    ensures RegistryAfterAppend(fs, f, fold).Failure? <==>
              |fs| < MaxFunctions && NoneMatch(fs, f.name, fold).Failure?
  {
    if |fs| < MaxFunctions && NoneMatch(fs, f.name, fold) == Success(false) {
      assert |fs + [f]| != |fs|;
    }
  }

  /** Appending keeps the registry valid: never more than three entries, never two named alike. */
  lemma AppendKeepsRegistryValid(fs: seq<Function>, f: Function, fold: string -> string)
    requires RegistryValid(fs, fold)
    ensures RegistryAfterAppend(fs, f, fold).Success? ==> RegistryValid(RegistryAfterAppend(fs, f, fold).value, fold)
  {
    var r := RegistryAfterAppend(fs, f, fold);
    if r.Success? && r.value != fs {
      AppendAddsOnlyNewNames(fs, f, fold);
      var g := fs + [f];
      forall i, j | 0 <= i < j < |g|
        ensures !SameName(g[i].name, g[j].name, fold)
      {
        if j == |fs| {
          assert g[i] == fs[i] && g[j] == f;
        } else {
          assert g[i] == fs[i] && g[j] == fs[j];
        }
      }
    }
  }

  /** Appending a named function a second time changes nothing: its first copy (or a function
      named like it) is found, or the registry was already full. */
  lemma AppendNamedIsIdempotent(fs: seq<Function>, f: Function, fold: string -> string)
    requires f.name.Some?
    requires RegistryAfterAppend(fs, f, fold).Success?
    ensures RegistryAfterAppend(RegistryAfterAppend(fs, f, fold).value, f, fold) == RegistryAfterAppend(fs, f, fold)
  {
    var g := RegistryAfterAppend(fs, f, fold).value;
    AppendAddsOnlyNewNames(fs, f, fold);
    if g == fs + [f] && |g| < MaxFunctions {
      assert g[|fs|] == f && Matches(g[|fs|], f.name, fold);
      assert forall j :: 0 <= j < |fs| ==> g[j] == fs[j];
      assert NoneMatch(g, f.name, fold) == Success(false);
    }
  }

  /** A function without a name can be registered once, but appending it again then throws: the
      check reaches the nameless entry without meeting a match. */
  lemma NamelessAppendedTwiceThrows(fs: seq<Function>, f: Function, fold: string -> string)
    requires f.name.None? && |fs| + 1 < MaxFunctions
    requires forall i :: 0 <= i < |fs| ==> fs[i].name.Some?
    ensures RegistryAfterAppend(fs, f, fold) == Success(fs + [f])
    ensures RegistryAfterAppend(fs + [f], f, fold) == Failure(NullReferenceException)
  {
    var g := fs + [f];
    assert g[|fs|].name.None?;
    assert forall i :: 0 <= i < |fs| ==> g[i] == fs[i];
  }

  /** `RemoveAll(x => x.Name.Equals(name, OrdinalIgnoreCase))` on a registry whose entries all have
      names: the entries not named like `name`, in their order. */
  function Survivors(fs: seq<Function>, name: string, fold: string -> string): (r: seq<Function>)
    ensures |r| <= |fs|
    ensures forall x :: x in r ==> x in fs && !Matches(x, Some(name), fold)
    ensures forall x :: x in fs && !Matches(x, Some(name), fold) ==> x in r
  {
    if fs == [] then []
    else
      var rest := Survivors(fs[1..], name, fold);
      assert forall x :: x in fs ==> x == fs[0] || x in fs[1..];
      if Matches(fs[0], Some(name), fold) then rest else [fs[0]] + rest
  }

  /** Some registered function has no name: `RemoveAll` evaluates its predicate on every entry,
      so it throws on any such entry. */
  predicate HasNameless(fs: seq<Function>)
  {
    exists i :: 0 <= i < |fs| && fs[i].name.None?
  }

  /** The registry after `RemoveFunction(name)` on `fs`, or the exception it throws. */
  function RegistryAfterRemove(fs: seq<Function>, name: string, fold: string -> string): (r: Result<seq<Function>, Exception>)
  {
    if |fs| == 0 then Success(fs)
    else if HasNameless(fs) then Failure(NullReferenceException)
    else Success(Survivors(fs, name, fold))
  }

  /** Removing keeps the other functions in their order: `Survivors` distributes over a split of
      the registry. */
  lemma {:induction false} SurvivorsKeepOrder(a: seq<Function>, b: seq<Function>, name: string, fold: string -> string)
    ensures Survivors(a + b, name, fold) == Survivors(a, name, fold) + Survivors(b, name, fold)
  {
    if a != [] {
      assert (a + b)[0] == a[0] && (a + b)[1..] == a[1..] + b;
      SurvivorsKeepOrder(a[1..], b, name, fold);
      var left, right := Survivors(a[1..], name, fold), Survivors(b, name, fold);
      if !Matches(a[0], Some(name), fold) {
        assert [a[0]] + (left + right) == ([a[0]] + left) + right;
      }
    } else {
      assert a + b == b;
    }
  }

  /** Removing a name nobody has changes nothing, and removing twice is removing once. */
  lemma {:induction false} SurvivorsIdentityAndIdempotent(fs: seq<Function>, name: string, fold: string -> string)
    ensures (forall x :: x in fs ==> !Matches(x, Some(name), fold)) ==> Survivors(fs, name, fold) == fs
    ensures Survivors(Survivors(fs, name, fold), name, fold) == Survivors(fs, name, fold)
  {
    if fs != [] {
      SurvivorsIdentityAndIdempotent(fs[1..], name, fold);
      if (forall x :: x in fs ==> !Matches(x, Some(name), fold)) {
        assert forall x :: x in fs[1..] ==> x in fs;
      }
    }
  }

  /** Removing keeps the registry valid, since it only drops entries. */
  lemma {:induction false} SurvivorsKeepRegistryValid(fs: seq<Function>, name: string, fold: string -> string)
    requires RegistryValid(fs, fold)
    ensures RegistryValid(Survivors(fs, name, fold), fold)
  {
    if fs != [] {
      var tail := fs[1..];
      assert RegistryValid(tail, fold) by {
        forall i, j | 0 <= i < j < |tail|
          ensures !SameName(tail[i].name, tail[j].name, fold)
        {
          assert tail[i] == fs[i + 1] && tail[j] == fs[j + 1];
        }
      }
      SurvivorsKeepRegistryValid(tail, name, fold);
      var rest := Survivors(tail, name, fold);
      if !Matches(fs[0], Some(name), fold) {
        var r := [fs[0]] + rest;
        forall i, j | 0 <= i < j < |r|
          ensures !SameName(r[i].name, r[j].name, fold)
        {
          if i == 0 {
            assert r[j] in tail;
            var k :| 0 <= k < |tail| && tail[k] == r[j];
            assert fs[k + 1] == r[j];
          } else {
            assert r[i] == rest[i - 1] && r[j] == rest[j - 1];
          }
        }
      }
    }
  }

  /** `RemoveFunction` on a valid registry: afterwards nothing named like `name` is registered,
      everything else still is, and the registry is still valid; it throws exactly when some
      entry has no name. */
  lemma RemoveDropsExactlyTheName(fs: seq<Function>, name: string, fold: string -> string)
    requires RegistryValid(fs, fold)
    ensures RegistryAfterRemove(fs, name, fold).Failure? <==> HasNameless(fs)
    ensures RegistryAfterRemove(fs, name, fold).Success? ==>
              && (forall x :: x in RegistryAfterRemove(fs, name, fold).value <==> x in fs && !Matches(x, Some(name), fold))
              && RegistryValid(RegistryAfterRemove(fs, name, fold).value, fold)
  {
    SurvivorsKeepRegistryValid(fs, name, fold);
  }

  // ---------------------------------------------------------------------------------------------
  // Messages a submission appends

  /** The fields of the message `BuildRequest` makes for a prompt or a system message. */
  function TurnData(role: string, content: string): MessageData
  {
    MessageData(Some(role), Some(content), None, None)
  }

  /** The messages `BuildRequest(prompt, systemMessage)` appends, in order: the prompt as a user
      message, then the system message, each only when it is not null or white space. */
  function Turns(prompt: Option<string>, systemMessage: Option<string>): (turns: seq<MessageData>)
    ensures |turns| <= 2
    ensures forall t :: t in turns ==> t.content.Some? && !IsNullOrWhiteSpace(t.content)
  {
    (if IsNullOrWhiteSpace(prompt) then [] else [TurnData(UserRole, prompt.value)])
    + (if IsNullOrWhiteSpace(systemMessage) then [] else [TurnData(SystemRole, systemMessage.value)])
  }

  /** History slots for freshly appended messages holding the given fields. */
  function Appended(ms: seq<Message>, ds: seq<MessageData>): (es: seq<Entry>)
    requires |ms| == |ds|
    ensures |es| == |ms| && forall i :: 0 <= i < |ms| ==> es[i] == Entry(ms[i], ds[i])
  {
    seq(|ms|, i requires 0 <= i < |ms| => Entry(ms[i], ds[i]))
  }

  /** The Core namespace's response model is not part of this model; only its choices are read,
      and each choice carries a (possibly null) message. */
  datatype ChatChoice = ChatChoice(message: Message?)
  datatype ChatResponse = ChatResponse(choices: Option<seq<ChatChoice>>)

  /** The reply `SubmitAsync` appends: the first choice's message when the response has a choice
      (a null message is then ignored by `AppendMessage`). */
  function Reply(response: Option<ChatResponse>): (reply: seq<Message>)
    ensures |reply| <= 1
    ensures reply != [] <==> response.Some? && response.value.choices.Some? && |response.value.choices.value| >= 1
                             && response.value.choices.value[0].message != null
  {
    if response.Some? && response.value.choices.Some? && |response.value.choices.value| >= 1
       && response.value.choices.value[0].message != null
    then [response.value.choices.value[0].message]
    else []
  }

  /** `window` is what `GetSafeContext` returned for a history recorded in `es`: the taken suffix,
      or a message of its own when nothing was taken (whose fields at that moment `Resubmitted`
      records as the reset notice). */
  ghost predicate IsWindow(window: seq<Message>, es: seq<Entry>, p: Policy)
  {
    if Taken(es, p) == 0 then |window| == 1 && window[0].runtimeType == MessageTypeName
    else window == Msgs(Tail(es, Taken(es, p)))
  }

  /** What `SubmitAsync(BuildRequest(..))` leaves behind when the first scan met the history
      recorded in `es`: `window` is what that scan returned, `sent` the window the request goes
      out with (what a second scan takes once `window` has been appended again), `before` the
      history up to the reply, with its fields as that second scan settled them, and the window is
      sent unchanged whenever it was cut from the history and none of its messages had a zero
      token count. */
  ghost predicate Resubmission(es: seq<Entry>, p: Policy, window: seq<Message>, sent: seq<Message>,
                               before: seq<Message>)
    reads sent, before
  {
    && IsWindow(window, es, p)
    && IsSafeContext(sent, Resubmitted(es, p, window), p)
    && HistoryScanned(before, Resubmitted(es, p, window), p)
    && (Taken(es, p) > 0 && WindowCostsPositive(es, p) ==> sent == window)
  }

  /** `request` names `model`, and offers `functions` with the "auto" call mode exactly when there
      are any. */
  ghost predicate Offers(request: Request, model: string, functions: seq<Function>)
    reads request
  {
    && request.model == Some(model)
    && (functions != [] ==> request.functions == Some(functions) && request.functionCall == Some(AutoFunctionCall))
    && (functions == [] ==> request.functions == None && request.functionCall == None)
  }

  // ---------------------------------------------------------------------------------------------
  // The client

  class ChatClient {
    const apiKey: string
    const chatUrl: string
    const deploymentType: DeploymentType
    const model: string
    /** The case folding of `StringComparison.OrdinalIgnoreCase`. */
    const fold: string -> string
    const context: ChatContext
    /** The registered functions, oldest first. */
    var functions: seq<Function>

    /** The private constructor: a null or empty model falls back to the default, and the context's
        budget is that of the resulting model. */
    constructor (chatUrl: string, apiKey: string, model: Option<string>, deploymentType: DeploymentType,
                 tokens: MessageData -> nat, fcEquals: FunctionCallEquality, fold: string -> string)
      ensures this.model == if IsNullOrEmpty(model) then DefaultClientModel else model.value
      ensures fresh(context) && context.history == []
      ensures context.upperTokenLimit == GetContextLimit(this.model)
      ensures context.tokens == tokens && context.fcEquals == fcEquals
      ensures this.chatUrl == chatUrl && this.apiKey == apiKey && this.deploymentType == deploymentType
      ensures this.fold == fold && functions == []
    {
      this.apiKey := apiKey;
      this.chatUrl := chatUrl;
      this.deploymentType := deploymentType;
      this.model := if IsNullOrEmpty(model) then DefaultClientModel else model.value;
      this.fold := fold;
      this.context := new ChatContext(if IsNullOrEmpty(model) then DefaultClientModel else model.value, tokens, fcEquals);
      this.functions := [];
    }

    /** `CreateDirectDeployment`: the OpenAI endpoint with a bearer token. */
    static method CreateDirectDeployment(apiKey: string, model: Option<string>, tokens: MessageData -> nat,
                                         fcEquals: FunctionCallEquality, fold: string -> string)
      returns (client: ChatClient)
      ensures fresh(client) && fresh(client.context) && client.context.history == [] && client.functions == []
      ensures client.chatUrl == DirectChatUrl && client.deploymentType == Direct && client.apiKey == apiKey
      ensures client.model == if IsNullOrEmpty(model) then DefaultClientModel else model.value
      ensures client.context.upperTokenLimit == GetContextLimit(client.model)
      ensures client.context.tokens == tokens && client.context.fcEquals == fcEquals && client.fold == fold
    {
      client := new ChatClient(DirectChatUrl, apiKey, model, Direct, tokens, fcEquals, fold);
    }

    /** `CreateAzureDeployment`: the given Azure endpoint with an `api-key` header. */
    static method CreateAzureDeployment(chatUrl: string, apiKey: string, model: Option<string>,
                                        tokens: MessageData -> nat, fcEquals: FunctionCallEquality,
                                        fold: string -> string)
      returns (client: ChatClient)
      ensures fresh(client) && fresh(client.context) && client.context.history == [] && client.functions == []
      ensures client.chatUrl == chatUrl && client.deploymentType == Azure && client.apiKey == apiKey
      ensures client.model == if IsNullOrEmpty(model) then DefaultClientModel else model.value
      ensures client.context.upperTokenLimit == GetContextLimit(client.model)
      ensures client.context.tokens == tokens && client.context.fcEquals == fcEquals && client.fold == fold
    {
      client := new ChatClient(chatUrl, apiKey, model, Azure, tokens, fcEquals, fold);
    }

    /** `AppendSystemMessage`: exactly one new system message holding `message` joins the context. */
    method AppendSystemMessage(message: string)
      modifies context
      ensures |context.history| == |old(context.history)| + 1
      ensures context.history[..|old(context.history)|] == old(context.history)
      ensures var m := context.history[|old(context.history)|];
              fresh(m) && m.runtimeType == MessageTypeName && m.Data() == TurnData(SystemRole, message)
    {
      var m := AppendTurn(SystemRole, message, None);
      assert context.history[..|old(context.history)|] == old(context.history);
    }

    /** A new message with the given role and content joins the context; the messages already in
        it keep their fields. */
    method AppendTurn(role: string, content: string, name: Option<string>) returns (ghost m: Message)
      modifies context
      ensures fresh(m) && m.runtimeType == MessageTypeName
      ensures context.history == old(context.history) + [m]
      ensures Snapshot(context.history) == old(Snapshot(context.history)) + [Entry(m, TurnData(role, content).(name := name))]
    {
      var message := new Message(Some(role), Some(content), name, None);
      context.AppendMessage(message);
      m := message;
      forall i | 0 <= i < |old(context.history)|
        ensures Snapshot(context.history)[i] == old(Snapshot(context.history))[i]
      {
        assert context.history[i] == old(context.history)[i];
      }
    }

    /** `AppendFunction`: registers `fn` as `RegistryAfterAppend` says, or throws. */
    method AppendFunction(fn: Function) returns (outcome: Outcome<Exception>)
      modifies this
      ensures RegistryAfterAppend(old(functions), fn, fold).Success? ==>
                outcome == Pass && functions == RegistryAfterAppend(old(functions), fn, fold).value
      ensures RegistryAfterAppend(old(functions), fn, fold).Failure? ==>
                outcome == Fail(RegistryAfterAppend(old(functions), fn, fold).error) && functions == old(functions)
    {
      if |functions| >= MaxFunctions {
        return Pass;
      }
      var unique := NoneMatch(functions, fn.name, fold);
      if unique.Failure? {
        return Fail(unique.error);
      }
      if unique.value {
        functions := functions + [fn];
      }
      outcome := Pass;
    }

    /** `RemoveFunction`: unregisters every function named like `name`, as `RegistryAfterRemove`
        says, or throws. */
    method RemoveFunction(name: string) returns (outcome: Outcome<Exception>)
      modifies this
      ensures RegistryAfterRemove(old(functions), name, fold).Success? ==>
                outcome == Pass && functions == RegistryAfterRemove(old(functions), name, fold).value
      ensures RegistryAfterRemove(old(functions), name, fold).Failure? ==>
                outcome == Fail(RegistryAfterRemove(old(functions), name, fold).error) && functions == old(functions)
    {
      if |functions| == 0 {
        return Pass;
      }
      if HasNameless(functions) {
        return Fail(NullReferenceException);
      }
      functions := Survivors(functions, name, fold);
      outcome := Pass;
    }

    /** `ClearFunctions`: no function is registered any more. */
    method ClearFunctions()
      modifies this
      ensures functions == []
    {
      functions := [];
    }

    /** `BuildRequest`: appends the prompt and system messages (`Turns`) to the context, then makes
        a request for this client's model whose messages are the context's window and which
        offers the registered functions, if any. */
    method BuildRequest(prompt: Option<string>, systemMessage: Option<string>)
      returns (request: Request, ghost turns: seq<Message>)
      modifies context, context.history
      ensures fresh(request)
      ensures |turns| == |Turns(prompt, systemMessage)| && forall i :: 0 <= i < |turns| ==> fresh(turns[i])
      ensures context.history == old(context.history) + turns
      ensures var es := old(Snapshot(context.history)) + Appended(turns, Turns(prompt, systemMessage));
              && IsSafeContext(request.messages, es, context.Budget())
              && (Taken(es, context.Budget()) == 0 ==> fresh(request.messages[0]))
              && HistoryScanned(context.history, es, context.Budget())
      ensures forall m :: m in request.messages ==> m in old(context.history) || fresh(m)
      ensures Offers(request, model, old(functions))
    {
      turns := AppendTurns(prompt, systemMessage);
      ghost var es := Snapshot(context.history);
      var window := context.GetSafeContext();
      if Taken(es, context.Budget()) > 0 {
        WindowComesFromHistory(window, context.history, es, context.Budget());
      }
      request := NewRequest(window);
    }

    /** The first half of `BuildRequest`: the prompt, then the system message, each only when it is
        not null or white space, join the context as new messages. */
    method AppendTurns(prompt: Option<string>, systemMessage: Option<string>) returns (ghost turns: seq<Message>)
      modifies context
      ensures |turns| == |Turns(prompt, systemMessage)| && forall i :: 0 <= i < |turns| ==> fresh(turns[i])
      ensures context.history == old(context.history) + turns
      ensures Snapshot(context.history) == old(Snapshot(context.history)) + Appended(turns, Turns(prompt, systemMessage))
    {
      turns := [];
      if !IsNullOrWhiteSpace(prompt) {
        var m := AppendTurn(UserRole, prompt.value, None);
        turns := [m];
      }
      if !IsNullOrWhiteSpace(systemMessage) {
        var m := AppendTurn(SystemRole, systemMessage.value, None);
        turns := turns + [m];
      }
    }

    /** The second half of `BuildRequest`: a request for this client's model carrying `window` and
        offering the registered functions, if any. */
    method NewRequest(window: seq<Message>) returns (request: Request)
      ensures fresh(request) && request.messages == window && request.model == Some(model)
      ensures functions != [] ==> request.functions == Some(functions) && request.functionCall == Some(AutoFunctionCall)
      ensures functions == [] ==> request.functions == None && request.functionCall == None
    {
      request := new RequestModel();
      request.model := Some(model);
      request.messages := window;
      if |functions| > 0 {
        request.AppendFunctions(Some(functions));
        assert [] + functions == functions;
      }
    }

    /** `SubmitAsync(RequestModel)`: every message of the request joins the context again, in
        order; the request's messages become the context's window, and nothing else of the request
        changes before it is sent; and the first choice's message of the response, if there is a
        choice, joins the context. */
    method SubmitRequest(requestModel: Request, response: Option<ChatResponse>) returns (result: Option<ChatResponse>)
      modifies context, context.history, requestModel, requestModel.messages
      ensures result == response
      ensures context.history == old(context.history) + old(requestModel.messages) + Reply(response)
      ensures var es := old(Snapshot(context.history + requestModel.messages));
              && IsSafeContext(requestModel.messages, es, context.Budget())
              && (Taken(es, context.Budget()) == 0 ==> fresh(requestModel.messages[0]))
              && HistoryScanned(old(context.history) + old(requestModel.messages), es, context.Budget())
      ensures requestModel.model == old(requestModel.model) && requestModel.functions == old(requestModel.functions)
      ensures requestModel.functionCall == old(requestModel.functionCall)
    {
      AppendAll(requestModel.messages);
      var window := context.GetSafeContext();
      requestModel.messages := window;
      AppendReply(response);
      result := response;
    }

    /** The end of `SubmitAsync(RequestModel)`: the first choice's message joins the context when
        the response has a choice. */
    method AppendReply(response: Option<ChatResponse>)
      modifies context
      ensures context.history == old(context.history) + Reply(response)
    {
      if response.Some? && response.value.choices.Some? && |response.value.choices.value| >= 1 {
        context.AppendMessage(response.value.choices.value[0].message);
      }
    }

    /** The loop of `SubmitAsync(RequestModel)`: the messages join the context one by one. */
    method AppendAll(messages: seq<Message>)
      modifies context
      ensures context.history == old(context.history) + messages
      ensures Snapshot(context.history) == old(Snapshot(context.history + messages))
    {
      for i := 0 to |messages|
        invariant context.history == old(context.history) + messages[..i]
      {
        context.AppendMessage(messages[i]);
      }
      assert messages[..|messages|] == messages;
    }

    /** `SubmitAsync(prompt, systemMessage)`: the prompt joins the context (unless it is white
        space), and the request built from the context's window is submitted; `systemMessage` is
        never used. The context ends with the prompt, the window sent back, and the reply. The
        request goes out (`sent`) with the window a second scan takes from the history with the
        window appended again, and that history is left as that scan settles it; `sent` is the
        first window itself whenever that was cut from the history and none of its messages has a
        zero token count. The request (`outgoing`) names the client's model and offers the
        registered functions, if any. */
    method SubmitPrompt(prompt: string, systemMessage: Option<string>, response: Option<ChatResponse>)
      returns (result: Option<ChatResponse>, ghost turns: seq<Message>, ghost window: seq<Message>,
               ghost sent: seq<Message>, ghost outgoing: Request)
      modifies context, context.history
      ensures result == response
      ensures fresh(outgoing) && outgoing.messages == sent && Offers(outgoing, model, old(functions))
      ensures |turns| == |Turns(Some(prompt), None)| && forall i :: 0 <= i < |turns| ==> fresh(turns[i])
      ensures context.history == old(context.history) + turns + window + Reply(response)
      ensures var es := old(Snapshot(context.history)) + Appended(turns, Turns(Some(prompt), None));
              && Resubmission(es, context.Budget(), window, sent, old(context.history) + turns + window)
              && (Taken(es, context.Budget()) == 0 ==> fresh(window[0]))
    {
      ghost var es;
      result, turns, window, sent, es, outgoing := BuildAndSubmit(Some(prompt), response);
    }

    /** `SubmitFunctionResponseAsync`: the function's result joins the context as a message of
        the function role carrying the function's name, and the request built from the context's
        window is submitted. The context ends with that message, the window sent back, and the
        reply; the request goes out (`sent`) as in `SubmitPrompt`. */
    method SubmitFunctionResponse(functionName: string, content: string, response: Option<ChatResponse>)
      returns (result: Option<ChatResponse>, ghost turn: Message, ghost window: seq<Message>,
               ghost sent: seq<Message>, ghost outgoing: Request)
      modifies context, context.history
      ensures result == response
      ensures fresh(outgoing) && outgoing.messages == sent && Offers(outgoing, model, old(functions))
      ensures fresh(turn)
      ensures context.history == old(context.history) + [turn] + window + Reply(response)
      ensures var es := old(Snapshot(context.history))
                        + [Entry(turn, MessageData(Some(FunctionRole), Some(content), Some(functionName), None))];
              && Resubmission(es, context.Budget(), window, sent, old(context.history) + [turn] + window)
              && (Taken(es, context.Budget()) == 0 ==> fresh(window[0]))
    {
      turn := AppendTurn(FunctionRole, content, Some(functionName));
      assert TurnData(FunctionRole, content).(name := Some(functionName))
             == MessageData(Some(FunctionRole), Some(content), Some(functionName), None);
      result, window, sent, outgoing := SubmitContext(response);
    }

    /** `SubmitAsync(BuildRequest(null))`: nothing joins the context before its window is sent
        back and answered. */
    method SubmitContext(response: Option<ChatResponse>)
      returns (result: Option<ChatResponse>, ghost window: seq<Message>, ghost sent: seq<Message>,
               ghost outgoing: Request)
      modifies context, context.history
      ensures result == response
      ensures fresh(outgoing) && outgoing.messages == sent && Offers(outgoing, model, old(functions))
      ensures context.history == old(context.history) + window + Reply(response)
      ensures && Resubmission(old(Snapshot(context.history)), context.Budget(), window, sent, old(context.history) + window)
              && (Taken(old(Snapshot(context.history)), context.Budget()) == 0 ==> fresh(window[0]))
    {
      NoTurnsWithoutPrompt();
      ghost var turns, es;
      result, turns, window, sent, es, outgoing := BuildAndSubmit(None, response);
      NothingAppended(old(context.history), turns, window, old(Snapshot(context.history)));
    }

    /** `SubmitAsync(BuildRequest(prompt))`, the tail both prompt-driven submissions share: the
        prompt (if any) joins the context, and the context's window is sent back and answered. */
    method BuildAndSubmit(prompt: Option<string>, response: Option<ChatResponse>)
      returns (result: Option<ChatResponse>, ghost turns: seq<Message>, ghost window: seq<Message>,
               ghost sent: seq<Message>, ghost es: seq<Entry>, ghost outgoing: Request)
      modifies context, context.history
      ensures result == response
      ensures fresh(outgoing) && outgoing.messages == sent && Offers(outgoing, model, old(functions))
      ensures |turns| == |Turns(prompt, None)| && forall i :: 0 <= i < |turns| ==> fresh(turns[i])
      ensures context.history == old(context.history) + turns + window + Reply(response)
      ensures es == old(Snapshot(context.history)) + Appended(turns, Turns(prompt, None))
      ensures && Resubmission(es, context.Budget(), window, sent, old(context.history) + turns + window)
              && (Taken(es, context.Budget()) == 0 ==> fresh(window[0]))
    {
      var request;
      request, turns := BuildRequest(prompt, None);
      window := request.messages;
      es := old(Snapshot(context.history)) + Appended(turns, Turns(prompt, None));
      result := SubmitWindow(request, es, response, model, old(functions));
      sent := request.messages;
      outgoing := request;
    }

    /** `SubmitAsync(RequestModel)` on the request `BuildRequest` has just made from the history
        recorded in `es`: the request goes out with the window of the history `Resubmitted`
        describes, and the same window again when the first was cut from the history and none of
        its messages had a zero token count. */
    method SubmitWindow(request: Request, ghost es: seq<Entry>, response: Option<ChatResponse>,
                        ghost m: string, ghost fs: seq<Function>)
      returns (result: Option<ChatResponse>)
      requires HistoryScanned(context.history, es, context.Budget())
      requires IsSafeContext(request.messages, es, context.Budget())
      requires Offers(request, m, fs)
      modifies context, context.history, request, request.messages
      ensures result == response
      ensures context.history == old(context.history) + old(request.messages) + Reply(response)
      ensures var p := context.Budget();
              var again := Resubmitted(es, p, old(request.messages));
              && IsSafeContext(request.messages, again, p)
              && HistoryScanned(old(context.history) + old(request.messages), again, p)
      ensures Taken(es, context.Budget()) > 0 && WindowCostsPositive(es, context.Budget()) ==>
                request.messages == old(request.messages)
      ensures request.model == old(request.model) && request.functions == old(request.functions)
      ensures request.functionCall == old(request.functionCall)
      ensures Offers(request, m, fs)
    {
      ResubmittedSnapshot(context.history, request.messages, es, context.Budget());
      if Taken(es, context.Budget()) > 0 && WindowCostsPositive(es, context.Budget()) {
        WindowIsResent(context.history, request.messages, es, context.Budget());
      }
      result := SubmitRequest(request, response);
    }
  }

  lemma NoTurnsWithoutPrompt()
    ensures Turns(None, None) == []
  {
  }

  lemma NothingAppended(h: seq<Message>, turns: seq<Message>, window: seq<Message>, es: seq<Entry>)
    requires |turns| == 0
    ensures h + turns + window == h + window
    ensures es + Appended(turns, []) == es
  {
    assert turns == [] && Appended(turns, []) == [];
  }

  /** A window that is not the reset message holds messages of the history it was taken from. */
  lemma WindowComesFromHistory(window: seq<Message>, h: seq<Message>, es: seq<Entry>, p: Policy)
    requires |h| == |es| && forall i :: 0 <= i < |h| ==> es[i].msg == h[i]
    requires Taken(es, p) > 0 && window == Msgs(Tail(es, Taken(es, p)))
    ensures forall m :: m in window ==> m in h
  {
    forall m | m in window
      ensures m in h
    {
      var x :| 0 <= x < |window| && window[x] == m;
      assert m == h[|h| - Taken(es, p) + x];
    }
  }
}
