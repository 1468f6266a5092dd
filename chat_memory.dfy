/**
 * The chat memory blocks (`kirara_ai/workflow/implementations/blocks/memory/chat_memory.py`):
 * the option lists they offer, how `ChatMemoryQuery` picks its decomposer, and what
 * `ChatMemoryStore` hands to the memory manager. The memory manager and the scope, composer and
 * decomposer registries are outside the model: the blocks' requests to them are returned as data.
 */
module ChatMemory {
  import opened Wrappers
  import opened Messages

  /** The decomposer and composer used when none is named. */
  const DefaultName := "default"

  /** `scope_type_options_provider`: the scopes a block may be configured with. */
  function ScopeTypeOptions(): (r: seq<string>)
    ensures |r| == 3
    ensures forall s :: s in r <==> s == "global" || s == "member" || s == "group"
  {
    ["global", "member", "group"]
  }

  /** `decomposer_name_options_provider`: the decomposers a query block may be configured with. */
  function DecomposerNameOptions(): (r: seq<string>)
    ensures |r| == 2
    ensures forall s :: s in r <==> s == DefaultName || s == "multi_element"
  {
    [DefaultName, "multi_element"]
  }

  /** `decomposer_name or "default"`: a missing or empty name falls back to the default. */
  function DecomposerName(name: Option<string>): (r: string)
    ensures name.None? || name.value == "" ==> r == DefaultName
    ensures name.Some? && name.value != "" ==> r == name.value
  {
    match name
    case Some(n) => if n == "" then DefaultName else n
    case None => DefaultName
  }

  /** Whatever a query block is configured with, it asks for a decomposer that is offered, if the configured one is. */
  lemma DecomposerOffered(name: Option<string>)
    requires name.None? || name.value == "" || name.value in DecomposerNameOptions()
    ensures DecomposerName(name) in DecomposerNameOptions()
    ensures DecomposerName(name) != ""
  {
  }

  /** The scope used: the configured one, or the memory configuration's default when none is configured. */
  function ScopeType(configured: Option<string>, defaultScope: string): (r: string)
    ensures configured.Some? ==> r == configured.value
    ensures configured.None? ==> r == defaultScope
  {
    configured.GetOr(defaultScope)
  }

  /** What `ChatMemoryQuery.execute` asks of the memory manager: a scope, a decomposer and a sender. */
  datatype QueryRequest = QueryRequest(scopeType: string, decomposerName: string, sender: ChatSender)

  /** `ChatMemoryQuery`: the configured scope (possibly none yet) and decomposer, and those in use. */
  class ChatMemoryQuery {
    var scopeType: Option<string>
    var decomposerName: string
    var scope: Option<string>
    var decomposer: Option<string>

    constructor(scopeType: Option<string>, decomposerName: Option<string>)
      ensures this.scopeType == scopeType
      ensures this.decomposerName == DecomposerName(decomposerName)
      ensures scope == None && decomposer == None
    {
      this.scopeType := scopeType;
      this.decomposerName := DecomposerName(decomposerName);
      scope := None;
      decomposer := None;
    }

    /**
     * `ChatMemoryQuery.execute`: fills in the default scope when none is configured, looks up
     * that scope and the configured decomposer, then queries the scope for the sender.
     */
    method Execute(defaultScope: string, chatSender: ChatSender) returns (request: QueryRequest)
      modifies this
      ensures scopeType == Some(ScopeType(old(scopeType), defaultScope))
      ensures decomposerName == old(decomposerName)
      ensures scope == scopeType && decomposer == Some(decomposerName)
      ensures request == QueryRequest(ScopeType(old(scopeType), defaultScope), decomposerName, chatSender)
    {
      if scopeType.None? {
        scopeType := Some(defaultScope);
      }
      scope := scopeType;
      decomposer := Some(decomposerName);
      request := QueryRequest(scopeType.value, decomposerName, chatSender);
    }
  }

  /** The user message, if any, as a one-message list. */
  function UserPart(userMsg: Option<ImMessage>): seq<Composable> {
    match userMsg
    case Some(m) => [ImComposable(m)]
    case None => []
  }

  /** The intermediate steps, if any. */
  function MiddlePart(middleSteps: Option<seq<Composable>>): seq<Composable> {
    middleSteps.GetOr([])
  }

  /** The response's message, if there is a response and it carries a message. */
  function ResponsePart(llmResp: Option<LlmResponse>): seq<Composable> {
    match llmResp
    case Some(LlmResponse(Some(m))) => [LlmComposable(m)]
    case _ => []
  }

  /** The messages `ChatMemoryStore.execute` collects, in the order it collects them. */
  function Composed(userMsg: Option<ImMessage>, llmResp: Option<LlmResponse>,
                    middleSteps: Option<seq<Composable>>): seq<Composable> {
    UserPart(userMsg) + MiddlePart(middleSteps) + ResponsePart(llmResp)
  }

  /**
   * The collected messages: the user message first, then every intermediate step in order, then
   * the response's message last, each present exactly when its input is.
   */
  lemma ComposedOrder(userMsg: Option<ImMessage>, llmResp: Option<LlmResponse>,
                      middleSteps: Option<seq<Composable>>)
    ensures var r := Composed(userMsg, llmResp, middleSteps);
            var u := if userMsg.Some? then 1 else 0;
            var m := MiddlePart(middleSteps);
            var l := if llmResp.Some? && llmResp.value.message.Some? then 1 else 0;
            && |r| == u + |m| + l
            && (userMsg.Some? ==> r[0] == ImComposable(userMsg.value))
            && r[u..u + |m|] == m
            && (l == 1 ==> r[|r| - 1] == LlmComposable(llmResp.value.message.value))
  {
    var u := UserPart(userMsg);
    var m := MiddlePart(middleSteps);
    var l := ResponsePart(llmResp);
    assert Composed(userMsg, llmResp, middleSteps) == u + m + l;
    assert (u + m + l)[|u|..|u| + |m|] == m;
  }

  /** Nothing is collected exactly when there is no user message, no step and no response message. */
  lemma ComposedEmpty(userMsg: Option<ImMessage>, llmResp: Option<LlmResponse>,
                      middleSteps: Option<seq<Composable>>)
    ensures Composed(userMsg, llmResp, middleSteps) == [] <==>
      && userMsg.None?
      && (middleSteps.None? || middleSteps.value == [])
      && (llmResp.None? || llmResp.value.message.None?)
  {
    var r := Composed(userMsg, llmResp, middleSteps);
    assert |r| == |UserPart(userMsg)| + |MiddlePart(middleSteps)| + |ResponsePart(llmResp)|;
  }

  /** What `ChatMemoryStore.execute` hands over: one compose call and one store call into a scope. */
  datatype StoreRequest = StoreRequest(
    scopeType: string,
    composerName: string,
    sender: Option<ChatSender>,
    messages: seq<Composable>)

  /**
   * The store request of one execution: none when nothing was collected, else the collected
   * messages, composed with the default composer for the user message's sender (if any), stored
   * into the scope.
   */
  function StoreRequestOf(scopeType: string, userMsg: Option<ImMessage>, llmResp: Option<LlmResponse>,
                          middleSteps: Option<seq<Composable>>): (r: Option<StoreRequest>)
    ensures r.None? <==> Composed(userMsg, llmResp, middleSteps) == []
    ensures r.Some? ==> r.value.messages == Composed(userMsg, llmResp, middleSteps)
    ensures r.Some? ==> r.value.scopeType == scopeType && r.value.composerName == DefaultName
    ensures r.Some? ==> (r.value.sender.Some? <==> userMsg.Some?)
    ensures r.Some? && userMsg.Some? ==> r.value.sender.value == userMsg.value.sender
  {
    var composed := Composed(userMsg, llmResp, middleSteps);
    if composed == [] then None
    else Some(StoreRequest(scopeType, DefaultName,
                           if userMsg.Some? then Some(userMsg.value.sender) else None, composed))
  }

  /** `ChatMemoryStore`: the configured scope (possibly none yet) and the scope and composer in use. */
  class ChatMemoryStore {
    var scopeType: Option<string>
    var scope: Option<string>
    var composer: Option<string>

    constructor(scopeType: Option<string>)
      ensures this.scopeType == scopeType
      ensures scope == None && composer == None
    {
      this.scopeType := scopeType;
      scope := None;
      composer := None;
    }

    /**
     * `ChatMemoryStore.execute`: fills in the default scope when none is configured, looks up
     * that scope and the default composer, collects the messages and, unless there are none,
     * returns the one request that composes and stores them.
     */
    method Execute(defaultScope: string, userMsg: Option<ImMessage>, llmResp: Option<LlmResponse>,
                   middleSteps: Option<seq<Composable>>) returns (request: Option<StoreRequest>)
      modifies this
      ensures scopeType == Some(ScopeType(old(scopeType), defaultScope))
      ensures scope == scopeType && composer == Some(DefaultName)
      ensures request == StoreRequestOf(ScopeType(old(scopeType), defaultScope), userMsg, llmResp, middleSteps)
    {
      if scopeType.None? {
        scopeType := Some(defaultScope);
      }
      scope := scopeType;
      composer := Some(DefaultName);

      var composed: seq<Composable>;
      if userMsg.None? {
        composed := [];
      } else {
        composed := [ImComposable(userMsg.value)];
      }
      if middleSteps.Some? {
        composed := composed + middleSteps.value;
      }
      if llmResp.Some? {
        if llmResp.value.message.Some? {
          composed := composed + [LlmComposable(llmResp.value.message.value)];
        }
      }
      assert composed == Composed(userMsg, llmResp, middleSteps);

      if composed == [] {
        return None;
      }
      var sender := if userMsg.Some? then Some(userMsg.value.sender) else None;
      request := Some(StoreRequest(scopeType.value, DefaultName, sender, composed));
    }
  }
}
