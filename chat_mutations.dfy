/** The registry of generation requests keyed by message id (`useChatMutations` in
    src/hooks/useChatMutations.ts, and the identical copy in
    src/composables/useChatMutations.ts), and the request function each entry runs.

    A mutation is an object whose `isPending` flag the query library flips while its request
    runs; the registry holds references to such objects. */
module ChatMutations {
  import opened Common

  /** The body sent to the generation endpoint. */
  datatype GenerationRequest = GenerationRequest(service: string, keyword: string, ref: string)

  /** What a caller passes to `mutate`: the request and the message it is for. */
  datatype ChatGenerationParams = ChatGenerationParams(service: string, keyword: string, ref: string, messageId: string)

  /** How the request ended: the response body as named fields, or a thrown error. */
  datatype CallResult = Answered(body: map<string, string>) | Failed(message: string)

  /** `mutationFn`: the message id is taken out of the request, and put on the response. An
      error from the call passes through unchanged. */
  function MutationFn(params: ChatGenerationParams, generate: GenerationRequest -> CallResult): (r: CallResult)
    ensures generate(GenerationRequest(params.service, params.keyword, params.ref)).Failed? ==>
              r == generate(GenerationRequest(params.service, params.keyword, params.ref))
    ensures r.Answered? ==>
              var body := generate(GenerationRequest(params.service, params.keyword, params.ref)).body;
              && r.body.Keys == body.Keys + {"messageId"}
              && r.body["messageId"] == params.messageId
              && forall k :: k in body && k != "messageId" ==> r.body[k] == body[k]
  {
    var request := GenerationRequest(params.service, params.keyword, params.ref);
    match generate(request)
    case Answered(body) => Answered(body["messageId" := params.messageId])
    case Failed(message) => Failed(message)
  }

  /** The request never depends on the message id: two calls for different messages with the
      same service, keyword and reference send the same body. */
  lemma RequestIgnoresMessageId(a: ChatGenerationParams, b: ChatGenerationParams, generate: GenerationRequest -> CallResult)
    requires a.service == b.service && a.keyword == b.keyword && a.ref == b.ref
    ensures MutationFn(a, generate).Failed? <==> MutationFn(b, generate).Failed?
    ensures MutationFn(a, generate).Answered? ==>
              MutationFn(a, generate).body == MutationFn(b, generate).body["messageId" := a.messageId]
  {
  }

  /** One request's state, as the query library exposes it. */
  class Mutation {
    var isPending: bool

    constructor ()
      ensures !isPending
    {
      isPending := false;
    }
  }

  class ChatMutationRegistry {
    var activeMutations: map<string, Mutation>

    constructor ()
      ensures activeMutations == map[] && !IsAnyLoading()
    {
      activeMutations := map[];
    }

    /** `isAnyLoading`: some registered mutation's request is running. */
    predicate IsAnyLoading()
      reads this, activeMutations.Values
    {
      exists id :: id in activeMutations && activeMutations[id].isPending
    }

    /** `createMutation`: a new idle mutation is registered under the id, replacing any
        earlier one, and returned. */
    method CreateMutation(messageId: string) returns (m: Mutation)
      modifies this
      ensures fresh(m) && !m.isPending
      ensures activeMutations == old(activeMutations)[messageId := m]
      ensures IsAnyLoading() <==> exists id :: id in old(activeMutations) && id != messageId && old(activeMutations[id].isPending)
    {
      m := new Mutation();
      activeMutations := activeMutations[messageId := m];
      if IsAnyLoading() {
        var id :| id in activeMutations && activeMutations[id].isPending;
        assert id != messageId;
      }
      if exists id :: id in old(activeMutations) && id != messageId && old(activeMutations[id].isPending) {
        var id :| id in old(activeMutations) && id != messageId && old(activeMutations[id].isPending);
        assert activeMutations[id] == old(activeMutations)[id];
      }
    }

    /** `removeMutation`: only that key goes. */
    method RemoveMutation(messageId: string)
      modifies this
      ensures activeMutations == old(activeMutations) - {messageId}
      ensures messageId !in activeMutations
      ensures forall id :: id != messageId ==> (id in activeMutations <==> id in old(activeMutations))
      ensures IsAnyLoading() <==> exists id :: id in old(activeMutations) && id != messageId && old(activeMutations[id].isPending)
    {
      activeMutations := activeMutations - {messageId};
    }

    /** `getMutation`: the registered entry, or nothing. */
    method GetMutation(messageId: string) returns (m: Option<Mutation>)
      ensures messageId in activeMutations ==> m == Some(activeMutations[messageId])
      ensures messageId !in activeMutations ==> m == None
    {
      m := if messageId in activeMutations then Some(activeMutations[messageId]) else None;
    }
  }

  /** `isAnyLoading` as written asks the registered values, not the keys: some mutation in
      `activeMutations.values()` has its request running. */
  lemma LoadingIsSomeValue(r: ChatMutationRegistry)
    ensures r.IsAnyLoading() <==> exists m :: m in r.activeMutations.Values && m.isPending
  {
    if r.IsAnyLoading() {
      var id :| id in r.activeMutations && r.activeMutations[id].isPending;
      assert r.activeMutations[id] in r.activeMutations.Values;
    }
    if exists m :: m in r.activeMutations.Values && m.isPending {
      var m :| m in r.activeMutations.Values && m.isPending;
      var id :| id in r.activeMutations && r.activeMutations[id] == m;
    }
  }
}
