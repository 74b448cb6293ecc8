/** The prompt-keyed answer cache of the agent (app/agent/llm.py). The Redis
    server is the `Cache` object: its records and whether reads and writes
    currently succeed. The chat model and SHA-256 are foreign code, given as
    `ChatProvider` and `hash`. */
module AgentLlm {
  import opened Common

  /** `CACHE_TTL`: one hour, in seconds. */
  const CacheTtl: int := 3600

  /** The default `model` of `ask_llm`. */
  const DefaultChatModel: string := "gpt-4o-mini"

  const ChatTemperature: real := 0.3

  const MissingKeyText: string :=
    "OPENAI_API_KEY is not set.\nCreate a .env file in the project root with:\nOPENAI_API_KEY=your_real_key_here"

  datatype Message = Message(role: string, content: string)

  /** `client.chat.completions.create(model, messages, temperature)`. */
  datatype ChatRequest = ChatRequest(model: string, messages: seq<Message>, temperature: real)

  /** The chat model: the content of the first choice, or the error it raises. */
  type ChatProvider = ChatRequest -> Call<string>

  /** A Redis record written by `setex`: the value and its time to live. */
  datatype Stored = Stored(value: string, ttl: int)

  /** Module initialisation: the API key must be set and non-empty. */
  function ClientKey(apiKey: Option<string>): (r: Result<string>)
    ensures r.Ok? <==> apiKey.Some? && apiKey.value != ""
    ensures r.Ok? ==> r.value == apiKey.value
    ensures r.Err? ==> r.error == Error(Runtime, MissingKeyText)
  {
    if apiKey.Some? && apiKey.value != "" then Ok(apiKey.value) else Err(Error(Runtime, MissingKeyText))
  }

  /** `f"llm:{sha256(prompt).hexdigest()}"`: the key depends on the prompt
      alone. */
  function CacheKey(hash: string -> string, prompt: string): (k: string)
    ensures |k| >= 4 && k[..4] == "llm:" && k[4..] == hash(prompt)
  {
    "llm:" + hash(prompt)
  }

  /** The request of a cache miss: the prompt as the only user message. */
  function RequestFor(model: string, prompt: string): (q: ChatRequest)
    ensures q.model == model && |q.messages| == 1 && q.messages[0] == Message("user", prompt)
    ensures q.temperature == ChatTemperature
  {
    ChatRequest(model, [Message("user", prompt)], ChatTemperature)
  }

  /** The value a cache read yields: a stored non-empty value when the read
      succeeds; an empty value, a missing key and a failed read are all misses. */
  function CachedAnswer(entries: map<string, Stored>, readable: bool, key: string): (r: Option<string>)
    ensures r.Some? <==> readable && key in entries && entries[key].value != ""
    ensures r.Some? ==> r.value == entries[key].value
  {
    if readable && key in entries && entries[key].value != "" then Some(entries[key].value) else None
  }

  /** What `ask_llm` returns: the cached value, or else the model's answer;
      an error of the model is not caught. */
  function AskOutcome(cached: Option<string>, reply: Call<string>): (r: Result<string>)
    ensures cached.Some? ==> r == Ok(cached.value)
    ensures cached.None? && reply.Returned? ==> r == Ok(reply.value)
    ensures cached.None? && reply.Raised? ==> r == Err(Error(Other, reply.message))
  {
    if cached.Some? then Ok(cached.value)
    else match reply
      case Returned(answer) => Ok(answer)
      case Raised(msg) => Err(Error(Other, msg))
  }

  /** The records after `ask_llm`: a fresh answer is written with the TTL
      when the write succeeds; nothing else changes. */
  function EntriesAfter(entries: map<string, Stored>, writable: bool, key: string, cached: Option<string>,
                        reply: Call<string>): map<string, Stored>
  {
    if cached.None? && reply.Returned? && writable then entries[key := Stored(reply.value, CacheTtl)] else entries
  }

  /** `ask_llm`'s answer for `prompt` against the records `entries`. */
  function AskResult(entries: map<string, Stored>, readable: bool, provider: ChatProvider, hash: string -> string,
                     prompt: string, model: string): Result<string>
  {
    AskOutcome(CachedAnswer(entries, readable, CacheKey(hash, prompt)), provider(RequestFor(model, prompt)))
  }

  /** The records after `ask_llm` for `prompt`. */
  function EntriesAfterAsk(entries: map<string, Stored>, readable: bool, writable: bool, provider: ChatProvider,
                           hash: string -> string, prompt: string, model: string): map<string, Stored>
  {
    EntriesAfter(entries, writable, CacheKey(hash, prompt), CachedAnswer(entries, readable, CacheKey(hash, prompt)),
                 provider(RequestFor(model, prompt)))
  }

  class Cache {
    var entries: map<string, Stored>
    /** Whether `get` and `setex` currently succeed. */
    var readable: bool
    var writable: bool

    constructor(readable: bool, writable: bool)
      ensures entries == map[] && this.readable == readable && this.writable == writable
    {
      entries := map[];
      this.readable := readable;
      this.writable := writable;
    }

    /** `ask_llm`: look the prompt up, call the model only on a miss (the
        ghost `requests` lists the calls made), and store a fresh answer.
        Cache failures are swallowed. */
    method AskLlm(provider: ChatProvider, hash: string -> string, prompt: string, model: string)
      returns (r: Result<string>, ghost requests: seq<ChatRequest>)
      modifies this`entries
      ensures r == AskResult(old(entries), readable, provider, hash, prompt, model)
      ensures entries == EntriesAfterAsk(old(entries), readable, writable, provider, hash, prompt, model)
      ensures requests == if CachedAnswer(old(entries), readable, CacheKey(hash, prompt)).Some? then []
                          else [RequestFor(model, prompt)]
    {
      var cacheKey := "llm:" + hash(prompt);
      if readable && cacheKey in entries {
        var hit := entries[cacheKey].value;
        if hit != "" {
          return Ok(hit), [];
        }
      }
      var request := ChatRequest(model, [Message("user", prompt)], ChatTemperature);
      requests := [request];
      var resp := provider(request);
      if resp.Raised? {
        return Err(Error(Other, resp.message)), requests;
      }
      var result := resp.value;
      if writable {
        entries := entries[cacheKey := Stored(result, CacheTtl)];
      }
      r := Ok(result);
    }
  }

  /** A hit answers without the model: any two models and providers give
      the same answer. */
  lemma HitIgnoresProvider(cached: Option<string>, reply1: Call<string>, reply2: Call<string>)
    requires cached.Some?
    ensures AskOutcome(cached, reply1) == AskOutcome(cached, reply2) == Ok(cached.value)
  {
  }

  /** A failed read never changes the answer: it is a miss, as with an
      empty cache, and a fresh answer is returned as the model gave it. */
  lemma CacheFailuresHarmless(entries: map<string, Stored>, key: string, reply: Call<string>)
    ensures AskOutcome(CachedAnswer(entries, false, key), reply) == AskOutcome(CachedAnswer(map[], true, key), reply)
    ensures reply.Returned? ==> AskOutcome(CachedAnswer(entries, false, key), reply) == Ok(reply.value)
  {
  }

  /** A failed write is swallowed: `ask_llm` answers as it would with a
      working write (its answer has no `writable` input), the records are
      left as they were, and a working write changes only the prompt's own
      record. */
  lemma WriteFailureHarmless(entries: map<string, Stored>, readable: bool, provider: ChatProvider,
                             hash: string -> string, prompt: string, model: string)
    ensures EntriesAfterAsk(entries, readable, false, provider, hash, prompt, model) == entries
    ensures var written := EntriesAfterAsk(entries, readable, true, provider, hash, prompt, model);
            && written.Keys == entries.Keys + (if written == entries then {} else {CacheKey(hash, prompt)})
            && forall k :: k in entries && k != CacheKey(hash, prompt) ==> written[k] == entries[k]
  {
  }

  /** After a fresh answer is stored, asking again with the same prompt, under
      any model, is a hit with that answer, unless the answer was empty,
      which counts as a miss again. */
  lemma RepeatedPromptHits(entries: map<string, Stored>, hash: string -> string, prompt: string, answer: string)
    requires CachedAnswer(entries, true, CacheKey(hash, prompt)).None?
    ensures var after := EntriesAfter(entries, true, CacheKey(hash, prompt), None, Returned(answer));
            && (answer != "" ==> CachedAnswer(after, true, CacheKey(hash, prompt)) == Some(answer))
            && (answer == "" ==> CachedAnswer(after, true, CacheKey(hash, prompt)).None?)
            && after[CacheKey(hash, prompt)].ttl == CacheTtl
  {
  }
}
