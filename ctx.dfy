/**
 * The execution context handed to agents (src/ctx.rs): a string key/value
 * store and an append-only event log that its methods update in place, and
 * the LLM provider with its name parser, chat endpoint and response reader.
 * The provider's JSON replies are values of a small JSON datatype.
 */
module Context {
  import opened Wrappers
  import opened Agents

  // ---------------------------------------------------------------------
  // Providers
  // ---------------------------------------------------------------------

  datatype Provider = Ollama | OpenAi | Anthropic

  /** Lower-case of one character, for the ASCII letters. */
  function ToLowerChar(c: char): (r: char)
    ensures 'A' <= c <= 'Z' ==> r as int == c as int + 32
    ensures !('A' <= c <= 'Z') ==> r == c
  {
    if 'A' <= c <= 'Z' then (c as int + 32) as char else c
  }

  /** Upper-case of one character, for the ASCII letters. */
  function ToUpperChar(c: char): char
  {
    if 'a' <= c <= 'z' then (c as int - 32) as char else c
  }

  /** `str::to_lowercase`, restricted to ASCII letters. */
  function Lower(s: string): (r: string)
    ensures |r| == |s| && forall i :: 0 <= i < |s| ==> r[i] == ToLowerChar(s[i])
  {
    if s == [] then [] else [ToLowerChar(s[0])] + Lower(s[1..])
  }

  function Upper(s: string): (r: string)
    ensures |r| == |s| && forall i :: 0 <= i < |s| ==> r[i] == ToUpperChar(s[i])
  {
    if s == [] then [] else [ToUpperChar(s[0])] + Upper(s[1..])
  }

  /**
   * `Provider::from_str`: the lower-cased name "openai" selects OpenAI,
   * "anthropic" selects Anthropic, and every other name falls back to Ollama.
   */
  function FromStr(s: string): (p: Provider)
    ensures p == OpenAi <==> Lower(s) == "openai"
    ensures p == Anthropic <==> Lower(s) == "anthropic"
    ensures p == Ollama <==> Lower(s) != "openai" && Lower(s) != "anthropic"
  {
    var l := Lower(s);
    if l == "openai" then OpenAi
    else if l == "anthropic" then Anthropic
    else Ollama
  }

  /** The provider's name as the environment variable spells it. */
  function CanonicalName(p: Provider): string
  {
    match p
    case Ollama => "ollama"
    case OpenAi => "openai"
    case Anthropic => "anthropic"
  }

  lemma LowerIdempotent(s: string)
    ensures Lower(Lower(s)) == Lower(s)
  {
    assert forall i :: 0 <= i < |s| ==> ToLowerChar(ToLowerChar(s[i])) == ToLowerChar(s[i]);
  }

  /** Upper-casing a lower-case name and lower-casing it again gives the name back. */
  lemma LowerOfUpper(s: string)
    requires forall i :: 0 <= i < |s| ==> 'a' <= s[i] <= 'z'
    ensures Lower(Upper(s)) == s
  {
    LowerOfUpperAny(s);
    LowerKeeps(s);
  }

  /** The parser ignores letter case: names equal up to case select the same provider. */
  lemma FromStrCaseInsensitive(s: string, t: string)
    requires Lower(s) == Lower(t)
    ensures FromStr(s) == FromStr(t)
  {
  }

  /** Lower-casing or upper-casing a name first changes nothing. */
  lemma FromStrIgnoresCase(s: string)
    ensures FromStr(Lower(s)) == FromStr(s)
    ensures FromStr(Upper(s)) == FromStr(s)
  {
    LowerIdempotent(s);
    LowerOfUpperAny(s);
  }

  lemma LowerOfUpperAny(s: string)
    ensures Lower(Upper(s)) == Lower(s)
  {
    forall i | 0 <= i < |s|
      ensures Lower(Upper(s))[i] == Lower(s)[i]
    {
      var c := s[i];
      assert Upper(s)[i] == ToUpperChar(c);
      if 'a' <= c <= 'z' {
        assert ToLowerChar(ToUpperChar(c)) == c == ToLowerChar(c);
      }
    }
  }

  /** Each provider's own name, in lower or upper case, parses back to it. */
  lemma FromStrCanonical(p: Provider)
    ensures FromStr(CanonicalName(p)) == p
    ensures FromStr(Upper(CanonicalName(p))) == p
  {
    var n := CanonicalName(p);
    assert Lower(n) == n by { LowerOfUpper(n); LowerIdempotent(Upper(n)); assert forall i :: 0 <= i < |n| ==> ToLowerChar(n[i]) == n[i]; }
    FromStrIgnoresCase(n);
  }

  /** Names that are neither provider's fall back to Ollama, "something" and the empty name among them. */
  lemma FromStrUnknown()
    ensures FromStr("something") == Ollama
    ensures FromStr("") == Ollama
  {
    LowerKeeps("something");
  }

  /** A name in mixed case selects its provider. */
  lemma FromStrMixedCase()
    ensures FromStr("OpenAI") == OpenAi
    ensures FromStr("Ollama") == Ollama
  {
    var mixed := "OpenAI";
    assert Lower(mixed) == "openai" by {
      forall i | 0 <= i < |mixed|
        ensures Lower(mixed)[i] == "openai"[i]
      {
      }
    }
    var other := "Ollama";
    assert Lower(other)[1] == 'l';
  }

  /** A name without capitals is its own lower case. */
  lemma LowerKeeps(s: string)
    requires forall i :: 0 <= i < |s| ==> !('A' <= s[i] <= 'Z')
    ensures Lower(s) == s
  {
    assert forall i :: 0 <= i < |s| ==> Lower(s)[i] == s[i];
  }

  // ---------------------------------------------------------------------
  // Endpoints
  // ---------------------------------------------------------------------

  /** `trim_end_matches('/')`: removes every trailing slash. */
  function TrimEndSlashes(s: string): (r: string)
    ensures |r| <= |s| && r == s[..|r|]
    ensures r == [] || r[|r| - 1] != '/'
    ensures forall i :: |r| <= i < |s| ==> s[i] == '/'
    decreases |s|
  {
    if |s| > 0 && s[|s| - 1] == '/' then TrimEndSlashes(s[..|s| - 1]) else s
  }

  /** The path each provider's chat API lives under. */
  function Suffix(p: Provider): string
  {
    match p
    case Ollama => "/api/chat"
    case OpenAi => "/v1/chat/completions"
    case Anthropic => "/v1/messages"
  }

  /** `Provider::endpoint`: the base URL without its trailing slashes, then the provider's path. */
  function Endpoint(p: Provider, baseUrl: string): (r: string)
    ensures var base := TrimEndSlashes(baseUrl);
      && |r| == |base| + |Suffix(p)|
      && r[..|base|] == base && r[|base|..] == Suffix(p)
  {
    TrimEndSlashes(baseUrl) + Suffix(p)
  }

  /** `n` slashes. */
  function Slashes(n: nat): (r: string)
    ensures |r| == n && forall i :: 0 <= i < n ==> r[i] == '/'
  {
    if n == 0 then [] else Slashes(n - 1) + ['/']
  }

  lemma {:induction false} TrimEndSlashesOfSlashes(base: string, n: nat)
    ensures TrimEndSlashes(base + Slashes(n)) == TrimEndSlashes(base)
    decreases n
  {
    if n > 0 {
      var s := base + Slashes(n);
      assert s[..|s| - 1] == base + Slashes(n - 1);
      TrimEndSlashesOfSlashes(base, n - 1);
    } else {
      assert base + Slashes(0) == base;
    }
  }

  /** Any number of trailing slashes on the base URL yields the same endpoint. */
  lemma EndpointIgnoresTrailingSlashes(p: Provider, baseUrl: string, n: nat)
    ensures Endpoint(p, baseUrl + Slashes(n)) == Endpoint(p, baseUrl)
  {
    TrimEndSlashesOfSlashes(baseUrl, n);
  }

  /** A base URL that does not end in a slash is used as it is. */
  lemma EndpointOfCleanBase(p: Provider, baseUrl: string)
    requires baseUrl == [] || baseUrl[|baseUrl| - 1] != '/'
    ensures Endpoint(p, baseUrl) == baseUrl + Suffix(p)
  {
  }

  /** Over one base URL the three providers reach three different endpoints. */
  lemma EndpointDeterminesProvider(p: Provider, q: Provider, baseUrl: string)
    requires Endpoint(p, baseUrl) == Endpoint(q, baseUrl)
    ensures p == q
  {
    assert |Suffix(p)| == |Suffix(q)|;
  }

  /** The documented endpoints, the last with a trailing slash on its base. */
  lemma EndpointExamples()
    ensures Endpoint(Ollama, "http://localhost:11434") == "http://localhost:11434/api/chat"
    ensures Endpoint(OpenAi, "https://openrouter.ai") == "https://openrouter.ai/v1/chat/completions"
    ensures Endpoint(Anthropic, "https://api.anthropic.com") == "https://api.anthropic.com/v1/messages"
    ensures Endpoint(OpenAi, "https://openrouter.ai/") == "https://openrouter.ai/v1/chat/completions"
  {
    var base := "https://openrouter.ai/";
    assert base[..|base| - 1] == "https://openrouter.ai";
    assert TrimEndSlashes(base) == "https://openrouter.ai";
    var r := Endpoint(OpenAi, base);
    var expected := "https://openrouter.ai/v1/chat/completions";
    assert r == "https://openrouter.ai" + "/v1/chat/completions";
    assert |r| == |expected|;
    assert forall i | 0 <= i < |expected| :: r[i] == expected[i];
  }

  // ---------------------------------------------------------------------
  // Responses
  // ---------------------------------------------------------------------

  /** A JSON value; numbers and booleans are never content, so they share one case. */
  datatype Json =
    | JNull
    | JScalar
    | JString(str: string)
    | JArray(items: seq<Json>)
    | JObject(fields: map<string, Json>)

  /** `json[key]`: the field's value, or null when there is no such field. */
  function Get(j: Json, key: string): (r: Json)
    ensures j.JObject? && key in j.fields ==> r == j.fields[key]
    ensures !(j.JObject? && key in j.fields) ==> r == JNull
  {
    if j.JObject? && key in j.fields then j.fields[key] else JNull
  }

  /** `json[i]`: the array element, or null when there is none. */
  function At(j: Json, i: nat): (r: Json)
    ensures j.JArray? && i < |j.items| ==> r == j.items[i]
    ensures !(j.JArray? && i < |j.items|) ==> r == JNull
  {
    if j.JArray? && i < |j.items| then j.items[i] else JNull
  }

  /** `as_str`. */
  function AsStr(j: Json): (r: Option<string>)
    ensures r.Some? <==> j.JString?
    ensures r.Some? ==> r.value == j.str
  {
    if j.JString? then Some(j.str) else None
  }

  /** One step into a JSON value. */
  datatype Key = Field(name: string) | Index(i: nat)

  /** Where each provider puts the assistant's text. */
  function ContentPath(p: Provider): seq<Key>
  {
    match p
    case Ollama => [Field("message"), Field("content")]
    case OpenAi => [Field("choices"), Index(0), Field("message"), Field("content")]
    case Anthropic => [Field("content"), Index(0), Field("text")]
  }

  /** The value reached by following `path`, null as soon as a step misses. */
  function Follow(j: Json, path: seq<Key>): Json
    decreases |path|
  {
    if path == [] then j
    else
      var next := match path[0] case Field(k) => Get(j, k) case Index(i) => At(j, i);
      Follow(next, path[1..])
  }

  /** The error for a reply without text at the provider's path. */
  const MissingContent := "llm response missing message content"

  /**
   * `Provider::parse_response`: the string at the provider's content path,
   * or an uncategorised error when the path is missing or holds no string.
   */
  function ParseResponse(p: Provider, json: Json): (r: Result<string, StepError>)
    ensures var c := Follow(json, ContentPath(p));
      && (r.Ok? <==> c.JString?)
      && (r.Ok? ==> r.value == c.str)
      && (r.Err? ==> r.error == Other(MissingContent))
  {
    FollowContentPath(p, json);
    var content := match p
      case Ollama => AsStr(Get(Get(json, "message"), "content"))
      case OpenAi => AsStr(Get(Get(At(Get(json, "choices"), 0), "message"), "content"))
      case Anthropic => AsStr(Get(At(Get(json, "content"), 0), "text"));
    match content
    case Some(s) => Ok(s)
    case None => Err(OtherError(MissingContent))
  }

  /** Following a provider's content path is the chain of lookups its field names spell out. */
  lemma FollowContentPath(p: Provider, json: Json)
    ensures p.Ollama? ==> Follow(json, ContentPath(p)) == Get(Get(json, "message"), "content")
    ensures p.OpenAi? ==> Follow(json, ContentPath(p)) == Get(Get(At(Get(json, "choices"), 0), "message"), "content")
    ensures p.Anthropic? ==> Follow(json, ContentPath(p)) == Get(At(Get(json, "content"), 0), "text")
  {
    var path := ContentPath(p);
    match p
    case Ollama =>
      var a := Get(json, "message");
      assert path[1..] == [Field("content")] && path[1..][1..] == [];
      assert Follow(json, path) == Follow(a, path[1..]);
      assert Follow(a, path[1..]) == Follow(Get(a, "content"), []);
    case OpenAi =>
      var a := Get(json, "choices");
      var b := At(a, 0);
      var c := Get(b, "message");
      assert path[1..] == [Index(0), Field("message"), Field("content")];
      assert path[1..][1..] == [Field("message"), Field("content")];
      assert path[1..][1..][1..] == [Field("content")] && path[1..][1..][1..][1..] == [];
      assert Follow(json, path) == Follow(a, path[1..]);
      assert Follow(a, path[1..]) == Follow(b, path[1..][1..]);
      assert Follow(b, path[1..][1..]) == Follow(c, path[1..][1..][1..]);
      assert Follow(c, path[1..][1..][1..]) == Follow(Get(c, "content"), []);
    case Anthropic =>
      var a := Get(json, "content");
      var b := At(a, 0);
      assert path[1..] == [Index(0), Field("text")];
      assert path[1..][1..] == [Field("text")] && path[1..][1..][1..] == [];
      assert Follow(json, path) == Follow(a, path[1..]);
      assert Follow(a, path[1..]) == Follow(b, path[1..][1..]);
      assert Follow(b, path[1..][1..]) == Follow(Get(b, "text"), []);
  }

  /** The smallest well-formed reply of a provider carrying `text`. */
  function Reply(p: Provider, text: string): Json
  {
    match p
    case Ollama => JObject(map["message" := JObject(map["content" := JString(text)])])
    case OpenAi => JObject(map["choices" := JArray([JObject(map["message" := JObject(map["content" := JString(text)])])])])
    case Anthropic => JObject(map["content" := JArray([JObject(map["text" := JString(text)])])])
  }

  /** A provider reads back exactly the text of its own reply shape. */
  lemma ParseReply(p: Provider, text: string)
    ensures ParseResponse(p, Reply(p, text)) == Ok(text)
  {
  }

  /** A reply shaped for one provider is an error for each of the others. */
  lemma ParseForeignReply(p: Provider, q: Provider, text: string)
    requires p != q
    ensures ParseResponse(q, Reply(p, text)) == Err(Other(MissingContent))
  {
    assert "message" != "choices" && "message" != "content" && "choices" != "content";
  }

  /** A reply with no content field at all, such as `{"unexpected": "shape"}`, is an error for every provider. */
  lemma ParseUnexpectedShape(p: Provider)
    ensures ParseResponse(p, JObject(map["unexpected" := JString("shape")])) == Err(Other(MissingContent))
  {
    assert "unexpected" != "message" && "unexpected" != "choices" && "unexpected" != "content";
  }

  // ---------------------------------------------------------------------
  // The context object
  // ---------------------------------------------------------------------

  /** `Ctx`: the key/value store, the log, and the provider its LLM client talks to. */
  class Ctx {
    var store: map<string, string>
    var log: seq<string>
    const provider: Provider

    /** `Ctx::new` with its configuration given: an empty store and an empty log. */
    constructor (provider: Provider)
      ensures store == map[] && log == [] && this.provider == provider
    {
      store := map[];
      log := [];
      this.provider := provider;
    }

    /** `set`: inserts or overwrites one key; the log is unchanged. */
    method Set(key: string, value: string)
      modifies this
      ensures store == old(store)[key := value] && log == old(log)
      ensures Get(key) == Some(value)
      ensures forall k :: k != key ==> Get(k) == old(Get(k))
    {
      store := store[key := value];
    }

    /** `get`: the key's value if it is stored. */
    function Get(key: string): (r: Option<string>)
      reads this
      ensures r.Some? <==> key in store
      ensures r.Some? ==> r.value == store[key]
    {
      if key in store then Some(store[key]) else None
    }

    /** `remove`: drops the key and returns the value it had, if any; the log is unchanged. */
    method Remove(key: string) returns (r: Option<string>)
      modifies this
      ensures r == old(Get(key))
      ensures store == old(store) - {key} && log == old(log)
      ensures Get(key) == None
      ensures forall k :: k != key ==> Get(k) == old(Get(k))
    {
      r := Get(key);
      store := store - {key};
    }

    /** `log`: appends one message at the end; the store is unchanged. */
    method Log(msg: string)
      modifies this
      ensures log == old(log) + [msg] && store == old(store)
    {
      log := log + [msg];
    }

    /** `logs`: every message in the order it was logged. */
    function Logs(): (r: seq<string>)
      reads this
      ensures |r| == |log| && forall i :: 0 <= i < |log| ==> r[i] == log[i]
    {
      log
    }

    /** `clear_logs`: empties the log and keeps the store. */
    method ClearLogs()
      modifies this
      ensures log == [] && store == old(store)
    {
      log := [];
    }

    /** `clear`: empties both the store and the log. */
    method Clear()
      modifies this
      ensures log == [] && store == map[]
    {
      store := map[];
      log := [];
    }
  }

  // ---------------------------------------------------------------------
  // The context's own tests, as scenarios over a fresh context
  // ---------------------------------------------------------------------

  /**
   * Set, overwrite, look up and remove: the second write wins, a missing
   * key reads as none, and a removed key is gone.
   */
  method StoreScenario(p: Provider) returns (afterSet: Option<string>, afterOverwrite: Option<string>,
                                             missing: Option<string>, removed: Option<string>,
                                             afterRemove: Option<string>, removedAgain: Option<string>)
    ensures afterSet == Some("first") && afterOverwrite == Some("second")
    ensures missing == None
    ensures removed == Some("second") && afterRemove == None && removedAgain == None
  {
    var ctx := new Ctx(p);
    ctx.Set("key", "first");
    afterSet := ctx.Get("key");
    ctx.Set("key", "second");
    afterOverwrite := ctx.Get("key");
    missing := ctx.Get("nope");
    removed := ctx.Remove("key");
    afterRemove := ctx.Get("key");
    removedAgain := ctx.Remove("key");
  }

  /** Three logged messages come back in order; clearing the log keeps the store, clearing all empties both. */
  method LogScenario(p: Provider) returns (logged: seq<string>, afterClearLogs: seq<string>,
                                           keptValue: Option<string>, afterClear: seq<string>,
                                           clearedValue: Option<string>)
    ensures logged == ["first", "second", "third"]
    ensures afterClearLogs == [] && keptValue == Some("value")
    ensures afterClear == [] && clearedValue == None
  {
    var ctx := new Ctx(p);
    ctx.Log("first");
    ctx.Log("second");
    ctx.Log("third");
    logged := ctx.Logs();
    ctx.Set("key", "value");
    ctx.ClearLogs();
    afterClearLogs := ctx.Logs();
    keptValue := ctx.Get("key");
    ctx.Log("msg");
    ctx.Clear();
    afterClear := ctx.Logs();
    clearedValue := ctx.Get("key");
  }
}
