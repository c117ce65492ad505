/** Startup reconciliation of the stored voice configuration with the environment:
    each variable that is set overrides its field when it differs, with three
    exceptions: the API key only fills an empty one, timeouts must parse as integers,
    and the model URL is chosen by the (already overridden) provider. A flag records
    whether the voice configuration has to be saved. */
module Startup {
  import opened Common

  /** The stored voice configuration, as far as the environment reaches it. */
  datatype Config = Config(
    webhookSecret: Option<string>, sttUrl: Option<string>, ttsUrl: Option<string>,
    llmProvider: Option<string>, llmUrl: Option<string>, llmModel: Option<string>,
    voiceId: Option<string>, llmApiKey: Option<string>, llmTimeout: Option<int>,
    sttTimeout: Option<int>, ttsTimeout: Option<int>, systemPrompt: Option<string>,
    sendContext: Option<bool>, rtpCodec: Option<string>)

  /** The members of the `telnyx` provider record the environment reaches. */
  datatype Telnyx = Telnyx(baseUrl: Option<string>, webhookSecret: Option<string>)

  type Env = map<string, string>

  /** `os.getenv(name)`. */
  function Get(env: Env, name: string): Option<string> {
    if name in env then Some(env[name]) else None
  }

  // ---------------------------------------------------------------------
  // The model URL

  /** Append `suffix` unless the URL already ends with it, dropping trailing slashes first. */
  function WithSuffix(url: string, suffix: string): (r: string)
    ensures EndsWith(r, suffix)
  {
    if EndsWith(url, suffix) then url
    else
      var r := RStripChar(url, '/') + suffix;
      assert r[|r| - |suffix|..] == suffix;
      r
  }

  /** The URL the environment asks for: the provider's own variable for `ollama` and
      `openwebui`, normalised to its API path, else `LLM_URL`. */
  function ResolveLlmUrl(provider: Option<string>, env: Env): (r: Option<string>)
    ensures r.Some? ==> r.value != ""
  {
    var chosen :=
      if provider == Some("ollama") && Truthy(Get(env, "OLLAMA_URL")) then
        Some(WithSuffix(env["OLLAMA_URL"], "/v1"))
      else if provider == Some("openwebui") && Truthy(Get(env, "OPEN_WEBUI_URL")) then
        Some(WithSuffix(env["OPEN_WEBUI_URL"], "/api/v1"))
      else if Truthy(Get(env, "LLM_URL")) then Get(env, "LLM_URL")
      else None;
    if !Truthy(chosen) && Truthy(Get(env, "LLM_URL")) then Get(env, "LLM_URL") else chosen
  }

  /** The last fallback to `LLM_URL` never changes the choice: the three cases already
      decide it. */
  lemma ResolveLlmUrlCases(provider: Option<string>, env: Env)
    ensures provider == Some("ollama") && Truthy(Get(env, "OLLAMA_URL")) ==>
      ResolveLlmUrl(provider, env) == Some(WithSuffix(env["OLLAMA_URL"], "/v1"))
    ensures provider == Some("openwebui") && Truthy(Get(env, "OPEN_WEBUI_URL")) ==>
      ResolveLlmUrl(provider, env) == Some(WithSuffix(env["OPEN_WEBUI_URL"], "/api/v1"))
    ensures !(provider == Some("ollama") && Truthy(Get(env, "OLLAMA_URL"))) &&
            !(provider == Some("openwebui") && Truthy(Get(env, "OPEN_WEBUI_URL"))) ==>
      ResolveLlmUrl(provider, env) == (if Truthy(Get(env, "LLM_URL")) then Get(env, "LLM_URL") else None)
  {
    if provider == Some("ollama") && Truthy(Get(env, "OLLAMA_URL")) {
      assert WithSuffix(env["OLLAMA_URL"], "/v1") != "";
    }
  }

  /** A URL that ends with `/v1/` gets a second `/v1`. */
  lemma TrailingSlashDoublesSuffix(base: string)
    ensures WithSuffix(base + "/v1/", "/v1") == base + "/v1/v1"
  {
    var u := base + "/v1/";
    assert u[|u| - 1] == '/';
    assert !EndsWith(u, "/v1") by { assert u[|u| - 3..][2] == '/'; }
    assert u == (base + "/v1") + ['/'];
    RStripCharSuffix(base + "/v1", '/');
    var t := base + "/v1";
    assert t[|t| - 1] == '1';
    assert RStripChar(t, '/') == t;
  }

  /** Normalising twice is normalising once. */
  lemma WithSuffixIdempotent(url: string, suffix: string)
    ensures WithSuffix(WithSuffix(url, suffix), suffix) == WithSuffix(url, suffix)
  {
  }

  // ---------------------------------------------------------------------
  // The steps

  /** A field overridden by a variable that is set and differs. */
  function Override<T(==)>(current: Option<T>, value: Option<T>, active: bool): (r: (Option<T>, bool))
    ensures r.1 <==> active && current != value
    ensures r.0 == if r.1 then value else current
  {
    if active && current != value then (value, true) else (current, false)
  }

  function OverrideText(current: Option<string>, value: Option<string>): (Option<string>, bool) {
    Override(current, value, Truthy(value))
  }

  /** A timeout overridden by a variable that parses as an integer. */
  function OverrideTimeout(current: Option<int>, value: Option<string>): (r: (Option<int>, bool))
    ensures !Truthy(value) || ParseInt(value.value).None? ==> r == (current, false)
  {
    if Truthy(value) then
      match ParseInt(value.value)
      case None => (current, false)
      case Some(v) => Override(current, Some(v), true)
    else (current, false)
  }

  /** The result of the whole reconciliation. */
  datatype Result = Result(config: Config, updated: bool, telnyx: Option<Telnyx>)

  /** `BASE_URL` and `WEBHOOK_SECRET` reach the telnyx provider record directly. */
  function TelnyxAfter(env: Env, t: Option<Telnyx>): (r: Option<Telnyx>)
    ensures r.None? <==> t.None?
  {
    if t.None? then None
    else
      var base := if Truthy(Get(env, "BASE_URL")) then Get(env, "BASE_URL") else t.value.baseUrl;
      var secret := if Truthy(Get(env, "WEBHOOK_SECRET")) then Get(env, "WEBHOOK_SECRET") else t.value.webhookSecret;
      Some(Telnyx(base, secret))
  }

  /** The webhook secret: the variable's when set, else a new one for an empty field. */
  function SecretStep(c: Config, env: Env, newSecret: string): (r: (Config, bool))
    ensures r.0 == c.(webhookSecret := r.0.webhookSecret)
    ensures r.0.webhookSecret != c.webhookSecret ==> r.1
    ensures r.1 && newSecret != "" ==> r.0.webhookSecret != c.webhookSecret
  {
    var s := Get(env, "WEBHOOK_SECRET");
    if Truthy(s) then
      var (v, u) := Override(c.webhookSecret, s, true);
      (c.(webhookSecret := v), u)
    else if !Truthy(c.webhookSecret) then (c.(webhookSecret := Some(newSecret)), true)
    else (c, false)
  }

  function UrlsStep(c: Config, env: Env): (r: (Config, bool))
    ensures r.0 == c.(sttUrl := r.0.sttUrl, ttsUrl := r.0.ttsUrl)
    ensures r.1 <==> r.0.sttUrl != c.sttUrl || r.0.ttsUrl != c.ttsUrl
  {
    var (stt, u1) := OverrideText(c.sttUrl, Get(env, "STT_URL"));
    var (tts, u2) := OverrideText(c.ttsUrl, Get(env, "TTS_URL"));
    (c.(sttUrl := stt, ttsUrl := tts), u1 || u2)
  }

  /** The provider first, then the URL it selects. */
  function LlmStep(c: Config, env: Env): (r: (Config, bool))
    ensures r.0 == c.(llmProvider := r.0.llmProvider, llmUrl := r.0.llmUrl)
    ensures r.1 <==> r.0.llmProvider != c.llmProvider || r.0.llmUrl != c.llmUrl
  {
    var (provider, u1) := OverrideText(c.llmProvider, Get(env, "DEFAULT_LLM_PROVIDER"));
    var (url, u2) := OverrideText(c.llmUrl, ResolveLlmUrl(provider, env));
    (c.(llmProvider := provider, llmUrl := url), u1 || u2)
  }

  /** Model, voice, and the key, which only fills an empty field. */
  function ModelStep(c: Config, env: Env, encrypt: string -> string): (r: (Config, bool))
    ensures r.0 == c.(llmModel := r.0.llmModel, voiceId := r.0.voiceId, llmApiKey := r.0.llmApiKey)
    ensures r.0.llmModel != c.llmModel || r.0.voiceId != c.voiceId || r.0.llmApiKey != c.llmApiKey ==> r.1
    ensures r.1 && (Truthy(Get(env, "LLM_API_KEY")) ==> encrypt(env["LLM_API_KEY"]) != "") ==>
      r.0.llmModel != c.llmModel || r.0.voiceId != c.voiceId || r.0.llmApiKey != c.llmApiKey
  {
    var (model, u1) := OverrideText(c.llmModel, Get(env, "LLM_MODEL"));
    var (voice, u2) := OverrideText(c.voiceId, Get(env, "TTS_VOICE_ID"));
    var k := Get(env, "LLM_API_KEY");
    var fill := Truthy(k) && !Truthy(c.llmApiKey);
    (c.(llmModel := model, voiceId := voice, llmApiKey := if fill then Some(encrypt(k.value)) else c.llmApiKey),
     u1 || u2 || fill)
  }

  function TimeoutStep(c: Config, env: Env): (r: (Config, bool))
    ensures r.0 == c.(llmTimeout := r.0.llmTimeout, sttTimeout := r.0.sttTimeout, ttsTimeout := r.0.ttsTimeout)
    ensures r.1 <==> r.0.llmTimeout != c.llmTimeout || r.0.sttTimeout != c.sttTimeout || r.0.ttsTimeout != c.ttsTimeout
  {
    var (llm, u1) := OverrideTimeout(c.llmTimeout, Get(env, "LLM_TIMEOUT"));
    var (stt, u2) := OverrideTimeout(c.sttTimeout, Get(env, "STT_TIMEOUT"));
    var (tts, u3) := OverrideTimeout(c.ttsTimeout, Get(env, "TTS_TIMEOUT"));
    (c.(llmTimeout := llm, sttTimeout := stt, ttsTimeout := tts), u1 || u2 || u3)
  }

  /** The prompt, the context flag (present at all: `true` in any case means on), the codec. */
  function BehaviourStep(c: Config, env: Env): (r: (Config, bool))
    ensures r.0 == c.(systemPrompt := r.0.systemPrompt, sendContext := r.0.sendContext, rtpCodec := r.0.rtpCodec)
    ensures r.1 <==> r.0.systemPrompt != c.systemPrompt || r.0.sendContext != c.sendContext || r.0.rtpCodec != c.rtpCodec
  {
    var (prompt, u1) := OverrideText(c.systemPrompt, Get(env, "SYSTEM_PROMPT"));
    var flag := Get(env, "SEND_CONVERSATION_CONTEXT");
    var (send, u2) := Override(c.sendContext, if flag.Some? then Some(Lower(flag.value) == "true") else None, flag.Some?);
    var (codec, u3) := OverrideText(c.rtpCodec, Get(env, "RTP_CODEC"));
    (c.(systemPrompt := prompt, sendContext := send, rtpCodec := codec), u1 || u2 || u3)
  }

  function Reconcile(env: Env, c: Config, t: Option<Telnyx>, newSecret: string, encrypt: string -> string): Result {
    var (c1, u1) := SecretStep(c, env, newSecret);
    var (c2, u2) := UrlsStep(c1, env);
    var (c3, u3) := LlmStep(c2, env);
    var (c4, u4) := ModelStep(c3, env, encrypt);
    var (c5, u5) := TimeoutStep(c4, env);
    var (c6, u6) := BehaviourStep(c5, env);
    Result(c6, u1 || u2 || u3 || u4 || u5 || u6, TelnyxAfter(env, t))
  }

  // ---------------------------------------------------------------------
  // What reconciliation promises

  /** A stored API key is never replaced; an empty one is filled from the environment. */
  lemma ApiKeyOnlyFills(env: Env, c: Config, t: Option<Telnyx>, newSecret: string, encrypt: string -> string)
    ensures var r := Reconcile(env, c, t, newSecret, encrypt).config;
      (Truthy(c.llmApiKey) ==> r.llmApiKey == c.llmApiKey) &&
      (!Truthy(c.llmApiKey) && Truthy(Get(env, "LLM_API_KEY")) ==> r.llmApiKey == Some(encrypt(env["LLM_API_KEY"]))) &&
      (!Truthy(Get(env, "LLM_API_KEY")) ==> r.llmApiKey == c.llmApiKey)
  {
  }

  /** A timeout that does not parse leaves the stored one; one that parses replaces it. */
  lemma TimeoutsParse(env: Env, c: Config, t: Option<Telnyx>, newSecret: string, encrypt: string -> string)
    ensures var r := Reconcile(env, c, t, newSecret, encrypt).config;
      var v := Get(env, "LLM_TIMEOUT");
      (!Truthy(v) || ParseInt(v.value).None? ==> r.llmTimeout == c.llmTimeout) &&
      (Truthy(v) && ParseInt(v.value).Some? ==> r.llmTimeout == ParseInt(v.value))
  {
  }

  /** Any value of `SEND_CONVERSATION_CONTEXT` decides the flag; only `true`, in any
      letter case, turns it on. */
  lemma SendContextFlag(env: Env, c: Config, t: Option<Telnyx>, newSecret: string, encrypt: string -> string)
    ensures var r := Reconcile(env, c, t, newSecret, encrypt).config;
      ("SEND_CONVERSATION_CONTEXT" in env ==> r.sendContext == Some(Lower(env["SEND_CONVERSATION_CONTEXT"]) == "true")) &&
      ("SEND_CONVERSATION_CONTEXT" !in env ==> r.sendContext == c.sendContext)
  {
  }

  /** A set `WEBHOOK_SECRET` becomes the secret of both records; without it an empty
      secret is replaced by a freshly generated one and a stored one kept. */
  lemma WebhookSecretRule(env: Env, c: Config, t: Option<Telnyx>, newSecret: string, encrypt: string -> string)
    ensures var r := Reconcile(env, c, t, newSecret, encrypt);
      Truthy(Get(env, "WEBHOOK_SECRET")) ==> r.config.webhookSecret == Get(env, "WEBHOOK_SECRET")
    ensures var r := Reconcile(env, c, t, newSecret, encrypt);
      Truthy(Get(env, "WEBHOOK_SECRET")) && t.Some? ==> r.telnyx.value.webhookSecret == Get(env, "WEBHOOK_SECRET")
    ensures var r := Reconcile(env, c, t, newSecret, encrypt);
      (!Truthy(Get(env, "WEBHOOK_SECRET")) && !Truthy(c.webhookSecret) ==> r.config.webhookSecret == Some(newSecret)) &&
      (!Truthy(Get(env, "WEBHOOK_SECRET")) && Truthy(c.webhookSecret) ==> r.config.webhookSecret == c.webhookSecret)
  {
  }

  /** The model URL follows the provider as overridden, and is only replaced by a
      URL the environment resolves. */
  lemma LlmUrlRule(env: Env, c: Config, t: Option<Telnyx>, newSecret: string, encrypt: string -> string)
    ensures var r := Reconcile(env, c, t, newSecret, encrypt).config;
      var u := ResolveLlmUrl(r.llmProvider, env);
      (u.Some? ==> r.llmUrl == u) && (u.None? ==> r.llmUrl == c.llmUrl) &&
      r.llmProvider == (if Truthy(Get(env, "DEFAULT_LLM_PROVIDER")) then Get(env, "DEFAULT_LLM_PROVIDER") else c.llmProvider)
  {
  }

  /** The configuration is saved exactly when it changed (given that encryption and
      fresh secrets are never empty). */
  lemma UpdatedIffChanged(env: Env, c: Config, t: Option<Telnyx>, newSecret: string, encrypt: string -> string)
    requires newSecret != ""
    requires Truthy(Get(env, "LLM_API_KEY")) ==> encrypt(env["LLM_API_KEY"]) != ""
    ensures var r := Reconcile(env, c, t, newSecret, encrypt); r.updated <==> r.config != c
  {
    var (c1, u1) := SecretStep(c, env, newSecret);
    var (c2, u2) := UrlsStep(c1, env);
    var (c3, u3) := LlmStep(c2, env);
    var (c4, u4) := ModelStep(c3, env, encrypt);
    var (c5, u5) := TimeoutStep(c4, env);
    var (c6, u6) := BehaviourStep(c5, env);
    // The steps write disjoint fields, so no change is undone by a later step.
    assert c6.webhookSecret == c1.webhookSecret;
    assert c6.sttUrl == c2.sttUrl && c6.ttsUrl == c2.ttsUrl;
    assert c6.llmProvider == c3.llmProvider && c6.llmUrl == c3.llmUrl;
    assert c6.llmModel == c4.llmModel && c6.voiceId == c4.voiceId && c6.llmApiKey == c4.llmApiKey;
    assert c6.llmTimeout == c5.llmTimeout && c6.sttTimeout == c5.sttTimeout && c6.ttsTimeout == c5.ttsTimeout;
  }

  /** Starting again with the same environment changes nothing more. */
  lemma ReconcileIdempotent(env: Env, c: Config, t: Option<Telnyx>, newSecret: string, newSecret2: string,
                            encrypt: string -> string)
    requires newSecret != "" && newSecret2 != ""
    requires Truthy(Get(env, "LLM_API_KEY")) ==> encrypt(env["LLM_API_KEY"]) != ""
    ensures var r := Reconcile(env, c, t, newSecret, encrypt);
      var again := Reconcile(env, r.config, r.telnyx, newSecret2, encrypt);
      again.config == r.config && !again.updated && again.telnyx == r.telnyx
  {
    var r := Reconcile(env, c, t, newSecret, encrypt);
    var again := Reconcile(env, r.config, r.telnyx, newSecret2, encrypt);
    UpdatedIffChanged(env, r.config, r.telnyx, newSecret2, encrypt);
    LlmUrlRule(env, c, t, newSecret, encrypt);
    LlmUrlRule(env, r.config, r.telnyx, newSecret2, encrypt);
  }

  // ---------------------------------------------------------------------
  // The record as the startup code changes it

  class Settings {
    var config: Config
    var telnyx: Option<Telnyx>

    constructor (c: Config, t: Option<Telnyx>)
      ensures config == c && telnyx == t
    {
      config := c;
      telnyx := t;
    }

    /** The reconciliation, step by step. */
    method ApplyEnvironment(env: Env, newSecret: string, encrypt: string -> string) returns (updated: bool)
      modifies this
      ensures Result(config, updated, telnyx) == Reconcile(env, old(config), old(telnyx), newSecret, encrypt)
    {
      var t := ApplyTelnyx(telnyx, env);
      var c1, u1 := ApplySecret(config, env, newSecret);
      var c2, u2 := ApplyUrls(c1, env);
      var c3, u3 := ApplyLlm(c2, env);
      var c4, u4 := ApplyModel(c3, env, encrypt);
      var c5, u5 := ApplyTimeouts(c4, env);
      var c6, u6 := ApplyBehaviour(c5, env);
      updated := u1 || u2 || u3 || u4 || u5 || u6;
      config, telnyx := c6, t;
    }
  }

  /** The Telnyx record follows `BASE_URL` and `WEBHOOK_SECRET` when they are set. */
  method ApplyTelnyx(t: Option<Telnyx>, env: Env) returns (t': Option<Telnyx>)
    ensures t' == TelnyxAfter(env, t)
  {
    t' := t;
    var base := Get(env, "BASE_URL");
    if Truthy(base) && t'.Some? && t'.value.baseUrl != base {
      t' := Some(t'.value.(baseUrl := base));
    }
    var secret := Get(env, "WEBHOOK_SECRET");
    if Truthy(secret) && t'.Some? && t'.value.webhookSecret != secret {
      t' := Some(t'.value.(webhookSecret := secret));
    }
  }

  method ApplySecret(c: Config, env: Env, newSecret: string) returns (c': Config, updated: bool)
    ensures (c', updated) == SecretStep(c, env, newSecret)
  {
    c' := c;
    updated := false;
    var secret := Get(env, "WEBHOOK_SECRET");
    if Truthy(secret) {
      if c'.webhookSecret != secret {
        c' := c'.(webhookSecret := secret);
        updated := true;
      }
    } else if !Truthy(c'.webhookSecret) {
      c' := c'.(webhookSecret := Some(newSecret));
      updated := true;
    }
  }

  method ApplyUrls(c: Config, env: Env) returns (c': Config, updated: bool)
    ensures (c', updated) == UrlsStep(c, env)
  {
    c' := c;
    updated := false;
    var stt := Get(env, "STT_URL");
    if Truthy(stt) && c'.sttUrl != stt {
      c' := c'.(sttUrl := stt);
      updated := true;
    }
    var tts := Get(env, "TTS_URL");
    if Truthy(tts) && c'.ttsUrl != tts {
      c' := c'.(ttsUrl := tts);
      updated := true;
    }
  }

  method ApplyLlm(c: Config, env: Env) returns (c': Config, updated: bool)
    ensures (c', updated) == LlmStep(c, env)
  {
    c' := c;
    updated := false;
    var provider := Get(env, "DEFAULT_LLM_PROVIDER");
    if Truthy(provider) && c'.llmProvider != provider {
      c' := c'.(llmProvider := provider);
      updated := true;
    }
    var url := ResolveLlmUrl(c'.llmProvider, env);
    if Truthy(url) && c'.llmUrl != url {
      c' := c'.(llmUrl := url);
      updated := true;
    }
  }

  method ApplyModel(c: Config, env: Env, encrypt: string -> string) returns (c': Config, updated: bool)
    ensures (c', updated) == ModelStep(c, env, encrypt)
  {
    c' := c;
    updated := false;
    var model := Get(env, "LLM_MODEL");
    if Truthy(model) && c'.llmModel != model {
      c' := c'.(llmModel := model);
      updated := true;
    }
    var voice := Get(env, "TTS_VOICE_ID");
    if Truthy(voice) && c'.voiceId != voice {
      c' := c'.(voiceId := voice);
      updated := true;
    }
    var key := Get(env, "LLM_API_KEY");
    if Truthy(key) && !Truthy(c'.llmApiKey) {
      c' := c'.(llmApiKey := Some(encrypt(key.value)));
      updated := true;
    }
  }

  /** One timeout: replaced when the variable parses as an integer and differs. */
  method ApplyTimeout(current: Option<int>, value: Option<string>) returns (t: Option<int>, updated: bool)
    ensures (t, updated) == OverrideTimeout(current, value)
  {
    t := current;
    updated := false;
    if Truthy(value) {
      var n := ParseInt(value.value);
      if n.Some? && current != n {
        t := n;
        updated := true;
      }
    }
  }

  method ApplyTimeouts(c: Config, env: Env) returns (c': Config, updated: bool)
    ensures (c', updated) == TimeoutStep(c, env)
  {
    var llm, u1 := ApplyTimeout(c.llmTimeout, Get(env, "LLM_TIMEOUT"));
    var stt, u2 := ApplyTimeout(c.sttTimeout, Get(env, "STT_TIMEOUT"));
    var tts, u3 := ApplyTimeout(c.ttsTimeout, Get(env, "TTS_TIMEOUT"));
    c' := c.(llmTimeout := llm, sttTimeout := stt, ttsTimeout := tts);
    updated := u1 || u2 || u3;
  }

  method ApplyBehaviour(c: Config, env: Env) returns (c': Config, updated: bool)
    ensures (c', updated) == BehaviourStep(c, env)
  {
    c' := c;
    updated := false;
    var prompt := Get(env, "SYSTEM_PROMPT");
    if Truthy(prompt) && c'.systemPrompt != prompt {
      c' := c'.(systemPrompt := prompt);
      updated := true;
    }
    var flag := Get(env, "SEND_CONVERSATION_CONTEXT");
    if flag.Some? {
      var on := Lower(flag.value) == "true";
      if c'.sendContext != Some(on) {
        c' := c'.(sendContext := Some(on));
        updated := true;
      }
    }
    var codec := Get(env, "RTP_CODEC");
    if Truthy(codec) && c'.rtpCodec != codec {
      c' := c'.(rtpCodec := codec);
      updated := true;
    }
  }
}
