/**
 * Configuration read from the process environment (src/config.js): three
 * required credentials and a trigger emoji with a default.
 */
module Config {
  import opened Wrappers

  /** `process.env`: every variable that is set maps to its string value. */
  type Env = map<string, string>

  const SlackBotTokenKey := "SLACK_BOT_TOKEN"
  const SlackSigningSecretKey := "SLACK_SIGNING_SECRET"
  const OpenAiApiKeyKey := "OPENAI_API_KEY"
  const TriggerEmojiKey := "TRIGGER_EMOJI"

  /** The required variables, in the order `validateConfig` lists them. */
  const RequiredKeys: seq<string> := [SlackBotTokenKey, SlackSigningSecretKey, OpenAiApiKeyKey]

  const DefaultTriggerEmoji := "question"
  const InvalidConfigMessage := "Invalid configuration - check environment variables"

  datatype AppConfig = AppConfig(
    botToken: string,
    signingSecret: string,
    openAiApiKey: string,
    triggerEmoji: string)

  /** `process.env[key]` is truthy: set and not empty. */
  predicate IsSet(env: Env, key: string) {
    key in env && env[key] != ""
  }

  /** `a` is `b` with some elements removed, the rest kept in order. */
  predicate IsSubsequence(a: seq<string>, b: seq<string>)
    decreases |b|
  {
    if a == [] then true
    else if b == [] then false
    else if a[0] == b[0] then IsSubsequence(a[1..], b[1..])
    else IsSubsequence(a, b[1..])
  }

  /** `keys.filter(key => !process.env[key])`. */
  function MissingKeys(env: Env, keys: seq<string>): (missing: seq<string>)
    ensures forall k :: k in missing <==> k in keys && !IsSet(env, k)
    ensures IsSubsequence(missing, keys)
    ensures |missing| <= |keys|
    decreases |keys|
  {
    if keys == [] then []
    else
      var rest := MissingKeys(env, keys[1..]);
      if IsSet(env, keys[0]) then
        assert rest != [] ==> rest[0] in keys[1..] && rest[0] != keys[0];
        rest
      else
        var missing := [keys[0]] + rest;
        assert missing[1..] == rest;
        missing
  }

  /**
   * The filter keeps every occurrence of an unset key and drops every
   * occurrence of a set one, so repeated keys are counted as often as listed.
   */
  lemma {:induction false} MissingKeysCounts(env: Env, keys: seq<string>)
    ensures forall k :: multiset(MissingKeys(env, keys))[k] == if IsSet(env, k) then 0 else multiset(keys)[k]
    decreases |keys|
  {
    if keys != [] {
      MissingKeysCounts(env, keys[1..]);
      assert keys == [keys[0]] + keys[1..];
    }
  }

  /** `validateConfig`: no required variable is missing. */
  function ValidateConfig(env: Env): (valid: bool)
    ensures valid <==> forall k :: k in RequiredKeys ==> IsSet(env, k)
    ensures valid <==>
      IsSet(env, SlackBotTokenKey) && IsSet(env, SlackSigningSecretKey) && IsSet(env, OpenAiApiKeyKey)
  {
    var missing := MissingKeys(env, RequiredKeys);
    assert missing != [] ==> missing[0] in missing;
    missing == []
  }

  /** `process.env.TRIGGER_EMOJI || 'question'`. */
  function TriggerEmoji(env: Env): (emoji: string)
    ensures emoji != ""
  {
    if IsSet(env, TriggerEmojiKey) then env[TriggerEmojiKey] else DefaultTriggerEmoji
  }

  /** `getConfig`: the configuration object, or the Error it throws when validation fails. */
  function GetConfig(env: Env): (r: Outcome<AppConfig>)
    ensures r.Ok? <==> ValidateConfig(env)
    ensures r.Fail? ==> r.message == InvalidConfigMessage
    ensures r.Ok? ==> r.value.triggerEmoji == TriggerEmoji(env)
    ensures r.Ok? ==>
      && r.value.botToken == env[SlackBotTokenKey]
      && r.value.signingSecret == env[SlackSigningSecretKey]
      && r.value.openAiApiKey == env[OpenAiApiKeyKey]
  {
    if !ValidateConfig(env) then Fail(InvalidConfigMessage)
    else
      assert SlackBotTokenKey in RequiredKeys && SlackSigningSecretKey in RequiredKeys
        && OpenAiApiKeyKey in RequiredKeys;
      Ok(AppConfig(env[SlackBotTokenKey], env[SlackSigningSecretKey], env[OpenAiApiKeyKey],
                   TriggerEmoji(env)))
  }

  /** The missing list names exactly the required variables that are unset or empty, in declared order. */
  lemma MissingRequiredKeys(env: Env)
    ensures var missing := MissingKeys(env, RequiredKeys);
      && |missing| <= 3
      && (SlackBotTokenKey in missing <==> !IsSet(env, SlackBotTokenKey))
      && (SlackSigningSecretKey in missing <==> !IsSet(env, SlackSigningSecretKey))
      && (OpenAiApiKeyKey in missing <==> !IsSet(env, OpenAiApiKeyKey))
      && TriggerEmojiKey !in missing
  {
  }

  /** `TRIGGER_EMOJI` is optional: setting, clearing or removing it never changes whether validation passes. */
  lemma TriggerEmojiNeverRequired(env: Env, emoji: string)
    ensures ValidateConfig(env[TriggerEmojiKey := emoji]) == ValidateConfig(env)
    ensures ValidateConfig(env - {TriggerEmojiKey}) == ValidateConfig(env)
  {
    assert TriggerEmojiKey !in RequiredKeys;
    forall k | k in RequiredKeys
      ensures IsSet(env[TriggerEmojiKey := emoji], k) == IsSet(env, k)
      ensures IsSet(env - {TriggerEmojiKey}, k) == IsSet(env, k)
    {
    }
  }

  /** The trigger emoji is the configured one when set, otherwise `'question'`. */
  lemma TriggerEmojiDefault(env: Env)
    ensures IsSet(env, TriggerEmojiKey) ==> TriggerEmoji(env) == env[TriggerEmojiKey]
    ensures !IsSet(env, TriggerEmojiKey) ==> TriggerEmoji(env) == "question"
  {
  }
}
