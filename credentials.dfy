/** Resolution of the OpenRouter API key at start-up. */
module Credentials {
  import opened Wrappers
  import opened Truthiness

  /**
   * `st.secrets.get(NAME) or os.getenv(NAME) or ""`: the platform secret
   * when it is truthy, otherwise the environment value when that is truthy,
   * otherwise the empty string.
   */
  function ResolveApiKey(secret: Option<string>, env: Option<string>): (key: string)
    ensures Truthy(secret) ==> key == secret.value
    ensures !Truthy(secret) && Truthy(env) ==> key == env.value
    ensures key == "" <==> !Truthy(secret) && !Truthy(env)
  {
    Or(Or(secret, env), Some("")).value
  }
}
