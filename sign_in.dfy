/** What the sign-in components share: the credentials form, the JSON body they post,
    and the record of what one submission does to the page, the store and the router. */
module SignIn {
  import opened Wrappers
  import opened JsValue
  import opened Record
  import opened Http
  import opened Validation
  import Text

  /** What one press of a sign-in button does: the requests sent in order, the
      `localStorage.setItem` calls in order, the `navigate` calls, and the final
      `error` state. */
  datatype Effect = Effect(requests: seq<Request>, writes: seq<(string, string)>, navigation: seq<string>, error: Json)

  /** The form's fields. */
  const Fields := ["username", "password"]

  /** The form holds both fields the validator reads. */
  predicate HasCredentials(form: Entries) {
    "username" in Keys(form) && "password" in Keys(form)
  }

  /** `validateForm`'s verdict on the form. */
  function CredentialsError(form: Entries): Option<string>
    requires HasCredentials(form)
  {
    SignInError(Lookup(form, "username"), Lookup(form, "password"))
  }

  /** The login body: the username trimmed, the password verbatim. */
  function Credentials(form: Entries): Json
    requires HasCredentials(form)
  {
    JObj(map["username" := JStr(Text.Trim(Lookup(form, "username"))), "password" := JStr(Lookup(form, "password"))])
  }

  /** A refused form: only the validator's message, and nothing sent or stored. */
  function Refusal(message: string): Effect {
    Effect([], [], [], JStr(message))
  }

  /** The TypeError thrown by reading a property of `null` or `undefined`: it carries
      no response and no error code. */
  const TypeError := Thrown("Cannot read properties of null")

  /** The `rememberMe` write, when the box is ticked. */
  function RememberWrites(remember: bool, key: string): seq<(string, string)> {
    if remember then [(key, "true")] else []
  }

  /** A blank form holds both fields. */
  lemma BlankHasCredentials()
    ensures HasCredentials(Blank(Fields))
  {
    assert Keys(Blank(Fields)) == Fields;
  }

  /** The body sends the username without surrounding white space, so a validated form
      never sends an empty username, and the password as typed. */
  lemma CredentialsSent(form: Entries)
    requires HasCredentials(form) && CredentialsError(form).None?
    ensures Credentials(form).props["username"].s != ""
    ensures Credentials(form).props["username"].s == Text.Trim(Credentials(form).props["username"].s)
    ensures Credentials(form).props["password"] == JStr(Lookup(form, "password")) != JStr("")
  {
    Text.TrimIdempotent(Lookup(form, "username"));
  }
}
