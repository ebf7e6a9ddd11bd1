/**
 * The mock authentication context: one flag, set by `Login`, cleared by
 * `Logout`, and the hook that refuses to run outside a provider.
 */
module AuthContext {
  import opened Wrappers

  /** The provider's state; `Login` and `Logout` are the only ways to change it. */
  class AuthProvider {
    var isAuthenticated: bool

    constructor ()
      ensures !isAuthenticated
    {
      isAuthenticated := false;
    }

    method Login()
      modifies this
      ensures isAuthenticated
    {
      isAuthenticated := true;
    }

    method Logout()
      modifies this
      ensures !isAuthenticated
    {
      isAuthenticated := false;
    }
  }

  const MissingProviderMessage: string := "useAuth must be used within an AuthProvider"

  /** The hook: the nearest provider's value, or the error thrown when there is none. */
  function UseAuth(context: Option<AuthProvider>): (r: Result<AuthProvider, string>)
    ensures r.Failure? <==> context.None?
    ensures r.Success? ==> r.value == context.value
    ensures r.Failure? ==> r.error == "useAuth must be used within an AuthProvider"
  {
    match context
    case None => Failure(MissingProviderMessage)
    case Some(provider) => Success(provider)
  }

  /** A call a screen makes on the context. */
  datatype Action = DoLogin | DoLogout

  /** The flag after `actions`, applied from `state` one at a time. */
  function Apply(state: bool, actions: seq<Action>): (authenticated: bool)
    decreases actions
  {
    if actions == [] then state
    else Apply(actions[0] == DoLogin, actions[1..])
  }

  /** After a session the flag is set exactly when the last call was `login`. */
  lemma {:induction false} ApplyIsLastAction(state: bool, actions: seq<Action>)
    ensures Apply(state, actions) == if actions == [] then state else actions[|actions| - 1] == DoLogin
    decreases actions
  {
    if actions != [] {
      ApplyIsLastAction(actions[0] == DoLogin, actions[1..]);
    }
  }

  /** Applying one more action: the flag then only depends on that action. */
  lemma {:induction false} ApplySnoc(state: bool, actions: seq<Action>, a: Action)
    ensures Apply(state, actions + [a]) == (a == DoLogin)
  {
    ApplyIsLastAction(state, actions + [a]);
  }

  /** `login` twice is `login` once, and so for `logout`. */
  lemma Idempotent(state: bool, a: Action)
    ensures Apply(state, [a, a]) == Apply(state, [a])
  {
  }

  /**
   * A session on a fresh provider: the calls are made one after another, and
   * the final flag is whether the last call was `login` (false when none was made).
   */
  method RunSession(actions: seq<Action>) returns (authenticated: bool)
    ensures authenticated == Apply(false, actions)
    ensures authenticated <==> |actions| > 0 && actions[|actions| - 1] == DoLogin
  {
    var provider := new AuthProvider();
    var i := 0;
    while i < |actions|
      invariant 0 <= i <= |actions|
      invariant provider.isAuthenticated == Apply(false, actions[..i])
    {
      if actions[i] == DoLogin {
        provider.Login();
      } else {
        provider.Logout();
      }
      ApplySnoc(false, actions[..i], actions[i]);
      assert actions[..i + 1] == actions[..i] + [actions[i]];
      i := i + 1;
    }
    assert actions[..i] == actions;
    authenticated := provider.isAuthenticated;
    ApplyIsLastAction(false, actions);
  }
}
