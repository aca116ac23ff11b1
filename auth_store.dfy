/** The client's session store (campus-chat/src/store/authStore.ts): the
    bearer token, the signed-in user's profile and whether that profile is
    being loaded. `undefined` is `None`. The profile's type is a parameter. */
module AuthStore {
  import opened Wrappers

  datatype AuthState<U> = AuthState(token: Option<string>, user: Option<U>, isLoadingProfile: bool)

  datatype Action<U> =
    | SetToken(newToken: Option<string>)
    | SetUser(newUser: Option<U>)
    | SetIsLoadingProfile(loading: bool)
    | Logout

  function Initial<U>(): (s: AuthState<U>)
  {
    AuthState(None, None, false)
  }

  /** The state after one action: each setter writes its own field only, and
      `logout` forgets the token and the user but not the loading flag. */
  function Apply<U>(s: AuthState<U>, a: Action<U>): (r: AuthState<U>)
    ensures r.token == (if a.SetToken? then a.newToken else if a.Logout? then None else s.token)
    ensures r.user == (if a.SetUser? then a.newUser else if a.Logout? then None else s.user)
    ensures r.isLoadingProfile == (if a.SetIsLoadingProfile? then a.loading else s.isLoadingProfile)
  {
    match a
    case SetToken(token) => s.(token := token)
    case SetUser(user) => s.(user := user)
    case SetIsLoadingProfile(loading) => s.(isLoadingProfile := loading)
    case Logout => s.(token := None, user := None)
  }

  /** Signed in: there is a token. */
  predicate SignedIn<U>(s: AuthState<U>)
  {
    s.token.Some?
  }

  /** `logout` is idempotent, whatever happened before it the result no
      longer holds credentials, and it commutes with the loading flag. */
  lemma LogoutIdempotent<U>(s: AuthState<U>, loading: bool)
    ensures Apply(Apply(s, Logout), Logout) == Apply(s, Logout)
    ensures !SignedIn(Apply(s, Logout)) && Apply(s, Logout).user.None?
    ensures Apply(Apply(s, Logout), SetIsLoadingProfile(loading)) == Apply(Apply(s, SetIsLoadingProfile(loading)), Logout)
  {
  }

  /** After a logout the state is the initial one except for the loading flag;
      from the initial state a logout changes nothing. */
  lemma LogoutReturnsToInitial<U>(s: AuthState<U>)
    ensures Apply(s, Logout) == Initial<U>().(isLoadingProfile := s.isLoadingProfile)
    ensures Apply(Initial<U>(), Logout) == Initial<U>()
  {
  }

  /** A logout undoes every token and user that was set before it. */
  lemma {:induction false} LogoutForgetsHistory<U>(s: AuthState<U>, actions: seq<Action<U>>)
    ensures var r := Apply(ApplyAll(s, actions), Logout);
            r.token.None? && r.user.None? && r == Apply(ApplyAll(s.(token := None, user := None), actions), Logout)
    decreases |actions|
  {
    if actions != [] {
      LogoutForgetsHistory(Apply(s, actions[0]), actions[1..]);
      LogoutForgetsHistory(s.(token := None, user := None), actions[1..]);
      var a := actions[0];
      assert Apply(s, a).(token := None, user := None) == Apply(s.(token := None, user := None), a).(token := None, user := None);
      ApplyAllErases(Apply(s, a), Apply(s.(token := None, user := None), a), actions[1..]);
    }
  }

  /** Two states that agree on the loading flag agree after the same actions
      and a logout. */
  lemma {:induction false} ApplyAllErases<U>(s: AuthState<U>, t: AuthState<U>, actions: seq<Action<U>>)
    requires s.isLoadingProfile == t.isLoadingProfile
    ensures Apply(ApplyAll(s, actions), Logout) == Apply(ApplyAll(t, actions), Logout)
    decreases |actions|
  {
    if actions != [] {
      ApplyAllErases(Apply(s, actions[0]), Apply(t, actions[0]), actions[1..]);
    }
  }

  /** A run of actions, first to last. */
  function ApplyAll<U>(s: AuthState<U>, actions: seq<Action<U>>): (r: AuthState<U>)
    decreases |actions|
  {
    if actions == [] then s else ApplyAll(Apply(s, actions[0]), actions[1..])
  }

  /** The store. */
  class Store<U> {
    var token: Option<string>
    var user: Option<U>
    var isLoadingProfile: bool

    function State(): AuthState<U>
      reads this
    {
      AuthState(token, user, isLoadingProfile)
    }

    constructor ()
      ensures token.None? && user.None? && !isLoadingProfile
      ensures State() == Initial()
    {
      token := None;
      user := None;
      isLoadingProfile := false;
    }

    method SetToken(newToken: Option<string>)
      modifies this
      ensures token == newToken && user == old(user) && isLoadingProfile == old(isLoadingProfile)
      ensures State() == Apply(old(State()), Action.SetToken(newToken))
    {
      token := newToken;
    }

    method SetUser(newUser: Option<U>)
      modifies this
      ensures user == newUser && token == old(token) && isLoadingProfile == old(isLoadingProfile)
      ensures State() == Apply(old(State()), Action.SetUser(newUser))
    {
      user := newUser;
    }

    method SetIsLoadingProfile(loading: bool)
      modifies this
      ensures isLoadingProfile == loading && token == old(token) && user == old(user)
      ensures State() == Apply(old(State()), Action.SetIsLoadingProfile(loading))
    {
      isLoadingProfile := loading;
    }

    method Logout()
      modifies this
      ensures token.None? && user.None? && isLoadingProfile == old(isLoadingProfile)
      ensures State() == Apply(old(State()), Action.Logout)
    {
      token := None;
      user := None;
    }
  }
}
