/** The older session script at the repository root (auth.js): the whole
    profile lives in the browser. Updates are merged into the cache, and
    login writes the mock user straight into the cache. The Google token
    client is a parameter: whether it was initialised. */
module LegacyAuth {
  import opened Wrappers
  import opened Wire
  import opened SessionStore

  /** The mock table of this script: it has no `google` entry. */
  const MockUsers: map<string, Object> := map[
    "apple" := map["name" := Str("Apple User"), "email" := Str("user@icloud.com"),
                   "provider" := Str("Apple"), "avatar" := Null],
    "naver" := map["name" := Str("네이버 회원"), "email" := Str("naver@example.com"),
                   "provider" := Str("Naver"), "avatar" := Null],
    "kakao" := map["name" := Str("카카오 회원"), "email" := Str("kakao@example.com"),
                   "provider" := Str("Kakao"), "avatar" := Null]
  ]

  /** `updateUser`: without a session it returns `undefined` and writes
      nothing; otherwise the cache becomes the override-merge of the update
      into the cached user, which is also returned. */
  function UpdateUser(store: Store, updates: Object): (r: (Outcome, Store))
    ensures store.None? ==> r == (Undefined, None)
    ensures store.Some? ==>
              && r.1.Some? && r.0 == Returned(r.1.value)
              && r.1.value.Keys == store.value.Keys + updates.Keys
              && (forall k | k in updates :: r.1.value[k] == updates[k])
              && (forall k | k in store.value && k !in updates :: r.1.value[k] == store.value[k])
  {
    match store
    case None => (Undefined, None)
    case Some(current) =>
      var updated := Merge(current, updates);
      (Returned(updated), Some(updated))
  }

  /** `{ ...this.mockUsers[provider] }`: the mock user's own fields, or
      `{}` when the lookup yields `undefined` or an inherited member
      (spreading either copies nothing). */
  function SpreadMock(provider: string): (o: Object)
    ensures provider in MockUsers ==> o == MockUsers[provider]
    ensures provider !in MockUsers ==> o == map[]
  {
    if provider in MockUsers then MockUsers[provider] else map[]
  }

  /** `login(provider)` as written. For `google` the promise is left
      pending while the token client runs, or rejected when there is none.
      Every other name resolves, because the spread object it checks is
      always truthy: an unknown provider logs in as `{ loginTime }`. */
  function Login(store: Store, provider: string, hasGoogleClient: bool, now: string): (r: (Outcome, Store))
    ensures provider == "google" && hasGoogleClient ==> r == (Pending, store)
    ensures provider == "google" && !hasGoogleClient ==>
              r == (Thrown("Google SDK not loaded"), store)
    ensures provider != "google" ==>
              && r.1.Some? && r.0 == Returned(r.1.value)
              && r.1.value.Keys == SpreadMock(provider).Keys + {"loginTime"}
              && r.1.value["loginTime"] == Str(now)
              && (forall k | k in SpreadMock(provider) && k != "loginTime" ::
                    r.1.value[k] == SpreadMock(provider)[k])
  {
    if provider == "google" then
      if hasGoogleClient then (Pending, store)
      else (Thrown("Google SDK not loaded"), store)
    else
      var user := SpreadMock(provider)["loginTime" := Str(now)];
      (Returned(user), Some(user))
  }

  /** The unknown-provider branch cannot run: an unknown name resolves
      with an object whose only field is `loginTime`, and that object
      becomes the session. */
  lemma UnknownProviderResolves(store: Store, provider: string, hasGoogleClient: bool, now: string)
    requires provider != "google" && provider !in MockUsers
    ensures Login(store, provider, hasGoogleClient, now) ==
              (Returned(map["loginTime" := Str(now)]), Some(map["loginTime" := Str(now)]))
  {
  }

  /** `login` with the unknown-provider check the code evidently intends:
      a name outside the mock table (other than `google`) rejects and
      writes no session; everything else is as in `Login`. */
  function LoginRejectingUnknown(store: Store, provider: string, hasGoogleClient: bool, now: string): (r: (Outcome, Store))
    ensures provider != "google" && provider !in MockUsers ==>
              r == (Thrown("Login failed: Unknown provider"), store)
    ensures provider in MockUsers ==>
              && r.1.Some? && r.0 == Returned(r.1.value)
              && r.1.value == MockUsers[provider]["loginTime" := Str(now)]
    ensures provider == "google" && hasGoogleClient ==> r == (Pending, store)
    ensures provider == "google" && !hasGoogleClient ==>
              r == (Thrown("Google SDK not loaded"), store)
  {
    if provider != "google" && provider !in MockUsers then
      (Thrown("Login failed: Unknown provider"), store)
    else
      Login(store, provider, hasGoogleClient, now)
  }

  /** For the mock providers and for `google` the corrected login agrees
      with the written one. */
  lemma LoginRejectingUnknownAgrees(store: Store, provider: string, hasGoogleClient: bool, now: string)
    requires provider == "google" || provider in MockUsers
    ensures LoginRejectingUnknown(store, provider, hasGoogleClient, now) ==
            Login(store, provider, hasGoogleClient, now)
  {
  }
}
