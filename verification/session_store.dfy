/** The browser-side session cache both auth scripts keep under the
    `auth_user` key, and what the two scripts share: the override-merge of
    an update into the cached user, and the guard for protected pages. */
module SessionStore {
  import opened Wrappers
  import opened Wire

  /** The cached user object. */
  type Session = Object

  /** What `getSession` returns: None when nothing is stored. */
  type Store = Option<Session>

  /** How a call into the auth script ends: it returns `undefined`, returns
      (or resolves with) a user, throws (or rejects) with a message, or
      leaves its promise pending. */
  datatype Outcome = Undefined | Returned(user: Session) | Thrown(message: string) | Pending

  /** `{ ...current, ...updates }`: the keys of `updates` take their new
      values, every other key of `current` keeps its value. */
  function Merge(current: Session, updates: Object): (m: Session)
    ensures m.Keys == current.Keys + updates.Keys
    ensures forall k | k in updates :: m[k] == updates[k]
    ensures forall k | k in current && k !in updates :: m[k] == current[k]
  {
    current + updates
  }

  /** Merging the same update twice is merging it once. */
  lemma MergeIdempotent(current: Session, updates: Object)
    ensures Merge(Merge(current, updates), updates) == Merge(current, updates)
  {
  }

  /** Two merges in a row are one merge of the later-wins union. */
  lemma MergeTwice(current: Session, first: Object, second: Object)
    ensures Merge(Merge(current, first), second) == Merge(current, Merge(first, second))
  {
  }

  /** What a protected page's guard yields: the user, and where the page
      is sent when there is none. */
  datatype Guard = Guard(user: Option<Session>, redirect: Option<string>)

  /** `checkAuth`: the stored user, or null together with a redirect to the
      login page. A stored object is always truthy, even an empty one. */
  function CheckAuth(store: Store): (g: Guard)
    ensures g.user.None? <==> store.None?
    ensures store.Some? ==> g.user == store && g.redirect.None?
    ensures store.None? ==> g.redirect == Some("index.html")
  {
    match store
    case None => Guard(None, Some("index.html"))
    case Some(user) => Guard(Some(user), None)
  }
}
