/**
 * The loopback API handler of the hub: the `admin_or_self` guard that
 * wraps each of its four HTTP methods, and the status each method sets
 * once the guard lets the request through.
 *
 * The signed-in user (`get_current_user`) and whether `find_user` finds
 * the named user are inputs.
 */
module AccessGuard {
  import opened Wrappers

  /** The signed-in user as the handler sees it. */
  datatype User = User(name: string, admin: bool)

  /** The four HTTP methods the handler serves. */
  datatype Verb = Post | Delete | Put | Get

  const Forbidden: int := 403
  const NotFound: int := 404
  const Created: int := 201

  /** The target user themself, or an administrator. */
  predicate AdminOrSelfHolds(current: User, name: string)
  {
    current.name == name || current.admin
  }

  /** The status a wrapped method sets when it runs. */
  function Handle(verb: Verb): (status: int)
    ensures status == Created
  {
    match verb
    case Post => Created
    case Delete => Created
    case Put => Created
    case Get => Created
  }

  /**
   * The status of a request for `name` through `admin_or_self`: the
   * guards run in order, and the first that fails decides the status.
   */
  function Respond(verb: Verb, current: Option<User>, name: string, found: bool): (status: int)
    ensures status == Forbidden <==> current.None? || !AdminOrSelfHolds(current.value, name)
    ensures status == NotFound <==> current.Some? && AdminOrSelfHolds(current.value, name) && !found
    ensures status == Created <==> current.Some? && AdminOrSelfHolds(current.value, name) && found
  {
    if current.None? then Forbidden
    else if !(current.value.name == name || current.value.admin) then Forbidden
    else if !found then NotFound
    else Handle(verb)
  }

  /** Without a signed-in user every request is refused with 403. */
  lemma AnonymousForbidden(verb: Verb, name: string, found: bool)
    ensures Respond(verb, None, name, found) == Forbidden
  {
  }

  /**
   * Authorisation comes before the existence check: a user who is not an
   * administrator gets 403 for any other name, whether or not that user
   * exists, so the status never reveals which names exist.
   */
  lemma AuthorisationBeforeExistence(verb: Verb, current: User, name: string)
    requires current.name != name && !current.admin
    ensures Respond(verb, Some(current), name, true) == Forbidden
    ensures Respond(verb, Some(current), name, false) == Forbidden
  {
  }

  /** The status does not depend on the HTTP method. */
  lemma SameForEveryVerb(v: Verb, w: Verb, current: Option<User>, name: string, found: bool)
    ensures Respond(v, current, name, found) == Respond(w, current, name, found)
  {
  }

  /** An administrator is refused only for a name that does not exist. */
  lemma AdminOnlyNotFound(verb: Verb, current: User, name: string, found: bool)
    requires current.admin
    ensures Respond(verb, Some(current), name, found) == (if found then Created else NotFound)
  {
  }
}
