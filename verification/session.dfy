/** What the client does with the reply of the user auth check (`fetchUser`),
    and the guard on the effect that pushes the cart to the server. */
module Session {
  import opened Wrappers
  import opened Cart

  /** The user record the auth check returns; `cartItems` may be missing. */
  datatype User = User(id: string, cartItems: Option<CartItems>)

  /** How the auth request ended: a reply with `success` and a user, a reply
      without `success`, or a thrown request error. A `success` reply that
      carries no user also ends as `RequestFailed`: reading its `cartItems`
      throws, and the handler's `catch` clears the user and keeps the cart. */
  datatype AuthReply = Authenticated(user: User) | NotAuthenticated | RequestFailed

  /** The part of the client state the auth check touches. */
  datatype ClientState = ClientState(user: Option<User>, cart: CartItems)

  /** `fetchUser` after its request settles: on success the user is set and the
      working cart is replaced wholesale by the server's (empty when missing);
      otherwise the user is cleared and the cart is left alone. */
  function OnAuthReply(s: ClientState, reply: AuthReply): (s': ClientState)
    ensures reply.Authenticated? ==> s'.user == Some(reply.user)
    ensures reply.Authenticated? && reply.user.cartItems.Some? ==> s'.cart == reply.user.cartItems.value
    ensures reply.Authenticated? && reply.user.cartItems.None? ==> s'.cart == map[]
    ensures !reply.Authenticated? ==> s'.user.None? && s'.cart == s.cart
  {
    match reply
    case Authenticated(u) => ClientState(Some(u), u.cartItems.GetOr(map[]))
    case NotAuthenticated => ClientState(None, s.cart)
    case RequestFailed => ClientState(None, s.cart)
  }

  /** The cart sync effect: with no user nothing is sent; with a user the whole
      working cart is sent, never a delta. */
  function SyncPayload(s: ClientState): (r: Option<CartItems>)
    ensures r.None? <==> s.user.None?
    ensures r.Some? ==> r.value == s.cart
  {
    if s.user.None? then None else Some(s.cart)
  }

  /** A successful auth check does not merge: the resulting cart is the same
      whatever the local cart was, and a local entry the server does not hold is dropped. */
  lemma AuthDiscardsLocalCart(s1: ClientState, s2: ClientState, u: User, id: string)
    requires id in s1.cart
    requires u.cartItems.None? || id !in u.cartItems.value
    ensures OnAuthReply(s1, Authenticated(u)).cart == OnAuthReply(s2, Authenticated(u)).cart
    ensures id !in OnAuthReply(s1, Authenticated(u)).cart
  {
  }

  /** The first push after a successful auth check sends back the server's own cart. */
  lemma FirstPushEchoesServerCart(s: ClientState, u: User)
    ensures SyncPayload(OnAuthReply(s, Authenticated(u))) == Some(u.cartItems.GetOr(map[]))
  {
  }

  /** A failed auth check keeps the local cart and clears the user, so the cart
      is not pushed while no user is set. */
  lemma FailedAuthStopsSync(s: ClientState, reply: AuthReply)
    requires !reply.Authenticated?
    ensures SyncPayload(OnAuthReply(s, reply)).None?
    ensures OnAuthReply(s, reply).cart == s.cart
  {
  }
}
