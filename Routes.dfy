/** The access policy the route files declare: each registered route runs
    `protect`, then optionally `authorize(roles...)`, then its handler.
    `protect` supplies the caller's role, or fails with 401 when there is no
    valid identity; `authorize` fails with 403 when the role is not listed. */
module Routes {
  import opened Seqs
  import opened Entities

  datatype Verb = Get | Post | Put | Delete

  /** The routers, by the prefix they are mounted under. */
  datatype Mount = AuthRoutes | ProductRoutes | CategoryRoutes | SupplierRoutes | UserRoutes

  /** The paths inside a router: `/`, `/:id`, `/:id/role`, and the auth paths. */
  datatype Path = Root | ById | RoleById | Signup | Login | UpdatePassword | Register

  datatype Route = Route(mount: Mount, verb: Verb, path: Path)

  /** A middleware step before the handler. */
  datatype Step = Protect | AuthorizeRoles(roles: seq<Role>)

  /** The middleware chain of each registered route; None when no route
      matches (so the framework answers 404 without running a handler). */
  function Chain(r: Route): Option<seq<Step>>
  {
    match r
    case Route(ProductRoutes, Get, Root) => Some([Protect])
    case Route(ProductRoutes, Post, Root) => Some([Protect, AuthorizeRoles([Admin, Staff])])
    case Route(ProductRoutes, Put, ById) => Some([Protect, AuthorizeRoles([Admin, Staff])])
    case Route(ProductRoutes, Delete, ById) => Some([Protect, AuthorizeRoles([Admin])])
    case Route(CategoryRoutes, Get, Root) => Some([Protect])
    case Route(CategoryRoutes, Post, Root) => Some([Protect, AuthorizeRoles([Admin])])
    case Route(CategoryRoutes, Put, ById) => Some([Protect, AuthorizeRoles([Admin])])
    case Route(CategoryRoutes, Delete, ById) => Some([Protect, AuthorizeRoles([Admin])])
    case Route(SupplierRoutes, Get, Root) => Some([Protect])
    case Route(SupplierRoutes, Post, Root) => Some([Protect, AuthorizeRoles([Admin])])
    case Route(SupplierRoutes, Delete, ById) => Some([Protect, AuthorizeRoles([Admin])])
    case Route(UserRoutes, Get, Root) => Some([Protect, AuthorizeRoles([Admin])])
    case Route(UserRoutes, Put, RoleById) => Some([Protect, AuthorizeRoles([Admin])])
    case Route(UserRoutes, Delete, ById) => Some([Protect, AuthorizeRoles([Admin])])
    case Route(AuthRoutes, Post, Signup) => Some([])
    case Route(AuthRoutes, Post, Login) => Some([])
    case Route(AuthRoutes, Put, UpdatePassword) => Some([Protect])
    case Route(AuthRoutes, Post, Register) => Some([Protect, AuthorizeRoles([Admin])])
    case _ => None
  }

  datatype Decision = NoRoute | Unauthenticated | Forbidden | Permit

  /** Runs the steps in order; the first failing step decides. `authorize`
      without an identity cannot admit anyone. */
  function RunChain(steps: seq<Step>, identity: Option<Role>): Decision
  {
    if steps == [] then Permit
    else
      match steps[0]
      case Protect =>
        if identity.None? then Unauthenticated else RunChain(steps[1..], identity)
      case AuthorizeRoles(roles) =>
        if identity.Some? && identity.value in roles then RunChain(steps[1..], identity) else Forbidden
  }

  /** Whether one step lets the request through. */
  predicate Admits(step: Step, identity: Option<Role>)
  {
    match step
    case Protect => identity.Some?
    case AuthorizeRoles(roles) => identity.Some? && identity.value in roles
  }

  /** A chain reaches the handler exactly when every step admits the
      request; otherwise its first failing step gives the refusal. */
  lemma {:induction false} RunChainSpec(steps: seq<Step>, identity: Option<Role>)
    ensures RunChain(steps, identity) == Permit <==> forall i :: 0 <= i < |steps| ==> Admits(steps[i], identity)
    ensures RunChain(steps, identity) != NoRoute
    ensures RunChain(steps, identity) == Unauthenticated ==> Protect in steps && identity.None?
    ensures RunChain(steps, identity) == Forbidden ==> exists rs :: AuthorizeRoles(rs) in steps
  {
    if steps != [] {
      var tail := steps[1..];
      RunChainSpec(tail, identity);
      assert forall i :: 0 < i < |steps| ==> steps[i] == tail[i - 1];
      assert (forall i :: 0 <= i < |steps| ==> Admits(steps[i], identity)) <==>
        Admits(steps[0], identity) && forall i :: 0 <= i < |tail| ==> Admits(tail[i], identity);
      assert steps[0] in steps;
      assert forall x :: x in tail ==> x in steps;
    }
  }

  /** The two chain shapes the route files use, evaluated. */
  lemma ShortChains(identity: Option<Role>, roles: seq<Role>)
    ensures RunChain([], identity) == Permit
    ensures RunChain([Protect], identity) == (if identity.None? then Unauthenticated else Permit)
    ensures RunChain([Protect, AuthorizeRoles(roles)], identity) ==
      (if identity.None? then Unauthenticated else if identity.value in roles then Permit else Forbidden)
  {
    assert [Protect][1..] == [];
    assert [Protect, AuthorizeRoles(roles)][1..] == [AuthorizeRoles(roles)];
    assert [AuthorizeRoles(roles)][1..] == [];
  }

  /** The decision for a request with that identity on that route. */
  function Authorize(identity: Option<Role>, r: Route): Decision
  {
    match Chain(r)
    case None => NoRoute
    case Some(steps) => RunChain(steps, identity)
  }

  // ---------------------------------------------------------------------
  // The policy in its own terms

  /** The routes anyone may call without a token. */
  predicate Public(r: Route)
  {
    r == Route(AuthRoutes, Post, Signup) || r == Route(AuthRoutes, Post, Login)
  }

  /** What each role may do: Admin everything; Staff may read products,
      categories and suppliers, create and update products, and change its
      own password. */
  predicate Allowed(role: Role, r: Route)
  {
    || role == Admin
    || (r.verb == Get && r.mount in {ProductRoutes, CategoryRoutes, SupplierRoutes})
    || (r.mount == ProductRoutes && r.verb in {Post, Put})
    || r == Route(AuthRoutes, Put, UpdatePassword)
  }

  /** The registered routes enforce exactly that policy: public routes
      admit everyone; every other route rejects a request without identity
      as unauthenticated, before any role check, and admits an identity
      exactly when its role is allowed, refusing it as forbidden otherwise. */
  lemma AuthorizeSpec(identity: Option<Role>, r: Route)
    ensures Authorize(identity, r) == NoRoute <==> Chain(r).None?
    ensures Chain(r).Some? && Public(r) ==> Authorize(identity, r) == Permit
    ensures Chain(r).Some? && !Public(r) && identity.None? ==> Authorize(identity, r) == Unauthenticated
    ensures Chain(r).Some? && !Public(r) && identity.Some? ==>
      (Authorize(identity, r) == Permit <==> Allowed(identity.value, r))
      && (Authorize(identity, r) != Permit ==> Authorize(identity, r) == Forbidden)
  {
    ShortChains(identity, [Admin]);
    ShortChains(identity, [Admin, Staff]);
  }

  /** Admin reaches every registered route. */
  lemma AdminReachesEveryRoute(r: Route)
    requires Chain(r).Some?
    ensures Authorize(Some(Admin), r) == Permit
  {
    AuthorizeSpec(Some(Admin), r);
  }

  // ---------------------------------------------------------------------
  // The route tables one by one

  /** product.route.js: listing needs a token only, create and update admit
      Admin and Staff, and delete admits Admin only. */
  lemma ProductRoutePolicy(identity: Option<Role>)
    ensures identity.None? ==> forall v, p :: Chain(Route(ProductRoutes, v, p)).Some? ==>
      Authorize(identity, Route(ProductRoutes, v, p)) == Unauthenticated
    ensures identity.Some? ==> Authorize(identity, Route(ProductRoutes, Get, Root)) == Permit
    ensures identity.Some? ==> Authorize(identity, Route(ProductRoutes, Post, Root)) == Permit
    ensures identity.Some? ==> Authorize(identity, Route(ProductRoutes, Put, ById)) == Permit
    ensures Authorize(Some(Admin), Route(ProductRoutes, Delete, ById)) == Permit
    ensures Authorize(Some(Staff), Route(ProductRoutes, Delete, ById)) == Forbidden
  {
    ShortChains(identity, [Admin]);
    ShortChains(identity, [Admin, Staff]);
    assert identity.Some? ==> identity.value == [Admin, Staff][0] || identity.value == [Admin, Staff][1];
  }

  /** category.route.js: listing needs a token only; create, update and
      delete are Admin only. */
  lemma CategoryRoutePolicy(identity: Option<Role>, v: Verb, p: Path)
    requires Chain(Route(CategoryRoutes, v, p)).Some?
    ensures identity.None? ==> Authorize(identity, Route(CategoryRoutes, v, p)) == Unauthenticated
    ensures v == Get && identity.Some? ==> Authorize(identity, Route(CategoryRoutes, v, p)) == Permit
    ensures v != Get && identity.Some? ==>
      (Authorize(identity, Route(CategoryRoutes, v, p)) == Permit <==> identity == Some(Admin))
    ensures v != Get ==> Authorize(Some(Staff), Route(CategoryRoutes, v, p)) == Forbidden
  {
    ShortChains(identity, [Admin]);
    ShortChains(identity, [Admin, Staff]);
  }

  /** supplier.route.js: listing needs a token only; create and delete are
      Admin only; there is no update route. */
  lemma SupplierRoutePolicy(identity: Option<Role>, v: Verb, p: Path)
    ensures Chain(Route(SupplierRoutes, Put, p)).None?
    ensures Chain(Route(SupplierRoutes, v, p)).Some? && identity.None? ==>
      Authorize(identity, Route(SupplierRoutes, v, p)) == Unauthenticated
    ensures identity.Some? ==> Authorize(identity, Route(SupplierRoutes, Get, Root)) == Permit
    ensures Chain(Route(SupplierRoutes, v, p)).Some? && v != Get ==>
      Authorize(Some(Admin), Route(SupplierRoutes, v, p)) == Permit
      && Authorize(Some(Staff), Route(SupplierRoutes, v, p)) == Forbidden
  {
    ShortChains(identity, [Admin]);
    ShortChains(identity, [Admin, Staff]);
  }

  /** user.route.js: every route is Admin only, Staff is refused on each. */
  lemma UserRoutePolicy(identity: Option<Role>, v: Verb, p: Path)
    requires Chain(Route(UserRoutes, v, p)).Some?
    ensures identity.None? ==> Authorize(identity, Route(UserRoutes, v, p)) == Unauthenticated
    ensures Authorize(Some(Admin), Route(UserRoutes, v, p)) == Permit
    ensures Authorize(Some(Staff), Route(UserRoutes, v, p)) == Forbidden
  {
    ShortChains(identity, [Admin]);
    ShortChains(identity, [Admin, Staff]);
  }

  /** auth.route.js: signup and login are public, changing a password needs
      a token but no role, registering a user is Admin only. */
  lemma AuthRoutePolicy(identity: Option<Role>)
    ensures Authorize(identity, Route(AuthRoutes, Post, Signup)) == Permit
    ensures Authorize(identity, Route(AuthRoutes, Post, Login)) == Permit
    ensures Authorize(identity, Route(AuthRoutes, Put, UpdatePassword)) ==
      (if identity.Some? then Permit else Unauthenticated)
    ensures Authorize(identity, Route(AuthRoutes, Post, Register)) ==
      (if identity.None? then Unauthenticated else if identity == Some(Admin) then Permit else Forbidden)
  {
    ShortChains(identity, [Admin]);
    ShortChains(identity, [Admin, Staff]);
  }
}
