/** A request as the server sees it: the route it is sent to, the access
    gate of that route, then the controller function the route names. */
module Server {
  import opened Seqs
  import opened Entities
  import opened ProductModel
  import opened References
  import opened Store
  import opened Routes

  /** One request per registered route, with the parameters its handler reads. */
  datatype Request =
    | ListProducts(search: string, category: Option<nat>, status: string)
    | AddProduct(body: ProductBody)
    | EditProduct(id: nat, body: ProductBody)
    | RemoveProduct(id: nat)
    | ListCategories
    | AddCategory(name: Option<string>, description: Option<string>)
    | EditCategory(id: nat, name: Option<string>, description: Option<string>)
    | RemoveCategory(id: nat)
    | ListSuppliers
    | AddSupplier(supplier: SupplierBody)
    | RemoveSupplier(id: nat)
    | ListUsers
    | ChangeRole(id: nat, role: Option<Role>)
    | RemoveUser(id: nat)
    | SignUp
    | LogIn
    | ChangePassword
    | RegisterUser

  /** The route a request is sent to. */
  function RouteOf(req: Request): Route
  {
    match req
    case ListProducts(_, _, _) => Route(ProductRoutes, Get, Root)
    case AddProduct(_) => Route(ProductRoutes, Post, Root)
    case EditProduct(_, _) => Route(ProductRoutes, Put, ById)
    case RemoveProduct(_) => Route(ProductRoutes, Delete, ById)
    case ListCategories => Route(CategoryRoutes, Get, Root)
    case AddCategory(_, _) => Route(CategoryRoutes, Post, Root)
    case EditCategory(_, _, _) => Route(CategoryRoutes, Put, ById)
    case RemoveCategory(_) => Route(CategoryRoutes, Delete, ById)
    case ListSuppliers => Route(SupplierRoutes, Get, Root)
    case AddSupplier(_) => Route(SupplierRoutes, Post, Root)
    case RemoveSupplier(_) => Route(SupplierRoutes, Delete, ById)
    case ListUsers => Route(UserRoutes, Get, Root)
    case ChangeRole(_, _) => Route(UserRoutes, Put, RoleById)
    case RemoveUser(_) => Route(UserRoutes, Delete, ById)
    case SignUp => Route(AuthRoutes, Post, Signup)
    case LogIn => Route(AuthRoutes, Post, Login)
    case ChangePassword => Route(AuthRoutes, Put, UpdatePassword)
    case RegisterUser => Route(AuthRoutes, Post, Register)
  }

  /** Requests whose handler only reads the store. */
  predicate ReadOnly(req: Request)
  {
    req.ListProducts? || req.ListCategories? || req.ListSuppliers? || req.ListUsers?
  }

  /** Requests answered by the authentication controller, which is not part
      of this model. */
  predicate ForAuthController(req: Request)
  {
    req.SignUp? || req.LogIn? || req.ChangePassword? || req.RegisterUser?
  }

  /** Every request names a registered route, so a request is never refused
      for want of one. */
  lemma EveryRequestIsRouted(req: Request, identity: Option<Role>)
    ensures Chain(RouteOf(req)).Some?
    ensures Authorize(identity, RouteOf(req)) != NoRoute
  {
    AuthorizeSpec(identity, RouteOf(req));
  }

  /** What became of a request: refused by the gate, answered by a modelled
      controller with its status code (None when the error went to the
      framework's error handler), or passed to the authentication controller. */
  datatype Outcome = Rejected(decision: Decision) | Answered(code: Option<nat>) | Delegated

  /** What the controller a permitted request reaches makes of the store:
      the contents it leaves and the status code it answers with (None when
      the error goes to the framework's error handler). */
  datatype Effect = Effect(after: Inventory, code: Option<nat>)

  /** The effect of each modelled controller function on contents `st`, as
      its source decides it, branch by branch; `now` is the clock that stamps
      new documents and `purgeFails` the outcome of a cascade purge. */
  function Expected(st: Inventory, req: Request, now: int, purgeFails: bool): Effect
    requires !ForAuthController(req)
  {
    match req
    case ListProducts(_, _, _) => Effect(st, Some(200))
    case ListCategories => Effect(st, Some(200))
    case ListSuppliers => Effect(st, Some(200))
    case ListUsers => Effect(st, Some(200))
    case AddProduct(b) =>
      if !CreatableFrom(b) || SkuTaken(st.products, b.sku.value, st.nextId) then Effect(st, None)
      else
        var p := Saved(NewDocument(st.nextId, now, b));
        Effect(st.(products := st.products + [p], nextId := st.nextId + 1), Some(201))
    case EditProduct(id, b) =>
      (match ProductIndex(st.products, id)
       case None => Effect(st, Some(404))
       case Some(i) =>
         var merged := Assign(st.products[i], b);
         if UpdatableWith(st.products[i], b) && !SkuTaken(st.products, merged.sku, id)
         then Effect(st.(products := st.products[i := Saved(merged)]), Some(200))
         else Effect(st, Some(400)))
    case RemoveProduct(id) =>
      Effect(st.(products := WithoutProduct(st.products, id)), Some(200))
    case AddCategory(name, description) =>
      if !Given(name) || CategoryNameTaken(st.categories, name.value, st.nextId) then Effect(st, Some(400))
      else
        var c := Category(st.nextId, name.value, description, now);
        Effect(st.(categories := st.categories + [c], nextId := st.nextId + 1), Some(201))
    case EditCategory(id, name, description) =>
      if name == Some("") then Effect(st, Some(400))
      else
        (match CategoryIndex(st.categories, id)
         case None => Effect(st, Some(404))
         case Some(i) =>
           if name.Some? && CategoryNameTaken(st.categories, name.value, id) then Effect(st, Some(400))
           else
             var c0 := st.categories[i];
             var c := c0.(name := name.GetOr(c0.name),
                           description := if description.Some? then description else c0.description);
             Effect(st.(categories := st.categories[i := c]), Some(200)))
    case RemoveCategory(id) =>
      if CategoryIndex(st.categories, id).None? then Effect(st, Some(404))
      else if purgeFails then Effect(st, Some(500))
      else
        Effect(st.(products := WithoutCategory(st.products, id),
                   categories := WithoutCategoryRecord(st.categories, id)), Some(200))
    case AddSupplier(b) =>
      if !Given(b.name) || !Given(b.email) || SupplierNameTaken(st.suppliers, b.name.value) then Effect(st, Some(400))
      else
        var x := Supplier(st.nextId, b.name.value, b.contactPerson, b.email.value, b.phone, b.address, now);
        Effect(st.(suppliers := st.suppliers + [x], nextId := st.nextId + 1), Some(201))
    case RemoveSupplier(id) =>
      if purgeFails then Effect(st, Some(500))
      else
        var purged := st.(products := WithoutSupplier(st.products, id));
        if SupplierIndex(st.suppliers, id).None? then Effect(purged, Some(404))
        else Effect(purged.(suppliers := WithoutSupplierRecord(st.suppliers, id)), Some(200))
    case ChangeRole(id, role) =>
      (match UserIndex(st.users, id)
       case None => Effect(st, Some(404))
       case Some(i) => Effect(st.(users := st.users[i := st.users[i].(role := role.GetOr(st.users[i].role))]), Some(200)))
    case RemoveUser(id) =>
      if UserIndex(st.users, id).None? then Effect(st, Some(404))
      else Effect(st.(users := WithoutUser(st.users, id)), Some(200))
  }

  /** A request the controller refuses (an error code, or an error passed
      to the framework) leaves the store as it was, except `deleteSupplier`
      on an unknown id, whose purge has already run. Only a creation (201)
      advances the id counter. */
  lemma RefusalsChangeNothing(st: Inventory, req: Request, now: int, purgeFails: bool)
    requires !ForAuthController(req)
    ensures var e := Expected(st, req, now, purgeFails);
      (e.code.None? || e.code.value >= 400) && !(req.RemoveSupplier? && e.code == Some(404)) ==> e.after == st
    ensures var e := Expected(st, req, now, purgeFails);
      req.RemoveSupplier? && e.code == Some(404) ==>
        e.after == st.(products := WithoutSupplier(st.products, req.id))
    ensures var e := Expected(st, req, now, purgeFails);
      e.after.nextId == (if e.code == Some(201) then st.nextId + 1 else st.nextId)
  {
  }

  /** A category delete that succeeds, and a supplier delete whose purge
      succeeds, leave no product referencing the deleted id; every other
      product is kept. */
  lemma DeletesCascade(st: Inventory, req: Request, now: int, purgeFails: bool)
    requires req.RemoveCategory? || req.RemoveSupplier?
    ensures var e := Expected(st, req, now, purgeFails);
      req.RemoveCategory? && e.code == Some(200) ==>
        && (forall p :: p in e.after.products ==> p.category != req.id)
        && (forall p :: p in st.products && p.category != req.id ==> p in e.after.products)
    ensures var e := Expected(st, req, now, purgeFails);
      req.RemoveSupplier? && e.code != Some(500) ==>
        && (forall p :: p in e.after.products ==> p.supplier != req.id)
        && (forall p :: p in st.products && p.supplier != req.id ==> p in e.after.products)
  {
    if req.RemoveCategory? {
      CategoryPurgeSpec(st.products, req.id);
    } else {
      SupplierPurgeSpec(st.products, req.id);
    }
  }

  /** Runs the gate, then the handler. `now` is the clock the handlers
      stamp new documents with and `purgeFails` the outcome of a cascade
      purge. A refused request never reaches its handler. */
  method Handle(s: Store, identity: Option<Role>, req: Request, now: int, purgeFails: bool)
    returns (o: Outcome)
    requires s.Valid()
    modifies s
    ensures s.Valid()
    ensures Authorize(identity, RouteOf(req)) != Permit ==>
      o == Rejected(Authorize(identity, RouteOf(req))) && unchanged(s)
    ensures Authorize(identity, RouteOf(req)) == Permit && ReadOnly(req) ==>
      o == Answered(Some(200)) && unchanged(s)
    ensures Authorize(identity, RouteOf(req)) == Permit && ForAuthController(req) ==>
      o == Delegated && unchanged(s)
    ensures Authorize(identity, RouteOf(req)) == Permit && !ForAuthController(req) ==>
      && o == Answered(Expected(old(s.Contents()), req, now, purgeFails).code)
      && s.Contents() == Expected(old(s.Contents()), req, now, purgeFails).after
  {
    var d := Authorize(identity, RouteOf(req));
    if d != Permit {
      return Rejected(d);
    }
    if ForAuthController(req) {
      return Delegated;
    }
    o := Dispatch(s, req, now, purgeFails);
  }

  /** The handler a permitted request reaches. */
  method Dispatch(s: Store, req: Request, now: int, purgeFails: bool) returns (o: Outcome)
    requires s.Valid() && !ForAuthController(req)
    modifies s
    ensures s.Valid()
    ensures o == Answered(Expected(old(s.Contents()), req, now, purgeFails).code)
    ensures s.Contents() == Expected(old(s.Contents()), req, now, purgeFails).after
    ensures ReadOnly(req) ==> unchanged(s)
  {
    if ReadOnly(req) {
      o := List(s, req);
    } else if req.AddProduct? || req.EditProduct? || req.RemoveProduct? {
      o := ChangeProducts(s, req, now);
    } else if req.AddCategory? || req.EditCategory? || req.RemoveCategory? {
      o := ChangeCategories(s, req, now, purgeFails);
    } else if req.AddSupplier? || req.RemoveSupplier? {
      o := ChangeSuppliers(s, req, now, purgeFails);
    } else {
      o := ChangeUsers(s, req);
    }
  }

  method List(s: Store, req: Request) returns (o: Outcome)
    requires ReadOnly(req)
    ensures o == Answered(Some(200))
  {
    match req {
      case ListProducts(search, category, status) =>
        var _ := s.GetProducts(search, category, status);
      case ListCategories =>
        var _ := s.GetCategories();
      case ListSuppliers =>
        var _ := s.GetSuppliers();
      case ListUsers =>
        var _ := s.GetUsers();
    }
    o := Answered(Some(200));
  }

  method ChangeProducts(s: Store, req: Request, now: int) returns (o: Outcome)
    requires s.Valid() && (req.AddProduct? || req.EditProduct? || req.RemoveProduct?)
    modifies s
    ensures s.Valid()
    ensures o == Answered(Expected(old(s.Contents()), req, now, false).code)
    ensures s.Contents() == Expected(old(s.Contents()), req, now, false).after
  {
    match req {
      case AddProduct(b) =>
        var r := s.CreateProduct(b, now);
        o := Answered(r.Code());
      case EditProduct(id, b) =>
        var r := s.UpdateProduct(id, b);
        o := Answered(r.Code());
      case RemoveProduct(id) =>
        var r := s.DeleteProduct(id);
        o := Answered(r.Code());
    }
  }

  method ChangeCategories(s: Store, req: Request, now: int, purgeFails: bool) returns (o: Outcome)
    requires s.Valid() && (req.AddCategory? || req.EditCategory? || req.RemoveCategory?)
    modifies s
    ensures s.Valid()
    ensures o == Answered(Expected(old(s.Contents()), req, now, purgeFails).code)
    ensures s.Contents() == Expected(old(s.Contents()), req, now, purgeFails).after
  {
    match req {
      case AddCategory(name, description) =>
        var r := s.CreateCategory(name, description, now);
        o := Answered(r.Code());
      case EditCategory(id, name, description) =>
        var r := s.UpdateCategory(id, name, description);
        o := Answered(r.Code());
      case RemoveCategory(id) =>
        var r := s.DeleteCategory(id, purgeFails);
        o := Answered(r.Code());
    }
  }

  method ChangeSuppliers(s: Store, req: Request, now: int, purgeFails: bool) returns (o: Outcome)
    requires s.Valid() && (req.AddSupplier? || req.RemoveSupplier?)
    modifies s
    ensures s.Valid()
    ensures o == Answered(Expected(old(s.Contents()), req, now, purgeFails).code)
    ensures s.Contents() == Expected(old(s.Contents()), req, now, purgeFails).after
  {
    match req {
      case AddSupplier(b) =>
        var r := s.CreateSupplier(b, now);
        o := Answered(r.Code());
      case RemoveSupplier(id) =>
        var r := s.DeleteSupplier(id, purgeFails);
        o := Answered(r.Code());
    }
  }

  method ChangeUsers(s: Store, req: Request) returns (o: Outcome)
    requires s.Valid() && (req.ChangeRole? || req.RemoveUser?)
    modifies s
    ensures s.Valid()
    ensures o == Answered(Expected(old(s.Contents()), req, 0, false).code)
    ensures s.Contents() == Expected(old(s.Contents()), req, 0, false).after
  {
    match req {
      case ChangeRole(id, role) =>
        var r := s.UpdateUserRole(id, role);
        o := Answered(r.Code());
      case RemoveUser(id) =>
        var r := s.DeleteUser(id);
        o := Answered(r.Code());
    }
  }

  /** A Staff identity sending a mutation it is not allowed is refused as
      forbidden, whatever the request carries; the handler never runs. */
  lemma StaffRefusals(req: Request)
    requires req.RemoveProduct? || req.AddCategory? || req.EditCategory? || req.RemoveCategory?
      || req.AddSupplier? || req.RemoveSupplier? || req.ListUsers? || req.ChangeRole?
      || req.RemoveUser? || req.RegisterUser?
    ensures Authorize(Some(Staff), RouteOf(req)) == Forbidden
  {
    AuthorizeSpec(Some(Staff), RouteOf(req));
  }

  /** Without an identity, only signing up and logging in get through. */
  lemma AnonymousRefusals(req: Request)
    ensures Authorize(None, RouteOf(req)) == Permit <==> req.SignUp? || req.LogIn?
    ensures !(req.SignUp? || req.LogIn?) ==> Authorize(None, RouteOf(req)) == Unauthenticated
  {
    AuthorizeSpec(None, RouteOf(req));
  }
}
