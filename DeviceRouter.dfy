/**
 * The device router: six procedures, each `authedProcedure.input(schema)`
 * followed by a handler that calls one `DeviceService` method inside
 * `try { return service.x(input) } catch { throw <fixed error> }`.
 *
 * `DeviceService` is a collaborator: its outcome for each call is an input.
 * Because the handler returns the service's promise without awaiting it, only
 * a synchronous throw reaches the `catch`; a rejected promise passes through.
 */
module DeviceRouter {
  import opened Wrappers
  import opened DeviceSchema
  import opened Trpc

  /** The raw pagination parameters of `list`, keyed by name. */
  datatype ListInput = ListInput(params: map<string, string>)

  /** What `deviceListSchema` makes of them: the parameters it keeps, defaults filled in. */
  datatype ListQuery = ListQuery(params: map<string, string>)

  /** A call on one procedure of the router, with its raw input. */
  datatype Request =
    | List(query: ListInput)
    | GetById(input: DeviceInput)
    | Create(input: DeviceInput)
    | Update(input: DeviceInput)
    | Delete(input: DeviceInput)
    | GetDeviceToken(input: DeviceInput)

  /** A call on `DeviceService`, with the arguments the handler passes. */
  datatype ServiceCall =
    | ListDevices(query: ListQuery)
    | GetDevice(device: DeviceId)
    | CreateDevice(create: DeviceCreate, ownerId: string)
    | UpdateDevice(update: DeviceUpdate)
    | DeleteDevice(device: DeviceId)
    | GetDeviceTokenOf(device: DeviceId)

  /** Whatever the service throws or rejects with. */
  datatype Fault = Fault(message: string)

  /** How a service call ends. */
  datatype ServiceOutcome<V> = Returned(value: V) | SyncThrow(thrown: Fault) | AsyncReject(reason: Fault)

  /** How a procedure ends for its caller. */
  datatype Response<V> = Resolved(value: V) | Failed(error: TrpcError) | Escaped(reason: Fault)

  /**
   * The collaborators: the service's behaviour per call, and the parse by
   * `deviceListSchema`, whose definition is not part of this model (`None`
   * when it refuses the input).
   */
  datatype Deps<V> = Deps(service: ServiceCall -> ServiceOutcome<V>, listParse: ListInput -> Option<ListQuery>)

  /** A handler run: its response and the service calls it made. */
  datatype Handled<V> = Handled(response: Response<V>, serviceCalls: seq<ServiceCall>)

  /** A procedure run as the caller and the server see it. */
  datatype Reply<V> = Reply(response: Response<V>, log: seq<LogEntry>, serviceCalls: seq<ServiceCall>)

  /** The schema each procedure declares with `.input(...)`. */
  predicate SchemaAccepts(req: Request, listParse: ListInput -> Option<ListQuery>) {
    match req
    case List(q) => listParse(q).Some?
    case GetById(x) => DeviceSchemaAccepts(x)
    case Create(x) => CreateSchemaAccepts(x)
    case Update(x) => UpdateSchemaAccepts(x)
    case Delete(x) => DeviceSchemaAccepts(x)
    case GetDeviceToken(x) => DeviceSchemaAccepts(x)
  }

  /** Input parsing followed by the argument building of each handler. */
  function ServiceCallFor(req: Request, user: User, listParse: ListInput -> Option<ListQuery>): (r: Option<ServiceCall>)
    ensures r.Some? <==> SchemaAccepts(req, listParse)
    ensures r.Some? ==>
              match req
              case List(q) => r.value == ListDevices(listParse(q).value)
              case GetById(x) => r.value == GetDevice(DeviceId(x.id.value))
              case Create(x) => r.value == CreateDevice(DeviceCreate(x.buildingId.value, x.roomId.value), user.id)
              case Update(x) => r.value == UpdateDevice(DeviceUpdate(x.id.value, x.buildingId, x.roomId))
              case Delete(x) => r.value == DeleteDevice(DeviceId(x.id.value))
              case GetDeviceToken(x) => r.value == GetDeviceTokenOf(DeviceId(x.id.value))
  {
    match req
    case List(q) => (match listParse(q) case Some(query) => Some(ListDevices(query)) case None => None)
    case GetById(x) => (match ParseDevice(x) case Some(d) => Some(GetDevice(d)) case None => None)
    case Create(x) => (match ParseCreate(x) case Some(c) => Some(CreateDevice(c, user.id)) case None => None)
    case Update(x) => (match ParseUpdate(x) case Some(u) => Some(UpdateDevice(u)) case None => None)
    case Delete(x) => (match ParseDevice(x) case Some(d) => Some(DeleteDevice(d)) case None => None)
    case GetDeviceToken(x) => (match ParseDevice(x) case Some(d) => Some(GetDeviceTokenOf(d)) case None => None)
  }

  /** The error each handler's `catch` throws. */
  function CaughtError(call: ServiceCall): (e: TrpcError)
    ensures e.code == (if call.GetDevice? then NotFound else InternalServerError)
    ensures e.message.Some?
  {
    match call
    case ListDevices(_) => TrpcError(InternalServerError, Some("Error fetching devices"))
    case GetDevice(d) => TrpcError(NotFound, Some("No device with id '" + d.id + "'"))
    case CreateDevice(_, _) => TrpcError(InternalServerError, Some("Error adding device"))
    case UpdateDevice(u) => TrpcError(InternalServerError, Some("Error updating device with id '" + u.id + "'"))
    case DeleteDevice(d) => TrpcError(InternalServerError, Some("Error deleting device with id '" + d.id + "'"))
    case GetDeviceTokenOf(d) => TrpcError(InternalServerError, Some("No device with id '" + d.id + "'"))
  }

  /** `try { return promise } catch { throw caught }`, with no `await` inside the `try`. */
  function Guard<V>(outcome: ServiceOutcome<V>, caught: TrpcError): (r: Response<V>)
    ensures r.Resolved? <==> outcome.Returned?
    ensures r.Resolved? ==> r.value == outcome.value
    ensures r.Failed? <==> outcome.SyncThrow?
    ensures r.Failed? ==> r.error == caught
    ensures r.Escaped? ==> outcome.AsyncReject? && r.reason == outcome.reason
  {
    match outcome
    case Returned(v) => Resolved(v)
    case SyncThrow(_) => Failed(caught)
    case AsyncReject(f) => Escaped(f)
  }

  /** The `.input(schema)` stage and the handler body, run on the authenticated context. */
  function Body<V>(req: Request, actx: AuthedContext, deps: Deps<V>): (h: Handled<V>)
    ensures h.serviceCalls == [] <==> !SchemaAccepts(req, deps.listParse)
    ensures |h.serviceCalls| <= 1
    ensures !SchemaAccepts(req, deps.listParse) ==> h.response == Failed(TrpcError(BadRequest, None))
  {
    match ServiceCallFor(req, actx.user, deps.listParse)
    case None => Handled(Failed(TrpcError(BadRequest, None)), [])
    case Some(call) => Handled(Guard(deps.service(call), CaughtError(call)), [call])
  }

  /** One call on a device procedure: `isAuthed` first, then validation and the handler. */
  function Call<V>(req: Request, ctx: Context, deps: Deps<V>): (r: Reply<V>)
    ensures |r.serviceCalls| <= 1
    ensures r.log == if SessionUser(ctx).None? then [LogEntry(Error, UnauthorizedMessage)] else []
    ensures r.response.Failed? && r.response.error.code == Unauthorized <==> SessionUser(ctx).None?
  {
    var run := IsAuthed(ctx, actx => Body(req, actx, deps));
    match run.outcome
    case Threw(e) => Reply(Failed(e), run.log, [])
    case Continued(h) => Reply(h.response, run.log, h.serviceCalls)
  }

  /** An unauthenticated call is refused before anything else, and never reaches the service. */
  lemma UnauthenticatedNeverReachesService<V>(req: Request, ctx: Context, deps: Deps<V>)
    requires SessionUser(ctx).None?
    ensures Call(req, ctx, deps) ==
              Reply(Failed(TrpcError(Unauthorized, None)), [LogEntry(Error, UnauthorizedMessage)], [])
  {
  }

  /** An authenticated call whose input its schema refuses is a bad request, and never reaches the service. */
  lemma InvalidInputNeverReachesService<V>(req: Request, ctx: Context, deps: Deps<V>)
    requires SessionUser(ctx).Some?
    requires !SchemaAccepts(req, deps.listParse)
    ensures Call(req, ctx, deps) == Reply(Failed(TrpcError(BadRequest, None)), [], [])
  {
  }

  /**
   * The service is reached only by an authenticated call with valid input, and
   * then exactly once, on the method that belongs to the procedure.
   */
  lemma ServiceReachedOnlyWhenAllowed<V>(req: Request, ctx: Context, deps: Deps<V>)
    ensures Call(req, ctx, deps).serviceCalls != [] <==>
              SessionUser(ctx).Some? && SchemaAccepts(req, deps.listParse)
    ensures |Call(req, ctx, deps).serviceCalls| <= 1
    ensures Call(req, ctx, deps).serviceCalls != [] ==>
              var call := Call(req, ctx, deps).serviceCalls[0];
              (req.List? <==> call.ListDevices?) &&
              (req.GetById? <==> call.GetDevice?) &&
              (req.Create? <==> call.CreateDevice?) &&
              (req.Update? <==> call.UpdateDevice?) &&
              (req.Delete? <==> call.DeleteDevice?) &&
              (req.GetDeviceToken? <==> call.GetDeviceTokenOf?)
  {
    if SessionUser(ctx).Some? {
      var _ := ServiceCallFor(req, SessionUser(ctx).value, deps.listParse);
    }
  }

  /** `create` passes the parsed input and the authenticated user's id as the owner. */
  lemma CreatePassesOwner<V>(x: DeviceInput, ctx: Context, deps: Deps<V>)
    requires SessionUser(ctx).Some? && CreateSchemaAccepts(x)
    ensures Call(Create(x), ctx, deps).serviceCalls ==
              [CreateDevice(DeviceCreate(x.buildingId.value, x.roomId.value), SessionUser(ctx).value.id)]
  {
  }

  /** `list` hands the service the query `deviceListSchema` parsed, not the raw parameters. */
  lemma ListPassesParsedQuery<V>(q: ListInput, ctx: Context, deps: Deps<V>)
    requires SessionUser(ctx).Some? && deps.listParse(q).Some?
    ensures Call(List(q), ctx, deps).serviceCalls == [ListDevices(deps.listParse(q).value)]
  {
  }

  /** The identifier-taking procedures pass the parsed `id`, and `update` the optional fields as they came. */
  lemma IdArgumentsPassed<V>(req: Request, ctx: Context, deps: Deps<V>)
    requires SessionUser(ctx).Some? && SchemaAccepts(req, deps.listParse)
    requires !req.List? && !req.Create?
    ensures Call(req, ctx, deps).serviceCalls ==
              [match req
               case GetById(x) => GetDevice(DeviceId(x.id.value))
               case Delete(x) => DeleteDevice(DeviceId(x.id.value))
               case GetDeviceToken(x) => GetDeviceTokenOf(DeviceId(x.id.value))
               case Update(x) => UpdateDevice(DeviceUpdate(x.id.value, x.buildingId, x.roomId))]
  {
  }

  /** A successful service result reaches the caller unchanged, and nothing is logged. */
  lemma SuccessPassesThrough<V>(req: Request, ctx: Context, deps: Deps<V>, call: ServiceCall)
    requires SessionUser(ctx).Some?
    requires ServiceCallFor(req, SessionUser(ctx).value, deps.listParse) == Some(call)
    requires deps.service(call).Returned?
    ensures Call(req, ctx, deps) == Reply(Resolved(deps.service(call).value), [], [call])
  {
  }

  /** A rejected service promise is not caught: its own reason reaches the caller. */
  lemma AsyncRejectEscapes<V>(req: Request, ctx: Context, deps: Deps<V>, call: ServiceCall)
    requires SessionUser(ctx).Some?
    requires ServiceCallFor(req, SessionUser(ctx).value, deps.listParse) == Some(call)
    requires deps.service(call).AsyncReject?
    ensures Call(req, ctx, deps).response == Escaped(deps.service(call).reason)
  {
  }

  /** A synchronous throw becomes the procedure's fixed error. */
  lemma SyncThrowTranslated<V>(req: Request, ctx: Context, deps: Deps<V>, call: ServiceCall)
    requires SessionUser(ctx).Some?
    requires ServiceCallFor(req, SessionUser(ctx).value, deps.listParse) == Some(call)
    requires deps.service(call).SyncThrow?
    ensures req.List? ==>
              Call(req, ctx, deps).response == Failed(TrpcError(InternalServerError, Some("Error fetching devices")))
    ensures req.GetById? ==>
              Call(req, ctx, deps).response ==
              Failed(TrpcError(NotFound, Some("No device with id '" + req.input.id.value + "'")))
    ensures req.Create? ==>
              Call(req, ctx, deps).response == Failed(TrpcError(InternalServerError, Some("Error adding device")))
    ensures req.Update? ==>
              Call(req, ctx, deps).response ==
              Failed(TrpcError(InternalServerError, Some("Error updating device with id '" + req.input.id.value + "'")))
    ensures req.Delete? ==>
              Call(req, ctx, deps).response ==
              Failed(TrpcError(InternalServerError, Some("Error deleting device with id '" + req.input.id.value + "'")))
    ensures req.GetDeviceToken? ==>
              Call(req, ctx, deps).response ==
              Failed(TrpcError(InternalServerError, Some("No device with id '" + req.input.id.value + "'")))
  {
  }

  /** Two service outcomes that differ at most in what a synchronous throw carries. */
  ghost predicate AgreeButThrown<V>(o1: ServiceOutcome<V>, o2: ServiceOutcome<V>) {
    (o1.SyncThrow? && o2.SyncThrow?) || o1 == o2
  }

  /**
   * Nothing a synchronous throw carries crosses the boundary: services that
   * agree except in what they throw give the caller the same reply.
   */
  lemma ThrownFaultHidden<V>(req: Request, ctx: Context, service1: ServiceCall -> ServiceOutcome<V>,
                             service2: ServiceCall -> ServiceOutcome<V>, listParse: ListInput -> Option<ListQuery>)
    requires forall call :: AgreeButThrown(service1(call), service2(call))
    ensures Call(req, ctx, Deps(service1, listParse)) == Call(req, ctx, Deps(service2, listParse))
  {
    if SessionUser(ctx).Some? {
      var actx := Extend(ctx, SessionUser(ctx).value);
      match ServiceCallFor(req, actx.user, listParse)
      case None =>
      case Some(call) =>
        assert AgreeButThrown(service1(call), service2(call));
        assert Body(req, actx, Deps(service1, listParse)) == Body(req, actx, Deps(service2, listParse));
    }
  }
}
