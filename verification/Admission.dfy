/**
 * Admission of HTTP requests to the one owner of the Runtime.
 *
 * The short lock around each block of InstantHttpMcpApp makes that block atomic; between two blocks of
 * a request anything else may happen.  Each method below is one such block, `flights` records how far
 * every admitted request has come, and Step performs one block of any request, or one step of the
 * Runtime or of its host process, so a sequence of Steps is an arbitrary interleaving.
 *
 * One path of the program does not undo its admission: when a failed handshake cannot be terminated in
 * the `finally` block, the exception escapes before the counter is lowered.  `abandoned` counts those.
 */
module Admission {
  import opened Values

  datatype Verb = Post | Get | Delete

  /** A request that passed authentication and the header checks. */
  datatype Request = Request(verb: Verb, session: string, protocol: string, initialize: bool)

  datatype Rejection =
    | TransitionPending | InitializeRequired | OwnerConflict | ProtocolMismatch
    | AlreadyInitialized | RequestsInFlight

  /** How far an admitted request has come. */
  datatype Flight =
    | Serving(session: string)             // an admitted POST of the owner
    | Streaming                            // an admitted GET
    | Negotiating                          // the initial POST, its handshake not committed
    | Negotiated                           // the initial POST after it committed the owner
    | ReadingStatus                        // a DELETE before its status reading
    | Checked(clean: bool)                 // a DELETE after its status reading
    | Released                             // a DELETE that dropped the owner
  {
    predicate IsPost() { Serving? || Negotiating? || Negotiated? }
    predicate IsInitial() { Negotiating? || Negotiated? }
    predicate IsDelete() { ReadingStatus? || Checked? || Released? }
  }

  /** What `status()` reads: the instance flag, the attached session, and the host's own progress. */
  datatype Runtime = Runtime(attempted: bool, attached: bool, alive: bool, pending: set<string>, stopped: bool) {
    /** `_http_owner_release_proof`: this instance never attempted startup. */
    predicate NeverStarted() { !attempted && !attached }

    predicate CleanupVerified() { attached && stopped && !alive }

    /** The gate of DELETE. */
    predicate Clean() {
      !alive && pending == {} && (CleanupVerified() || NeverStarted())
    }
  }

  /**
   * Nothing is left of the Runtime: its host is gone, every command has its answer, and if it ever attempted a start
   * it was attached and its host wrote its final report.
   */
  predicate Proven(r: Runtime) {
    && !r.alive && r.pending == {}
    && (r.attempted ==> r.attached && r.stopped) && (r.attached ==> r.stopped)
  }

  /** That is what the gate of DELETE demands. */
  lemma CleanIsProven(r: Runtime)
    ensures r.Clean() <==>
      !r.alive && r.pending == {} && ((r.attached && r.stopped) || (!r.attempted && !r.attached))
    ensures r.Clean() <==> Proven(r)
  {
  }

  /** What can change without a tool call: the host exits, answers arrive, the final report is written. */
  predicate Progress(r: Runtime, r': Runtime) {
    && r'.attempted == r.attempted && r'.attached == r.attached
    && (r'.alive ==> r.alive) && r'.pending <= r.pending && (r.stopped ==> r'.stopped)
  }

  /** The start-attempt flag only goes from false to true. */
  predicate ToolEffect(r: Runtime, r': Runtime) {
    r.attempted ==> r'.attempted
  }

  /** A clean reading stays true while no tool runs. */
  lemma CleanIsStable(r: Runtime, r': Runtime)
    requires r.Clean() && Progress(r, r')
    ensures r'.Clean()
  {
  }

  function Posts(flights: map<nat, Flight>): set<nat> {
    set id | id in flights && flights[id].IsPost()
  }

  function Initials(flights: map<nat, Flight>): set<nat> {
    set id | id in flights && flights[id].IsInitial()
  }

  function Deletes(flights: map<nat, Flight>): set<nat> {
    set id | id in flights && flights[id].IsDelete()
  }

  function One(present: bool): nat {
    if present then 1 else 0
  }

  lemma FlightEnds(flights: map<nat, Flight>, id: nat)
    requires id in flights
    ensures |Posts(flights - {id})| + One(flights[id].IsPost()) == |Posts(flights)|
    ensures |Initials(flights - {id})| + One(flights[id].IsInitial()) == |Initials(flights)|
    ensures |Deletes(flights - {id})| + One(flights[id].IsDelete()) == |Deletes(flights)|
  {
    var rest := flights - {id};
    assert Posts(rest) == Posts(flights) - {id} && Initials(rest) == Initials(flights) - {id};
    assert Deletes(rest) == Deletes(flights) - {id};
  }

  lemma FlightBegins(flights: map<nat, Flight>, id: nat, flight: Flight)
    requires id !in flights
    ensures |Posts(flights[id := flight])| == |Posts(flights)| + One(flight.IsPost())
    ensures |Initials(flights[id := flight])| == |Initials(flights)| + One(flight.IsInitial())
    ensures |Deletes(flights[id := flight])| == |Deletes(flights)| + One(flight.IsDelete())
  {
    assert flights[id := flight] - {id} == flights;
    FlightEnds(flights[id := flight], id);
  }

  lemma FlightAdvances(flights: map<nat, Flight>, id: nat, flight: Flight)
    requires id in flights && flight.IsPost() == flights[id].IsPost()
    requires flight.IsInitial() == flights[id].IsInitial() && flight.IsDelete() == flights[id].IsDelete()
    ensures Posts(flights[id := flight]) == Posts(flights)
    ensures Initials(flights[id := flight]) == Initials(flights)
    ensures Deletes(flights[id := flight]) == Deletes(flights)
  {
  }

  /** What one interleaving may do next. */
  datatype Event =
    | Arrives(id: nat, request: Request)
    | ToolRuns(id: nat, effect: Runtime)
    | HandshakeSucceeds(id: nat, granted: string, version: string)
    | PostEnds(id: nat, sessionGranted: bool, normal: bool, firstDelete: bool, lastDelete: bool)
    | StatusRead(id: nat, failed: bool)
    | NativeDelete(id: nat, success: bool)
    | DeleteEnds(id: nat)
    | HostProgresses(effect: Runtime)

  /** The owner is set from none, dropped to none, or stays; it never passes from one session to another. */
  predicate OwnerMove(a: Option<string>, b: Option<string>) {
    a == b || a == None || b == None
  }

  /** The replies that keep a granted session from being terminated, both times it is tried. */
  predicate MayAbandon(event: Event) {
    event.PostEnds? && event.sessionGranted && !event.lastDelete && !(event.normal && event.firstDelete)
  }

  /** The one step after which a POST stays counted: the end of a handshake that was not committed. */
  predicate Abandons(flights: map<nat, Flight>, event: Event) {
    MayAbandon(event) && event.id in flights && flights[event.id] == Negotiating
  }

  /** The event is a possible step of the Runtime: a tool call of the owner's POST, or progress of the host. */
  predicate HappensTo(flights: map<nat, Flight>, runtime: Runtime, event: Event) {
    || (event.ToolRuns? && event.id in flights && flights[event.id].Serving? && ToolEffect(runtime, event.effect))
    || (event.HostProgresses? && Progress(runtime, event.effect))
  }

  class InstantHttpMcpApp {
    var owner: Option<string>
    var protocolVersion: Option<string>
    var initializing: bool
    var deleting: bool
    var activePosts: nat
    var runtime: Runtime
    var flights: map<nat, Flight>
    var abandoned: nat
    ghost var releases: seq<Runtime>   // the Runtime at each drop of an owner

    constructor ()
      ensures Valid() && owner == None && flights == map[] && abandoned == 0 && releases == []
      ensures !runtime.attempted && !runtime.attached
    {
      releases := [];
      owner, protocolVersion, initializing, deleting, activePosts := None, None, false, false, 0;
      runtime := Runtime(false, false, false, {}, false);
      flights, abandoned := map[], 0;
    }

    ghost predicate Valid()
      reads this
    {
      // the counter is the number of POSTs in flight, and of those abandoned without being counted down
      && activePosts == |Posts(flights)| + abandoned
      // at most one request initialises, at most one deletes, and never both
      && |Initials(flights)| + abandoned <= 1
      && (initializing <==> |Initials(flights)| + abandoned == 1)
      && |Deletes(flights)| <= 1
      && (deleting <==> |Deletes(flights)| == 1)
      && !(initializing && deleting)
      && (deleting ==> activePosts == 0)
      // every POST in flight belongs to the owner
      && (owner == None <==> protocolVersion == None)
      && (forall id | id in flights && flights[id].Serving? :: owner == Some(flights[id].session))
      && (forall id | id in flights && flights[id].Negotiating? :: owner == None)
      && (forall id | id in flights && flights[id].Negotiated? :: owner.Some?)
      && (abandoned > 0 ==> owner == None)
      // a DELETE keeps the owner until it releases it, and what it read still holds
      && (forall id | id in flights && flights[id].IsDelete() :: (flights[id].Released? <==> owner == None))
      && (forall id | id in flights && flights[id] == Checked(true) :: runtime.Clean())
      && (forall r | r in releases :: Proven(r))
    }

    /** `_owner_error` */
    function OwnerError(session: string, protocol: string): Option<Rejection>
      reads this
    {
      if initializing || deleting then Some(TransitionPending)
      else if owner == None then Some(InitializeRequired)
      else if session == "" || session != owner.value then Some(OwnerConflict)
      else if protocol != "" && protocolVersion.Some? && protocol != protocolVersion.value then Some(ProtocolMismatch)
      else None
    }

    /** Which requests are admitted: an initialise of nobody's Runtime, and what the owner sends. */
    predicate Admits(request: Request)
      reads this
    {
      var own := owner == Some(request.session) && request.session != ""
        && (request.protocol == "" || protocolVersion == Some(request.protocol));
      && !initializing && !deleting
      && if request.verb == Delete then own && activePosts == 0
         else if request.initialize then owner == None && request.session == ""
         else own
    }

    /** The admission block of POST and GET. */
    method Admit(id: nat, request: Request) returns (rejection: Option<Rejection>)
      requires Valid() && id !in flights && request.verb != Delete && (request.initialize ==> request.verb == Post)
      modifies this
      ensures Valid() && owner == old(owner) && runtime == old(runtime) && abandoned == old(abandoned)
      ensures releases == old(releases)
      ensures rejection.Some? ==> flights == old(flights) && activePosts == old(activePosts)
      ensures rejection == None ==> id in flights && flights == old(flights)[id := flights[id]]
      ensures rejection == None <==>
        || (old(owner) == None && !old(initializing) && !old(deleting) && request.session == "" && request.initialize)
        || (old(owner) == Some(request.session) && request.session != "" && !old(initializing) && !old(deleting)
            && !request.initialize && (request.protocol == "" || old(protocolVersion) == Some(request.protocol)))
      ensures rejection == None ==>
        flights[id] == (if request.initialize then Negotiating
                        else if request.verb == Post then Serving(request.session) else Streaming)
    {
      hide Posts, Initials, Deletes;
      rejection := OwnerError(request.session, request.protocol);
      var initial := false;
      if owner == None && !initializing && !deleting && request.session == "" && request.initialize {
        initializing, initial, rejection := true, true, None;
      } else if owner.Some? && request.initialize {
        rejection := Some(AlreadyInitialized);
      }
      if rejection == None {
        if request.verb == Post {
          activePosts := activePosts + 1;
        }
        var flight :=
          if initial then Negotiating else if request.verb == Post then Serving(request.session) else Streaming;
        FlightBegins(flights, id, flight);
        flights := flights[id := flight];
      }
    }

    /** A tool call inside an admitted POST of the owner. */
    method ToolRuns(id: nat, effect: Runtime)
      requires Valid() && id in flights && flights[id].Serving? && ToolEffect(runtime, effect)
      modifies `runtime
      ensures Valid() && runtime == effect
    {
      PostExcludesDelete(flights, id, activePosts, abandoned);
      hide Posts, Initials, Deletes;
      runtime := effect;
    }

    /** Committing the owner after a complete, valid handshake result. */
    method CommitHandshake(id: nat, granted: string, version: string)
      requires Valid() && id in flights && flights[id] == Negotiating && granted != ""
      modifies this
      ensures Valid() && owner == Some(granted) && old(owner) == None
      ensures flights == old(flights)[id := Negotiated] && runtime == old(runtime) && abandoned == old(abandoned)
      ensures releases == old(releases)
    {
      FlightAdvances(flights, id, Negotiated);
      PostExcludesDelete(flights, id, activePosts, abandoned);
      hide Posts, Initials, Deletes;
      OnlyInitial(flights, id);
      owner, protocolVersion := Some(granted), Some(version);
      flights := flights[id := Negotiated];
    }

    /**
     * The rest of a POST or GET: discarding a failed handshake, then the `finally` block.
     * `normal` says that the native app returned; the other flags are the replies to the native DELETEs.
     */
    method EndRequest(id: nat, post: bool, initial: bool, committed: bool,
                      granted: bool, normal: bool, firstDelete: bool, lastDelete: bool)
      requires Valid() && id in flights && !flights[id].IsDelete()
      requires post == flights[id].IsPost() && initial == flights[id].IsInitial()
        && committed == flights[id].Negotiated?
      modifies this
      ensures Valid() && flights == old(flights) - {id} && owner == old(owner) && runtime == old(runtime)
      ensures releases == old(releases)
      ensures abandoned == old(abandoned)
        + if initial && !committed && granted && !lastDelete && !(normal && firstDelete) then 1 else 0
    {
      hide Posts, Initials, Deletes;
      FlightEnds(flights, id);
      var discarded := initial && !committed && granted && normal && firstDelete;
      if initial && granted && !committed && !discarded && !lastDelete {
        // RuntimeError out of the `finally` block: the counter and the flag stay as they are
        OnlyInitial(flights, id);
        flights, abandoned := flights - {id}, abandoned + 1;
        return;
      }
      if post {
        activePosts := activePosts - 1;
      }
      if initial {
        initializing := false;
      }
      flights := flights - {id};
    }

    /** The admission block of DELETE. */
    method BeginDelete(id: nat, session: string, protocol: string) returns (rejection: Option<Rejection>)
      requires Valid() && id !in flights
      modifies this
      ensures Valid() && owner == old(owner) && runtime == old(runtime) && abandoned == old(abandoned)
      ensures releases == old(releases)
      ensures rejection.Some? ==> flights == old(flights)
      ensures rejection == None ==> flights == old(flights)[id := ReadingStatus] && deleting && activePosts == 0
      ensures rejection == None <==>
        && old(owner) == Some(session) && session != "" && !old(initializing) && !old(deleting)
        && (protocol == "" || old(protocolVersion) == Some(protocol)) && old(activePosts) == 0
    {
      hide Posts, Initials, Deletes;
      rejection := OwnerError(session, protocol);
      if rejection == None && activePosts > 0 {
        rejection := Some(RequestsInFlight);
      }
      if rejection == None {
        FlightBegins(flights, id, ReadingStatus);
        NoDeletes(flights);
        deleting := true;
        flights := flights[id := ReadingStatus];
      }
    }

    /** The status reading of DELETE, taken without the admission lock. */
    method ReadStatus(id: nat, failed: bool) returns (clean: bool)
      requires Valid() && id in flights && flights[id] == ReadingStatus
      modifies `flights
      ensures Valid() && flights == old(flights)[id := Checked(clean)]
      ensures clean <==>
        && !failed && !runtime.alive && runtime.pending == {}
        && ((runtime.attached && runtime.stopped) || (!runtime.attempted && !runtime.attached))
    {
      CleanIsProven(runtime);
      clean := !failed && runtime.Clean();
      FlightAdvances(flights, id, Checked(clean));
      hide Posts, Initials, Deletes;
      flights := flights[id := Checked(clean)];
    }

    /** `released_send`: the native DELETE answered 2xx, so the owner is dropped. */
    method Release(id: nat)
      requires Valid() && id in flights && flights[id] == Checked(true)
      modifies this
      ensures Valid() && owner == None && old(owner).Some? && runtime == old(runtime)
      ensures !runtime.alive && runtime.pending == {}
      ensures (runtime.attached && runtime.stopped) || (!runtime.attempted && !runtime.attached)
      ensures flights == old(flights)[id := Released] && abandoned == old(abandoned)
      ensures releases == old(releases) + [runtime]
    {
      CleanIsProven(runtime);
      FlightAdvances(flights, id, Released);
      DeleteExcludesPosts(flights, id);
      hide Posts, Initials, Deletes;
      owner, protocolVersion := None, None;
      flights, releases := flights[id := Released], releases + [runtime];
    }

    /** The `finally` block of DELETE. */
    method EndDelete(id: nat)
      requires Valid() && id in flights && flights[id].IsDelete()
      modifies this
      ensures Valid() && flights == old(flights) - {id} && owner == old(owner) && runtime == old(runtime)
      ensures releases == old(releases)
      ensures abandoned == old(abandoned)
    {
      hide Posts, Initials, Deletes;
      FlightEnds(flights, id);
      deleting := false;
      flights := flights - {id};
    }

    /** The host process makes progress of its own. */
    method HostProgresses(effect: Runtime)
      requires Valid() && Progress(runtime, effect)
      modifies `runtime
      ensures Valid() && runtime == effect
    {
      if runtime.Clean() {
        CleanIsStable(runtime, effect);
      }
      runtime := effect;
    }

    /** One block of any request, or one step of the Runtime or its host; events that cannot happen are ignored. */
    method Step(event: Event)
      requires Valid()
      modifies this
      ensures Valid()
      ensures OwnerMove(old(owner), owner)
      ensures old(owner).Some? && owner == None <==>
        event.NativeDelete? && event.success && event.id in old(flights) && old(flights)[event.id] == Checked(true)
      ensures old(owner).Some? && owner == None ==>
        && runtime == old(runtime) && !runtime.alive && runtime.pending == {}
        && ((runtime.attached && runtime.stopped) || (!runtime.attempted && !runtime.attached))
      ensures releases == old(releases) + if old(owner).Some? && owner == None then [runtime] else []
      ensures old(owner) == None && owner.Some? <==>
        && event.HandshakeSucceeds? && event.granted != ""
        && event.id in old(flights) && old(flights)[event.id] == Negotiating
      ensures event.Arrives? && event.id !in old(flights) ==>
        (event.request.initialize ==> event.request.verb == Post) ==>
        (event.id in flights <==> old(Admits(event.request)))
      ensures event.StatusRead? && event.id in old(flights) && old(flights)[event.id] == ReadingStatus ==>
        event.id in flights && flights[event.id] == Checked(!event.failed && Proven(runtime))
      ensures (event.PostEnds? || event.DeleteEnds?) && event.id in old(flights) ==>
        (event.id !in flights <==> (event.DeleteEnds? <==> old(flights)[event.id].IsDelete()))
      ensures runtime == if HappensTo(old(flights), old(runtime), event) then event.effect else old(runtime)
      ensures old(runtime).attempted ==> runtime.attempted
      ensures old(abandoned) > 0 ==> abandoned == old(abandoned) && owner == None && flights.Keys <= old(flights).Keys
      ensures abandoned == old(abandoned) + One(Abandons(old(flights), event))
    {
      CleanIsProven(runtime);
      hide Posts, Initials, Deletes, Proven;
      match event {
        case Arrives(id, request) =>
          if id !in flights && request.verb == Delete {
            var _ := BeginDelete(id, request.session, request.protocol);
          } else if id !in flights && (request.initialize ==> request.verb == Post) {
            var _ := Admit(id, request);
          }
        case ToolRuns(id, effect) =>
          if id in flights && flights[id].Serving? && ToolEffect(runtime, effect) {
            ToolRuns(id, effect);
          }
        case HandshakeSucceeds(id, granted, version) =>
          if id in flights && flights[id] == Negotiating && granted != "" {
            CommitHandshake(id, granted, version);
          }
        case PostEnds(id, sessionGranted, normal, firstDelete, lastDelete) =>
          if id in flights && !flights[id].IsDelete() {
            EndRequest(id, flights[id].IsPost(), flights[id].IsInitial(), flights[id].Negotiated?,
                       sessionGranted, normal, firstDelete, lastDelete);
          }
        case StatusRead(id, failed) =>
          if id in flights && flights[id] == ReadingStatus {
            var _ := ReadStatus(id, failed);
          }
        case NativeDelete(id, success) =>
          if id in flights && flights[id] == Checked(true) && success {
            Release(id);
          }
        case DeleteEnds(id) =>
          if id in flights && flights[id].IsDelete() {
            EndDelete(id);
          }
        case HostProgresses(effect) =>
          if Progress(runtime, effect) {
            HostProgresses(effect);
          }
      }
    }

    /**
     * Any interleaving keeps the protocol; and when no request is left in flight, the counter and the two
     * flags are back at rest unless a failed handshake was abandoned, in which case nobody is ever admitted again.
     */
    method Run(events: seq<Event>)
      requires Valid()
      modifies this
      ensures Valid()
      ensures old(abandoned) > 0 ==> abandoned > 0 && owner == None && flights.Keys <= old(flights).Keys
      ensures flights == map[] && abandoned == 0 ==> activePosts == 0 && !initializing && !deleting
      ensures flights == map[] && abandoned > 0 ==> activePosts == 1 && initializing && owner == None
      ensures (forall e | e in events :: !MayAbandon(e)) ==> abandoned == old(abandoned)
      ensures old(releases) <= releases && forall r | r in releases ::
        !r.alive && r.pending == {} && (r.attempted ==> r.attached && r.stopped)
    {
      for i := 0 to |events|
        invariant Valid()
        invariant (forall e | e in events :: !MayAbandon(e)) ==> abandoned == old(abandoned)
        invariant old(releases) <= releases
        invariant old(abandoned) > 0 ==> abandoned > 0 && owner == None && flights.Keys <= old(flights).Keys
      {
        assert events[i] in events;
        Step(events[i]);
      }
      assert flights == map[] ==> |Posts(flights)| == |Initials(flights)| == |Deletes(flights)| == 0;
    }
  }

  /** The counter can stay above the POSTs in flight: one initialise whose session cannot be terminated. */
  method HandshakeIsAbandoned(id: nat) returns (app: InstantHttpMcpApp)
    ensures app.Valid() && app.flights == map[] && app.abandoned == 1 && app.activePosts == 1 && app.initializing
  {
    app := new InstantHttpMcpApp();
    var rejection := app.Admit(id, Request(Post, "", "", true));
    app.EndRequest(id, true, true, false, true, false, false, false);
    NoFlights();
  }

  lemma NoFlights()
    ensures |Posts(map[])| == |Initials(map[])| == |Deletes(map[])| == 0
  {
  }

  lemma OnlyInitial(flights: map<nat, Flight>, id: nat)
    requires id in flights && flights[id].IsInitial() && |Initials(flights)| <= 1
    ensures Initials(flights) == {id} && forall k | k in flights && flights[k].IsInitial() :: k == id
  {
    assert id in Initials(flights);
    assert |Initials(flights) - {id}| == 0;
    forall k | k in flights && flights[k].IsInitial() ensures k == id {
      assert k in Initials(flights);
      assert k !in Initials(flights) - {id};
    }
  }

  lemma NoDeletes(flights: map<nat, Flight>)
    requires |Deletes(flights)| == 0
    ensures forall k | k in flights :: !flights[k].IsDelete()
  {
    forall k | k in flights ensures !flights[k].IsDelete() {
      assert k !in Deletes(flights);
    }
  }

  /** While a POST is in flight nothing is being deleted. */
  lemma PostExcludesDelete(flights: map<nat, Flight>, id: nat, activePosts: nat, abandoned: nat)
    requires id in flights && flights[id].IsPost()
    requires activePosts == |Posts(flights)| + abandoned && (|Deletes(flights)| == 1 ==> activePosts == 0)
    requires |Deletes(flights)| <= 1
    ensures forall k | k in flights :: !flights[k].IsDelete()
  {
    assert id in Posts(flights);
    NoDeletes(flights);
  }

  /** While something is being deleted it is the only one, and no POST is in flight. */
  lemma DeleteExcludesPosts(flights: map<nat, Flight>, id: nat)
    requires id in flights && flights[id].IsDelete()
    requires |Deletes(flights)| <= 1 && (|Deletes(flights)| == 1 ==> |Posts(flights)| == 0)
    ensures forall k | k in flights && flights[k].IsDelete() :: k == id
    ensures forall k | k in flights :: !flights[k].IsPost()
  {
    assert id in Deletes(flights);
    assert |Deletes(flights) - {id}| == 0;
    forall k | k in flights && flights[k].IsDelete() ensures k == id {
      assert k in Deletes(flights);
      assert k !in Deletes(flights) - {id};
    }
    forall k | k in flights ensures !flights[k].IsPost() {
      assert k !in Posts(flights);
    }
  }
}
