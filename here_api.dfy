/** The HERE client: route computation (Routing API v8) and tour planning
    (Tour Planning API v3). Both services are oracles; what is modelled is how the
    requests are shaped and how the answers are read. */
module HereApi {
  import opened Wrappers
  import opened AppType
  import opened Text

  const RouteRequestUrl: string := "https://router.hereapi.com/v8/routes"
  const TourRequestUrlPrefix: string := "https://tourplanning.hereapi.com/v3/problems?apiKey="

  /** A place to visit; `id` is the present's integer id. */
  datatype TourStop = TourStop(id: int, point: Point)

  /** The two API keys read from the parameter store when the client is created;
      the client is never changed afterwards. */
  datatype HereClient = HereClient(platformApiKey: string, devApiKey: string)

  datatype HereError =
    | RequestFailed  // the HTTP call or the JSON decoding raised
    | NoTour         // `res_json["tours"][0]` on an empty list
    | NoRoute        // `res_json["routes"][0]` on an empty list
    | BadJobId       // `int(job_id)` raised

  // ---- tour planning request ----

  datatype Location = Location(lat: Coord, lng: Coord)
  datatype Place = Place(location: Location, times: seq<seq<string>>, duration: int)
  datatype Delivery = Delivery(places: seq<Place>, demand: seq<int>)
  datatype Job = Job(id: string, deliveries: seq<Delivery>)
  datatype ShiftPoint = ShiftPoint(time: string, location: Location)
  datatype Shift = Shift(start: ShiftPoint, end: ShiftPoint)
  datatype VehicleType = VehicleType(id: string, profile: string, distanceCost: real,
                                     timeCost: real, shifts: seq<Shift>, capacity: seq<int>,
                                     amount: int)
  datatype VehicleProfile = VehicleProfile(name: string, kind: string)
  datatype Problem = Problem(jobs: seq<Job>, vehicleTypes: seq<VehicleType>,
                             profiles: seq<VehicleProfile>)

  // ---- tour planning reply ----

  datatype Activity = Activity(kind: string, jobId: string)
  datatype ScheduledStop = ScheduledStop(activities: seq<Activity>)
  datatype Tour = Tour(stops: seq<ScheduledStop>)
  datatype Solution = Solution(tours: seq<Tour>)

  /** The HTTP POST of a problem to a URL; `None` when it raises. */
  type TourPlanner = (string, Problem) -> Option<Solution>

  // ---- routing request and reply ----

  datatype RouteParams = RouteParams(transportMode: string, origin: string, destination: string,
                                     returnKind: string, via: Option<seq<string>>,
                                     apiKey: string)
  datatype Section = Section(polyline: string)
  datatype Route = Route(sections: seq<Section>)
  datatype RouteReply = RouteReply(routes: seq<Route>)

  /** The HTTP GET of the routing service; `None` when it raises. */
  type Router = (string, RouteParams) -> Option<RouteReply>

  /** The one place of a job: at the stop's point, open for the whole window, taking no time. */
  function JobPlace(point: Point, start: string, end: string): (p: Place)
    ensures p.location == Location(point.latitude, point.longitude)
    ensures p.times == [[start, end]] && p.duration == 0
  {
    Place(Location(point.latitude, point.longitude), [[start, end]], 0)
  }

  /** `_create_tour_job_dict`: one delivery at one place, open for the whole window,
      taking no time and no capacity. */
  function CreateTourJob(jobId: int, point: Point, start: string, end: string): (j: Job)
    ensures ParseInt(j.id) == Some(jobId)
    ensures |j.deliveries| == 1 && |j.deliveries[0].places| == 1
    ensures j.deliveries[0].places[0].location == Location(point.latitude, point.longitude)
    ensures j.deliveries[0].places[0].times == [[start, end]]
    ensures j.deliveries[0].places[0].duration == 0 && j.deliveries[0].demand == [0]
  {
    IntStringRoundTrip(jobId);
    Job(IntToString(jobId),
        [Delivery([JobPlace(point, start, end)], [0])])
  }

  /** `_create_tour_plan_dict`: one vehicle whose shift starts and ends at `startPoint`,
      so the planned tour is closed. */
  function CreateTourPlan(startPoint: Point, jobs: seq<Job>, start: string, end: string): (p: Problem)
    ensures p.jobs == jobs
    ensures |p.vehicleTypes| == 1 && |p.vehicleTypes[0].shifts| == 1
    ensures var shift := p.vehicleTypes[0].shifts[0];
            && shift.start.location == shift.end.location
            && shift.start.location == Location(startPoint.latitude, startPoint.longitude)
            && shift.start.time == start && shift.end.time == end
    ensures |p.profiles| == 1 && p.vehicleTypes[0].profile == p.profiles[0].name
  {
    var home := Location(startPoint.latitude, startPoint.longitude);
    Problem(jobs,
            [VehicleType("car_profile", "car_1", 0.0001, 0.0,
                         [Shift(ShiftPoint(start, home), ShiftPoint(end, home))], [0], 1)],
            [VehicleProfile("car_1", "car")])
  }

  /** The jobs `tour` sends: one per stop, in stop order. */
  function TourJobs(stops: seq<TourStop>, start: string, end: string): (jobs: seq<Job>)
    ensures |jobs| == |stops|
    ensures forall i :: 0 <= i < |stops| ==> ParseInt(jobs[i].id) == Some(stops[i].id)
    ensures forall i :: 0 <= i < |stops| ==>
              jobs[i].deliveries == [Delivery([JobPlace(stops[i].point, start, end)], [0])]
  {
    seq(|stops|, i requires 0 <= i < |stops| => CreateTourJob(stops[i].id, stops[i].point, start, end))
  }

  /** The loop of `tour` that turns the stops into jobs. */
  method BuildJobs(stops: seq<TourStop>, start: string, end: string) returns (jobs: seq<Job>)
    ensures jobs == TourJobs(stops, start, end)
  {
    jobs := [];
    for i := 0 to |stops|
      invariant |jobs| == i
      invariant forall k :: 0 <= k < i ==> jobs[k] == CreateTourJob(stops[k].id, stops[k].point, start, end)
    {
      jobs := jobs + [CreateTourJob(stops[i].id, stops[i].point, start, end)];
    }
  }

  /** The job ids of a stop's `delivery` activities, in activity order. */
  function DeliveryIdsOfStop(activities: seq<Activity>): (ids: seq<string>)
    ensures |ids| <= |activities|
  {
    if activities == [] then []
    else
      var last := activities[|activities| - 1];
      DeliveryIdsOfStop(activities[..|activities| - 1])
        + (if last.kind == "delivery" then [last.jobId] else [])
  }

  /** The job ids of all `delivery` activities of a tour, stop by stop. */
  function DeliveryIds(stops: seq<ScheduledStop>): (ids: seq<string>)
    ensures forall i :: 0 <= i < |ids| ==>
              exists s :: 0 <= s < |stops| && ids[i] in DeliveryIdsOfStop(stops[s].activities)
  {
    if stops == [] then []
    else DeliveryIds(stops[..|stops| - 1]) + DeliveryIdsOfStop(stops[|stops| - 1].activities)
  }

  lemma {:induction false} DeliveryIdsOfStopAppend(a: seq<Activity>, b: seq<Activity>)
    ensures DeliveryIdsOfStop(a + b) == DeliveryIdsOfStop(a) + DeliveryIdsOfStop(b)
    decreases |b|
  {
    if b == [] {
      assert a + b == a;
    } else {
      assert (a + b)[..|a + b| - 1] == a + b[..|b| - 1];
      DeliveryIdsOfStopAppend(a, b[..|b| - 1]);
    }
  }

  /** A stop contributes exactly the ids of its `delivery` activities, in order: the
      departure and arrival at the depot contribute nothing. */
  lemma {:induction false} DeliveryIdsOfStopExactly(activities: seq<Activity>, id: string)
    ensures id in DeliveryIdsOfStop(activities) <==>
            exists k :: 0 <= k < |activities| && activities[k].kind == "delivery"
                                                && activities[k].jobId == id
  {
    if activities != [] {
      var init := activities[..|activities| - 1];
      DeliveryIdsOfStopExactly(init, id);
      assert forall k :: 0 <= k < |init| ==> init[k] == activities[k];
    }
  }

  /** Tours concatenate: the ids of `a + b` are those of `a` followed by those of `b`. */
  lemma {:induction false} DeliveryIdsAppend(a: seq<ScheduledStop>, b: seq<ScheduledStop>)
    ensures DeliveryIds(a + b) == DeliveryIds(a) + DeliveryIds(b)
    decreases |b|
  {
    if b == [] {
      assert a + b == a;
    } else {
      assert (a + b)[..|a + b| - 1] == a + b[..|b| - 1];
      DeliveryIdsAppend(a, b[..|b| - 1]);
    }
  }

  /** `int()` on each job id; the first one that does not parse makes the whole call raise. */
  function ParseIds(ids: seq<string>): (r: Result<seq<int>, HereError>)
    ensures r.Ok? <==> forall i :: 0 <= i < |ids| ==> ParseInt(ids[i]).Some?
    ensures r.Ok? ==> |r.value| == |ids|
                      && forall i :: 0 <= i < |ids| ==> ParseInt(ids[i]) == Some(r.value[i])
    ensures r.Err? ==> r.error == BadJobId
  {
    if ids == [] then Ok([])
    else
      match ParseIds(ids[..|ids| - 1])
      case Err(e) => Err(e)
      case Ok(init) =>
        match ParseInt(ids[|ids| - 1])
        case None => Err(BadJobId)
        case Some(n) => Ok(init + [n])
  }

  /** Ids sent with `str` come back with `int` unchanged. */
  lemma {:induction false} ParseIdsRoundTrip(ids: seq<int>)
    ensures ParseIds(seq(|ids|, i requires 0 <= i < |ids| => IntToString(ids[i]))) == Ok(ids)
  {
    var texts := seq(|ids|, i requires 0 <= i < |ids| => IntToString(ids[i]));
    forall i | 0 <= i < |ids| ensures ParseInt(texts[i]) == Some(ids[i]) {
      IntStringRoundTrip(ids[i]);
    }
    var r := ParseIds(texts);
    assert r.Ok?;
    assert r.value == ids;
  }

  /** Once an id fails to parse, nothing after it can rescue the call. */
  lemma ParseIdsFailsOnPrefix(xs: seq<string>, ys: seq<string>)
    requires ParseIds(xs).Err?
    ensures ParseIds(xs + ys) == Err(BadJobId)
  {
    var i :| 0 <= i < |xs| && ParseInt(xs[i]).None?;
    assert (xs + ys)[i] == xs[i];
  }

  /** How `tour` reads the planner's reply. */
  function TourIdsFromReply(reply: Option<Solution>): (r: Result<seq<int>, HereError>)
    ensures r == Err(RequestFailed) <==> reply.None?
    ensures r == Err(NoTour) <==> reply.Some? && |reply.value.tours| == 0
    ensures r.Ok? ==> reply.Some? && |reply.value.tours| >= 1
                      && |r.value| == |DeliveryIds(reply.value.tours[0].stops)|
  {
    match reply
    case None => Err(RequestFailed)
    case Some(solution) =>
      if |solution.tours| == 0 then Err(NoTour)
      else ParseIds(DeliveryIds(solution.tours[0].stops))
  }

  /** The URL of the tour planning service, keyed with the developer key. */
  function TourRequestUrl(client: HereClient): string
  {
    TourRequestUrlPrefix + client.devApiKey
  }

  /** What `tour` computes: the stop ids in the order the planner visits them. */
  function TourSpec(client: HereClient, startPoint: Point, stops: seq<TourStop>, start: string,
                    end: string, planner: TourPlanner): Result<seq<int>, HereError>
  {
    TourIdsFromReply(planner(TourRequestUrl(client),
                             CreateTourPlan(startPoint, TourJobs(stops, start, end), start, end)))
  }

  lemma ParseIdsSnoc(xs: seq<string>, x: string)
    ensures ParseIds(xs + [x])
         == if ParseIds(xs).Err? || ParseInt(x).None? then Err(BadJobId)
            else Ok(ParseIds(xs).value + [ParseInt(x).value])
  {
    assert (xs + [x])[..|xs|] == xs;
  }

  lemma DeliveryIdsOfStopStep(activities: seq<Activity>, a: nat)
    requires a < |activities|
    ensures DeliveryIdsOfStop(activities[..a + 1])
         == DeliveryIdsOfStop(activities[..a])
            + (if activities[a].kind == "delivery" then [activities[a].jobId] else [])
  {
    assert activities[..a + 1][..a] == activities[..a];
  }

  /** A delivery whose job id does not parse makes the ids of its whole stop fail. */
  lemma StopIdsFailAt(done: seq<string>, activities: seq<Activity>, a: nat)
    requires a < |activities| && activities[a].kind == "delivery"
    requires ParseInt(activities[a].jobId).None?
    ensures ParseIds(done + DeliveryIdsOfStop(activities)) == Err(BadJobId)
  {
    var ids := DeliveryIdsOfStop(activities);
    DeliveryIdsOfStopExactly(activities, activities[a].jobId);
    var k :| 0 <= k < |ids| && ids[k] == activities[a].jobId;
    assert (done + ids)[|done| + k] == activities[a].jobId;
  }

  /** One step of the inner loop of `tour`: a non-delivery activity adds nothing, a delivery
      whose job id parses adds that id. */
  lemma StopIdsStep(done: seq<string>, activities: seq<Activity>, a: nat, ids: seq<int>)
    requires a < |activities|
    requires ParseIds(done + DeliveryIdsOfStop(activities[..a])) == Ok(ids)
    ensures activities[a].kind != "delivery" ==>
              ParseIds(done + DeliveryIdsOfStop(activities[..a + 1])) == Ok(ids)
    ensures activities[a].kind == "delivery" && ParseInt(activities[a].jobId).Some? ==>
              ParseIds(done + DeliveryIdsOfStop(activities[..a + 1]))
              == Ok(ids + [ParseInt(activities[a].jobId).value])
  {
    var before := done + DeliveryIdsOfStop(activities[..a]);
    DeliveryIdsOfStopStep(activities, a);
    if activities[a].kind == "delivery" {
      assert done + DeliveryIdsOfStop(activities[..a + 1]) == before + [activities[a].jobId];
      ParseIdsSnoc(before, activities[a].jobId);
    } else {
      assert done + DeliveryIdsOfStop(activities[..a + 1]) == before;
    }
  }

  /** The inner loop of `tour`: the delivery ids of one stop, appended to those before it. */
  method CollectStopIds(ghost done: seq<string>, stopIds: seq<int>, activities: seq<Activity>)
    returns (r: Result<seq<int>, HereError>)
    requires ParseIds(done) == Ok(stopIds)
    ensures r == ParseIds(done + DeliveryIdsOfStop(activities))
  {
    var ids := stopIds;
    assert done + DeliveryIdsOfStop(activities[..0]) == done;
    for a := 0 to |activities|
      invariant ParseIds(done + DeliveryIdsOfStop(activities[..a])) == Ok(ids)
    {
      StopIdsStep(done, activities, a, ids);
      var activity := activities[a];
      if activity.kind != "delivery" {
        continue;
      }
      var n := ParseInt(activity.jobId);
      if n.None? {
        StopIdsFailAt(done, activities, a);
        return Err(BadJobId);
      }
      ids := ids + [n.value];
    }
    assert activities[..|activities|] == activities;
    r := Ok(ids);
  }

  /** The nested loops of `tour` that collect the delivery job ids of the first tour. */
  method CollectDeliveryIds(stops: seq<ScheduledStop>) returns (r: Result<seq<int>, HereError>)
    ensures r == ParseIds(DeliveryIds(stops))
  {
    var stopIds: seq<int> := [];
    for s := 0 to |stops|
      invariant ParseIds(DeliveryIds(stops[..s])) == Ok(stopIds)
    {
      assert stops[..s + 1][..s] == stops[..s];
      r := CollectStopIds(DeliveryIds(stops[..s]), stopIds, stops[s].activities);
      if r.Err? {
        assert stops == stops[..s + 1] + stops[s + 1..];
        DeliveryIdsAppend(stops[..s + 1], stops[s + 1..]);
        ParseIdsFailsOnPrefix(DeliveryIds(stops[..s + 1]), DeliveryIds(stops[s + 1..]));
        return;
      }
      stopIds := r.value;
    }
    assert stops[..|stops|] == stops;
    r := Ok(stopIds);
  }

  /** `tour`: ask the planner for the best visiting order of `stops`, starting and ending
      at `startPoint`, and return the stop ids in that order. */
  method TourCall(client: HereClient, startPoint: Point, stops: seq<TourStop>, start: string,
                  end: string, planner: TourPlanner) returns (r: Result<seq<int>, HereError>)
    ensures r == TourSpec(client, startPoint, stops, start, end, planner)
  {
    var jobs := BuildJobs(stops, start, end);
    var request := CreateTourPlan(startPoint, jobs, start, end);
    var reply := planner(TourRequestUrl(client), request);
    if reply.None? {
      return Err(RequestFailed);
    }
    if |reply.value.tours| == 0 {
      return Err(NoTour);
    }
    r := CollectDeliveryIds(reply.value.tours[0].stops);
  }

  /** When the planner visits every job once, `tour` returns the stop ids in visiting
      order: the ids survive the trip through the job ids' text form. */
  lemma TourReturnsVisitOrder(client: HereClient, startPoint: Point, stops: seq<TourStop>,
                              start: string, end: string, planner: TourPlanner, order: seq<int>)
    requires var reply := planner(TourRequestUrl(client),
                                  CreateTourPlan(startPoint, TourJobs(stops, start, end), start, end));
             && reply.Some? && |reply.value.tours| >= 1
             && DeliveryIds(reply.value.tours[0].stops)
                == seq(|order|, i requires 0 <= i < |order| => IntToString(order[i]))
    ensures TourSpec(client, startPoint, stops, start, end, planner) == Ok(order)
  {
    ParseIdsRoundTrip(order);
  }

  /** The `lat,lng` text of a point, as the routing service takes it. */
  function LatLng(p: Point, render: Coord -> string): string
  {
    render(p.latitude) + "," + render(p.longitude)
  }

  /** With a comma-free rendering, the two coordinates can be read back from the text. */
  lemma LatLngRecoverable(p: Point, render: Coord -> string)
    requires ',' !in render(p.latitude) && ',' !in render(p.longitude)
    ensures Split(LatLng(p, render), ',') == [render(p.latitude), render(p.longitude)]
  {
    var pair := [render(p.latitude), render(p.longitude)];
    assert Join(pair[1..], ",") == render(p.longitude);
    SplitJoin(pair, ',');
  }

  /** The `via` list: one entry per waypoint, in the given order. */
  function ViaList(vias: seq<Point>, render: Coord -> string): (entries: seq<string>)
    ensures |entries| == |vias|
  {
    seq(|vias|, i requires 0 <= i < |vias| => LatLng(vias[i], render))
  }

  /** The loop of `route` that builds the `via` entries. */
  method BuildVias(vias: seq<Point>, render: Coord -> string) returns (entries: seq<string>)
    ensures entries == ViaList(vias, render)
  {
    entries := [];
    for i := 0 to |vias|
      invariant entries == ViaList(vias[..i], render)
    {
      entries := entries + [LatLng(vias[i], render)];
    }
    assert vias[..|vias|] == vias;
  }

  /** The query parameters of `route`; the `via` key is present only when waypoints are given. */
  function RouteRequest(client: HereClient, src: Point, dest: Point, vias: Option<seq<Point>>,
                        render: Coord -> string): (p: RouteParams)
    ensures p.via.None? <==> vias.None?
    ensures vias.Some? ==> |p.via.value| == |vias.value|
                           && forall i :: 0 <= i < |vias.value| ==> p.via.value[i] == LatLng(vias.value[i], render)
    ensures p.origin == LatLng(src, render) && p.destination == LatLng(dest, render)
    ensures p.apiKey == client.platformApiKey
  {
    RouteParams("car", LatLng(src, render), LatLng(dest, render), "polyline",
                if vias.None? then None else Some(ViaList(vias.value, render)),
                client.platformApiKey)
  }

  /** The polylines of a route, one per section, in section order. */
  function SectionPolylines(route: Route): (polylines: seq<string>)
    ensures |polylines| == |route.sections|
    ensures forall i :: 0 <= i < |route.sections| ==> polylines[i] == route.sections[i].polyline
  {
    seq(|route.sections|, i requires 0 <= i < |route.sections| => route.sections[i].polyline)
  }

  /** How `route` reads the routing reply: the sections of the first route only. */
  function PolylinesFromReply(reply: Option<RouteReply>): (r: Result<seq<string>, HereError>)
    ensures r.Ok? <==> reply.Some? && |reply.value.routes| >= 1
    ensures r.Ok? ==> |r.value| == |reply.value.routes[0].sections|
                      && forall i :: 0 <= i < |r.value| ==> r.value[i] == reply.value.routes[0].sections[i].polyline
    ensures r.Err? ==> (r.error == RequestFailed <==> reply.None?)
  {
    match reply
    case None => Err(RequestFailed)
    case Some(r) => if |r.routes| == 0 then Err(NoRoute) else Ok(SectionPolylines(r.routes[0]))
  }

  /** `route`: the flexible polylines from `src` through `vias`, in order, to `dest`. */
  method RouteCall(client: HereClient, src: Point, dest: Point, vias: Option<seq<Point>>,
                   render: Coord -> string, router: Router) returns (r: Result<seq<string>, HereError>)
    ensures r == PolylinesFromReply(router(RouteRequestUrl, RouteRequest(client, src, dest, vias, render)))
  {
    var via: Option<seq<string>> := None;
    if vias.Some? {
      var entries := BuildVias(vias.value, render);
      via := Some(entries);
    }
    var params := RouteParams("car", LatLng(src, render), LatLng(dest, render), "polyline", via,
                              client.platformApiKey);
    var reply := router(RouteRequestUrl, params);
    if reply.None? {
      return Err(RequestFailed);
    }
    if |reply.value.routes| == 0 {
      return Err(NoRoute);
    }
    var polylines: seq<string> := [];
    var sections := reply.value.routes[0].sections;
    for i := 0 to |sections|
      invariant polylines == SectionPolylines(Route(sections[..i]))
    {
      polylines := polylines + [sections[i].polyline];
    }
    assert sections[..|sections|] == sections;
    r := Ok(polylines);
  }
}
