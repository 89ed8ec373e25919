/** The HTTP API function: checks the caller's API key, plans the Christmas Eve delivery
    tour over all stored presents, stores the route and returns it to the web client. */
module ApiFunction {
  import opened Wrappers
  import opened AppType
  import opened Text
  import opened HereApi

  datatype ApiError =
    | MissingApiKey         // `event["queryStringParameters"]["apiKey"]` raised
    | ParameterStoreFailed  // reading the stored API key raised
    | InvalidApiKey         // the bare `raise` after a failed key check
    | DbConnectFailed       // creating the database client raised
    | HereClientFailed      // creating the HERE client raised
    | DbQueryFailed         // a select raised
    | NoFacility            // `aurora.select(query)[0]` on an empty result
    | TourFailed            // `here.tour` raised
    | UnknownPresentId      // `present_dict[present_id]` raised
    | RouteFailed           // `here.route` raised
    | DbInsertFailed        // `update_commit` raised

  // ---- delivery date ----

  /** A calendar date; the time of day plays no role in the comparison with Dec 25 00:00. */
  datatype Date = Date(year: int, month: int, day: int)

  predicate Before(a: Date, b: Date)
  {
    a.year < b.year
    || (a.year == b.year && (a.month < b.month || (a.month == b.month && a.day < b.day)))
  }

  /** The year of the next delivery: this year until Dec 24, next year from Dec 25 on.
      Equivalently, the year whose Dec 24 is the first Dec 24 not before today. */
  function DeliveryYear(today: Date): (y: int)
    ensures y == today.year || y == today.year + 1
    ensures y == today.year + 1 <==> !Before(today, Date(today.year, 12, 25))
    ensures Before(Date(y - 1, 12, 24), today) && !Before(Date(y, 12, 24), today)
  {
    if Before(today, Date(today.year, 12, 25)) then today.year else today.year + 1
  }

  const WindowStartSuffix: string := "-12-23T15:00:00.000Z"
  const WindowEndSuffix: string := "-12-24T14:59:59.000Z"

  /** Delivery window: Dec 24 from 00:00:00 to 23:59:59 in Japan time (UTC+9), written in UTC. */
  datatype TimeWindow = TimeWindow(start: string, end: string)

  function DeliveryWindow(year: int): (w: TimeWindow)
    ensures |w.start| > |WindowStartSuffix| && |w.end| > |WindowEndSuffix|
    ensures w.start[|w.start| - |WindowStartSuffix|..] == WindowStartSuffix
    ensures w.end[|w.end| - |WindowEndSuffix|..] == WindowEndSuffix
    ensures ParseInt(w.start[..|w.start| - |WindowStartSuffix|]) == Some(year)
    ensures ParseInt(w.end[..|w.end| - |WindowEndSuffix|]) == Some(year)
    ensures w.start[..|w.start| - |WindowStartSuffix|] == IntToString(year)
    ensures w.end[..|w.end| - |WindowEndSuffix|] == IntToString(year)
  {
    var yearText := IntToString(year);
    assert (yearText + WindowStartSuffix)[..|yearText|] == yearText;
    assert (yearText + WindowEndSuffix)[..|yearText|] == yearText;
    IntStringRoundTrip(year);
    TimeWindow(yearText + WindowStartSuffix, yearText + WindowEndSuffix)
  }

  // ---- ordering the presents ----

  /** The tour stops: one per present, in input order, keyed by the present id. */
  function DeliveryStops(presents: seq<Present>): (stops: seq<TourStop>)
    ensures |stops| == |presents|
    ensures forall i :: 0 <= i < |presents| ==>
              stops[i].id == presents[i].presentId && stops[i].point == presents[i].address.point
  {
    seq(|presents|, i requires 0 <= i < |presents| =>
          TourStop(presents[i].presentId, presents[i].address.point))
  }

  /** The loop of `get_delivery_ordered_present` that builds the stops. */
  method BuildDeliveryStops(presents: seq<Present>) returns (stops: seq<TourStop>)
    ensures stops == DeliveryStops(presents)
  {
    stops := [];
    for i := 0 to |presents|
      invariant stops == DeliveryStops(presents[..i])
    {
      stops := stops + [TourStop(presents[i].presentId, presents[i].address.point)];
    }
    assert presents[..|presents|] == presents;
  }

  function PresentIds(presents: seq<Present>): (ids: seq<int>)
    ensures |ids| == |presents|
  {
    seq(|presents|, i requires 0 <= i < |presents| => presents[i].presentId)
  }

  predicate HasPresent(presents: seq<Present>, id: int)
  {
    exists i :: 0 <= i < |presents| && presents[i].presentId == id
  }

  /** `{present.present_id: present for present in presents}` */
  function PresentIndex(presents: seq<Present>): (index: map<int, Present>)
    ensures index.Keys == set i | 0 <= i < |presents| :: presents[i].presentId
  {
    if presents == [] then map[]
    else
      var last := presents[|presents| - 1];
      PresentIndex(presents[..|presents| - 1])[last.presentId := last]
  }

  /** Every key maps to a present that carries that id. */
  lemma {:induction false} PresentIndexValues(presents: seq<Present>)
    ensures forall id :: id in PresentIndex(presents) ==>
              PresentIndex(presents)[id].presentId == id && PresentIndex(presents)[id] in presents
  {
    if presents != [] {
      var init := presents[..|presents| - 1];
      PresentIndexValues(init);
      forall p | p in init ensures p in presents {
        var k :| 0 <= k < |init| && init[k] == p;
        assert presents[k] == p;
      }
    }
  }

  /** Every present's id is a key, and when ids repeat the last present with that id wins. */
  lemma {:induction false} PresentIndexLastWins(presents: seq<Present>)
    ensures forall i :: 0 <= i < |presents| ==> presents[i].presentId in PresentIndex(presents)
    ensures forall i :: 0 <= i < |presents|
              && (forall j :: i < j < |presents| ==> presents[j].presentId != presents[i].presentId)
              ==> PresentIndex(presents)[presents[i].presentId] == presents[i]
  {
    var index := PresentIndex(presents);
    forall i | 0 <= i < |presents| ensures presents[i].presentId in index {
    }
    if presents != [] {
      var n := |presents|;
      var init := presents[..n - 1];
      var last := presents[n - 1];
      PresentIndexLastWins(init);
      forall i | 0 <= i < n && (forall j :: i < j < n ==> presents[j].presentId != presents[i].presentId)
        ensures index[presents[i].presentId] == presents[i]
      {
        if i < n - 1 {
          assert init[i] == presents[i] && presents[i].presentId != last.presentId;
          forall j | i < j < n - 1 ensures init[j].presentId != init[i].presentId {
            assert init[j] == presents[j];
          }
        }
      }
    }
  }

  /** `[present_dict[present_id] for present_id in order]` */
  function Lookup<K, V>(m: map<K, V>, keys: seq<K>): (vs: seq<V>)
    requires forall i :: 0 <= i < |keys| ==> keys[i] in m
    ensures |vs| == |keys|
  {
    seq(|keys|, i requires 0 <= i < |keys| && keys[i] in m => m[keys[i]])
  }

  /** The presents in tour order; an id the presents do not have raises. */
  function ReorderByTour(presents: seq<Present>, order: seq<int>): (r: Result<seq<Present>, ApiError>)
    ensures r.Ok? <==> forall i :: 0 <= i < |order| ==> HasPresent(presents, order[i])
    ensures r.Ok? ==> |r.value| == |order|
    ensures r.Ok? ==> forall i :: 0 <= i < |order| ==>
                        r.value[i].presentId == order[i] && r.value[i] in presents
    ensures r.Err? ==> r.error == UnknownPresentId
  {
    var index := PresentIndex(presents);
    PresentIndexValues(presents);
    PresentIndexLastWins(presents);
    if forall i :: 0 <= i < |order| ==> order[i] in index then Ok(Lookup(index, order))
    else Err(UnknownPresentId)
  }

  lemma LookupConcat<K, V>(m: map<K, V>, a: seq<K>, b: seq<K>)
    requires forall i :: 0 <= i < |a| ==> a[i] in m
    requires forall i :: 0 <= i < |b| ==> b[i] in m
    ensures forall i :: 0 <= i < |a + b| ==> (a + b)[i] in m
    ensures Lookup(m, a + b) == Lookup(m, a) + Lookup(m, b)
  {
  }

  /** Taking the same element out of two permutations leaves two permutations. */
  lemma RemoveFromBoth<K>(xs: seq<K>, ys: seq<K>, j: nat)
    requires multiset(xs) == multiset(ys) && |xs| >= 1
    requires j < |ys| && ys[j] == xs[0]
    ensures multiset(xs[1..]) == multiset(ys[..j] + ys[j + 1..])
  {
    var x := xs[0];
    assert ys == ys[..j] + [x] + ys[j + 1..];
    assert xs == [x] + xs[1..];
    assert multiset(xs[1..]) == multiset(xs) - multiset{x};
    assert multiset(ys[..j] + ys[j + 1..]) == multiset(ys) - multiset{x};
  }

  /** Looking up two permutations of the same keys gives permutations of the same values. */
  lemma {:induction false} LookupPermutation<K, V>(m: map<K, V>, xs: seq<K>, ys: seq<K>)
    requires multiset(xs) == multiset(ys)
    requires forall i :: 0 <= i < |ys| ==> ys[i] in m
    ensures forall i :: 0 <= i < |xs| ==> xs[i] in m
    ensures multiset(Lookup(m, xs)) == multiset(Lookup(m, ys))
    decreases |xs|
  {
    forall i | 0 <= i < |xs| ensures xs[i] in m {
      assert xs[i] in multiset(ys);
    }
    if |xs| == 0 {
      assert |ys| == |multiset(ys)| == 0;
    } else {
      var x := xs[0];
      assert x in multiset(ys);
      var j :| 0 <= j < |ys| && ys[j] == x;
      var front, back := ys[..j], ys[j + 1..];
      RemoveFromBoth(xs, ys, j);
      forall i | 0 <= i < |front + back| ensures (front + back)[i] in m {
        assert (front + back)[i] in multiset(ys);
      }
      LookupPermutation(m, xs[1..], front + back);
      assert ys == front + ([x] + back);
      LookupConcat(m, [x], xs[1..]);
      assert [x] + xs[1..] == xs;
      LookupConcat(m, [x], back);
      LookupConcat(m, front, [x] + back);
      LookupConcat(m, front, back);
    }
  }

  predicate DistinctIds(presents: seq<Present>)
  {
    forall i, j :: 0 <= i < j < |presents| ==> presents[i].presentId != presents[j].presentId
  }

  /** With distinct present ids, an order that is a permutation of them yields the presents
      themselves, rearranged. */
  lemma ReorderIsPermutation(presents: seq<Present>, order: seq<int>)
    requires DistinctIds(presents)
    requires multiset(order) == multiset(PresentIds(presents))
    ensures ReorderByTour(presents, order).Ok?
    ensures multiset(ReorderByTour(presents, order).value) == multiset(presents)
  {
    var index := PresentIndex(presents);
    PresentIndexValues(presents);
    PresentIndexLastWins(presents);
    var ids := PresentIds(presents);
    forall i | 0 <= i < |order| ensures HasPresent(presents, order[i]) {
      assert order[i] in multiset(ids);
      var j :| 0 <= j < |ids| && ids[j] == order[i];
    }
    LookupPermutation(index, order, ids);
    assert Lookup(index, ids) == presents;
  }

  /** `get_delivery_ordered_present`: the presents in the order the tour planner visits them,
      within the window of the next Christmas Eve. */
  method GetDeliveryOrderedPresent(client: HereClient, facility: Facility, presents: seq<Present>,
                                   today: Date, planner: TourPlanner)
    returns (r: Result<seq<Present>, ApiError>)
    ensures var w := DeliveryWindow(DeliveryYear(today));
            var tour := TourSpec(client, facility.address.point, DeliveryStops(presents),
                                 w.start, w.end, planner);
            r == if tour.Err? then Err(TourFailed) else ReorderByTour(presents, tour.value)
  {
    var deliveryYear := today.year;
    if !Before(today, Date(today.year, 12, 25)) {
      deliveryYear := deliveryYear + 1;
    }
    var window := DeliveryWindow(deliveryYear);
    var stops := BuildDeliveryStops(presents);
    var tour := TourCall(client, facility.address.point, stops, window.start, window.end, planner);
    if tour.Err? {
      return Err(TourFailed);
    }
    r := ReorderByTour(presents, tour.value);
  }

  /** When the planner visits every present exactly once, the delivery order is a
      rearrangement of all the presents, position i holding the i-th visited id. */
  lemma DeliveryOrderIsPermutation(client: HereClient, facility: Facility, presents: seq<Present>,
                                   today: Date, planner: TourPlanner, order: seq<int>)
    requires DistinctIds(presents)
    requires multiset(order) == multiset(PresentIds(presents))
    requires var w := DeliveryWindow(DeliveryYear(today));
             var reply := planner(TourRequestUrl(client),
                                  CreateTourPlan(facility.address.point,
                                                 TourJobs(DeliveryStops(presents), w.start, w.end),
                                                 w.start, w.end));
             && reply.Some? && |reply.value.tours| >= 1
             && DeliveryIds(reply.value.tours[0].stops)
                == seq(|order|, i requires 0 <= i < |order| => IntToString(order[i]))
    ensures var w := DeliveryWindow(DeliveryYear(today));
            var tour := TourSpec(client, facility.address.point, DeliveryStops(presents),
                                 w.start, w.end, planner);
            && tour == Ok(order)
            && ReorderByTour(presents, order).Ok?
            && multiset(ReorderByTour(presents, order).value) == multiset(presents)
  {
    var w := DeliveryWindow(DeliveryYear(today));
    TourReturnsVisitOrder(client, facility.address.point, DeliveryStops(presents), w.start, w.end,
                          planner, order);
    ReorderIsPermutation(presents, order);
  }

  // ---- storing the route ----

  /** One LINESTRING point: `f"{latitude} {longitude}"`. */
  function PointText(p: Present, render: Coord -> string): string
  {
    render(p.address.point.latitude) + " " + render(p.address.point.longitude)
  }

  /** The LINESTRING points of the presents, in their order. */
  function PointTexts(presents: seq<Present>, render: Coord -> string): (texts: seq<string>)
    ensures |texts| == |presents|
    ensures forall i :: 0 <= i < |presents| ==>
              texts[i] == render(presents[i].address.point.latitude) + " "
                          + render(presents[i].address.point.longitude)
  {
    seq(|presents|, i requires 0 <= i < |presents| => PointText(presents[i], render))
  }

  const LinestringPrefix: string := "LINESTRING ("

  /** The parameters of the `delivery_route` insert. */
  datatype DeliveryRouteRow = DeliveryRouteRow(facilityId: int, deliveryOrderedPoint: string,
                                               routeFlexPolylines: string)

  function DeliveryRouteRowOf(facility: Facility, ordered: seq<Present>, polylines: seq<string>,
                              render: Coord -> string): (row: DeliveryRouteRow)
    ensures row.facilityId == facility.facilityId
    ensures LinestringPrefix <= row.deliveryOrderedPoint
    ensures row.deliveryOrderedPoint[|row.deliveryOrderedPoint| - 1] == ')'
    ensures row.routeFlexPolylines == Join(polylines, ",")
  {
    DeliveryRouteRow(facility.facilityId,
                     LinestringPrefix + Join(PointTexts(ordered, render), ", ") + ")",
                     Join(polylines, ","))
  }

  /** `insert_delivery_route`: builds the row (its loop collects the point texts) and
      hands it to the database; `ok` is false when the insert raised. */
  method InsertDeliveryRoute(facility: Facility, ordered: seq<Present>, polylines: seq<string>,
                             render: Coord -> string, insert: DeliveryRouteRow -> bool)
    returns (ok: bool)
    ensures ok == insert(DeliveryRouteRowOf(facility, ordered, polylines, render))
  {
    var linestringStrs: seq<string> := [];
    for i := 0 to |ordered|
      invariant linestringStrs == PointTexts(ordered[..i], render)
    {
      linestringStrs := linestringStrs + [PointText(ordered[i], render)];
    }
    assert ordered[..|ordered|] == ordered;
    var row := DeliveryRouteRow(facility.facilityId,
                                LinestringPrefix + Join(linestringStrs, ", ") + ")",
                                Join(polylines, ","));
    ok := insert(row);
  }

  /** The stored LINESTRING has one point per present: with comma-free coordinate texts,
      its commas are exactly the `n - 1` separators between `n` points. */
  lemma LinestringOnePointPerPresent(facility: Facility, ordered: seq<Present>,
                                     polylines: seq<string>, render: Coord -> string)
    requires |ordered| >= 1
    requires forall i :: 0 <= i < |ordered| ==>
               ',' !in render(ordered[i].address.point.latitude)
               && ',' !in render(ordered[i].address.point.longitude)
    ensures var ls := DeliveryRouteRowOf(facility, ordered, polylines, render).deliveryOrderedPoint;
            Count(ls, ',') == |ordered| - 1
  {
    var texts := PointTexts(ordered, render);
    PointTextsCommaFree(ordered, render);
    var joined := Join(texts, ", ");
    assert Count(", ", ',') == 1;
    CountJoin(texts, ", ", ',');
    CountAbsent(LinestringPrefix, ',');
    CountAbsent(")", ',');
    CountAppend(LinestringPrefix, joined, ',');
    CountAppend(LinestringPrefix + joined, ")", ',');
  }

  /** The text between `LINESTRING (` and `)` is the `", "`-join of the point texts. */
  lemma LinestringInner(facility: Facility, ordered: seq<Present>, polylines: seq<string>,
                        render: Coord -> string)
    ensures var ls := DeliveryRouteRowOf(facility, ordered, polylines, render).deliveryOrderedPoint;
            ls[|LinestringPrefix|..|ls| - 1] == Join(PointTexts(ordered, render), ", ")
  {
    var joined := Join(PointTexts(ordered, render), ", ");
    var ls := LinestringPrefix + joined + ")";
    assert ls[|LinestringPrefix|..|ls| - 1] == joined;
  }

  /** With comma-free coordinate texts, every point text is comma-free. */
  lemma PointTextsCommaFree(ordered: seq<Present>, render: Coord -> string)
    requires forall i :: 0 <= i < |ordered| ==>
               ',' !in render(ordered[i].address.point.latitude)
               && ',' !in render(ordered[i].address.point.longitude)
    ensures forall i :: 0 <= i < |ordered| ==> ',' !in PointTexts(ordered, render)[i]
  {
    var texts := PointTexts(ordered, render);
    forall i | 0 <= i < |texts| ensures ',' !in texts[i] {
      assert texts[i] == render(ordered[i].address.point.latitude) + " "
                         + render(ordered[i].address.point.longitude);
    }
  }

  /** The stored LINESTRING gives the route back: between `LINESTRING (` and `)`, split on
      commas, piece i is present i's `latitude longitude` in delivery order (after the
      first, behind the space of the `", "` separator). */
  lemma LinestringRecoverable(facility: Facility, ordered: seq<Present>,
                              polylines: seq<string>, render: Coord -> string)
    requires |ordered| >= 1
    requires forall i :: 0 <= i < |ordered| ==>
               ',' !in render(ordered[i].address.point.latitude)
               && ',' !in render(ordered[i].address.point.longitude)
    ensures var ls := DeliveryRouteRowOf(facility, ordered, polylines, render).deliveryOrderedPoint;
            var pieces := Split(ls[|LinestringPrefix|..|ls| - 1], ',');
            && |pieces| == |ordered|
            && forall i :: 0 <= i < |ordered| ==>
                 var point := render(ordered[i].address.point.latitude) + " "
                              + render(ordered[i].address.point.longitude);
                 pieces[i] == if i == 0 then point else " " + point
  {
    LinestringInner(facility, ordered, polylines, render);
    PointTextsCommaFree(ordered, render);
    SplitLongJoin(PointTexts(ordered, render), ", ", ',');
  }

  /** The polylines column splits back into the polylines, as flexible polylines never
      contain a comma. An empty list is not recovered: it is stored as "". */
  lemma PolylinesRecoverable(facility: Facility, ordered: seq<Present>, polylines: seq<string>,
                             render: Coord -> string)
    requires |polylines| >= 1
    requires forall i :: 0 <= i < |polylines| ==> ',' !in polylines[i]
    ensures Split(DeliveryRouteRowOf(facility, ordered, polylines, render).routeFlexPolylines, ',')
            == polylines
  {
    SplitJoin(polylines, ',');
  }

  // ---- reading from the database and answering ----

  /** A selected row: id, name, address, latitude, longitude. */
  datatype Row = Row(id: int, name: string, address: string, latitude: Coord, longitude: Coord)

  function PresentOfRow(row: Row): Present
  {
    NewPresent(row.id, row.name, row.latitude, row.longitude, row.address)
  }

  /** `get_facility`: the first facility row; there must be one. */
  function FacilityOfRows(rows: seq<Row>): (r: Result<Facility, ApiError>)
    ensures r.Ok? <==> |rows| >= 1
    ensures r.Ok? ==> r.value.facilityId == rows[0].id && r.value.facilityName == rows[0].name
                      && r.value.address == Address(Point(rows[0].latitude, rows[0].longitude),
                                                    rows[0].address)
  {
    if |rows| == 0 then Err(NoFacility)
    else Ok(NewFacility(rows[0].id, rows[0].name, rows[0].latitude, rows[0].longitude, rows[0].address))
  }

  function PresentsOfRows(rows: seq<Row>): (presents: seq<Present>)
    ensures |presents| == |rows|
    ensures forall i :: 0 <= i < |rows| ==>
              presents[i] == Present(rows[i].id, rows[i].name,
                                     Address(Point(rows[i].latitude, rows[i].longitude),
                                             rows[i].address))
  {
    seq(|rows|, i requires 0 <= i < |rows| => PresentOfRow(rows[i]))
  }

  /** `get_presents`: one present per row, in row order. */
  method GetPresents(rows: seq<Row>) returns (presents: seq<Present>)
    ensures presents == PresentsOfRows(rows)
    ensures forall i :: 0 <= i < |rows| ==>
              presents[i].presentId == rows[i].id
              && presents[i].presentName == rows[i].name
              && presents[i].address.point == Point(rows[i].latitude, rows[i].longitude)
              && presents[i].address.address == rows[i].address
  {
    presents := [];
    for i := 0 to |rows|
      invariant presents == PresentsOfRows(rows[..i])
    {
      presents := presents + [PresentOfRow(rows[i])];
    }
    assert rows[..|rows|] == rows;
  }

  /** A place as the client sees it: `point` is `[latitude, longitude]`. */
  datatype PlaceView = PlaceView(name: string, address: string, point: seq<Coord>)
  datatype ResponseBody = ResponseBody(facility: PlaceView, presents: seq<PlaceView>,
                                       routeFlexPolylines: seq<string>)
  datatype ApiResponse = ApiResponse(statusCode: int, body: ResponseBody)

  /** The answer to the client: status 200, the presents in delivery order. */
  function Respond(facility: Facility, ordered: seq<Present>, polylines: seq<string>): (resp: ApiResponse)
    ensures resp.statusCode == 200
    ensures resp.body.facility == PlaceView(facility.facilityName, facility.address.address,
                                            [facility.address.point.latitude,
                                             facility.address.point.longitude])
    ensures |resp.body.presents| == |ordered|
    ensures forall i :: 0 <= i < |ordered| ==>
              resp.body.presents[i] == PlaceView(ordered[i].presentName, ordered[i].address.address,
                                                 [ordered[i].address.point.latitude,
                                                  ordered[i].address.point.longitude])
    ensures resp.body.routeFlexPolylines == polylines
  {
    var view := (name: string, a: Address) => PlaceView(name, a.address, [a.point.latitude, a.point.longitude]);
    ApiResponse(200, ResponseBody(
      view(facility.facilityName, facility.address),
      seq(|ordered|, i requires 0 <= i < |ordered| => view(ordered[i].presentName, ordered[i].address)),
      polylines))
  }

  // ---- the handler ----

  datatype ApiEvent = ApiEvent(queryStringParameters: Option<map<string, string>>)

  /** `EventParam`: the `apiKey` query parameter. */
  function ApiKeyOf(event: ApiEvent): (r: Result<string, ApiError>)
    ensures r.Ok? <==> event.queryStringParameters.Some? && "apiKey" in event.queryStringParameters.value
    ensures r.Ok? ==> r.value == event.queryStringParameters.value["apiKey"]
  {
    match event.queryStringParameters
    case None => Err(MissingApiKey)
    case Some(params) => if "apiKey" in params then Ok(params["apiKey"]) else Err(MissingApiKey)
  }

  /** `is_invalid_api_key`: reads the stored key (`None` when the parameter store raises)
      and reports whether the given key differs from it. */
  function IsInvalidApiKey(given: string, stored: Option<string>): (r: Result<bool, ApiError>)
    ensures r.Err? <==> stored.None?
    ensures r.Err? ==> r.error == ParameterStoreFailed
    ensures r == Ok(false) <==> stored == Some(given)
  {
    match stored
    case None => Err(ParameterStoreFailed)
    case Some(key) => if given == key then Ok(false) else Ok(true)
  }

  /** Everything outside the function: parameter store, database, HERE services, and the
      rendering of coordinates as text. `None` or `false` stands for a call that raised. */
  datatype ApiServices = ApiServices(
    storedApiKey: Option<string>,
    openDb: Option<DbHandle>,
    openHere: Option<HereClient>,
    selectFacility: Option<seq<Row>>,
    selectPresents: Option<seq<Row>>,
    planner: TourPlanner,
    router: Router,
    insertRoute: DeliveryRouteRow -> bool,
    render: Coord -> string)

  /** The points of the presents, in the given order. */
  function OrderedPoints(ordered: seq<Present>): (points: seq<Point>)
    ensures |points| == |ordered|
    ensures forall i :: 0 <= i < |ordered| ==> points[i] == ordered[i].address.point
  {
    seq(|ordered|, i requires 0 <= i < |ordered| => ordered[i].address.point)
  }

  /** What the handler has gathered before it stores the route. */
  datatype DeliveryPlan = DeliveryPlan(facility: Facility, ordered: seq<Present>, polylines: seq<string>)

  /** The steps of the handler between creating the clients and storing the route: the
      depot, the presents, their tour order within the next delivery window, and the road
      route from the depot through the presents in that order back to the depot. The
      first step that raises decides the error. */
  function PlanDelivery(client: HereClient, today: Date, env: ApiServices): (r: Result<DeliveryPlan, ApiError>)
    ensures r.Ok? ==> env.selectFacility.Some? && FacilityOfRows(env.selectFacility.value) == Ok(r.value.facility)
    ensures r.Ok? ==> env.selectPresents.Some?
    ensures r.Ok? ==>
              var w := DeliveryWindow(DeliveryYear(today));
              var tour := TourSpec(client, r.value.facility.address.point,
                                   DeliveryStops(PresentsOfRows(env.selectPresents.value)),
                                   w.start, w.end, env.planner);
              && tour.Ok? && |r.value.ordered| == |tour.value|
              && (forall i :: 0 <= i < |tour.value| ==>
                    r.value.ordered[i].presentId == tour.value[i]
                    && r.value.ordered[i] in PresentsOfRows(env.selectPresents.value))
    ensures r.Ok? ==>
              var home := r.value.facility.address.point;
              Ok(r.value.polylines)
              == PolylinesFromReply(env.router(RouteRequestUrl,
                                               RouteRequest(client, home, home,
                                                            Some(OrderedPoints(r.value.ordered)),
                                                            env.render)))
  {
    if env.selectFacility.None? then Err(DbQueryFailed)
    else
      match FacilityOfRows(env.selectFacility.value)
      case Err(e) => Err(e)
      case Ok(facility) =>
        if env.selectPresents.None? then Err(DbQueryFailed)
        else
          var presents := PresentsOfRows(env.selectPresents.value);
          var w := DeliveryWindow(DeliveryYear(today));
          var home := facility.address.point;
          var tour := TourSpec(client, home, DeliveryStops(presents), w.start, w.end, env.planner);
          if tour.Err? then Err(TourFailed)
          else
            match ReorderByTour(presents, tour.value)
            case Err(e) => Err(e)
            case Ok(ordered) =>
              var route := PolylinesFromReply(env.router(RouteRequestUrl,
                                                         RouteRequest(client, home, home,
                                                                      Some(OrderedPoints(ordered)),
                                                                      env.render)));
              if route.Err? then Err(RouteFailed) else Ok(DeliveryPlan(facility, ordered, route.value))
  }

  /** When every database read and HERE call succeeds and the planner returns only known
      present ids, the plan succeeds. */
  lemma PlanSucceeds(client: HereClient, today: Date, env: ApiServices)
    requires env.selectFacility.Some? && |env.selectFacility.value| >= 1 && env.selectPresents.Some?
    requires var f := FacilityOfRows(env.selectFacility.value).value;
             var w := DeliveryWindow(DeliveryYear(today));
             var presents := PresentsOfRows(env.selectPresents.value);
             var tour := TourSpec(client, f.address.point, DeliveryStops(presents), w.start, w.end, env.planner);
             && tour.Ok?
             && (forall i :: 0 <= i < |tour.value| ==> HasPresent(presents, tour.value[i]))
             && (var ordered := ReorderByTour(presents, tour.value).value;
                 PolylinesFromReply(env.router(RouteRequestUrl,
                                               RouteRequest(client, f.address.point, f.address.point,
                                                            Some(OrderedPoints(ordered)), env.render))).Ok?)
    ensures PlanDelivery(client, today, env).Ok?
  {
  }

  /** A key check that lets the caller through: the key is present, the stored key was read
      and the two agree. */
  predicate KeyAccepted(event: ApiEvent, env: ApiServices)
  {
    ApiKeyOf(event).Ok? && IsInvalidApiKey(ApiKeyOf(event).value, env.storedApiKey) == Ok(false)
  }

  /** A warm or cold instance of the function; its fields are the module-level clients
      kept between invocations. */
  class ApiHandler {
    var aurora: Option<DbHandle>
    var here: Option<HereClient>

    /** A cold start: no client yet. */
    constructor ()
      ensures aurora == None && here == None
    {
      aurora := None;
      here := None;
    }

    /** `lambda_handler`: key check, clients, plan, route insert, response. */
    method LambdaHandler(event: ApiEvent, today: Date, env: ApiServices)
      returns (res: Result<ApiResponse, ApiError>)
      modifies this
      ensures ApiKeyOf(event).Err? ==> res == Err(MissingApiKey) && unchanged(this)
      ensures ApiKeyOf(event).Ok? && IsInvalidApiKey(ApiKeyOf(event).value, env.storedApiKey).Err?
              ==> res == Err(ParameterStoreFailed) && unchanged(this)
      ensures ApiKeyOf(event).Ok? && IsInvalidApiKey(ApiKeyOf(event).value, env.storedApiKey) == Ok(true)
              ==> res == Err(InvalidApiKey) && unchanged(this)
      ensures KeyAccepted(event, env) ==>
                && aurora == (if old(aurora).Some? then old(aurora) else env.openDb)
                && (aurora.None? ==> res == Err(DbConnectFailed) && here == old(here))
                && (aurora.Some? ==> here == (if old(here).Some? then old(here) else env.openHere))
                && (aurora.Some? && here.None? ==> res == Err(HereClientFailed))
      ensures KeyAccepted(event, env) && aurora.Some? && here.Some? ==>
                var plan := PlanDelivery(here.value, today, env);
                && (plan.Err? ==> res == Err(plan.error))
                && (plan.Ok? ==>
                      var row := DeliveryRouteRowOf(plan.value.facility, plan.value.ordered,
                                                    plan.value.polylines, env.render);
                      res == if env.insertRoute(row)
                             then Ok(Respond(plan.value.facility, plan.value.ordered, plan.value.polylines))
                             else Err(DbInsertFailed))
    {
      var apiKey := ApiKeyOf(event);
      if apiKey.Err? {
        return Err(MissingApiKey);
      }
      var invalid := IsInvalidApiKey(apiKey.value, env.storedApiKey);
      if invalid.Err? {
        return Err(invalid.error);
      }
      if invalid.value {
        return Err(InvalidApiKey);
      }
      if aurora.None? {
        aurora := env.openDb;
        if aurora.None? {
          return Err(DbConnectFailed);
        }
      }
      if here.None? {
        here := env.openHere;
        if here.None? {
          return Err(HereClientFailed);
        }
      }
      if env.selectFacility.None? {
        return Err(DbQueryFailed);
      }
      var facility := FacilityOfRows(env.selectFacility.value);
      if facility.Err? {
        return Err(facility.error);
      }
      if env.selectPresents.None? {
        return Err(DbQueryFailed);
      }
      var presents := GetPresents(env.selectPresents.value);
      var ordered := GetDeliveryOrderedPresent(here.value, facility.value, presents, today, env.planner);
      if ordered.Err? {
        return Err(ordered.error);
      }
      var home := facility.value.address.point;
      var polylines := RouteCall(here.value, home, home, Some(OrderedPoints(ordered.value)), env.render,
                                 env.router);
      if polylines.Err? {
        return Err(RouteFailed);
      }
      var ok := InsertDeliveryRoute(facility.value, ordered.value, polylines.value, env.render,
                                    env.insertRoute);
      if !ok {
        return Err(DbInsertFailed);
      }
      res := Ok(Respond(facility.value, ordered.value, polylines.value));
    }
  }
}
