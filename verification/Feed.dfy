/** The search feed against the guards of the request call. */
module Feed {
  import opened Domain
  import opened Rides
  import opened Pages
  import opened Sums

  const GEO_BOX_DEG := 0.45
  const DAY: Time := 24 * 60 * 60 * 1000

  /** `date` counts days since the epoch. */
  datatype SearchDto = SearchDto(
    originLat: Option<real>, originLng: Option<real>,
    destLat: Option<real>, destLng: Option<real>,
    date: Option<nat>, seats: Option<nat>, genderPref: Option<GenderPref>,
    page: Option<int>, limit: Option<int>)

  datatype Range<T> = Range(gte: T, lte: T)

  /** The `where` record the search builds; a None column is not constrained. */
  datatype Where = Where(
    status: RideStatus, kind: RideType, notCreator: UserId,
    scheduledAt: Option<Range<int>>, minSeats: Option<nat>, genderPref: Option<GenderPref>,
    originLat: Option<Range<real>>, originLng: Option<Range<real>>,
    destLat: Option<Range<real>>, destLng: Option<Range<real>>)

  function Box(centre: real): Range<real> {
    Range(centre - GEO_BOX_DEG, centre + GEO_BOX_DEG)
  }

  function BuildWhere(viewer: UserId, role: Role, dto: SearchDto): Where {
    var nearOrigin := dto.originLat.Some? && dto.originLng.Some?;
    var nearDest := dto.destLat.Some? && dto.destLng.Some?;
    Where(Searching, if role.Rider? then Request else Offer, viewer,
          if dto.date.Some? then Some(Range(dto.date.value * DAY, dto.date.value * DAY + DAY - 1)) else None,
          if dto.seats.Some? && dto.seats.value != 0 then dto.seats else None,
          dto.genderPref,
          if nearOrigin then Some(Box(dto.originLat.value)) else None,
          if nearOrigin then Some(Box(dto.originLng.value)) else None,
          if nearDest then Some(Box(dto.destLat.value)) else None,
          if nearDest then Some(Box(dto.destLng.value)) else None)
  }

  predicate Within(x: real, r: Option<Range<real>>) {
    r.Some? ==> r.value.gte <= x <= r.value.lte
  }

  predicate Satisfies(r: Ride, q: Where) {
    && r.status == q.status && r.kind == q.kind && r.creatorId != q.notCreator
    && (q.scheduledAt.Some? ==> q.scheduledAt.value.gte <= r.scheduledAt <= q.scheduledAt.value.lte)
    && (q.minSeats.Some? ==> r.seatsAvailable >= q.minSeats.value)
    && (q.genderPref.Some? ==> r.genderPref == q.genderPref.value)
    && Within(r.origin.lat, q.originLat) && Within(r.origin.lng, q.originLng)
    && Within(r.dest.lat, q.destLat) && Within(r.dest.lng, q.destLng)
  }

  /** The rows a query finds, in the order the table is read. */
  function Matching(order: seq<RideId>, rides: map<RideId, Ride>, q: Where): seq<RideId> {
    if order == [] then []
    else
      var front, last := Matching(order[..|order| - 1], rides, q), order[|order| - 1];
      if last in rides && Satisfies(rides[last], q) then front + [last] else front
  }

  /** Every ride once, by scheduled time; how equal times are ordered is left open but fixed. */
  ghost predicate ReadingOrder(order: seq<RideId>, rides: map<RideId, Ride>) {
    && NoDuplicates(order)
    && (forall rid :: rid in order <==> rid in rides)
    && (forall i, j :: 0 <= i < j < |order| ==> rides[order[i]].scheduledAt <= rides[order[j]].scheduledAt)
  }

  // ---- What the optional filters mean ----

  function Distance(a: real, b: real): real {
    if a < b then b - a else a - b
  }

  predicate Near(p: Place, lat: Option<real>, lng: Option<real>) {
    lat.Some? && lng.Some? ==> Distance(p.lat, lat.value) <= 0.45 && Distance(p.lng, lng.value) <= 0.45
  }

  predicate PassesFilters(r: Ride, dto: SearchDto) {
    && (dto.date.Some? ==> r.scheduledAt / (24 * 3600 * 1000) == dto.date.value)
    && (dto.seats.Some? ==> r.seatsAvailable >= dto.seats.value)
    && (dto.genderPref.Some? ==> r.genderPref == dto.genderPref.value)
    && Near(r.origin, dto.originLat, dto.originLng)
    && Near(r.dest, dto.destLat, dto.destLng)
  }

  lemma DayRange(t: Time, day: nat)
    ensures day * DAY <= t <= day * DAY + DAY - 1 <==> t / DAY == day
  {
    assert t == (t / DAY) * DAY + t % DAY;
  }

  /** The built record asks for the complementary side, other people's posts, and the filters. */
  lemma WhereMeaning(r: Ride, viewer: UserId, role: Role, dto: SearchDto)
    ensures Satisfies(r, BuildWhere(viewer, role, dto))
      <==> r.status.Searching? && r.kind == (if role.Rider? then Request else Offer)
           && r.creatorId != viewer && PassesFilters(r, dto)
  {
    if dto.date.Some? {
      DayRange(r.scheduledAt, dto.date.value);
    }
  }

  // ---- The rows ----

  lemma {:induction false} MatchingIn(order: seq<RideId>, rides: map<RideId, Ride>, q: Where)
    ensures forall rid :: rid in Matching(order, rides, q) <==> rid in order && rid in rides && Satisfies(rides[rid], q)
  {
    if order == [] {
    } else {
      var front, last := order[..|order| - 1], order[|order| - 1];
      MatchingIn(front, rides, q);
      assert order == front + [last];
    }
  }

  lemma {:induction false} MatchingOrder(order: seq<RideId>, rides: map<RideId, Ride>, q: Where)
    requires NoDuplicates(order) && forall rid :: rid in order ==> rid in rides
    requires forall i, j :: 0 <= i < j < |order| ==> rides[order[i]].scheduledAt <= rides[order[j]].scheduledAt
    ensures var rows := Matching(order, rides, q);
            && NoDuplicates(rows)
            && (forall rid :: rid in rows ==> rid in order)
            && (forall i, j :: 0 <= i < j < |rows| ==> rides[rows[i]].scheduledAt <= rides[rows[j]].scheduledAt)
  {
    if order == [] {
    } else {
      var front, last := order[..|order| - 1], order[|order| - 1];
      assert order == front + [last];
      MatchingOrder(front, rides, q);
      forall rid | rid in front ensures rid != last && rides[rid].scheduledAt <= rides[last].scheduledAt {
        var i :| 0 <= i < |front| && front[i] == rid;
        assert order[i] == rid && order[|front|] == last;
      }
    }
  }

  // ---- The feed and the guards ----

  /** `requestRide` would let the viewer through, up to its check for an earlier request. */
  predicate Requestable(w: World, viewer: UserId, role: Role, rid: RideId, q: RequestId, now: Time) {
    var reply := RequestRide(w, viewer, role, rid, q, now).reply;
    reply == Done || reply == Failed(Duplicate)
  }

  /** For a passenger or a rider a shown ride is one they may request, and a ride they may
      request is shown if it passes the filters. */
  lemma ShownIffRequestable(w: World, viewer: UserId, role: Role, dto: SearchDto, rid: RideId, q: RequestId, now: Time)
    requires role == Passenger || role == Rider
    requires rid in w.rides && q !in w.requests
    ensures Satisfies(w.rides[rid], BuildWhere(viewer, role, dto))
      <==> PassesFilters(w.rides[rid], dto) && Requestable(w, viewer, role, rid, q, now)
  {
  }

  /** The feed of a viewer, all pages together. */
  function WholeFeed(w: World, order: seq<RideId>, viewer: UserId, role: Role, dto: SearchDto): seq<RideId> {
    var rows := Matching(order, w.rides, BuildWhere(viewer, role, dto));
    var win := GetPaginationParams(dto.page, dto.limit);
    PagesUpTo(rows, win.limit, PageCount(|rows|, win.limit))
  }

  /** All pages of the search together: exactly the rides that pass the filters and that the
      viewer may request, none repeated, by scheduled time. */
  lemma FeedAgreesWithGuards(w: World, order: seq<RideId>, viewer: UserId, role: Role, dto: SearchDto,
                             q: RequestId, now: Time)
    requires ReadingOrder(order, w.rides) && (role == Passenger || role == Rider) && q !in w.requests
    ensures
      var feed := WholeFeed(w, order, viewer, role, dto);
      && (forall rid :: rid in feed <==>
            rid in w.rides && PassesFilters(w.rides[rid], dto) && Requestable(w, viewer, role, rid, q, now))
      && NoDuplicates(feed)
      && (forall i, j :: 0 <= i < j < |feed| ==>
            feed[i] in w.rides && feed[j] in w.rides && w.rides[feed[i]].scheduledAt <= w.rides[feed[j]].scheduledAt)
  {
    var query := BuildWhere(viewer, role, dto);
    var rows := Matching(order, w.rides, query);
    AllPages(rows, GetPaginationParams(dto.page, dto.limit).limit);
    MatchingIn(order, w.rides, query);
    MatchingOrder(order, w.rides, query);
    forall rid | rid in w.rides
      ensures Satisfies(w.rides[rid], query)
        <==> PassesFilters(w.rides[rid], dto) && Requestable(w, viewer, role, rid, q, now)
    {
      ShownIffRequestable(w, viewer, role, dto, rid, q, now);
    }
  }

  /** An administrator sees the offers but may request none of them: a shown ride is requestable
      exactly when the viewer is a passenger or a rider. */
  lemma ShownToWhom(w: World, viewer: UserId, role: Role, dto: SearchDto, rid: RideId, q: RequestId, now: Time)
    requires rid in w.rides && q !in w.requests
    requires Satisfies(w.rides[rid], BuildWhere(viewer, role, dto))
    ensures Requestable(w, viewer, role, rid, q, now) <==> role == Passenger || role == Rider
  {
  }

  /** The feed of an administrator is the other users' searching offers that pass the filters, and
      none of them is one the administrator may request. */
  lemma FeedOfAdministrators(w: World, order: seq<RideId>, viewer: UserId, role: Role, dto: SearchDto,
                             q: RequestId, now: Time)
    requires ReadingOrder(order, w.rides) && (role == Admin || role == SuperAdmin) && q !in w.requests
    ensures
      var feed := WholeFeed(w, order, viewer, role, dto);
      && (forall rid :: rid in feed <==>
            rid in w.rides && w.rides[rid].status.Searching? && w.rides[rid].kind.Offer?
            && w.rides[rid].creatorId != viewer && PassesFilters(w.rides[rid], dto))
      && (forall rid :: rid in feed ==> !Requestable(w, viewer, role, rid, q, now))
  {
    var query := BuildWhere(viewer, role, dto);
    AllPages(Matching(order, w.rides, query), GetPaginationParams(dto.page, dto.limit).limit);
    MatchingIn(order, w.rides, query);
    forall rid | rid in w.rides
      ensures Satisfies(w.rides[rid], query)
        <==> w.rides[rid].status.Searching? && w.rides[rid].kind.Offer?
             && w.rides[rid].creatorId != viewer && PassesFilters(w.rides[rid], dto)
      ensures Satisfies(w.rides[rid], query) ==> !Requestable(w, viewer, role, rid, q, now)
    {
      WhereMeaning(w.rides[rid], viewer, role, dto);
      if Satisfies(w.rides[rid], query) {
        ShownToWhom(w, viewer, role, dto, rid, q, now);
      }
    }
  }
}
