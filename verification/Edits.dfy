/** What a ride's row says over a run: its post, as later edits changed it; and when its expiry
    job still fires at the time the row names. */
module Edits {
  import opened Domain
  import opened Rides
  import opened Lifecycle
  import opened Authority

  // ---- One call ----

  /** The job of an existing ride keeps its firing time whatever is done to the ride. */
  lemma JobNeverMoves(w: World, c: Call, rid: RideId)
    requires Inv(w) && rid in w.rides
    ensures rid in w.expiryJobs && rid in After(w, c).expiryJobs && After(w, c).expiryJobs[rid] == w.expiryJobs[rid]
  {
  }

  /** Does the row let this call edit it? */
  predicate Admits(r: Ride, c: Call, rid: RideId) {
    c.Update? && c.rid == rid && c.caller == r.creatorId && r.status.Searching?
    && (c.edit.scheduledAt.Some? ==> c.edit.scheduledAt.value > c.now)
  }

  /** A ride whose job fires at its scheduled time loses that agreement exactly by an edit of its
      creator, while it is searching, that names another time in the future. */
  lemma JobMatchesUnlessRescheduled(w: World, c: Call, rid: RideId)
    requires Inv(w) && rid in w.rides && w.expiryJobs[rid] == w.rides[rid].scheduledAt
    ensures
      var w' := After(w, c);
      rid in w'.rides && rid in w'.expiryJobs
      && (w'.expiryJobs[rid] == w'.rides[rid].scheduledAt
          <==> !(Admits(w.rides[rid], c, rid) && c.edit.scheduledAt.Some?
                 && c.edit.scheduledAt.value != w.rides[rid].scheduledAt))
  {
    JobNeverMoves(w, c, rid);
    ColumnsFollow(w, c, rid);
  }

  /** A new ride starts with the agreement, in the future, and searching. */
  lemma CreatedWithItsJob(w: World, caller: UserId, role: Role, dto: CreateRideDto, id: RideId, now: Time)
    requires id !in w.rides
    ensures
      var o := CreateRide(w, caller, role, dto, id, now);
      && (o.reply.Done? <==> dto.scheduledAt > now && (if dto.kind.Offer? then role == Rider else role == Passenger))
      && (o.reply == Failed(Forbidden) <==> role != if dto.kind.Offer? then Rider else Passenger)
      && (o.reply.Failed? ==> o.w == w && (o.reply.error == Forbidden || o.reply.error == BadRequest))
      && (o.reply.Done? <==> id in o.w.rides)
      && (o.reply.Done? ==> id in o.w.expiryJobs && o.w.expiryJobs[id] == o.w.rides[id].scheduledAt
                            && o.w.rides[id].scheduledAt > now && o.w.rides[id].status.Searching?
                            && o.w.rides[id].creatorId == caller && o.w.rides[id].kind == dto.kind
                            && o.w.rides[id].fare == dto.fare
                            && o.w.rides[id].origin == dto.origin && o.w.rides[id].dest == dto.dest
                            && o.w.rides[id].seatsAvailable == (if dto.seatsAvailable.Some? then dto.seatsAvailable.value else 1)
                            && o.w.rides[id].genderPref == (if dto.genderPref.Some? then dto.genderPref.value else Any))
  {
  }

  // ---- Runs ----

  const NO_EDIT := UpdateRideDto(None, None, None, None)

  /** Two edits in a row, as one: the later wins where it names a column. */
  function Merge(a: UpdateRideDto, b: UpdateRideDto): UpdateRideDto {
    UpdateRideDto(if b.fare.Some? then b.fare else a.fare,
                  if b.seatsAvailable.Some? then b.seatsAvailable else a.seatsAvailable,
                  if b.scheduledAt.Some? then b.scheduledAt else a.scheduledAt,
                  if b.genderPref.Some? then b.genderPref else a.genderPref)
  }

  function EditOf(w: World, c: Call, rid: RideId): UpdateRideDto {
    if rid in w.rides && Admits(w.rides[rid], c, rid) then c.edit else NO_EDIT
  }

  /** The edits the ride admits along the run, merged. */
  function EditsOf(w: World, calls: seq<Call>, rid: RideId): UpdateRideDto
    decreases |calls|
  {
    if calls == [] then NO_EDIT
    else Merge(EditOf(w, calls[0], rid), EditsOf(After(w, calls[0]), calls[1..], rid))
  }

  /** The row r' is r with the edit e, as far as posting and editing go. */
  predicate Follows(r: Ride, e: UpdateRideDto, r': Ride) {
    && r'.creatorId == r.creatorId && r'.kind == r.kind && r'.origin == r.origin && r'.dest == r.dest
    && r'.fare == GetOr(e.fare, r.fare)
    && r'.seatsAvailable == GetOr(e.seatsAvailable, r.seatsAvailable)
    && r'.scheduledAt == GetOr(e.scheduledAt, r.scheduledAt)
    && r'.genderPref == GetOr(e.genderPref, r.genderPref)
  }

  lemma UpdateFollows(w: World, c: Call, rid: RideId)
    requires rid in w.rides && c.Update?
    ensures rid in After(w, c).rides && Follows(w.rides[rid], EditOf(w, c, rid), After(w, c).rides[rid])
    ensures c.rid == rid ==> (Perform(w, c).reply.Done? <==> Admits(w.rides[rid], c, rid))
  {
  }

  lemma OthersFollow(w: World, c: Call, rid: RideId)
    requires rid in w.rides && !c.Update?
    ensures rid in After(w, c).rides && Follows(w.rides[rid], NO_EDIT, After(w, c).rides[rid])
  {
  }

  lemma ColumnsFollow(w: World, c: Call, rid: RideId)
    requires rid in w.rides
    ensures rid in After(w, c).rides && Follows(w.rides[rid], EditOf(w, c, rid), After(w, c).rides[rid])
  {
    if c.Update? {
      UpdateFollows(w, c, rid);
    } else {
      OthersFollow(w, c, rid);
    }
  }

  lemma {:induction false} RunFollows(w: World, calls: seq<Call>, rid: RideId)
    requires Inv(w) && rid in w.rides
    ensures var w' := Run(w, calls);
            && rid in w'.rides && Follows(w.rides[rid], EditsOf(w, calls, rid), w'.rides[rid])
            && rid in w.expiryJobs && rid in w'.expiryJobs && w'.expiryJobs[rid] == w.expiryJobs[rid]
    decreases |calls|
  {
    if calls == [] {
    } else {
      Step(w, calls[0]);
      JobNeverMoves(w, calls[0], rid);
      ColumnsFollow(w, calls[0], rid);
      RunFollows(After(w, calls[0]), calls[1..], rid);
    }
  }

  // ---- From the post on ----

  /** Step i posted the ride. */
  predicate PostsAt(calls: seq<Call>, i: int, rid: RideId) {
    EffectiveAt(calls, i) && calls[i].Create? && calls[i].id == rid
  }

  lemma {:induction false} EveryRidePosted(calls: seq<Call>, rid: RideId)
    requires rid in Run(EMPTY, calls).rides
    ensures exists i :: PostsAt(calls, i, rid) && rid !in Run(EMPTY, calls[..i]).rides
    decreases |calls|
  {
    if calls == [] {
    } else {
      var front, last := calls[..|calls| - 1], calls[|calls| - 1];
      RunSnoc(EMPTY, calls);
      assert calls == front + [last];
      if rid in Run(EMPTY, front).rides {
        EveryRidePosted(front, rid);
        var i :| PostsAt(front, i, rid) && rid !in Run(EMPTY, front[..i]).rides;
        Extends(front, last, i);
        assert calls[..i] == front[..i];
        assert PostsAt(calls, i, rid);
      } else {
        BornByCreate(Run(EMPTY, front), last, rid);
        LastEffective(front, last);
        assert calls[..|front|] == front;
        assert PostsAt(calls, |front|, rid);
      }
    }
  }

  lemma BornByCreate(w: World, c: Call, rid: RideId)
    requires rid !in w.rides && rid in After(w, c).rides
    ensures c.Create? && c.id == rid && Perform(w, c).reply.Done?
  {
  }

  lemma {:induction false} RunSplit(w: World, calls: seq<Call>, i: nat)
    requires i <= |calls|
    ensures Run(w, calls) == Run(Run(w, calls[..i]), calls[i..])
    decreases i
  {
    if i == 0 {
      assert calls[..0] == [] && calls[0..] == calls;
    } else {
      RunSplit(After(w, calls[0]), calls[1..], i - 1);
      assert calls[..i][1..] == calls[1..][..i - 1];
      assert calls[1..][i - 1..] == calls[i..];
    }
  }

  /** The ride was posted at step i: by its creator, in the role its type asks for, for a time then
      in the future; the row is that post with the edits admitted since; the job fires at the
      post's time; and that is the row's time exactly if the last time named by an admitted edit
      is the post's, or none named one. */
  ghost predicate PostedThenEdited(calls: seq<Call>, i: int, rid: RideId) {
    && PostsAt(calls, i, rid)
    && var w, post := Run(EMPTY, calls), calls[i];
       var edits := EditsOf(Run(EMPTY, calls[..i + 1]), calls[i + 1..], rid);
       && rid in w.rides && rid in w.expiryJobs
       && post.caller == w.rides[rid].creatorId && post.dto.scheduledAt > post.now
       && post.role == (if w.rides[rid].kind.Offer? then Rider else Passenger)
       && Follows(NewRide(post.caller, post.dto), edits, w.rides[rid])
       && w.expiryJobs[rid] == post.dto.scheduledAt
       && (w.expiryJobs[rid] == w.rides[rid].scheduledAt
           <==> edits.scheduledAt == None || edits.scheduledAt == Some(post.dto.scheduledAt))
  }

  lemma PostThenEdits(calls: seq<Call>, i: int, rid: RideId)
    requires PostsAt(calls, i, rid) && rid !in Run(EMPTY, calls[..i]).rides
    ensures PostedThenEdited(calls, i, rid)
  {
    var before, post := Run(EMPTY, calls[..i]), calls[i];
    var first := calls[..i + 1];
    RunSnoc(EMPTY, first);
    assert first[..|first| - 1] == calls[..i] && first[|first| - 1] == post;
    CreatedWithItsJob(before, post.caller, post.role, post.dto, rid, post.now);
    RunKeepsInv(EMPTY, first);
    RunFollows(Run(EMPTY, first), calls[i + 1..], rid);
    RunSplit(EMPTY, calls, i + 1);
  }

  /** Over every run, for every ride. */
  lemma RowIsPostPlusEdits(calls: seq<Call>, rid: RideId)
    requires rid in Run(EMPTY, calls).rides
    ensures exists i :: PostedThenEdited(calls, i, rid)
  {
    EveryRidePosted(calls, rid);
    var i :| PostsAt(calls, i, rid) && rid !in Run(EMPTY, calls[..i]).rides;
    PostThenEdits(calls, i, rid);
  }
}
