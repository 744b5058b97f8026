/**
 * The slip handlers: create and list (POST, GET /slips), renumber, delete and read
 * (PATCH, DELETE, GET /slips/<slip_id>), and park or release a boat
 * (PUT, DELETE /slips/<slip_id>/<boat_id>). None of them takes a content-type or Accept check.
 */
module Slips {
  import opened Wrappers
  import opened JsonValues
  import opened Datastore
  import opened Http

  /** A slip as echoed in a response: its fields and its id. */
  datatype SlipView = SlipView(id: int, slip: Slip)

  // ---------------------------------------------------------------------------------------
  // Request bodies

  /**
   * `not content or "number" not in content` evaluates without raising, and so does the
   * `content["number"]` that follows when the key is found.
   */
  predicate NumberDefined(content: Json) {
    Truthy(content) ==> SupportsIn(content) && (Contains(content, "number") ==> content.Obj?)
  }

  /**
   * PATCH /slips/<slip_id> evaluates without raising. The slip's existence is checked between
   * the membership test and the read of `content["number"]`, so a string or list body holding
   * "number" is answered 404 when the slip is absent and raises only when it is present.
   */
  predicate PatchBodyDefined(s: Store, sid: int, content: Json) {
    Truthy(content) ==> SupportsIn(content) && (Contains(content, "number") && sid in s.slips ==> content.Obj?)
  }

  /** A body that passes the 400 test of POST is a dict holding `number`, so `content["number"]` is defined. */
  lemma NumberBodyIsDict(content: Json)
    requires NumberDefined(content) && !MissingNumber(content)
    ensures content.Obj? && "number" in content.fields
  {
    ContainsOnObject(content, "number");
  }

  /** The 400 test of the create and renumber bodies. */
  predicate MissingNumber(content: Json)
    requires Truthy(content) ==> SupportsIn(content)
  {
    !Truthy(content) || !Contains(content, "number")
  }

  // ---------------------------------------------------------------------------------------
  // POST /slips

  /** The decision of POST /slips; `newId` is the key the store allocates. */
  function PostSpec(s: Store, content: Json, newId: int): (r: Outcome<SlipView>)
    requires newId !in s.slips && NumberDefined(content)
    ensures r.status in {Created, BadRequest}
    ensures r.status == BadRequest <==> MissingNumber(content)
    ensures r.status == BadRequest ==> r.store == s && r.payload == None
    ensures r.status == Created ==>
      && r.payload.Some? && r.payload.value.id == newId
      && r.store == s.(slips := s.slips[newId := r.payload.value.slip])
      && content.Obj? && r.payload.value.slip.number == content.fields["number"]
      && r.payload.value.slip.currentBoat == None
  {
    if MissingNumber(content) then Reject(BadRequest, s)
    else
      var slip := Slip(content.fields["number"], None);
      Outcome(Created, Some(SlipView(newId, slip)), s.(slips := s.slips[newId := slip]))
  }

  method Post(db: Client, content: Json) returns (status: int, view: Option<SlipView>)
    requires db.Valid() && NumberDefined(content)
    modifies db
    ensures db.Valid()
    ensures Outcome(status, view, db.State()) == PostSpec(old(db.State()), content, old(db.nextId))
  {
    if !Truthy(content) || !Contains(content, "number") {
      return BadRequest, None;
    }
    var id := db.AllocateId();
    var slip := Slip(content.fields["number"], None);
    db.slips := db.slips[id := slip];
    return Created, Some(SlipView(id, slip));
  }

  // ---------------------------------------------------------------------------------------
  // GET /slips

  /**
   * Lists every slip: the store's scan of the kind, each entry tagged with its id, in scan
   * order, so every stored slip appears exactly once.
   */
  method List(db: Client, order: seq<int>) returns (status: int, views: seq<SlipView>)
    requires IsScanOrder(order, db.slips.Keys)
    ensures status == OK
    ensures |views| == |order|
    ensures forall i | 0 <= i < |views| :: views[i] == SlipView(order[i], db.slips[order[i]])
    ensures forall id | id in db.slips :: exists i | 0 <= i < |views| :: views[i].id == id
  {
    views := [];
    var n := 0;
    while n < |order|
      invariant 0 <= n <= |order|
      invariant |views| == n
      invariant forall i | 0 <= i < n :: views[i] == SlipView(order[i], db.slips[order[i]])
    {
      views := views + [SlipView(order[n], db.slips[order[n]])];
      n := n + 1;
    }
    forall id | id in db.slips
      ensures exists i | 0 <= i < |views| :: views[i].id == id
    {
      var i :| 0 <= i < |order| && order[i] == id;
      assert views[i].id == id;
    }
    return OK, views;
  }

  // ---------------------------------------------------------------------------------------
  // PATCH, DELETE, GET /slips/<slip_id>

  /**
   * The decision of PATCH /slips/<slip_id>: the body is checked before the slip's existence,
   * and a successful renumbering also empties the slip.
   */
  function PatchSpec(s: Store, sid: int, content: Json): (r: Outcome<SlipView>)
    requires PatchBodyDefined(s, sid, content)
    ensures r.status in {OK, BadRequest, NotFound}
    ensures r.status == BadRequest <==> MissingNumber(content)
    ensures r.status == NotFound <==> !MissingNumber(content) && sid !in s.slips
    ensures r.status != OK ==> r.store == s && r.payload == None
    ensures r.status == OK ==>
      && sid in s.slips && content.Obj?
      && r.payload == Some(SlipView(sid, Slip(content.fields["number"], None)))
      && r.store == s.(slips := s.slips[sid := Slip(content.fields["number"], None)])
  {
    if MissingNumber(content) then Reject(BadRequest, s)
    else if sid !in s.slips then Reject(NotFound, s)
    else
      var slip := s.slips[sid].(number := content.fields["number"], currentBoat := None);
      Outcome(OK, Some(SlipView(sid, slip)), s.(slips := s.slips[sid := slip]))
  }

  method Patch(db: Client, sid: int, content: Json) returns (status: int, view: Option<SlipView>)
    requires db.Valid() && PatchBodyDefined(db.State(), sid, content)
    modifies db
    ensures db.Valid() && db.nextId == old(db.nextId)
    ensures Outcome(status, view, db.State()) == PatchSpec(old(db.State()), sid, content)
  {
    if !Truthy(content) || !Contains(content, "number") {
      return BadRequest, None;
    }
    if sid !in db.slips {
      return NotFound, None;
    }
    var slip := db.slips[sid];
    slip := slip.(number := content.fields["number"], currentBoat := None);
    db.slips := db.slips[sid := slip];
    return OK, Some(SlipView(sid, slip));
  }

  /** The decision of DELETE /slips/<slip_id>: only that slip goes. */
  function DeleteSpec(s: Store, sid: int): (r: Outcome<()>)
    ensures r.status in {NoContent, NotFound} && r.payload == None
    ensures r.status == NotFound <==> sid !in s.slips
    ensures r.status == NotFound ==> r.store == s
    ensures r.status == NoContent ==>
      && r.store.slips.Keys == s.slips.Keys - {sid}
      && (forall k | k in r.store.slips :: r.store.slips[k] == s.slips[k])
      && r.store.boats == s.boats && r.store.loads == s.loads
  {
    if sid !in s.slips then Reject(NotFound, s)
    else Outcome(NoContent, None, s.(slips := s.slips - {sid}))
  }

  method Delete(db: Client, sid: int) returns (status: int)
    requires db.Valid()
    modifies db
    ensures db.Valid() && db.nextId == old(db.nextId)
    ensures Outcome(status, None, db.State()) == DeleteSpec(old(db.State()), sid)
  {
    if sid !in db.slips {
      return NotFound;
    }
    db.slips := db.slips - {sid};
    return NoContent;
  }

  /** Reads a slip: 404 when absent, otherwise the stored slip tagged with its id. */
  method Get(db: Client, sid: int) returns (status: int, view: Option<SlipView>)
    ensures status in {OK, NotFound}
    ensures status == NotFound <==> sid !in db.slips
    ensures status == NotFound ==> view == None
    ensures status == OK ==> view == Some(SlipView(sid, db.slips[sid]))
  {
    if sid !in db.slips {
      return NotFound, None;
    }
    return OK, Some(SlipView(sid, db.slips[sid]));
  }

  // ---------------------------------------------------------------------------------------
  // PUT /slips/<slip_id>/<boat_id>: park a boat

  /** A slip's `current_boat` as the value the occupancy scan compares: null, or the integer id written on parking. */
  function CurrentBoatValue(currentBoat: Option<int>): Json {
    match currentBoat
    case None => Null
    case Some(id) => Int(id)
  }

  /**
   * The occupancy test as written: some slip's `current_boat` equals the raw path segment,
   * a string. Stored values are null or integers, so it never holds (see ScanNeverMatches).
   */
  predicate ParkedAsWritten(slips: map<int, Slip>, boatRaw: string) {
    exists k | k in slips :: CurrentBoatValue(slips[k].currentBoat) == Str(boatRaw)
  }

  /** The scan over every stored slip that compares its `current_boat` with the path segment. */
  method ParkedScan(slips: map<int, Slip>, boatRaw: string) returns (found: bool)
    ensures found <==> ParkedAsWritten(slips, boatRaw)
  {
    var pending := slips.Keys;
    while pending != {}
      invariant pending <= slips.Keys
      invariant forall k | k in slips.Keys - pending :: CurrentBoatValue(slips[k].currentBoat) != Str(boatRaw)
      decreases pending
    {
      NonEmptyHasElement(pending);
      var k :| k in pending;
      if CurrentBoatValue(slips[k].currentBoat) == Str(boatRaw) {
        return true;
      }
      pending := pending - {k};
    }
    return false;
  }

  /**
   * The decision of PUT /slips/<slip_id>/<boat_id>: both must exist (404), the slip must be
   * empty (403), the scan must find the boat nowhere (403); then only that slip's
   * `current_boat` becomes the boat's integer id.
   */
  function AssignSpec(s: Store, sid: int, boat: PathId): (r: Outcome<()>)
    ensures r.status in {NoContent, Forbidden, NotFound} && r.payload == None
    ensures r.status == NotFound <==> sid !in s.slips || boat.key !in s.boats
    ensures r.status == Forbidden ==> sid in s.slips && (s.slips[sid].currentBoat.Some? || ParkedAsWritten(s.slips, boat.raw))
    ensures r.status != NoContent ==> r.store == s
    ensures r.status == NoContent ==>
      && sid in s.slips && boat.key in s.boats && s.slips[sid].currentBoat == None
      && r.store == s.(slips := s.slips[sid := s.slips[sid].(currentBoat := Some(boat.key))])
  {
    if sid !in s.slips || boat.key !in s.boats then Reject(NotFound, s)
    else if s.slips[sid].currentBoat.Some? then Reject(Forbidden, s)
    else if ParkedAsWritten(s.slips, boat.raw) then Reject(Forbidden, s)
    else Outcome(NoContent, None, s.(slips := s.slips[sid := s.slips[sid].(currentBoat := Some(boat.key))]))
  }

  method Assign(db: Client, sid: int, boat: PathId) returns (status: int)
    requires db.Valid()
    modifies db
    ensures db.Valid() && db.nextId == old(db.nextId)
    ensures Outcome(status, None, db.State()) == AssignSpec(old(db.State()), sid, boat)
  {
    if sid !in db.slips || boat.key !in db.boats {
      return NotFound;
    }
    var slip := db.slips[sid];
    if slip.currentBoat.Some? {
      return Forbidden;
    }
    var parked := ParkedScan(db.slips, boat.raw);
    if parked {
      return Forbidden;
    }
    slip := slip.(currentBoat := Some(boat.key));
    db.slips := db.slips[sid := slip];
    return NoContent;
  }

  // ---------------------------------------------------------------------------------------
  // DELETE /slips/<slip_id>/<boat_id>: release a boat

  /**
   * The decision of DELETE /slips/<slip_id>/<boat_id>: 404 unless the slip and the boat exist
   * and the slip holds exactly that boat; then only that slip is emptied.
   */
  function ReleaseSpec(s: Store, sid: int, bid: int): (r: Outcome<()>)
    ensures r.status in {NoContent, NotFound} && r.payload == None
    ensures r.status == NoContent <==> sid in s.slips && bid in s.boats && s.slips[sid].currentBoat == Some(bid)
    ensures r.status == NotFound ==> r.store == s
    ensures r.status == NoContent ==>
      r.store == s.(slips := s.slips[sid := s.slips[sid].(currentBoat := None)])
  {
    if sid !in s.slips || bid !in s.boats || s.slips[sid].currentBoat != Some(bid) then Reject(NotFound, s)
    else Outcome(NoContent, None, s.(slips := s.slips[sid := s.slips[sid].(currentBoat := None)]))
  }

  method Release(db: Client, sid: int, bid: int) returns (status: int)
    requires db.Valid()
    modifies db
    ensures db.Valid() && db.nextId == old(db.nextId)
    ensures Outcome(status, None, db.State()) == ReleaseSpec(old(db.State()), sid, bid)
  {
    if sid !in db.slips || bid !in db.boats || db.slips[sid].currentBoat != Some(bid) {
      return NotFound;
    }
    var slip := db.slips[sid];
    slip := slip.(currentBoat := None);
    db.slips := db.slips[sid := slip];
    return NoContent;
  }

  // ---------------------------------------------------------------------------------------
  // Properties across handlers

  /** Parking a boat and then releasing the same pair answers 204 twice and restores the store exactly. */
  lemma AssignThenReleaseRestores(s: Store, sid: int, boat: PathId)
    requires AssignSpec(s, sid, boat).status == NoContent
    ensures ReleaseSpec(AssignSpec(s, sid, boat).store, sid, boat.key) == Outcome(NoContent, None, s)
  {
    var parked := AssignSpec(s, sid, boat).store;
    assert parked.slips[sid].(currentBoat := None) == s.slips[sid];
    assert parked.slips[sid := s.slips[sid]] == s.slips;
  }

  /**
   * A boat sits in at most one slip. The assign handler means to refuse a boat that is
   * already in a slip (slips.py:112 and the 403 at slips.py:119); as written it does not
   * keep this (see BoatParkedTwice).
   */
  ghost predicate OneSlipPerBoat(slips: map<int, Slip>) {
    forall j, k | j in slips && k in slips && j != k && slips[j].currentBoat.Some? :: slips[j].currentBoat != slips[k].currentBoat
  }

  /** The occupancy scan as written compares integers or null with a string, so it never finds anything. */
  lemma ScanNeverMatches(slips: map<int, Slip>, boatRaw: string)
    ensures !ParkedAsWritten(slips, boatRaw)
  {
    forall k | k in slips
      ensures CurrentBoatValue(slips[k].currentBoat) != Str(boatRaw)
    {
      match slips[k].currentBoat
      case None =>
      case Some(id) =>
    }
  }

  /**
   * The input that shows it: boat 7 parked in slip 1, slip 2 empty; PUT /slips/2/7 answers
   * 204 and boat 7 then occupies both slips.
   */
  lemma BoatParkedTwice()
    ensures
      var s := Store(map[7 := Boat("Orca", "Sail", Int(40), [])],
                     map[1 := Slip(Int(1), Some(7)), 2 := Slip(Int(2), None)],
                     map[]);
      var r := AssignSpec(s, 2, PathId("7", 7));
      && OneSlipPerBoat(s.slips)
      && r.status == NoContent
      && r.store.slips[1].currentBoat == Some(7) && r.store.slips[2].currentBoat == Some(7)
      && !OneSlipPerBoat(r.store.slips)
  {
    var s := Store(map[7 := Boat("Orca", "Sail", Int(40), [])],
                   map[1 := Slip(Int(1), Some(7)), 2 := Slip(Int(2), None)],
                   map[]);
    ScanNeverMatches(s.slips, "7");
    var after := AssignSpec(s, 2, PathId("7", 7)).store.slips;
    assert after[1].currentBoat == after[2].currentBoat;
  }

  /** The occupancy test as intended: some slip already holds the boat's integer id. */
  predicate ParkedIntended(slips: map<int, Slip>, bid: int) {
    exists k | k in slips :: slips[k].currentBoat == Some(bid)
  }

  /** PUT /slips/<slip_id>/<boat_id> with the occupancy scan comparing against `int(boat_id)`. */
  function AssignIntendedSpec(s: Store, sid: int, bid: int): (r: Outcome<()>)
    ensures r.payload == None
    ensures r.status in {NotFound, Forbidden, NoContent}
    ensures r.status == NotFound <==> sid !in s.slips || bid !in s.boats
    ensures r.status == Forbidden <==>
      sid in s.slips && bid in s.boats && (s.slips[sid].currentBoat.Some? || ParkedIntended(s.slips, bid))
    ensures r.status != NoContent ==> r.store == s
    ensures r.status == NoContent ==>
      && sid in s.slips && bid in s.boats
      && s.slips[sid].currentBoat.None? && !ParkedIntended(s.slips, bid)
      && r.store == s.(slips := s.slips[sid := s.slips[sid].(currentBoat := Some(bid))])
    ensures sid in s.slips && bid in s.boats && s.slips[sid].currentBoat.None? && !ParkedIntended(s.slips, bid) ==>
      r.status == NoContent
  {
    if sid !in s.slips || bid !in s.boats then Reject(NotFound, s)
    else if s.slips[sid].currentBoat.Some? then Reject(Forbidden, s)
    else if ParkedIntended(s.slips, bid) then Reject(Forbidden, s)
    else Outcome(NoContent, None, s.(slips := s.slips[sid := s.slips[sid].(currentBoat := Some(bid))]))
  }

  /** With the intended scan, parking keeps every boat in at most one slip. */
  lemma AssignIntendedKeepsOneSlipPerBoat(s: Store, sid: int, bid: int)
    requires OneSlipPerBoat(s.slips)
    ensures OneSlipPerBoat(AssignIntendedSpec(s, sid, bid).store.slips)
  {
    var r := AssignIntendedSpec(s, sid, bid);
    if r.status == NoContent {
      var after := r.store.slips;
      forall j, k | j in after && k in after && j != k && after[j].currentBoat.Some?
        ensures after[j].currentBoat != after[k].currentBoat
      {
        if j == sid {
          assert s.slips[k].currentBoat != Some(bid);
        } else if k == sid {
          assert s.slips[j].currentBoat != Some(bid);
        }
      }
    }
  }

  /** Releasing, renumbering, creating and deleting slips keep every boat in at most one slip. */
  lemma OtherSlipHandlersKeepOneSlipPerBoat(s: Store, sid: int, bid: int, content: Json, newId: int)
    requires OneSlipPerBoat(s.slips)
    requires NumberDefined(content) && PatchBodyDefined(s, sid, content) && newId !in s.slips
    ensures OneSlipPerBoat(ReleaseSpec(s, sid, bid).store.slips)
    ensures OneSlipPerBoat(PatchSpec(s, sid, content).store.slips)
    ensures OneSlipPerBoat(PostSpec(s, content, newId).store.slips)
    ensures OneSlipPerBoat(DeleteSpec(s, sid).store.slips)
  {
  }
}
