/**
 * The boat handlers: create (POST /boats), replace (PUT), partial update (PATCH), delete and
 * read (GET /boats/<bid>). Each one runs a fixed chain of checks (content type, Accept header,
 * body parsing, existence, required keys, character class and type, name uniqueness) and
 * writes the store at most once, after every check has passed.
 */
module Boats {
  import opened Wrappers
  import opened JsonValues
  import opened Datastore
  import opened Http

  // ---------------------------------------------------------------------------------------
  // Field validation

  predicate IsAsciiLetter(c: char) {
    'a' <= c <= 'z' || 'A' <= c <= 'Z'
  }

  /** Python's `string.whitespace`: space, tab, newline, carriage return, vertical tab, form feed. */
  predicate IsWhitespace(c: char) {
    c == ' ' || c == '\t' || c == '\n' || c == '\r' || c == '\U{000B}' || c == '\U{000C}'
  }

  predicate IsAllowedChar(c: char) {
    IsAsciiLetter(c) || IsWhitespace(c)
  }

  /** `set(s).difference(ascii_letters + whitespace)`: the characters of `s` outside the class. */
  function StrayChars(s: string): set<char> {
    set c | c in s && !IsAllowedChar(c)
  }

  /** A name or type is accepted when no character of it falls outside the class. */
  predicate ValidText(s: string) {
    StrayChars(s) == {}
  }

  /** The set-difference test accepts exactly the strings made of letters and whitespace only. */
  lemma ValidTextCharByChar(s: string)
    ensures ValidText(s) <==> forall i | 0 <= i < |s| :: IsAllowedChar(s[i])
  {
    if !ValidText(s) {
      var c :| c in StrayChars(s);
      var i :| 0 <= i < |s| && s[i] == c;
    } else {
      forall i | 0 <= i < |s| ensures IsAllowedChar(s[i]) {
        assert s[i] !in StrayChars(s);
      }
    }
  }

  /** Digits are outside the class, so a name with a digit in it is rejected; the empty name is accepted. */
  lemma DigitsRejected(s: string, i: int)
    requires 0 <= i < |s| && '0' <= s[i] <= '9'
    ensures !ValidText(s)
    ensures ValidText("")
  {
    assert s[i] in StrayChars(s);
  }

  // ---------------------------------------------------------------------------------------
  // Name uniqueness

  /** Some stored boat, whichever it is, already carries `name`. */
  predicate NameTaken(boats: map<int, Boat>, name: string) {
    exists k | k in boats :: boats[k].name == name
  }

  /** The scan over every stored boat that compares its name with the candidate. */
  method NameInUse(boats: map<int, Boat>, name: string) returns (taken: bool)
    ensures taken <==> NameTaken(boats, name)
  {
    var pending := boats.Keys;
    while pending != {}
      invariant pending <= boats.Keys
      invariant forall k | k in boats.Keys - pending :: boats[k].name != name
      decreases pending
    {
      NonEmptyHasElement(pending);
      var k :| k in pending;
      if boats[k].name == name {
        return true;
      }
      pending := pending - {k};
    }
    return false;
  }

  /**
   * The invariant the create, replace and update handlers keep: every stored boat passed the
   * validation, and no two boats share a name.
   */
  ghost predicate BoatsWellFormed(boats: map<int, Boat>) {
    && (forall k | k in boats :: ValidText(boats[k].name) && ValidText(boats[k].boatType) && IsPyInt(boats[k].length))
    && (forall j, k | j in boats && k in boats && j != k :: boats[j].name != boats[k].name)
  }

  // ---------------------------------------------------------------------------------------
  // Request bodies

  /** `"name" in content and "type" in content and "length" in content` */
  predicate HasBoatFields(content: Json)
    requires SupportsIn(content)
  {
    Contains(content, "name") && Contains(content, "type") && Contains(content, "length")
  }

  /**
   * The 400 "missing attribute" test of a full body. A falsy body (None, {}, [], "", 0, false)
   * is missing everything.
   */
  predicate MissingFields(content: Json)
    requires Truthy(content) ==> SupportsIn(content)
  {
    !Truthy(content) || !HasBoatFields(content)
  }

  /**
   * The missing-key test and the validation test of a full body evaluate without raising:
   * membership is defined, a body holding all three keys is a dict, its name is a string, and
   * its type is a string whenever the name check lets evaluation reach it.
   */
  predicate FullBodyDefined(content: Json) {
    Truthy(content) ==>
      && SupportsIn(content)
      && (HasBoatFields(content) ==>
            && content.Obj?
            && content.fields["name"].Str?
            && (ValidText(content.fields["name"].s) ==> content.fields["type"].Str?))
  }

  /** The 400 "invalid value" test, short-circuiting like Python's `or`. */
  predicate FieldsInvalid(content: Json)
    requires FullBodyDefined(content) && !MissingFields(content)
  {
    || !ValidText(content.fields["name"].s)
    || !ValidText(content.fields["type"].s)
    || !IsPyInt(content.fields["length"])
  }

  /** The name, type and length of a full body that passed validation. */
  function BoatOf(content: Json, loads: seq<LoadRef>): Boat
    requires FullBodyDefined(content) && !MissingFields(content) && !FieldsInvalid(content)
  {
    Boat(content.fields["name"].s, content.fields["type"].s, content.fields["length"], loads)
  }

  /**
   * A body that passes the missing-key test is a dict holding all three keys, so the reads
   * `content["name"]`, `content["type"]` and `content["length"]` that follow it are defined.
   */
  lemma CompleteBodyIsDict(content: Json)
    requires FullBodyDefined(content) && !MissingFields(content)
    ensures content.Obj? && {"name", "type", "length"} <= content.fields.Keys
  {
    ContainsOnObject(content, "name");
    ContainsOnObject(content, "type");
    ContainsOnObject(content, "length");
  }

  /** The content-type, Accept and parse checks shared by POST, PUT and PATCH, in that order. */
  function NegotiationFailure(req: JsonRequest): (r: Option<int>)
    ensures r == None <==> req.isJson && req.acceptsJson && req.body.Some?
    ensures !req.isJson ==> r == Some(UnsupportedMediaType)
    ensures req.isJson && !req.acceptsJson ==> r == Some(NotAcceptable)
    ensures req.isJson && req.acceptsJson && req.body.None? ==> r == Some(UnsupportedMediaType)
  {
    if !req.isJson then Some(UnsupportedMediaType)
    else if !req.acceptsJson then Some(NotAcceptable)
    else if req.body.None? then Some(UnsupportedMediaType)
    else None
  }

  /** A created or read boat as echoed in the response: its fields, its id and its `self` link. */
  datatype BoatView = BoatView(id: int, boat: Boat, self: SelfLink)

  // ---------------------------------------------------------------------------------------
  // POST /boats

  predicate PostDefined(req: JsonRequest) {
    NegotiationFailure(req) == None ==> FullBodyDefined(req.body.value)
  }

  /** The decision of POST /boats on store `s`; `newId` is the key the store allocates. */
  function PostSpec(s: Store, req: JsonRequest, baseUrl: string, newId: int): (r: Outcome<BoatView>)
    requires newId !in s.boats && PostDefined(req)
    ensures r.status in {Created, BadRequest, Forbidden, NotAcceptable, UnsupportedMediaType}
    ensures NegotiationFailure(req).Some? ==> r.status == NegotiationFailure(req).value
    ensures NegotiationFailure(req) == None ==>
      var content := req.body.value;
      && (MissingFields(content) ==> r.status == BadRequest)
      && (!MissingFields(content) && FieldsInvalid(content) ==> r.status == BadRequest)
      && (!MissingFields(content) && !FieldsInvalid(content) ==>
            (r.status == Forbidden <==> NameTaken(s.boats, content.fields["name"].s)))
      && (!MissingFields(content) && !FieldsInvalid(content) && !NameTaken(s.boats, content.fields["name"].s) ==>
            r.status == Created)
    ensures r.status != Created ==> r.store == s && r.payload == None
    ensures r.status == Created ==>
      && r.payload.Some? && r.payload.value.id == newId
      && r.payload.value.self == ChildOf(baseUrl, newId)
      && r.store == s.(boats := s.boats[newId := r.payload.value.boat])
      && var b := r.payload.value.boat;
      && req.body.Some? && req.body.value.Obj?
      && req.body.value.fields["name"] == Str(b.name)
      && req.body.value.fields["type"] == Str(b.boatType)
      && req.body.value.fields["length"] == b.length
      && b.loads == []
      && ValidText(b.name) && ValidText(b.boatType) && IsPyInt(b.length)
      && !NameTaken(s.boats, b.name)
  {
    if NegotiationFailure(req).Some? then Reject(NegotiationFailure(req).value, s)
    else
      var content := req.body.value;
      if MissingFields(content) then Reject(BadRequest, s)
      else if FieldsInvalid(content) then Reject(BadRequest, s)
      else if NameTaken(s.boats, content.fields["name"].s) then Reject(Forbidden, s)
      else
        var boat := BoatOf(content, []);
        Outcome(Created, Some(BoatView(newId, boat, ChildOf(baseUrl, newId))), s.(boats := s.boats[newId := boat]))
  }

  method Post(db: Client, req: JsonRequest, baseUrl: string) returns (status: int, view: Option<BoatView>)
    requires db.Valid() && PostDefined(req)
    modifies db
    ensures db.Valid()
    ensures Outcome(status, view, db.State()) == PostSpec(old(db.State()), req, baseUrl, old(db.nextId))
  {
    if !req.isJson {
      return UnsupportedMediaType, None;
    } else if !req.acceptsJson {
      return NotAcceptable, None;
    }
    if req.body.None? {
      return UnsupportedMediaType, None;
    }
    var content := req.body.value;
    if !Truthy(content) || !HasBoatFields(content) {
      return BadRequest, None;
    }
    var name := content.fields["name"].s;
    if !ValidText(name) || !ValidText(content.fields["type"].s) || !IsPyInt(content.fields["length"]) {
      return BadRequest, None;
    }
    var taken := NameInUse(db.boats, name);
    if taken {
      return Forbidden, None;
    }
    var id := db.AllocateId();
    var boat := Boat(name, content.fields["type"].s, content.fields["length"], []);
    db.boats := db.boats[id := boat];
    return Created, Some(BoatView(id, boat, ChildOf(baseUrl, id)));
  }

  // ---------------------------------------------------------------------------------------
  // PUT /boats/<bid>

  predicate PutDefined(s: Store, bid: int, req: JsonRequest) {
    NegotiationFailure(req) == None && bid in s.boats ==> FullBodyDefined(req.body.value)
  }

  /**
   * The decision of PUT /boats/<bid>. The boat's existence is checked before the body; the
   * uniqueness scan covers every stored boat, the target included.
   */
  function PutSpec(s: Store, bid: int, req: JsonRequest, requestUrl: string): (r: Outcome<SelfLink>)
    requires PutDefined(s, bid, req)
    ensures r.status in {SeeOther, BadRequest, Forbidden, NotFound, NotAcceptable, UnsupportedMediaType}
    ensures NegotiationFailure(req).Some? ==> r.status == NegotiationFailure(req).value
    ensures r.status == NotFound <==> NegotiationFailure(req) == None && bid !in s.boats
    ensures NegotiationFailure(req) == None && bid in s.boats ==>
      var content := req.body.value;
      && (MissingFields(content) ==> r.status == BadRequest)
      && (!MissingFields(content) && FieldsInvalid(content) ==> r.status == BadRequest)
      && (!MissingFields(content) && !FieldsInvalid(content) ==>
            (r.status == Forbidden <==> NameTaken(s.boats, content.fields["name"].s)))
      && (!MissingFields(content) && !FieldsInvalid(content) && !NameTaken(s.boats, content.fields["name"].s) ==>
            r.status == SeeOther)
    ensures r.status != SeeOther ==> r.store == s && r.payload == None
    ensures r.status == SeeOther ==>
      && bid in s.boats && r.payload == Some(Requested(requestUrl))
      && bid in r.store.boats
      && r.store == s.(boats := s.boats[bid := r.store.boats[bid]])
      && var b := r.store.boats[bid];
      && req.body.Some? && req.body.value.Obj?
      && req.body.value.fields["name"] == Str(b.name)
      && req.body.value.fields["type"] == Str(b.boatType)
      && req.body.value.fields["length"] == b.length
      && b.loads == s.boats[bid].loads
      && ValidText(b.name) && ValidText(b.boatType) && IsPyInt(b.length)
      && !NameTaken(s.boats, b.name)
  {
    if NegotiationFailure(req).Some? then Reject(NegotiationFailure(req).value, s)
    else if bid !in s.boats then Reject(NotFound, s)
    else
      var content := req.body.value;
      if MissingFields(content) then Reject(BadRequest, s)
      else if FieldsInvalid(content) then Reject(BadRequest, s)
      else if NameTaken(s.boats, content.fields["name"].s) then Reject(Forbidden, s)
      else
        var boat := BoatOf(content, s.boats[bid].loads);
        Outcome(SeeOther, Some(Requested(requestUrl)), s.(boats := s.boats[bid := boat]))
  }

  method Put(db: Client, bid: int, req: JsonRequest, requestUrl: string) returns (status: int, location: Option<SelfLink>)
    requires db.Valid() && PutDefined(db.State(), bid, req)
    modifies db
    ensures db.Valid() && db.nextId == old(db.nextId)
    ensures Outcome(status, location, db.State()) == PutSpec(old(db.State()), bid, req, requestUrl)
  {
    if !req.isJson {
      return UnsupportedMediaType, None;
    } else if !req.acceptsJson {
      return NotAcceptable, None;
    }
    if req.body.None? {
      return UnsupportedMediaType, None;
    }
    var content := req.body.value;
    if bid !in db.boats {
      return NotFound, None;
    }
    var boat := db.boats[bid];
    if !Truthy(content) || !HasBoatFields(content) {
      return BadRequest, None;
    }
    var name := content.fields["name"].s;
    if !ValidText(name) || !ValidText(content.fields["type"].s) || !IsPyInt(content.fields["length"]) {
      return BadRequest, None;
    }
    var taken := NameInUse(db.boats, name);
    if taken {
      return Forbidden, None;
    }
    boat := boat.(name := name, boatType := content.fields["type"].s, length := content.fields["length"]);
    db.boats := db.boats[bid := boat];
    return SeeOther, Some(Requested(requestUrl));
  }

  // ---------------------------------------------------------------------------------------
  // PATCH /boats/<bid>

  /** `key in content and content[key]`: the field is present and truthy, so it is validated and applied. */
  predicate Active(content: Json, key: string) {
    content.Obj? && key in content.fields && Truthy(content.fields[key])
  }

  /** The name step lets the update go on: no name to apply, or a valid name no stored boat carries. */
  predicate NameStepPasses(boats: map<int, Boat>, content: Json)
    requires Active(content, "name") ==> content.fields["name"].Str?
  {
    !Active(content, "name") || (ValidText(content.fields["name"].s) && !NameTaken(boats, content.fields["name"].s))
  }

  /** The type step refuses the body: an active type outside the character class. */
  predicate TypeStepFails(content: Json)
    requires Active(content, "type") ==> content.fields["type"].Str?
  {
    Active(content, "type") && !ValidText(content.fields["type"].s)
  }

  /** The length step refuses the body: an active length that is not a Python int. */
  predicate LengthStepFails(content: Json) {
    Active(content, "length") && !IsPyInt(content.fields["length"])
  }

  /**
   * PATCH evaluates without raising: `key in content` is defined, a body that is not a dict
   * holds none of the three keys (indexing it would raise), an active name is a string, and
   * so is an active type whenever the name step lets evaluation reach it.
   */
  predicate PatchBodyDefined(boats: map<int, Boat>, content: Json) {
    && SupportsIn(content)
    && (!content.Obj? ==> !Contains(content, "name") && !Contains(content, "type") && !Contains(content, "length"))
    && (Active(content, "name") ==> content.fields["name"].Str?)
    && (NameStepPasses(boats, content) && Active(content, "type") ==> content.fields["type"].Str?)
  }

  predicate PatchDefined(s: Store, bid: int, req: JsonRequest) {
    NegotiationFailure(req) == None && bid in s.boats ==> PatchBodyDefined(s.boats, req.body.value)
  }

  /** The boat after the three PATCH steps, each applied only when its field is active. */
  function Patched(b: Boat, content: Json): Boat
    requires Active(content, "name") ==> content.fields["name"].Str?
    requires Active(content, "type") ==> content.fields["type"].Str?
  {
    var b1 := if Active(content, "name") then b.(name := content.fields["name"].s) else b;
    var b2 := if Active(content, "type") then b1.(boatType := content.fields["type"].s) else b1;
    if Active(content, "length") then b2.(length := content.fields["length"]) else b2
  }

  /**
   * The decision of PATCH /boats/<bid>: name (character class, then uniqueness), type, length,
   * each only when present and truthy; the single write comes after every step has passed.
   */
  function PatchSpec(s: Store, bid: int, req: JsonRequest): (r: Outcome<()>)
    requires PatchDefined(s, bid, req)
    ensures r.status in {OK, BadRequest, Forbidden, NotFound, NotAcceptable, UnsupportedMediaType}
    ensures r.payload == None
    ensures NegotiationFailure(req).Some? ==> r.status == NegotiationFailure(req).value
    ensures r.status == NotFound <==> NegotiationFailure(req) == None && bid !in s.boats
    ensures NegotiationFailure(req) == None && bid in s.boats ==>
      var content := req.body.value;
      && (r.status == Forbidden <==>
            Active(content, "name") && ValidText(content.fields["name"].s) && NameTaken(s.boats, content.fields["name"].s))
      && (r.status == BadRequest <==>
            || (Active(content, "name") && !ValidText(content.fields["name"].s))
            || (NameStepPasses(s.boats, content) && TypeStepFails(content))
            || (NameStepPasses(s.boats, content) && !TypeStepFails(content) && LengthStepFails(content)))
      && (r.status == OK <==> NameStepPasses(s.boats, content) && !TypeStepFails(content) && !LengthStepFails(content))
    ensures r.status != OK ==> r.store == s
    ensures r.status == OK ==>
      && bid in s.boats && bid in r.store.boats
      && r.store == s.(boats := s.boats[bid := r.store.boats[bid]])
      && var (b, content) := (r.store.boats[bid], req.body.value);
      && b.loads == s.boats[bid].loads
      && (if Active(content, "name") then Str(b.name) == content.fields["name"] && ValidText(b.name) && !NameTaken(s.boats, b.name)
          else b.name == s.boats[bid].name)
      && (if Active(content, "type") then Str(b.boatType) == content.fields["type"] && ValidText(b.boatType)
          else b.boatType == s.boats[bid].boatType)
      && (if Active(content, "length") then b.length == content.fields["length"] && IsPyInt(b.length)
          else b.length == s.boats[bid].length)
  {
    if NegotiationFailure(req).Some? then Reject(NegotiationFailure(req).value, s)
    else if bid !in s.boats then Reject(NotFound, s)
    else
      var content := req.body.value;
      if Active(content, "name") && !ValidText(content.fields["name"].s) then Reject(BadRequest, s)
      else if Active(content, "name") && NameTaken(s.boats, content.fields["name"].s) then Reject(Forbidden, s)
      else if Active(content, "type") && !ValidText(content.fields["type"].s) then Reject(BadRequest, s)
      else if Active(content, "length") && !IsPyInt(content.fields["length"]) then Reject(BadRequest, s)
      else Outcome(OK, None, s.(boats := s.boats[bid := Patched(s.boats[bid], content)]))
  }

  method Patch(db: Client, bid: int, req: JsonRequest) returns (status: int)
    requires db.Valid() && PatchDefined(db.State(), bid, req)
    modifies db
    ensures db.Valid() && db.nextId == old(db.nextId)
    ensures Outcome(status, None, db.State()) == PatchSpec(old(db.State()), bid, req)
  {
    if !req.isJson {
      return UnsupportedMediaType;
    } else if !req.acceptsJson {
      return NotAcceptable;
    }
    if req.body.None? {
      return UnsupportedMediaType;
    }
    var content := req.body.value;
    if bid !in db.boats {
      return NotFound;
    }
    var boat := db.boats[bid];
    if Active(content, "name") {
      var name := content.fields["name"].s;
      if !ValidText(name) {
        return BadRequest;
      }
      var taken := NameInUse(db.boats, name);
      if taken {
        return Forbidden;
      }
      boat := boat.(name := name);
    }
    if Active(content, "type") {
      if !ValidText(content.fields["type"].s) {
        return BadRequest;
      }
      boat := boat.(boatType := content.fields["type"].s);
    }
    if Active(content, "length") {
      if !IsPyInt(content.fields["length"]) {
        return BadRequest;
      }
      boat := boat.(length := content.fields["length"]);
    }
    db.boats := db.boats[bid := boat];
    return OK;
  }

  // ---------------------------------------------------------------------------------------
  // DELETE /boats/<bid>

  /** The decision of DELETE /boats/<bid>: the boat alone goes; slips and loads naming it are left as they are. */
  function DeleteSpec(s: Store, bid: int): (r: Outcome<()>)
    ensures r.status in {NoContent, NotFound} && r.payload == None
    ensures r.status == NotFound <==> bid !in s.boats
    ensures r.status == NotFound ==> r.store == s
    ensures r.status == NoContent ==>
      && r.store.boats.Keys == s.boats.Keys - {bid}
      && (forall k | k in r.store.boats :: r.store.boats[k] == s.boats[k])
      && r.store.slips == s.slips && r.store.loads == s.loads
  {
    if bid !in s.boats then Reject(NotFound, s)
    else Outcome(NoContent, None, s.(boats := s.boats - {bid}))
  }

  method Delete(db: Client, bid: int) returns (status: int)
    requires db.Valid()
    modifies db
    ensures db.Valid() && db.nextId == old(db.nextId)
    ensures Outcome(status, None, db.State()) == DeleteSpec(old(db.State()), bid)
  {
    if bid !in db.boats {
      return NotFound;
    }
    db.boats := db.boats - {bid};
    return NoContent;
  }

  // ---------------------------------------------------------------------------------------
  // GET /boats/<bid>

  /** Reads a boat: 404 when absent, otherwise the stored boat tagged with its id and the requested URL. */
  method Get(db: Client, bid: int, requestUrl: string) returns (status: int, view: Option<BoatView>)
    ensures status in {OK, NotFound}
    ensures status == NotFound <==> bid !in db.boats
    ensures status == NotFound ==> view == None
    ensures status == OK ==> view.Some? && view.value.id == bid && view.value.boat == db.boats[bid]
                             && view.value.self == Requested(requestUrl)
  {
    if bid !in db.boats {
      return NotFound, None;
    }
    return OK, Some(BoatView(bid, db.boats[bid], Requested(requestUrl)));
  }

  // ---------------------------------------------------------------------------------------
  // Properties across handlers

  /** A successful create keeps every stored boat valid and every name distinct. */
  lemma PostKeepsBoatsWellFormed(s: Store, req: JsonRequest, baseUrl: string, newId: int)
    requires newId !in s.boats && PostDefined(req)
    requires BoatsWellFormed(s.boats)
    ensures BoatsWellFormed(PostSpec(s, req, baseUrl, newId).store.boats)
  {
    var r := PostSpec(s, req, baseUrl, newId);
    if r.status == Created {
      var b := r.payload.value.boat;
      forall j, k | j in r.store.boats && k in r.store.boats && j != k
        ensures r.store.boats[j].name != r.store.boats[k].name
      {
        if j == newId {
          assert s.boats[k].name != b.name;
        } else if k == newId {
          assert s.boats[j].name != b.name;
        }
      }
    }
  }

  /** A successful replace keeps every stored boat valid and every name distinct. */
  lemma PutKeepsBoatsWellFormed(s: Store, bid: int, req: JsonRequest, requestUrl: string)
    requires PutDefined(s, bid, req)
    requires BoatsWellFormed(s.boats)
    ensures BoatsWellFormed(PutSpec(s, bid, req, requestUrl).store.boats)
  {
    var r := PutSpec(s, bid, req, requestUrl);
    if r.status == SeeOther {
      var b := r.store.boats[bid];
      forall j, k | j in r.store.boats && k in r.store.boats && j != k
        ensures r.store.boats[j].name != r.store.boats[k].name
      {
        if j == bid {
          assert s.boats[k].name != b.name;
        } else if k == bid {
          assert s.boats[j].name != b.name;
        }
      }
    }
  }

  /** A successful partial update keeps every stored boat valid and every name distinct. */
  lemma PatchKeepsBoatsWellFormed(s: Store, bid: int, req: JsonRequest)
    requires PatchDefined(s, bid, req)
    requires BoatsWellFormed(s.boats)
    ensures BoatsWellFormed(PatchSpec(s, bid, req).store.boats)
  {
    var r := PatchSpec(s, bid, req);
    if r.status == OK {
      var b := r.store.boats[bid];
      var content := req.body.value;
      forall j, k | j in r.store.boats && k in r.store.boats && j != k
        ensures r.store.boats[j].name != r.store.boats[k].name
      {
        if j == bid && Active(content, "name") {
          assert s.boats[k].name != b.name;
        } else if k == bid && Active(content, "name") {
          assert s.boats[j].name != b.name;
        }
      }
    }
  }

  /** Deleting a boat keeps the invariant. */
  lemma DeleteKeepsBoatsWellFormed(s: Store, bid: int)
    requires BoatsWellFormed(s.boats)
    ensures BoatsWellFormed(DeleteSpec(s, bid).store.boats)
  {
  }

  /**
   * The uniqueness scan of PUT includes the target boat: a well-formed body that repeats the
   * boat's own current name is refused with 403 and the store is left as it was.
   */
  lemma PutOwnNameRefused(s: Store, bid: int, req: JsonRequest, requestUrl: string)
    requires PutDefined(s, bid, req)
    requires NegotiationFailure(req) == None && bid in s.boats
    requires !MissingFields(req.body.value) && !FieldsInvalid(req.body.value)
    requires req.body.value.fields["name"] == Str(s.boats[bid].name)
    ensures PutSpec(s, bid, req, requestUrl) == Reject(Forbidden, s)
  {
    assert NameTaken(s.boats, req.body.value.fields["name"].s) by {
      assert s.boats[bid].name == req.body.value.fields["name"].s;
    }
  }

  /** Likewise for PATCH: re-sending the boat's own valid name is refused with 403. */
  lemma PatchOwnNameRefused(s: Store, bid: int, req: JsonRequest)
    requires PatchDefined(s, bid, req)
    requires NegotiationFailure(req) == None && bid in s.boats
    requires req.body.value.Obj? && "name" in req.body.value.fields
    requires req.body.value.fields["name"] == Str(s.boats[bid].name)
    requires s.boats[bid].name != "" && ValidText(s.boats[bid].name)
    ensures PatchSpec(s, bid, req) == Reject(Forbidden, s)
  {
    assert Active(req.body.value, "name");
    assert NameTaken(s.boats, req.body.value.fields["name"].s) by {
      assert s.boats[bid].name == req.body.value.fields["name"].s;
    }
  }

  /**
   * PATCH skips falsy fields: an empty name, an empty type, and a length of 0, 0.0 or false
   * leave the stored boat exactly as it was, and the answer is 200.
   */
  lemma PatchSkipsFalsyFields(s: Store, bid: int, req: JsonRequest)
    requires NegotiationFailure(req) == None && bid in s.boats
    requires req.body.value.Obj?
    requires forall k | k in req.body.value.fields :: !Truthy(req.body.value.fields[k])
    ensures PatchDefined(s, bid, req)
    ensures PatchSpec(s, bid, req) == Outcome(OK, None, s)
  {
    var content := req.body.value;
    assert !Active(content, "name") && !Active(content, "type") && !Active(content, "length");
    assert s.boats[bid := s.boats[bid]] == s.boats;
  }
}
