/**
 * The load handlers: create and page through loads (POST, GET /loads), and name, delete and
 * read one load (PUT, DELETE, GET /loads/<lid>). None of them takes a content-type or Accept
 * check, and none attaches a load to a boat.
 */
module Loads {
  import opened Wrappers
  import opened JsonValues
  import opened Datastore
  import opened Http

  /** A load as listed: its fields and its id. */
  datatype LoadView = LoadView(id: int, load: Load)

  /** A created or read load as echoed: its fields, its id and its `self` link. */
  datatype LoadResource = LoadResource(id: int, load: Load, self: SelfLink)

  // ---------------------------------------------------------------------------------------
  // POST /loads

  /** `"volume" in content and "item" in content and "creation_date" in content` */
  predicate HasLoadFields(content: Json)
    requires SupportsIn(content)
  {
    Contains(content, "volume") && Contains(content, "item") && Contains(content, "creation_date")
  }

  /** The missing-key test evaluates without raising, and so do the reads of the three fields after it. */
  predicate LoadBodyDefined(content: Json) {
    Truthy(content) ==> SupportsIn(content) && (HasLoadFields(content) ==> content.Obj?)
  }

  /** The 400 test of the create body; the values themselves are not checked. */
  predicate MissingLoadFields(content: Json)
    requires LoadBodyDefined(content)
  {
    !Truthy(content) || !HasLoadFields(content)
  }

  /** A body that passes the 400 test is a dict holding the three keys, so the reads that follow are defined. */
  lemma LoadBodyIsDict(content: Json)
    requires LoadBodyDefined(content) && !MissingLoadFields(content)
    ensures content.Obj? && {"volume", "item", "creation_date"} <= content.fields.Keys
  {
    ContainsOnObject(content, "volume");
    ContainsOnObject(content, "item");
    ContainsOnObject(content, "creation_date");
  }

  /** The decision of POST /loads; `newId` is the key the store allocates. */
  function PostSpec(s: Store, content: Json, baseUrl: string, newId: int): (r: Outcome<LoadResource>)
    requires newId !in s.loads && LoadBodyDefined(content)
    ensures r.status in {Created, BadRequest}
    ensures r.status == BadRequest <==> MissingLoadFields(content)
    ensures r.status == BadRequest ==> r.store == s && r.payload == None
    ensures r.status == Created ==>
      && r.payload.Some? && r.payload.value.id == newId && r.payload.value.self == ChildOf(baseUrl, newId)
      && r.store == s.(loads := s.loads[newId := r.payload.value.load])
      && content.Obj?
      && r.payload.value.load == Load(content.fields["volume"], content.fields["item"],
                                      content.fields["creation_date"], None, None)
  {
    if MissingLoadFields(content) then Reject(BadRequest, s)
    else
      var load := Load(content.fields["volume"], content.fields["item"], content.fields["creation_date"], None, None);
      Outcome(Created, Some(LoadResource(newId, load, ChildOf(baseUrl, newId))), s.(loads := s.loads[newId := load]))
  }

  method Post(db: Client, content: Json, baseUrl: string) returns (status: int, created: Option<LoadResource>)
    requires db.Valid() && LoadBodyDefined(content)
    modifies db
    ensures db.Valid()
    ensures Outcome(status, created, db.State()) == PostSpec(old(db.State()), content, baseUrl, old(db.nextId))
  {
    if !Truthy(content) || !HasLoadFields(content) {
      return BadRequest, None;
    }
    var id := db.AllocateId();
    var load := Load(content.fields["volume"], content.fields["item"], content.fields["creation_date"], None, None);
    db.loads := db.loads[id := load];
    return Created, Some(LoadResource(id, load, ChildOf(baseUrl, id)));
  }

  // ---------------------------------------------------------------------------------------
  // GET /loads: offset/limit pages

  const DefaultLimit := 3
  const DefaultOffset := 0

  /** The link to the next page: the collection URL with `?limit=<limit>&offset=<offset>`. */
  datatype PageLink = PageLink(base: string, limit: int, offset: int)

  function Min(a: int, b: int): int {
    if a <= b then a else b
  }

  /** The ids the store returns for one fetch with this offset and limit. */
  function Window(order: seq<int>, offset: nat, limit: nat): (w: seq<int>)
    ensures |w| == (if |order| <= offset then 0 else Min(limit, |order| - offset))
    ensures forall i | 0 <= i < |w| :: offset + i < |order| && w[i] == order[offset + i]
  {
    order[Min(offset, |order|)..Min(offset + limit, |order|)]
  }

  /** Each listed id tagged onto its stored load. */
  function Tagged(loads: map<int, Load>, ids: seq<int>): (views: seq<LoadView>)
    requires forall i | 0 <= i < |ids| :: ids[i] in loads
    ensures |views| == |ids|
    ensures forall i | 0 <= i < |ids| :: views[i] == LoadView(ids[i], loads[ids[i]])
  {
    seq(|ids|, i requires 0 <= i < |ids| => LoadView(ids[i], loads[ids[i]]))
  }

  /** `next` is present exactly when the store signals more results, and moves the offset on by the limit. */
  function NextLink(baseUrl: string, limit: int, offset: int, storeHasMore: bool): (next: Option<PageLink>)
    ensures next.Some? <==> storeHasMore
    ensures next.Some? ==> next.value == PageLink(baseUrl, limit, offset + limit)
  {
    if storeHasMore then Some(PageLink(baseUrl, limit, offset + limit)) else None
  }

  /** The page and the `next` link GET /loads answers; absent `limit` and `offset` arguments default to 3 and 0. */
  datatype Listing = Listing(page: seq<LoadView>, next: Option<PageLink>)

  predicate ArgsDefined(limitArg: Option<int>, offsetArg: Option<int>) {
    0 <= limitArg.GetOr(DefaultLimit) && 0 <= offsetArg.GetOr(DefaultOffset)
  }

  function ListSpec(loads: map<int, Load>, order: seq<int>, limitArg: Option<int>, offsetArg: Option<int>,
                    storeHasMore: bool, baseUrl: string): (r: Listing)
    requires IsScanOrder(order, loads.Keys) && ArgsDefined(limitArg, offsetArg)
    ensures var limit, offset := limitArg.GetOr(DefaultLimit), offsetArg.GetOr(DefaultOffset);
      && |r.page| == (if |order| <= offset then 0 else Min(limit, |order| - offset))
      && (forall i | 0 <= i < |r.page| :: offset + i < |order| && r.page[i] == LoadView(order[offset + i], loads[order[offset + i]]))
      && (r.next.Some? <==> storeHasMore)
      && (r.next.Some? ==> r.next.value == PageLink(baseUrl, limit, offset + limit))
  {
    var limit, offset := limitArg.GetOr(DefaultLimit), offsetArg.GetOr(DefaultOffset);
    Listing(Tagged(loads, Window(order, offset, limit)), NextLink(baseUrl, limit, offset, storeHasMore))
  }

  method List(db: Client, order: seq<int>, limitArg: Option<int>, offsetArg: Option<int>,
              storeHasMore: bool, baseUrl: string) returns (status: int, page: seq<LoadView>, next: Option<PageLink>)
    requires IsScanOrder(order, db.loads.Keys) && ArgsDefined(limitArg, offsetArg)
    ensures status == OK
    ensures Listing(page, next) == ListSpec(db.loads, order, limitArg, offsetArg, storeHasMore, baseUrl)
  {
    var limit := if limitArg.Some? then limitArg.value else DefaultLimit;
    var offset := if offsetArg.Some? then offsetArg.value else DefaultOffset;
    var ids := Window(order, offset, limit);
    assert forall i | 0 <= i < |ids| :: ids[i] in db.loads;
    next := if storeHasMore then Some(PageLink(baseUrl, limit, offset + limit)) else None;
    page := [];
    var n := 0;
    while n < |ids|
      invariant 0 <= n <= |ids|
      invariant |page| == n
      invariant forall i | 0 <= i < n :: page[i] == LoadView(ids[i], db.loads[ids[i]])
    {
      page := page + [LoadView(ids[n], db.loads[ids[n]])];
      n := n + 1;
    }
    assert page == Tagged(db.loads, ids);
    return OK, page, next;
  }

  /**
   * Every page reached by following `next` from `offset`, when the store's signal is the
   * exact one (more ids lie beyond this page) and the collection does not change in between.
   */
  function AllPages(loads: map<int, Load>, order: seq<int>, limit: nat, offset: nat, baseUrl: string): seq<LoadView>
    requires IsScanOrder(order, loads.Keys) && 0 < limit
    decreases if offset <= |order| then |order| - offset else 0
  {
    var listing := ListSpec(loads, order, Some(limit), Some(offset), offset + limit < |order|, baseUrl);
    match listing.next
    case None => listing.page
    case Some(link) => listing.page + AllPages(loads, order, limit, link.offset, baseUrl)
  }

  lemma {:induction false} TaggedAppend(loads: map<int, Load>, a: seq<int>, b: seq<int>)
    requires forall i | 0 <= i < |a| :: a[i] in loads
    requires forall i | 0 <= i < |b| :: b[i] in loads
    ensures Tagged(loads, a + b) == Tagged(loads, a) + Tagged(loads, b)
  {
    var ab := a + b;
    assert forall i | 0 <= i < |ab| :: ab[i] in loads by {
      forall i | 0 <= i < |ab| ensures ab[i] in loads {
        if i < |a| { assert ab[i] == a[i]; } else { assert ab[i] == b[i - |a|]; }
      }
    }
    var lhs, rhs := Tagged(loads, ab), Tagged(loads, a) + Tagged(loads, b);
    forall i | 0 <= i < |lhs| ensures lhs[i] == rhs[i] {
      if i < |a| { assert ab[i] == a[i]; } else { assert ab[i] == b[i - |a|]; }
    }
  }

  /** One step of following `next`: this offset's page, then the pages from offset + limit if the store signals more. */
  lemma AllPagesStep(loads: map<int, Load>, order: seq<int>, limit: nat, offset: nat, baseUrl: string)
    requires IsScanOrder(order, loads.Keys) && 0 < limit && offset <= |order|
    ensures offset + limit < |order| ==>
      AllPages(loads, order, limit, offset, baseUrl)
        == Tagged(loads, order[offset..offset + limit]) + AllPages(loads, order, limit, offset + limit, baseUrl)
    ensures |order| <= offset + limit ==>
      AllPages(loads, order, limit, offset, baseUrl) == Tagged(loads, order[offset..])
  {
    var listing := ListSpec(loads, order, Some(limit), Some(offset), offset + limit < |order|, baseUrl);
    assert listing.page == Tagged(loads, Window(order, offset, limit));
    if offset + limit < |order| {
      assert Window(order, offset, limit) == order[offset..offset + limit];
      assert listing.next == Some(PageLink(baseUrl, limit, offset + limit));
    } else {
      assert Window(order, offset, limit) == order[offset..];
      assert listing.next == None;
    }
  }

  /** Following `next` from any offset within the collection lists exactly the ids from that offset on, in order. */
  lemma {:induction false} AllPagesFrom(loads: map<int, Load>, order: seq<int>, limit: nat, offset: nat, baseUrl: string)
    requires IsScanOrder(order, loads.Keys) && 0 < limit && offset <= |order|
    ensures AllPages(loads, order, limit, offset, baseUrl) == Tagged(loads, order[offset..])
    decreases |order| - offset
  {
    if offset + limit < |order| {
      AllPagesFrom(loads, order, limit, offset + limit, baseUrl);
      AllPagesJoin(loads, order, limit, offset, baseUrl);
    } else {
      AllPagesStep(loads, order, limit, offset, baseUrl);
    }
  }

  /** The induction step of AllPagesFrom: this page joined to an exact listing of the rest is an exact listing from here. */
  lemma AllPagesJoin(loads: map<int, Load>, order: seq<int>, limit: nat, offset: nat, baseUrl: string)
    requires IsScanOrder(order, loads.Keys) && 0 < limit && offset + limit < |order|
    requires AllPages(loads, order, limit, offset + limit, baseUrl) == Tagged(loads, order[offset + limit..])
    ensures AllPages(loads, order, limit, offset, baseUrl) == Tagged(loads, order[offset..])
  {
    var next := offset + limit;
    AllPagesStep(loads, order, limit, offset, baseUrl);
    assert order[offset..] == order[offset..next] + order[next..];
    TaggedAppend(loads, order[offset..next], order[next..]);
  }

  /**
   * Pagination completeness: starting at offset 0 with any positive limit, the pages joined
   * in order are every stored load exactly once, in the store's order.
   */
  lemma AllPagesComplete(loads: map<int, Load>, order: seq<int>, limit: nat, baseUrl: string)
    requires IsScanOrder(order, loads.Keys) && 0 < limit
    ensures var all := AllPages(loads, order, limit, 0, baseUrl);
      && |all| == |order|
      && (forall i | 0 <= i < |all| :: all[i] == LoadView(order[i], loads[order[i]]))
      && (forall id | id in loads :: exists i | 0 <= i < |all| :: all[i].id == id)
      && (forall i, j | 0 <= i < j < |all| :: all[i].id != all[j].id)
  {
    AllPagesFrom(loads, order, limit, 0, baseUrl);
    assert order[0..] == order;
    var all := AllPages(loads, order, limit, 0, baseUrl);
    forall id | id in loads ensures exists i | 0 <= i < |all| :: all[i].id == id {
      var i :| 0 <= i < |order| && order[i] == id;
      assert all[i].id == id;
    }
  }

  // ---------------------------------------------------------------------------------------
  // PUT /loads/<lid>

  /**
   * The decision of PUT /loads/<lid>: only the load's `name` changes. A missing load or a body
   * without `name` raises in the handler, so both are excluded by the precondition.
   */
  function PutSpec(s: Store, lid: int, content: Json): (r: Outcome<()>)
    requires lid in s.loads && content.Obj? && "name" in content.fields
    ensures r.status == OK && r.payload == None
    ensures lid in r.store.loads && r.store == s.(loads := s.loads[lid := r.store.loads[lid]])
    ensures r.store.loads[lid] == s.loads[lid].(name := Some(content.fields["name"]))
  {
    Outcome(OK, None, s.(loads := s.loads[lid := s.loads[lid].(name := Some(content.fields["name"]))]))
  }

  method Put(db: Client, lid: int, content: Json) returns (status: int)
    requires db.Valid() && lid in db.loads && content.Obj? && "name" in content.fields
    modifies db
    ensures db.Valid() && db.nextId == old(db.nextId)
    ensures Outcome(status, None, db.State()) == PutSpec(old(db.State()), lid, content)
  {
    var load := db.loads[lid];
    load := load.(name := Some(content.fields["name"]));
    db.loads := db.loads[lid := load];
    return OK;
  }

  // ---------------------------------------------------------------------------------------
  // DELETE /loads/<lid>

  /** The index of the first entry whose `id` equals the raw path segment (`next(...)` over `enumerate`). */
  function FirstMatch(refs: seq<LoadRef>, lidRaw: string): (r: Option<nat>)
    ensures r.Some? ==> r.value < |refs| && refs[r.value].id == Str(lidRaw)
    ensures r.Some? ==> forall j | 0 <= j < r.value :: refs[j].id != Str(lidRaw)
    ensures r.None? ==> forall j | 0 <= j < |refs| :: refs[j].id != Str(lidRaw)
  {
    if refs == [] then None
    else if refs[0].id == Str(lidRaw) then Some(0)
    else match FirstMatch(refs[1..], lidRaw)
      case None => None
      case Some(i) => Some(i + 1)
  }

  /** The search loop over the carrier boat's `loads` list. */
  method FindEntry(refs: seq<LoadRef>, lidRaw: string) returns (index: Option<nat>)
    ensures index == FirstMatch(refs, lidRaw)
  {
    var i := 0;
    while i < |refs|
      invariant 0 <= i <= |refs|
      invariant forall j | 0 <= j < i :: refs[j].id != Str(lidRaw)
    {
      if refs[i].id == Str(lidRaw) {
        FirstMatchIsFirst(refs, lidRaw, i);
        return Some(i);
      }
      i := i + 1;
    }
    FirstMatchIsFirst(refs, lidRaw, |refs|);
    return None;
  }

  /** Whatever index has only non-matching entries before it and a match (or the end) at it is the one FirstMatch names. */
  lemma FirstMatchIsFirst(refs: seq<LoadRef>, lidRaw: string, i: nat)
    requires i <= |refs|
    requires forall j | 0 <= j < i :: refs[j].id != Str(lidRaw)
    requires i < |refs| ==> refs[i].id == Str(lidRaw)
    ensures FirstMatch(refs, lidRaw) == if i < |refs| then Some(i) else None
  {
    var r := FirstMatch(refs, lidRaw);
    if r.Some? {
      assert r.value >= i;
    }
  }

  /** `del refs[i]`: the entry at `i` goes, the others keep their order. */
  function RemoveAt(refs: seq<LoadRef>, i: nat): (r: seq<LoadRef>)
    requires i < |refs|
    ensures |r| == |refs| - 1
    ensures forall j | 0 <= j < i :: r[j] == refs[j]
    ensures forall j | i <= j < |r| :: r[j] == refs[j + 1]
  {
    refs[..i] + refs[i + 1..]
  }

  /**
   * DELETE /loads/<lid> evaluates without raising: when the load has a carrier, that boat
   * exists and its `loads` list holds an entry whose `id` equals the raw segment.
   */
  predicate DeleteDefined(s: Store, lid: PathId) {
    lid.key in s.loads && s.loads[lid.key].carrier.Some? ==>
      var c := s.loads[lid.key].carrier.value;
      c in s.boats && FirstMatch(s.boats[c].loads, lid.raw).Some?
  }

  /** The carrier boat's list with the first entry naming the load removed. */
  function Unlisted(s: Store, lid: PathId): map<int, Boat>
    requires DeleteDefined(s, lid) && lid.key in s.loads && s.loads[lid.key].carrier.Some?
  {
    var c := s.loads[lid.key].carrier.value;
    s.boats[c := s.boats[c].(loads := RemoveAt(s.boats[c].loads, FirstMatch(s.boats[c].loads, lid.raw).value))]
  }

  /**
   * The decision of DELETE /loads/<lid> as written: 404 when absent; otherwise, if the load has
   * a carrier, the first matching entry leaves that boat's list. The load record itself is
   * never removed, and its carrier is never cleared.
   */
  function DeleteSpec(s: Store, lid: PathId): (r: Outcome<()>)
    requires DeleteDefined(s, lid)
    ensures r.status in {NoContent, NotFound} && r.payload == None
    ensures r.status == NotFound <==> lid.key !in s.loads
    ensures r.store.loads == s.loads && r.store.slips == s.slips
    ensures r.status == NotFound || s.loads[lid.key].carrier.None? ==> r.store == s
    ensures r.status == NoContent && s.loads[lid.key].carrier.Some? ==>
      var c := s.loads[lid.key].carrier.value;
      && r.store.boats.Keys == s.boats.Keys
      && (forall k | k in s.boats && k != c :: r.store.boats[k] == s.boats[k])
      && r.store.boats[c].(loads := s.boats[c].loads) == s.boats[c]
      && |r.store.boats[c].loads| == |s.boats[c].loads| - 1
      && r.store.boats[c].loads == RemoveAt(s.boats[c].loads, FirstMatch(s.boats[c].loads, lid.raw).value)
  {
    if lid.key !in s.loads then Reject(NotFound, s)
    else if s.loads[lid.key].carrier.None? then Outcome(NoContent, None, s)
    else Outcome(NoContent, None, s.(boats := Unlisted(s, lid)))
  }

  method Delete(db: Client, lid: PathId) returns (status: int)
    requires db.Valid() && DeleteDefined(db.State(), lid)
    modifies db
    ensures db.Valid() && db.nextId == old(db.nextId)
    ensures Outcome(status, None, db.State()) == DeleteSpec(old(db.State()), lid)
  {
    if lid.key !in db.loads {
      return NotFound;
    }
    var load := db.loads[lid.key];
    if load.carrier.Some? {
      var bid := load.carrier.value;
      var boat := db.boats[bid];
      var index := FindEntry(boat.loads, lid.raw);
      boat := boat.(loads := RemoveAt(boat.loads, index.value));
      db.boats := db.boats[bid := boat];
    }
    return NoContent;
  }

  /** The entries of a `loads` list that do not name the load (their `id` differs from the raw segment). */
  function Others(refs: seq<LoadRef>, lidRaw: string): seq<LoadRef> {
    if refs == [] then []
    else (if refs[0].id == Str(lidRaw) then [] else [refs[0]]) + Others(refs[1..], lidRaw)
  }

  /** How many entries of a `loads` list name the load. */
  function Matches(refs: seq<LoadRef>, lidRaw: string): nat {
    if refs == [] then 0
    else (if refs[0].id == Str(lidRaw) then 1 else 0) + Matches(refs[1..], lidRaw)
  }

  lemma {:induction false} SplitCounts(a: seq<LoadRef>, b: seq<LoadRef>, lidRaw: string)
    ensures Others(a + b, lidRaw) == Others(a, lidRaw) + Others(b, lidRaw)
    ensures Matches(a + b, lidRaw) == Matches(a, lidRaw) + Matches(b, lidRaw)
  {
    if a != [] {
      assert (a + b)[1..] == a[1..] + b;
      SplitCounts(a[1..], b, lidRaw);
    } else {
      assert a + b == b;
    }
  }

  /**
   * Removing the first matching entry drops exactly one entry naming the load and keeps every
   * other entry, in its order.
   */
  lemma {:induction false} RemovalKeepsOthers(refs: seq<LoadRef>, lidRaw: string)
    requires FirstMatch(refs, lidRaw).Some?
    ensures var after := RemoveAt(refs, FirstMatch(refs, lidRaw).value);
      && Others(after, lidRaw) == Others(refs, lidRaw)
      && Matches(after, lidRaw) + 1 == Matches(refs, lidRaw)
  {
    var i := FirstMatch(refs, lidRaw).value;
    assert refs == refs[..i] + ([refs[i]] + refs[i + 1..]);
    SplitCounts(refs[..i], [refs[i]] + refs[i + 1..], lidRaw);
    SplitCounts([refs[i]], refs[i + 1..], lidRaw);
    SplitCounts(refs[..i], refs[i + 1..], lidRaw);
    assert [refs[i]][1..] == [];
  }

  /** A successful delete of a carried load removes one entry naming it from the carrier's list and no other. */
  lemma DeleteUnlistsOnce(s: Store, lid: PathId)
    requires DeleteDefined(s, lid) && lid.key in s.loads && s.loads[lid.key].carrier.Some?
    ensures var c := s.loads[lid.key].carrier.value;
      var after := DeleteSpec(s, lid).store.boats[c].loads;
      && Others(after, lid.raw) == Others(s.boats[c].loads, lid.raw)
      && Matches(after, lid.raw) + 1 == Matches(s.boats[c].loads, lid.raw)
  {
    RemovalKeepsOthers(s.boats[s.loads[lid.key].carrier.value].loads, lid.raw);
  }

  /** Reads a load: 404 when absent, otherwise the stored load tagged with its id and the requested URL. */
  method Get(db: Client, lid: int, requestUrl: string) returns (status: int, found: Option<LoadResource>)
    ensures status in {OK, NotFound}
    ensures status == NotFound <==> lid !in db.loads
    ensures status == NotFound ==> found == None
    ensures status == OK ==> found == Some(LoadResource(lid, db.loads[lid], Requested(requestUrl)))
  {
    if lid !in db.loads {
      return NotFound, None;
    }
    return OK, Some(LoadResource(lid, db.loads[lid], Requested(requestUrl)));
  }

  // ---------------------------------------------------------------------------------------
  // The delete that keeps the load

  /**
   * The input that shows it: load 9 carried by boat 5, whose list names it once. DELETE answers
   * 204 yet load 9 is still stored, and a second DELETE of it raises (no entry matches any more).
   */
  lemma DeletedLoadSurvives()
    ensures
      var s := Store(map[5 := Boat("Orca", "Sail", Int(40), [LoadRef(Str("9"))])], map[],
                     map[9 := Load(Int(12), Str("Crates"), Str("01/02/2023"), Some(5), None)]);
      var lid := PathId("9", 9);
      && DeleteDefined(s, lid)
      && DeleteSpec(s, lid).status == NoContent
      && 9 in DeleteSpec(s, lid).store.loads
      && !DeleteDefined(DeleteSpec(s, lid).store, lid)
  {
    var s := Store(map[5 := Boat("Orca", "Sail", Int(40), [LoadRef(Str("9"))])], map[],
                   map[9 := Load(Int(12), Str("Crates"), Str("01/02/2023"), Some(5), None)]);
    var lid := PathId("9", 9);
    assert FirstMatch(s.boats[5].loads, "9") == Some(0);
    var after := DeleteSpec(s, lid).store;
    assert after.boats[5].loads == [];
  }

  /** DELETE /loads/<lid> as intended: the same unlisting, and then the load record is deleted. */
  function DeleteIntendedSpec(s: Store, lid: PathId): (r: Outcome<()>)
    requires DeleteDefined(s, lid)
    ensures r.status in {NoContent, NotFound}
    ensures r.status == NotFound <==> lid.key !in s.loads
    ensures r.payload == None
    ensures r.status == NotFound ==> r.store == s
    ensures r.status == NoContent ==>
      && lid.key !in r.store.loads
      && r.store.slips == s.slips
      && r.store.loads == s.loads - {lid.key}
      && r.store.boats == DeleteSpec(s, lid).store.boats
  {
    var r := DeleteSpec(s, lid);
    if r.status == NotFound then r
    else Outcome(NoContent, None, r.store.(loads := s.loads - {lid.key}))
  }

  /** With the intended delete, a second DELETE of the same load answers 404 and changes nothing. */
  lemma DeleteIntendedIsFinal(s: Store, lid: PathId)
    requires DeleteDefined(s, lid) && lid.key in s.loads
    ensures var after := DeleteIntendedSpec(s, lid).store;
      && DeleteDefined(after, lid)
      && DeleteIntendedSpec(after, lid) == Outcome(NotFound, None, after)
  {
  }
}
