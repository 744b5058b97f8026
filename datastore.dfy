/**
 * The store behind the three resource modules. The network datastore client becomes three
 * in-memory maps from entity id to record, one per kind, plus the allocator that hands out
 * the id of each newly put entity.
 */
module Datastore {
  import opened Wrappers
  import opened JsonValues

  /**
   * An entry of a boat's `loads` list. The only part of it this core reads is `id`,
   * compared with the raw path segment of a load; no handler of this core writes such entries.
   */
  datatype LoadRef = LoadRef(id: Json)

  /**
   * A boat as the create and replace handlers store it. `name` and `boatType` are the strings
   * that passed the character-class check; `length` is whatever JSON value passed
   * `isinstance(length, int)`.
   */
  datatype Boat = Boat(name: string, boatType: string, length: Json, loads: seq<LoadRef>)

  /** A slip: its number as sent, and the integer id of the boat parked in it (None when empty). */
  datatype Slip = Slip(number: Json, currentBoat: Option<int>)

  /**
   * A load: the three creation fields as sent, the id of its carrier boat (None when it has
   * none), and the `name` field that only the replace handler ever sets.
   */
  datatype Load = Load(volume: Json, item: Json, creationDate: Json, carrier: Option<int>, name: Option<Json>)

  /** A snapshot of the whole store. */
  datatype Store = Store(boats: map<int, Boat>, slips: map<int, Slip>, loads: map<int, Load>)

  /**
   * `order` is what a kind query returns: every id of the kind exactly once, in the store's
   * order.
   */
  ghost predicate IsScanOrder(order: seq<int>, keys: set<int>) {
    && (forall i, j | 0 <= i < j < |order| :: order[i] != order[j])
    && (forall i | 0 <= i < |order| :: order[i] in keys)
    && (forall k | k in keys :: k in order)
  }

  /** A non-empty set of ids has an element to pick: the step of every scan over a kind. */
  lemma NonEmptyHasElement(s: set<int>)
    requires s != {}
    ensures exists k :: k in s
  {
    if forall k :: k !in s {
      assert false;
    }
  }

  /** The datastore client: the maps the handlers read, put into and delete from. */
  class Client {
    var boats: map<int, Boat>
    var slips: map<int, Slip>
    var loads: map<int, Load>
    /** Every id allocated so far is below this one. */
    var nextId: int

    ghost predicate Valid()
      reads this
    {
      && 0 < nextId
      && (forall k | k in boats :: k < nextId)
      && (forall k | k in slips :: k < nextId)
      && (forall k | k in loads :: k < nextId)
    }

    function State(): Store
      reads this
    {
      Store(boats, slips, loads)
    }

    constructor ()
      ensures Valid()
      ensures State() == Store(map[], map[], map[])
    {
      boats, slips, loads := map[], map[], map[];
      nextId := 1;
    }

    /** The key the store assigns to a new entity on `put`: positive and used by no entity yet. */
    method AllocateId() returns (id: int)
      requires Valid()
      modifies this`nextId
      ensures Valid()
      ensures id == old(nextId) && id < nextId
      ensures 0 < id && id !in boats && id !in slips && id !in loads
    {
      id := nextId;
      nextId := nextId + 1;
    }
  }
}

/** What a handler receives from the web framework and what it answers. */
module Http {
  import opened Wrappers
  import opened JsonValues
  import opened Datastore

  const OK := 200
  const Created := 201
  const NoContent := 204
  const SeeOther := 303
  const BadRequest := 400
  const Forbidden := 403
  const NotFound := 404
  const NotAcceptable := 406
  const UnsupportedMediaType := 415

  /**
   * A request with a JSON body: whether its Content-Type is JSON (`request.is_json`),
   * whether its Accept header admits JSON, and the parsed body (None when parsing raised).
   */
  datatype JsonRequest = JsonRequest(isJson: bool, acceptsJson: bool, body: Option<Json>)

  /**
   * A URL path segment together with the integer `int()` reads from it. Callers supply both;
   * the model assumes `key` is `int(raw)` and does not parse `raw` itself.
   */
  datatype PathId = PathId(raw: string, key: int)

  /**
   * The `self` link or `Location` of an entity: `ChildOf(base, id)` is the collection URL
   * followed by "/" and the decimal id; `Requested(url)` is the URL the request was sent to.
   */
  datatype SelfLink = ChildOf(base: string, id: int) | Requested(url: string)

  /** The status a handler returns, the entity it echoes on success, and the store afterwards. */
  datatype Outcome<P> = Outcome(status: int, payload: Option<P>, store: Store)

  /** A failed check: the status alone, nothing echoed, the store as it was. */
  function Reject<P>(status: int, s: Store): Outcome<P> {
    Outcome(status, None, s)
  }
}
