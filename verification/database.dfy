/**
 * The `api_keys` table: the record shape with its column defaults, the
 * uniqueness the schema declares, and the generated key format. The clock and
 * the random token are parameters.
 */
module Database {
  import opened Wrappers
  import opened Text

  /** A UTC timestamp, as the clock reports it. */
  type Time = nat

  const KeyPrefix := "bgr_"

  /** One row; `isActive` is a string column holding "true" or "false". */
  datatype ApiKey = ApiKey(
    id: nat,
    key: string,
    name: string,
    createdAt: Time,
    lastUsed: Option<Time>,
    usageCount: nat,
    isActive: string)

  /** `generate_api_key`: the prefix followed by a random URL-safe token. */
  function GenerateApiKey(token: string): (k: string)
    ensures StartsWith(k, KeyPrefix)
    ensures |k| == |KeyPrefix| + |token|
    ensures k[|KeyPrefix|..] == token
  {
    KeyPrefix + token
  }

  /** The key carries its token intact: different tokens give different keys. */
  lemma GeneratedKeysDistinct(t1: string, t2: string)
    ensures t1 != t2 ==> GenerateApiKey(t1) != GenerateApiKey(t2)
  {
    if GenerateApiKey(t1) == GenerateApiKey(t2) {
      assert t1 == GenerateApiKey(t1)[|KeyPrefix|..];
    }
  }

  /** A freshly inserted row: only id, key and name are given; every other column takes its default. */
  function NewApiKey(id: nat, key: string, name: string, now: Time): (r: ApiKey)
    ensures r.id == id && r.key == key && r.name == name && r.createdAt == now
    ensures r.usageCount == 0 && r.isActive == "true" && r.lastUsed.None?
  {
    ApiKey(id, key, name, now, None, 0, "true")
  }

  /**
   * `query(APIKey).filter(...).first()`: the index of the first row, in query
   * order, that the filter accepts.
   */
  function FirstWhere(rows: seq<ApiKey>, accepts: ApiKey -> bool): (r: Option<nat>)
    ensures r.Some? ==> r.value < |rows| && accepts(rows[r.value])
    ensures r.Some? ==> forall j :: 0 <= j < r.value ==> !accepts(rows[j])
    ensures r.None? <==> forall j :: 0 <= j < |rows| ==> !accepts(rows[j])
  {
    if rows == [] then None
    else if accepts(rows[0]) then Some(0)
    else match FirstWhere(rows[1..], accepts)
      case None => None
      case Some(i) => Some(i + 1)
  }

  predicate UniqueIds(rows: seq<ApiKey>) {
    forall i, j :: 0 <= i < j < |rows| ==> rows[i].id != rows[j].id
  }

  predicate UniqueKeys(rows: seq<ApiKey>) {
    forall i, j :: 0 <= i < j < |rows| ==> rows[i].key != rows[j].key
  }

  /** The table's invariant: primary keys and key strings are unique, and every id was handed out already. */
  predicate TableValid(rows: seq<ApiKey>, nextId: nat) {
    1 <= nextId && UniqueIds(rows) && UniqueKeys(rows)
    && forall i :: 0 <= i < |rows| ==> 1 <= rows[i].id < nextId
  }

  /** The table itself, in query order; ids are allocated by the database from 1. */
  class ApiKeyTable {
    var rows: seq<ApiKey>
    var nextId: nat

    predicate Valid()
      reads this
    {
      TableValid(rows, nextId)
    }

    constructor ()
      ensures rows == [] && nextId == 1
      ensures Valid()
    {
      rows := [];
      nextId := 1;
    }
  }
}
