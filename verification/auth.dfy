/**
 * API-key validation for the bearer credential: look the key up, reject an
 * unknown or inactive key without touching the table, otherwise stamp the
 * record with the current time and count one more use.
 */
module Auth {
  import opened Wrappers
  import opened Database

  const Unauthorized := 401
  const InvalidKey := "Invalid API key"
  const InactiveKey := "API key is inactive"

  /** An `HTTPException`: a status code and its `detail`. */
  datatype HttpError = HttpError(status: nat, detail: string)

  /** `filter(APIKey.key == key).first()`: the index of the first record with that key. */
  function FindByKey(rows: seq<ApiKey>, key: string): (r: Option<nat>)
    ensures r.Some? ==> r.value < |rows| && rows[r.value].key == key
    ensures r.Some? ==> forall j :: 0 <= j < r.value ==> rows[j].key != key
    ensures r.None? <==> forall j :: 0 <= j < |rows| ==> rows[j].key != key
  {
    FirstWhere(rows, (rec: ApiKey) => rec.key == key)
  }

  /** With unique keys, the record a key finds is the only one holding it. */
  lemma FindsTheKeyHolder(rows: seq<ApiKey>, i: nat)
    requires UniqueKeys(rows) && i < |rows|
    ensures FindByKey(rows, rows[i].key) == Some(i)
  {
  }

  /** The outcome of one validation and the table it leaves. */
  datatype Validation = Validation(outcome: Result<ApiKey, HttpError>, rows: seq<ApiKey>)

  /** `validate_api_key` on the table's rows at time `now`. */
  function Authenticate(rows: seq<ApiKey>, key: string, now: Time): (v: Validation)
    ensures v.outcome.Err? ==> v.rows == rows && v.outcome.error.status == Unauthorized
    ensures FindByKey(rows, key).None? ==> v.outcome == Err(HttpError(Unauthorized, InvalidKey))
    ensures FindByKey(rows, key).Some? && rows[FindByKey(rows, key).value].isActive != "true" ==>
      v.outcome == Err(HttpError(Unauthorized, InactiveKey))
    ensures v.outcome.Ok? <==> FindByKey(rows, key).Some? && rows[FindByKey(rows, key).value].isActive == "true"
    ensures v.outcome.Ok? ==>
      var i := FindByKey(rows, key).value;
      var rec := v.outcome.value;
      rec.key == key
      && rec.usageCount == rows[i].usageCount + 1 && rec.lastUsed == Some(now)
      && rec.id == rows[i].id && rec.name == rows[i].name && rec.createdAt == rows[i].createdAt
      && rec.isActive == rows[i].isActive
      && |v.rows| == |rows| && v.rows[i] == rec
      && forall j :: 0 <= j < |rows| && j != i ==> v.rows[j] == rows[j]
  {
    match FindByKey(rows, key)
    case None => Validation(Err(HttpError(Unauthorized, InvalidKey)), rows)
    case Some(i) =>
      if rows[i].isActive != "true" then Validation(Err(HttpError(Unauthorized, InactiveKey)), rows)
      else
        var rec := rows[i].(lastUsed := Some(now), usageCount := rows[i].usageCount + 1);
        Validation(Ok(rec), rows[i := rec])
  }

  /** Validation keeps ids and keys unique and allocates no id. */
  lemma AuthenticateKeepsTableValid(rows: seq<ApiKey>, nextId: nat, key: string, now: Time)
    requires TableValid(rows, nextId)
    ensures TableValid(Authenticate(rows, key, now).rows, nextId)
  {
  }

  /** The table after a series of validations of the same key at the given times. */
  function ValidateAll(rows: seq<ApiKey>, key: string, times: seq<Time>): seq<ApiKey>
    decreases |times|
  {
    if times == [] then rows
    else ValidateAll(Authenticate(rows, key, times[0]).rows, key, times[1..])
  }

  /**
   * Every accepted request counts exactly once: after `n` validations of an
   * active key its counter has grown by `n`, it carries the last time, and no
   * other record has changed.
   */
  lemma {:induction false} RepeatedValidation(rows: seq<ApiKey>, key: string, times: seq<Time>, i: nat)
    requires FindByKey(rows, key) == Some(i) && rows[i].isActive == "true"
    ensures var after := ValidateAll(rows, key, times);
      |after| == |rows|
      && after[i].usageCount == rows[i].usageCount + |times|
      && (times != [] ==> after[i].lastUsed == Some(times[|times| - 1]))
      && after[i].key == key && after[i].isActive == "true"
      && forall j :: 0 <= j < |rows| && j != i ==> after[j] == rows[j]
    decreases |times|
  {
    if times != [] {
      var next := Authenticate(rows, key, times[0]).rows;
      assert next[i].key == key;
      assert forall j :: 0 <= j < i ==> next[j] == rows[j];
      var r := FindByKey(next, key);
      assert r == Some(i);
      RepeatedValidation(next, key, times[1..], i);
    }
  }

  /** `validate_api_key` against the table; the clock reading is `now`. */
  method ValidateApiKey(db: ApiKeyTable, key: string, now: Time) returns (r: Result<ApiKey, HttpError>)
    requires db.Valid()
    modifies db
    ensures db.Valid()
    ensures Validation(r, db.rows) == Authenticate(old(db.rows), key, now)
    ensures db.nextId == old(db.nextId)
  {
    var found := FindByKey(db.rows, key);
    if found.None? {
      return Err(HttpError(Unauthorized, InvalidKey));
    }
    var rec := db.rows[found.value];
    if rec.isActive != "true" {
      return Err(HttpError(Unauthorized, InactiveKey));
    }
    rec := rec.(lastUsed := Some(now));
    rec := rec.(usageCount := rec.usageCount + 1);
    AuthenticateKeepsTableValid(db.rows, db.nextId, key, now);
    db.rows := db.rows[found.value := rec];
    r := Ok(rec);
  }
}
