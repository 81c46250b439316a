/** `/api/admin/settings`: GET returns the key/value table as one object;
    POST upserts every entry of the body, then records the change in the
    access log. */
module SettingsRoute {
  import opened Wrappers
  import opened Store
  import opened Http
  import AdminAuth

  const UpdateAction := "update_settings"

  /** The table as an object: each key maps to its row's value (with
      repeated keys the later row would win). */
  function ToMap(rows: seq<Setting>): map<string, string> {
    if rows == [] then map[]
    else ToMap(rows[..|rows| - 1])[rows[|rows| - 1].key := rows[|rows| - 1].value]
  }

  /** The object's keys are exactly the rows' keys. */
  lemma {:induction false} ToMapKeys(rows: seq<Setting>)
    ensures ToMap(rows).Keys == set s | s in rows :: s.key
  {
    if rows != [] {
      var init := rows[..|rows| - 1];
      var last := rows[|rows| - 1];
      assert rows == init + [last];
      ToMapKeys(init);
    }
  }

  /** With unique keys the object holds exactly each row's value. */
  lemma {:induction false} ToMapLookup(rows: seq<Setting>, i: nat)
    requires KeysUnique(rows) && i < |rows|
    ensures rows[i].key in ToMap(rows)
    ensures ToMap(rows)[rows[i].key] == rows[i].value
  {
    var init := rows[..|rows| - 1];
    if i < |rows| - 1 {
      assert rows[|rows| - 1].key != rows[i].key;
      assert KeysUnique(init);
      ToMapLookup(init, i);
      assert init[i] == rows[i];
    }
  }

  /** `settings.forEach(s => settingsObj[s.key] = s.value)`. */
  method SettingsObject(rows: seq<Setting>) returns (obj: map<string, string>)
    ensures obj == ToMap(rows)
  {
    obj := map[];
    var i := 0;
    while i < |rows|
      invariant 0 <= i <= |rows|
      invariant obj == ToMap(rows[..i])
    {
      assert rows[..i + 1][..i] == rows[..i];
      obj := obj[rows[i].key := rows[i].value];
      i := i + 1;
    }
    assert rows[..i] == rows;
  }

  /** `GET`: 401 without an admin session, otherwise every stored key with
      its value. */
  method GetSettings(db: Database, cookies: map<string, Cookie>, now: int) returns (r: Response<map<string, string>>)
    requires db.Valid()
    ensures AdminAuth.GetCurrentAdmin(db.adminUsers, db.accessLog, cookies, now).None? <==> r == Fail(Unauthorized, UnauthorizedMessage)
    ensures r.Fail? ==> r.status == Unauthorized
    ensures r.Ok? ==> r.body.Keys == set s | s in db.settings :: s.key
    ensures r.Ok? ==> forall i | 0 <= i < |db.settings| :: r.body[db.settings[i].key] == db.settings[i].value
  {
    if AdminAuth.GetCurrentAdmin(db.adminUsers, db.accessLog, cookies, now).None? {
      return Fail(Unauthorized, UnauthorizedMessage);
    }
    var obj := SettingsObject(db.settings);
    ToMapKeys(db.settings);
    forall i | 0 <= i < |db.settings|
      ensures obj[db.settings[i].key] == db.settings[i].value
    {
      ToMapLookup(db.settings, i);
    }
    r := Ok(obj);
  }

  /** Position of the row with `key`, or -1. */
  function KeyIndex(rows: seq<Setting>, key: string): (k: int)
    ensures -1 <= k < |rows|
    ensures k >= 0 ==> rows[k].key == key
    ensures k == -1 <==> forall i | 0 <= i < |rows| :: rows[i].key != key
  {
    if rows == [] then -1
    else if rows[|rows| - 1].key == key then |rows| - 1
    else KeyIndex(rows[..|rows| - 1], key)
  }

  /** `upsert` on the unique `key` column: the existing row's value is
      replaced, or a new row is appended. */
  function Upsert(rows: seq<Setting>, key: string, value: string): (r: seq<Setting>)
    requires KeysUnique(rows)
    ensures KeysUnique(r)
    ensures var k := KeyIndex(rows, key);
      r == if k >= 0 then rows[k := Setting(key, value)] else rows + [Setting(key, value)]
  {
    var k := KeyIndex(rows, key);
    if k >= 0 then
      var r := rows[k := Setting(key, value)];
      assert forall i | 0 <= i < |r| && i != k :: r[i] == rows[i];
      r
    else
      rows + [Setting(key, value)]
  }

  /** Where the upserted row sits, and that every other row is untouched. */
  lemma UpsertPlace(rows: seq<Setting>, key: string, value: string) returns (i: nat)
    requires KeysUnique(rows)
    ensures var r := Upsert(rows, key, value);
      && i < |r| && r[i] == Setting(key, value)
      && (i < |rows| ==> rows[i].key == key && |r| == |rows|)
      && (i == |rows| ==> |r| == |rows| + 1 && forall j | 0 <= j < |rows| :: rows[j].key != key)
      && forall j | 0 <= j < |rows| && j != i :: r[j] == rows[j]
  {
    var k := KeyIndex(rows, key);
    i := if k >= 0 then k else |rows|;
  }

  /** An upsert adds its key to the object's keys and no other. */
  lemma UpsertKeys(rows: seq<Setting>, key: string, value: string)
    requires KeysUnique(rows)
    ensures ToMap(Upsert(rows, key, value)).Keys == ToMap(rows).Keys + {key}
  {
    var r := Upsert(rows, key, value);
    var i := UpsertPlace(rows, key, value);
    ToMapKeys(r);
    ToMapKeys(rows);
    var after := set s | s in r :: s.key;
    var before := set s | s in rows :: s.key;
    forall x | x in after
      ensures x in before + {key}
    {
      var j :| 0 <= j < |r| && r[j].key == x;
      if j != i { assert r[j] == rows[j]; }
    }
    forall x | x in before
      ensures x in after
    {
      var j :| 0 <= j < |rows| && rows[j].key == x;
      if j != i { assert r[j] == rows[j]; } else { assert r[i].key == key; }
    }
    assert r[i].key == key;
    assert after == before + {key};
  }

  /** An upsert sets the value of its key and keeps every other value. */
  lemma UpsertValue(rows: seq<Setting>, key: string, value: string, x: string)
    requires KeysUnique(rows)
    requires x in ToMap(rows).Keys + {key}
    ensures x in ToMap(Upsert(rows, key, value))
    ensures ToMap(Upsert(rows, key, value))[x] == (ToMap(rows)[key := value])[x]
  {
    var r := Upsert(rows, key, value);
    var i := UpsertPlace(rows, key, value);
    if x == key {
      ToMapLookup(r, i);
    } else {
      ToMapKeys(rows);
      var j :| 0 <= j < |rows| && rows[j].key == x;
      assert r[j] == rows[j];
      ToMapLookup(r, j);
      ToMapLookup(rows, j);
    }
  }

  /** The object after an upsert is the object before with the key set. */
  lemma UpsertSets(rows: seq<Setting>, key: string, value: string)
    requires KeysUnique(rows)
    ensures ToMap(Upsert(rows, key, value)) == ToMap(rows)[key := value]
  {
    UpsertKeys(rows, key, value);
    forall x | x in ToMap(rows).Keys + {key}
      ensures ToMap(Upsert(rows, key, value))[x] == (ToMap(rows)[key := value])[x]
    {
      UpsertValue(rows, key, value, x);
    }
  }

  /** The body's entries applied in order. */
  function UpsertAll(rows: seq<Setting>, entries: seq<(string, string)>): (r: seq<Setting>)
    requires KeysUnique(rows)
    ensures KeysUnique(r)
  {
    if entries == [] then rows
    else
      var init := entries[..|entries| - 1];
      var last := entries[|entries| - 1];
      Upsert(UpsertAll(rows, init), last.0, last.1)
  }

  /** The keys of the body (`Object.keys(body)`). */
  function Keys(entries: seq<(string, string)>): (ks: seq<string>)
    ensures |ks| == |entries|
    ensures forall i | 0 <= i < |entries| :: ks[i] == entries[i].0
  {
    if entries == [] then [] else [entries[0].0] + Keys(entries[1..])
  }

  /** The keys of a JavaScript object are distinct. */
  predicate DistinctKeys(entries: seq<(string, string)>) {
    forall i, j | 0 <= i < j < |entries| :: entries[i].0 != entries[j].0
  }

  /** After the upserts every body key holds its body value. */
  lemma {:induction false} UpsertAllSets(rows: seq<Setting>, entries: seq<(string, string)>, i: nat)
    requires KeysUnique(rows) && DistinctKeys(entries) && i < |entries|
    ensures entries[i].0 in ToMap(UpsertAll(rows, entries))
    ensures ToMap(UpsertAll(rows, entries))[entries[i].0] == entries[i].1
    decreases |entries|
  {
    var init := entries[..|entries| - 1];
    var last := entries[|entries| - 1];
    var before := UpsertAll(rows, init);
    UpsertSets(before, last.0, last.1);
    if i < |entries| - 1 {
      assert init[i] == entries[i];
      assert DistinctKeys(init);
      UpsertAllSets(rows, init, i);
      assert entries[i].0 != last.0;
    }
  }

  /** A key the body does not mention keeps its previous value, or stays
      absent. */
  lemma {:induction false} UpsertAllKeeps(rows: seq<Setting>, entries: seq<(string, string)>, x: string)
    requires KeysUnique(rows)
    requires forall i | 0 <= i < |entries| :: entries[i].0 != x
    ensures x in ToMap(UpsertAll(rows, entries)) <==> x in ToMap(rows)
    ensures x in ToMap(rows) ==> ToMap(UpsertAll(rows, entries))[x] == ToMap(rows)[x]
  {
    if entries != [] {
      var init := entries[..|entries| - 1];
      var last := entries[|entries| - 1];
      assert forall i | 0 <= i < |init| :: init[i] == entries[i];
      UpsertAllKeeps(rows, init, x);
      UpsertSets(UpsertAll(rows, init), last.0, last.1);
    }
  }

  /** The `for ... of Object.entries(body)` loop of upserts. */
  method UpsertEntries(db: Database, entries: seq<(string, string)>)
    requires db.Valid()
    modifies db`settings
    ensures db.Valid()
    ensures db.settings == UpsertAll(old(db.settings), entries)
  {
    var i := 0;
    while i < |entries|
      invariant 0 <= i <= |entries|
      invariant db.Valid()
      invariant db.settings == UpsertAll(old(db.settings), entries[..i])
    {
      assert entries[..i + 1][..i] == entries[..i];
      db.settings := Upsert(db.settings, entries[i].0, entries[i].1);
      i := i + 1;
    }
    assert entries[..i] == entries;
  }

  /** `POST` as intended: 401 without an admin session; otherwise the
      upserts, then one 'update_settings' log row for the admin listing the
      body's keys. */
  method PostSettings(db: Database, cookies: map<string, Cookie>, now: int, entries: seq<(string, string)>)
    returns (r: Response<bool>)
    requires db.Valid()
    modifies db`settings, db`accessLog, db`nextId
    ensures db.Valid()
    ensures var admin := AdminAuth.GetCurrentAdmin(old(db.adminUsers), old(db.accessLog), cookies, now);
      && (admin.None? ==> r == Fail(Unauthorized, UnauthorizedMessage)
                          && db.settings == old(db.settings) && db.accessLog == old(db.accessLog))
      && (admin.Some? ==>
            && r == Ok(true)
            && db.settings == UpsertAll(old(db.settings), entries)
            && db.accessLog == old(db.accessLog) +
                 [AccessLogEntry(old(db.nextId), Some(admin.value.id), UpdateAction, Keys(entries), None, now)])
  {
    var admin := AdminAuth.GetCurrentAdmin(db.adminUsers, db.accessLog, cookies, now);
    if admin.None? {
      return Fail(Unauthorized, UnauthorizedMessage);
    }
    UpsertEntries(db, entries);
    AdminAuth.RecordAction(db, admin.value.id, UpdateAction, Keys(entries), None, now);
    r := Ok(true);
  }

  /** `POST` as written: the call to the client's `refreshApiKeys`, which
      the client does not define, throws a TypeError after the upserts, so
      every admin request ends in 500 and no log row is written. */
  method PostSettingsAsWritten(db: Database, cookies: map<string, Cookie>, now: int, entries: seq<(string, string)>)
    returns (r: Response<bool>)
    requires db.Valid()
    modifies db`settings
    ensures db.Valid()
    ensures var admin := AdminAuth.GetCurrentAdmin(db.adminUsers, db.accessLog, cookies, now);
      && (admin.None? ==> r == Fail(Unauthorized, UnauthorizedMessage) && db.settings == old(db.settings))
      && (admin.Some? ==> r == Fail(ServerError, ServerErrorMessage) && db.settings == UpsertAll(old(db.settings), entries))
  {
    var admin := AdminAuth.GetCurrentAdmin(db.adminUsers, db.accessLog, cookies, now);
    if admin.None? {
      return Fail(Unauthorized, UnauthorizedMessage);
    }
    UpsertEntries(db, entries);
    r := Fail(ServerError, ServerErrorMessage);
  }
}
