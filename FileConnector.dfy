/** The file connector (connectors/nodejs/file/index.js): it downloads a data
    file once, as JSON or as a spreadsheet, reshapes spreadsheet rows into
    catalog records, keeps the loaded items for its webhook and streams them
    to the catalog; its webhook finds entities among the loaded items and has
    no timeseries.

    The download and the parsing of the file (the JSON parser and XLSX) are
    a parameter: whether the download succeeded, and what each parser makes
    of the body. */
module FileConnector {
  import opened Js
  import opened Text
  import Catalog
  import Webhook

  const ENTITY_PREFIX := "entity/"
  const INSTANCE_PREFIX := "instance/"
  const JSON_FORMAT := "json"

  /** A spreadsheet row as `sheet_to_json` builds it: its property names in
      property order, and their values. */
  datatype RawRow = RawRow(order: seq<string>, fields: map<string, Json>)

  /** The order lists every property exactly once. */
  predicate WellFormedRow(r: RawRow) {
    && (forall i, j | 0 <= i < j < |r.order| :: r.order[i] != r.order[j])
    && (forall i | 0 <= i < |r.order| :: r.order[i] in r.fields)
    && (forall k | k in r.fields :: k in r.order)
  }

  type Row = r: RawRow | WellFormedRow(r) witness RawRow([], map[])

  /** The two objects `rowToBBKData` gathers a row's columns into. */
  datatype Part = EntityPart | InstancePart

  /** Where `rowToBBKData` moves a column: `entity/k` to `entity.k`,
      `instance/k` to `instance.k`, any other column but `id` and `name` to
      `entity` under its own name; None for `id` and `name`, which stay. */
  function Destination(key: string): Option<(Part, string)> {
    IndexOfZeroIsPrefix(key, ENTITY_PREFIX);
    IndexOfZeroIsPrefix(key, INSTANCE_PREFIX);
    if key == "id" || key == "name" then None
    else if IndexOf(key, ENTITY_PREFIX) == 0 then Some((EntityPart, key[|ENTITY_PREFIX|..]))
    else if IndexOf(key, INSTANCE_PREFIX) == 0 then Some((InstancePart, key[|INSTANCE_PREFIX|..]))
    else Some((EntityPart, key))
  }

  /** The destination by prefix: the `indexOf(prefix) == 0` tests are prefix
      tests. */
  lemma DestinationByPrefix(key: string)
    ensures Destination(key).None? <==> key == "id" || key == "name"
    ensures Destination(key).Some? && ENTITY_PREFIX <= key ==>
              Destination(key).value == (EntityPart, key[|ENTITY_PREFIX|..])
    ensures Destination(key).Some? && INSTANCE_PREFIX <= key ==>
              Destination(key).value == (InstancePart, key[|INSTANCE_PREFIX|..])
    ensures Destination(key).Some? && !(ENTITY_PREFIX <= key) && !(INSTANCE_PREFIX <= key) ==>
              Destination(key).value == (EntityPart, key)
  {
    IndexOfZeroIsPrefix(key, ENTITY_PREFIX);
    IndexOfZeroIsPrefix(key, INSTANCE_PREFIX);
    if INSTANCE_PREFIX <= key {
      assert key[0] == INSTANCE_PREFIX[0] != ENTITY_PREFIX[0];
    }
  }

  /** A value held while the row is reshaped: a plain value, or a reference
      to the new `entity` or `instance` object (the row's own `entity` and
      `instance` properties are overwritten with these before the columns
      are moved, so a column of either name moves the object itself). */
  datatype Slot = Val(v: Json) | TheEntity | TheInstance

  /** `entity[key]` when the column is moved. */
  function SlotOf(row: RawRow, key: string): Slot {
    if key == "entity" then TheEntity
    else if key == "instance" then TheInstance
    else Val(ColumnValue(row, key))
  }

  function SlotValue(s: Slot): Json {
    if s.Val? then s.v else JNull
  }

  /** The part object after the first n columns are moved. */
  function Collect(row: RawRow, n: nat, part: Part): map<string, Slot>
    requires n <= |row.order|
  {
    if n == 0 then map[]
    else
      var prev := Collect(row, n - 1, part);
      var key := row.order[n - 1];
      var d := Destination(key);
      if d.Some? && d.value.0 == part then prev[d.value.1 := SlotOf(row, key)] else prev
  }

  /** Column j is the last of the first n columns that moves to `dest`. */
  predicate LastFor(row: RawRow, n: nat, j: int, dest: (Part, string))
    requires n <= |row.order|
  {
    0 <= j < n && Destination(row.order[j]) == Some(dest)
    && forall k | j < k < n :: Destination(row.order[k]) != Some(dest)
  }

  /** A part holds a name exactly when some column moves there. */
  lemma {:induction false} CollectKeys(row: RawRow, n: nat, part: Part, m: string)
    requires n <= |row.order|
    ensures m in Collect(row, n, part) <==> exists j | 0 <= j < n :: Destination(row.order[j]) == Some((part, m))
  {
    if n > 0 {
      CollectKeys(row, n - 1, part, m);
      if Destination(row.order[n - 1]) == Some((part, m)) {
        assert m in Collect(row, n, part);
      }
    }
  }

  /** It holds the value of the last column of that name: later columns
      overwrite earlier ones. */
  lemma {:induction false} CollectLastWriter(row: RawRow, n: nat, part: Part, m: string, j: int)
    requires n <= |row.order| && LastFor(row, n, j, (part, m))
    ensures m in Collect(row, n, part) && Collect(row, n, part)[m] == SlotOf(row, row.order[j])
  {
    if j < n - 1 {
      assert Destination(row.order[n - 1]) != Some((part, m));
      CollectLastWriter(row, n - 1, part, m, j);
    }
  }

  /** The GeoJSON point of section 3.1.2 of RFC 7946, positions in the order
      longitude, latitude (section 3.1.1). */
  function Point(longitude: Json, latitude: Json): Json {
    JObj(map["type" := JStr("Point"), "coordinates" := JArr([longitude, latitude])])
  }

  /** Folds `longitude` and `latitude` into `location` when the entity has
      both. */
  function WithLocation(ent: map<string, Slot>): (r: map<string, Slot>)
    ensures "longitude" in ent && "latitude" in ent ==>
              r == (ent - {"longitude", "latitude"})["location" := Val(Point(SlotValue(ent["longitude"]), SlotValue(ent["latitude"])))]
    ensures !("longitude" in ent && "latitude" in ent) ==> r == ent
  {
    if "longitude" in ent && "latitude" in ent then
      (ent - {"longitude", "latitude"})["location" := Val(Point(SlotValue(ent["longitude"]), SlotValue(ent["latitude"])))]
    else ent
  }

  function InstanceObject(row: RawRow): Object {
    var s := Collect(row, |row.order|, InstancePart);
    map m | m in s :: SlotValue(s[m])
  }

  function EntityObject(row: RawRow): Object {
    var s := WithLocation(Collect(row, |row.order|, EntityPart));
    map m | m in s :: if s[m] == TheInstance then JObj(InstanceObject(row)) else SlotValue(s[m])
  }

  /** `rowToBBKData` deletes the row's `entity` property when the row has an
      `entity` column, and its `instance` property when it has an `instance`
      column; a later write into the deleted part, or the `hasOwnProperty`
      test on a deleted entity, throws. */
  const MISSING_PART := "TypeError: Cannot read properties of undefined"

  /** A column named `hasOwnProperty` moved into the entity shadows the
      method, and the coordinate test calls a string or a number. */
  const NOT_A_FUNCTION := "TypeError: entity.entity.hasOwnProperty is not a function"

  /** The object a part is kept in at the top of the row while it is reshaped. */
  function PartKey(part: Part): string {
    match part
    case EntityPart => "entity"
    case InstancePart => "instance"
  }

  /** Column k is an `instance/` column. */
  predicate InstanceColumnAt(row: RawRow, k: nat)
    requires k < |row.order|
  {
    Destination(row.order[k]).Some? && Destination(row.order[k]).value.0 == InstancePart
  }

  /** Reading the column names from i on, `seen` once the `instance` column
      has passed: an `instance/` column comes after it, when the instance
      object has left the row. */
  predicate InstanceWriteFrom(order: seq<string>, i: nat, seen: bool)
    decreases |order| - i
  {
    i < |order| && ((seen && INSTANCE_PREFIX <= order[i]) || InstanceWriteFrom(order, i + 1, seen || order[i] == "instance"))
  }

  predicate InstanceAfterInstance(row: RawRow) {
    InstanceWriteFrom(row.order, 0, false)
  }

  /** The row has a `hasOwnProperty` or `entity/hasOwnProperty` column, the
      two that move into the entity under the name `hasOwnProperty`. */
  predicate ShadowsHasOwnProperty(row: RawRow) {
    "hasOwnProperty" in row.fields || ENTITY_PREFIX + "hasOwnProperty" in row.fields
  }

  /** The scan from i finds an `instance/` column after the `instance`
      column, where `seen` stands for an `instance` column before i. */
  lemma {:induction false} InstanceWriteFromIff(order: seq<string>, i: nat, seen: bool)
    requires i <= |order|
    ensures InstanceWriteFrom(order, i, seen) <==>
              exists k | i <= k < |order| :: INSTANCE_PREFIX <= order[k] && (seen || exists j | i <= j < k :: order[j] == "instance")
    decreases |order| - i
  {
    if i < |order| {
      var seen' := seen || order[i] == "instance";
      InstanceWriteFromIff(order, i + 1, seen');
      if exists k | i <= k < |order| :: INSTANCE_PREFIX <= order[k] && (seen || exists j | i <= j < k :: order[j] == "instance") {
        var k :| i <= k < |order| && INSTANCE_PREFIX <= order[k] && (seen || exists j | i <= j < k :: order[j] == "instance");
        if k > i && !seen' {
          var j :| i <= j < k && order[j] == "instance";
          assert i + 1 <= j;
        }
      }
    }
  }

  /** Exactly an `instance` column followed by an `instance/` column. */
  lemma InstanceAfterInstanceIff(row: RawRow)
    ensures InstanceAfterInstance(row) <==>
              exists j, k | 0 <= j < k < |row.order| :: row.order[j] == "instance" && InstanceColumnAt(row, k)
  {
    InstanceWriteFromIff(row.order, 0, false);
    forall k | 0 <= k < |row.order| ensures InstanceColumnAt(row, k) <==> INSTANCE_PREFIX <= row.order[k] {
      DestinationByPrefix(row.order[k]);
      if InstanceColumnAt(row, k) {
        InstanceColumn(row.order[k]);
      }
      if INSTANCE_PREFIX <= row.order[k] {
        assert row.order[k][..|INSTANCE_PREFIX|] == INSTANCE_PREFIX;
        assert row.order[k] != "id" && row.order[k] != "name";
      }
    }
  }

  /** The `hasOwnProperty` case is a column that moves into the entity under
      that name. */
  lemma ShadowsHasOwnPropertyIff(row: Row)
    ensures ShadowsHasOwnProperty(row) <==> "hasOwnProperty" in Collect(row, |row.order|, EntityPart)
  {
    CollectKeys(row, |row.order|, EntityPart, "hasOwnProperty");
    forall j | 0 <= j < |row.order|
      ensures Destination(row.order[j]) == Some((EntityPart, "hasOwnProperty"))
              <==> row.order[j] == "hasOwnProperty" || row.order[j] == ENTITY_PREFIX + "hasOwnProperty"
    {
      HasOwnPropertyDestination(row.order[j]);
    }
    if "hasOwnProperty" in row.fields {
      var j :| 0 <= j < |row.order| && row.order[j] == "hasOwnProperty";
    }
    if ENTITY_PREFIX + "hasOwnProperty" in row.fields {
      var j :| 0 <= j < |row.order| && row.order[j] == ENTITY_PREFIX + "hasOwnProperty";
    }
  }

  /** The two column names that move into the entity as `hasOwnProperty`. */
  lemma HasOwnPropertyDestination(key: string)
    ensures Destination(key) == Some((EntityPart, "hasOwnProperty"))
            <==> key == "hasOwnProperty" || key == ENTITY_PREFIX + "hasOwnProperty"
  {
    DestinationByPrefix(key);
    if ENTITY_PREFIX <= key {
      assert key == ENTITY_PREFIX + key[|ENTITY_PREFIX|..];
    }
    if key == "hasOwnProperty" {
      assert key[0] == 'h';
      assert !(ENTITY_PREFIX <= key) && !(INSTANCE_PREFIX <= key);
    }
    if key == ENTITY_PREFIX + "hasOwnProperty" {
      assert ENTITY_PREFIX <= key && key[|ENTITY_PREFIX|..] == "hasOwnProperty";
    }
  }

  /** Which of the two errors a failing row raises: the write into a moved
      part comes first, the coordinate test after the loop. */
  lemma RowToBBKDataErrors(row: RawRow)
    ensures RowToBBKDataSpec(row) == Err(MISSING_PART) <==> "entity" in row.fields || InstanceAfterInstance(row)
    ensures RowToBBKDataSpec(row) == Err(NOT_A_FUNCTION) <==>
              !("entity" in row.fields || InstanceAfterInstance(row)) && ShadowsHasOwnProperty(row)
  {
  }

  /** The row after `rowToBBKData`: only `id` and `name` stay at the top, next
      to the `entity` and `instance` objects (a column named `instance` moves
      the instance object into the entity, and the top keeps none). */
  function RowToBBKDataSpec(row: RawRow): (r: Result<Object, string>)
    ensures r.Err? <==> "entity" in row.fields || InstanceAfterInstance(row) || ShadowsHasOwnProperty(row)
  {
    if "entity" in row.fields || InstanceAfterInstance(row) then Err(MISSING_PART)
    else if ShadowsHasOwnProperty(row) then Err(NOT_A_FUNCTION)
    else Ok(Reshaped(row))
  }

  /** The reshaped row of a row that does not throw. */
  function Reshaped(row: RawRow): Object {
    var kept := map k | k in row.fields && (k == "id" || k == "name") :: row.fields[k];
    var withEntity := kept["entity" := JObj(EntityObject(row))];
    if "instance" in row.fields then withEntity else withEntity["instance" := JObj(InstanceObject(row))]
  }

  /** The top level of a reshaped row; an `instance` column that moved the
      instance object into the entity comes after every `instance/` column. */
  lemma RowShape(row: RawRow)
    requires RowToBBKDataSpec(row).Ok?
    ensures RowToBBKDataSpec(row).value.Keys == (row.fields.Keys * {"id", "name"}) + {"entity"}
                                               + (if "instance" in row.fields then {} else {"instance"})
    ensures forall k | k in row.fields && (k == "id" || k == "name") :: RowToBBKDataSpec(row).value[k] == row.fields[k]
    ensures forall j, k | 0 <= j < k < |row.order| && row.order[j] == "instance" :: !InstanceColumnAt(row, k)
  {
    InstanceAfterInstanceIff(row);
  }

  /** The sheet row whose `instance` column precedes an `instance/x` column
      throws at the write into the moved instance object. */
  lemma InstanceThenInstanceColumnFails()
    ensures RowToBBKDataSpec(RawRow(["instance", "instance/x"], map["instance" := JStr("a"), "instance/x" := JStr("b")]))
            == Err(MISSING_PART)
  {
    var row := RawRow(["instance", "instance/x"], map["instance" := JStr("a"), "instance/x" := JStr("b")]);
    assert row.order[1] == INSTANCE_PREFIX + "x";
    DestinationByPrefix(row.order[1]);
  }

  /** The same two columns in the other order. */
  const INSTANCE_LAST := RawRow(["instance/x", "instance"], map["instance" := JStr("a"), "instance/x" := JStr("b")])

  /** Its `instance/x` column fills the instance object, and its `instance`
      column then moves that object into the entity. */
  lemma InstanceLastCollected()
    ensures Collect(INSTANCE_LAST, 2, InstancePart) == map["x" := Val(JStr("b"))]
    ensures Collect(INSTANCE_LAST, 2, EntityPart) == map["instance" := TheInstance]
    ensures !InstanceAfterInstance(INSTANCE_LAST)
  {
    var row := INSTANCE_LAST;
    assert row.order[0] == INSTANCE_PREFIX + "x";
    DestinationByPrefix(row.order[0]);
    DestinationByPrefix(row.order[1]);
  }

  lemma InstanceLastParts()
    ensures !InstanceAfterInstance(INSTANCE_LAST) && !ShadowsHasOwnProperty(INSTANCE_LAST)
    ensures EntityObject(INSTANCE_LAST) == map["instance" := JObj(map["x" := JStr("b")])]
  {
    InstanceLastCollected();
    var inst := map["x" := JStr("b")];
    assert InstanceObject(INSTANCE_LAST) == inst;
    var ent := map["instance" := TheInstance];
    assert WithLocation(ent) == ent;
  }

  /** In that order the row reshapes, the instance object inside the
      entity. */
  lemma InstanceColumnThenInstanceFills()
    ensures RowToBBKDataSpec(INSTANCE_LAST) == Ok(map["entity" := JObj(map["instance" := JObj(map["x" := JStr("b")])])])
  {
    InstanceLastParts();
    assert (map k | k in INSTANCE_LAST.fields && (k == "id" || k == "name") :: INSTANCE_LAST.fields[k]) == map[];
  }

  /** A `hasOwnProperty` column throws at the coordinate test. */
  lemma HasOwnPropertyColumnFails()
    ensures RowToBBKDataSpec(RawRow(["hasOwnProperty"], map["hasOwnProperty" := JStr("a")])) == Err(NOT_A_FUNCTION)
  {
    var row := RawRow(["hasOwnProperty"], map["hasOwnProperty" := JStr("a")]);
    assert !InstanceWriteFrom(row.order, 1, false);
  }

  /** The top-level object before any column is moved. */
  function InitialTop(row: RawRow): map<string, Slot> {
    (map k | k in row.fields :: Val(row.fields[k]))["entity" := TheEntity]["instance" := TheInstance]
  }

  /** The columns among the first n that are moved (and deleted). */
  function Moved(row: RawRow, n: nat): set<string>
    requires n <= |row.order|
  {
    set j | 0 <= j < n && Destination(row.order[j]).Some? :: row.order[j]
  }

  function Resolve(s: Slot, entity: Object, instance: Object): Json {
    match s
    case Val(v) => v
    case TheEntity => JObj(entity)
    case TheInstance => JObj(instance)
  }

  /** Column i is written into a part whose object an earlier column has
      already moved out of the row, so `entity.entity` or `entity.instance`
      is undefined there and the write throws. */
  predicate FailsAt(row: RawRow, i: nat)
    requires i < |row.order|
  {
    Destination(row.order[i]).Some? && PartKey(Destination(row.order[i]).value.0) in Moved(row, i)
  }

  /** None of the first n columns throws. */
  predicate NoFailureWithin(row: RawRow, n: nat)
    requires n <= |row.order|
  {
    n == 0 || (NoFailureWithin(row, n - 1) && !FailsAt(row, n - 1))
  }

  lemma {:induction false} NoFailureWithinIff(row: RawRow, n: nat)
    requires n <= |row.order|
    ensures NoFailureWithin(row, n) <==> forall j | 0 <= j < n :: !FailsAt(row, j)
  {
    if n > 0 {
      NoFailureWithinIff(row, n - 1);
    }
  }

  /** Before the loop no column has moved. */
  lemma NothingMovedYet(row: RawRow)
    ensures InitialTop(row) - Moved(row, 0) == InitialTop(row)
    ensures Collect(row, 0, EntityPart) == map[] && Collect(row, 0, InstancePart) == map[]
    ensures NoFailureWithin(row, 0)
  {
    assert Moved(row, 0) == {};
  }

  /** Column i extends the prefix without failure, or fails the whole row. */
  lemma NoFailureStep(row: RawRow, i: nat)
    requires i < |row.order| && NoFailureWithin(row, i)
    ensures !FailsAt(row, i) ==> NoFailureWithin(row, i + 1)
    ensures FailsAt(row, i) ==> !NoFailureWithin(row, |row.order|)
  {
    if FailsAt(row, i) {
      NoFailureStops(row, i + 1, |row.order|);
    }
  }

  /** A column that throws fails every longer prefix. */
  lemma {:induction false} NoFailureStops(row: RawRow, i: nat, n: nat)
    requires i <= n <= |row.order| && !NoFailureWithin(row, i)
    ensures !NoFailureWithin(row, n)
    decreases n - i
  {
    if i < n {
      NoFailureStops(row, i + 1, n);
    }
  }

  /** The loop of `rowToBBKData`: every column of the row, in property
      order, is moved into the entity or instance object and deleted from the
      row; it stops (`ok` false) at the first write that throws. */
  method MoveColumns(row: Row) returns (ok: bool, top: map<string, Slot>, ent: map<string, Slot>, inst: map<string, Slot>)
    ensures ok <==> NoFailureWithin(row, |row.order|)
    ensures ok ==> top == InitialTop(row) - Moved(row, |row.order|)
    ensures ok ==> ent == Collect(row, |row.order|, EntityPart) && inst == Collect(row, |row.order|, InstancePart)
  {
    top := InitialTop(row);
    ent := map[];
    inst := map[];
    NothingMovedYet(row);
    var i := 0;
    while i < |row.order|
      invariant 0 <= i <= |row.order|
      invariant NoFailureWithin(row, i)
      invariant ent == Collect(row, i, EntityPart) && inst == Collect(row, i, InstancePart)
      invariant top == InitialTop(row) - Moved(row, i)
    {
      ok, top, ent, inst := MoveColumn(row, i, top, ent, inst);
      NoFailureStep(row, i);
      if !ok {
        return;
      }
      i := i + 1;
    }
    ok := true;
  }

  /** One turn of the loop of `rowToBBKData`: column i goes to its part and
      leaves the row, unless it is `id` or `name`; writing into a part whose
      object has left the row throws. */
  method MoveColumn(row: Row, i: nat, top: map<string, Slot>, ent: map<string, Slot>, inst: map<string, Slot>)
    returns (ok: bool, top': map<string, Slot>, ent': map<string, Slot>, inst': map<string, Slot>)
    requires i < |row.order|
    requires ent == Collect(row, i, EntityPart) && inst == Collect(row, i, InstancePart)
    requires top == InitialTop(row) - Moved(row, i)
    ensures ok <==> !FailsAt(row, i)
    ensures ok ==> ent' == Collect(row, i + 1, EntityPart) && inst' == Collect(row, i + 1, InstancePart)
    ensures ok ==> top' == InitialTop(row) - Moved(row, i + 1)
  {
    var key := row.order[i];
    MoveStep(row, i);
    DestinationByPrefix(key);
    FailsAtTop(row, i, top);
    top', ent', inst' := top, ent, inst;
    ok := true;
    if key != "id" && key != "name" {
      var value := top[key];
      if IndexOf(key, ENTITY_PREFIX) == 0 {
        if "entity" !in top {
          return false, top, ent, inst;
        }
        ent' := ent[key[|ENTITY_PREFIX|..] := value];
      } else if IndexOf(key, INSTANCE_PREFIX) == 0 {
        if "instance" !in top {
          return false, top, ent, inst;
        }
        inst' := inst[key[|INSTANCE_PREFIX|..] := value];
      } else {
        if "entity" !in top {
          return false, top, ent, inst;
        }
        ent' := ent[key := value];
      }
      top' := top - {key};
    }
  }

  /** Column i throws exactly when the object of its part is no longer at
      the top of the row. */
  lemma FailsAtTop(row: RawRow, i: nat, top: map<string, Slot>)
    requires i < |row.order| && top == InitialTop(row) - Moved(row, i)
    ensures FailsAt(row, i) <==> Destination(row.order[i]).Some? && PartKey(Destination(row.order[i]).value.0) !in top
  {
  }

  /** Moving column i: `id` and `name` stay; any other column is still on the
      row and holds its slot, and is then deleted. */
  lemma MoveStep(row: Row, i: nat)
    requires i < |row.order|
    ensures var key := row.order[i];
            && (key == "id" || key == "name" ==> Moved(row, i + 1) == Moved(row, i))
            && (key != "id" && key != "name" ==>
                  && key in InitialTop(row) - Moved(row, i)
                  && (InitialTop(row) - Moved(row, i))[key] == SlotOf(row, key)
                  && Moved(row, i + 1) == Moved(row, i) + {key}
                  && InitialTop(row) - Moved(row, i + 1) == (InitialTop(row) - Moved(row, i)) - {key})
            && (IndexOf(key, ENTITY_PREFIX) == 0 ==> |ENTITY_PREFIX| <= |key|)
            && (IndexOf(key, INSTANCE_PREFIX) == 0 ==> |INSTANCE_PREFIX| <= |key|)
  {
    var key := row.order[i];
    IndexOfZeroIsPrefix(key, ENTITY_PREFIX);
    IndexOfZeroIsPrefix(key, INSTANCE_PREFIX);
    if key != "id" && key != "name" {
      assert key !in Moved(row, i);
      assert Moved(row, i + 1) == Moved(row, i) + {key};
      MinusStep(InitialTop(row), Moved(row, i), key);
    }
  }

  lemma MinusStep(m: map<string, Slot>, s: set<string>, k: string)
    ensures m - (s + {k}) == (m - s) - {k}
  {
  }

  /** `rowToBBKData`: moves the columns, then folds the coordinates into a
      location; the row's `entity` and `instance` properties are the two
      part objects. */
  method RowToBBKData(row: Row) returns (r: Result<Object, string>)
    ensures r == RowToBBKDataSpec(row)
  {
    var ok, top, ent, inst := MoveColumns(row);
    if !ok {
      LoopFailure(row);
      return Err(MISSING_PART);
    }
    LoopSuccess(row);
    Assembled(row, top);
    if "entity" !in top {
      return Err(MISSING_PART);
    }
    ShadowsHasOwnPropertyIff(row);
    if "hasOwnProperty" in ent {
      return Err(NOT_A_FUNCTION);
    }
    if "longitude" in ent && "latitude" in ent {
      ghost var old_ent := ent;
      var point := Val(Point(SlotValue(ent["longitude"]), SlotValue(ent["latitude"])));
      ent := ent["location" := point];
      ent := ent - {"longitude"};
      ent := ent - {"latitude"};
      SetThenDelete(old_ent, "location", point, "longitude", "latitude");
    }
    var instance := map m | m in inst :: SlotValue(inst[m]);
    var entity := map m | m in ent :: if ent[m] == TheInstance then JObj(instance) else SlotValue(ent[m]);
    r := Ok(map k | k in top :: Resolve(top[k], entity, instance));
  }

  lemma SetThenDelete(m: map<string, Slot>, k: string, v: Slot, a: string, b: string)
    requires k != a && k != b
    ensures (m[k := v] - {a}) - {b} == (m - {a, b})[k := v]
  {
  }

  /** The loop throws only on a row with an `entity` column, or with an
      `instance/` column after its `instance` column. */
  lemma LoopFailure(row: Row)
    requires !NoFailureWithin(row, |row.order|)
    ensures "entity" in row.fields || InstanceAfterInstance(row)
  {
    NoFailureWithinIff(row, |row.order|);
    var k :| 0 <= k < |row.order| && FailsAt(row, k);
    InstanceAfterInstanceIff(row);
    var part := Destination(row.order[k]).value.0;
    var j :| 0 <= j < k && Destination(row.order[j]).Some? && row.order[j] == PartKey(part);
    if part == InstancePart {
      assert row.order[j] == "instance" && InstanceColumnAt(row, k);
    } else {
      assert row.order[j] in row.fields;
    }
  }

  /** A loop that runs through leaves no `instance/` column after the
      `instance` column. */
  lemma LoopSuccess(row: Row)
    requires NoFailureWithin(row, |row.order|)
    ensures !InstanceAfterInstance(row)
  {
    NoFailureWithinIff(row, |row.order|);
    InstanceAfterInstanceIff(row);
    if InstanceAfterInstance(row) {
      var j, k :| 0 <= j < k < |row.order| && row.order[j] == "instance" && InstanceColumnAt(row, k);
      assert Destination(row.order[j]).Some?;
      assert "instance" in Moved(row, k);
      assert FailsAt(row, k);
    }
  }

  lemma MovedAll(row: Row)
    ensures Moved(row, |row.order|) == row.fields.Keys - {"id", "name"}
  {
    forall k | k in row.fields && k != "id" && k != "name" ensures k in Moved(row, |row.order|) {
      var j :| 0 <= j < |row.order| && row.order[j] == k;
    }
  }

  /** After every column is moved the row keeps `id` and `name`, and the
      `entity` and `instance` objects unless a column of that name moved
      them. */
  lemma TopAfterMoving(row: Row, k: string)
    ensures var top := InitialTop(row) - Moved(row, |row.order|);
            && (k in top <==> (k in row.fields && (k == "id" || k == "name"))
                              || ((k == "entity" || k == "instance") && k !in row.fields))
            && (k in top && k != "entity" && k != "instance" ==> top[k] == Val(row.fields[k]))
            && (k in top && k == "entity" ==> top[k] == TheEntity)
            && (k in top && k == "instance" ==> top[k] == TheInstance)
  {
    MovedAll(row);
  }

  /** The top level left after every column is moved, with the part
      references resolved, is the reshaped row. */
  lemma Assembled(row: Row, top: map<string, Slot>)
    requires top == InitialTop(row) - Moved(row, |row.order|)
    ensures "entity" in top <==> "entity" !in row.fields
    ensures "entity" in top ==> Reshaped(row) == map k | k in top :: Resolve(top[k], EntityObject(row), InstanceObject(row))
  {
    TopAfterMoving(row, "entity");
    if "entity" in top {
      var out := map k | k in top :: Resolve(top[k], EntityObject(row), InstanceObject(row));
      var spec := Reshaped(row);
      forall k ensures (k in out <==> k in spec) && (k in out ==> out[k] == spec[k]) {
        TopAfterMoving(row, k);
      }
      assert out == spec;
    }
  }

  /** The names some column moves into a part. */
  function PartNames(row: RawRow, part: Part): set<string> {
    set j | 0 <= j < |row.order| && Destination(row.order[j]).Some? && Destination(row.order[j]).value.0 == part
          :: Destination(row.order[j]).value.1
  }

  predicate HasCoordinates(row: RawRow) {
    "longitude" in PartNames(row, EntityPart) && "latitude" in PartNames(row, EntityPart)
  }

  /** The value a moved column leaves in its part. */
  function ColumnValue(row: RawRow, key: string): Json {
    if key in row.fields then row.fields[key] else JNull
  }

  function MovedValue(row: RawRow, key: string): Json {
    if key == "instance" then JObj(InstanceObject(row)) else ColumnValue(row, key)
  }

  lemma PartNamesAreCollected(row: RawRow, part: Part)
    ensures Collect(row, |row.order|, part).Keys == PartNames(row, part)
  {
    forall m ensures m in Collect(row, |row.order|, part) <==> m in PartNames(row, part) {
      CollectKeys(row, |row.order|, part, m);
      if m in PartNames(row, part) {
        var j :| 0 <= j < |row.order| && Destination(row.order[j]).Some? && Destination(row.order[j]).value.0 == part
                 && Destination(row.order[j]).value.1 == m;
        assert Destination(row.order[j]) == Some((part, m));
      }
    }
  }

  /** Only `instance/` columns move into the instance object, so what they
      move is a plain value. */
  lemma InstanceColumn(key: string)
    requires Destination(key).Some? && Destination(key).value.0 == InstancePart
    ensures INSTANCE_PREFIX <= key && key != "entity" && key != "instance"
  {
    IndexOfZeroIsPrefix(key, ENTITY_PREFIX);
    IndexOfZeroIsPrefix(key, INSTANCE_PREFIX);
    assert |"instance"| < |INSTANCE_PREFIX|;
  }

  /** The instance object holds one field per `instance/` column name. */
  lemma InstanceKeys(row: RawRow)
    ensures InstanceObject(row).Keys == PartNames(row, InstancePart)
  {
    PartNamesAreCollected(row, InstancePart);
  }

  /** Each field of the instance object has the value of the last column of
      that name. */
  lemma InstanceField(row: RawRow, j: int, m: string)
    requires LastFor(row, |row.order|, j, (InstancePart, m))
    ensures m in InstanceObject(row) && InstanceObject(row)[m] == ColumnValue(row, row.order[j])
  {
    CollectLastWriter(row, |row.order|, InstancePart, m, j);
    InstanceColumn(row.order[j]);
  }

  /** The entity object holds one field per column name moved into it; when
      it has both coordinates they become `location` instead. */
  lemma EntityKeys(row: RawRow)
    ensures HasCoordinates(row) ==>
              EntityObject(row).Keys == PartNames(row, EntityPart) - {"longitude", "latitude"} + {"location"}
    ensures !HasCoordinates(row) ==> EntityObject(row).Keys == PartNames(row, EntityPart)
  {
    var c := Collect(row, |row.order|, EntityPart);
    PartNamesAreCollected(row, EntityPart);
    assert HasCoordinates(row) <==> "longitude" in c && "latitude" in c;
    var s := WithLocation(c);
    assert EntityObject(row).Keys == s.Keys;
  }

  /** Each other field of the entity object has the value of the last column
      of that name. */
  lemma EntityField(row: RawRow, j: int, m: string)
    requires "entity" !in row.fields
    requires LastFor(row, |row.order|, j, (EntityPart, m))
    requires !(HasCoordinates(row) && (m == "longitude" || m == "latitude" || m == "location"))
    ensures m in EntityObject(row) && EntityObject(row)[m] == MovedValue(row, row.order[j])
  {
    PartNamesAreCollected(row, EntityPart);
    CollectLastWriter(row, |row.order|, EntityPart, m, j);
    var c := Collect(row, |row.order|, EntityPart);
    var s := WithLocation(c);
    assert m in s && s[m] == c[m];
    assert s[m] == SlotOf(row, row.order[j]);
  }

  /** The location is the point of the last longitude and latitude columns. */
  lemma EntityLocation(row: RawRow, j: int, k: int)
    requires LastFor(row, |row.order|, j, (EntityPart, "longitude"))
    requires LastFor(row, |row.order|, k, (EntityPart, "latitude"))
    ensures HasCoordinates(row)
    ensures "location" in EntityObject(row)
    ensures EntityObject(row)["location"] == Point(MovedValue(row, row.order[j]), MovedValue(row, row.order[k]))
  {
    PartNamesAreCollected(row, EntityPart);
    CollectLastWriter(row, |row.order|, EntityPart, "longitude", j);
    CollectLastWriter(row, |row.order|, EntityPart, "latitude", k);
    assert Destination(row.order[j]) == Some((EntityPart, "longitude"));
    assert Destination(row.order[k]) == Some((EntityPart, "latitude"));
  }

  /** `({ _population, _wikidata, ...item }) => item`. */
  function Strip(o: Object): (r: Object)
    ensures r.Keys == o.Keys - {"_population", "_wikidata"}
    ensures forall k | k in r :: r[k] == o[k]
  {
    o - {"_population", "_wikidata"}
  }

  /** The own properties an array spreads into: its indices. */
  function IndexObject(items: seq<Json>): Object {
    map i | 0 <= i < |items| :: NatToString(i) := items[i]
  }

  /** The rest object of a destructured element: `null` throws; an array or
      a string spreads its indices; numbers and booleans have no own
      properties. */
  function StripElement(j: Json): (r: Result<Object, string>)
    ensures r.Err? <==> j == JNull
    ensures j.JObj? ==> r == Ok(Strip(j.fields))
  {
    match j
    case JNull => Err("TypeError: Cannot destructure null")
    case JObj(f) => Ok(Strip(f))
    case JArr(items) => Ok(IndexObject(items))
    case JStr(s) => Ok(IndexObject(seq(|s|, i requires 0 <= i < |s| => JStr([s[i]]))))
    case _ => Ok(map[])
  }

  function StripElements(items: seq<Json>): (r: Result<seq<Object>, string>)
    ensures r.Ok? <==> forall i | 0 <= i < |items| :: items[i] != JNull
    ensures r.Ok? ==> |r.value| == |items| && forall i | 0 <= i < |items| :: r.value[i] == StripElement(items[i]).value
  {
    if items == [] then Ok([])
    else
      assert forall i | 1 <= i < |items| :: items[1..][i - 1] == items[i];
      match StripElement(items[0])
      case Err(e) => Err(e)
      case Ok(first) =>
        match StripElements(items[1..])
        case Err(e) => Err(e)
        case Ok(rest) => Ok([first] + rest)
  }

  /** `json.map(...)`: anything but an array has no `map` and throws. */
  function StripItems(json: Json): (r: Result<seq<Object>, string>)
    ensures !json.JArr? ==> r.Err?
    ensures json.JArr? ==> r == StripElements(json.items)
  {
    if json.JArr? then StripElements(json.items) else Err("TypeError: json.map is not a function")
  }

  /** The rows of a sheet reshaped one after the other; the first that throws
      ends the load. */
  function SheetItems(rows: seq<Row>): (r: Result<seq<Object>, string>)
    ensures r.Ok? <==> forall i | 0 <= i < |rows| :: RowToBBKDataSpec(rows[i]).Ok?
    ensures r.Ok? ==> |r.value| == |rows| && forall i | 0 <= i < |rows| :: r.value[i] == RowToBBKDataSpec(rows[i]).value
  {
    if rows == [] then Ok([])
    else
      assert forall i | 1 <= i < |rows| :: rows[1..][i - 1] == rows[i];
      match RowToBBKDataSpec(rows[0])
      case Err(e) => Err(e)
      case Ok(first) =>
        match SheetItems(rows[1..])
        case Err(e) => Err(e)
        case Ok(rest) => Ok([first] + rest)
  }

  function StripAll(objs: seq<Object>): (r: seq<Object>)
    ensures |r| == |objs| && forall i | 0 <= i < |objs| :: r[i] == Strip(objs[i])
  {
    seq(|objs|, i requires 0 <= i < |objs| => Strip(objs[i]))
  }

  /** The fetched data file: unavailable (the request failed or the reply was
      not OK), or its body as the JSON parser and as XLSX read it (None when
      that reader rejects it). */
  datatype Download = Unavailable | Downloaded(asJson: Option<Json>, asSheet: Option<seq<Row>>)

  /** The items `upsert` loads: DATA_FORMAT `json` takes the parsed array as
      it is, any other format reshapes the first sheet's rows; the items then
      lose `_population` and `_wikidata`. */
  function LoadItems(format: Option<string>, dl: Download): Result<seq<Object>, string> {
    if dl.Unavailable? then Err("fetch failed")
    else if format == Some(JSON_FORMAT) then
      if dl.asJson.None? then Err("invalid json") else StripItems(dl.asJson.value)
    else if dl.asSheet.None? then Err("unreadable workbook")
    else
      match SheetItems(dl.asSheet.value)
      case Err(e) => Err(e)
      case Ok(objs) => Ok(StripAll(objs))
  }

  /** A JSON file of objects is loaded as it is, record for record, less the
      two private fields. */
  lemma JsonRecordsPassThrough(dl: Download, items: seq<Json>)
    requires dl.Downloaded? && dl.asJson == Some(JArr(items))
    requires forall i | 0 <= i < |items| :: items[i].JObj?
    ensures LoadItems(Some(JSON_FORMAT), dl).Ok?
    ensures |LoadItems(Some(JSON_FORMAT), dl).value| == |items|
    ensures forall i | 0 <= i < |items| :: LoadItems(Some(JSON_FORMAT), dl).value[i] == Strip(items[i].fields)
  {
  }

  /** On the spreadsheet path the private fields are already inside `entity`
      or `instance`, so stripping them changes nothing. */
  lemma SheetStripChangesNothing(rows: seq<Row>)
    requires SheetItems(rows).Ok?
    ensures StripAll(SheetItems(rows).value) == SheetItems(rows).value
  {
    var objs := SheetItems(rows).value;
    forall i | 0 <= i < |objs| ensures Strip(objs[i]) == objs[i] {
      StripShaped(rows[i]);
    }
  }

  /** A reshaped row has no private field at its top. */
  lemma StripShaped(row: RawRow)
    requires RowToBBKDataSpec(row).Ok?
    ensures Strip(RowToBBKDataSpec(row).value) == RowToBBKDataSpec(row).value
  {
    var o := RowToBBKDataSpec(row).value;
    assert "_population" !in o && "_wikidata" !in o;
  }

  /** `x.id === eid`: only a string id can match (a spreadsheet's numeric
      ids never do). */
  predicate HasId(o: Object, eid: string) {
    "id" in o && o["id"] == JStr(eid)
  }

  /** `data.find(x => x.id === eid)`, as an index. */
  function FindById(data: seq<Object>, eid: string): (r: Option<nat>)
    ensures r.Some? ==> r.value < |data| && HasId(data[r.value], eid)
                        && forall j | 0 <= j < r.value :: !HasId(data[j], eid)
    ensures r.None? ==> forall j | 0 <= j < |data| :: !HasId(data[j], eid)
  {
    if data == [] then None
    else if HasId(data[0], eid) then Some(0)
    else
      match FindById(data[1..], eid)
      case None => None
      case Some(k) => Some(k + 1)
  }

  /** `MyWebhook.entity`: the first loaded record with that id, or null. */
  function EntityAnswer(data: seq<Object>, eid: string): Json {
    match FindById(data, eid)
    case Some(k) => JObj(data[k])
    case None => JNull
  }

  /** The connector's webhook handlers over the loaded items: the
      timeseries handler always answers null. */
  function Handlers(data: seq<Object>): Webhook.Handlers {
    Webhook.Handlers(
      eid => Webhook.Answered(Some(EntityAnswer(data, eid))),
      (eid, tsid, start, end, limit) => Webhook.Answered(Some(JNull)))
  }

  /** Through the webhook, an entity request answers 200 with the first
      record of that id, or 404 when no record has it. */
  lemma EntityLookup(data: seq<Object>, req: Webhook.Request)
    requires req.bodyFault.None? && Webhook.MatchRoute(Webhook.EntityGet, req).Some?
    ensures var eid := Webhook.MatchRoute(Webhook.EntityGet, req).value.eid;
            var r := Webhook.Dispatch(req, Handlers(data));
            && (FindById(data, eid).None? ==> r == Webhook.NotFound())
            && (FindById(data, eid).Some? ==>
                  r.status == 200 && r.body == Webhook.JsonBody(JObj(data[FindById(data, eid).value])))
  {
    var eid := Webhook.MatchRoute(Webhook.EntityGet, req).value.eid;
    assert Handlers(data).entity(eid) == Webhook.Answered(Some(EntityAnswer(data, eid)));
    Webhook.EntityRouteDispatch(req, Handlers(data));
  }

  /** Through the webhook, every timeseries request is a 404. */
  lemma TimeseriesNotFound(data: seq<Object>, req: Webhook.Request)
    requires req.bodyFault.None? && Webhook.MatchRoute(Webhook.EntityGet, req).None?
    requires Webhook.MatchRoute(Webhook.TimeseriesGet, req).Some?
    ensures Webhook.Dispatch(req, Handlers(data)) == Webhook.NotFound()
  {
    Webhook.TimeseriesRouteDispatch(req, Handlers(data));
  }

  /** Rows that all reshape give the sheet of their records. */
  lemma {:induction false} SheetItemsOfShaped(rows: seq<Row>, shaped: seq<Object>)
    requires |shaped| == |rows|
    requires forall j | 0 <= j < |rows| :: RowToBBKDataSpec(rows[j]).Ok? && shaped[j] == RowToBBKDataSpec(rows[j]).value
    ensures SheetItems(rows) == Ok(shaped)
  {
    if rows != [] {
      assert forall j | 0 <= j < |rows| - 1 :: rows[1..][j] == rows[j + 1] && shaped[1..][j] == shaped[j + 1];
      SheetItemsOfShaped(rows[1..], shaped[1..]);
      assert RowToBBKDataSpec(rows[0]) == Ok(shaped[0]);
      assert shaped == [shaped[0]] + shaped[1..];
    }
  }

  /** A row that throws fails the whole sheet. */
  lemma SheetItemsFails(rows: seq<Row>, i: nat)
    requires i < |rows| && RowToBBKDataSpec(rows[i]).Err?
    ensures SheetItems(rows).Err?
  {
  }

  /** `sheetData.forEach(entity => this.rowToBBKData(entity))`: every row
      reshaped in turn, stopping at the first that throws. */
  method ShapeRows(rows: seq<Row>) returns (r: Result<seq<Object>, string>)
    ensures r.Ok? <==> SheetItems(rows).Ok?
    ensures r.Ok? ==> r == SheetItems(rows)
  {
    var shaped: seq<Object> := [];
    var i := 0;
    while i < |rows|
      invariant 0 <= i <= |rows| && |shaped| == i
      invariant forall j | 0 <= j < i :: RowToBBKDataSpec(rows[j]).Ok? && shaped[j] == RowToBBKDataSpec(rows[j]).value
    {
      var o := RowToBBKData(rows[i]);
      if o.Err? {
        SheetItemsFails(rows, i);
        return Err(o.error);
      }
      shaped := shaped + [o.value];
      i := i + 1;
    }
    SheetItemsOfShaped(rows, shaped);
    return Ok(shaped);
  }

  /** The connector's state: the loaded items its webhook answers from. */
  class FileConnector {
    var data: seq<Object>

    constructor()
      ensures data == []
    {
      data := [];
    }

    /** `MyCatalog.upsert`: load the file, keep the items, and stream them to
        the catalog with `upsert`. */
    method Upsert(cat: Catalog.BBKCatalog, format: Option<string>, dl: Download, oracle: Catalog.Oracle)
      returns (r: Catalog.UpsertResult)
      modifies this, cat
      ensures LoadItems(format, dl).Err? ==>
                r.LoadFailed? && data == old(data) && cat.log == old(cat.log) && cat.sid == old(cat.sid)
      ensures LoadItems(format, dl).Ok? ==>
                && data == LoadItems(format, dl).value
                && r.Synced?
                && Catalog.SessionRun(cat.sid, cat.log, r.outcome)
                   == Catalog.SessionTrace(cat.base, cat.key, old(cat.sid), old(cat.log), Catalog.SESSION_STREAM,
                                           Catalog.ACTION_UPSERT, data, oracle)
    {
      if dl.Unavailable? {
        return Catalog.LoadFailed("fetch failed");
      }
      var items: seq<Object>;
      if format == Some(JSON_FORMAT) {
        if dl.asJson.None? {
          return Catalog.LoadFailed("invalid json");
        }
        var stripped := StripItems(dl.asJson.value);
        if stripped.Err? {
          return Catalog.LoadFailed(stripped.error);
        }
        items := stripped.value;
      } else {
        if dl.asSheet.None? {
          return Catalog.LoadFailed("unreadable workbook");
        }
        var shaped := ShapeRows(dl.asSheet.value);
        if shaped.Err? {
          return Catalog.LoadFailed(shaped.error);
        }
        items := StripAll(shaped.value);
      }
      data := items;
      var outcome := cat.Session(Catalog.SESSION_STREAM, Catalog.ACTION_UPSERT, items, oracle);
      r := Catalog.Synced(outcome);
    }
  }
}
