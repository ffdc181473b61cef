/**
 * The activity record (strava_cli/models.py): normalising the loosely typed
 * upstream activity object, the JSON dictionary, and the table row.
 */
module Models {
  import opened Wrappers
  import opened JsonValues
  import opened Decimal
  import opened DurationText

  /** A timestamp, identified by its ISO-8601 text (`datetime.isoformat()`). */
  datatype Timestamp = Timestamp(iso: string)

  /** A duration as upstream reports it: a plain second count, or a timedelta-like value. */
  datatype Duration =
    | Seconds(count: int)
    | Span(totalSeconds: real)   // an object with `total_seconds()`, possibly fractional

  /** The activity type as upstream reports it. */
  datatype RawType =
    | Wrapped(root: string)      // a value with a `root` attribute
    | Plain(text: string)        // anything else; `text` is what `str()` gives for it
    | NoType                     // `None`, which `str()` turns into "None"

  /**
   * The upstream activity object. `None` stands for an attribute that is
   * `None` or, for the attributes read with `getattr(..., default)`, missing.
   */
  datatype RawActivity = RawActivity(
    id: int,
    name: string,
    activityType: RawType,
    distance: Option<real>,
    movingTime: Option<Duration>,
    elapsedTime: Option<Duration>,
    totalElevationGain: Option<real>,
    startDate: Timestamp,
    startDateLocal: Timestamp,
    averageSpeed: Option<real>,
    maxSpeed: Option<real>,
    averageHeartrate: Option<real>,
    maxHeartrate: Option<real>,
    description: Option<string>,
    calories: Option<real>,
    gearId: Option<string>,
    trainer: Option<bool>,
    commute: Option<bool>,
    private: Option<bool>)

  /** The normalised activity record, one field per dataclass field, in the same order. */
  datatype Activity = Activity(
    id: int,
    name: string,
    activityType: string,
    distance: real,
    movingTime: int,
    elapsedTime: int,
    totalElevationGain: real,
    startDate: Timestamp,
    startDateLocal: Timestamp,
    averageSpeed: Option<real>,
    maxSpeed: Option<real>,
    averageHeartrate: Option<real>,
    maxHeartrate: Option<real>,
    description: Option<string>,
    calories: Option<real>,
    gearId: Option<string>,
    trainer: bool,
    commute: bool,
    private: bool)

  // ---------------------------------------------------------------------------
  // from_strava_activity

  /** `not x` for a numeric attribute: absent, or zero. */
  predicate Falsy(x: Option<real>) { x.None? || x.value == 0.0 }

  /** `float(x) if x else 0.0` */
  function RequiredMetric(x: Option<real>): (r: real)
    ensures x.None? ==> r == 0.0
    ensures x.Some? ==> r == x.value
  {
    if Falsy(x) then 0.0 else x.value
  }

  /** `float(x) if x else None` */
  function OptionalMetric(x: Option<real>): (r: Option<real>)
    ensures r.None? <==> Falsy(x)
    ensures r.Some? ==> r == x && r.value != 0.0
  {
    if Falsy(x) then None else x
  }

  /** Python's `int(x)` for a float: truncation toward zero. */
  function TruncateTowardZero(x: real): (n: int)
    ensures 0.0 <= x ==> n as real <= x < n as real + 1.0
    ensures x < 0.0 ==> n as real - 1.0 < x <= n as real
  {
    if x >= 0.0 then x.Floor else -((-x).Floor)
  }

  /** The nested `get_seconds`: whole seconds of a duration, 0 when it is missing. */
  function GetSeconds(d: Option<Duration>): (n: int)
    ensures d.None? ==> n == 0
    ensures d.Some? && d.value.Seconds? ==> n == d.value.count
    ensures d.Some? && d.value.Span? ==>
      -1.0 < n as real - d.value.totalSeconds < 1.0
      && (0.0 <= d.value.totalSeconds ==> 0 <= n)
      && (d.value.totalSeconds <= 0.0 ==> n <= 0)
  {
    match d
    case None => 0
    case Some(Span(total)) => TruncateTowardZero(total)
    case Some(Seconds(count)) => count
  }

  /** The type unwrap: the inner `root` when there is one, `str(type)` otherwise. */
  function TypeName(t: RawType): (s: string)
    ensures t.Wrapped? ==> s == t.root
    ensures t.Plain? ==> s == t.text
    ensures t.NoType? ==> s == "None"
  {
    match t
    case Wrapped(root) => root
    case Plain(text) => text
    case NoType => "None"
  }

  /** What every record built by `FromStrava` satisfies: no optional metric holds a zero. */
  predicate Normalised(a: Activity)
  {
    && a.averageSpeed != Some(0.0)
    && a.maxSpeed != Some(0.0)
    && a.averageHeartrate != Some(0.0)
    && a.maxHeartrate != Some(0.0)
    && a.calories != Some(0.0)
  }

  /** `Activity.from_strava_activity` */
  function FromStrava(raw: RawActivity): (a: Activity)
    ensures Normalised(a)
  {
    Activity(
      id := raw.id,
      name := raw.name,
      activityType := TypeName(raw.activityType),
      distance := RequiredMetric(raw.distance),
      movingTime := GetSeconds(raw.movingTime),
      elapsedTime := GetSeconds(raw.elapsedTime),
      totalElevationGain := RequiredMetric(raw.totalElevationGain),
      startDate := raw.startDate,
      startDateLocal := raw.startDateLocal,
      averageSpeed := OptionalMetric(raw.averageSpeed),
      maxSpeed := OptionalMetric(raw.maxSpeed),
      averageHeartrate := OptionalMetric(raw.averageHeartrate),
      maxHeartrate := OptionalMetric(raw.maxHeartrate),
      description := raw.description,
      calories := OptionalMetric(raw.calories),
      gearId := raw.gearId,
      trainer := if raw.trainer.Some? then raw.trainer.value else false,
      commute := if raw.commute.Some? then raw.commute.value else false,
      private := if raw.private.Some? then raw.private.value else false)
  }

  /** A record presented as an upstream object that already has the record's shape. */
  function AsRaw(a: Activity): RawActivity
  {
    RawActivity(
      a.id, a.name, Plain(a.activityType), Some(a.distance),
      Some(Seconds(a.movingTime)), Some(Seconds(a.elapsedTime)),
      Some(a.totalElevationGain), a.startDate, a.startDateLocal,
      a.averageSpeed, a.maxSpeed, a.averageHeartrate, a.maxHeartrate,
      a.description, a.calories, a.gearId,
      Some(a.trainer), Some(a.commute), Some(a.private))
  }

  /** Whole seconds: truncated toward zero, a missing duration counting as 0. */
  lemma GetSecondsTruncates(d: Option<Duration>)
    ensures d.None? ==> GetSeconds(d) == 0
    ensures d.Some? && d.value.Seconds? ==> GetSeconds(d) == d.value.count
    ensures d.Some? && d.value.Span? ==>
      var t, n := d.value.totalSeconds, GetSeconds(d);
      (0.0 <= t ==> 0 <= n && n as real <= t < n as real + 1.0) &&
      (t < 0.0 ==> n <= 0 && n as real - 1.0 < t <= n as real)
  {
  }

  /** A timedelta of k seconds and the integer k give the same whole seconds. */
  lemma DurationFormsAgree(k: int)
    ensures GetSeconds(Some(Span(k as real))) == GetSeconds(Some(Seconds(k))) == k
  {
  }

  /** A plain type name and the same name wrapped give the same type. */
  lemma TypeFormsAgree(name: string)
    ensures TypeName(Wrapped(name)) == TypeName(Plain(name)) == name
  {
  }

  /**
   * Normalising again changes nothing: a record is its own normal form exactly
   * when it is `Normalised`, and every record `FromStrava` builds is.
   */
  lemma RenormaliseIdempotent(a: Activity)
    ensures FromStrava(AsRaw(a)) == a <==> Normalised(a)
  {
  }

  lemma FromStravaIsNormalForm(raw: RawActivity)
    ensures FromStrava(AsRaw(FromStrava(raw))) == FromStrava(raw)
  {
    RenormaliseIdempotent(FromStrava(raw));
  }

  /**
   * Required metrics are never absent: a falsy distance or elevation gain is
   * 0.0, any other value is copied.
   */
  lemma RequiredMetricsDefaultToZero(raw: RawActivity)
    ensures FromStrava(raw).distance == (if raw.distance.Some? then raw.distance.value else 0.0)
    ensures FromStrava(raw).totalElevationGain ==
      (if raw.totalElevationGain.Some? then raw.totalElevationGain.value else 0.0)
  {
  }

  /** An optional metric is absent exactly when upstream gives none or a zero. */
  lemma OptionalMetricsDropZero(raw: RawActivity)
    ensures FromStrava(raw).averageSpeed.None? <==> Falsy(raw.averageSpeed)
    ensures FromStrava(raw).maxSpeed.None? <==> Falsy(raw.maxSpeed)
    ensures FromStrava(raw).averageHeartrate.None? <==> Falsy(raw.averageHeartrate)
    ensures FromStrava(raw).maxHeartrate.None? <==> Falsy(raw.maxHeartrate)
    ensures FromStrava(raw).calories.None? <==> Falsy(raw.calories)
    ensures !Falsy(raw.averageSpeed) ==> FromStrava(raw).averageSpeed == raw.averageSpeed
    ensures !Falsy(raw.maxSpeed) ==> FromStrava(raw).maxSpeed == raw.maxSpeed
    ensures !Falsy(raw.averageHeartrate) ==> FromStrava(raw).averageHeartrate == raw.averageHeartrate
    ensures !Falsy(raw.maxHeartrate) ==> FromStrava(raw).maxHeartrate == raw.maxHeartrate
    ensures !Falsy(raw.calories) ==> FromStrava(raw).calories == raw.calories
  {
  }

  /** An explicit zero and an absent value cannot be told apart afterwards. */
  lemma ZeroCaloriesLookAbsent(raw: RawActivity)
    ensures FromStrava(raw.(calories := Some(0.0))) == FromStrava(raw.(calories := None))
    ensures FromStrava(raw.(averageHeartrate := Some(0.0))) == FromStrava(raw.(averageHeartrate := None))
    ensures FromStrava(raw.(maxHeartrate := Some(0.0))) == FromStrava(raw.(maxHeartrate := None))
    ensures FromStrava(raw.(averageSpeed := Some(0.0))) == FromStrava(raw.(averageSpeed := None))
    ensures FromStrava(raw.(maxSpeed := Some(0.0))) == FromStrava(raw.(maxSpeed := None))
  {
  }

  /** Missing flags are false, present ones are copied; description and gear are copied. */
  lemma DefaultsForMissingAttributes(raw: RawActivity)
    ensures raw.trainer.None? ==> !FromStrava(raw).trainer
    ensures raw.commute.None? ==> !FromStrava(raw).commute
    ensures raw.private.None? ==> !FromStrava(raw).private
    ensures raw.trainer.Some? ==> FromStrava(raw).trainer == raw.trainer.value
    ensures raw.commute.Some? ==> FromStrava(raw).commute == raw.commute.value
    ensures raw.private.Some? ==> FromStrava(raw).private == raw.private.value
    ensures FromStrava(raw).description == raw.description
    ensures FromStrava(raw).gearId == raw.gearId
  {
  }

  // ---------------------------------------------------------------------------
  // to_dict

  /** The fields of the record, one constructor per dictionary key. */
  datatype Field =
    | Id | Name | Type | Distance | MovingTime | ElapsedTime | TotalElevationGain
    | StartDate | StartDateLocal | AverageSpeed | MaxSpeed | AverageHeartrate | MaxHeartrate
    | Description | Calories | GearId | Trainer | Commute | Private

  /** The dataclass field order, which is also the dictionary's key order. */
  const FieldOrder: seq<Field> := [
    Id, Name, Type, Distance, MovingTime, ElapsedTime, TotalElevationGain,
    StartDate, StartDateLocal, AverageSpeed, MaxSpeed, AverageHeartrate, MaxHeartrate,
    Description, Calories, GearId, Trainer, Commute, Private]

  /** The dictionary key of a field. */
  function Key(f: Field): string
  {
    match f
    case Id => "id"
    case Name => "name"
    case Type => "type"
    case Distance => "distance"
    case MovingTime => "moving_time"
    case ElapsedTime => "elapsed_time"
    case TotalElevationGain => "total_elevation_gain"
    case StartDate => "start_date"
    case StartDateLocal => "start_date_local"
    case AverageSpeed => "average_speed"
    case MaxSpeed => "max_speed"
    case AverageHeartrate => "average_heartrate"
    case MaxHeartrate => "max_heartrate"
    case Description => "description"
    case Calories => "calories"
    case GearId => "gear_id"
    case Trainer => "trainer"
    case Commute => "commute"
    case Private => "private"
  }

  function OptReal(x: Option<real>): Json
  {
    if x.Some? then JFloat(x.value) else JNull
  }

  function OptStr(x: Option<string>): Json
  {
    if x.Some? then JStr(x.value) else JNull
  }

  /** The JSON value `to_dict` stores under a field's key; dates go through `isoformat`. */
  function Value(a: Activity, f: Field): Json
  {
    match f
    case Id => JInt(a.id)
    case Name => JStr(a.name)
    case Type => JStr(a.activityType)
    case Distance => JFloat(a.distance)
    case MovingTime => JInt(a.movingTime)
    case ElapsedTime => JInt(a.elapsedTime)
    case TotalElevationGain => JFloat(a.totalElevationGain)
    case StartDate => JStr(a.startDate.iso)
    case StartDateLocal => JStr(a.startDateLocal.iso)
    case AverageSpeed => OptReal(a.averageSpeed)
    case MaxSpeed => OptReal(a.maxSpeed)
    case AverageHeartrate => OptReal(a.averageHeartrate)
    case MaxHeartrate => OptReal(a.maxHeartrate)
    case Description => OptStr(a.description)
    case Calories => OptReal(a.calories)
    case GearId => OptStr(a.gearId)
    case Trainer => JBool(a.trainer)
    case Commute => JBool(a.commute)
    case Private => JBool(a.private)
  }

  /** `Activity.to_dict`: every field under its key, in field order. */
  function ToDict(a: Activity): (j: Json)
    ensures j.JObject? && |j.members| == |FieldOrder|
  {
    JObject(seq(|FieldOrder|, i requires 0 <= i < |FieldOrder| => (Key(FieldOrder[i]), Value(a, FieldOrder[i]))))
  }

  /** The position of a field in `FieldOrder`. */
  function IndexOf(f: Field): (i: nat)
    ensures i < |FieldOrder| && FieldOrder[i] == f
  {
    match f
    case Id => 0
    case Name => 1
    case Type => 2
    case Distance => 3
    case MovingTime => 4
    case ElapsedTime => 5
    case TotalElevationGain => 6
    case StartDate => 7
    case StartDateLocal => 8
    case AverageSpeed => 9
    case MaxSpeed => 10
    case AverageHeartrate => 11
    case MaxHeartrate => 12
    case Description => 13
    case Calories => 14
    case GearId => 15
    case Trainer => 16
    case Commute => 17
    case Private => 18
  }

  /** Reads a key back to its field: the inverse of `Key`. */
  function FieldOfKey(key: string): Option<Field>
  {
    if key == "id" then Some(Id)
    else if key == "name" then Some(Name)
    else if key == "type" then Some(Type)
    else if key == "distance" then Some(Distance)
    else if key == "moving_time" then Some(MovingTime)
    else if key == "elapsed_time" then Some(ElapsedTime)
    else if key == "total_elevation_gain" then Some(TotalElevationGain)
    else if key == "start_date" then Some(StartDate)
    else if key == "start_date_local" then Some(StartDateLocal)
    else if key == "average_speed" then Some(AverageSpeed)
    else if key == "max_speed" then Some(MaxSpeed)
    else if key == "average_heartrate" then Some(AverageHeartrate)
    else if key == "max_heartrate" then Some(MaxHeartrate)
    else if key == "description" then Some(Description)
    else if key == "calories" then Some(Calories)
    else if key == "gear_id" then Some(GearId)
    else if key == "trainer" then Some(Trainer)
    else if key == "commute" then Some(Commute)
    else if key == "private" then Some(Private)
    else None
  }

  /** No two fields share a key. */
  lemma KeyInjective(f: Field)
    ensures FieldOfKey(Key(f)) == Some(f)
  {
  }

  /** Each field appears once in `FieldOrder`. */
  lemma FieldOrderPositions()
    ensures |FieldOrder| == 19
    ensures forall i :: 0 <= i < |FieldOrder| ==> IndexOf(FieldOrder[i]) == i
  {
  }

  /** The dictionary has 19 members with distinct keys, one per field. */
  lemma ToDictKeys(a: Activity)
    ensures ToDict(a).JObject? && |ToDict(a).members| == 19
    ensures DistinctKeys(KeysOf(ToDict(a).members))
    ensures forall f: Field :: Key(f) in KeysOf(ToDict(a).members)
  {
    var keys := KeysOf(ToDict(a).members);
    FieldOrderPositions();
    forall i, k | 0 <= i < k < |keys|
      ensures keys[i] != keys[k]
    {
      KeyInjective(FieldOrder[i]);
      KeyInjective(FieldOrder[k]);
    }
    forall f: Field
      ensures Key(f) in keys
    {
      assert keys[IndexOf(f)] == Key(f);
    }
  }

  /** The value stored under `key` in a JSON object. */
  function Entry(j: Json, key: string): Option<Json>
  {
    if j.JObject? then Lookup(j.members, key) else None
  }

  /** Looking a field's key up in the dictionary gives that field's value. */
  lemma ToDictEntry(a: Activity, f: Field)
    ensures Entry(ToDict(a), Key(f)) == Some(Value(a, f))
  {
    ToDictKeys(a);
    LookupAt(ToDict(a).members, IndexOf(f));
  }

  function IntAt(j: Json, f: Field): Option<int>
  {
    match Entry(j, Key(f))
    case Some(JInt(i)) => Some(i)
    case _ => None
  }

  function RealAt(j: Json, f: Field): Option<real>
  {
    match Entry(j, Key(f))
    case Some(JFloat(r)) => Some(r)
    case _ => None
  }

  function StrAt(j: Json, f: Field): Option<string>
  {
    match Entry(j, Key(f))
    case Some(JStr(s)) => Some(s)
    case _ => None
  }

  function BoolAt(j: Json, f: Field): Option<bool>
  {
    match Entry(j, Key(f))
    case Some(JBool(b)) => Some(b)
    case _ => None
  }

  /** A float or null: `Some(None)` for null. */
  function OptRealAt(j: Json, f: Field): Option<Option<real>>
  {
    match Entry(j, Key(f))
    case Some(JNull) => Some(None)
    case Some(JFloat(r)) => Some(Some(r))
    case _ => None
  }

  /** A string or null: `Some(None)` for null. */
  function OptStrAt(j: Json, f: Field): Option<Option<string>>
  {
    match Entry(j, Key(f))
    case Some(JNull) => Some(None)
    case Some(JStr(s)) => Some(Some(s))
    case _ => None
  }

  /** Every field's key is present and holds a value of that field's JSON type. */
  predicate Decodable(j: Json)
  {
    && IntAt(j, Id).Some? && StrAt(j, Name).Some? && StrAt(j, Type).Some?
    && RealAt(j, Distance).Some? && IntAt(j, MovingTime).Some? && IntAt(j, ElapsedTime).Some?
    && RealAt(j, TotalElevationGain).Some? && StrAt(j, StartDate).Some? && StrAt(j, StartDateLocal).Some?
    && OptRealAt(j, AverageSpeed).Some? && OptRealAt(j, MaxSpeed).Some?
    && OptRealAt(j, AverageHeartrate).Some? && OptRealAt(j, MaxHeartrate).Some?
    && OptStrAt(j, Description).Some? && OptRealAt(j, Calories).Some? && OptStrAt(j, GearId).Some?
    && BoolAt(j, Trainer).Some? && BoolAt(j, Commute).Some? && BoolAt(j, Private).Some?
  }

  /** Reads a record back from a JSON dictionary; `None` when a key is missing or mistyped. */
  function FromDict(j: Json): Option<Activity>
  {
    if !Decodable(j) then None
    else
      Some(Activity(
        IntAt(j, Id).value, StrAt(j, Name).value, StrAt(j, Type).value,
        RealAt(j, Distance).value, IntAt(j, MovingTime).value, IntAt(j, ElapsedTime).value,
        RealAt(j, TotalElevationGain).value,
        Timestamp(StrAt(j, StartDate).value), Timestamp(StrAt(j, StartDateLocal).value),
        OptRealAt(j, AverageSpeed).value, OptRealAt(j, MaxSpeed).value,
        OptRealAt(j, AverageHeartrate).value, OptRealAt(j, MaxHeartrate).value,
        OptStrAt(j, Description).value, OptRealAt(j, Calories).value, OptStrAt(j, GearId).value,
        BoolAt(j, Trainer).value, BoolAt(j, Commute).value, BoolAt(j, Private).value))
  }

  lemma IntFieldsReadBack(a: Activity)
    ensures IntAt(ToDict(a), Id) == Some(a.id)
    ensures IntAt(ToDict(a), MovingTime) == Some(a.movingTime)
    ensures IntAt(ToDict(a), ElapsedTime) == Some(a.elapsedTime)
  {
    ToDictEntry(a, Id); ToDictEntry(a, MovingTime); ToDictEntry(a, ElapsedTime);
  }

  lemma RealFieldsReadBack(a: Activity)
    ensures RealAt(ToDict(a), Distance) == Some(a.distance)
    ensures RealAt(ToDict(a), TotalElevationGain) == Some(a.totalElevationGain)
  {
    ToDictEntry(a, Distance); ToDictEntry(a, TotalElevationGain);
  }

  lemma StrFieldsReadBack(a: Activity)
    ensures StrAt(ToDict(a), Name) == Some(a.name)
    ensures StrAt(ToDict(a), Type) == Some(a.activityType)
    ensures StrAt(ToDict(a), StartDate) == Some(a.startDate.iso)
    ensures StrAt(ToDict(a), StartDateLocal) == Some(a.startDateLocal.iso)
  {
    ToDictEntry(a, Name); ToDictEntry(a, Type); ToDictEntry(a, StartDate); ToDictEntry(a, StartDateLocal);
  }

  lemma OptRealFieldsReadBack(a: Activity)
    ensures OptRealAt(ToDict(a), AverageSpeed) == Some(a.averageSpeed)
    ensures OptRealAt(ToDict(a), MaxSpeed) == Some(a.maxSpeed)
    ensures OptRealAt(ToDict(a), AverageHeartrate) == Some(a.averageHeartrate)
    ensures OptRealAt(ToDict(a), MaxHeartrate) == Some(a.maxHeartrate)
    ensures OptRealAt(ToDict(a), Calories) == Some(a.calories)
  {
    ToDictEntry(a, AverageSpeed); ToDictEntry(a, MaxSpeed); ToDictEntry(a, AverageHeartrate);
    ToDictEntry(a, MaxHeartrate); ToDictEntry(a, Calories);
  }

  lemma OptStrFieldsReadBack(a: Activity)
    ensures OptStrAt(ToDict(a), Description) == Some(a.description)
    ensures OptStrAt(ToDict(a), GearId) == Some(a.gearId)
  {
    ToDictEntry(a, Description); ToDictEntry(a, GearId);
  }

  lemma BoolFieldsReadBack(a: Activity)
    ensures BoolAt(ToDict(a), Trainer) == Some(a.trainer)
    ensures BoolAt(ToDict(a), Commute) == Some(a.commute)
    ensures BoolAt(ToDict(a), Private) == Some(a.private)
  {
    ToDictEntry(a, Trainer); ToDictEntry(a, Commute); ToDictEntry(a, Private);
  }

  /** The JSON dictionary loses nothing: every field, dates included, reads back unchanged. */
  lemma ToDictRoundTrip(a: Activity)
    ensures FromDict(ToDict(a)) == Some(a)
  {
    IntFieldsReadBack(a);
    RealFieldsReadBack(a);
    StrFieldsReadBack(a);
    OptRealFieldsReadBack(a);
    OptStrFieldsReadBack(a);
    BoolFieldsReadBack(a);
  }

  /** Different records give different dictionaries. */
  lemma ToDictInjective(a: Activity, b: Activity)
    ensures ToDict(a) == ToDict(b) <==> a == b
  {
    ToDictRoundTrip(a);
    ToDictRoundTrip(b);
  }

  // ---------------------------------------------------------------------------
  // format_table_row

  /** A table cell. Number and date rendering is not modelled; those cells hold what is rendered. */
  datatype Cell =
    | Text(text: string)
    | Kilometres(km: real)        // f"{km:.2f} km"
    | WholeMetres(metres: real)   // f"{m:.0f} m"
    | LocalMinute(at: Timestamp)  // strftime("%Y-%m-%d %H:%M")

  /** A display row: its columns in order, and the cell under each. */
  datatype Row = Row(columns: seq<string>, cells: map<string, Cell>)

  const TableColumns: seq<string> := ["ID", "Date", "Name", "Type", "Distance", "Time", "Elevation"]

  /** The components of the table's time text: "{h}h {m}m" when there are hours, else "{m}m". */
  function TableParts(t: int): seq<Part>
  {
    var hours, minutes := t / 3600, (t % 3600) / 60;
    if hours > 0 then [Part(hours, 'h'), Part(minutes, 'm')] else [Part(minutes, 'm')]
  }

  /** The `time_str` of `format_table_row`. */
  function TableTime(t: int): string
  {
    Render(TableParts(t))
  }

  /** `Activity.format_table_row` */
  function FormatTableRow(a: Activity): (row: Row)
    ensures row.columns == TableColumns
    ensures row.cells.Keys == set c | c in TableColumns
  {
    Row(TableColumns, map[
      "ID" := Text(ShowInt(a.id)),
      "Date" := LocalMinute(a.startDateLocal),
      "Name" := Text(a.name),
      "Type" := Text(a.activityType),
      "Distance" := Kilometres(a.distance / 1000.0),
      "Time" := Text(TableTime(a.movingTime)),
      "Elevation" := WholeMetres(a.totalElevationGain)])
  }

  /**
   * The time text has hours exactly when `t // 3600 > 0`, and its minutes are
   * `(t % 3600) // 60`, which lies in [0, 60).
   */
  lemma TableTimeShape(t: int)
    ensures 0 <= (t % 3600) / 60 < 60
    ensures t / 3600 > 0 ==> TableTime(t) == ShowNat(t / 3600) + "h " + ShowNat((t % 3600) / 60) + "m"
    ensures t / 3600 <= 0 ==> TableTime(t) == ShowNat((t % 3600) / 60) + "m"
  {
    ClockSplit(t);
    var m := ShowNat((t % 3600) / 60) + "m";
    if t / 3600 > 0 {
      assert Render([Part((t % 3600) / 60, 'm')]) == m;
      assert TableTime(t) == ShowNat(t / 3600) + "h" + " " + m;
    }
  }

  lemma TableTimeExamples()
    ensures TableTime(3665) == "1h 1m"
    ensures TableTime(125) == "2m"
  {
    assert ShowNat(1) == "1" && ShowNat(2) == "2";
  }

  /**
   * The time text shows whole minutes and nothing else: for non-negative
   * times, two texts agree exactly when the whole minutes do.
   */
  lemma TableTimeShowsWholeMinutes(t1: int, t2: int)
    requires 0 <= t1 && 0 <= t2
    ensures TableTime(t1) == TableTime(t2) <==> t1 / 60 == t2 / 60
  {
    ClockSplit(t1);
    ClockSplit(t2);
    if TableTime(t1) == TableTime(t2) {
      RenderInjective(TableParts(t1), TableParts(t2));
      assert TableParts(t1) == TableParts(t2);
    }
  }

  /** The ID cell reads back as the id; name and type are copied; the time cell is `TableTime`. */
  lemma TableRowCells(a: Activity)
    ensures FormatTableRow(a).cells["ID"].Text?
    ensures ParseInt(FormatTableRow(a).cells["ID"].text) == Some(a.id)
    ensures FormatTableRow(a).cells["Name"] == Text(a.name)
    ensures FormatTableRow(a).cells["Type"] == Text(a.activityType)
    ensures FormatTableRow(a).cells["Time"] == Text(TableTime(a.movingTime))
  {
    ParseShowInt(a.id);
  }
}
