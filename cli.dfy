/** `strava_cli/cli.py`: the token-file option, the JSON output of `list`, the
    hours/minutes/seconds text of `get` and the field map built by `update`. */
module Cli {
  import opened Wrappers
  import opened JsonValues
  import opened Decimal
  import opened DurationText
  import Models
  import Client

  // ---------------------------------------------------------------------------
  // get_client

  /** `Path(token_file) if token_file else None`: an empty option is no option. */
  function CliTokenPath(tokenFile: Option<string>): (p: Option<string>)
    ensures p.None? <==> tokenFile.None? || tokenFile.value == ""
    ensures p.Some? ==> p.value == tokenFile.value
  {
    if tokenFile.Some? && tokenFile.value != "" then tokenFile else None
  }

  /** The client reads the named file, or the default one when the option is absent or empty. */
  lemma TokenFileOption(tokenFile: Option<string>)
    ensures Client.ResolvePath(CliTokenPath(tokenFile))
      == if tokenFile.Some? && tokenFile.value != "" then tokenFile.value else Client.DefaultTokenPath
  {
  }

  // ---------------------------------------------------------------------------
  // list --json

  /** The JSON document `list --json` prints; `None` when no activity was found. */
  function ListJson(raws: seq<Models.RawActivity>): (out: Option<Json>)
    ensures out.None? <==> raws == []
  {
    if raws == [] then None
    else
      var items := seq(|raws|, i requires 0 <= i < |raws| => Models.ToDict(Models.FromStrava(raws[i])));
      Some(JObject([("activities", JArray(items)), ("count", JInt(|raws|))]))
  }

  /** `count` is the number of listed activities, and each listed dictionary
      reads back as the activity it was made from. */
  lemma ListJsonCount(raws: seq<Models.RawActivity>)
    requires raws != []
    ensures ListJson(raws).Some? && ListJson(raws).value.JObject?
    ensures var members := ListJson(raws).value.members;
      && Lookup(members, "activities").Some? && Lookup(members, "activities").value.JArray?
      && |Lookup(members, "activities").value.items| == |raws|
      && Lookup(members, "count") == Some(JInt(|Lookup(members, "activities").value.items|))
    ensures var items := Lookup(ListJson(raws).value.members, "activities").value.items;
      forall i :: 0 <= i < |raws| ==> Models.FromDict(items[i]) == Some(Models.FromStrava(raws[i]))
  {
    var members := ListJson(raws).value.members;
    assert Lookup(members, "count") == Some(JInt(|raws|));
    forall i | 0 <= i < |raws|
      ensures Models.FromDict(Models.ToDict(Models.FromStrava(raws[i]))) == Some(Models.FromStrava(raws[i]))
    {
      Models.ToDictRoundTrip(Models.FromStrava(raws[i]));
    }
  }

  // ---------------------------------------------------------------------------
  // get: moving and elapsed time

  /** The components of the detail view's time text: "{h}h {m}m {s}s" when there are hours, else "{m}m {s}s". */
  function DetailParts(t: int): seq<Part>
  {
    var hours, minutes, seconds := t / 3600, (t % 3600) / 60, t % 60;
    if hours > 0 then [Part(hours, 'h'), Part(minutes, 'm'), Part(seconds, 's')]
    else [Part(minutes, 'm'), Part(seconds, 's')]
  }

  /** `time_str` and `elapsed_str` of the `get` command. */
  function DetailTime(t: int): string
  {
    Render(DetailParts(t))
  }

  /** The seconds a list of components stands for. */
  function PartsSeconds(parts: seq<Part>): int
  {
    if parts == [] then 0
    else
      var weight := match parts[0].unit case 'h' => 3600 case 'm' => 60 case _ => 1;
      parts[0].amount * weight + PartsSeconds(parts[1..])
  }

  /** The components recompose the time, with minutes and seconds below 60. */
  lemma DetailPartsRecompose(t: int)
    requires t >= 0
    ensures UnitsOk(DetailParts(t))
    ensures PartsSeconds(DetailParts(t)) == t
    ensures forall i :: 0 < i < |DetailParts(t)| ==> DetailParts(t)[i].amount < 60
  {
    ClockSplit(t);
    var p := DetailParts(t);
    if t / 3600 > 0 {
      assert PartsSeconds(p) == (t / 3600) * 3600 + PartsSeconds(p[1..]);
      assert PartsSeconds(p[1..]) == ((t % 3600) / 60) * 60 + PartsSeconds(p[2..]);
      assert PartsSeconds(p[2..]) == t % 60 + PartsSeconds(p[3..]);
    } else {
      assert PartsSeconds(p) == ((t % 3600) / 60) * 60 + PartsSeconds(p[1..]);
      assert PartsSeconds(p[1..]) == t % 60 + PartsSeconds(p[2..]);
    }
  }

  lemma RenderCons(p: seq<Part>)
    requires |p| >= 2
    ensures Render(p) == ShowNat(p[0].amount) + [p[0].unit] + " " + Render(p[1..])
  {
  }

  /** Regrouping a concatenation: `x + (m + "m " + s + "s")` without the parentheses. */
  lemma Regroup(x: string, m: string, s: string)
    ensures x + (m + "m " + s + "s") == x + m + "m " + s + "s"
  {
    assert x + (m + "m " + s + "s") == x + (m + "m " + s) + "s";
    assert x + (m + "m " + s) == x + (m + "m ") + s;
    assert x + (m + "m ") == x + m + "m ";
  }

  lemma RenderMinutesSeconds(m: nat, sec: nat)
    ensures Render([Part(m, 'm'), Part(sec, 's')]) == ShowNat(m) + "m " + ShowNat(sec) + "s"
  {
    var p := [Part(m, 'm'), Part(sec, 's')];
    RenderCons(p);
    assert p[1..] == [Part(sec, 's')];
    var mm, ss := ShowNat(m), ShowNat(sec);
    assert Render(p[1..]) == ss + "s";
    assert mm + ['m'] + " " == mm + "m ";
    assert mm + "m " + (ss + "s") == mm + "m " + ss + "s";
  }

  lemma RenderHoursMinutesSeconds(h: nat, m: nat, sec: nat)
    ensures Render([Part(h, 'h'), Part(m, 'm'), Part(sec, 's')])
      == ShowNat(h) + "h " + ShowNat(m) + "m " + ShowNat(sec) + "s"
  {
    var p := [Part(h, 'h'), Part(m, 'm'), Part(sec, 's')];
    RenderCons(p);
    assert p[1..] == [Part(m, 'm'), Part(sec, 's')];
    RenderMinutesSeconds(m, sec);
    HeadText(ShowNat(h), 'h', ShowNat(m), ShowNat(sec));
  }

  lemma HeadText(x: string, u: char, m: string, s: string)
    ensures x + [u] + " " + (m + "m " + s + "s") == x + [u, ' '] + m + "m " + s + "s"
  {
    assert x + [u] + " " == x + [u, ' '];
    Regroup(x + [u, ' '], m, s);
  }

  /** The text has an hours component exactly when `t // 3600 > 0`. */
  lemma DetailTimeShape(t: int)
    ensures t / 3600 > 0 ==>
      (DetailTime(t) == ShowNat(t / 3600) + "h " + ShowNat((t % 3600) / 60) + "m " + ShowNat(t % 60) + "s")
    ensures t / 3600 <= 0 ==> (DetailTime(t) == ShowNat((t % 3600) / 60) + "m " + ShowNat(t % 60) + "s")
  {
    if t / 3600 > 0 {
      RenderHoursMinutesSeconds(t / 3600, (t % 3600) / 60, t % 60);
    } else {
      RenderMinutesSeconds((t % 3600) / 60, t % 60);
    }
  }

  lemma DetailTimeExamples()
    ensures DetailTime(3665) == "1h 1m 5s"
    ensures DetailTime(125) == "2m 5s"
  {
    assert DetailParts(3665) == [Part(1, 'h'), Part(1, 'm'), Part(5, 's')];
    RenderHoursMinutesSeconds(1, 1, 5);
    assert DetailParts(125) == [Part(2, 'm'), Part(5, 's')];
    RenderMinutesSeconds(2, 5);
    assert ShowNat(1) == "1" && ShowNat(2) == "2" && ShowNat(5) == "5";
  }

  /** The detail text loses nothing: for non-negative times, two texts agree
      exactly when the times do. */
  lemma DetailTimeInjective(t1: int, t2: int)
    requires 0 <= t1 && 0 <= t2
    ensures DetailTime(t1) == DetailTime(t2) <==> t1 == t2
  {
    DetailPartsRecompose(t1);
    DetailPartsRecompose(t2);
    if DetailTime(t1) == DetailTime(t2) {
      RenderInjective(DetailParts(t1), DetailParts(t2));
    }
  }

  // ---------------------------------------------------------------------------
  // update

  /** The options of the `update` command; `None` for an option not given. */
  datatype UpdateOptions = UpdateOptions(
    name: Option<string>,
    description: Option<string>,
    activityType: Option<string>,
    commute: Option<bool>,
    trainer: Option<bool>,
    gearId: Option<string>)

  /** A value passed to `update_activity`. */
  datatype UpdateValue = TextValue(text: string) | FlagValue(flag: bool)

  type Updates = map<string, UpdateValue>

  /** The call `update_activity(activity_id, **updates)`. */
  datatype UpdateCall = UpdateCall(activityId: int, fields: Updates)

  /** `if x:` on a string option: given and not empty. */
  predicate Given(x: Option<string>) { x.Some? && x.value != "" }

  /** `key` is present exactly when its string option is truthy, and then holds it. */
  predicate WhenGiven(u: Updates, key: string, x: Option<string>)
  {
    (key in u <==> Given(x)) && (key in u ==> u[key] == TextValue(x.value))
  }

  /** `key` is present exactly when its string option is not `None` (the empty string included). */
  predicate WhenNotNone(u: Updates, key: string, x: Option<string>)
  {
    (key in u <==> x.Some?) && (key in u ==> u[key] == TextValue(x.value))
  }

  /** `key` is present exactly when its flag is not `None` (`False` included). */
  predicate FlagWhenNotNone(u: Updates, key: string, x: Option<bool>)
  {
    (key in u <==> x.Some?) && (key in u ==> u[key] == FlagValue(x.value))
  }

  const UpdateKeys: set<string> := {"name", "description", "type", "commute", "trainer", "gear_id"}

  /** `u` is the update map for options `o`. */
  predicate Describes(o: UpdateOptions, u: Updates)
  {
    && u.Keys <= UpdateKeys
    && WhenGiven(u, "name", o.name)
    && WhenNotNone(u, "description", o.description)
    && WhenGiven(u, "type", o.activityType)
    && FlagWhenNotNone(u, "commute", o.commute)
    && FlagWhenNotNone(u, "trainer", o.trainer)
    && WhenGiven(u, "gear_id", o.gearId)
  }

  /** No option asks for a change. */
  predicate NothingToUpdate(o: UpdateOptions)
  {
    !Given(o.name) && o.description.None? && !Given(o.activityType)
    && o.commute.None? && o.trainer.None? && !Given(o.gearId)
  }

  /** The `updates` dictionary, one conditional insertion at a time. */
  method BuildUpdates(o: UpdateOptions) returns (updates: Updates)
    ensures Describes(o, updates)
  {
    updates := map[];
    if Given(o.name) {
      updates := updates["name" := TextValue(o.name.value)];
    }
    if o.description.Some? {
      updates := updates["description" := TextValue(o.description.value)];
    }
    if Given(o.activityType) {
      updates := updates["type" := TextValue(o.activityType.value)];
    }
    if o.commute.Some? {
      updates := updates["commute" := FlagValue(o.commute.value)];
    }
    if o.trainer.Some? {
      updates := updates["trainer" := FlagValue(o.trainer.value)];
    }
    if Given(o.gearId) {
      updates := updates["gear_id" := TextValue(o.gearId.value)];
    }
  }

  /** The remote call `update` makes: none when the map is empty. */
  method PlanUpdate(activityId: int, o: UpdateOptions) returns (call: Option<UpdateCall>)
    ensures call.None? <==> NothingToUpdate(o)
    ensures call.Some? ==> call.value.activityId == activityId && Describes(o, call.value.fields)
  {
    var updates := BuildUpdates(o);
    EmptyIffNothingToUpdate(o, updates);
    if updates == map[] {
      return None;
    }
    call := Some(UpdateCall(activityId, updates));
  }

  /** The rules leave one update map per set of options. */
  lemma UpdatesDetermined(o: UpdateOptions, u1: Updates, u2: Updates)
    requires Describes(o, u1) && Describes(o, u2)
    ensures u1 == u2
  {
  }

  /** The map is empty exactly when no option asks for a change. */
  lemma EmptyIffNothingToUpdate(o: UpdateOptions, u: Updates)
    requires Describes(o, u)
    ensures u == map[] <==> NothingToUpdate(o)
  {
  }

  /** An empty description is sent, to clear it; an empty name, type or gear id is not. */
  lemma EmptyStringsHandled(o: UpdateOptions, u: Updates)
    requires Describes(o, u)
    requires o.description == Some("") && o.name == Some("") && o.activityType == Some("") && o.gearId == Some("")
    ensures "description" in u && u["description"] == TextValue("")
    ensures "name" !in u && "type" !in u && "gear_id" !in u
  {
  }

  /** `--no-commute` and `--no-trainer` are sent as `False`. */
  lemma FalseFlagsSent(o: UpdateOptions, u: Updates)
    requires Describes(o, u)
    requires o.commute == Some(false) && o.trainer == Some(false)
    ensures "commute" in u && u["commute"] == FlagValue(false)
    ensures "trainer" in u && u["trainer"] == FlagValue(false)
  {
  }
}
