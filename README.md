# strava-activity-cli, modelled in Dafny

strava-activity-cli is a command-line tool over the Strava API. This project models and proves the three parts of it that hold logic of their own:

- **Activity records** (`strava_cli/models.py`). `Activity.from_strava_activity` normalises the loosely typed upstream activity: durations become whole seconds, the activity type is unwrapped, falsy metrics get defaults, and missing flags become false. `to_dict` gives the 19-key JSON dictionary. `format_table_row` renders the `"{h}h {m}m"` time text. These are pure functions in module `Models`.
- **The token lifecycle** (`strava_cli/client.py`). `StravaClient` loads the token file, rejects a missing file or missing tokens, and decides from `expires_at` and the clock whether to refresh. A refresh checks the client credentials, overwrites the file with the response and installs the new access token. Module `Client` holds a class `StravaClient` whose methods change its fields. The pure functions `PlanLoad`, `LoadStep` and `RefreshStep` over a `Session` value specify those methods, and the lifecycle lemmas are stated about them.
- **The command layer** (`strava_cli/cli.py`). Module `Cli` covers:
  - the token-file option;
  - the `count` in the JSON that `list` prints;
  - the `"{h}h {m}m {s}s"` time text of `get`;
  - the `updates` map that `update` builds one conditional insertion at a time, and the early return when it is empty.

Helper modules:

- `Wrappers`: `Option` and `Outcome`.
- `JsonValues`: JSON values, Python truthiness and `dict.get`.
- `Decimal`: `str(int)` and its inverse parser.
- `DurationText`: space-separated duration texts, their parser, and the floor-division split of seconds into hours, minutes and seconds.

Each formatter is paired with a parser or a read-back, and the round trip between them is proved. Three things follow from these round trips:

- the table and detail times show exactly what they should: whole minutes for the table, the exact time for the detail view;
- the ID cell reads back as the id;
- `to_dict` loses nothing.

Inputs the code takes from the outside world are parameters of the model:

- the clock (`time.time()`), as `now: real`;
- the process environment, after `.env` is loaded, as a map;
- the decoded token file, as `Option<map<string, Json>>`, where `None` means the file does not exist;
- the answer of the remote refresh call, as `Option<map<string, Json>>`, where `None` means the call raised.

Behaviour of the code worth noting, which the model keeps:

- Activities are not checked for an id or a name: both are copied as they are, with no error for a missing one.
- The token file is overwritten in place, with no temporary file and rename.
- A refresh response without `access_token` is written to the file before the `KeyError` is raised. The next load then rejects that file (`Client.IncompleteResponseBreaksNextLoad`).
- An explicit zero for an optional metric is stored as `None`, the same as a missing value (`Models.ZeroCaloriesLookAbsent`).
- An absent or zero `expires_at` never triggers a refresh.

## Model

| member | source | states |
|---|---|---|
| `Models.GetSeconds` | strava_cli/models.py:44-49 | the nested `get_seconds`: 0 for a missing duration, an integer as it is, and `int(total_seconds())` of a timedelta-like value, which lies within one second of it on the side of zero; `GetSecondsTruncates` and `DurationFormsAgree` prove its properties |
| `Models.GetSecondsTruncates` | strava_cli/models.py:44-49 | a missing duration is 0 seconds, an integer is kept, and a timedelta-like value is truncated toward zero (bounds in both directions for negative and positive values) |
| `Models.TruncateTowardZero` | strava_cli/models.py:48 | `int(x)` on a float: the result is within one of `x`, on the side of zero |
| `Models.DurationFormsAgree` | strava_cli/models.py:44-49 | a timedelta of k seconds and the integer k normalise to the same k |
| `Models.TypeName` | strava_cli/models.py:51-56 | the `root` of a wrapped type, the `str()` text of any other value, and "None" for a missing type; `TypeFormsAgree` proves a name gives the same type in either form |
| `Models.TypeFormsAgree` | strava_cli/models.py:52-56 | a wrapped type name and the plain name give the same type string |
| `Models.FromStrava` | strava_cli/models.py:58-82 | every record built has no optional metric equal to zero |
| `Models.RenormaliseIdempotent` | strava_cli/models.py:58-82 | normalising a record again gives the same record exactly when it holds no zero optional metric |
| `Models.FromStravaIsNormalForm` | strava_cli/models.py:58-82 | normalising is idempotent on its own output |
| `Models.RequiredMetric` | strava_cli/models.py:62-67 | `float(x) if x else 0.0`: the upstream value when there is one (a zero stays 0.0), 0.0 when it is missing; used for distance and elevation gain |
| `Models.OptionalMetric` | strava_cli/models.py:70-77 | `float(x) if x else None`: absent exactly when upstream is missing or zero, and otherwise the upstream value, never 0.0; used for the five optional metrics |
| `Models.RequiredMetricsDefaultToZero` | strava_cli/models.py:62-67 | distance and elevation gain are the upstream value, or 0.0 when it is missing; never absent |
| `Models.OptionalMetricsDropZero` | strava_cli/models.py:70-77 | each of the five optional metrics (average and max speed, average and max heart rate, calories) is absent exactly when upstream is missing or zero, and otherwise equals the upstream value |
| `Models.ZeroCaloriesLookAbsent` | strava_cli/models.py:70-77 | an explicit zero for calories, either heart rate or either speed gives the same record as a missing one |
| `Models.DefaultsForMissingAttributes` | strava_cli/models.py:76-81 | missing trainer, commute and private flags are false, present ones are copied; description and gear id are copied |
| `Models.ToDict` | strava_cli/models.py:90-110 | `to_dict`: a JSON object with one member per dataclass field, keyed by the field's name in the order of the literal; `ToDictKeys`, `ToDictEntry`, `ToDictRoundTrip` and `ToDictInjective` prove it has 19 distinct keys, gives each field's value and loses nothing |
| `Models.IndexOf` | strava_cli/models.py:90-110 | every field has a position in the dictionary's key order |
| `Models.KeyInjective` | strava_cli/models.py:90-110 | the key of a field reads back to that field, so no two fields share a key |
| `Models.FieldOrderPositions` | strava_cli/models.py:90-110 | the key order lists 19 fields, each exactly once |
| `Models.ToDictKeys` | strava_cli/models.py:90-110 | the dictionary has 19 members with distinct keys, one for every field |
| `Models.ToDictEntry` | strava_cli/models.py:90-110 | looking up a field's key gives that field's value, with dates as their ISO text |
| `Models.IntFieldsReadBack` | strava_cli/models.py:91-96 | the id, moving time and elapsed time are stored as JSON integers equal to the fields |
| `Models.RealFieldsReadBack` | strava_cli/models.py:94-97 | distance and elevation gain are stored as JSON floats equal to the fields |
| `Models.StrFieldsReadBack` | strava_cli/models.py:92-99 | name, type and the two dates' ISO texts are stored as JSON strings |
| `Models.OptRealFieldsReadBack` | strava_cli/models.py:100-105 | each optional metric is stored as its float or as null |
| `Models.OptStrFieldsReadBack` | strava_cli/models.py:104-106 | description and gear id are stored as their string or as null |
| `Models.BoolFieldsReadBack` | strava_cli/models.py:107-109 | the three flags are stored as JSON booleans equal to the fields |
| `Models.ToDictRoundTrip` | strava_cli/models.py:90-110 | reading the dictionary back gives the original record |
| `Models.ToDictInjective` | strava_cli/models.py:90-110 | two records give the same dictionary exactly when they are equal |
| `Models.FormatTableRow` | strava_cli/models.py:124-132 | the row has exactly the seven columns ID, Date, Name, Type, Distance, Time and Elevation |
| `Models.TableTime` | strava_cli/models.py:119-122 | the `time_str` of `format_table_row`, rendered from the hour and minute components of the floor-division split; `TableTimeShape`, `TableTimeExamples` and `TableTimeShowsWholeMinutes` prove its form and that it shows exactly the whole minutes |
| `Models.TableTimeShape` | strava_cli/models.py:119-122 | minutes lie in [0, 60); the text is "{h}h {m}m" when hours > 0 and "{m}m" otherwise |
| `Models.TableTimeExamples` | strava_cli/models.py:122 | 3665 seconds give "1h 1m" and 125 give "2m" |
| `Models.TableTimeShowsWholeMinutes` | strava_cli/models.py:119-122 | for non-negative times, two texts are equal exactly when the whole minutes are |
| `Models.TableRowCells` | strava_cli/models.py:124-132 | the ID cell parses back to the id; Name and Type are copied; Time is the time text |
| `Decimal.ShowNat` | strava_cli/models.py:125 | `str(n)` is a non-empty digit string without a leading zero, starting with '0' only for 0 |
| `Decimal.ShowInt` | strava_cli/models.py:125 | `str(i)`: a non-empty text that starts with '-' exactly when `i` is negative; `ParseShowInt` and `ShowIntInjective` prove it parses back to `i` and loses nothing |
| `Decimal.ParseShowInt` | strava_cli/models.py:125 | `str(i)` parses back to `i`, negative values included |
| `Decimal.ShowIntInjective` | strava_cli/models.py:125 | different integers have different decimal texts |
| `DurationText.ParseRender` | strava_cli/models.py:122 | a non-empty list of h/m/s components parses back from its text |
| `DurationText.RenderInjective` | strava_cli/cli.py:188 | two component lists have the same text exactly when they are equal |
| `DurationText.ClockSplit` | strava_cli/cli.py:185-187 | minutes and seconds lie in [0, 60), `3600*h + 60*m + s == t`, and hours and minutes depend only on `t // 60` |
| `Client.ResolvePath` | strava_cli/client.py:22 | without a token file the path is `strava-token.json`; a given path is kept |
| `Client.StravaClient.constructor` | strava_cli/client.py:15-23 | the path is resolved, the environment is kept, the file is the one on disk and no token is installed yet |
| `Client.StravaClient.LoadAndSetToken` | strava_cli/client.py:26-48 | the new state and the raised error are those of `LoadStep` on the old state |
| `Client.StravaClient.RefreshToken` | strava_cli/client.py:50-72 | the new state and the raised error are those of `RefreshStep` on the old state |
| `Client.Connect` | strava_cli/client.py:15-24 | a fresh client whose state is the load from an empty session |
| `Client.MissingFileRejected` | strava_cli/client.py:28-32 | without a file, loading fails with file-not-found and changes nothing |
| `Client.MissingTokenRejected` | strava_cli/client.py:37-42 | a missing or falsy access or refresh token fails as an invalid file, with no refresh and no change |
| `Client.RefreshDue` | strava_cli/client.py:45 | `expires_at and now > expires_at - 300`: not due for a falsy `expires_at`, an error (the `TypeError` of the subtraction) exactly for a truthy non-number, and due exactly for a truthy number with `now > expires_at - 300`; `DueIsMonotone` proves it stays due as time passes |
| `Client.PlanLoad` | strava_cli/client.py:28-48 | the decision of `_load_and_set_token`: file-not-found exactly when there is no file; an installed token is always the file's truthy `access_token`; a refresh always uses the file's truthy `refresh_token`; `RefreshIffDue` gives the if-and-only-if for a refresh |
| `Client.RefreshStep` | strava_cli/client.py:50-72 | `_refresh_token` on a session: on success the file is the response and the installed token is its `access_token`; on failure the installed token is kept; at most one request is appended; `RefreshNeedsCredentials` and `RefreshSucceeds` prove the failure and success cases |
| `Client.LoadStep` | strava_cli/client.py:26-72 | `_load_and_set_token` on a session: after success the installed token is the file's own `access_token`; on failure the installed token is kept; at most one request is appended; the lemmas below prove each branch of the lifecycle |
| `Client.RefreshIffDue` | strava_cli/client.py:44-48 | a refresh is planned exactly when both tokens are truthy, `expires_at` is a truthy number and `now > expires_at - 300`; it uses the stored refresh token |
| `Client.NotDueInstallsStoredToken` | strava_cli/client.py:44-48 | when both tokens are truthy and the token is not due, the load passes, installs the stored access token and leaves the file and the refresh calls unchanged |
| `Client.DueRefreshes` | strava_cli/client.py:44-46 | when both tokens are truthy and the token is due, the load has exactly the effect of a refresh with the stored refresh token |
| `Client.StoredTokenKept` | strava_cli/client.py:44-48 | at exactly `now == expires_at - 300`, or with `expires_at` absent or zero, the stored access token is installed and nothing else changes |
| `Client.DueIsMonotone` | strava_cli/client.py:45 | once a token is due for refresh it stays due at every later time |
| `Client.RefreshNeedsCredentials` | strava_cli/client.py:56-60 | without both client id and secret the refresh fails, makes no call and leaves the file unchanged |
| `Client.RefreshSucceeds` | strava_cli/client.py:62-72 | a refresh succeeds exactly when the credentials are set and the response has an access token; then the file is the response, the installed token is its access token, and one request was made |
| `Client.LoadedTokenMatchesFile` | strava_cli/client.py:44-72 | after any successful load the installed token is the token file's own access token |
| `Client.FailureKeepsState` | strava_cli/client.py:28-72 | a failed load keeps the installed token, and keeps the file unless the response lacked an access token |
| `Client.AtMostOneRequest` | strava_cli/client.py:44-66 | a load appends at most one refresh request and never removes one |
| `Client.IncompleteResponseBreaksNextLoad` | strava_cli/client.py:68-72 | after a response without an access token, the next load rejects the overwritten file |
| `Cli.CliTokenPath` | strava_cli/cli.py:26 | an absent or empty option gives no path; any other is kept |
| `Cli.TokenFileOption` | strava_cli/cli.py:26 | the client reads the named file, or `strava-token.json` when the option is absent or empty |
| `Cli.ListJson` | strava_cli/cli.py:111-117 | no JSON document is printed exactly when no activities were found |
| `Cli.ListJsonCount` | strava_cli/cli.py:117 | `count` equals the number of listed activities and of raw activities, and each listed dictionary reads back as its normalised activity |
| `Cli.DetailTime` | strava_cli/cli.py:185-194 | the `time_str` and `elapsed_str` of `get`, rendered from the hour, minute and second components of the floor-division split; `DetailTimeShape`, `DetailTimeExamples` and `DetailTimeInjective` prove its form and that it loses nothing for non-negative times |
| `Cli.DetailPartsRecompose` | strava_cli/cli.py:185-188 | the components recompose the time and minutes and seconds are below 60 |
| `Cli.DetailTimeShape` | strava_cli/cli.py:185-188 | the text is "{h}h {m}m {s}s" when hours > 0 and "{m}m {s}s" otherwise |
| `Cli.DetailTimeExamples` | strava_cli/cli.py:188 | 3665 seconds give "1h 1m 5s" and 125 give "2m 5s" |
| `Cli.DetailTimeInjective` | strava_cli/cli.py:185-194 | for non-negative times two texts are equal exactly when the times are |
| `Cli.BuildUpdates` | strava_cli/cli.py:255-267 | the map has only the six update keys; name, type and gear id exactly when non-empty; description, commute and trainer exactly when given; each value is the option's |
| `Cli.PlanUpdate` | strava_cli/cli.py:269-275 | no call is made exactly when no option asks for a change; otherwise the call carries the activity id and the update map |
| `Cli.UpdatesDetermined` | strava_cli/cli.py:255-267 | the inclusion rules leave exactly one map per set of options |
| `Cli.EmptyIffNothingToUpdate` | strava_cli/cli.py:269 | the map is empty exactly when no option asks for a change |
| `Cli.EmptyStringsHandled` | strava_cli/cli.py:256-261 | an empty description is sent to clear it; an empty name, type or gear id is not sent |
| `Cli.FalseFlagsSent` | strava_cli/cli.py:262-265 | `--no-commute` and `--no-trainer` are sent as false |

## Left out

- The HTTP calls through stravalib (`refresh_access_token`, `get_activities`, `get_activity`, `update_activity`) are foreign library code. The refresh response is a parameter, and the update call is returned as a value.
- `load_dotenv`, `os.environ` and `time.time()` are inputs. The environment and `now` are parameters.
- JSON parsing and writing of the token file are left out. The file is its decoded top-level object, so a file that is not a JSON object (where `data.get` would raise) is not modelled. Neither is indentation or key order on disk.
- `int(client_id)` is not modelled: the client id stays a string. In the code `int(client_id)` is evaluated as an argument at `strava_cli/client.py:63`, before `refresh_access_token` runs, so a non-integer id raises `ValueError` with no request made and the file untouched. The model instead records the request and, given a response, reports success. Python's `int()` accepts whitespace, signs, underscores and non-ASCII digits, which the model does not reproduce.
- A flag attribute that is present but `None` upstream is not modelled: `getattr` would copy the `None`. A missing flag and a flag set to `None` are both represented as `None` and both read as false.
- Numeric upstream values are reals. `float()` conversion of library quantity types, and the float formatting of distance, elevation, speed and heart rate (`:.2f`, `:.0f`, `* 3.6`), are left out. The table row's Distance and Elevation cells hold the number to be formatted.
- Timestamps are opaque, identified by their `isoformat()` text. `strptime` and `strftime` are left out, so the table's Date cell holds the timestamp to be formatted.
- Click command wiring, rich tables and console output, and `click.Abort` on errors are presentation and are left out. The fetch-then-print sequence of `get` and `update` is also left out.
- The client is loaded before `update` builds its map, as `get_client(token_file)` at `strava_cli/cli.py:252`. This ordering is not composed with `Cli.PlanUpdate` in the model.
- Concurrency: two processes refreshing the same token file at once are not modelled.
- `Cli.DetailTimeInjective` is stated for non-negative times only: floor division gives a negative time a negative hour count, which the text does not show.
- `Models.TableTimeShowsWholeMinutes` is stated for non-negative times only, for the same reason.
- `Cli.DetailPartsRecompose` is stated for non-negative times only: for a negative time the hours component is dropped, so the parts do not recompose it.
- An upstream `id` or `name` that is `None` (or of another type) is not modelled: the code would copy it into the record and the dictionary, while `RawActivity` gives the id an integer and the name a string.
