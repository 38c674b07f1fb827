# helldive.py core in Dafny

This project models the core of a typed client library for the Helldivers 2 community APIs. It covers three parts:

- **Enum decoding** (`Enums`). The integer codes of the assignment endpoint decode to enum members (`ValueTypes`, `RewardTypes`, `AssignmentTypes`). The lookup returns None for a code no member has. `FactionType` admits exactly four names.
- **Decoded entities and their cross-references** (`Models`). Planets, events, stations, campaigns, assignments and the other records are plain values. An entity reaches other entities through a `Context`: the lookups the shared client instance offers. `Option<Context>` is None when no instance exists. On top of that sit three relations:
  - the planet of an event, a soft lookup;
  - whether a planet hosts a space station, which hard-fails without a client;
  - whether an assignment is complete.
- **The tagged task-data resolver** (`TaskResolver`). This is `AssignmentTask.model_post_init`. It walks the parallel `value_types`/`values` lists and overwrites the four optional slots of the task's data object in place. A class method with a loop models it, and that method is proved against the specification function `Resolve`. Lemmas then characterise `Resolve` slot by slot:
  - the last write wins;
  - untouched slots keep their value;
  - `zip` truncates to the shorter list;
  - which slots end up populated.
- **The API client** (`Client`). This covers the retry policy built by `retry_adapter`, the identification headers and adapter mounts of `_setup_session`, and the `ApiClient` singleton. The singleton is a registry object whose `instance` slot starts absent. The first construction fills it, and every later construction returns the same object.

Three behaviours of the code worth knowing:
- `BetterEnum.parse` returns None for a code no member has.
- A later `ApiClient(...)` call returns the stored object, and Python then re-runs `__init__` on it. The model promises only object identity.
- `PlanetEvent.planet` looks the planet up by `campaign_id`.

## Model

| member | source | states |
|---|---|---|
| `Enums.ParseBy` | helldivepy/enums.py:5-11 | lookup by value never fails: a result is a member carrying that value, and None exactly when no member carries it |
| `Enums.ParseByMember` | helldivepy/enums.py:7-9 | when member values are distinct, the value of any member parses back to that member |
| `Enums.ParseValueType` | helldivepy/enums.py:14-23 | a parsed tag has the given code; None exactly for codes outside {1,2,3,4,5,11,12} |
| `Enums.ValueTypeRoundTrip` | helldivepy/enums.py:14-23 | `parse(m.value) == m` for every `ValueTypes` member |
| `Enums.ParseRewardType` | helldivepy/enums.py:26-29 | a code parses to a reward type iff it is 1, and then to MEDALS |
| `Enums.ParseAssignmentType` | helldivepy/enums.py:32-38 | a parsed type has the given code; None exactly for codes outside {3,11,12,13} |
| `Enums.AssignmentTypeRoundTrip` | helldivepy/enums.py:32-38 | `parse(m.value) == m` for every `AssignmentTypes` member |
| `Enums.FactionFromName` | helldivepy/enums.py:41 | a string is admitted as a faction iff it is one of Humans, Terminids, Automaton, Illuminate, and it maps to the faction of that name |
| `Enums.FactionNameRoundTrip` | helldivepy/enums.py:41 | every faction's name is one of the four and is admitted back as that faction |
| `Models.DefaultTaskData` | helldivepy/models.py:168-170 | the default task data has all four slots None |
| `Models.EventPlanet` | helldivepy/models.py:78-84 | None when no client exists, otherwise the planet lookup of the event's campaign id with `cached` left at its default |
| `Models.StationPlanetIndices` | helldivepy/models.py:149 | the list of station planet indices is position for position the stations' `planet.index` |
| `Models.HasSpaceStation` | helldivepy/models.py:131-152 | raises RuntimeError("ApiClient not initialized.") exactly when no client exists; otherwise true iff some station's planet index equals this planet's index |
| `Models.AllMetFrom` | helldivepy/models.py:215-218 | the short-circuiting `all(...)` from index i: an error is only ever IndexError and only when progress is shorter than tasks; true means every task from i on has a progress entry equal to its target count (closed form in `AllMetFromCharacterised`) |
| `Models.AllMetFromCharacterised` | helldivepy/models.py:213-218 | the short-circuiting `all(...)` from index i: false if some indexed task is unmet, otherwise IndexError when progress is shorter than tasks, otherwise true |
| `Models.IsComplete` | helldivepy/models.py:213-218 | true iff progress covers every task and every task's target count equals its progress entry; IndexError exactly when progress is shorter and every task it covers is met |
| `Models.IsCompleteWithFullProgress` | helldivepy/models.py:213-218 | with a progress entry per task, the result is never an error and is the conjunction over tasks of `target_count == progress[i]` (true for no tasks) |
| `Models.MissingTargetNeverCompletes` | helldivepy/models.py:213-218 | a task whose target count is None keeps the assignment from being complete |
| `Models.UnpopulatedSecondTarget` | helldivepy/models.py:213-218 | target counts [10, None] against progress [10, 10] give false |
| `TaskResolver.Get` | helldivepy/models.py:155-159 | reading a slot yields a value tagged with that slot |
| `TaskResolver.Put` | helldivepy/models.py:181-188 | writing a slot sets that slot and leaves the other three as they were |
| `TaskResolver.SlotOf` | helldivepy/models.py:179-188 | PLANET, RACE, TARGET_COUNT and LIBERATE name the planet, race, target count and liberate slots; UNKNOWN, UNIT_ID and ITEM_ID name none |
| `TaskResolver.DecodePair` | helldivepy/models.py:181-188 | a pair writes iff its tag is recognised: PLANET the cached planet lookup, RACE the faction parse, TARGET_COUNT the value verbatim, LIBERATE `value != 0` |
| `TaskResolver.Step` | helldivepy/models.py:179-188 | an unrecognised tag leaves the record unchanged; a recognised one writes its slot and only that slot |
| `TaskResolver.ResolvePrefix` | helldivepy/models.py:179-188 | the record after the first n loop iterations: if none of those tags is recognised, the record is unchanged (slot by slot in `UntouchedSlot` and `LastWriteWins`) |
| `TaskResolver.Resolve` | helldivepy/models.py:179-188 | the record after the whole `zip` loop: if no zipped tag is recognised it is the starting record (slot by slot in `ResolvedSlot`, truncation in `ResolveTruncates`) |
| `TaskResolver.UntouchedSlot` | helldivepy/models.py:179-188 | a slot that no processed pair targets keeps its starting value |
| `TaskResolver.LastWriteWins` | helldivepy/models.py:179-188 | a slot holds what the last processed pair targeting it wrote |
| `TaskResolver.LastWriter` | helldivepy/models.py:179 | when some processed tag targets a slot, there is a last such tag |
| `TaskResolver.PrefixDetermines` | helldivepy/models.py:179 | resolving n pairs depends only on the first n tags and values |
| `TaskResolver.ResolveTruncates` | helldivepy/models.py:179 | resolution equals resolution of both lists cut to the shorter length, since `zip` truncates |
| `TaskResolver.ResolvedSlot` | helldivepy/models.py:179-188 | every slot of the resolved record is the last write to it, or its starting value when no pair up to the shorter length targets it |
| `TaskResolver.PopulatedSlots` | helldivepy/models.py:168-188 | from the default record, target count and liberate are set iff their tag occurs among the zipped pairs; planet and race are set only if theirs does |
| `TaskResolver.RaceAndTargetCountExample` | helldivepy/models.py:179-188 | tags [RACE, TARGET_COUNT] with values [2, 50] and faction 2 = Terminids yield race Terminids, target count 50, the other slots None |
| `TaskResolver.AssignmentTaskData.constructor` | helldivepy/models.py:155-159 | the data object holds exactly the four slot values it is built with |
| `TaskResolver.AssignmentTask.constructor` | helldivepy/models.py:162-170 | a new task keeps its validated fields and owns a fresh data object with all four slots None |
| `TaskResolver.AssignmentTask.PostInit` | helldivepy/models.py:172-188 | without a client it raises ValueError("ApiClient is not initialized") before writing any slot; otherwise the data object's new slots are `Resolve` of the tags and values over the old slots |
| `TaskResolver.NewAssignmentTask` | helldivepy/models.py:162-188 | building a task fails with that ValueError without a client; otherwise it yields a fresh task whose data is the resolution of its pairs over the all-None default |
| `Client.RetryAdapter` | diveharder/api_client.py:9-20 | the status list is 429 followed by the extra codes in order; total is `retries`, the backoff factor is the given one, and only GET is retried |
| `Client.RetriedCodes` | diveharder/api_client.py:13 | a code is in the retry list iff it is 429 or one of the extra codes |
| `Client.IdentificationHeaders` | diveharder/api_client.py:87-93 | the headers are exactly User-Agent and X-Super-Client, both the user agent, and X-Super-Contact, the user contact |
| `Client.SessionAdapter` | diveharder/api_client.py:94 | the mounted adapter retries only on 429, 5 times, with backoff factor 0.2 |
| `Client.MountedAdapters` | diveharder/api_client.py:94-96 | https:// always carries the (0.2, 5) adapter; http:// carries it iff debug; nothing else is mounted |
| `Client.Session.constructor` | diveharder/api_client.py:86 | a new session starts with no headers and no adapters set by this client |
| `Client.Session.UpdateHeaders` | diveharder/api_client.py:87-93 | updating headers adds the given entries, replacing equal keys, and leaves the adapters alone |
| `Client.Session.Mount` | diveharder/api_client.py:94-96 | mounting binds the prefix to the adapter and leaves the headers alone |
| `Client.ApiClient.constructor` | diveharder/api_client.py:59-83 | a new client stores its debug flag, URL configuration, contact and agent, and owns a fresh session set up as `SetupSession` states |
| `Client.ApiClient.SetupSession` | diveharder/api_client.py:85-96 | the client gets a fresh session whose headers are the identification headers and whose adapters are the mounted ones for its debug flag; the other fields stay |
| `Client.ClientRegistry.constructor` | diveharder/api_client.py:47 | before any construction there is no instance |
| `Client.ClientRegistry.GetClient` | diveharder/api_client.py:55-57 | returns the stored instance, or null when there is none |
| `Client.ClientRegistry.New` | diveharder/api_client.py:49-53 | the first construction creates, configures and stores a fresh client; a later one returns the stored object, which stays stored |
| `Client.ClientRegistry.ConstructTwice` | diveharder/api_client.py:49-53 | two constructions with any arguments return the same object, and that object is the stored instance |

## Left out

- HTTP transport: `requests.Session`, `HTTPAdapter` and `Retry` behaviour, and the actual retrying and backoff timing. Only the configuration values they receive are modelled. These are foreign library I/O.
- The default headers and default adapters a `requests.Session` starts with. The modelled session starts empty, because that state belongs to the library.
- Logging setup (`set_logger`), `ApiClient.__repr__` and `Assignment.__str__`. They are side effects and formatting only.
- Pydantic alias remapping, field validation, datetime parsing and the rejection of malformed payloads. Decoded records are plain datatypes. Tags in `value_types` are therefore already `ValueTypes` members, since pydantic validates them.
- Floating-point fields. They are kept as opaque bit patterns, and the 0.2 backoff factor is the real number 0.2.
- The per-family fetch modules (helldivepy/api/campaigns.py, helldivepy/api/space_stations.py, diveharder/api/war.py). They are one-line wrappers over a base module's `get`, and that base module is not part of this model.
- helldivepy/api_client.py, the client class models.py actually imports, is not part of this model. Its `planets.get_planet(index, cached)` and `space_stations.get_space_stations()` become fields of `Context`, and so does `utils.parse_faction`, which is not shown either. All three are total functions or a snapshot list, so a network failure partway through resolution, which would leave some slots written, is not modelled.
- The default URLs `OFFICIAL_DIVEHARDER_URL` and `OFFICIAL_COMMUNITY_URL` come from diveharder/constants.py, which is not part of this model. The constructor takes the URLs, and `debug`, explicitly.
- Client.ClientRegistry.New: promises nothing about the fields of an existing instance on a later construction. Python re-runs `__init__` there, and that re-run is not modelled.
- Models.EventPlanet: `get_planet`'s default for `cached` is defined in the planets module, which is not part of this model. The call at helldivepy/models.py:83 leaves it at that default, which is assumed to be False.
- Concurrency between threads sharing the instance. The model is single-threaded.
- Each task owns its own default data record. This rests on pydantic copying a non-hashable model default per instance, which is library behaviour.
