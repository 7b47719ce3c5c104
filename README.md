# RevitMCP core, modelled in Dafny

RevitMCP connects Autodesk Revit to the Model Context Protocol (MCP). A plugin
inside Revit starts a separate server process through `dotnet`. The two talk
through the server's standard input and output, one JSON document per line. The
repository also holds a family library: repositories of family metadata, search
services over them, and a mapper between the metadata and its transfer objects.

This project models that core and proves what it promises:

- **Family store and search** (`store.dfy`, `mock_family_repository.dfy`,
  `in_memory_family_repository.dfy`, `mock_family_search_service.dfy`).
  - The repositories are classes over a `map` from id to family. Save is an upsert
    by id and delete removes the id; the proofs show that every other entry stays
    as it was.
  - Reading all families enumerates the map. Order is left open, as it is for a
    `Dictionary` after removals.
  - A search is a filter followed by a truncation. It returns distinct stored
    families that match, exactly `min(matches, maxResults)` of them, and all
    matches when the result is short.
  - `MockFamilySearchService` copies its list once, so it is a value. Its searches
    are functions that return the first matches of the list, in list order. The chain of
    conditional `Where`s in its criteria search is proved equal to one filter by
    the conjunction of the criteria that are set.
  - The role-checking `SecureFamilyRepository` and the always-failing repository are
    classes holding the base repository they extend (`inner`).
  - `SimpleFamilySearchService` keeps its lazy `Where`/`Take`. It throws only when
    the query is null or the truncated scan reaches a family whose tags are null.
- **Mapper** (`mapper.dfy`). Both directions of `FamilyMetadataMapper` and
  `ParameterMapper` are total functions, and the round trips are proved.
  - Family parameters are the dictionary's entries in enumeration order: a list of
    (key, parameter) pairs. The dictionary is built once and never edited, so that
    order is insertion order, and `ToDTO` copies it into the transfer object's list.
- **Channel** (`messages.dfy`, `server_channel.dfy`, `plugin_channel.dfy`).
  - Streams are sequences of lines. JSON serialisation is an abstract codec, whose
    decoder can also yield the `null` literal or throw.
  - The server loop writes one response line per decodable query line, in input
    order. It stops at the first line that throws.
  - The plugin writes one line, then reads one.
  - End to end, a "Ping" query comes back as "Pong" with its request id, provided
    the codec round-trips the two messages.
- **Tool handler** (`tool_handler.dfy`). `HandleRequestAsync` fills a fresh response
  object.
  - The three exact method names route to their handlers.
  - Any other name gives a 404, and every exception gives a 500.
  - Exactly one of result and error is set.
  - The `JsonElement` accessors are modelled with the exceptions they raise.
  - The kind conversion of a parameter value is proved lossless for Int32, string,
    bool and raw values. A non-Int32 number's rounding to a double is not modelled.
- **Test client** (`test_client.dfy`). The canned dispatch table of `MCPTestClient`.
- **Server lifecycle** (`processes.dfy`, `server_manager.dfy`, `start_command.dfy`,
  `stop_command.dfy`).
  - The operating system is a class holding files, running process ids, launches and
    message boxes. Whether a launch or a kill fails is its nondeterministic choice.
  - The manager's `ServerProcessId` is a field of a lazily created singleton.
  - The start and stop commands are methods over both. Every successful stop leaves
    no server recorded or running.

## Where the tests expect other behaviour

The model follows the code. Besides the findings below, these tests assert
behaviour the shown code does not have:

- Default `maxResults` is 20. Yet `RevitMCP.IntegrationTests/FamilyLibraryIntegrationTests.cs:258-259`,
  `:266-267` and `:330-331` expect more than 20 results under that default.
- The mapper has no null guards. A null argument gives a `NullReferenceException`,
  not the `ArgumentNullException` that `RevitMCP.Tests/DTOs/FamilyMetadataMapperTests.cs:106-115` expects.
- No repository validates empty ids, names or categories, unlike what
  `FamilyLibraryIntegrationTests.cs:216-225` expects. Those tests rely on a
  constructor that is not part of this model.
- The cast at `FamilyLibraryIntegrationTests.cs:520` does not bypass the overriding
  save. User "userA" saving a family created by "userB" is refused already there,
  not at `:521`-`:522`. So through the class a user's store only ever holds that
  user's own families (`FamilyLibrary.SecureFamilyRepository.Valid`).
- `MCPTestClient.cs` builds `RevitElementInfo` with a string id and a list of
  parameters. The `RevitElementInfo` in `RevitMCP.Shared/Models/RevitElementInfo.cs`
  has an `int` id and a dictionary. The model follows the test client.
- `FamilyMetadata` is built with a nine-argument constructor that is not part of this
  model. It is taken to assign the fields in order. `RevitMCP.Shared/Models/FamilyMetadata.cs`
  has only a default constructor and `object` parameter values; the model uses the
  shape that the mapper and the tests build.

## Model

| member | source | states |
|---|---|---|
| Family.NatToString | RevitMCP.Tests/Services/MockFamilySearchServiceTests.cs:51 | an int default value's `ToString()` digits: decimal digits only, one digit exactly below 10, a leading '0' only for zero |
| Family.NatToStringParses | RevitMCP.Tests/Services/MockFamilySearchServiceTests.cs:51 | reading the digits back gives the number, so the parameter-value criterion compares against the value's true decimal text |
| Store.Upsert | RevitMCP.Tests/Repositories/MockFamilyRepositoryTests.cs:40 | `_store[id] = family`: the id's entry becomes the family, the keys gain only that id, every other entry is unchanged, and a store keyed by id stays keyed by id |
| Store.Remove | RevitMCP.Tests/Repositories/MockFamilyRepositoryTests.cs:46 | `_store.Remove(id)`: only that key goes, every remaining entry is unchanged |
| Store.Lookup | RevitMCP.Tests/Repositories/MockFamilyRepositoryTests.cs:24-25 | `TryGetValue`: a family exactly when the id is stored, and then the stored one |
| Store.SaveThenGet | RevitMCP.Tests/Repositories/MockFamilyRepositoryTests.cs:37-42 | after saving a family, looking up its id returns that family |
| Store.SaveReplaces | RevitMCP.IntegrationTests/FamilyLibraryIntegrationTests.cs:26 | saving a family whose id is already stored replaces the old one wholesale: the store is as if only the new one had been saved |
| Store.SaveIdempotent | RevitMCP.IntegrationTests/FamilyLibraryIntegrationTests.cs:26 | saving the same family again changes nothing |
| Store.DeleteThenGet | RevitMCP.IntegrationTests/FamilyLibraryIntegrationTests.cs:27 | after a delete the id is not found; deleting again, or deleting an absent id, changes nothing |
| Store.SaveAllKeys | RevitMCP.IntegrationTests/FamilyLibraryIntegrationTests.cs:26 | after a sequence of saves the stored ids are the old ones plus the saved ones |
| Store.SaveAllSize | RevitMCP.IntegrationTests/FamilyLibraryIntegrationTests.cs:26 | saving N families with distinct ids not yet stored adds N entries |
| Store.SaveAllDistinct | RevitMCP.IntegrationTests/FamilyLibraryIntegrationTests.cs:26 | saving N families with distinct new ids adds exactly their ids: N more entries |
| Store.Enumerate | RevitMCP.Tests/Repositories/MockFamilyRepositoryTests.cs:19-20 | `_store.Values`: every stored family exactly once, nothing else |
| Store.SelectFromEnumeration | RevitMCP.Tests/Repositories/MockFamilyRepositoryTests.cs:30-33 | `Where(p).Take(n)` over the values: distinct stored families satisfying p, exactly min(max(n, 0), number of matches) of them, all matches when fewer than n |
| Sequences.FilterTake | RevitMCP.Tests/Services/MockFamilySearchServiceTests.cs:24-28 | `Where(p).Take(n)` over a list: exactly the first min(max(n, 0), matches) matches of the list, in list order, so every match when shorter than n |
| Sequences.FilterTakeLazyValue | RevitMCP.IntegrationTests/FamilyLibraryIntegrationTests.cs:35 | a lazy `Where(p).Take(n)` whose test can throw yields, when it does not throw, the first n elements on which the test holds |
| Sequences.FilterTakeLazyThrows | RevitMCP.IntegrationTests/FamilyLibraryIntegrationTests.cs:35 | the lazy `Where(p).Take(n)` throws only if the test throws on some element |
| Sequences.FilterTakeLazyTotal | RevitMCP.IntegrationTests/FamilyLibraryIntegrationTests.cs:35 | the lazy `Where(p).Take(n)` cannot throw when the test never does |
| MockRepository.MatchesKeywordMeaning | RevitMCP.Tests/Repositories/MockFamilyRepositoryTests.cs:30-32 | a keyword matches a family exactly when its name or its category contains the keyword, ignoring case |
| MockRepository.EmptyKeywordMatchesAll | RevitMCP.Tests/Repositories/MockFamilyRepositoryTests.cs:30-32 | a null or empty keyword matches every family |
| MockRepository.MockFamilyRepository.constructor | RevitMCP.Tests/Repositories/MockFamilyRepositoryTests.cs:17 | a new repository is empty |
| MockRepository.MockFamilyRepository.GetAllFamilies | RevitMCP.Tests/Repositories/MockFamilyRepositoryTests.cs:19-20 | every stored family once |
| MockRepository.MockFamilyRepository.GetFamilyById | RevitMCP.Tests/Repositories/MockFamilyRepositoryTests.cs:22-26 | the stored family with that id, or null for an id never saved (no exception) |
| MockRepository.MockFamilyRepository.SearchFamilies | RevitMCP.Tests/Repositories/MockFamilyRepositoryTests.cs:28-35 | a bounded selection of the families whose name or category contains the keyword ignoring case; default bound 20 |
| MockRepository.MockFamilyRepository.SaveOrUpdateFamily | RevitMCP.Tests/Repositories/MockFamilyRepositoryTests.cs:37-42 | null throws `ArgumentNullException` and leaves the store unchanged; otherwise an upsert by id |
| MockRepository.MockFamilyRepository.DeleteFamily | RevitMCP.Tests/Repositories/MockFamilyRepositoryTests.cs:44-48 | removes the id, every other entry unchanged |
| MockSearch.MockFamilySearchService.SearchByNaturalLanguage | RevitMCP.Tests/Services/MockFamilySearchServiceTests.cs:22-30 | the first min(maxResults, matches) families of the list, in list order, whose name, category or some tag contains the query ignoring case; all matches when short |
| MockSearch.MockFamilySearchService.SearchByTags | RevitMCP.Tests/Services/MockFamilySearchServiceTests.cs:32-37 | the first min(maxResults, matches) families of the list, in list order, with tags overlapping the query set ignoring case; all matches when short |
| MockSearch.MockFamilySearchService.SearchByCriteria | RevitMCP.Tests/Services/MockFamilySearchServiceTests.cs:39-53 | the first min(maxResults, matches) families of the list, in list order, meeting every criterion that is set; all matches when short |
| MockSearch.CriteriaChainIsConjunction | RevitMCP.Tests/Services/MockFamilySearchServiceTests.cs:41-52 | the chain of conditional `Where`s equals one filter by the conjunction of the criteria, an omitted criterion imposing nothing |
| MockSearch.MatchesCriteriaMeaning | RevitMCP.Tests/Services/MockFamilySearchServiceTests.cs:42-51 | name is a substring test and category a whole-string equality, both ignoring case; tags overlap; parameter name is a key; some default value renders as the parameter value |
| MockSearch.EmptyQueryKeepsAll | RevitMCP.Tests/Services/MockFamilySearchServiceTests.cs:24-28 | a null or empty query returns the first maxResults families |
| MockSearch.EmptyTagsFindNothing | RevitMCP.Tests/Services/MockFamilySearchServiceTests.cs:34-35 | a null or empty tag set finds nothing |
| MockSearch.EmptyCriteriaKeepAll | RevitMCP.Tests/Services/MockFamilySearchServiceTests.cs:41-52 | with no criterion set, including an empty tag list, the first maxResults families are returned |
| FamilyLibrary.InMemoryFamilyRepository.constructor | RevitMCP.IntegrationTests/FamilyLibraryIntegrationTests.cs:22 | a new repository is empty |
| FamilyLibrary.InMemoryFamilyRepository.GetAllFamilies | RevitMCP.IntegrationTests/FamilyLibraryIntegrationTests.cs:23 | every stored family once |
| FamilyLibrary.InMemoryFamilyRepository.GetFamilyById | RevitMCP.IntegrationTests/FamilyLibraryIntegrationTests.cs:24 | the stored family with that id, or null |
| FamilyLibrary.InMemoryFamilyRepository.SearchFamilies | RevitMCP.IntegrationTests/FamilyLibraryIntegrationTests.cs:25 | a bounded selection of the families whose name contains the keyword, case-sensitive; default bound 20 |
| FamilyLibrary.InMemoryFamilyRepository.SaveOrUpdateFamily | RevitMCP.IntegrationTests/FamilyLibraryIntegrationTests.cs:26 | upsert by id |
| FamilyLibrary.InMemoryFamilyRepository.DeleteFamily | RevitMCP.IntegrationTests/FamilyLibraryIntegrationTests.cs:27 | removes the id |
| FamilyLibrary.EmptyKeywordMatchesAll | RevitMCP.IntegrationTests/FamilyLibraryIntegrationTests.cs:25 | the empty keyword matches every stored family |
| FamilyLibrary.InMemoryFamilyRepositoryWithExceptionOnSave.SaveOrUpdateFamily | RevitMCP.IntegrationTests/FamilyLibraryIntegrationTests.cs:405-411 | every save throws `InvalidOperationException` with the simulated-failure message and writes nothing |
| FamilyLibrary.ReadOnlyRejectsAll | RevitMCP.IntegrationTests/FamilyLibraryIntegrationTests.cs:486-494 | a read-only caller is refused every save and every delete |
| FamilyLibrary.AdminPassesAll | RevitMCP.IntegrationTests/FamilyLibraryIntegrationTests.cs:486-502 | an administrator passes every check |
| FamilyLibrary.UserChecks | RevitMCP.IntegrationTests/FamilyLibraryIntegrationTests.cs:489-500 | a user's save is refused exactly when the incoming family is not theirs; a delete exactly when a stored family with that id belongs to someone else |
| FamilyLibrary.SecureFamilyRepository.constructor | RevitMCP.IntegrationTests/FamilyLibraryIntegrationTests.cs:485 | the role and user id (default "user1") are kept; the store is empty, so the invariant holds |
| FamilyLibrary.SecureFamilyRepository.SaveOrUpdateFamily | RevitMCP.IntegrationTests/FamilyLibraryIntegrationTests.cs:486-491 | the outcome is the role check, and the store is upserted exactly when it passes, unchanged otherwise; the invariant (for a user, every stored family is the user's own) is kept |
| FamilyLibrary.SecureFamilyRepository.DeleteFamily | RevitMCP.IntegrationTests/FamilyLibraryIntegrationTests.cs:492-502 | the outcome is the role check against the stored owner, and the id is removed exactly when it passes; the invariant is kept |
| FamilyLibrary.UserOverwritesOthers | RevitMCP.IntegrationTests/FamilyLibraryIntegrationTests.cs:489 | as written, user "userA" may replace a family created by "userB", which then appears to be theirs; such a stored family can only get there by changing a stored object through a shared reference |
| FamilyLibrary.OwnedSaveCheck | RevitMCP.IntegrationTests/FamilyLibraryIntegrationTests.cs:486-491 | the intended save check passes only where the written one does |
| FamilyLibrary.OwnedSaveProtectsOthers | RevitMCP.IntegrationTests/FamilyLibraryIntegrationTests.cs:486-491 | under the intended check, a save a user may make leaves every family owned by someone else as it was |
| FamilyLibrary.OwnedStoreChecksAgree | RevitMCP.IntegrationTests/FamilyLibraryIntegrationTests.cs:486-502 | on a store holding only the user's own families, the written and intended save checks agree and a user's delete is never refused |
| FamilyLibrary.SimpleFamilySearchService.constructor | RevitMCP.IntegrationTests/FamilyLibraryIntegrationTests.cs:33 | keeps the repository |
| FamilyLibrary.SimpleFamilySearchService.SearchByNaturalLanguage | RevitMCP.IntegrationTests/FamilyLibraryIntegrationTests.cs:34 | the repository's keyword search with the same bound |
| FamilyLibrary.SimpleFamilySearchService.SearchByTags | RevitMCP.IntegrationTests/FamilyLibraryIntegrationTests.cs:35 | a bounded selection of the families sharing a tag with the query (ordinal); fails with `ArgumentNullException` only if the query or some stored family's tags are null, and never when all are present |
| FamilyLibrary.SimpleFamilySearchService.SearchByCriteria | RevitMCP.IntegrationTests/FamilyLibraryIntegrationTests.cs:36 | a bounded selection by the name keyword alone (null counts as ""); every other criterion is ignored |
| FamilyLibrary.SimpleFamilySearchService.SearchByAllCriteria | RevitMCP.IntegrationTests/FamilyLibraryIntegrationTests.cs:36 | the intended criteria search: a bounded selection of the families meeting every criterion that is set |
| FamilyLibrary.CriteriaIgnoredExample | RevitMCP.IntegrationTests/FamilyLibraryIntegrationTests.cs:36 | a door of category "建筑" passes the written criteria test for category "结构" but fails the full criteria |
| Mapper.ParameterToDTO | RevitMCP.Shared/DTOs/FamilyMetadataMapper.cs:63-74 | copies all six fields unchanged |
| Mapper.ParameterToModel | RevitMCP.Shared/DTOs/FamilyMetadataMapper.cs:79-89 | copies name, type, required and default value; a null unit or description becomes "" |
| Mapper.ParameterModelRoundTrip | RevitMCP.Shared/DTOs/FamilyMetadataMapper.cs:63-89 | model to transfer object and back is the identity when unit and description are present |
| Mapper.ParameterDTORoundTrip | RevitMCP.Shared/DTOs/FamilyMetadataMapper.cs:63-89 | transfer object to model and back is the identity when unit and description are present |
| Mapper.ToParameterDictionary | RevitMCP.Shared/DTOs/FamilyMetadataMapper.cs:37-40 | `ToDictionary` by name succeeds exactly when the names are distinct, and keeps the entries in order, each keyed by its parameter's name |
| Mapper.ParametersToDTOs | RevitMCP.Shared/DTOs/FamilyMetadataMapper.cs:24 | one transfer object per dictionary value, in order |
| Mapper.ToDTO | RevitMCP.Shared/DTOs/FamilyMetadataMapper.cs:16-30 | copies id, name, category, the three optional strings (absent stays absent) and the timestamp; absent tags or parameters become empty lists |
| Mapper.ToModel | RevitMCP.Shared/DTOs/FamilyMetadataMapper.cs:35-52 | succeeds exactly when parameter names are distinct; copies id, name, category and timestamp; absent tags become empty and the three absent optional strings become ""; every parameter key equals its parameter's name |
| Mapper.ParametersDTOsUnique | RevitMCP.Shared/DTOs/FamilyMetadataMapper.cs:24 | a dictionary keyed by name yields transfer objects with distinct names |
| Mapper.ModelRoundTrip | RevitMCP.Shared/DTOs/FamilyMetadataMapper.cs:16-52 | model to transfer object and back succeeds when the parameters are keyed by name, keeping id, name, category, timestamp, tags (absent becomes empty) and parameter keys |
| Mapper.ModelRoundTripComplete | RevitMCP.Shared/DTOs/FamilyMetadataMapper.cs:16-52 | with every optional value present, model to transfer object and back is the identity |
| Mapper.DTORoundTripComplete | RevitMCP.Shared/DTOs/FamilyMetadataMapper.cs:16-52 | with every optional value present and distinct names, transfer object to model and back is the identity |
| Mapper.AbsentValueLost | RevitMCP.Shared/DTOs/FamilyMetadataMapper.cs:48 | as written, a null preview path comes back from the round trip as "" |
| Mapper.ToModelKeepingAbsence | RevitMCP.Shared/DTOs/FamilyMetadataMapper.cs:35-52 | the intended conversion: absent description, preview path and creator stay absent; the other fields and the parameter dictionary (built by `ParameterMapper.ToModel`) are as written |
| Mapper.KeepingAbsenceModelRoundTrip | RevitMCP.Tests/DTOs/FamilyMetadataMapperTests.cs:12-43 | with the intended conversion, model to transfer object and back keeps id, name, category, timestamp, tags (absent becomes empty), the three optional strings (absent included) and the parameters' names and count |
| Mapper.KeepingAbsenceModelIdentity | RevitMCP.Shared/DTOs/FamilyMetadataMapper.cs:16-52 | with the intended conversion, model to transfer object and back is the identity when the lists and every parameter's unit and description are present |
| Mapper.KeepingAbsenceDTORoundTrip | RevitMCP.Tests/DTOs/FamilyMetadataMapperTests.cs:46-77 | with the intended conversion, transfer object to model and back keeps id, name, category, timestamp, tags (absent becomes empty), the three optional strings (absent included) and the parameter count |
| Mapper.KeepingAbsenceDTOIdentity | RevitMCP.Shared/DTOs/FamilyMetadataMapper.cs:16-52 | with the intended conversion, transfer object to model and back is the identity when the lists and every parameter's unit and description are present |
| Mapper.AbsentUnitLost | RevitMCP.Shared/DTOs/FamilyMetadataMapper.cs:84 | as written, a null unit comes back from transfer object to model to transfer object as "" |
| Mapper.ParameterToDTONullingUnit | RevitMCP.Shared/DTOs/FamilyMetadataMapper.cs:63-74 | the intended `ToDTO` emits an empty unit as null |
| Mapper.NullingUnitRoundTrip | RevitMCP.Shared/DTOs/FamilyMetadataMapper.cs:63-89 | with the intended `ToDTO`, a parameter transfer object whose unit is not "" and whose description is present comes back unchanged, a null unit included (a unit of "" comes back null, and a null description comes back "") |
| ServerChannel.HandleQuery | RevitMCP.Server/Infrastructure/Communication/ProcessCommunication.cs:47-69 | success with "Pong" exactly when the query text, trimmed and lower-cased, is "ping", otherwise failure with "未知命令"; always message type "Response", the query's request id and no data |
| ServerChannel.PingPadded | RevitMCP.Server/Infrastructure/Communication/ProcessCommunication.cs:49 | "ping" in any letter case with white space around it is answered with "Pong" |
| ServerChannel.AcceptedWithoutFault | RevitMCP.Server/Infrastructure/Communication/ProcessCommunication.cs:28-40 | without an undecodable line, the answered queries are exactly the decoded non-blank, non-null lines, one each, in input order |
| ServerChannel.FaultStopsListening | RevitMCP.Server/Infrastructure/Communication/ProcessCommunication.cs:32 | nothing after the first line whose decoding throws is answered |
| ServerChannel.ServerChannel.Listen | RevitMCP.Server/Infrastructure/Communication/ProcessCommunication.cs:26-42 | the output gains exactly one response line per answered query, in order; the loop ends in a fault exactly when some line cannot be decoded; the input left is a suffix of the input, and after a fault it is what follows the first line that cannot be decoded |
| PluginChannel.ReadReply | RevitMCP.Plugin/Infrastructure/Communication/ProcessCommunication.cs:36-40 | a null or blank reply line yields null; otherwise the decoded response, null for the `null` literal, an exception for an undecodable line |
| PluginChannel.AfterRead | RevitMCP.Plugin/Infrastructure/Communication/ProcessCommunication.cs:36 | one read consumes exactly the first pending line |
| PluginChannel.ClientChannel.SendQuery | RevitMCP.Plugin/Infrastructure/Communication/ProcessCommunication.cs:30-41 | writes exactly the serialised query as one line, consumes exactly one line, and returns its interpretation; the query's request id plays no part |
| PluginChannel.Exchange | RevitMCP.IntegrationTests/ProcessCommunicationIntegrationTests.cs:45-55 | one query line through the server loop yields one reply line, which the plugin reads back as the server's response, echoing the request id |
| PluginChannel.PingAnswered | RevitMCP.Server/Infrastructure/Communication/ProcessCommunication.cs:49 | the query text "Ping" is answered with success and "Pong" |
| PluginChannel.PingPong | RevitMCP.IntegrationTests/ProcessCommunicationIntegrationTests.cs:45-55 | a "Ping" query gets back success with "Pong" and its own request id |
| ToolHandler.ConvertParameterValue | RevitMCP.Server/Infrastructure/MCP/MCPToolHandler.cs:117-141 | a number that fits Int32 becomes an int, any other number a double, a string stays a string, true/false a bool, every other kind raw JSON text |
| ToolHandler.ConvertParameterValueRoundTrip | RevitMCP.Server/Infrastructure/MCP/MCPToolHandler.cs:117-141 | the converted value stands for exactly the JSON value it came from; for a non-Int32 number this holds only because the double rounding of `GetDouble` is not modelled |
| ToolHandler.GetProperty | RevitMCP.Server/Infrastructure/MCP/MCPToolHandler.cs:83 | on an object, the value of a member with that name, and `KeyNotFoundException` exactly when there is none; on any other kind `InvalidOperationException` |
| ToolHandler.GetInt32 | RevitMCP.Server/Infrastructure/MCP/MCPToolHandler.cs:83 | succeeds exactly on an integer literal in the Int32 range; another number is a `FormatException`, another kind an `InvalidOperationException` |
| ToolHandler.GetString | RevitMCP.Server/Infrastructure/MCP/MCPToolHandler.cs:98 | a string's text, null exactly for JSON null, `InvalidOperationException` for any other kind |
| ToolHandler.HandleGetElement | RevitMCP.Server/Infrastructure/MCP/MCPToolHandler.cs:79-87 | null parameters throw `NullReferenceException`; the command is called exactly when `elementId` is present and an Int32, and then the answer is the command's, with that id |
| ToolHandler.HandleGetElementsByCategory | RevitMCP.Server/Infrastructure/MCP/MCPToolHandler.cs:94-102 | null parameters throw `NullReferenceException`; the query is called exactly when `category` is present and is a string or null, and it receives that value |
| ToolHandler.HandleModifyElementParameter | RevitMCP.Server/Infrastructure/MCP/MCPToolHandler.cs:109-145 | null parameters throw `NullReferenceException`; the service is called exactly when `elementId` is an Int32, `parameterName` a string or null and `parameterValue` present, and it receives the id, the name and the kind-converted value |
| ToolHandler.ModifyElementParameterReadsInOrder | RevitMCP.Server/Infrastructure/MCP/MCPToolHandler.cs:113-115 | the members are read in the order `elementId`, `parameterName`, `parameterValue`, and the first failing read is the exception reported |
| ToolHandler.Expected | RevitMCP.Server/Infrastructure/MCP/MCPToolHandler.cs:36-72 | exactly one of result and error is set; 404 exactly for a method other than the three, naming it; the handler's value as result exactly when it returns; a 500 with the exception's message when it throws or the request is null |
| ToolHandler.UnknownMethodIs404 | RevitMCP.Server/Infrastructure/MCP/MCPToolHandler.cs:53-58 | a name differing from the three routes, even only in letter case, gets the 404 naming it |
| ToolHandler.GetElementNeedsInt32Id | RevitMCP.Server/Infrastructure/MCP/MCPToolHandler.cs:79-87 | `getElement` without an Int32 `elementId` ends in a 500 |
| ToolHandler.MCPToolHandler.HandleRequest | RevitMCP.Server/Infrastructure/MCP/MCPToolHandler.cs:36-72 | always returns a fresh response whose result and error are those `Expected` describes; no exception escapes |
| TestClient.SendQuery | RevitMCP.IntegrationTests/MCPTestClient.cs:13-72 | success with "模拟成功" and no error code exactly for the five known query types; data only for the three reading ones, and none for modify and add; elements are walls; anything else is "未知命令" with "NOT_IMPLEMENTED" |
| TestClient.AnswerDependsOnlyOnType | RevitMCP.IntegrationTests/MCPTestClient.cs:13-72 | the answer depends on the query type alone, and on the clock only for `GetFamilyById` |
| ServerManager.MCPServerManager.constructor | RevitMCP.Plugin/Infrastructure/Communication/MCPServerManager.cs:50-53 | a new manager records process id 0 |
| ServerManager.MCPServerManager.IsServerRunning | RevitMCP.Plugin/Infrastructure/Communication/MCPServerManager.cs:26-45 | false for an id of 0 or less; otherwise true exactly when a process with that id is running (a missing process, whose lookup throws, gives false) |
| ServerManager.FreshManagerNotRunning | RevitMCP.Plugin/Infrastructure/Communication/MCPServerManager.cs:26-33 | with id 0, no server is running, whatever the system runs |
| ServerManager.Singleton.Instance | RevitMCP.Plugin/Infrastructure/Communication/MCPServerManager.cs:11-16 | the first use creates a manager with id 0; every later use returns that same object |
| StartCommand.ServerPath | RevitMCP.Plugin/Application/Commands/StartMCPCommand.cs:27 | `Path.Combine(directory, "RevitMCP.Server.dll")`: the directory, a separator unless it already ends in one, then the file name |
| StartCommand.ServerPathInDirectory | RevitMCP.Plugin/Application/Commands/StartMCPCommand.cs:27 | the combined path's directory part is the assembly's directory |
| StartCommand.ServerArgumentsCarryPath | RevitMCP.Plugin/Application/Commands/StartMCPCommand.cs:40 | the quoted server path comes back whole as the first token of the arguments, followed by " --mode revit" |
| StartCommand.Execute | RevitMCP.Plugin/Application/Commands/StartMCPCommand.cs:18-69 | a missing DLL fails with a message naming the path and launches nothing; a launch that throws fails with its message; on success the server is launched once through `dotnet` with all streams redirected, its id is recorded and running; the id changes only on success; a server already running is left running and forgotten |
| StopCommand.Execute | RevitMCP.Plugin/Application/Commands/StopMCPCommand.cs:16-59 | with no positive id it succeeds and changes nothing; a recorded process that no longer runs is cleared; a running one is killed and cleared; a kill that throws fails with its message and keeps the id; every success leaves no server recorded or running |

## Left out

- Tasks and `async`: every operation is modelled as completing in one step.
- JSON serialisation (RFC 8259, through `System.Text.Json`) is an abstract codec. Its round trip is assumed only where the end-to-end exchange needs it (`PluginChannel.CarriesExchange`).
- Case-insensitive comparison (`OrdinalIgnoreCase`, `ToLower`) folds ASCII letters only. Culture-specific case mapping is not modelled.
- `DateTime` values are opaque timestamps. The clock (`DateTime.Now`) is a parameter.
- A parameter's `DefaultValue` is an int, a string, a bool or some other object given by its `ToString()` text. Floating-point rendering is not modelled.
- ToolHandler.ConvertParameterValue: a non-Int32 number is carried as its JSON number, not as the `double` that `GetDouble` returns, because floating point is not modelled. Nor is `GetDouble`'s `FormatException` for a number beyond the double range, such as `1e400`, which the handler turns into a 500. The model passes such a number to the service as a `DoubleArg`.
- The tool service's canned answers (`MCPToolService`, `GetElementCommand`, `GetElementsByCategoryQuery`) are function parameters. So are the runtime's exception message texts.
- The MCP request and response types are not part of this model. The request is a method name and a parameter object, either possibly null.
- Concurrency: the concurrent import test's four tasks on a `Dictionary` are modelled only by their sequential meaning (`Store.SaveAllDistinct`).
- Null is modelled where the code handles it: the mock repository's keyword and saved family, the mock search service's query, tags and every criterion, the simple search service's tags, the tool handler's request, method name and parameters.
- Other null inputs are not modelled, because they are plain strings and values in the model. In the code they throw `ArgumentNullException` or `NullReferenceException`, some only lazily. They are:
  - null ids passed to `GetFamilyByIdAsync` and `DeleteFamilyAsync`;
  - a null keyword passed to the in-memory `SearchFamiliesAsync`;
  - a null `metadata` passed to the in-memory and secure `SaveOrUpdateFamilyAsync`, where the secure one refuses a read-only caller first with `UnauthorizedAccessException`;
  - null names and categories inside stored families;
  - null arguments to the mapper;
  - a null `Id` inside a family passed to a save, where `_store[metadata.Id] = metadata` throws `ArgumentNullException`;
  - a null query passed to the test client's `SendQueryAsync`, which throws when it reads `query.QueryType`.
- Stored families are values. In the code the repositories store references to mutable `FamilyMetadata` objects that callers still hold, so a caller can change a stored family without saving it. This is the only way the start state of the third finding below can arise.
- Repository searches and `GetAllFamiliesAsync` return lazy views of `_store.Values` that see later changes. The model returns the sequence at the time of the call.
- FamilyLibrary.SecureFamilyRepository: the base repository `inner` is a public constant, so Dafny code can save through it without the role check. C# forbids that: `_store` is private and the save is virtual. `Valid` holds for the states the class's own methods reach.
- ServerChannel.ServerChannel.Listen: at end of input the real loop reads null forever; the model returns `InputExhausted` there instead of not terminating. A failing `WriteLineAsync` or `FlushAsync`, which ends the real loop with an exception, is not modelled: the model's output never fails.
- StartCommand.Execute: the assembly's directory is a parameter. `Path.GetDirectoryName` and a null directory are not modelled.
- Failures of `TaskDialog.Show`, and exceptions from `GetProcessById` other than the missing-process `ArgumentException`, are not modelled. Neither is a process that exits between lookup and kill, other than as a failed kill.
- Process ids are never reused in the model. The real system may reuse an id after its process exits.
- The Revit API wrappers, the ribbon UI, the placeholder MCP server loop, the schema exporter, the demo and the program entry points are outside this core.

## Findings

| source | as written | input that shows it | evidently intended | confidence | as-written member | corrected member |
|---|---|---|---|---|---|---|
| RevitMCP.Shared/DTOs/FamilyMetadataMapper.cs:47-49 | `ToModel` turns an absent description, preview path or creator into "" | a family with a null preview path, taken to a transfer object and back (the assertion at RevitMCP.Tests/DTOs/FamilyMetadataMapperTests.cs:38) | absent description, preview path and creator stay absent, so both round trips keep every field the tests compare (`ToModelKeepingAbsence`) | not executed | Mapper.AbsentValueLost | Mapper.KeepingAbsenceModelRoundTrip |
| RevitMCP.Shared/DTOs/FamilyMetadataMapper.cs:69 | `ParameterMapper.ToDTO` emits the model's unit "" as "" | a parameter transfer object with a null unit, taken to a model and back (RevitMCP.Tests/DTOs/ParameterMapperTests.cs:71 expects null, while :63 expects the model's unit to be "") | an empty unit is emitted as null (`ParameterToDTONullingUnit`) | not executed | Mapper.AbsentUnitLost | Mapper.NullingUnitRoundTrip |
| RevitMCP.IntegrationTests/FamilyLibraryIntegrationTests.cs:489 | a user's save checks only the incoming family's creator | user "userA" saving "SEC002" with creator "userA" while the store holds "SEC002" as created by "userB". Through the class itself that store is unreachable: the cast-save at :520 dispatches to the override and already throws there. It arises only when a stored `FamilyMetadata` is changed through a shared reference | a user may not replace a stored family owned by someone else (`OwnedSaveCheck`) | not executed | FamilyLibrary.UserOverwritesOthers | FamilyLibrary.OwnedSaveProtectsOthers |
| RevitMCP.IntegrationTests/FamilyLibraryIntegrationTests.cs:36 | the criteria search tests only the name keyword | a family "门" of category "建筑" with criteria keyword "门" and category "结构" (the test at :178-181 expects category, tags and parameter name to filter) | every criterion that is set must hold | not executed | FamilyLibrary.CriteriaIgnoredExample | FamilyLibrary.SimpleFamilySearchService.SearchByAllCriteria |
