# Unreal notifier daemon — Dafny model

UnrealNotifierDeamon is a small Windows daemon. It watches the editor log of an Unreal project and,
when the "editor started" marker appears, sends "Start Editor" to a Telegram chat. This project
models the parts of it that make decisions:

- **Locating the project and its log** (`project_layout.dfy`, module `ProjectLayout`).
  `tryGetProjectName` searches the project directory's listing for the first file whose name
  contains `.uproject` and cuts that name at its first `.uproject`. `getPathToProjectLogFile`
  joins the project path, `\Saved\Logs\`, that name and `.log`.
- **The edge-triggered poll cycle** (`poll_cycle.dfy`, module `PollCycle`, and the `Frame` class in
  `unframe.dfy`). Every 7 seconds the parsing timer checks a gate: a project name must be found
  and a chat-id lookup must succeed. It then reads the log's event mask. It sends "Start Editor"
  only when a mask from an earlier tick exists and the change test holds, and it caches the new
  mask. `PollCycle.Run` follows a whole run of ticks.
- **The Telegram reply check and the chat-id cache** (`tlgrm.dfy`, module `Tlgrm`). The write
  callback clears the global `hackChatId` and then inspects the `getUpdates` reply: `ok`, `result`,
  and each update. `getChatId` returns the global. The code never stores an id, so `getChatId`
  always answers "absent". The class `ChatIdCache` keeps this as its invariant.
  `UnFrame.ParsingLoopWithTelegram` proves the consequence: wired to this module, the poll
  cycle never reads the log and never sends a message.
- **The status checkboxes** (`unframe.dfy`). The window reads a checkbox's state back from the
  image name its widget was created with. It rebuilds the widget only when that state differs
  from the wanted one.

Inputs stand in for the outside world:
- A project directory is given as `isDirectory` plus its listing, in iteration order.
- `readLog(path)` stands for `parseUELog(getFileToReading(path), EParserMask::editorStart)`.
- `justChanged(previous, recent)` stands for `isJustChangedBits(previous, recent, EParserMask::editorStart)`.
- A chat-id lookup is the `optional<int>` that `getChatId` returned.
- A Telegram reply is the JSON value `json::parse` produced, or `None` where it would throw.
- A curl transfer is either "no handle" or the sequence of chunks delivered to the write callback.

The code clears `hackChatId` on every reply and never stores an id. It neither adopts a chat id
from the updates nor keeps an earlier one, and the model does the same.

## Model

| member | source | states |
|---|---|---|
| ProjectLayout.IndexOf | UnrealNotifierDeamon/unFrame.cpp:49-51 | `wstring::find`: finds something exactly when the pattern occurs in the name; the result is an occurrence, and no earlier position holds one |
| ProjectLayout.FirstMatch | UnrealNotifierDeamon/unFrame.cpp:46-54 | the index found is that of an entry containing `.uproject`, and no earlier entry contains it; no index means no entry contains it |
| ProjectLayout.TryGetProjectName | UnrealNotifierDeamon/unFrame.cpp:38-56 | the loop returns `ProjectName`: empty for a non-directory or when no entry contains `.uproject` |
| ProjectLayout.ProjectName | UnrealNotifierDeamon/unFrame.cpp:42-55 | empty for a non-directory; a non-empty name is a prefix of some listed entry that is directly followed there by `.uproject` |
| ProjectLayout.PrefixBeforeFirstOccurrence | UnrealNotifierDeamon/unFrame.cpp:51 | erasing from the first occurrence on leaves a string that no longer contains the pattern |
| ProjectLayout.ProjectNameIsFirstDescriptorStem | UnrealNotifierDeamon/unFrame.cpp:46-53 | the name is the prefix of the first entry containing `.uproject`, ending exactly at that entry's first `.uproject`, and does not contain `.uproject` |
| ProjectLayout.ProjectNameExcludesExt | UnrealNotifierDeamon/unFrame.cpp:42-55 | for every directory query, the project name does not contain `.uproject` |
| ProjectLayout.ValidProjectPathIff | UnrealNotifierDeamon/unFrame.cpp:42-55 | a name is found iff the path is a directory and its first `.uproject`-bearing entry does not start with `.uproject` |
| ProjectLayout.GetPathToProjectLogFile | UnrealNotifierDeamon/unFrame.cpp:65-69 | the log path splits into project path, `\Saved\Logs\`, project name and `.log`; with no name it is `projectPath + "\Saved\Logs\.log"` |
| ProjectLayout.LogPathDeterminesName | UnrealNotifierDeamon/unFrame.cpp:65-69 | under one project path, two log paths are equal iff the project names are |
| ProjectLayoutExamples.BackupDescriptorNamesProject | UnrealNotifierDeamon/unFrame.cpp:49-52 | `.uproject` need not be a suffix: `Game.uproject.bak`, listed first, names the project `Game` |
| ProjectLayoutExamples.BareDescriptorHidesLaterOne | UnrealNotifierDeamon/unFrame.cpp:46-53 | an entry named just `.uproject`, listed first, yields the empty name even when `Game.uproject` follows |
| PollCycle.Tick | UnrealNotifierDeamon/unFrame.cpp:184-212 | a closed gate changes nothing; no send without a cached mask; a send goes to the resolved chat with "Start Editor" and caches the new mask; the cache afterwards is the old one or the new mask |
| PollCycle.RunSendsOnePerChange | UnrealNotifierDeamon/unFrame.cpp:206-211 | a run of open-gate ticks sends one "Start Editor" message to the chat per tick whose change test holds against the previous tick's mask, and nothing else; the first tick after start-up never sends |
| PollCycle.SteadyRunIsSilent | UnrealNotifierDeamon/unFrame.cpp:206-211 | if the change test never fires on an unchanged mask, a mask that stays the same sends nothing over any number of ticks |
| PollCycle.SingleChangeNotifiesOnce | UnrealNotifierDeamon/unFrame.cpp:206-211 | one change followed by n steady ticks sends exactly one message, not one per tick |
| Tlgrm.Lookup | UnrealNotifierDeamon/tlgrm.cpp:18 | a value is found iff some member has the key, and it is the first such member's value |
| Tlgrm.HasKey | UnrealNotifierDeamon/tlgrm.cpp:16-19 | true iff the value is an object and the key is one of its member names |
| Tlgrm.ScanExit | UnrealNotifierDeamon/tlgrm.cpp:53-60 | the update loop returns normally iff every element has a `message` member; otherwise it stops at the first faulting element |
| Tlgrm.RawJsonExit | UnrealNotifierDeamon/tlgrm.cpp:39-60 | a parse error exactly for unparseable text; `type_error.302` exactly when `ok` is present and not a boolean; the faults of the update loop only after `ok` is true and `result` is present |
| Tlgrm.EnvelopeRejectedEarly | UnrealNotifierDeamon/tlgrm.cpp:41-48 | a reply missing `ok`, with `ok` false, or with `ok` true and no `result`, ends in a plain return |
| Tlgrm.WellFormedUpdatesReturn | UnrealNotifierDeamon/tlgrm.cpp:45-60 | with `ok` true and a `result` array, the call returns normally iff each update has `message`; `update_id` and `chat` are never required |
| Tlgrm.ConsumedBytes | UnrealNotifierDeamon/tlgrm.cpp:63-68 | the callback's return value is a `size_t` and equals `size * nmemb` whenever that product fits |
| Tlgrm.ChatIdCache.constructor | UnrealNotifierDeamon/tlgrm.cpp:14 | the cache starts empty |
| Tlgrm.ChatIdCache.UpdateChatIdFromRawJson | UnrealNotifierDeamon/tlgrm.cpp:30-61 | clears the cache and leaves it empty on every path, including exceptions; the exit taken is `RawJsonExit(body)` |
| Tlgrm.ChatIdCache.ReadCallback | UnrealNotifierDeamon/tlgrm.cpp:63-68 | reports the whole chunk consumed whatever its body, and leaves the cache empty |
| Tlgrm.ChatIdCache.GetChatId | UnrealNotifierDeamon/tlgrm.cpp:77-107 | returns absent on every call, whether or not a curl handle was created and whatever the reply; the cache stays empty |
| UnFrame.CheckboxOldValue | UnrealNotifierDeamon/unFrame.cpp:88-99 | reads true iff the name is the "on" image and false iff it is the "off" image; anything else reads as unknown |
| UnFrame.UpdateImageCheckbox | UnrealNotifierDeamon/unFrame.cpp:83-120 | afterwards the widget reads back as the wanted value; it is rebuilt exactly when it did not already read so |
| UnFrame.IsParsingLoopActive | UnrealNotifierDeamon/unFrame.cpp:122-126 | the gate is open iff a chat id was found and the path is a directory whose first `.uproject`-bearing entry does not start with `.uproject` |
| UnFrame.Frame.constructor | UnrealNotifierDeamon/unFrame.cpp:128-161 | no project path, no cached mask, both checkboxes unchecked |
| UnFrame.Frame.UpdateBrowseToImageCheckbox | UnrealNotifierDeamon/unFrame.cpp:168-172 | the project checkbox reads checked iff a project name is found |
| UnFrame.Frame.UpdateTelegrmImageCheckbox | UnrealNotifierDeamon/unFrame.cpp:174-182 | the Telegram checkbox reads checked iff the login is non-empty and its lookup found a chat id |
| UnFrame.Frame.OnBrowseToClicked | UnrealNotifierDeamon/unFrame.cpp:219-236 | a cancelled dialog changes nothing; otherwise the folder is adopted even when invalid, a warning is shown iff no project name is found, and the checkbox follows |
| UnFrame.Frame.ParseDataFromLog | UnrealNotifierDeamon/unFrame.cpp:193-212 | without a chat id: no send and the cache is untouched; with one, "Start Editor" goes to that chat iff a mask was cached and the change test holds, and the new mask is cached either way |
| UnFrame.Frame.ParsingLoop | UnrealNotifierDeamon/unFrame.cpp:184-191 | a closed gate (no project name, or no chat id) is a no-op; the first tick that gets past the gate never sends; the tick equals `PollCycle.Tick` |
| UnFrame.ParsingLoopWithTelegram | UnrealNotifierDeamon/unFrame.cpp:122-126 | wired to `ChatIdCache.GetChatId`, a tick never sends and leaves the whole frame as it was |

## Left out

- Window layout, buttons, text boxes, the timer's wiring, `wxDirDialog`, `showWarningDialog` and bitmap loading are not modelled. They are presentation. A checkbox widget is reduced to the image name it was created with.
- File-system queries (`fs::is_directory`, `directory_iterator`, `fs::exists`, `wifstream`) are inputs. One tick uses a single snapshot of the directory, although the code lists it twice.
- `parseUELog`, `isJustChangedBits`, `EParserMask` and `tlgrm::sendMessage` live in files that are not part of this model. They are parameters, a mask is an unbounded natural number, and a send is the returned `Message`.
- Everything `getChatId` does with curl besides delivering the reply to the write callback is not modelled. `curl_global_init`, options, the request itself and cleanup are foreign calls.
- JSON text parsing is left out: a reply is an already-parsed value, or `None` where `json::parse` throws. Numbers are integers. Floating-point JSON values are not distinguished from other scalars.
- The write callback hands `json::parse` a buffer that is not null-terminated. That is not modelled.
- The brace initialisations at `tlgrm.cpp:39` and `tlgrm.cpp:49` are modelled as plain copies. A compiler may instead pick nlohmann's initializer-list constructor, which wraps the value in a one-element array. That is not modelled. Line 39 decides whether any envelope check is reached at all: wrapped, `jsonObj` has no `ok` key, so every parseable reply takes the return at `tlgrm.cpp:43`, and the `type_error` and missing-key exits never occur.
- A parsed JSON object is a `std::map`: its keys are distinct and it iterates in key order. `Tlgrm.Json` does not enforce either. `Lookup` takes the first member with a key, and `Elements` visits an object's values in the order listed, which agree with nlohmann only for objects listed that way.
- `Tlgrm.ConsumedBytes` assumes a 64-bit `size_t`. A 32-bit Windows build wraps at 2^32 instead.
- An exception thrown in the write callback would unwind through curl's C code. `GetChatId` models this as the transfer stopping and the call returning the cache. A read of a missing key is undefined behaviour, not an exception; the model stops the transfer there too.
- `wxASSERT` checks have no effect on behaviour, as in a release build.
- `UnFrame.ParsingLoopWithTelegram` passes `None` for the lookup made inside `parseDataFromLog`. That lookup is reached only past the gate, which stays closed there.
