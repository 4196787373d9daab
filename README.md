# LoRGameDataStorage session tracker, in Dafny

`LoRGameDataStorage.js` watches a running Legends of Runeterra client through its
local HTTP API (`127.0.0.1:21337`) and records each match to disk. The script polls
the client in three self-rescheduling functions. `trackGameState` waits for a game
in progress. `trackGame` waits for an active deck, then opens a session folder
`Tracked Data/<Y-M-D-H-M-S>` and stores the deck in it. `storeData` samples the
board while the game lasts and stores the game result when it ends. A board sample
is written to `Card Positions/<H-M-S>` only when its serialised form differs from
the module-level `previousCardPositions`.

This project models that state machine. Time and every HTTP answer are inputs.
The file system is a map from path to content plus the set of folders created.

- `values.dfy` (module `Values`): what one poll reads (`Observation`) and the two
  tests applied to it, `IsInProgress` (the `GameState` test) and `IsValidDeck`
  (the active-deck test).
- `naming.dfy` (module `Naming`): `getTime`, the session folder name, artifact paths.
  It also proves that these names never collide unless the source says they
  should.
- `session.dfy` (module `Session`): the state machine as functions. There is one
  function per polling function (`IdlePoll`, `DeckPoll`, `MatchPoll`). `Poll`
  dispatches on the phase and `Run` chains polls together. Each poll returns the
  new state and the file-system operations it performed.
- `properties.dfy` (module `SessionProperties`): what those functions guarantee,
  poll by poll and over whole runs. This covers duplicate suppression, session
  isolation and the end-to-end scenarios.
- `tracker.dfy` (module `Tracker`): class `SessionTracker`. Its fields are the
  script's globals (`directory`, `previousCardPositions`), the phase and the disk.
  It has one method per source function (`TrackGameState`, `TrackGame`,
  `StoreData`, `GenerateUniqueFolder`, `StoreDeck`, `CreateFileAndWrite`,
  `CreateDirectory`). Each method is proved to change the object exactly as the
  matching `Session` function says. `Track` is the polling loop, proved equal to
  `Run`.

One step of the model is one call of `trackGameState`, `trackGame` or `storeData`.
The busy-wait between calls is not modelled.

## Behaviour worth knowing

The model assumes Node 15 or later, where an unhandled promise rejection ends
the process.

- A failed fetch is not treated as "not in progress". `getLoRData` returns
  `undefined`, and `isPlayerInGame` (or `trackGame`, for the deck) then reads a
  field of `undefined`. The promise rejects and no further poll is scheduled.
  The model calls this phase `Halted`: nothing is written and nothing happens
  afterwards (`FailedPollHalts`, `HaltedIsFinal`).
- Once the match has ended, a failed `game-result` fetch passes `undefined` to
  `fs.writeFile`, which throws inside the promise callback. The rejection is
  unhandled and ends the process, so the model halts with no write.
- While awaiting a deck, `trackGame` polls only the deck. It never re-checks
  whether the game is still in progress.
- `previousCardPositions` is set to `"None"` once, at start-up. It is never reset
  when a new session opens, so the first sample of a session is suppressed when it
  equals the last sample of the previous session
  (`NewSessionSuppressesCarriedSample`).
- `directory` keeps the last session folder after a match ends.
- Only consecutive repeats are suppressed. A payload that comes back after a
  different one is written again.
- Time fields are not zero-padded (`9-5-3`). The `Card Positions` folder is created
  again on every in-progress match poll, not once when the session opens.
- `mkdirSync` with `recursive` also creates missing parent folders
  (`Tracked Data`). The model's set of folders records only the paths the script
  asks for.

## Model

| member | source | states |
|---|---|---|
| Naming.NatToString | LoRGameDataStorage.js:144 | a number rendered into `getTime` is a non-empty string of decimal digits with no leading zero, one digit exactly for values below ten |
| Naming.ParseNatToString | LoRGameDataStorage.js:143-145 | the rendering loses nothing: reading the digits back gives the number |
| Naming.NatToStringInjective | LoRGameDataStorage.js:144 | two numbers render alike exactly when they are equal |
| Naming.GetTimeInjective | LoRGameDataStorage.js:143-145 | two `getTime` strings are equal exactly when hours, minutes and seconds agree, despite the missing padding |
| Naming.GetTimeUnpadded | LoRGameDataStorage.js:135-145 | 9:05:03 gives `9-5-3`, and 7 January 2021 (month 0) gives the folder `Tracked Data/2021-1-7-9-5-3` |
| Naming.SessionFolderInjective | LoRGameDataStorage.js:135-141 | two sessions get the same folder exactly when they start in the same second (year, month, day, hour, minute, second) |
| Naming.SessionFolderShape | LoRGameDataStorage.js:139 | every session folder is `Tracked Data/` followed by one segment without `/` |
| Naming.SessionArtifactsDisjoint | LoRGameDataStorage.js:129-133 | a file path under one session folder never equals a path under another |
| Naming.ArtifactPathInjective | LoRGameDataStorage.js:130 | under one folder, `directory + '/' + name` is equal for two names exactly when the names are equal |
| Naming.ArtifactNamesDistinct | LoRGameDataStorage.js:66 | sample names start with `Card Positions/`; `deck` and `Game Result` do not, and differ from each other |
| Values.IsInProgress | LoRGameDataStorage.js:87 | the `GameState` test; its behaviour in the idle and match polls is stated by `IdlePollClassifies` and `SampleWrittenIffChanged`/`MatchEndsWithResult` |
| Values.IsValidDeck | LoRGameDataStorage.js:25 | the active-deck test; `SessionOpensIffActiveDeck` and `InvalidDeckForever` state what it decides |
| Naming.GetTime | LoRGameDataStorage.js:143-145 | a time stamp is digits and dashes, starting and ending with a digit; `GetTimeInjective` states that it identifies the time of day |
| Naming.SessionFolder | LoRGameDataStorage.js:135-141 | the folder `generateUniqueFolder` picks, `Tracked Data/` followed by `DateStamp` (year, one-based month, day, then `getTime`); `SessionFolderInjective` and `SessionFolderShape` state its properties |
| Naming.ArtifactPath | LoRGameDataStorage.js:130 | the path `createFileAndWrite` writes to; `ArtifactPathInjective` and `SessionArtifactsDisjoint` state its properties |
| Naming.SampleName | LoRGameDataStorage.js:66 | the name `'Card Positions/' + getTime(today)` a board sample is stored under; `ArtifactNamesDistinct` and `GetTimeInjective` state its properties |
| Session.Perform | LoRGameDataStorage.js:129-149 | one file-system operation: `writeFile` replaces a file's content, `mkdirSync` adds a folder; `RewriteReplaces` and `PerformAllElsewhere` state its properties |
| Session.IdlePoll | LoRGameDataStorage.js:11-20 | an idle poll writes nothing and changes only the phase: halted on a failed fetch, the deck check when `GameState` is `"InProgress"`, unchanged otherwise (see also `IdlePollClassifies`) |
| Session.DeckPoll | LoRGameDataStorage.js:22-44 | an active deck sets `directory` to the clock's folder, moves to the match and writes the deck there; an inactive deck changes nothing; `previousCardPositions` is kept (see `SessionOpensIffActiveDeck`, `InvalidDeckForever`) |
| Session.MatchPoll | LoRGameDataStorage.js:55-81 | `directory` is kept; in progress the phase is kept and a defined sample becomes `previousCardPositions`; otherwise the tracker is idle with `Game Result` written, or halted (see `SampleWrittenIffChanged`, `MatchEndsWithResult`) |
| Session.PerformAll | LoRGameDataStorage.js:129-149 | file operations leave phase, `directory` and `previousCardPositions` alone, never remove a folder, and every folder they create exists afterwards |
| Session.Poll | LoRGameDataStorage.js:11-81 | every poll keeps the invariant: in a match there is a session folder, and a chosen folder is well formed and exists |
| Session.Run | LoRGameDataStorage.js:8-81 | the invariant holds after any sequence of polls from a state satisfying it |
| SessionProperties.RewriteReplaces | LoRGameDataStorage.js:129-133 | a second write to a path replaces the first; writing the same content twice leaves one file equal to it |
| SessionProperties.PerformAllElsewhere | LoRGameDataStorage.js:129-133 | writes to other paths leave a file's presence and content as they were |
| SessionProperties.IdlePollClassifies | LoRGameDataStorage.js:11-19 | an idle poll writes nothing and changes only the phase: to the deck check exactly when `GameState` is `"InProgress"`, staying idle otherwise, halting on a failed fetch |
| SessionProperties.SessionOpensIffActiveDeck | LoRGameDataStorage.js:22-44 | a session opens exactly when `DeckCode` is present and `CardsInDeck` does not serialise to `"{}"`; opening sets `directory` to the clock's folder, creates it and writes only `deck`, leaving `previousCardPositions`; otherwise nothing changes |
| SessionProperties.FailedPollHalts | LoRGameDataStorage.js:83-87 | a failed board poll (idle or in a match) or deck fetch ends the polling chain and writes nothing |
| SessionProperties.HaltedIsFinal | LoRGameDataStorage.js:12-19 | after the chain has ended, no later poll changes anything |
| SessionProperties.InvalidDeckForever | LoRGameDataStorage.js:38-42 | any number of polls with an inactive deck open no session, write nothing and keep awaiting a deck |
| SessionProperties.SampleWrittenIffChanged | LoRGameDataStorage.js:55-69 | in a match poll, a sample is written exactly when it is defined and differs from `previousCardPositions`; it goes to `Card Positions/<getTime>` and becomes `previousCardPositions`; otherwise no file changes and `previousCardPositions` stays the same |
| SessionProperties.SampleKeepsDeckAndResult | LoRGameDataStorage.js:66 | a board sample never replaces the session's `deck` or `Game Result` |
| SessionProperties.MatchEndsWithResult | LoRGameDataStorage.js:73-79 | when the game is no longer in progress, exactly one file, `Game Result` under the current folder, is written and the tracker is idle again; a failed result fetch writes nothing and halts |
| SessionProperties.PollWritesUnderDirectory | LoRGameDataStorage.js:129-133 | every file a poll writes lies in the folder `directory` holds after the poll |
| SessionProperties.OtherSessionsUntouched | LoRGameDataStorage.js:135-141 | no poll changes a file of any session folder other than the current one |
| SessionProperties.PerformEffectsOnly | LoRGameDataStorage.js:55-81 | a poll changes files and folders only through the operations it reports |
| SessionProperties.DedupNoRepeats | LoRGameDataStorage.js:65-67 | of the stored samples, none equals the one stored before it, and the first differs from the starting value |
| SessionProperties.DedupKeepsValues | LoRGameDataStorage.js:65-67 | every sampled payload is stored or equals the starting value, and nothing is stored that was not sampled |
| SessionProperties.DedupIdempotent | LoRGameDataStorage.js:65-67 | suppressing repeats a second time removes nothing more |
| SessionProperties.MatchRunDedups | LoRGameDataStorage.js:55-72 | over any run of in-progress match polls, the board samples written are exactly the defined samples with repeats of the previous stored one dropped, in order; `previousCardPositions` ends as the last one stored and the folder does not change |
| SessionProperties.DedupLawExample | LoRGameDataStorage.js:65-67 | starting from `"None"`, the samples p1, p1, p2, p2, p2, p3 store p1, p2, p3 |
| SessionProperties.NewSessionSuppressesCarriedSample | LoRGameDataStorage.js:28-34 | opening a session keeps `previousCardPositions`, so a first sample equal to the previous session's last is not written |
| SessionProperties.TransientSampleFailure | LoRGameDataStorage.js:61-68 | a failed sample fetch followed by an unchanged sample writes nothing, keeps the session open and leaves every file and `previousCardPositions` as they were |
| SessionProperties.IdleUntilGame | LoRGameDataStorage.js:11-19 | two polls out of a game and one in a game bring an idle tracker to the deck check, writing nothing |
| SessionProperties.SamplesThenResult | LoRGameDataStorage.js:55-79 | board b1, b1, b2 and then the end of the game write b1 once, b2 once and the result, and leave the tracker idle |
| SessionProperties.SessionFromDeck | LoRGameDataStorage.js:22-81 | from the deck check: an active deck, b1, b1, b2 and the end write exactly the deck, b1, b2 and the result, all in the new session folder, and leave the tracker idle |
| SessionProperties.WholeMatchScenario | LoRGameDataStorage.js:8-81 | idle, idle, game, active deck, b1, b1, b2, end: exactly the deck, b1, b2 and the result are written, in that order, all under the deck poll's folder, and the tracker is idle again |
| Tracker.SessionTracker.constructor | LoRGameDataStorage.js:6-8 | the tracker starts idle, with no folder, `previousCardPositions` = `"None"` and an empty disk |
| Tracker.SessionTracker.CreateDirectory | LoRGameDataStorage.js:147-149 | the folder exists afterwards; nothing else changes |
| Tracker.SessionTracker.CreateFileAndWrite | LoRGameDataStorage.js:129-133 | `directory/name` holds the content afterwards, whatever it held before; nothing else changes |
| Tracker.SessionTracker.GenerateUniqueFolder | LoRGameDataStorage.js:135-141 | `directory` becomes the folder named after the clock, and that folder is created |
| Tracker.SessionTracker.StoreDeck | LoRGameDataStorage.js:46-49 | the serialised deck is written to `deck` in the current folder |
| Tracker.SessionTracker.TrackGameState | LoRGameDataStorage.js:11-20 | the object changes exactly as `IdlePoll` says |
| Tracker.SessionTracker.TrackGame | LoRGameDataStorage.js:22-44 | the object changes exactly as `DeckPoll` says, keeping the invariant |
| Tracker.SessionTracker.StoreData | LoRGameDataStorage.js:55-81 | the object changes exactly as `MatchPoll` says, keeping the invariant |
| Tracker.SessionTracker.Step | LoRGameDataStorage.js:11-81 | one poll in the current phase changes the object exactly as `Poll` says |
| Tracker.SessionTracker.Track | LoRGameDataStorage.js:8-81 | polling a sequence of observations changes the object and performs the operations exactly as `Run` says |

## Left out

- SessionProperties.MatchEndsWithResult: states the behaviour on Node 15 or later, where a failed result fetch halts the tracker. On Node versions before 14, `fs.writeFile` turns `undefined` into the string `"undefined"` and writes a `Game Result` file containing `undefined` under `directory` (lines 76, 130), and `trackGameState` (already called at line 78) keeps polling. On Node 14 the write throws, but the unhandled rejection only prints a warning, so polling also goes on with no file written.
- HTTP: `getLoRData`, `getDeck`, `getCardPositions` and `getGameResult` (lines 51-53, 96-123) are foreign calls. Their answers are inputs of each step, either a value or `Failure`.
- `JSON.stringify` of arbitrary values: the deck, sample and result payloads are taken as already serialised strings. Only `CardsInDeck`'s serialisation is an input of its own, because the deck test compares it with `"{}"`.
- Logging: `log`, `console.log`, `createFileAndAppend` and `logs.txt` (lines 125-127, 159-164), including the conditional log in `getCardPositions`. These are diagnostics only.
- `wait` (lines 151-157) and `new Date()`: there is no timing, and the clock is an input of each step.
- File-system errors: the callbacks that throw when a write or append fails. Every write is assumed to succeed.
- Promise interleaving: in `storeData` neither the sample's `.then` (lines 61-69) nor the game result's `.then` (lines 75-77) is awaited before the next poll; `trackGameState` is called at line 78 while the result fetch is still pending, and the result write reads `directory` only when its callback runs (line 130). Each poll cycle is modelled as one sequential step whose writes happen before the next poll, so `MatchEndsWithResult` and `OtherSessionsUntouched` hold only under that ordering; in the real program a very slow result fetch could land in the next session's folder.
- The two fetches of `positional-rectangles` in one `storeData` call (the phase check and the sample) are separate inputs of one step (`board` and `sample`).
