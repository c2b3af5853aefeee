# Roulette protocol v2: per-connection command interpreter

This project models `RouletteV2ClientHandler.handleClientConnection`. It is the server side of one Roulette v2 connection. It writes a greeting, then reads one command per line and upper-cases it. It dispatches the command against a shared students store and writes one response per command (two for LOAD). It keeps the counter `nbCommands` and the flag `done`, and it stops on BYE or at the end of the input.

The model has these modules:

- `Ascii` (ascii.dfy): ASCII upper-casing, the ASCII part of `toUpperCase`.
- `Protocol` (protocol.dfy):
  - the keyword constants, the status pair `Success`/`Failure`, the version and the fixed texts;
  - the `Response` datatype, one constructor per line the handler writes;
  - `Classify`, which models the `switch` on the upper-cased line.
- `Data` (data.dfy): `Student`, and the store as a class `StudentsStore` with a mutable field `students: seq<Student>`.
  - Each store operation the handler calls is a method with a contract.
  - `PickRandomStudent` picks a student nondeterministically.
  - `ImportData` reads some lines from the shared reader, appends some students, and may report failure (the `IOException`). Its choices are all nondeterministic.
- `Streams` (streams.dfy): the `BufferedReader` as a class `LineReader`, which holds the lines and a read cursor. `ReadLine` returns `None` at the end of input.
- `Output` (writer.dfy): the `PrintWriter` as a class `ResponseWriter`, which holds the append-only sequence of responses sent.
- `Session` (session.dfy): the reference semantics of a session, as pure functions.
  - A configuration `Conf` holds the cursor, `nbCommands`, `done`, the store's students and the output.
  - An `Effect` records what the store chose during one iteration: the student it picked, or, for an import, the lines it read, the students it appended and whether it failed.
  - `Allowed` says which effects the store's contract admits.
  - `Next` is one loop iteration.
  - `Run` is a whole run over a sequence of effects; `Admissible` says the sequence is a possible one.
- `Server` (server.dfy): the handler class.
  - `HandleClientConnection` is the imperative loop, with the cursor, `nbCommands` and `done`.
  - `Dispatch` is the body of the `switch`.
  - The loop is proved to end in exactly the state `Run` computes over the store's actual choices, and to stop exactly when the loop condition fails.
- `SessionProperties` (properties.dfy): what holds of every session, for every input and every behaviour of the store.

The protocol class `RouletteV2Protocol` is not part of this model. Its keywords are taken to be the upper-case words `RANDOM`, `HELP`, `INFO`, `LOAD`, `LIST`, `BYE` and `CLEAR`. HELP is taken to list these seven, `VERSION` is taken to be `"2.0"`, and the load-start and clear-done lines are the constructors `LoadStart` and `ClearDone`. The store implementation, `Student` and the JSON mapper are not part of this model either: only the calls the handler makes are modelled.

## Model

| member | source | states |
|---|---|---|
| `Ascii.ToUpper` | QuizRouletteServer-build/QuizRouletteServer-code/src/main/java/ch/heigvd/res/labs/roulette/net/server/RouletteV2ClientHandler.java:55 | upper-casing keeps the length and maps every character by ASCII upper-casing |
| `Ascii.UpperIdempotent` | QuizRouletteServer-build/QuizRouletteServer-code/src/main/java/ch/heigvd/res/labs/roulette/net/server/RouletteV2ClientHandler.java:55 | upper-casing an upper-cased line changes nothing |
| `Ascii.MatchesIgnoringCase` | QuizRouletteServer-build/QuizRouletteServer-code/src/main/java/ch/heigvd/res/labs/roulette/net/server/RouletteV2ClientHandler.java:55 | a line upper-cases to an upper-case keyword iff it has the keyword's length and each character is the keyword's letter in either case |
| `Protocol.ClassifyMatchesWholeLine` | QuizRouletteServer-build/QuizRouletteServer-code/src/main/java/ch/heigvd/res/labs/roulette/net/server/RouletteV2ClientHandler.java:55 | each arm of the switch is taken iff the upper-cased line equals its keyword; the default arm iff the line is none of the supported keywords |
| `Protocol.ClassifyExamples` | QuizRouletteServer-build/QuizRouletteServer-code/src/main/java/ch/heigvd/res/labs/roulette/net/server/RouletteV2ClientHandler.java:55 | "random" and "Bye" select their arms; "RANDOM ", "LIS", "" and "FOO" fall to the default arm |
| `Data.StudentsStore.GetNumberOfStudents` | QuizRouletteServer-build/QuizRouletteServer-code/src/main/java/ch/heigvd/res/labs/roulette/net/server/RouletteV2ClientHandler.java:72 | the count is the number of students held |
| `Data.StudentsStore.PickRandomStudent` | QuizRouletteServer-build/QuizRouletteServer-code/src/main/java/ch/heigvd/res/labs/roulette/net/server/RouletteV2ClientHandler.java:59-60 | fails (EmptyStoreException) iff the store is empty; otherwise returns a student of the store; changes nothing |
| `Data.StudentsStore.ListStudents` | QuizRouletteServer-build/QuizRouletteServer-code/src/main/java/ch/heigvd/res/labs/roulette/net/server/RouletteV2ClientHandler.java:98 | returns exactly the students held, in order |
| `Data.StudentsStore.Clear` | QuizRouletteServer-build/QuizRouletteServer-code/src/main/java/ch/heigvd/res/labs/roulette/net/server/RouletteV2ClientHandler.java:110 | the store is left empty |
| `Data.StudentsStore.ImportData` | QuizRouletteServer-build/QuizRouletteServer-code/src/main/java/ch/heigvd/res/labs/roulette/net/server/RouletteV2ClientHandler.java:85-90 | reads forward on the shared reader, never past its end; only appends students; success or failure is left open |
| `Streams.LineReader.ReadLine` | QuizRouletteServer-build/QuizRouletteServer-code/src/main/java/ch/heigvd/res/labs/roulette/net/server/RouletteV2ClientHandler.java:52 | returns the next line and advances by one, or returns None at end of input and stays put |
| `Output.ResponseWriter.Println` | QuizRouletteServer-build/QuizRouletteServer-code/src/main/java/ch/heigvd/res/labs/roulette/net/server/RouletteV2ClientHandler.java:45 | appends exactly one response line to what was sent |
| `Session.RunSnoc` | QuizRouletteServer-build/QuizRouletteServer-code/src/main/java/ch/heigvd/res/labs/roulette/net/server/RouletteV2ClientHandler.java:52-121 | an admissible run extended by an allowed effect is admissible and ends one Next step further |
| `Server.RouletteV2ClientHandler.constructor` | QuizRouletteServer-build/QuizRouletteServer-code/src/main/java/ch/heigvd/res/labs/roulette/net/server/RouletteV2ClientHandler.java:36-38 | the handler keeps the store it is given |
| `Server.RouletteV2ClientHandler.HandleClientConnection` | QuizRouletteServer-build/QuizRouletteServer-code/src/main/java/ch/heigvd/res/labs/roulette/net/server/RouletteV2ClientHandler.java:41-123 | the store's choices form an admissible effect sequence; the final cursor, store and output are those of Run over it, starting from the greeting; the loop stopped exactly when done or at end of input |
| `Server.RouletteV2ClientHandler.Dispatch` | QuizRouletteServer-build/QuizRouletteServer-code/src/main/java/ch/heigvd/res/labs/roulette/net/server/RouletteV2ClientHandler.java:55-119 | executing the switch on a read line changes reader, store, done and the output exactly as one Next step with an allowed effect |
| `SessionProperties.PrefixAdmissible` | QuizRouletteServer-build/QuizRouletteServer-code/src/main/java/ch/heigvd/res/labs/roulette/net/server/RouletteV2ClientHandler.java:52 | every prefix of a possible run is a possible run |
| `SessionProperties.RunCounts` | QuizRouletteServer-build/QuizRouletteServer-code/src/main/java/ch/heigvd/res/labs/roulette/net/server/RouletteV2ClientHandler.java:52-54 | nbCommands rises by one per line the loop reads; the cursor also moves by the lines imports read, which are not counted; one response per command plus one per LOAD; output only grows |
| `SessionProperties.GreetingFirst` | QuizRouletteServer-build/QuizRouletteServer-code/src/main/java/ch/heigvd/res/labs/roulette/net/server/RouletteV2ClientHandler.java:45-46 | the greeting is the first response, and before any line is read the only one |
| `SessionProperties.ActiveBeforeEachStep` | QuizRouletteServer-build/QuizRouletteServer-code/src/main/java/ch/heigvd/res/labs/roulette/net/server/RouletteV2ClientHandler.java:52 | every iteration started with done false and a line left, so nothing is read after BYE |
| `SessionProperties.ByeOnlyAtEnd` | QuizRouletteServer-build/QuizRouletteServer-code/src/main/java/ch/heigvd/res/labs/roulette/net/server/RouletteV2ClientHandler.java:103-107 | a Bye response occurs only as the very last response and only when the session is done |
| `SessionProperties.ByeEndsSession` | QuizRouletteServer-build/QuizRouletteServer-code/src/main/java/ch/heigvd/res/labs/roulette/net/server/RouletteV2ClientHandler.java:103-107 | the session is done iff its last loop-read line was BYE, and then the last response is Bye(Success, n) with n the number of loop-read lines including the BYE |
| `SessionProperties.EndOfInputIsSilent` | QuizRouletteServer-build/QuizRouletteServer-code/src/main/java/ch/heigvd/res/labs/roulette/net/server/RouletteV2ClientHandler.java:52 | a session that stopped without BYE stopped at the end of input and wrote no Bye response |
| `SessionProperties.RandomStep` | QuizRouletteServer-build/QuizRouletteServer-code/src/main/java/ch/heigvd/res/labs/roulette/net/server/RouletteV2ClientHandler.java:56-65 | RANDOM writes one response: the error text on an empty store, else the full name of a student in the store; the store is unchanged and the session goes on |
| `SessionProperties.HelpStep` | QuizRouletteServer-build/QuizRouletteServer-code/src/main/java/ch/heigvd/res/labs/roulette/net/server/RouletteV2ClientHandler.java:67-69 | HELP writes the keyword list and changes nothing but nbCommands and the cursor |
| `SessionProperties.InfoStep` | QuizRouletteServer-build/QuizRouletteServer-code/src/main/java/ch/heigvd/res/labs/roulette/net/server/RouletteV2ClientHandler.java:71-75 | INFO reports the version and the store's count at that moment; the store is unchanged |
| `SessionProperties.LoadStep` | QuizRouletteServer-build/QuizRouletteServer-code/src/main/java/ch/heigvd/res/labs/roulette/net/server/RouletteV2ClientHandler.java:77-94 | LOAD writes the start marker, then Load(status, delta) with delta = count after minus count before = the number of students appended (also after a failure); status is Failure iff the import failed; the session goes on; import lines are not counted |
| `SessionProperties.ListStep` | QuizRouletteServer-build/QuizRouletteServer-code/src/main/java/ch/heigvd/res/labs/roulette/net/server/RouletteV2ClientHandler.java:96-101 | LIST returns exactly the store's students in order; the store is unchanged |
| `SessionProperties.ByeStep` | QuizRouletteServer-build/QuizRouletteServer-code/src/main/java/ch/heigvd/res/labs/roulette/net/server/RouletteV2ClientHandler.java:103-107 | BYE sets done and writes Bye(Success, nbCommands) counting this line; nothing else changes |
| `SessionProperties.ClearStep` | QuizRouletteServer-build/QuizRouletteServer-code/src/main/java/ch/heigvd/res/labs/roulette/net/server/RouletteV2ClientHandler.java:109-113 | CLEAR leaves the store empty and writes the clear-done line |
| `SessionProperties.UnknownStep` | QuizRouletteServer-build/QuizRouletteServer-code/src/main/java/ch/heigvd/res/labs/roulette/net/server/RouletteV2ClientHandler.java:115-118 | a line that is no keyword gets the Unknown line and changes nothing but nbCommands and the cursor |
| `SessionProperties.ScenarioLines` | QuizRouletteServer-build/QuizRouletteServer-code/src/main/java/ch/heigvd/res/labs/roulette/net/server/RouletteV2ClientHandler.java:55 | "INFO", "info", "CLEAR" and "BYE" select the INFO, CLEAR and BYE arms |
| `SessionProperties.RunPrefixStep` | QuizRouletteServer-build/QuizRouletteServer-code/src/main/java/ch/heigvd/res/labs/roulette/net/server/RouletteV2ClientHandler.java:52-121 | iteration k of an admissible run had an allowed effect, and the run after it is one Next step from the run before it |
| `SessionProperties.NextIteration` | QuizRouletteServer-build/QuizRouletteServer-code/src/main/java/ch/heigvd/res/labs/roulette/net/server/RouletteV2ClientHandler.java:52 | a run that has stopped took one more iteration from every prefix at which the loop condition still held |
| `SessionProperties.ScenarioInfoClear` | QuizRouletteServer-build/QuizRouletteServer-code/src/main/java/ch/heigvd/res/labs/roulette/net/server/RouletteV2ClientHandler.java:71-113 | for every store behaviour, on four lines starting INFO, CLEAR and three students: the first two iterations make no choice, write count 3 then the clear-done line, and empty the store |
| `SessionProperties.ScenarioSecondInfo` | QuizRouletteServer-build/QuizRouletteServer-code/src/main/java/ch/heigvd/res/labs/roulette/net/server/RouletteV2ClientHandler.java:71-75 | the third line, INFO on the emptied store, makes no choice and reports count 0 |
| `SessionProperties.ScenarioBye` | QuizRouletteServer-build/QuizRouletteServer-code/src/main/java/ch/heigvd/res/labs/roulette/net/server/RouletteV2ClientHandler.java:103-107 | the fourth line, BYE, makes no choice, writes Bye(Success, 4), and the loop reads nothing after it |
| `SessionProperties.ScenarioInfoClearInfoByeLines` | QuizRouletteServer-build/QuizRouletteServer-code/src/main/java/ch/heigvd/res/labs/roulette/net/server/RouletteV2ClientHandler.java:52-121 | for every store behaviour, four lines read as INFO, CLEAR, INFO, BYE on three students give exactly four choiceless iterations and the output count 3, clear-done, count 0, Bye(Success, 4), with the session done |
| `SessionProperties.ScenarioInfoClearInfoBye` | QuizRouletteServer-build/QuizRouletteServer-code/src/main/java/ch/heigvd/res/labs/roulette/net/server/RouletteV2ClientHandler.java:52-121 | the same for the literal lines "INFO", "CLEAR", "INFO", "BYE" |
| `SessionProperties.ScenarioRandomOnEmptyStore` | QuizRouletteServer-build/QuizRouletteServer-code/src/main/java/ch/heigvd/res/labs/roulette/net/server/RouletteV2ClientHandler.java:52-62 | for every store behaviour, the single line "random" on an empty store gives one choiceless iteration: the greeting, then the error response with no name; nbCommands is 1 and the input is exhausted |

## Left out

- Streams: the byte streams and their `BufferedReader`/`PrintWriter` wrapping are left out. The input is a sequence of lines with a cursor, and the output is an append-only sequence of responses.
- Flushing: flushes are left out, because they do not change what is sent.
- Transport errors: an `IOException` from `readLine` is left out; reads always succeed until the end of input. It is the only exception that can leave `handleClientConnection`, since the one from `importData` is caught. Write failures do not end the session in the source either: `PrintWriter` swallows them and only sets its error flag. So `Println` always succeeds, matching the handler's control flow, and what the model does not show is that the bytes of a failed write are lost.
- JSON: `JsonObjectMapper.toJson` is left out. Responses are datatype values, not encoded text.
- Logging: the log line for each command is left out.
- Randomness: `pickRandomStudent` returns an arbitrary student of a non-empty store, chosen nondeterministically. The random distribution is left out.
- Data.StudentsStore.ImportData: its wire format and parser are left out, because the store's code is not part of this model. The contract states only that the import moves the reader forward within the input, only appends students, and may fail. Which lines it reads, which students it makes of them and when it fails are all left open.
- Concurrency: the store is shared by concurrent sessions, but each session sees only its own changes to it. Thread safety is left out, because the handler does no locking.
- Integer width: `nbCommands` and the LOAD delta are Java `int`s, but the model uses unbounded integers. Wrap-around after 2^31 - 1 commands is left out.
- Upper-casing: `toUpperCase` is modelled for ASCII letters only. Unicode and locale-dependent case mapping are left out, with two consequences. Some non-ASCII characters upper-case to keyword letters in Java ('ı' to 'I', 'ſ' to 'S', 'ﬆ' to "ST"), so "lıst" takes the LIST arm in the source but is `CmdUnknown` in the model. And under a Turkish default locale "info" upper-cases to "İNFO" and falls to the default arm in the source, while the model takes INFO.
