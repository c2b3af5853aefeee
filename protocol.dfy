/**
 * Version 2 of the Roulette protocol: the command keywords, the status
 * values, the fixed texts and the responses a server sends, and the
 * classification of an input line into a command.
 */
module Protocol {
  import opened Ascii
  import opened Data

  const CMD_RANDOM: string := "RANDOM"
  const CMD_HELP: string := "HELP"
  const CMD_INFO: string := "INFO"
  const CMD_LOAD: string := "LOAD"
  const CMD_LIST: string := "LIST"
  const CMD_BYE: string := "BYE"
  const CMD_CLEAR: string := "CLEAR"

  /** The keywords HELP lists. */
  const SUPPORTED_COMMANDS: seq<string> :=
    [CMD_RANDOM, CMD_HELP, CMD_INFO, CMD_LOAD, CMD_LIST, CMD_BYE, CMD_CLEAR]

  const VERSION: string := "2.0"

  /** The error text a RANDOM response carries when the store is empty. */
  const NO_STUDENT_ERROR: string := "There is no student, you cannot pick a random one"

  datatype Status = Success | Failure

  /**
   * One line written to the client. Greeting, HelpText, LoadStart, ClearDone
   * and Unknown are plain text lines; the others are the JSON records
   * RandomCommandResponse, InfoCommandResponse, LoadCommandResponse,
   * StudentsList and ByeCommandResponse.
   */
  datatype Response =
    | Greeting
    | RandomOk(fullname: string)
    | RandomErr(error: string)
    | HelpText(commands: seq<string>)
    | Info(protocolVersion: string, numberOfStudents: nat)
    | LoadStart
    | Load(status: Status, numberOfNewStudents: int)
    | List(students: seq<Student>)
    | Bye(status: Status, numberOfCommands: nat)
    | ClearDone
    | Unknown

  /** The arms of the handler's switch. */
  datatype Command =
    CmdRandom | CmdHelp | CmdInfo | CmdLoad | CmdList | CmdBye | CmdClear | CmdUnknown

  /** The switch on the upper-cased line. */
  function Classify(line: string): Command
  {
    var u := ToUpper(line);
    if u == CMD_RANDOM then CmdRandom
    else if u == CMD_HELP then CmdHelp
    else if u == CMD_INFO then CmdInfo
    else if u == CMD_LOAD then CmdLoad
    else if u == CMD_LIST then CmdList
    else if u == CMD_BYE then CmdBye
    else if u == CMD_CLEAR then CmdClear
    else CmdUnknown
  }

  /**
   * The switch is a whole-line match of the upper-cased line against each
   * keyword, and its default arm takes exactly the lines that match none.
   */
  lemma ClassifyMatchesWholeLine(line: string)
    ensures Classify(line) == CmdRandom <==> ToUpper(line) == CMD_RANDOM
    ensures Classify(line) == CmdHelp <==> ToUpper(line) == CMD_HELP
    ensures Classify(line) == CmdInfo <==> ToUpper(line) == CMD_INFO
    ensures Classify(line) == CmdLoad <==> ToUpper(line) == CMD_LOAD
    ensures Classify(line) == CmdList <==> ToUpper(line) == CMD_LIST
    ensures Classify(line) == CmdBye <==> ToUpper(line) == CMD_BYE
    ensures Classify(line) == CmdClear <==> ToUpper(line) == CMD_CLEAR
    ensures Classify(line) == CmdUnknown <==> ToUpper(line) !in SUPPORTED_COMMANDS
  {
  }

  /** Matching ignores case but is on the whole line: no prefix, no padding. */
  lemma ClassifyExamples()
    ensures Classify("random") == CmdRandom
    ensures Classify("Bye") == CmdBye
    ensures Classify("RANDOM ") == CmdUnknown
    ensures Classify("LIS") == CmdUnknown
    ensures Classify("") == CmdUnknown
    ensures Classify("FOO") == CmdUnknown
  {
    assert ToUpper("random") == "RANDOM";
    assert ToUpper("Bye") == "BYE";
  }
}
