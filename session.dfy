/**
 * The reference semantics of one client session of RouletteV2ClientHandler,
 * as pure functions over a configuration of the session.
 *
 * What the store does on its own account (which student a RANDOM picks,
 * how many lines an import reads, which students it appends, whether it
 * throws) is not computed here: it is an Effect, recorded once per loop
 * iteration, and Allowed says which effects the store's contract admits.
 * Given the effects, Next computes the session's next configuration.
 */
module Session {
  import opened Data
  import opened Protocol

  /**
   * A session configuration: the input position, the local variables
   * nbCommands and done, the store's students and everything written so far.
   */
  datatype Conf = Conf(
    cursor: nat,
    nbCommands: nat,
    done: bool,
    students: seq<Student>,
    output: seq<Response>)

  /** What the store did during one loop iteration. */
  datatype Effect =
    | NoCall
    | PickedStudent(student: Student)
    | ImportedData(consumed: nat, added: seq<Student>, ok: bool)

  /** Before the loop: the greeting is written; nbCommands is 0 and done is false. */
  function Start(cursor: nat, students: seq<Student>): Conf
  {
    Conf(cursor, 0, false, students, [Greeting])
  }

  /** The loop condition: not done, and a line is left to read. */
  predicate Active(input: seq<string>, c: Conf)
  {
    !c.done && c.cursor < |input|
  }

  /** The command in the next line (only meaningful while Active). */
  function NextCommand(input: seq<string>, c: Conf): Command
    requires c.cursor < |input|
  {
    Classify(input[c.cursor])
  }

  /**
   * The effects the store's contract admits for the next iteration: a RANDOM
   * on a non-empty store picks a student of the store; a LOAD imports from the
   * lines after the LOAD line; every other command makes no such call.
   */
  predicate Allowed(input: seq<string>, c: Conf, e: Effect)
  {
    Active(input, c) &&
    match NextCommand(input, c)
    case CmdRandom =>
      if c.students == [] then e == NoCall else e.PickedStudent? && e.student in c.students
    case CmdLoad => e.ImportedData? && c.cursor + 1 + e.consumed <= |input|
    case _ => e == NoCall
  }

  /** One loop iteration: read a line, count it, dispatch it. */
  function Next(input: seq<string>, c: Conf, e: Effect): Conf
    requires Allowed(input, c, e)
  {
    var n := c.nbCommands + 1;
    var cur := c.cursor + 1;
    match NextCommand(input, c)
    case CmdRandom =>
      var r := if c.students == [] then RandomErr(NO_STUDENT_ERROR) else RandomOk(e.student.fullname);
      Conf(cur, n, false, c.students, c.output + [r])
    case CmdHelp =>
      Conf(cur, n, false, c.students, c.output + [HelpText(SUPPORTED_COMMANDS)])
    case CmdInfo =>
      Conf(cur, n, false, c.students, c.output + [Info(VERSION, |c.students|)])
    case CmdLoad =>
      var after := c.students + e.added;
      var status := if e.ok then Success else Failure;
      Conf(cur + e.consumed, n, false, after,
           c.output + [LoadStart, Load(status, |after| - |c.students|)])
    case CmdList =>
      Conf(cur, n, false, c.students, c.output + [List(c.students)])
    case CmdBye =>
      Conf(cur, n, true, c.students, c.output + [Bye(Success, n)])
    case CmdClear =>
      Conf(cur, n, false, [], c.output + [ClearDone])
    case CmdUnknown =>
      Conf(cur, n, false, c.students, c.output + [Unknown])
  }

  /** A sequence of effects the store may produce, one per iteration, starting at `c0`. */
  predicate Admissible(input: seq<string>, c0: Conf, es: seq<Effect>)
    decreases |es|, 0
  {
    es == [] ||
    (Admissible(input, c0, es[..|es| - 1]) &&
     Allowed(input, Run(input, c0, es[..|es| - 1]), es[|es| - 1]))
  }

  /** The configuration after one iteration per effect. */
  function Run(input: seq<string>, c0: Conf, es: seq<Effect>): Conf
    requires Admissible(input, c0, es)
    decreases |es|, 1
  {
    if es == [] then c0 else Next(input, Run(input, c0, es[..|es| - 1]), es[|es| - 1])
  }

  /** One more iteration extends an admissible run by one step of Next. */
  lemma RunSnoc(input: seq<string>, c0: Conf, es: seq<Effect>, e: Effect)
    requires Admissible(input, c0, es) && Allowed(input, Run(input, c0, es), e)
    ensures Admissible(input, c0, es + [e])
    ensures Run(input, c0, es + [e]) == Next(input, Run(input, c0, es), e)
  {
    assert (es + [e])[..|es|] == es;
  }

  /** The number of LOAD iterations among the effects. */
  function Loads(es: seq<Effect>): nat
  {
    if es == [] then 0
    else Loads(es[..|es| - 1]) + (if es[|es| - 1].ImportedData? then 1 else 0)
  }

  /** The number of lines the store's imports read. */
  function ImportedLines(es: seq<Effect>): nat
  {
    if es == [] then 0
    else
      var last := es[|es| - 1];
      ImportedLines(es[..|es| - 1]) + (if last.ImportedData? then last.consumed else 0)
  }
}
