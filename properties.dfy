/** What the reference semantics of a session guarantees, for every input and every store behaviour. */
module SessionProperties {
  import opened Ascii
  import opened Data
  import opened Protocol
  import opened Session

  // ----- whole sessions -----

  /** Every prefix of an admissible effect sequence is admissible. */
  lemma {:induction false} PrefixAdmissible(input: seq<string>, c0: Conf, es: seq<Effect>, k: nat)
    requires Admissible(input, c0, es) && k <= |es|
    ensures Admissible(input, c0, es[..k])
    decreases |es|
  {
    if k < |es| {
      assert es[..|es| - 1][..k] == es[..k];
      PrefixAdmissible(input, c0, es[..|es| - 1], k);
    } else {
      assert es[..k] == es;
    }
  }

  /**
   * The bookkeeping of a session: nbCommands counts the lines the loop read,
   * one per iteration; the input position is further advanced only by the
   * lines imports read; every iteration writes one response, LOAD two (the
   * start marker and the record); and output is only ever appended to.
   */
  lemma {:induction false} RunCounts(input: seq<string>, c0: Conf, es: seq<Effect>)
    requires Admissible(input, c0, es)
    requires c0.cursor <= |input|
    ensures Run(input, c0, es).nbCommands == c0.nbCommands + |es|
    ensures Run(input, c0, es).cursor == c0.cursor + |es| + ImportedLines(es)
    ensures Run(input, c0, es).cursor <= |input|
    ensures |Run(input, c0, es).output| == |c0.output| + |es| + Loads(es)
    ensures c0.output <= Run(input, c0, es).output
  {
    if es != [] {
      RunCounts(input, c0, es[..|es| - 1]);
    }
  }

  /**
   * The greeting is the first line written, and before a line is read it is
   * the only one.
   */
  lemma GreetingFirst(input: seq<string>, cursor: nat, students: seq<Student>, es: seq<Effect>)
    requires cursor <= |input|
    requires Admissible(input, Start(cursor, students), es)
    ensures |Run(input, Start(cursor, students), es).output| > 0
    ensures Run(input, Start(cursor, students), es).output[0] == Greeting
    ensures es == [] ==> Run(input, Start(cursor, students), es).output == [Greeting]
  {
    RunCounts(input, Start(cursor, students), es);
  }

  /** The loop condition held before each iteration: after a BYE no further line is read. */
  lemma {:induction false} ActiveBeforeEachStep(input: seq<string>, c0: Conf, es: seq<Effect>, k: nat)
    requires Admissible(input, c0, es) && k < |es|
    ensures Admissible(input, c0, es[..k])
    ensures Active(input, Run(input, c0, es[..k]))
    decreases |es|
  {
    PrefixAdmissible(input, c0, es, k);
    if k < |es| - 1 {
      assert es[..|es| - 1][..k] == es[..k];
      ActiveBeforeEachStep(input, c0, es[..|es| - 1], k);
    }
  }

  /** No Bye in a sequence of responses. */
  predicate NoBye(out: seq<Response>)
  {
    forall i :: 0 <= i < |out| ==> !out[i].Bye?
  }

  /**
   * A Bye response is only ever written as the very last response, and only
   * when the session is done; a session that is not done has written none.
   */
  lemma {:induction false} ByeOnlyAtEnd(input: seq<string>, c0: Conf, es: seq<Effect>)
    requires Admissible(input, c0, es)
    requires !c0.done && NoBye(c0.output)
    ensures forall i :: 0 <= i < |Run(input, c0, es).output| && Run(input, c0, es).output[i].Bye? ==>
      Run(input, c0, es).done && i == |Run(input, c0, es).output| - 1
  {
    if es != [] {
      var init := es[..|es| - 1];
      ByeOnlyAtEnd(input, c0, init);
      var p := Run(input, c0, init);
      assert forall j :: 0 <= j < |p.output| && p.output[j].Bye? ==> p.done && j == |p.output| - 1;
      assert Allowed(input, p, es[|es| - 1]);
      assert NoBye(p.output);
    }
  }

  /**
   * BYE ends the session: the session is done exactly when its last line
   * read was BYE, and then the last response is Bye(Success, n), where n is
   * the number of lines the loop read, this BYE included.
   */
  lemma ByeEndsSession(input: seq<string>, cursor: nat, students: seq<Student>, es: seq<Effect>)
    requires cursor <= |input|
    requires Admissible(input, Start(cursor, students), es) && es != []
    ensures Admissible(input, Start(cursor, students), es[..|es| - 1])
    ensures Active(input, Run(input, Start(cursor, students), es[..|es| - 1]))
    ensures Run(input, Start(cursor, students), es).done <==>
      NextCommand(input, Run(input, Start(cursor, students), es[..|es| - 1])) == CmdBye
    ensures Run(input, Start(cursor, students), es).done ==>
      Run(input, Start(cursor, students), es).output ==
      Run(input, Start(cursor, students), es[..|es| - 1]).output + [Bye(Success, |es|)]
  {
    RunCounts(input, Start(cursor, students), es[..|es| - 1]);
  }

  /**
   * A session that stopped without BYE stopped at the end of the input, and
   * has written no Bye response.
   */
  lemma EndOfInputIsSilent(input: seq<string>, cursor: nat, students: seq<Student>, es: seq<Effect>)
    requires cursor <= |input|
    requires Admissible(input, Start(cursor, students), es)
    requires !Active(input, Run(input, Start(cursor, students), es))
    requires !Run(input, Start(cursor, students), es).done
    ensures Run(input, Start(cursor, students), es).cursor == |input|
    ensures NoBye(Run(input, Start(cursor, students), es).output)
  {
    RunCounts(input, Start(cursor, students), es);
    ByeOnlyAtEnd(input, Start(cursor, students), es);
  }

  // ----- one iteration, per command -----

  /**
   * RANDOM never fails: on an empty store it writes the error and no name;
   * otherwise the full name of a student of the store. The store is unchanged.
   */
  lemma RandomStep(input: seq<string>, c: Conf, e: Effect)
    requires Allowed(input, c, e) && NextCommand(input, c) == CmdRandom
    ensures var d := Next(input, c, e);
      d.students == c.students && !d.done && d.cursor == c.cursor + 1 &&
      d.nbCommands == c.nbCommands + 1 &&
      |d.output| == |c.output| + 1 && d.output[..|c.output|] == c.output &&
      (c.students == [] ==> d.output[|c.output|] == RandomErr(NO_STUDENT_ERROR)) &&
      (c.students != [] ==>
        d.output[|c.output|].RandomOk? &&
        exists s :: s in c.students && s.fullname == d.output[|c.output|].fullname)
  {
    if c.students != [] {
      var d := Next(input, c, e);
      assert e.student in c.students && e.student.fullname == d.output[|c.output|].fullname;
    }
  }

  /** HELP lists the supported keywords and changes nothing but nbCommands and the input position. */
  lemma HelpStep(input: seq<string>, c: Conf, e: Effect)
    requires Allowed(input, c, e) && NextCommand(input, c) == CmdHelp
    ensures e == NoCall
    ensures var d := Next(input, c, e);
      d == c.(cursor := c.cursor + 1, nbCommands := c.nbCommands + 1,
               output := c.output + [HelpText(SUPPORTED_COMMANDS)])
  {
  }

  /**
   * Any other line (an empty one, "FOO", a keyword with extra characters)
   * is answered with the Unknown line and changes nothing but nbCommands and
   * the input position.
   */
  lemma UnknownStep(input: seq<string>, c: Conf, e: Effect)
    requires Allowed(input, c, e) && NextCommand(input, c) == CmdUnknown
    ensures e == NoCall
    ensures ToUpper(input[c.cursor]) !in SUPPORTED_COMMANDS
    ensures var d := Next(input, c, e);
      d == c.(cursor := c.cursor + 1, nbCommands := c.nbCommands + 1,
               output := c.output + [Unknown])
  {
    ClassifyMatchesWholeLine(input[c.cursor]);
  }

  /** INFO reports the protocol version and the store's count at that moment. */
  lemma InfoStep(input: seq<string>, c: Conf, e: Effect)
    requires Allowed(input, c, e) && NextCommand(input, c) == CmdInfo
    ensures var d := Next(input, c, e);
      d == c.(cursor := c.cursor + 1, nbCommands := c.nbCommands + 1,
               output := c.output + [Info(VERSION, |c.students|)])
  {
  }

  /** LIST returns exactly the store's students, in order, and leaves the store as it was. */
  lemma ListStep(input: seq<string>, c: Conf, e: Effect)
    requires Allowed(input, c, e) && NextCommand(input, c) == CmdList
    ensures var d := Next(input, c, e);
      d == c.(cursor := c.cursor + 1, nbCommands := c.nbCommands + 1,
               output := c.output + [List(c.students)])
  {
  }

  /** BYE sets done and reports the number of lines the loop read, this one included. */
  lemma ByeStep(input: seq<string>, c: Conf, e: Effect)
    requires Allowed(input, c, e) && NextCommand(input, c) == CmdBye
    ensures var d := Next(input, c, e);
      d == c.(cursor := c.cursor + 1, nbCommands := c.nbCommands + 1, done := true,
               output := c.output + [Bye(Success, c.nbCommands + 1)])
  {
  }

  /** CLEAR leaves the store empty and confirms it. */
  lemma ClearStep(input: seq<string>, c: Conf, e: Effect)
    requires Allowed(input, c, e) && NextCommand(input, c) == CmdClear
    ensures var d := Next(input, c, e);
      d.students == [] && !d.done && d.output == c.output + [ClearDone] &&
      d.cursor == c.cursor + 1 && d.nbCommands == c.nbCommands + 1
  {
  }

  /**
   * LOAD writes the start marker, then Load(status, delta): delta is the
   * store's count after the import minus its count before, which is the
   * number of students appended (so never negative, and kept after a failed
   * import); status is Failure exactly when the import failed. The session
   * goes on, and the lines the import read are not counted as commands.
   */
  lemma LoadStep(input: seq<string>, c: Conf, e: Effect)
    requires Allowed(input, c, e) && NextCommand(input, c) == CmdLoad
    ensures var d := Next(input, c, e);
      !d.done && c.students <= d.students &&
      d.cursor == c.cursor + 1 + e.consumed && d.nbCommands == c.nbCommands + 1 &&
      |d.output| == |c.output| + 2 && d.output[..|c.output|] == c.output &&
      d.output[|c.output|] == LoadStart &&
      d.output[|c.output| + 1].Load? &&
      d.output[|c.output| + 1].numberOfNewStudents == |d.students| - |c.students| == |e.added| &&
      (d.output[|c.output| + 1].status == Failure <==> !e.ok)
  {
  }

  // ----- two sessions -----

  /** The lines of the scenario below, in any case, are read as INFO, CLEAR and BYE. */
  lemma ScenarioLines()
    ensures Classify("INFO") == CmdInfo && Classify("info") == CmdInfo
    ensures Classify("CLEAR") == CmdClear && Classify("BYE") == CmdBye
  {
    UpperOfNoLower("INFO");
    assert ToUpper("info") == "INFO";
    UpperOfNoLower("CLEAR");
    UpperOfNoLower("BYE");
  }

  /** Iteration k of a run: the effect was allowed there, and Run moved one Next step. */
  lemma RunPrefixStep(input: seq<string>, c0: Conf, es: seq<Effect>, k: nat)
    requires Admissible(input, c0, es) && k < |es|
    ensures Admissible(input, c0, es[..k]) && Admissible(input, c0, es[..k + 1])
    ensures Allowed(input, Run(input, c0, es[..k]), es[k])
    ensures Run(input, c0, es[..k + 1]) == Next(input, Run(input, c0, es[..k]), es[k])
  {
    PrefixAdmissible(input, c0, es, k + 1);
    assert es[..k + 1][..k] == es[..k];
    assert es[..k + 1][k] == es[k];
  }

  /**
   * A run that has stopped went on past every prefix at which the loop
   * condition still held: iteration k took place.
   */
  lemma NextIteration(input: seq<string>, c0: Conf, es: seq<Effect>, k: nat)
    requires Admissible(input, c0, es) && !Active(input, Run(input, c0, es))
    requires k <= |es| && Admissible(input, c0, es[..k]) && Active(input, Run(input, c0, es[..k]))
    ensures k < |es| && Admissible(input, c0, es[..k + 1])
    ensures Allowed(input, Run(input, c0, es[..k]), es[k])
    ensures Run(input, c0, es[..k + 1]) == Next(input, Run(input, c0, es[..k]), es[k])
  {
    assert es[..|es|] == es;
    RunPrefixStep(input, c0, es, if k < |es| then k else 0);
  }

  /** The first half of the scenario below: INFO then CLEAR on three students. */
  lemma ScenarioInfoClear(input: seq<string>, students: seq<Student>, es: seq<Effect>)
    requires |input| == 4 && |students| == 3
    requires Classify(input[0]) == CmdInfo && Classify(input[1]) == CmdClear
    requires Admissible(input, Start(0, students), es)
    requires !Active(input, Run(input, Start(0, students), es))
    ensures 2 <= |es| && es[0] == NoCall && es[1] == NoCall
    ensures Admissible(input, Start(0, students), es[..2])
    ensures Run(input, Start(0, students), es[..2]) ==
      Conf(2, 2, false, [], [Greeting, Info(VERSION, 3), ClearDone])
  {
    var c0 := Start(0, students);
    var c1 := Conf(1, 1, false, students, [Greeting, Info(VERSION, 3)]);
    assert es[..0] == [];
    NextIteration(input, c0, es, 0);
    InfoStep(input, c0, es[0]);
    NextIteration(input, c0, es, 1);
    ClearStep(input, c1, es[1]);
  }

  /** The third line: INFO on the emptied store. */
  lemma ScenarioSecondInfo(input: seq<string>, students: seq<Student>, es: seq<Effect>)
    requires |input| == 4 && Classify(input[2]) == CmdInfo
    requires Admissible(input, Start(0, students), es)
    requires !Active(input, Run(input, Start(0, students), es))
    requires 2 <= |es| && Admissible(input, Start(0, students), es[..2])
    requires Run(input, Start(0, students), es[..2]) ==
      Conf(2, 2, false, [], [Greeting, Info(VERSION, 3), ClearDone])
    ensures 3 <= |es| && es[2] == NoCall
    ensures Admissible(input, Start(0, students), es[..3])
    ensures Run(input, Start(0, students), es[..3]) ==
      Conf(3, 3, false, [], [Greeting, Info(VERSION, 3), ClearDone, Info(VERSION, 0)])
  {
    var c2 := Conf(2, 2, false, [], [Greeting, Info(VERSION, 3), ClearDone]);
    NextIteration(input, Start(0, students), es, 2);
    InfoStep(input, c2, es[2]);
  }

  /** The last line: BYE, after which nothing more is read. */
  lemma ScenarioBye(input: seq<string>, students: seq<Student>, es: seq<Effect>)
    requires |input| == 4 && Classify(input[3]) == CmdBye
    requires Admissible(input, Start(0, students), es)
    requires !Active(input, Run(input, Start(0, students), es))
    requires 3 <= |es| && Admissible(input, Start(0, students), es[..3])
    requires Run(input, Start(0, students), es[..3]) ==
      Conf(3, 3, false, [], [Greeting, Info(VERSION, 3), ClearDone, Info(VERSION, 0)])
    ensures |es| == 4 && es[3] == NoCall
    ensures Run(input, Start(0, students), es) ==
      Conf(4, 4, true, [], [Greeting, Info(VERSION, 3), ClearDone, Info(VERSION, 0), Bye(Success, 4)])
  {
    var c0 := Start(0, students);
    var c3 := Conf(3, 3, false, [], [Greeting, Info(VERSION, 3), ClearDone, Info(VERSION, 0)]);
    NextIteration(input, c0, es, 3);
    ByeStep(input, c3, es[3]);
    if 4 < |es| {
      ActiveBeforeEachStep(input, c0, es, 4);
      assert false;
    }
    assert es == es[..4];
  }

  /** The three parts above, chained: the session on four lines read as INFO, CLEAR, INFO, BYE. */
  lemma ScenarioInfoClearInfoByeLines(input: seq<string>, students: seq<Student>, es: seq<Effect>)
    requires |input| == 4 && |students| == 3
    requires Classify(input[0]) == CmdInfo && Classify(input[1]) == CmdClear
    requires Classify(input[2]) == CmdInfo && Classify(input[3]) == CmdBye
    requires Admissible(input, Start(0, students), es)
    requires !Active(input, Run(input, Start(0, students), es))
    ensures es == [NoCall, NoCall, NoCall, NoCall]
    ensures Run(input, Start(0, students), es) ==
      Conf(4, 4, true, [], [Greeting, Info(VERSION, 3), ClearDone, Info(VERSION, 0), Bye(Success, 4)])
  {
    ScenarioInfoClear(input, students, es);
    ScenarioSecondInfo(input, students, es);
    ScenarioBye(input, students, es);
  }

  /** The lines of the scenario below. */
  const INFO_CLEAR_INFO_BYE: seq<string> := ["INFO", "CLEAR", "INFO", "BYE"]

  /**
   * INFO, CLEAR, INFO, BYE on a store of three students: whatever the store
   * does, the session reads the four lines, makes no store call with a
   * choice in it, and writes count 3, the clear confirmation, count 0, then
   * Bye with four commands.
   */
  lemma ScenarioInfoClearInfoBye(students: seq<Student>, es: seq<Effect>)
    requires |students| == 3
    requires Admissible(INFO_CLEAR_INFO_BYE, Start(0, students), es)
    requires !Active(INFO_CLEAR_INFO_BYE, Run(INFO_CLEAR_INFO_BYE, Start(0, students), es))
    ensures es == [NoCall, NoCall, NoCall, NoCall]
    ensures Run(INFO_CLEAR_INFO_BYE, Start(0, students), es) ==
      Conf(4, 4, true, [], [Greeting, Info(VERSION, 3), ClearDone, Info(VERSION, 0), Bye(Success, 4)])
  {
    var input := INFO_CLEAR_INFO_BYE;
    ScenarioLines();
    assert input[0] == "INFO" && input[1] == "CLEAR" && input[2] == "INFO" && input[3] == "BYE";
    ScenarioInfoClearInfoByeLines(input, students, es);
  }

  /**
   * RANDOM on an empty store: whatever the store does, the session writes the
   * greeting, then an error and no name, counts one command and ends at the
   * end of input.
   */
  lemma ScenarioRandomOnEmptyStore(es: seq<Effect>)
    requires Admissible(["random"], Start(0, []), es)
    requires !Active(["random"], Run(["random"], Start(0, []), es))
    ensures es == [NoCall]
    ensures Run(["random"], Start(0, []), es) ==
      Conf(1, 1, false, [], [Greeting, RandomErr(NO_STUDENT_ERROR)])
  {
    var input := ["random"];
    var c0 := Start(0, []);
    assert ToUpper("random") == "RANDOM";
    assert es[..0] == [];
    NextIteration(input, c0, es, 0);
    if 1 < |es| {
      ActiveBeforeEachStep(input, c0, es, 1);
      assert false;
    }
    assert es == es[..1];
  }
}
