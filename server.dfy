/** The server side of one connection: RouletteV2ClientHandler. */
module Server {
  import opened Wrappers
  import opened Streams
  import opened Data
  import opened Protocol
  import opened Output
  import opened Session

  class RouletteV2ClientHandler {
    const store: StudentsStore

    constructor (store: StudentsStore)
      ensures this.store == store
    {
      this.store := store;
    }

    /**
     * handleClientConnection: greet, then read and execute one command per
     * line until BYE or the end of input. The store's choices during the
     * session are returned as `effects`; the session's whole outcome (input
     * position, store, everything written) is Run over them, and the loop
     * stopped exactly when Run says the loop condition fails.
     */
    method HandleClientConnection(reader: LineReader, writer: ResponseWriter)
      returns (ghost effects: seq<Effect>)
      requires reader.Valid()
      modifies reader, writer, store
      ensures reader.Valid()
      ensures Admissible(reader.lines, Start(old(reader.cursor), old(store.students)), effects)
      ensures var r := Run(reader.lines, Start(old(reader.cursor), old(store.students)), effects);
        !Active(reader.lines, r) &&
        reader.cursor == r.cursor &&
        store.students == r.students &&
        writer.sent == old(writer.sent) + r.output
    {
      ghost var input := reader.lines;
      ghost var c0 := Start(reader.cursor, store.students);
      ghost var sent0 := writer.sent;
      writer.Println(Greeting);

      var nbCommands := 0;
      var done := false;
      effects := [];

      while !done
        invariant reader.Valid()
        invariant Admissible(input, c0, effects)
        invariant Run(input, c0, effects).cursor == reader.cursor
        invariant Run(input, c0, effects).nbCommands == nbCommands
        invariant Run(input, c0, effects).done == done
        invariant Run(input, c0, effects).students == store.students
        invariant writer.sent == sent0 + Run(input, c0, effects).output
        decreases |input| - reader.cursor, !done
      {
        ghost var c := Run(input, c0, effects);
        var command := reader.ReadLine();
        if command.None? {
          break;
        }
        nbCommands := nbCommands + 1;
        ghost var e;
        done, e := Dispatch(command.value, nbCommands, reader, writer, input, c, sent0);
        RunSnoc(input, c0, effects, e);
        effects := effects + [e];
      }
    }

    /**
     * The body of the loop after a line was read and counted: the switch on
     * the upper-cased line. Its effect on the reader, the store and the
     * writer is one step of Next, with the store's choices returned as `e`.
     */
    method Dispatch(command: string, nbCommands: nat, reader: LineReader, writer: ResponseWriter,
                    ghost input: seq<string>, ghost c: Conf, ghost sent0: seq<Response>)
      returns (done: bool, ghost e: Effect)
      requires reader.Valid() && reader.lines == input
      requires Active(input, c) && input[c.cursor] == command
      requires reader.cursor == c.cursor + 1 && nbCommands == c.nbCommands + 1
      requires store.students == c.students && writer.sent == sent0 + c.output
      modifies reader, writer, store
      ensures reader.Valid()
      ensures Allowed(input, c, e)
      ensures Next(input, c, e).cursor == reader.cursor
      ensures Next(input, c, e).nbCommands == nbCommands
      ensures Next(input, c, e).done == done
      ensures Next(input, c, e).students == store.students
      ensures writer.sent == sent0 + Next(input, c, e).output
    {
      done := false;
      e := NoCall;
      match Classify(command) {
        case CmdRandom =>
          var picked := store.PickRandomStudent();
          match picked {
            case Picked(s) =>
              writer.Println(RandomOk(s.fullname));
              e := PickedStudent(s);
            case EmptyStoreException =>
              writer.Println(RandomErr(NO_STUDENT_ERROR));
          }
        case CmdHelp =>
          writer.Println(HelpText(SUPPORTED_COMMANDS));
        case CmdInfo =>
          var count := store.GetNumberOfStudents();
          writer.Println(Info(VERSION, count));
        case CmdLoad =>
          writer.Println(LoadStart);
          ghost var studentsBefore := store.students;
          ghost var cursorBefore := reader.cursor;
          var nbStudentsBefore := store.GetNumberOfStudents();
          var ok := store.ImportData(reader);
          var status := if ok then Success else Failure;
          var nbStudentsAfter := store.GetNumberOfStudents();
          writer.Println(Load(status, nbStudentsAfter - nbStudentsBefore));
          e := ImportedData(reader.cursor - cursorBefore, store.students[|studentsBefore|..], ok);
        case CmdList =>
          var list := store.ListStudents();
          writer.Println(List(list));
        case CmdBye =>
          done := true;
          writer.Println(Bye(Success, nbCommands));
        case CmdClear =>
          store.Clear();
          writer.Println(ClearDone);
        case CmdUnknown =>
          writer.Println(Unknown);
      }
    }
  }
}
