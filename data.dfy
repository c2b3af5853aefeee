/**
 * The student records and the store the handler talks to. The store's own
 * implementation is not part of this model: only the contract of each call
 * the handler makes is modelled, and the store's choices (which student is
 * picked, what an import reads and adds, whether it fails) are left open.
 */
module Data {
  import opened Streams

  /** A student; the handler only ever uses its full name. */
  datatype Student = Student(fullname: string)

  /** Outcome of pickRandomStudent: a student, or the EmptyStoreException. */
  datatype PickResult = Picked(student: Student) | EmptyStoreException

  class StudentsStore {
    /** The students held, in the order listStudents returns them. */
    var students: seq<Student>

    constructor (initial: seq<Student>)
      ensures students == initial
    {
      students := initial;
    }

    /** getNumberOfStudents */
    method GetNumberOfStudents() returns (n: nat)
      ensures n == |students|
    {
      n := |students|;
    }

    /**
     * pickRandomStudent: fails exactly when the store is empty; otherwise
     * returns some student of the store, which one being left open.
     */
    method PickRandomStudent() returns (r: PickResult)
      ensures r.EmptyStoreException? <==> students == []
      ensures r.Picked? ==> r.student in students
    {
      if students == [] {
        r := EmptyStoreException;
      } else {
        var i :| 0 <= i < |students|;
        r := Picked(students[i]);
      }
    }

    /** listStudents: every student, in order. */
    method ListStudents() returns (list: seq<Student>)
      ensures list == students
    {
      list := students;
    }

    /** clear: the store is left empty. */
    method Clear()
      modifies this
      ensures students == []
    {
      students := [];
    }

    /**
     * importData: reads some lines from the shared reader and appends some
     * students; `ok` is false when the import ends with an IOException, in
     * which case whatever was appended before the failure stays (no rollback).
     */
    method ImportData(reader: LineReader) returns (ok: bool)
      requires reader.Valid()
      modifies this, reader
      ensures reader.Valid() && old(reader.cursor) <= reader.cursor
      ensures old(students) <= students
    {
      var consumed :| 0 <= consumed <= |reader.lines| - reader.cursor;
      reader.cursor := reader.cursor + consumed;
      var added: seq<Student> :| true;
      students := students + added;
      ok :| true;
    }
  }
}
