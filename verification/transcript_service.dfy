/** The in-memory transcript registry (class `TranscriptDB` of src/transcript.service.ts). */
module TranscriptService {
  import opened Types
  import opened Results
  import opened TranscriptSpec

  class TranscriptDB {
    /** The transcripts in the order their students were added. */
    var transcripts: seq<Transcript>
    /** The last ID handed out by `AddStudent`; 0 before the first one. */
    var lastID: StudentID
    /** Every ID handed out so far, including those of deleted students. */
    ghost var Issued: set<StudentID>

    /** The registry's invariant: the IDs handed out are exactly 1 .. lastID, every stored ID
        is one of them (so it is at most lastID), and no two stored transcripts share an ID. */
    ghost predicate Valid()
      reads this
    {
      && 0 <= lastID
      && (forall k :: k in Issued <==> 1 <= k <= lastID)
      && (forall i :: 0 <= i < |transcripts| ==> transcripts[i].student.studentID in Issued)
      && UniqueIDs(transcripts)
    }

    /** A fresh registry holds nothing, so it rejects every ID. */
    constructor ()
      ensures Valid()
      ensures transcripts == [] && lastID == 0 && Issued == {}
      ensures forall id :: Lookup(transcripts, id) == Err(NotFound(id))
    {
      transcripts := [];
      lastID := 0;
      Issued := {};
    }

    /** Hands out the next ID and appends a transcript with no grades for it. */
    method AddStudent(newName: StudentName) returns (newID: StudentID)
      requires Valid()
      modifies this
      ensures Valid()
      ensures newID == old(lastID) + 1 && lastID == newID
      ensures newID !in old(Issued) && Issued == old(Issued) + {newID}
      ensures newID !in StudentIDs(old(transcripts))
      ensures transcripts == old(transcripts) + [Transcript(Student(newID, newName), [])]
      ensures Lookup(transcripts, newID) == Ok(Transcript(Student(newID, newName), []))
      ensures forall k :: k != newID ==> Lookup(transcripts, k) == Lookup(old(transcripts), k)
    {
      lastID := lastID + 1;
      newID := lastID;
      Issued := Issued + {newID};
      var t := Transcript(Student(newID, newName), []);
      LookupAfterAppend(transcripts, t);
      transcripts := transcripts + [t];
    }

    /** `nameToIDs`: the IDs of the students called exactly `studentName`, in list order. */
    method NameToIDs(studentName: StudentName) returns (ids: seq<StudentID>)
      ensures ids == IDsNamed(transcripts, studentName)
    {
      ids := [];
      var i := 0;
      while i < |transcripts|
        invariant 0 <= i <= |transcripts|
        invariant ids == IDsNamed(transcripts[..i], studentName)
      {
        var t := transcripts[i];
        assert transcripts[..i + 1] == transcripts[..i] + [t];
        IDsNamedAfterAppend(transcripts[..i], t, studentName);
        if t.student.studentName == studentName {
          ids := ids + [t.student.studentID];
        }
        i := i + 1;
      }
      assert transcripts[..i] == transcripts;
    }

    /** `_getIndexForId`: the least index holding `id`, or `NotFound`. */
    method GetIndexForId(id: StudentID) returns (r: Result<nat>)
      ensures match IndexOf(transcripts, id)
              case Some(i) => r == Ok(i)
              case None => r == Err(NotFound(id))
    {
      var i := 0;
      while i < |transcripts|
        invariant 0 <= i <= |transcripts|
        invariant forall j :: 0 <= j < i ==> transcripts[j].student.studentID != id
      {
        if transcripts[i].student.studentID == id {
          return Ok(i);
        }
        i := i + 1;
      }
      return Err(NotFound(id));
    }

    /** `getTranscript`: the transcript stored under `id`, or `NotFound`. */
    method GetTranscript(id: StudentID) returns (r: Result<Transcript>)
      ensures r == Lookup(transcripts, id)
    {
      var index :- GetIndexForId(id);
      return Ok(transcripts[index]);
    }

    /** `deleteStudent`: splices out the transcript stored under `id`, or fails with `NotFound`
        and changes nothing. */
    method DeleteStudent(id: StudentID) returns (r: Result<()>)
      requires Valid()
      modifies this
      ensures Valid()
      ensures lastID == old(lastID) && Issued == old(Issued)
      ensures match IndexOf(old(transcripts), id)
              case None => r == Err(NotFound(id)) && transcripts == old(transcripts)
              case Some(i) => r == Ok(()) && transcripts == old(transcripts)[..i] + old(transcripts)[i + 1..]
      ensures r.Ok? ==> StudentIDs(transcripts) == Without(StudentIDs(old(transcripts)), id)
      ensures Lookup(transcripts, id) == Err(NotFound(id))
      ensures forall k :: k != id ==> Lookup(transcripts, k) == Lookup(old(transcripts), k)
    {
      var index :- GetIndexForId(id);
      DeleteIDs(transcripts, id, index);
      DeleteLookups(transcripts, id, index);
      DeleteKeepsUnique(transcripts, index);
      transcripts := transcripts[..index] + transcripts[index + 1..];
      return Ok(());
    }

    /** `addGrade`: pushes `{course: courseName, grade: courseGrade}` onto the grades of the
        student stored under `id`, without looking for an earlier entry for that course;
        or fails with `NotFound` and changes nothing. */
    method AddGrade(id: StudentID, courseName: Course, courseGrade: real) returns (r: Result<()>)
      requires Valid()
      modifies this
      ensures Valid()
      ensures lastID == old(lastID) && Issued == old(Issued)
      ensures match IndexOf(old(transcripts), id)
              case None => r == Err(NotFound(id)) && transcripts == old(transcripts)
              case Some(i) => r == Ok(()) && transcripts == WithGrade(old(transcripts), i, courseName, courseGrade)
      ensures |transcripts| == |old(transcripts)| && StudentIDs(transcripts) == StudentIDs(old(transcripts))
      ensures forall k :: k != id ==> Lookup(transcripts, k) == Lookup(old(transcripts), k)
      ensures r.Ok? ==> Lookup(transcripts, id) ==
                          Ok(Transcript(old(Lookup(transcripts, id)).value.student,
                                        old(Lookup(transcripts, id)).value.grades + [CourseGrade(courseName, courseGrade)]))
    {
      var index :- GetIndexForId(id);
      WithGradeKeepsOthers(transcripts, id, index, courseName, courseGrade);
      transcripts := WithGrade(transcripts, index, courseName, courseGrade);
      return Ok(());
    }

    /** `getGrade`: the first grade entry for exactly `courseName` on the transcript stored under
        `id`; `NotFound` when there is no such student, `GradeNotFound` when there is no such entry. */
    method GetGrade(id: StudentID, courseName: Course) returns (r: Result<CourseGrade>)
      ensures r == GradeOf(transcripts, id, courseName)
    {
      var index :- GetIndexForId(id);
      var grades := transcripts[index].grades;
      var k := 0;
      while k < |grades|
        invariant 0 <= k <= |grades|
        invariant forall j :: 0 <= j < k ==> grades[j].course != courseName
      {
        if grades[k].course == courseName {
          return Ok(grades[k]);
        }
        k := k + 1;
      }
      return Err(GradeNotFound(id, courseName));
    }

    /** `getAllStudentIDs`: the stored IDs in list order, one per transcript. */
    method GetAllStudentIDs() returns (ids: seq<StudentID>)
      ensures ids == StudentIDs(transcripts)
    {
      ids := [];
      var i := 0;
      while i < |transcripts|
        invariant 0 <= i <= |transcripts|
        invariant |ids| == i
        invariant forall k :: 0 <= k < i ==> ids[k] == transcripts[k].student.studentID
      {
        ids := ids + [transcripts[i].student.studentID];
        i := i + 1;
      }
    }
  }
}
