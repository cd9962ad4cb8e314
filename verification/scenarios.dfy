/** Client code that follows the cases in src/transcript.service.spec.ts and src/additional.spec.ts:
    each assertion is proved from the contracts of `TranscriptDB` and the lemmas of `TranscriptSpec`. */
module TranscriptScenarios {
  import opened Types
  import opened Results
  import opened TranscriptSpec
  import opened TranscriptService

  /** Adding a student makes their name resolve to exactly their ID. */
  method NameResolvesAfterAdd() {
    var db := new TranscriptDB();
    var before := db.NameToIDs("blair");
    assert before == [];
    var id1 := db.AddStudent("blair");
    var after := db.NameToIDs("blair");
    IDsNamedAfterAppend([], Transcript(Student(id1, "blair"), []), "blair");
    assert after == [id1];
  }

  /** Three additions, two of them under the same name, yield three distinct IDs. */
  method DistinctIDs() {
    var db := new TranscriptDB();
    var id1 := db.AddStudent("blair");
    var id2 := db.AddStudent("corey");
    var id3 := db.AddStudent("blair");
    assert id1 != id2 && id1 != id3 && id2 != id3;
  }

  /** A name query returns the IDs added under that name and no others. */
  method OnlyMatchingName() {
    var db := new TranscriptDB();
    var id1 := db.AddStudent("blair");
    ghost var s1 := db.transcripts;
    var id2 := db.AddStudent("corey");
    ghost var s2 := db.transcripts;
    var id3 := db.AddStudent("del");
    IDsNamedAfterAppend([], s1[0], "blair");
    IDsNamedAfterAppend(s1, s2[1], "blair");
    IDsNamedAfterAppend(s2, db.transcripts[2], "blair");
    var ids := db.NameToIDs("blair");
    assert ids == [id1];
  }

  /** A new student's transcript has no grades; an empty registry rejects every ID. */
  method EmptyTranscriptAndUnknownID() {
    var db := new TranscriptDB();
    var missing := db.GetTranscript(1);
    assert missing == Err(NotFound(1));
    var id := db.AddStudent("test student");
    var t := db.GetTranscript(id);
    assert t.Ok? && t.value.grades == [];
  }

  /** Deleting the first of two students leaves only the second; the deleted ID stops
      resolving and is never handed out again. */
  method DeleteFirstOfTwo() {
    var db := new TranscriptDB();
    var id1 := db.AddStudent("test student 1");
    var id2 := db.AddStudent("test student 2");
    var r := db.DeleteStudent(id1);
    assert r.Ok?;
    var all := db.GetAllStudentIDs();
    assert all == [id2];
    var gone := db.GetTranscript(id1);
    assert gone == Err(NotFound(id1));
    var again := db.DeleteStudent(id1);
    assert again == Err(NotFound(id1));
    var id3 := db.AddStudent("test student 1");
    assert id3 != id1 && id3 != id2;
  }

  /** A grade added for a course is read back exactly; a student with no grades has none to read;
      an unknown ID is refused by both operations. */
  method GradeRoundTripAndFailures() {
    var db := new TranscriptDB();
    var id := db.AddStudent("test student");
    var empty := db.GetGrade(id, "test course");
    assert empty == Err(GradeNotFound(id, "test course"));
    var bad := db.AddGrade(id + 2, "test course", 100.0);
    assert bad == Err(NotFound(id + 2));
    var added := db.AddGrade(id, "test course", 100.0);
    assert added.Ok?;
    var g := db.GetGrade(id, "test course");
    assert g == Ok(CourseGrade("test course", 100.0));
    var badGet := db.GetGrade(id + 2, "test course");
    assert badGet == Err(NotFound(id + 2));
  }

  /** Two courses of one student are looked up independently. */
  method TwoCourses() {
    var db := new TranscriptDB();
    var id := db.AddStudent("David");
    var r1 := db.AddGrade(id, "Physics", 75.0);
    var r2 := db.AddGrade(id, "Chemistry", 95.0);
    var physics := db.GetGrade(id, "Physics");
    var chemistry := db.GetGrade(id, "Chemistry");
    assert physics == Ok(CourseGrade("Physics", 75.0));
    assert chemistry == Ok(CourseGrade("Chemistry", 95.0));
  }
}
