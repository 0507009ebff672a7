/** The feedback page's join (script.js:176-218): every feedback record is shown
    with the date of the class it belongs to. The dates come from a second read,
    the student list, whose classes embed their feedback; a dictionary from
    feedback id to class date is built by a nested loop over students and their
    classes, and a feedback with no usable entry is shown as of unknown date. */
module FeedbackJoin {
  import opened Records

  /** The date shown when the join finds nothing usable. */
  const UnknownDate := "날짜 정보 없음"
  /** The text shown for an empty comment. */
  const NoComment := "내용 없음"

  /** Class `c` carries the feedback with id `id`. */
  predicate HasFeedback(c: ClassSession, id: int)
  {
    c.feedback.Some? && c.feedback.value.id == id
  }

  /** All classes of all students, in the order the nested loop visits them. */
  function Classes(students: seq<Student>): (cs: seq<ClassSession>)
  {
    if students == [] then []
    else Classes(students[..|students| - 1]) + students[|students| - 1].classes
  }

  /** The dictionary after visiting `cs` in order: each class with a feedback
      writes its date under the feedback's id. */
  function DateMap(cs: seq<ClassSession>): (m: map<int, string>)
  {
    if cs == [] then map[]
    else
      var m := DateMap(cs[..|cs| - 1]);
      var c := cs[|cs| - 1];
      if c.feedback.Some? then m[c.feedback.value.id := c.date] else m
  }

  /** The lookup with its fallback: `studentMap[id] || UnknownDate`. */
  function DateOf(m: map<int, string>, id: int): (date: string)
  {
    if id in m && m[id] != "" then m[id] else UnknownDate
  }

  /** `text || NoComment`. */
  function OrNoComment(text: string): (shown: string)
  {
    if text != "" then text else NoComment
  }

  /** What one feedback card shows. */
  datatype FeedbackCard = FeedbackCard(classDate: string, improvement: string, attitude: string, overall: string)

  /** The card for feedback `fb` given the date dictionary `m`. */
  function CardFor(fb: Feedback, m: map<int, string>): (card: FeedbackCard)
  {
    FeedbackCard(DateOf(m, fb.id), OrNoComment(fb.improvement), OrNoComment(fb.attitude), OrNoComment(fb.overall))
  }

  /** The dictionary has a key exactly for the ids of the feedbacks some class carries. */
  lemma {:induction false} DateMapKeys(cs: seq<ClassSession>, id: int)
    ensures id in DateMap(cs) <==> exists i :: 0 <= i < |cs| && HasFeedback(cs[i], id)
  {
    if cs != [] {
      var init := cs[..|cs| - 1];
      DateMapKeys(init, id);
      if id in DateMap(init) {
        var i :| 0 <= i < |init| && HasFeedback(init[i], id);
        assert HasFeedback(cs[i], id);
      }
      if exists i :: 0 <= i < |cs| && HasFeedback(cs[i], id) {
        var i :| 0 <= i < |cs| && HasFeedback(cs[i], id);
        if i < |init| {
          assert HasFeedback(init[i], id);
        }
      }
    }
  }

  /** A later class with the same feedback id overwrites an earlier one: the
      entry is the date of the last class carrying that id. */
  lemma {:induction false} DateMapLastWins(cs: seq<ClassSession>, i: int, id: int)
    requires 0 <= i < |cs| && HasFeedback(cs[i], id)
    requires forall j :: i < j < |cs| ==> !HasFeedback(cs[j], id)
    ensures id in DateMap(cs) && DateMap(cs)[id] == cs[i].date
  {
    var init := cs[..|cs| - 1];
    if i < |cs| - 1 {
      forall j | i < j < |init| ensures !HasFeedback(init[j], id) {
        assert init[j] == cs[j];
      }
      DateMapLastWins(init, i, id);
    }
  }

  /** A feedback no class carries is shown with the unknown-date marker. */
  lemma UnmatchedIsUnknown(cs: seq<ClassSession>, id: int)
    requires forall i :: 0 <= i < |cs| ==> !HasFeedback(cs[i], id)
    ensures DateOf(DateMap(cs), id) == UnknownDate
  {
    DateMapKeys(cs, id);
  }

  /** A feedback whose last carrying class has a date is shown with that date. */
  lemma MatchedShowsLastDate(cs: seq<ClassSession>, i: int, id: int)
    requires 0 <= i < |cs| && HasFeedback(cs[i], id) && cs[i].date != ""
    requires forall j :: i < j < |cs| ==> !HasFeedback(cs[j], id)
    ensures DateOf(DateMap(cs), id) == cs[i].date
  {
    DateMapLastWins(cs, i, id);
  }

  /** The classes visited are exactly the classes of the students. */
  lemma {:induction false} ClassesOfStudents(students: seq<Student>, c: ClassSession)
    ensures c in Classes(students) <==> exists k :: 0 <= k < |students| && c in students[k].classes
  {
    if students != [] {
      var init := students[..|students| - 1];
      ClassesOfStudents(init, c);
      if exists k :: 0 <= k < |init| && c in init[k].classes {
        var k :| 0 <= k < |init| && c in init[k].classes;
        assert students[k] == init[k];
      }
      if exists k :: 0 <= k < |students| && c in students[k].classes {
        var k :| 0 <= k < |students| && c in students[k].classes;
        if k < |init| {
          assert init[k] == students[k];
        }
      }
    }
  }

  /** A feedback that no class of any fetched student carries is shown with the
      unknown-date marker; with a null student reply there are no students. */
  lemma NoStudentCarriesIt(students: seq<Student>, id: int)
    requires forall k, c :: 0 <= k < |students| && c in students[k].classes ==> !HasFeedback(c, id)
    ensures DateOf(DateMap(Classes(students)), id) == UnknownDate
  {
    var cs := Classes(students);
    forall c | c in cs ensures !HasFeedback(c, id) {
      ClassesOfStudents(students, c);
    }
    UnmatchedIsUnknown(cs, id);
  }

  /** The nested `forEach` over students and their classes (script.js:187-196). */
  method BuildDateMap(students: seq<Student>) returns (m: map<int, string>)
    ensures m == DateMap(Classes(students))
  {
    m := map[];
    var i := 0;
    while i < |students|
      invariant 0 <= i <= |students|
      invariant m == DateMap(Classes(students[..i]))
    {
      var done := Classes(students[..i]);
      var cs := students[i].classes;
      var j := 0;
      assert done + cs[..0] == done;
      while j < |cs|
        invariant 0 <= j <= |cs|
        invariant m == DateMap(done + cs[..j])
      {
        assert (done + cs[..j + 1])[..|done + cs[..j + 1]| - 1] == done + cs[..j];
        assert (done + cs[..j + 1])[|done + cs[..j + 1]| - 1] == cs[j];
        if cs[j].feedback.Some? {
          m := m[cs[j].feedback.value.id := cs[j].date];
        }
        j := j + 1;
      }
      assert cs[..j] == cs;
      assert students[..i + 1][..i] == students[..i];
      i := i + 1;
    }
    assert students[..i] == students;
  }

  /** The rest of `renderFeedbackManagementPage` (script.js:176-218): a null
      feedback reply is an empty list; an empty list returns before the students
      are fetched; otherwise each feedback gets its card, in order, with the date
      the join gives (an empty dictionary when the student fetch gave null). */
  method RenderFeedbackCards(feedbacksReply: Option<seq<Feedback>>, studentsReply: Option<seq<Student>>)
    returns (fetchedStudents: bool, cards: seq<FeedbackCard>)
    ensures fetchedStudents <==> OrEmpty(feedbacksReply) != []
    ensures |cards| == |OrEmpty(feedbacksReply)|
    ensures forall k :: 0 <= k < |cards| ==>
              cards[k] == CardFor(OrEmpty(feedbacksReply)[k], DateMap(Classes(OrEmpty(studentsReply))))
  {
    var feedbacks := OrEmpty(feedbacksReply);
    cards := [];
    if |feedbacks| == 0 {
      fetchedStudents := false;
      return;
    }
    fetchedStudents := true;
    var studentMap := map[];
    if studentsReply.Some? {
      studentMap := BuildDateMap(studentsReply.value);
    }
    assert studentMap == DateMap(Classes(OrEmpty(studentsReply)));
    var k := 0;
    while k < |feedbacks|
      invariant 0 <= k <= |feedbacks|
      invariant |cards| == k
      invariant forall n :: 0 <= n < k ==> cards[n] == CardFor(feedbacks[n], studentMap)
    {
      cards := cards + [CardFor(feedbacks[k], studentMap)];
      k := k + 1;
    }
  }
}
