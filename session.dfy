/** The client's session and navigation state (script.js:3-10) and the handlers
    that change it: start-up, `navigate`/`render`, login, logout, choosing a
    student's feedback page, going back, and the list loading of the two content
    pages. Each handler is one atomic step; the gateway's replies are inputs. */
module Session {
  import opened Records
  import FeedbackJoin
  import GradeSelect

  /** `state.currentPage`. */
  datatype Page = AuthPage | StudentsPage | FeedbackPage

  /** What `render` shows: the sign-in page, the main frame with the student or
      the feedback page, or the main frame with no content page (token present
      while the current page is `auth`). */
  datatype View = AuthView | StudentsView | FeedbackView | BlankMainView

  datatype Tone = Success | Error

  /** A notice shown with `showToast`. */
  datatype Toast = Toast(message: string, tone: Tone)

  const LoginSucceededText := "로그인 성공!"
  const LoginFailedText := "로그인에 실패했습니다. 이메일과 비밀번호를 확인하세요."
  const LoggedOutText := "로그아웃 되었습니다."

  /** The page `render` displays for a token and a current page (script.js:110-122). */
  function ViewFor(token: Option<string>, page: Page): (view: View)
  {
    if !Truthy(token) then AuthView
    else match page
      case StudentsPage => StudentsView
      case FeedbackPage => FeedbackView
      case AuthPage => BlankMainView
  }

  /** The login handler's test `response && response.access_token`. */
  predicate LoginAccepted(response: Option<TokenReply>)
  {
    response.Some? && response.value.accessToken != ""
  }

  class AppState {
    var token: Option<string>
    /** The `token` entry of `localStorage`. */
    var persistedToken: Option<string>
    var currentPage: Page
    var selectedStudentId: Option<int>
    var selectedStudentName: Option<string>
    /** The cached grade list. */
    var grades: seq<Grade>
    /** The student list of the last student-page render. */
    var students: seq<Student>

    /** What every handler keeps: the stored token is the session's token, the
        feedback page is never shown without a selected student, and without a
        token the current page is `auth`. */
    ghost predicate Valid()
      reads this
    {
      persistedToken == token
      && (currentPage == FeedbackPage ==> selectedStudentId.Some? && selectedStudentName.Some?)
      && (!Truthy(token) ==> currentPage == AuthPage)
    }

    /** After start-up the current page is `auth` exactly when there is no token. */
    ghost predicate Settled()
      reads this
    {
      Valid() && (currentPage == AuthPage <==> !Truthy(token))
    }

    /** The `state` object as the page loads: the token is read from storage. */
    constructor (stored: Option<string>)
      ensures token == stored && persistedToken == stored && currentPage == AuthPage
      ensures selectedStudentId == None && selectedStudentName == None
      ensures grades == [] && students == []
      ensures Valid()
    {
      token := stored;
      persistedToken := stored;
      currentPage := AuthPage;
      selectedStudentId := None;
      selectedStudentName := None;
      grades := [];
      students := [];
    }

    /** `render`'s page normalisation: without a token the current page becomes
        `auth`; with one it is left as it is. */
    method Render() returns (view: View)
      modifies this`currentPage
      ensures currentPage == if Truthy(token) then old(currentPage) else AuthPage
      ensures view == ViewFor(token, currentPage)
      ensures old(Valid()) ==> Valid()
    {
      if !Truthy(token) {
        currentPage := AuthPage;
      }
      view := ViewFor(token, currentPage);
    }

    /** `navigate(page)`: set the page, then render. */
    method Navigate(page: Page) returns (view: View)
      modifies this`currentPage
      ensures currentPage == if Truthy(token) then page else AuthPage
      ensures view == ViewFor(token, currentPage)
      ensures old(Valid()) && (page == FeedbackPage ==> selectedStudentId.Some? && selectedStudentName.Some?)
              ==> Valid()
      ensures Valid() && (page == AuthPage <==> !Truthy(token)) ==> Settled()
    {
      currentPage := page;
      view := Render();
    }

    /** `initialize`: the student page with a stored token, else sign-in. */
    method Initialize() returns (view: View)
      requires Valid()
      modifies this`currentPage
      ensures currentPage == if Truthy(token) then StudentsPage else AuthPage
      ensures view == if Truthy(token) then StudentsView else AuthView
      ensures Settled()
    {
      if Truthy(token) {
        view := Navigate(StudentsPage);
      } else {
        view := Navigate(AuthPage);
      }
    }

    /** The login handler, given what `api.login` resolved to. An accepted reply
        stores its token and opens the student page; anything else changes
        nothing and shows the failure notice. */
    method Login(response: Option<TokenReply>) returns (toast: Toast, view: Option<View>)
      requires Valid()
      modifies this`token, this`persistedToken, this`currentPage
      ensures Valid()
      ensures old(Settled()) ==> Settled()
      ensures LoginAccepted(response) ==>
                token == Some(response.value.accessToken) && persistedToken == token
                && currentPage == StudentsPage
                && toast == Toast(LoginSucceededText, Success) && view == Some(StudentsView)
      ensures !LoginAccepted(response) ==>
                token == old(token) && persistedToken == old(persistedToken)
                && currentPage == old(currentPage)
                && toast == Toast(LoginFailedText, Error) && view == None
    {
      if LoginAccepted(response) {
        token := Some(response.value.accessToken);
        persistedToken := token;
        toast := Toast(LoginSucceededText, Success);
        var v := Navigate(StudentsPage);
        view := Some(v);
      } else {
        toast := Toast(LoginFailedText, Error);
        view := None;
      }
    }

    /** The logout handler: forget the token, remove it from storage and return
        to sign-in. The selection is left as it is. */
    method Logout() returns (toast: Toast, view: View)
      requires Valid()
      modifies this`token, this`persistedToken, this`currentPage
      ensures token == None && persistedToken == None && currentPage == AuthPage
      ensures selectedStudentId == old(selectedStudentId) && selectedStudentName == old(selectedStudentName)
      ensures toast == Toast(LoggedOutText, Success) && view == AuthView
      ensures Settled()
    {
      token := None;
      persistedToken := None;
      toast := Toast(LoggedOutText, Success);
      view := Navigate(AuthPage);
    }

    /** The "manage feedback" button: select the student and open the feedback
        page in one step. */
    method SelectStudent(id: int, name: string) returns (view: View)
      requires Valid()
      modifies this`selectedStudentId, this`selectedStudentName, this`currentPage
      ensures selectedStudentId == Some(id) && selectedStudentName == Some(name)
      ensures currentPage == if Truthy(token) then FeedbackPage else AuthPage
      ensures view == ViewFor(token, currentPage)
      ensures Valid()
      ensures old(Settled()) ==> Settled()
    {
      selectedStudentId := Some(id);
      selectedStudentName := Some(name);
      view := Navigate(FeedbackPage);
    }

    /** The "back to students" button: clear the selection and open the student page. */
    method Back() returns (view: View)
      requires Valid()
      modifies this`selectedStudentId, this`selectedStudentName, this`currentPage
      ensures selectedStudentId == None && selectedStudentName == None
      ensures currentPage == if Truthy(token) then StudentsPage else AuthPage
      ensures view == ViewFor(token, currentPage)
      ensures Valid()
      ensures old(Settled()) ==> Settled()
    {
      selectedStudentId := None;
      selectedStudentName := None;
      view := Navigate(StudentsPage);
    }

    /** The lists of `renderStudentManagementPage` (script.js:126-169): grades are
        requested only while the cache is empty, students on every call, a null
        reply is an empty list; the new-student drop-down is filled when grades
        were requested, and every student's card gets a drop-down with its own
        grade selected. */
    method LoadStudentPage(gradesReply: Option<seq<Grade>>, studentsReply: Option<seq<Student>>)
      returns (requestedGrades: bool, newStudentOptions: Option<seq<GradeSelect.GradeOption>>,
               cardOptions: seq<seq<GradeSelect.GradeOption>>)
      modifies this`grades, this`students
      ensures requestedGrades <==> old(grades) == []
      ensures grades == if requestedGrades then OrEmpty(gradesReply) else old(grades)
      ensures students == OrEmpty(studentsReply)
      ensures newStudentOptions.Some? <==> requestedGrades
      ensures requestedGrades ==> GradeSelect.ListsGrades(newStudentOptions.value, grades, None)
      ensures |cardOptions| == |students|
      ensures forall k :: 0 <= k < |students| ==>
                GradeSelect.ListsGrades(cardOptions[k], grades, Some(students[k].grade.id))
    {
      requestedGrades := |grades| == 0;
      newStudentOptions := None;
      if requestedGrades {
        grades := OrEmpty(gradesReply);
        var options := GradeSelect.PopulateGradeSelect(grades, None);
        newStudentOptions := Some(options);
      }
      students := OrEmpty(studentsReply);
      cardOptions := [];
      var k := 0;
      while k < |students|
        invariant 0 <= k <= |students|
        invariant grades == (if requestedGrades then OrEmpty(gradesReply) else old(grades))
        invariant students == OrEmpty(studentsReply)
        invariant |cardOptions| == k
        invariant forall n :: 0 <= n < k ==>
                    GradeSelect.ListsGrades(cardOptions[n], grades, Some(students[n].grade.id))
      {
        var options := GradeSelect.PopulateGradeSelect(grades, Some(students[k].grade.id));
        cardOptions := cardOptions + [options];
        k := k + 1;
      }
    }

    /** `renderFeedbackManagementPage` (script.js:172-219), reached only on the
        feedback page: feedbacks are requested for the selected student, whom the
        invariant guarantees, and joined with their class dates. */
    method LoadFeedbackPage(feedbacksReply: Option<seq<Feedback>>, studentsReply: Option<seq<Student>>)
      returns (studentId: int, fetchedStudents: bool, cards: seq<FeedbackJoin.FeedbackCard>)
      requires Valid() && currentPage == FeedbackPage
      ensures selectedStudentId == Some(studentId)
      ensures fetchedStudents <==> OrEmpty(feedbacksReply) != []
      ensures |cards| == |OrEmpty(feedbacksReply)|
      ensures forall k :: 0 <= k < |cards| ==>
                cards[k] == FeedbackJoin.CardFor(OrEmpty(feedbacksReply)[k],
                                                 FeedbackJoin.DateMap(FeedbackJoin.Classes(OrEmpty(studentsReply))))
    {
      studentId := selectedStudentId.value;
      fetchedStudents, cards := FeedbackJoin.RenderFeedbackCards(feedbacksReply, studentsReply);
    }
  }

  /** A session from page load through login, choosing a student, logout and a
      reload: what callers can conclude from the contracts alone. */
  method SessionWalkthrough(stored: Option<string>)
  {
    var s := new AppState(stored);
    var view := s.Initialize();
    assert s.Settled();
    var toast, shown := s.Login(Some(TokenReply("t1")));
    assert s.token == Some("t1") && s.persistedToken == Some("t1") && s.currentPage == StudentsPage;
    view := s.SelectStudent(7, "Kim");
    assert s.currentPage == FeedbackPage && s.selectedStudentId == Some(7);
    var id, fetched, cards := s.LoadFeedbackPage(None, None);
    assert id == 7 && !fetched && cards == [];
    toast, view := s.Logout();
    assert s.currentPage == AuthPage && s.persistedToken == None;
    var reloaded := new AppState(s.persistedToken);
    view := reloaded.Initialize();
    assert reloaded.currentPage == AuthPage && view == AuthView;
  }
}
