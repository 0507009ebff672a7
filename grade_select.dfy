/** `populateGradeSelect` (script.js:222-233): the options a grade drop-down is
    filled with. The drop-down element is the method's result; the `<select>`
    element's own single-selection rule is external. */
module GradeSelect {
  import opened Records

  /** An `<option>`: its value, its text and its `selected` flag. */
  datatype GradeOption = GradeOption(value: int, text: string, selected: bool)

  /** `options` lists `grades` one by one, in order, and flags exactly the
      options whose grade id is `selectedId` (`grade.grade_id === selectedId`). */
  predicate ListsGrades(options: seq<GradeOption>, grades: seq<Grade>, selectedId: Option<int>)
  {
    |options| == |grades|
    && forall i :: 0 <= i < |grades| ==>
         options[i].value == grades[i].id
         && options[i].text == grades[i].name
         && (options[i].selected <==> selectedId == Some(grades[i].id))
  }

  /** The loop that clears the drop-down and appends one option per grade. */
  method PopulateGradeSelect(grades: seq<Grade>, selectedId: Option<int>) returns (options: seq<GradeOption>)
    ensures ListsGrades(options, grades, selectedId)
  {
    options := [];
    var i := 0;
    while i < |grades|
      invariant 0 <= i <= |grades|
      invariant ListsGrades(options, grades[..i], selectedId)
    {
      var grade := grades[i];
      var option := GradeOption(grade.id, grade.name, false);
      if Some(grade.id) == selectedId {
        option := option.(selected := true);
      }
      options := options + [option];
      i := i + 1;
    }
    assert grades[..i] == grades;
  }

  /** The options are determined by the grades and the selected id. */
  lemma ListsGradesUnique(a: seq<GradeOption>, b: seq<GradeOption>, grades: seq<Grade>, selectedId: Option<int>)
    requires ListsGrades(a, grades, selectedId) && ListsGrades(b, grades, selectedId)
    ensures a == b
  {
    assert forall i :: 0 <= i < |a| ==> a[i] == b[i];
  }

  /** Without a selected id (the parameter's default) no option is flagged; with
      distinct grade ids at most one is. */
  lemma SelectionRule(options: seq<GradeOption>, grades: seq<Grade>, selectedId: Option<int>)
    requires ListsGrades(options, grades, selectedId)
    ensures selectedId.None? ==> forall i :: 0 <= i < |options| ==> !options[i].selected
    ensures (forall i, j :: 0 <= i < j < |grades| ==> grades[i].id != grades[j].id) ==>
              forall i, j :: 0 <= i < |options| && 0 <= j < |options| && options[i].selected && options[j].selected ==> i == j
  {
  }
}
