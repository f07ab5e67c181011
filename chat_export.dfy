/** The name of the exported chat transcript (pages/03_exam_ally.py): the
    student's name and course with spaces turned into underscores. */
module ChatExport {
  import opened Wrappers

  const FileSuffix: string := "_chatisa.pdf"

  /** `s.replace(" ", "_")` */
  function ReplaceSpaces(s: string): (r: string)
    ensures |r| == |s|
    ensures forall i :: 0 <= i < |s| ==> r[i] == (if s[i] == ' ' then '_' else s[i])
  {
    if s == [] then [] else [if s[0] == ' ' then '_' else s[0]] + ReplaceSpaces(s[1..])
  }

  /** The normalised text has no space left in it, and normalising it again
      changes nothing. */
  lemma {:induction false} ReplaceSpacesNormalises(s: string)
    ensures ' ' !in ReplaceSpaces(s)
    ensures ReplaceSpaces(ReplaceSpaces(s)) == ReplaceSpaces(s)
  {
    var r := ReplaceSpaces(s);
    assert forall i :: 0 <= i < |r| ==> r[i] != ' ';
    assert ReplaceSpaces(r) == r;
  }

  /** The file name offered for download, or None when either field is empty and
      no PDF is produced. */
  function ExportFileName(userName: string, userCourse: string): (r: Option<string>)
    ensures r.Some? <==> userName != "" && userCourse != ""
    ensures r.Some? ==> ' ' !in r.value
    ensures r.Some? ==> |r.value| == |userCourse| + 1 + |userName| + |FileSuffix|
    ensures r.Some? ==> r.value[..|userCourse|] == ReplaceSpaces(userCourse)
    ensures r.Some? ==> r.value[|userCourse|] == '_'
    ensures r.Some? ==> r.value[|userCourse| + 1..|userCourse| + 1 + |userName|] == ReplaceSpaces(userName)
    ensures r.Some? ==> r.value[|r.value| - |FileSuffix|..] == FileSuffix
  {
    var name := ReplaceSpaces(userName);
    var course := ReplaceSpaces(userCourse);
    ReplaceSpacesNormalises(userName);
    ReplaceSpacesNormalises(userCourse);
    if name != "" && course != "" then
      var f := course + "_" + name + FileSuffix;
      assert f == course + ("_" + (name + FileSuffix));
      assert f == (course + "_" + name) + FileSuffix;
      Some(f)
    else None
  }
}
