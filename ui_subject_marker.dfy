/**
 * The later revision of the rename marker
 * (ui/markers/VedroSubjectLineMarkerContributor.java). It attaches the marker
 * to the leaf token naming a `subject` target instead of the assignment
 * statement; the file-name conversion and the rename check are the same code
 * as the earlier revision and are reused from SubjectMarker.
 */
module UiSubjectMarker {
  import opened Wrappers
  import opened Paths
  import opened Psi
  import TestUtils
  import SM = SubjectMarker

  /**
   * `extractSubjectInfo`, which here no longer looks at the targets: a
   * scenario class around the assignment, a string-literal value, and a
   * non-empty trimmed value.
   */
  function ExtractSubjectInfo(assignment: Assignment, file: Path): (r: Option<SM.SubjectInfo>)
    ensures r.Some? <==>
      && assignment.enclosingClass.Some? && assignment.enclosingClass.value.subclassesScenario
      && assignment.value.StringLiteral?
      && SM.Trim(assignment.value.stringValue) != []
    ensures r.Some? ==> r.value.subjectValue == SM.Trim(assignment.value.stringValue) && r.value.file == file
  {
    var cls := assignment.enclosingClass;
    if cls == None || !TestUtils.IsScenarioClass(cls.value) then None
    else if !assignment.value.StringLiteral? then None
    else
      var subjectValue := SM.Trim(assignment.value.stringValue);
      if subjectValue == [] then None else Some(SM.SubjectInfo(subjectValue, file))
  }

  /**
   * `getInfo`: only a leaf that is the name identifier of a target named
   * `subject` inside an assignment can get the marker, and only when its
   * file does not already carry the converted name.
   */
  function GetInfo(cc: SM.CharClasses, element: Element): (r: Option<SM.Marker>)
    ensures element.shape.Inner? ==> r.None?
    ensures r.Some? <==>
      && element.shape.Leaf? && element.shape.isNameIdentifier
      && element.shape.parent.TargetNode?
      && element.shape.parent.targetName == Some("subject")
      && element.shape.parent.enclosingAssignment.Some?
      && var info := ExtractSubjectInfo(element.shape.parent.enclosingAssignment.value, element.file);
         info.Some? && FileName(element.file) != SM.ConvertSubjectToFilename(cc, info.value.subjectValue)
    ensures r.Some? ==>
      && element.shape.Leaf? && element.shape.parent.TargetNode? && element.shape.parent.enclosingAssignment.Some?
      && r.value.info == ExtractSubjectInfo(element.shape.parent.enclosingAssignment.value, element.file).value
  {
    match element.shape
    case Inner(_) => None
    case Leaf(parent, isNameIdentifier) =>
      if !parent.TargetNode? || !isNameIdentifier || parent.targetName != Some("subject") then None
      else if parent.enclosingAssignment == None then None
      else
        var subjectInfo := ExtractSubjectInfo(parent.enclosingAssignment.value, element.file);
        if subjectInfo == None then None
        else if FileName(subjectInfo.value.file) == SM.ConvertSubjectToFilename(cc, subjectInfo.value.subjectValue) then None
        else Some(SM.RenameMarker(subjectInfo.value))
  }

  /**
   * For the usual `subject = "..."` assignment, the leaf-based marker of this
   * revision and the statement-based marker of the earlier one agree.
   */
  lemma AgreesWithEarlierRevision(cc: SM.CharClasses, assignment: Assignment, file: Path)
    requires |assignment.targets| > 0 && assignment.targets[0] == TargetExpression(Some("subject"))
    ensures GetInfo(cc, Element(Leaf(TargetNode(Some("subject"), Some(assignment)), true), file))
         == SM.GetInfo(cc, Element(Inner(AssignmentNode(assignment)), file))
  {
  }

  /** Whenever this revision shows the marker, its action has a rename to do. */
  lemma MarkerImpliesRename(cc: SM.CharClasses, element: Element)
    requires GetInfo(cc, element).Some?
    ensures SM.RenameDecision(cc, GetInfo(cc, element).value.info).RenameTo?
  {
  }

  /**
   * Once the file carries the converted name this revision's marker
   * disappears too and a second rename would be skipped.
   */
  lemma RenameIsFixpoint(cc: SM.CharClasses, element: Element)
    requires GetInfo(cc, element).Some? && element.file != []
    ensures var info := GetInfo(cc, element).value.info;
      var renamed := Element(element.shape, Parent(element.file) + [SM.ConvertSubjectToFilename(cc, info.subjectValue)]);
      && GetInfo(cc, renamed).None?
      && SM.RenameDecision(cc, SM.SubjectInfo(info.subjectValue, renamed.file)) == SM.Skip
  {
    var info := GetInfo(cc, element).value.info;
    var renamed := Element(element.shape, Parent(element.file) + [SM.ConvertSubjectToFilename(cc, info.subjectValue)]);
    assert FileName(renamed.file) == SM.ConvertSubjectToFilename(cc, info.subjectValue);
  }
}
