/**
 * The "rename file to match subject" gutter marker
 * (VedroSubjectLineMarkerContributor.java): turning a scenario's `subject`
 * string into a file name, deciding whether a marker is shown, and the check
 * that skips the rename when the name already matches.
 */
module SubjectMarker {
  import opened Wrappers
  import opened Paths
  import opened Psi
  import TestUtils

  /**
   * The Unicode tables the conversion consults, left abstract: `\p{L}`,
   * `\p{N}`, and lower-casing of one character (which may give several).
   */
  datatype CharClasses = CharClasses(
    isLetter: char -> bool,
    isNumber: char -> bool,
    lower: char -> string)

  /** Java's `\s` without the UNICODE_CHARACTER_CLASS flag: [ \t\n\x0B\f\r]. */
  predicate IsWhitespace(c: char)
  {
    c == ' ' || c == '\t' || c == '\n' || c == '\U{B}' || c == '\U{C}' || c == '\r'
  }

  /** The characters `[\p{L}\p{N}_\-\(\)]` keeps. */
  predicate Allowed(cc: CharClasses, c: char)
  {
    cc.isLetter(c) || cc.isNumber(c) || c == '_' || c == '-' || c == '(' || c == ')'
  }

  /** `toLowerCase`, character by character. */
  function Lowered(cc: CharClasses, s: string): string
  {
    if s == [] then [] else cc.lower(s[0]) + Lowered(cc, s[1..])
  }

  /** `s` without its leading run of whitespace. */
  function SkipWhitespace(s: string): (r: string)
    ensures |r| <= |s|
  {
    if s != [] && IsWhitespace(s[0]) then SkipWhitespace(s[1..]) else s
  }

  /** `replaceAll("\\s+", "_")`: every maximal run of whitespace becomes one '_'. */
  function CollapseWhitespace(s: string): string
    decreases |s|
  {
    if s == [] then []
    else if IsWhitespace(s[0]) then "_" + CollapseWhitespace(SkipWhitespace(s[1..]))
    else [s[0]] + CollapseWhitespace(s[1..])
  }

  /** `replaceAll("[^\\p{L}\\p{N}_\\-\\(\\)]", "")`: drop every character not allowed. */
  function KeepAllowed(cc: CharClasses, s: string): string
  {
    if s == [] then []
    else (if Allowed(cc, s[0]) then [s[0]] else []) + KeepAllowed(cc, s[1..])
  }

  /** The file name without its extension: lowered, whitespace collapsed, filtered. */
  function Stem(cc: CharClasses, subject: string): string
  {
    KeepAllowed(cc, CollapseWhitespace(Lowered(cc, subject)))
  }

  /**
   * `convertSubjectToFilename`: the stem with ".py" appended, or
   * "untitled.py" when nothing is left of the subject.
   */
  function ConvertSubjectToFilename(cc: CharClasses, subject: string): (r: string)
    ensures |r| > 3 && r[|r| - 3..] == ".py"
    ensures r == "untitled.py" <==> Stem(cc, subject) == [] || Stem(cc, subject) == "untitled"
    ensures Stem(cc, subject) != [] ==> r[..|r| - 3] == Stem(cc, subject)
  {
    var filtered := Stem(cc, subject);
    if filtered == [] then "untitled.py" else filtered + ".py"
  }

  predicate IsSubsequence(a: string, b: string)
    decreases |a| + |b|
  {
    if a == [] then true
    else if b == [] then false
    else if a[0] == b[0] then IsSubsequence(a[1..], b[1..])
    else IsSubsequence(a, b[1..])
  }

  lemma {:induction false} KeepAllowedMeaning(cc: CharClasses, s: string)
    ensures forall i :: 0 <= i < |KeepAllowed(cc, s)| ==> Allowed(cc, KeepAllowed(cc, s)[i])
    ensures IsSubsequence(KeepAllowed(cc, s), s)
    ensures (forall i :: 0 <= i < |s| ==> Allowed(cc, s[i])) ==> KeepAllowed(cc, s) == s
  {
    if s != [] {
      KeepAllowedMeaning(cc, s[1..]);
      var rest := KeepAllowed(cc, s[1..]);
      if Allowed(cc, s[0]) {
        assert KeepAllowed(cc, s) == [s[0]] + rest;
        assert (([s[0]] + rest)[1..]) == rest;
      } else {
        assert KeepAllowed(cc, s) == rest;
        SubsequenceOfTail(rest, s);
      }
      if forall i :: 0 <= i < |s| ==> Allowed(cc, s[i]) {
        assert forall i :: 0 <= i < |s[1..]| ==> Allowed(cc, s[1..][i]) by {
          forall i | 0 <= i < |s[1..]| ensures Allowed(cc, s[1..][i]) {
            assert s[1..][i] == s[i + 1];
          }
        }
      }
    }
  }

  /** The number of characters of `s` that the filter keeps. */
  function AllowedCount(cc: CharClasses, s: string): nat
  {
    if s == [] then 0 else (if Allowed(cc, s[0]) then 1 else 0) + AllowedCount(cc, s[1..])
  }

  /**
   * Nothing allowed is dropped: the filter keeps as many characters as `s`
   * has allowed ones, and leaves nothing exactly when none is allowed.
   */
  lemma {:induction false} KeepAllowedKeepsEvery(cc: CharClasses, s: string)
    ensures |KeepAllowed(cc, s)| == AllowedCount(cc, s)
    ensures KeepAllowed(cc, s) == [] <==> forall i :: 0 <= i < |s| ==> !Allowed(cc, s[i])
  {
    if s != [] {
      KeepAllowedKeepsEvery(cc, s[1..]);
      if forall i :: 0 <= i < |s[1..]| ==> !Allowed(cc, s[1..][i]) {
        if !Allowed(cc, s[0]) {
          forall i | 0 <= i < |s| ensures !Allowed(cc, s[i]) {
            if i > 0 { assert s[i] == s[1..][i - 1]; }
          }
        }
      } else {
        var i :| 0 <= i < |s[1..]| && Allowed(cc, s[1..][i]);
        assert s[i + 1] == s[1..][i];
      }
    }
  }

  lemma {:induction false} SubsequenceOfTail(a: string, b: string)
    requires b != [] && IsSubsequence(a, b[1..])
    ensures IsSubsequence(a, b)
    decreases |a| + |b|
  {
    if a != [] && a[0] == b[0] {
      // a[1..] is a subsequence of a, hence of b[1..]
      SubsequenceDropHead(a, b[1..]);
    }
  }

  lemma {:induction false} SubsequenceDropHead(a: string, b: string)
    requires a != [] && IsSubsequence(a, b)
    ensures IsSubsequence(a[1..], b)
    decreases |a| + |b|
  {
    if b != [] {
      if a[0] == b[0] {
        if a[1..] != [] {
          SubsequenceOfTail(a[1..], b);
        }
      } else {
        SubsequenceDropHead(a, b[1..]);
        if a[1..] != [] {
          SubsequenceOfTail(a[1..], b);
        }
      }
    }
  }

  predicate NoWhitespace(s: string)
  {
    forall i :: 0 <= i < |s| ==> !IsWhitespace(s[i])
  }

  predicate AllWhitespace(s: string)
  {
    forall i :: 0 <= i < |s| ==> IsWhitespace(s[i])
  }

  lemma {:induction false} CollapseNoWhitespace(s: string)
    ensures NoWhitespace(CollapseWhitespace(s))
    decreases |s|
  {
    if s != [] {
      if IsWhitespace(s[0]) {
        CollapseNoWhitespace(SkipWhitespace(s[1..]));
      } else {
        CollapseNoWhitespace(s[1..]);
      }
    }
  }

  /** Text without whitespace passes through unchanged. */
  lemma {:induction false} CollapseIdentity(s: string)
    requires NoWhitespace(s)
    ensures CollapseWhitespace(s) == s
  {
    if s != [] {
      assert !IsWhitespace(s[0]);
      assert NoWhitespace(s[1..]) by {
        forall i | 0 <= i < |s[1..]| ensures !IsWhitespace(s[1..][i]) {
          assert s[1..][i] == s[i + 1];
        }
      }
      CollapseIdentity(s[1..]);
    }
  }

  /** A whole run of whitespace, however long, becomes one '_'. */
  lemma {:induction false} SkipWhitespaceMeaning(s: string)
    ensures AllWhitespace(s) <==> SkipWhitespace(s) == []
    ensures !StartsWithWhitespace(SkipWhitespace(s))
    ensures !AllWhitespace(s) ==> !EndsWithWhitespace(s) ==> !EndsWithWhitespace(SkipWhitespace(s))
  {
    if s != [] && IsWhitespace(s[0]) {
      SkipWhitespaceMeaning(s[1..]);
      AllWhitespaceCons(s);
      if !EndsWithWhitespace(s) {
        assert s[|s| - 1] == s[1..][|s[1..]| - 1] || |s| == 1;
      }
    }
  }

  lemma AllWhitespaceCons(s: string)
    requires s != []
    ensures AllWhitespace(s) <==> IsWhitespace(s[0]) && AllWhitespace(s[1..])
  {
    if IsWhitespace(s[0]) && AllWhitespace(s[1..]) {
      forall i | 0 <= i < |s| ensures IsWhitespace(s[i]) {
        if i > 0 { assert s[i] == s[1..][i - 1]; }
      }
    }
    if AllWhitespace(s) {
      forall i | 0 <= i < |s[1..]| ensures IsWhitespace(s[1..][i]) {
        assert s[1..][i] == s[i + 1];
      }
    }
  }

  /** A whole run of whitespace, however long, becomes one '_'. */
  lemma CollapseRun(w: string)
    requires w != [] && AllWhitespace(w)
    ensures CollapseWhitespace(w) == "_"
  {
    AllWhitespaceCons(w);
    SkipWhitespaceMeaning(w[1..]);
  }

  lemma {:induction false} SkipAppend(x: string, y: string)
    ensures AllWhitespace(x) ==> SkipWhitespace(x + y) == SkipWhitespace(y)
    ensures !AllWhitespace(x) ==> SkipWhitespace(x + y) == SkipWhitespace(x) + y
  {
    if x == [] {
      assert x + y == y;
    } else {
      AllWhitespaceCons(x);
      assert (x + y)[0] == x[0];
      if IsWhitespace(x[0]) {
        assert (x + y)[1..] == x[1..] + y;
        SkipAppend(x[1..], y);
      }
    }
  }

  predicate EndsWithWhitespace(s: string)
  {
    s != [] && IsWhitespace(s[|s| - 1])
  }

  predicate StartsWithWhitespace(s: string)
  {
    s != [] && IsWhitespace(s[0])
  }

  /**
   * Collapsing distributes over a cut that does not split a whitespace run:
   * the replacement works run by run.
   */
  lemma {:induction false} CollapseAppend(x: string, y: string)
    requires !EndsWithWhitespace(x) || !StartsWithWhitespace(y)
    ensures CollapseWhitespace(x + y) == CollapseWhitespace(x) + CollapseWhitespace(y)
    decreases |x|
  {
    if x == [] {
      assert x + y == y;
    } else {
      assert (x + y)[0] == x[0];
      assert (x + y)[1..] == x[1..] + y;
      if IsWhitespace(x[0]) {
        CollapseWhitespaceHead(x + y);
        SkipAppend(x[1..], y);
        SkipWhitespaceMeaning(x[1..]);
        var sx := SkipWhitespace(x[1..]);
        if AllWhitespace(x[1..]) {
          AllWhitespaceCons(x);
          assert EndsWithWhitespace(x);
          SkipWhitespaceMeaning(y);
          assert SkipWhitespace(y) == y by {
            if y != [] { assert !IsWhitespace(y[0]); }
          }
        } else {
          assert !EndsWithWhitespace(x[1..]) || !StartsWithWhitespace(y) by {
            if |x| > 1 { assert x[1..][|x[1..]| - 1] == x[|x| - 1]; }
          }
          CollapseAppend(sx, y);
        }
      } else {
        assert !EndsWithWhitespace(x[1..]) || !StartsWithWhitespace(y) by {
          if |x| > 1 { assert x[1..][|x[1..]| - 1] == x[|x| - 1]; }
        }
        CollapseAppend(x[1..], y);
      }
    }
  }

  lemma CollapseWhitespaceHead(s: string)
    requires s != [] && IsWhitespace(s[0])
    ensures CollapseWhitespace(s) == "_" + CollapseWhitespace(SkipWhitespace(s[1..]))
  {
  }

  /**
   * Each maximal whitespace run becomes a single '_': for text cut as
   * `a + w + b` with `w` a run that neither neighbour continues.
   */
  lemma MaximalRunBecomesUnderscore(a: string, w: string, b: string)
    requires !EndsWithWhitespace(a) && !StartsWithWhitespace(b)
    requires w != [] && AllWhitespace(w)
    ensures CollapseWhitespace(a + w + b) == CollapseWhitespace(a) + "_" + CollapseWhitespace(b)
  {
    CollapseRun(w);
    CollapseAppend(w, b);
    assert CollapseWhitespace(w + b) == "_" + CollapseWhitespace(b);
    CollapseAppend(a, w + b);
    assert a + w + b == a + (w + b);
  }

  /**
   * The stem holds only letters, digits, '_', '-', '(' and ')', no
   * whitespace, and is an order-preserving subsequence of the lowered,
   * underscore-replaced subject that keeps every allowed character of it:
   * it is empty exactly when that text has no allowed character.
   */
  lemma StemMeaning(cc: CharClasses, subject: string)
    ensures forall i :: 0 <= i < |Stem(cc, subject)| ==> Allowed(cc, Stem(cc, subject)[i])
    ensures NoWhitespace(Stem(cc, subject))
    ensures IsSubsequence(Stem(cc, subject), CollapseWhitespace(Lowered(cc, subject)))
    ensures |Stem(cc, subject)| == AllowedCount(cc, CollapseWhitespace(Lowered(cc, subject)))
    ensures var c := CollapseWhitespace(Lowered(cc, subject));
      Stem(cc, subject) == [] <==> forall i :: 0 <= i < |c| ==> !Allowed(cc, c[i])
  {
    var collapsed := CollapseWhitespace(Lowered(cc, subject));
    KeepAllowedMeaning(cc, collapsed);
    KeepAllowedKeepsEvery(cc, collapsed);
    CollapseNoWhitespace(Lowered(cc, subject));
    SubsequencePreservesNoWhitespace(Stem(cc, subject), collapsed);
  }

  lemma {:induction false} SubsequencePreservesNoWhitespace(a: string, b: string)
    requires IsSubsequence(a, b) && NoWhitespace(b)
    ensures NoWhitespace(a)
    decreases |a| + |b|
  {
    if a != [] && b != [] {
      assert NoWhitespace(b[1..]) by {
        forall i | 0 <= i < |b[1..]| ensures !IsWhitespace(b[1..][i]) {
          assert b[1..][i] == b[i + 1];
        }
      }
      if a[0] == b[0] {
        SubsequencePreservesNoWhitespace(a[1..], b[1..]);
        forall i | 0 <= i < |a| ensures !IsWhitespace(a[i]) {
          if i > 0 { assert a[i] == a[1..][i - 1]; }
        }
      } else {
        SubsequencePreservesNoWhitespace(a, b[1..]);
      }
    }
  }

  // String.trim: strip every character up to U+0020 from both ends.

  function TrimStart(s: string): (r: string)
    ensures |r| <= |s| && r == s[|s| - |r|..]
    ensures r == [] || r[0] > ' '
    ensures forall k :: 0 <= k < |s| - |r| ==> s[k] <= ' '
  {
    if s != [] && s[0] <= ' ' then TrimStart(s[1..]) else s
  }

  function TrimEnd(s: string): (r: string)
    ensures |r| <= |s| && r == s[..|r|]
    ensures r == [] || r[|r| - 1] > ' '
    ensures forall k :: |r| <= k < |s| ==> s[k] <= ' '
  {
    if s != [] && s[|s| - 1] <= ' ' then TrimEnd(s[..|s| - 1]) else s
  }

  /**
   * `trim()`: the slice of `s` left after removing the characters up to
   * U+0020 at either end; what is left starts and ends above U+0020.
   */
  function Trim(s: string): (r: string)
    ensures exists i, j :: 0 <= i <= j <= |s| && r == s[i..j]
              && (forall k :: 0 <= k < i ==> s[k] <= ' ')
              && (forall k :: j <= k < |s| ==> s[k] <= ' ')
    ensures r == [] || (r[0] > ' ' && r[|r| - 1] > ' ')
  {
    var front := TrimStart(s);
    var r := TrimEnd(front);
    var i := |s| - |front|;
    assert r == s[i..i + |r|];
    assert r != [] ==> r[0] == front[0];
    r
  }

  /** What the marker remembers: the trimmed subject and the scenario's file. */
  datatype SubjectInfo = SubjectInfo(subjectValue: string, file: Path)

  /**
   * `extractSubjectInfo`: the assignment's first target is a target
   * expression named `subject`, it sits in a scenario class, its value is a
   * string literal, and the trimmed value is not empty.
   */
  function ExtractSubjectInfo(assignment: Assignment, file: Path): (r: Option<SubjectInfo>)
    ensures r.Some? <==>
      && |assignment.targets| > 0
      && assignment.targets[0] == TargetExpression(Some("subject"))
      && assignment.enclosingClass.Some? && assignment.enclosingClass.value.subclassesScenario
      && assignment.value.StringLiteral?
      && Trim(assignment.value.stringValue) != []
    ensures r.Some? ==> r.value.subjectValue == Trim(assignment.value.stringValue) && r.value.file == file
  {
    var targets := assignment.targets;
    if |targets| == 0 || !targets[0].TargetExpression? then None
    else if ValueOf(targets[0].name) != "subject" then None
    else
      var cls := assignment.enclosingClass;
      if cls == None || !TestUtils.IsScenarioClass(cls.value) then None
      else if !assignment.value.StringLiteral? then None
      else
        var subjectValue := Trim(assignment.value.stringValue);
        if subjectValue == [] then None else Some(SubjectInfo(subjectValue, file))
  }

  /** The rename marker, carrying what its action will rename. */
  datatype Marker = RenameMarker(info: SubjectInfo)

  /**
   * `getInfo`: a marker for an assignment statement whose subject is
   * recognised and whose file is not already named after the subject.
   */
  function GetInfo(cc: CharClasses, element: Element): (r: Option<Marker>)
    ensures r.Some? <==>
      && element.shape.Inner? && element.shape.node.AssignmentNode?
      && ExtractSubjectInfo(element.shape.node.assign, element.file).Some?
      && FileName(element.file)
         != ConvertSubjectToFilename(cc, ExtractSubjectInfo(element.shape.node.assign, element.file).value.subjectValue)
    ensures r.Some? ==> r.value.info == ExtractSubjectInfo(element.shape.node.assign, element.file).value
  {
    match element.shape
    case Inner(AssignmentNode(assignment)) =>
      var subjectInfo := ExtractSubjectInfo(assignment, element.file);
      if subjectInfo == None then None
      else if FileName(subjectInfo.value.file) == ConvertSubjectToFilename(cc, subjectInfo.value.subjectValue) then None
      else Some(RenameMarker(subjectInfo.value))
    case _ => None
  }

  /** What the rename action does; the write action itself is not modelled. */
  datatype RenameAction = Skip | RenameTo(file: Path, newName: string)

  /** `renameFileFromSubject` up to the write action: skip when the name already matches. */
  function RenameDecision(cc: CharClasses, info: SubjectInfo): (r: RenameAction)
    ensures r == Skip <==> FileName(info.file) == ConvertSubjectToFilename(cc, info.subjectValue)
    ensures r.RenameTo? ==> r.file == info.file && r.newName == ConvertSubjectToFilename(cc, info.subjectValue)
  {
    var newFilename := ConvertSubjectToFilename(cc, info.subjectValue);
    if FileName(info.file) == newFilename then Skip else RenameTo(info.file, newFilename)
  }

  /** Whenever the marker is shown, its action has a rename to do. */
  lemma MarkerImpliesRename(cc: CharClasses, element: Element)
    requires GetInfo(cc, element).Some?
    ensures RenameDecision(cc, GetInfo(cc, element).value.info).RenameTo?
  {
  }

  /**
   * Once the file carries the converted name the marker disappears and a
   * second rename would be skipped.
   */
  lemma RenameIsFixpoint(cc: CharClasses, element: Element)
    requires GetInfo(cc, element).Some? && element.file != []
    ensures var info := GetInfo(cc, element).value.info;
      var renamed := Element(element.shape, Parent(element.file) + [ConvertSubjectToFilename(cc, info.subjectValue)]);
      && GetInfo(cc, renamed).None?
      && RenameDecision(cc, SubjectInfo(info.subjectValue, renamed.file)) == Skip
  {
    var info := GetInfo(cc, element).value.info;
    var renamed := Element(element.shape, Parent(element.file) + [ConvertSubjectToFilename(cc, info.subjectValue)]);
    assert FileName(renamed.file) == ConvertSubjectToFilename(cc, info.subjectValue);
  }
}
