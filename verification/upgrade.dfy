/** The upgrade script's edit of the file that names the default Rollouts version, and how it
    reads that version back. */
module Upgrade {
  import opened GoTypes
  import opened GoStrings

  const MARKER := "DefaultArgoRolloutsVersion"
  const ASSIGNMENT := "\t" + MARKER + " = \""
  const COMMENT := "\" // "

  function VersionLine(tag: string): string {
    ASSIGNMENT + tag + COMMENT + tag
  }

  function NewLine(line: string, tag: string): string {
    if Contains(line, MARKER) then VersionLine(tag) else line
  }

  function NewLines(lines: seq<string>, tag: string): seq<string> {
    seq(|lines|, i requires 0 <= i < |lines| => NewLine(lines[i], tag))
  }

  /** Every line, each ended by a newline. */
  function Written(lines: seq<string>): string {
    if lines == [] then "" else lines[0] + ['\n'] + Written(lines[1..])
  }

  function Regenerated(text: string, tag: string): string {
    Written(NewLines(Split(text, '\n'), tag))
  }

  /** The version on the first marker line that has a slash. */
  function VersionIn(lines: seq<string>): Option<string> {
    if lines == [] then None
    else if Contains(lines[0], MARKER) && LastIndex(lines[0], '/').Some? then
      Some(TrimSpace(lines[0][LastIndex(lines[0], '/').value + 1..]))
    else VersionIn(lines[1..])
  }

  function Extracted(text: string): Option<string> {
    VersionIn(Split(text, '\n'))
  }

  method ExtractCurrentTargetVersion(text: string) returns (version: Option<string>)
    ensures version == Extracted(text)
  {
    var lines := Split(text, '\n');
    for i := 0 to |lines|
      invariant VersionIn(lines[i..]) == VersionIn(lines)
    {
      var line := lines[i];
      assert lines[i..][1..] == lines[i + 1..];
      if Contains(line, MARKER) {
        var slash := LastIndex(line, '/');
        if slash.Some? {
          return Some(TrimSpace(line[slash.value + 1..]));
        }
      }
    }
    version := None;
  }

  method RegenerateControllersDefaultGo(tag: string, text: string) returns (res: string)
    ensures res == Regenerated(text, tag)
  {
    res := "";
    var lines := Split(text, '\n');
    for i := 0 to |lines|
      invariant res == Written(NewLines(lines[..i], tag))
    {
      WrittenPush(NewLines(lines[..i], tag), NewLine(lines[i], tag));
      assert NewLines(lines[..i + 1], tag) == NewLines(lines[..i], tag) + [NewLine(lines[i], tag)];
      if Contains(lines[i], MARKER) {
        res := res + (ASSIGNMENT + tag + COMMENT + tag + ['\n']);
      } else {
        res := res + (lines[i] + ['\n']);
      }
    }
    assert lines[..|lines|] == lines;
  }

  lemma {:induction false} WrittenPush(lines: seq<string>, last: string)
    ensures Written(lines + [last]) == Written(lines) + (last + ['\n'])
  {
    if lines == [] {
      assert Written([last]) == last + ['\n'] + "";
    } else {
      WrittenPush(lines[1..], last);
      assert (lines + [last])[1..] == lines[1..] + [last];
      assert lines[0] + ['\n'] + (Written(lines[1..]) + (last + ['\n'])) ==
             (lines[0] + ['\n'] + Written(lines[1..])) + (last + ['\n']);
    }
  }

  /** The written text has the same lines again, and an empty one at the end. */
  lemma {:induction false} SplitWritten(lines: seq<string>)
    requires forall line | line in lines :: '\n' !in line
    ensures Split(Written(lines), '\n') == lines + [""]
  {
    if lines != [] {
      SplitWritten(lines[1..]);
      SplitAppend(lines[0], Written(lines[1..]), '\n');
      assert [lines[0]] + (lines[1..] + [""]) == lines + [""];
    }
  }

  lemma VersionLineHasNoBreak(tag: string)
    requires '\n' !in tag
    ensures '\n' !in VersionLine(tag)
  {
    assert '\n' !in ASSIGNMENT && '\n' !in COMMENT;
  }

  lemma RegeneratedLines(text: string, tag: string)
    requires '\n' !in tag
    ensures Split(Regenerated(text, tag), '\n') == NewLines(Split(text, '\n'), tag) + [""]
  {
    VersionLineHasNoBreak(tag);
    SplitWritten(NewLines(Split(text, '\n'), tag));
  }

  lemma VersionLineByName(tag: string)
    ensures VersionLine(tag) == "\tDefaultArgoRolloutsVersion = \"" + tag + "\" // " + tag
  {
    assert ASSIGNMENT == "\tDefaultArgoRolloutsVersion = \"";
  }

  /** The regenerated file has the marker lines replaced, all other lines kept in their order,
      and one more empty line than before. */
  lemma OtherLinesAreKept(text: string, tag: string)
    requires '\n' !in tag
    ensures var before, after := Split(text, '\n'), Split(Regenerated(text, tag), '\n');
            |after| == |before| + 1 && after[|before|] == "" &&
            forall i | 0 <= i < |before| ::
              after[i] == if Contains(before[i], "DefaultArgoRolloutsVersion")
                          then "\tDefaultArgoRolloutsVersion = \"" + tag + "\" // " + tag
                          else before[i]
  {
    RegeneratedLines(text, tag);
    VersionLineByName(tag);
  }

  // ----- Reading the version back -----

  lemma {:induction false} TrimLeftIsTail(s: string)
    ensures exists i | 0 <= i <= |s| :: TrimLeft(s) == s[i..]
    ensures TrimLeft(s) != "" ==> !Blank(TrimLeft(s)[0])
  {
    if s != "" && Blank(s[0]) {
      TrimLeftIsTail(s[1..]);
      var i :| 0 <= i <= |s[1..]| && TrimLeft(s[1..]) == s[1..][i..];
      assert TrimLeft(s) == s[i + 1..];
    } else {
      assert s == s[0..];
    }
  }

  lemma {:induction false} TrimRightIsHead(s: string)
    ensures exists i | 0 <= i <= |s| :: TrimRight(s) == s[..i]
    ensures TrimRight(s) != "" ==> !Blank(TrimRight(s)[|TrimRight(s)| - 1])
  {
    if s != "" && Blank(s[|s| - 1]) {
      var front := s[..|s| - 1];
      TrimRightIsHead(front);
      var i :| 0 <= i <= |front| && TrimRight(front) == front[..i];
      assert TrimRight(s) == s[..i];
    } else {
      assert s == s[..|s|];
    }
  }

  lemma TrimSpaceTrims(s: string)
    ensures Trimmed(TrimSpace(s))
    ensures forall c | c in TrimSpace(s) :: c in s
  {
    TrimLeftIsTail(s);
    TrimRightIsHead(TrimLeft(s));
  }

  ghost predicate Clean(version: string) {
    '/' !in version && '\n' !in version && Trimmed(version)
  }

  lemma LastFieldIsClean(line: string, slash: nat)
    requires '\n' !in line && LastIndex(line, '/') == Some(slash)
    ensures Clean(TrimSpace(line[slash + 1..]))
  {
    TrimSpaceTrims(line[slash + 1..]);
    forall c | c in line[slash + 1..] ensures c in line {
    }
  }

  /** Whatever is read as a version has no slash, no newline and no surrounding blanks. */
  lemma {:induction false} VersionIsClean(lines: seq<string>)
    requires forall line | line in lines :: '\n' !in line
    ensures VersionIn(lines).Some? ==> Clean(VersionIn(lines).value)
  {
    if lines != [] {
      if Contains(lines[0], MARKER) && LastIndex(lines[0], '/').Some? {
        LastFieldIsClean(lines[0], LastIndex(lines[0], '/').value);
      } else {
        VersionIsClean(lines[1..]);
      }
    }
  }

  /** The version stands after the last slash of the line, with nothing but white space around it. */
  predicate IsNamed(line: string, version: string, head: string, tail: string, left: string, right: string) {
    line == head + ['/'] + tail && '/' !in tail && IsCore(tail, left, version, right)
  }

  ghost predicate Names(line: string, version: string) {
    Contains(line, "DefaultArgoRolloutsVersion") &&
    exists head, tail, left, right :: IsNamed(line, version, head, tail, left, right)
  }

  lemma NamedIsRead(line: string, version: string, head: string, tail: string, left: string, right: string)
    requires IsNamed(line, version, head, tail, left, right)
    ensures LastIndex(line, '/') == Some(|head|) && TrimSpace(line[|head| + 1..]) == version
  {
    LastIndexIs(head, '/', tail);
    TrimExactly(tail, version);
    assert line[|head| + 1..] == tail;
  }

  lemma ReadIsNamed(line: string, at: nat, tail: string, version: string) returns (left: string, right: string)
    requires LastIndex(line, '/') == Some(at) && tail == line[at + 1..] && TrimSpace(tail) == version
    ensures IsNamed(line, version, line[..at], tail, left, right)
  {
    TrimExactly(tail, version);
    left, right :| IsCore(tail, left, version, right);
    assert line == line[..at] + ['/'] + tail;
  }

  lemma NamesExactly(line: string, version: string)
    ensures Names(line, version) <==>
            Contains(line, MARKER) && LastIndex(line, '/').Some? &&
            TrimSpace(line[LastIndex(line, '/').value + 1..]) == version
  {
    if LastIndex(line, '/').Some? {
      var tail := line[LastIndex(line, '/').value + 1..];
      var left, right := ReadIsNamed(line, LastIndex(line, '/').value, tail, TrimSpace(tail));
    }
    if head, tail, left, right :| IsNamed(line, version, head, tail, left, right) {
      NamedIsRead(line, version, head, tail, left, right);
    }
  }

  ghost predicate FirstNames(lines: seq<string>, i: nat, version: string)
    requires i < |lines|
  {
    Names(lines[i], version) && forall j, other | 0 <= j < i :: !Names(lines[j], other)
  }

  /** The version that is read is the one that the first line that names any names. */
  lemma {:induction false} FirstLineDecides(lines: seq<string>, version: string)
    ensures VersionIn(lines) == Some(version) <==> exists i | 0 <= i < |lines| :: FirstNames(lines, i, version)
  {
    if lines != [] {
      forall other ensures Names(lines[0], other) <==>
          Contains(lines[0], MARKER) && LastIndex(lines[0], '/').Some? &&
          TrimSpace(lines[0][LastIndex(lines[0], '/').value + 1..]) == other {
        NamesExactly(lines[0], other);
      }
      if Contains(lines[0], MARKER) && LastIndex(lines[0], '/').Some? {
        var first := TrimSpace(lines[0][LastIndex(lines[0], '/').value + 1..]);
        assert FirstNames(lines, 0, first);
      } else {
        FirstLineDecides(lines[1..], version);
        forall i | 0 <= i < |lines| - 1
          ensures FirstNames(lines[1..], i, version) <==> FirstNames(lines, i + 1, version)
        {
          FirstNamesShifts(lines, i, version);
        }
        LaterNames(lines, version);
      }
    }
  }

  lemma FirstNamesShifts(lines: seq<string>, i: nat, version: string)
    requires i + 1 < |lines| && forall other :: !Names(lines[0], other)
    ensures FirstNames(lines[1..], i, version) <==> FirstNames(lines, i + 1, version)
  {
    if FirstNames(lines[1..], i, version) {
      forall j, other | 0 <= j < i + 1 ensures !Names(lines[j], other) {
        assert j > 0 ==> lines[1..][j - 1] == lines[j];
      }
    }
    if FirstNames(lines, i + 1, version) {
      forall j, other | 0 <= j < i ensures !Names(lines[1..][j], other) {
        assert lines[1..][j] == lines[j + 1];
      }
    }
  }

  lemma LaterNames(lines: seq<string>, version: string)
    requires lines != [] && !Names(lines[0], version)
    requires forall i | 0 <= i < |lines| - 1 ::
               FirstNames(lines[1..], i, version) <==> FirstNames(lines, i + 1, version)
    ensures (exists i | 0 <= i < |lines| :: FirstNames(lines, i, version)) <==>
            (exists i | 0 <= i < |lines[1..]| :: FirstNames(lines[1..], i, version))
  {
    if i :| 0 <= i < |lines| && FirstNames(lines, i, version) {
      assert FirstNames(lines[1..], i - 1, version);
    }
    if i :| 0 <= i < |lines[1..]| && FirstNames(lines[1..], i, version) {
      assert FirstNames(lines, i + 1, version);
    }
  }

  lemma VersionLineHasMarker(tag: string)
    ensures Contains(VersionLine(tag), MARKER)
  {
    assert VersionLine(tag)[1..1 + |MARKER|] == MARKER;
    assert OccursAt(VersionLine(tag), MARKER, 1);
  }

  lemma TrimmedStays(tag: string)
    requires Trimmed(tag)
    ensures TrimSpace([' '] + tag) == tag
  {
    var s := [' '] + tag;
    assert s[1..] == tag && Blank(s[0]);
    assert TrimLeft(s) == TrimLeft(tag) == tag;
    assert TrimRight(tag) == tag;
  }

  lemma {:induction false} LastIndexIs(head: string, c: char, tail: string)
    requires c !in tail
    ensures LastIndex(head + [c] + tail, c) == Some(|head|)
  {
    var s := head + [c] + tail;
    if tail == "" {
      assert s[|s| - 1] == c;
    } else {
      assert s[..|s| - 1] == head + [c] + tail[..|tail| - 1];
      LastIndexIs(head, c, tail[..|tail| - 1]);
      assert s[|s| - 1] == tail[|tail| - 1];
    }
  }

  lemma VersionLineReads(tag: string)
    requires '/' !in tag && Trimmed(tag)
    ensures LastIndex(VersionLine(tag), '/').Some?
    ensures TrimSpace(VersionLine(tag)[LastIndex(VersionLine(tag), '/').value + 1..]) == tag
  {
    var head, tail := ASSIGNMENT + tag + "\" /", [' '] + tag;
    assert VersionLine(tag) == head + ['/'] + tail;
    LastIndexIs(head, '/', tail);
    assert VersionLine(tag)[|head| + 1..] == tail;
    TrimmedStays(tag);
  }

  lemma {:induction false} NewLinesRead(lines: seq<string>, tag: string)
    requires '/' !in tag && Trimmed(tag)
    ensures VersionIn(NewLines(lines, tag) + [""]) ==
            if exists line | line in lines :: Contains(line, MARKER) then Some(tag) else None
  {
    var all := NewLines(lines, tag) + [""];
    if lines == [] {
      assert !Contains("", MARKER);
    } else {
      assert all[0] == NewLine(lines[0], tag);
      assert all[1..] == NewLines(lines[1..], tag) + [""];
      if Contains(lines[0], MARKER) {
        FirstVersionReads(all, tag);
        assert lines[0] in lines;
      } else {
        NewLinesRead(lines[1..], tag);
        assert forall line | line in lines :: line == lines[0] || line in lines[1..];
      }
    }
  }

  lemma FirstVersionReads(all: seq<string>, tag: string)
    requires '/' !in tag && Trimmed(tag) && all != [] && all[0] == VersionLine(tag)
    ensures VersionIn(all) == Some(tag)
  {
    VersionLineHasMarker(tag);
    VersionLineReads(tag);
  }

  predicate HasMarker(text: string) {
    exists line | line in Split(text, '\n') :: Contains(line, MARKER)
  }

  lemma {:induction false} NothingReplaced(lines: seq<string>, tag: string)
    requires forall line | line in lines :: !Contains(line, MARKER)
    ensures NewLines(lines, tag) == lines && VersionIn(lines + [""]) == None
  {
    if lines == [] {
      assert !Contains("", MARKER);
    } else {
      NothingReplaced(lines[1..], tag);
      assert (lines + [""])[1..] == lines[1..] + [""];
    }
  }

  /** The tag is read back from the regenerated file exactly when the file had a marker line
      and the tag has no slash, no newline and no surrounding blanks. */
  lemma RoundTrip(text: string, tag: string)
    ensures Extracted(Regenerated(text, tag)) == Some(tag) <==>
            HasMarker(text) && Clean(tag)
  {
    var lines := Split(text, '\n');
    VersionIsClean(Split(Regenerated(text, tag), '\n'));
    if !HasMarker(text) {
      NothingReplaced(lines, tag);
      SplitWritten(lines);
    } else if Clean(tag) {
      RegeneratedLines(text, tag);
      NewLinesRead(lines, tag);
    }
  }
}
