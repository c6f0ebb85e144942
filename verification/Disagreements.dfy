/**
 * What a review panel reports about its members' findings (review-panel-service.ts
 * 132-229): the disagreements and the consensus.
 */
module Disagreements {
  import opened Common
  import opened TextLines

  datatype Severity = Critical | High | Medium | Low

  datatype Verdict = Approve | ChangesRequested | UnableToReview

  datatype Finding = Finding(
    runId: string,
    severity: Severity,
    criterionId: Option<string>,
    file: Option<string>,
    line: Option<nat>)

  datatype Member = Member(runId: string, agentId: string, findings: seq<Finding>, verdict: Verdict)

  datatype Kind = OfVerdict | OfCriterion | OfLocation

  // The position is the verdict, or the severity and line, of one party.
  datatype Position =
    | VerdictPosition(runId: string, agentId: string, verdict: Verdict)
    | FindingPosition(runId: string, agentId: string, severity: Severity, line: Option<nat>)

  datatype Disagreement = Disagreement(kind: Kind, subject: string, positions: seq<Position>)

  const CRITERION: string := "criterion"
  const LOCATION: string := "location"

  // The group of a finding: its criterion, else its file.
  function Subject(f: Finding): Option<string> {
    if f.criterionId.Some? then Some(CRITERION + ":" + f.criterionId.value)
    else if f.file.Some? then Some(LOCATION + ":" + f.file.value)
    else None
  }

  function AllFindings(members: seq<Member>): seq<Finding> {
    if members == [] then [] else AllFindings(members[..|members| - 1]) + members[|members| - 1].findings
  }

  // The findings of a group, in reporting order.
  function Group(findings: seq<Finding>, subject: string): seq<Finding> {
    if findings == [] then []
    else
      Group(findings[..|findings| - 1], subject)
      + if Subject(findings[|findings| - 1]) == Some(subject) then [findings[|findings| - 1]] else []
  }

  // The subjects in the order in which they first occur: the keys of the groups map.
  function Subjects(findings: seq<Finding>): seq<string> {
    if findings == [] then []
    else
      var before := Subjects(findings[..|findings| - 1]);
      var subject := Subject(findings[|findings| - 1]);
      if subject.Some? && subject.value !in before then before + [subject.value] else before
  }

  function Runs(findings: seq<Finding>): set<string> { set f | f in findings :: f.runId }
  function Severities(findings: seq<Finding>): set<Severity> { set f | f in findings :: f.severity }

  // The two set sizes the code compares with 2.
  predicate SetsDiffer(findings: seq<Finding>) { |Runs(findings)| >= 2 && |Severities(findings)| >= 2 }

  /** Two findings disagree: different reviewers, different severities. */
  ghost predicate Disagree(findings: seq<Finding>) {
    exists f, g :: f in findings && g in findings && f.runId != g.runId && f.severity != g.severity
  }

  lemma TwoElements<T>(s: set<T>) returns (a: T, b: T)
    requires |s| >= 2
    ensures a in s && b in s && a != b
  {
    a :| a in s;
    assert |s - {a}| >= 1;
    b :| b in s - {a};
  }

  lemma AtLeastTwo<T>(s: set<T>, a: T, b: T)
    requires a in s && b in s && a != b
    ensures |s| >= 2
  {
    assert b in s - {a};
    assert |s - {a}| >= 1;
  }

  /**
   * The two set sizes say exactly that two findings differ in both respects: a
   * finding of a third severity disagrees with one of any two reviewers.
   */
  lemma SetsDifferIff(findings: seq<Finding>)
    ensures SetsDiffer(findings) <==> Disagree(findings)
  {
    if SetsDiffer(findings) {
      var r, q := TwoElements(Runs(findings));
      var s, t := TwoElements(Severities(findings));
      var f :| f in findings && f.runId == r;
      var g :| g in findings && g.runId == q;
      if f.severity == g.severity {
        var other := if f.severity == s then t else s;
        var h :| h in findings && h.severity == other;
        assert h.runId != f.runId || h.runId != g.runId;
      }
    }
    if Disagree(findings) {
      var f, g :| f in findings && g in findings && f.runId != g.runId && f.severity != g.severity;
      AtLeastTwo(Runs(findings), f.runId, g.runId);
      AtLeastTwo(Severities(findings), f.severity, g.severity);
    }
  }

  // agentOf: a later member with the same run wins.
  function AgentOf(members: seq<Member>, runId: string): string {
    if members == [] then runId
    else if members[|members| - 1].runId == runId then members[|members| - 1].agentId
    else AgentOf(members[..|members| - 1], runId)
  }

  function FindingPositions(members: seq<Member>, findings: seq<Finding>): seq<Position> {
    seq(|findings|, i requires 0 <= i < |findings| =>
      FindingPosition(findings[i].runId, AgentOf(members, findings[i].runId), findings[i].severity, findings[i].line))
  }

  // kind and subject as they are taken apart again at the colons.
  function KindOf(subject: string): Kind {
    if Split(subject, ':')[0] == CRITERION then OfCriterion else OfLocation
  }

  function Name(subject: string): string { Join(Split(subject, ':')[1..], ':') }

  /** Taking a subject apart gives back the criterion or file it was made of, colons and all. */
  lemma SubjectRoundTrip(f: Finding)
    requires Subject(f).Some?
    ensures KindOf(Subject(f).value) == if f.criterionId.Some? then OfCriterion else OfLocation
    ensures Name(Subject(f).value) == if f.criterionId.Some? then f.criterionId.value else f.file.value
  {
    var prefix := if f.criterionId.Some? then CRITERION else LOCATION;
    var name := if f.criterionId.Some? then f.criterionId.value else f.file.value;
    assert ':' !in prefix;
    assert Subject(f).value == prefix + [':'] + name;
    SplitLine(prefix, name, ':');
    assert ([prefix] + Split(name, ':'))[1..] == Split(name, ':');
    JoinOfSplit(name, ':');
    assert |CRITERION| != |LOCATION|;
  }

  function GroupDisagreement(members: seq<Member>, subject: string): seq<Disagreement> {
    var group := Group(AllFindings(members), subject);
    if SetsDiffer(group) then [Disagreement(KindOf(subject), Name(subject), FindingPositions(members, group))] else []
  }

  function GroupDisagreements(members: seq<Member>, subjects: seq<string>): seq<Disagreement> {
    if subjects == [] then []
    else GroupDisagreements(members, subjects[..|subjects| - 1]) + GroupDisagreement(members, subjects[|subjects| - 1])
  }

  function Verdicts(members: seq<Member>): set<Verdict> { set m | m in members :: m.verdict }

  function VerdictDisagreement(members: seq<Member>): seq<Disagreement> {
    if |Verdicts(members)| > 1 then
      [Disagreement(OfVerdict, "panel", seq(|members|, i requires 0 <= i < |members| =>
         VerdictPosition(members[i].runId, members[i].agentId, members[i].verdict)))]
    else []
  }

  function Computed(members: seq<Member>): seq<Disagreement> {
    VerdictDisagreement(members) + GroupDisagreements(members, Subjects(AllFindings(members)))
  }

  // ---- the loops ----

  // The groups map of the loop: insertion-ordered keys and their findings.
  ghost predicate Grouped(findings: seq<Finding>, keys: seq<string>, groups: map<string, seq<Finding>>) {
    && keys == Subjects(findings)
    && (forall k :: k in groups <==> k in keys)
    && (forall k | k in groups :: groups[k] == Group(findings, k))
  }

  method AddFinding(keys: seq<string>, groups: map<string, seq<Finding>>, f: Finding, ghost findings: seq<Finding>)
    returns (keys': seq<string>, groups': map<string, seq<Finding>>)
    requires Grouped(findings, keys, groups)
    ensures Grouped(findings + [f], keys', groups')
  {
    assert (findings + [f])[..|findings|] == findings;
    keys', groups' := keys, groups;
    var subject := Subject(f);
    if subject.None? {
      forall k | k in groups ensures groups[k] == Group(findings + [f], k) {
        assert Group(findings, k) + [] == Group(findings, k);
      }
      return;
    }
    var group := if subject.value in groups then groups[subject.value] else [];
    if subject.value !in groups {
      keys' := keys + [subject.value];
      Ungrouped(findings, subject.value);
    }
    groups' := groups[subject.value := group + [f]];
    forall k | k in groups' ensures groups'[k] == Group(findings + [f], k) {
      assert Group(findings, k) + [] == Group(findings, k);
    }
  }

  lemma {:induction false} Ungrouped(findings: seq<Finding>, subject: string)
    requires subject !in Subjects(findings)
    ensures Group(findings, subject) == []
  {
    if findings != [] {
      Ungrouped(findings[..|findings| - 1], subject);
    }
  }

  method GroupFindings(members: seq<Member>) returns (keys: seq<string>, groups: map<string, seq<Finding>>)
    ensures Grouped(AllFindings(members), keys, groups)
  {
    hide Grouped;
    keys, groups := [], map[];
    NothingGrouped();
    for i := 0 to |members|
      invariant Grouped(AllFindings(members[..i]), keys, groups)
    {
      var findings := members[i].findings;
      ghost var before := AllFindings(members[..i]);
      assert before + findings[..0] == before;
      for j := 0 to |findings|
        invariant Grouped(before + findings[..j], keys, groups)
      {
        assert before + findings[..j + 1] == before + findings[..j] + [findings[j]];
        keys, groups := AddFinding(keys, groups, findings[j], before + findings[..j]);
      }
      assert findings[..|findings|] == findings;
      assert members[..i + 1][..i] == members[..i];
    }
    assert members[..|members|] == members;
  }

  lemma NothingGrouped()
    ensures Grouped([], [], map[])
  {
  }

  method ComputeDisagreements(members: seq<Member>) returns (disagreements: seq<Disagreement>)
    ensures disagreements == Computed(members)
  {
    disagreements := [];
    if |Verdicts(members)| > 1 {
      disagreements := VerdictDisagreement(members);
    }
    var keys, groups := GroupFindings(members);
    hide Group, AllFindings, Subjects, SetsDiffer, Split, Join;
    ghost var before := disagreements;
    for i := 0 to |keys|
      invariant disagreements == before + GroupDisagreements(members, keys[..i])
    {
      var subject := keys[i];
      assert keys[..i + 1][..i] == keys[..i];
      var findings := groups[subject];
      if |Runs(findings)| < 2 || |Severities(findings)| < 2 {
        assert !SetsDiffer(findings) by { Sizes(findings); }
        assert GroupDisagreement(members, subject) == [];
        continue;
      }
      assert SetsDiffer(findings) by { Sizes(findings); }
      disagreements := disagreements + [Disagreement(KindOf(subject), Name(subject), FindingPositions(members, findings))];
    }
    assert keys[..|keys|] == keys;
  }

  lemma Sizes(findings: seq<Finding>)
    ensures SetsDiffer(findings) <==> |Runs(findings)| >= 2 && |Severities(findings)| >= 2
  {
  }

  // ---- what is reported ----

  lemma {:induction false} InGroup(findings: seq<Finding>, subject: string, f: Finding)
    ensures f in Group(findings, subject) <==> f in findings && Subject(f) == Some(subject)
  {
    if findings != [] {
      var last := |findings| - 1;
      InGroup(findings[..last], subject, f);
      assert f in findings <==> f in findings[..last] || f == findings[last] by {
        assert findings == findings[..last] + [findings[last]];
      }
    }
  }

  lemma {:induction false} SubjectsCover(findings: seq<Finding>, subject: string)
    ensures subject in Subjects(findings) <==> exists f :: f in findings && Subject(f) == Some(subject)
  {
    if findings != [] {
      var last := |findings| - 1;
      SubjectsCover(findings[..last], subject);
      assert findings == findings[..last] + [findings[last]];
      assert findings[last] in findings;
    }
  }

  lemma {:induction false} Reported(members: seq<Member>, subjects: seq<string>, d: Disagreement)
    ensures d in GroupDisagreements(members, subjects) <==>
            exists subject :: subject in subjects && d in GroupDisagreement(members, subject)
  {
    if subjects != [] {
      var last := |subjects| - 1;
      Reported(members, subjects[..last], d);
      hide GroupDisagreement;
      assert subjects == subjects[..last] + [subjects[last]];
      assert subjects[last] in subjects;
    }
  }

  // Two findings about the same subject that disagree.
  ghost predicate Contested(members: seq<Member>, subject: string) {
    exists f, g :: f in AllFindings(members) && g in AllFindings(members)
      && Subject(f) == Subject(g) == Some(subject) && f.runId != g.runId && f.severity != g.severity
  }

  lemma ContestedIff(members: seq<Member>, subject: string)
    ensures SetsDiffer(Group(AllFindings(members), subject)) <==> Contested(members, subject)
  {
    var all := AllFindings(members);
    SetsDifferIff(Group(all, subject));
    hide SetsDiffer, AllFindings;
    forall f ensures f in Group(all, subject) <==> f in all && Subject(f) == Some(subject) { InGroup(all, subject, f); }
    hide Group, Subject;
  }

  /**
   * A criterion or file is reported exactly when two findings on it come from
   * different reviewers and differ in severity; the verdicts are reported exactly
   * when two members' verdicts differ.
   */
  lemma ReportedIff(members: seq<Member>, d: Disagreement)
    ensures d in Computed(members) <==>
      d in VerdictDisagreement(members)
      || exists subject :: Contested(members, subject) && d == Disagreement(KindOf(subject), Name(subject),
           FindingPositions(members, Group(AllFindings(members), subject)))
  {
    var subjects := Subjects(AllFindings(members));
    Reported(members, subjects, d);
    hide AllFindings, Subjects, Group, SetsDiffer, Contested, VerdictDisagreement, GroupDisagreements, FindingPositions, KindOf, Name;
    forall subject: string
      ensures subject in subjects && d in GroupDisagreement(members, subject) <==>
        Contested(members, subject) && d == Disagreement(KindOf(subject), Name(subject),
           FindingPositions(members, Group(AllFindings(members), subject)))
    {
      ContestedIff(members, subject);
      if Contested(members, subject) { ContestedIsSubject(members, subject); }
    }
  }

  lemma ContestedIsSubject(members: seq<Member>, subject: string)
    requires Contested(members, subject)
    ensures subject in Subjects(AllFindings(members))
  {
    SubjectsCover(AllFindings(members), subject);
    hide AllFindings, Subject, Subjects;
  }

  lemma VerdictsDifferIff(members: seq<Member>)
    ensures VerdictDisagreement(members) != [] <==> exists m, n :: m in members && n in members && m.verdict != n.verdict
  {
    if |Verdicts(members)| > 1 {
      var a, b := TwoElements(Verdicts(members));
      var m :| m in members && m.verdict == a;
      var n :| n in members && n.verdict == b;
    }
    if exists m, n :: m in members && n in members && m.verdict != n.verdict {
      var m, n :| m in members && n in members && m.verdict != n.verdict;
      AtLeastTwo(Verdicts(members), m.verdict, n.verdict);
    }
  }

  // ---- consensus ----

  datatype Consensus = AllApprove | AllRequestChanges | Mixed

  function ComputeConsensus(members: seq<Member>): Consensus {
    if forall m | m in members :: m.verdict.Approve? then AllApprove
    else if forall m | m in members :: m.verdict.ChangesRequested? then AllRequestChanges
    else Mixed
  }

  /** The consensus is mixed exactly when the verdicts differ or nobody could review. */
  lemma MixedIff(members: seq<Member>)
    ensures ComputeConsensus(members).Mixed? <==>
      VerdictDisagreement(members) != [] || (members != [] && forall m | m in members :: m.verdict.UnableToReview?)
  {
    VerdictsDifferIff(members);
    hide VerdictDisagreement;
    if members != [] {
      assert members[0] in members;
    }
  }
}
