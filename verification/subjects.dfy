/** The subject list of the shared ClusterRoleBinding, edited by two passes:
    checkPrerequisites appends an instance's ServiceAccount when it is missing,
    finalization filters it out again. Subjects are matched on (name,
    namespace) only; their kind is not compared. */
module Subjects {
  import opened Rbac

  predicate SameAccount(s: Subject, name: string, namespace: string) {
    s.name == name && s.namespace == namespace
  }

  /** The search loop of checkPrerequisites. */
  function HasSubject(subjects: seq<Subject>, name: string, namespace: string): (found: bool)
    ensures found <==> exists k :: 0 <= k < |subjects| && SameAccount(subjects[k], name, namespace)
  {
    if |subjects| == 0 then false
    else if SameAccount(subjects[0], name, namespace) then true
    else
      var rest := HasSubject(subjects[1..], name, namespace);
      assert forall k :: 1 <= k < |subjects| ==> subjects[k] == subjects[1..][k - 1];
      rest
  }

  /** The binding update of checkPrerequisites: append `subject` unless an
      entry with its name and namespace is already there. */
  function AddSubjectIfAbsent(subjects: seq<Subject>, subject: Subject): (r: seq<Subject>)
    ensures HasSubject(r, subject.name, subject.namespace)
    ensures HasSubject(subjects, subject.name, subject.namespace) ==> r == subjects
    ensures !HasSubject(subjects, subject.name, subject.namespace) ==>
      |r| == |subjects| + 1 && r[..|subjects|] == subjects && r[|subjects|] == subject
  {
    if HasSubject(subjects, subject.name, subject.namespace) then subjects
    else
      var r := subjects + [subject];
      assert SameAccount(r[|subjects|], subject.name, subject.namespace);
      r
  }

  /** The filter of finalizeNginxIngressController: keep, in order, every
      subject whose name or namespace differs from the instance's. */
  function RemoveSubjects(subjects: seq<Subject>, name: string, namespace: string): (r: seq<Subject>)
    ensures |r| <= |subjects|
    ensures forall s :: s in r <==> s in subjects && !SameAccount(s, name, namespace)
  {
    if |subjects| == 0 then []
    else
      var rest := RemoveSubjects(subjects[1..], name, namespace);
      assert forall s :: s in subjects <==> s == subjects[0] || s in subjects[1..];
      if SameAccount(subjects[0], name, namespace) then rest
      else [subjects[0]] + rest
  }

  /** No two subjects share a (name, namespace). */
  predicate NoDuplicateAccounts(subjects: seq<Subject>) {
    forall j, k :: 0 <= j < k < |subjects| ==>
      !SameAccount(subjects[k], subjects[j].name, subjects[j].namespace)
  }

  lemma AddSubjectKeepsNoDuplicates(subjects: seq<Subject>, subject: Subject)
    requires NoDuplicateAccounts(subjects)
    ensures NoDuplicateAccounts(AddSubjectIfAbsent(subjects, subject))
  {
  }

  /** A second add of the same account changes nothing. */
  lemma AddSubjectIdempotent(subjects: seq<Subject>, subject: Subject)
    ensures AddSubjectIfAbsent(AddSubjectIfAbsent(subjects, subject), subject) == AddSubjectIfAbsent(subjects, subject)
  {
  }

  /** Filtering distributes over concatenation: the filter keeps the relative
      order of the subjects it keeps. */
  lemma {:induction false} RemoveSubjectsDistributes(a: seq<Subject>, b: seq<Subject>, name: string, namespace: string)
    ensures RemoveSubjects(a + b, name, namespace) == RemoveSubjects(a, name, namespace) + RemoveSubjects(b, name, namespace)
  {
    if |a| == 0 {
      assert a + b == b;
    } else {
      assert (a + b)[1..] == a[1..] + b;
      RemoveSubjectsDistributes(a[1..], b, name, namespace);
    }
  }

  /** Removing an account that is not bound is a no-op. */
  lemma {:induction false} RemoveAbsentSubject(subjects: seq<Subject>, name: string, namespace: string)
    requires !HasSubject(subjects, name, namespace)
    ensures RemoveSubjects(subjects, name, namespace) == subjects
  {
    if |subjects| > 0 {
      assert !HasSubject(subjects[1..], name, namespace) by {
        assert forall k :: 0 <= k < |subjects[1..]| ==> subjects[1..][k] == subjects[k + 1];
      }
      RemoveAbsentSubject(subjects[1..], name, namespace);
      assert !SameAccount(subjects[0], name, namespace);
    }
  }

  /** After the filter the account is gone. */
  lemma RemoveSubjectsRemovesAccount(subjects: seq<Subject>, name: string, namespace: string)
    ensures !HasSubject(RemoveSubjects(subjects, name, namespace), name, namespace)
  {
    var r := RemoveSubjects(subjects, name, namespace);
    forall k | 0 <= k < |r|
      ensures !SameAccount(r[k], name, namespace)
    {
      assert r[k] in r;
    }
  }

  /** Filtering keeps the list free of duplicates. */
  lemma {:induction false} RemoveSubjectsKeepsNoDuplicates(subjects: seq<Subject>, name: string, namespace: string)
    requires NoDuplicateAccounts(subjects)
    ensures NoDuplicateAccounts(RemoveSubjects(subjects, name, namespace))
  {
    if |subjects| > 0 {
      var tail := subjects[1..];
      assert NoDuplicateAccounts(tail) by {
        forall j, k | 0 <= j < k < |tail|
          ensures !SameAccount(tail[k], tail[j].name, tail[j].namespace)
        {
          assert tail[j] == subjects[j + 1] && tail[k] == subjects[k + 1];
        }
      }
      RemoveSubjectsKeepsNoDuplicates(tail, name, namespace);
      var rest := RemoveSubjects(tail, name, namespace);
      if !SameAccount(subjects[0], name, namespace) {
        var h := subjects[0];
        forall s | s in rest
          ensures !SameAccount(s, h.name, h.namespace)
        {
          assert s in tail;
          var k :| 0 <= k < |tail| && tail[k] == s;
          assert subjects[k + 1] == s;
        }
        var r := [h] + rest;
        forall j, k | 0 <= j < k < |r|
          ensures !SameAccount(r[k], r[j].name, r[j].namespace)
        {
          if j == 0 {
            assert r[k] == rest[k - 1];
            assert rest[k - 1] in rest;
          } else {
            assert r[j] == rest[j - 1] && r[k] == rest[k - 1];
          }
        }
      }
    }
  }

  /** Round trip: adding an account that was not bound and then finalizing the
      instance it belongs to gives back the original list. */
  lemma {:induction false} AddThenRemoveRoundTrip(subjects: seq<Subject>, namespace: string, name: string)
    requires !HasSubject(subjects, name, namespace)
    ensures RemoveSubjects(AddSubjectIfAbsent(subjects, SubjectForServiceAccount(namespace, name)), name, namespace) == subjects
  {
    var s := SubjectForServiceAccount(namespace, name);
    RemoveSubjectsDistributes(subjects, [s], name, namespace);
    RemoveAbsentSubject(subjects, name, namespace);
    assert RemoveSubjects([s], name, namespace) == [];
  }

  /** Filtering touches only the matching account: every other account keeps
      its membership. */
  lemma RemoveSubjectsFrame(subjects: seq<Subject>, name: string, namespace: string, other: Subject)
    requires !SameAccount(other, name, namespace)
    ensures other in RemoveSubjects(subjects, name, namespace) <==> other in subjects
  {
  }
}
