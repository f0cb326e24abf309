/**
 Qualification results, the validation gate (validation.py) and the default promotion policy (policy.py,
 authorization.py).
 */
module Validation {
  import opened Prelude
  import opened Json

  datatype CorrectionRevision = CorrectionRevision(
    correction: string, revision: int, digest: Digest, payload: Value, reversible: bool)

  datatype TestResult = TestResult(kind: string, name: string, passed: bool)

  datatype Qualification = Qualification(
    correction: string, revision: int, digest: Digest, suite: string, tests: seq<TestResult>)
  {
    predicate Matches(c: CorrectionRevision) {
      correction == c.correction && revision == c.revision && digest == c.digest
    }
  }

  const KINDS := {"MFT", "INV", "DIR", "CONTRAST", "TRANSFER", "RETAIN", "ANTI_TRIGGER"}
  const REQUIRED_KINDS := {"MFT", "CONTRAST", "TRANSFER", "RETAIN", "ANTI_TRIGGER"}

  datatype Report = Report(
    correction: string, revision: int, digest: Digest, suite: string, required: set<string>,
    current: bool, passed: bool, missing: set<string>, failed: seq<string>, unknown: seq<string>)

  function ObservedKinds(tests: seq<TestResult>): set<string> {
    set i | 0 <= i < |tests| && tests[i].kind in KINDS :: tests[i].kind
  }

  function FailedNames(tests: seq<TestResult>): seq<string> {
    if tests == [] then []
    else FailedNames(Front(tests)) + if Last(tests).kind in KINDS && !Last(tests).passed then [Last(tests).name] else []
  }

  function UnknownNames(tests: seq<TestResult>): seq<string> {
    if tests == [] then []
    else UnknownNames(Front(tests)) + if Last(tests).kind !in KINDS then [Last(tests).name] else []
  }

  /** The report; None when the caller tries to require less than the canonical suite. */
  function Evaluated(c: CorrectionRevision, q: Qualification, required: set<string>): Option<Report> {
    if !(REQUIRED_KINDS <= required) then None
    else
      var missing := required - ObservedKinds(q.tests);
      var failed, unknown := FailedNames(q.tests), UnknownNames(q.tests);
      Some(Report(
        q.correction, q.revision, q.digest, q.suite, required,
        q.Matches(c), q.Matches(c) && missing == {} && failed == [] && unknown == [], missing, failed, unknown))
  }

  /** `ValidationReport.evaluate`. */
  method Evaluate(c: CorrectionRevision, q: Qualification, required: set<string>) returns (r: Option<Report>)
    ensures r == Evaluated(c, q, required)
  {
    if !(REQUIRED_KINDS <= required) {
      return None;
    }
    var observed: set<string> := {};
    var failed, unknown: seq<string> := [], [];
    for i := 0 to |q.tests|
      invariant observed == ObservedKinds(q.tests[..i])
      invariant failed == FailedNames(q.tests[..i])
      invariant unknown == UnknownNames(q.tests[..i])
    {
      var t := q.tests[i];
      OneMore(q.tests, i);
      if t.kind !in KINDS {
        unknown := unknown + [t.name];
      } else {
        observed := observed + {t.kind};
        if !t.passed {
          failed := failed + [t.name];
        }
      }
    }
    assert q.tests[..|q.tests|] == q.tests;
    var missing := required - observed;
    var current := q.Matches(c);
    var passed := current && missing == {} && failed == [] && unknown == [];
    return Some(Report(q.correction, q.revision, q.digest, q.suite, required, current, passed, missing, failed,
      unknown));
  }

  lemma OneMore(tests: seq<TestResult>, i: nat)
    requires i < |tests|
    ensures Front(tests[..i + 1]) == tests[..i] && Last(tests[..i + 1]) == tests[i]
    ensures ObservedKinds(tests[..i + 1]) ==
            ObservedKinds(tests[..i]) + if tests[i].kind in KINDS then {tests[i].kind} else {}
  {
  }

  lemma {:induction false} NoNames(tests: seq<TestResult>)
    ensures FailedNames(tests) == [] && UnknownNames(tests) == [] <==>
            forall i | 0 <= i < |tests| :: tests[i].kind in KINDS && tests[i].passed
  {
    if tests != [] {
      NoNames(Front(tests));
      assert forall i | 0 <= i < |tests| - 1 :: tests[i] == Front(tests)[i];
    }
  }

  /**
   A qualification passes exactly when it is about this exact revision, covers every required kind, and every
   test is of a known kind and passed.
   */
  lemma PassesExactly(c: CorrectionRevision, q: Qualification, required: set<string>)
    requires REQUIRED_KINDS <= required
    ensures
      Evaluated(c, q, required).value.passed <==>
        && q.correction == c.correction && q.revision == c.revision && q.digest == c.digest
        && (forall k | k in required :: exists i :: 0 <= i < |q.tests| && q.tests[i].kind == k)
        && (forall i | 0 <= i < |q.tests| :: q.tests[i].kind in KINDS && q.tests[i].passed)
  {
    NoNames(q.tests);
    var observed := ObservedKinds(q.tests);
    if required <= observed {
      forall k | k in required ensures exists i :: 0 <= i < |q.tests| && q.tests[i].kind == k { assert k in observed; }
    }
    if (forall k | k in required :: exists i :: 0 <= i < |q.tests| && q.tests[i].kind == k)
       && (forall i | 0 <= i < |q.tests| :: q.tests[i].kind in KINDS) {
      forall k | k in required ensures k in observed {
        var i :| 0 <= i < |q.tests| && q.tests[i].kind == k;
      }
    }
    NothingMissing(required, observed);
  }

  /**
   A report is made exactly when all five canonical kinds are required; it names the qualification it is about, and
   misses exactly the required kinds that no test of a known kind is of.
   */
  lemma ReportsExactly(c: CorrectionRevision, q: Qualification, required: set<string>)
    ensures Evaluated(c, q, required).Some? <==>
      && "MFT" in required && "CONTRAST" in required && "TRANSFER" in required
      && "RETAIN" in required && "ANTI_TRIGGER" in required
    ensures Evaluated(c, q, required).Some? ==>
      var r := Evaluated(c, q, required).value;
      && (r.correction, r.revision, r.digest, r.suite, r.required)
           == (q.correction, q.revision, q.digest, q.suite, required)
      && (forall k :: k in r.missing <==>
            k in required && forall i | 0 <= i < |q.tests| :: q.tests[i].kind != k || k !in KINDS)
  {
  }

  lemma NothingMissing(required: set<string>, observed: set<string>)
    ensures required - observed == {} <==> required <= observed
  {
    if required - observed == {} {
      forall k | k in required ensures k in observed { assert k !in required - observed; }
    }
  }

  // ---- authorization under the default policy ----

  type Terms = map<string, string>

  predicate TermsOk(m: Option<Terms>) {
    m.Some? ==> forall k | k in m.value :: !White(k) && !White(m.value[k])
  }

  predicate Given(m: Option<Terms>) { m.Some? && m.value != map[] }

  datatype Authorization = Authorization(report: Report, allow: bool, scope: Option<Terms>, rollback: Option<Terms>)

  /** What the default policy decides on. */
  datatype Grounds = Grounds(rootCauseSupported: bool, ambiguous: bool, irreversibleAcknowledged: bool)

  predicate PolicyAllows(
    c: CorrectionRevision, report: Report, g: Grounds, scope: Option<Terms>, rollback: Option<Terms>) {
    && report.correction == c.correction && report.revision == c.revision && report.digest == c.digest
    && !g.ambiguous && g.rootCauseSupported && report.current && report.passed
    && Given(scope) && Given(rollback)
    && (c.reversible || g.irreversibleAcknowledged)
  }

  /** `authorize_promotion` with the default policy; None when a term is blank. */
  function AuthorizePromotion(
    c: CorrectionRevision, q: Qualification, g: Grounds, scope: Option<Terms>, rollback: Option<Terms>)
    : Option<Authorization>
  {
    if !TermsOk(scope) || !TermsOk(rollback) then None
    else
      var report := Evaluated(c, q, REQUIRED_KINDS).value;
      Some(Authorization(report, PolicyAllows(c, report, g, scope, rollback), scope, rollback))
  }
}
