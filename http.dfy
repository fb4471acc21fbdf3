/** The HTTP responses the route handlers answer with, reduced to what the handlers decide:
    the status and, where a handler sets one, the redirect target or the plain-text body. */
module Http {
  datatype Response =
    | SeeOther(location: string)
    | Json
    | BadRequest(body: string)
    | NotFound(body: string)
    | Forbidden(body: string)
    | InternalError
}

/** Form validation as the handlers write it: a fixed list of checks, each of which, when it
    fails, pushes its own message onto the error list. */
module Forms {
  /** One check of a submitted form: whether it fails, and the message it then adds. */
  datatype Check = Check(fails: bool, message: string)

  /** The messages of the failing checks, in the order the checks run. */
  function Errors(checks: seq<Check>): (r: seq<string>)
    ensures |r| <= |checks|
  {
    if checks == [] then []
    else
      var last := checks[|checks| - 1];
      Errors(checks[..|checks| - 1]) + (if last.fails then [last.message] else [])
  }

  /** Running one more check appends its message when it fails. */
  lemma ErrorsStep(checks: seq<Check>, k: nat)
    requires k < |checks|
    ensures Errors(checks[..k + 1]) ==
              Errors(checks[..k]) + (if checks[k].fails then [checks[k].message] else [])
  {
    assert checks[..k + 1][..k] == checks[..k];
  }

  /** The handler's run of `if <check> { errors.push(<message>) }` blocks, one per check, in order. */
  method PushFailures(checks: seq<Check>) returns (errors: seq<string>)
    ensures errors == Errors(checks)
  {
    errors := [];
    var k := 0;
    while k < |checks|
      invariant k <= |checks|
      invariant errors == Errors(checks[..k])
    {
      ErrorsStep(checks, k);
      if checks[k].fails {
        errors := errors + [checks[k].message];
      }
      k := k + 1;
    }
    assert checks[..|checks|] == checks;
  }

  /** Every check runs: a message is reported exactly when some check carrying it fails. */
  lemma {:induction false} ErrorsMembership(checks: seq<Check>, m: string)
    ensures m in Errors(checks) <==> exists k :: 0 <= k < |checks| && checks[k].fails && checks[k].message == m
  {
    if checks != [] {
      var init := checks[..|checks| - 1];
      ErrorsMembership(init, m);
      if exists k :: 0 <= k < |init| && init[k].fails && init[k].message == m {
        var k :| 0 <= k < |init| && init[k].fails && init[k].message == m;
        assert checks[k] == init[k];
      }
      if exists k :: 0 <= k < |checks| && checks[k].fails && checks[k].message == m {
        var k :| 0 <= k < |checks| && checks[k].fails && checks[k].message == m;
        if k < |init| {
          assert init[k] == checks[k];
        }
      }
    }
  }

  /** No error is reported exactly when no check fails. */
  lemma {:induction false} ErrorsEmpty(checks: seq<Check>)
    ensures Errors(checks) == [] <==> forall k :: 0 <= k < |checks| ==> !checks[k].fails
  {
    if checks != [] {
      var init := checks[..|checks| - 1];
      ErrorsEmpty(init);
      if Errors(checks) == [] {
        forall k | 0 <= k < |checks| ensures !checks[k].fails {
          if k < |init| {
            assert init[k] == checks[k];
          }
        }
      }
    }
  }

  predicate DistinctMessages(checks: seq<Check>) {
    forall i, j :: 0 <= i < j < |checks| ==> checks[i].message != checks[j].message
  }

  /** With distinct messages, a check's message is reported exactly when that check fails. */
  lemma ErrorsReportEachCheck(checks: seq<Check>, k: nat)
    requires DistinctMessages(checks)
    requires k < |checks|
    ensures checks[k].message in Errors(checks) <==> checks[k].fails
  {
    ErrorsMembership(checks, checks[k].message);
    if checks[k].message in Errors(checks) {
      var j :| 0 <= j < |checks| && checks[j].fails && checks[j].message == checks[k].message;
      assert j == k;
    }
  }
}
