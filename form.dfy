/** The optional form automation that follows navigation: wait for the
    form, fill each field, submit, wait for the resulting navigation.
    cluster.js abandons the rest of the flow at the first step that
    throws; render.js skips a field it cannot fill and still submits. In
    both, whatever the flow throws is caught and the job goes on. */
module Form {
  import opened Js
  import opened Driver

  const FormWaitMs: int := 5000
  const FieldWaitMs: int := 5000
  const NavigationWaitMs: int := 30000

  /** The flow runs only when both `formData` and `formSelector` are
      truthy; any object is truthy, the empty one included. */
  predicate FormRequested(formData: Option<Entries>, formSelector: Option<string>) {
    formData.Some? && OptTruthy(formSelector)
  }

  /** The selector of the field called `name` inside the form. */
  function FieldSelector(formSelector: string, name: string): string {
    formSelector + " [name=\"" + name + "\"]"
  }

  /** Different field names give different selectors. */
  lemma FieldSelectorInjective(formSelector: string, a: string, b: string)
    requires FieldSelector(formSelector, a) == FieldSelector(formSelector, b)
    ensures a == b
  {
    var pre := formSelector + " [name=\"";
    var sa := FieldSelector(formSelector, a);
    var sb := FieldSelector(formSelector, b);
    assert sa == pre + a + "\"]" && sb == pre + b + "\"]";
    assert |a| == |b|;
    assert a == sa[|pre|..|pre| + |a|];
    assert b == sb[|pre|..|pre| + |b|];
  }

  /** A field's selector is never the form's own selector. */
  lemma FieldSelectorIsNotForm(formSelector: string, name: string)
    ensures FieldSelector(formSelector, name) != formSelector
  {
    assert |FieldSelector(formSelector, name)| > |formSelector|;
  }

  /** A click on `submitSelector` when it is truthy, otherwise the form's
      own `submit()` evaluated in the page. */
  function SubmitCall(formSelector: string, submitSelector: Option<string>): Call {
    if OptTruthy(submitSelector) then Click(submitSelector.value) else SubmitForm(formSelector)
  }

  predicate IsSubmission(c: Call) {
    c.Click? || c.SubmitForm?
  }

  /** Waiting for one field, then typing its value into it. */
  function FieldSteps(formSelector: string, field: (string, string)): seq<Call> {
    [WaitForSelector(FieldSelector(formSelector, field.0), FieldWaitMs),
     Type(FieldSelector(formSelector, field.0), field.1)]
  }

  /** The steps for all fields, in `Object.entries` order. */
  function FieldCalls(formSelector: string, fields: Entries): (calls: seq<Call>)
    ensures |calls| == 2 * |fields|
    ensures forall k :: 0 <= k < |calls| ==> calls[k].WaitForSelector? || calls[k].Type?
    decreases |fields|
  {
    if fields == [] then []
    else FieldCalls(formSelector, fields[..|fields| - 1]) + FieldSteps(formSelector, fields[|fields| - 1])
  }

  lemma {:induction false} FieldCallsAppend(formSelector: string, a: Entries, b: Entries)
    ensures FieldCalls(formSelector, a + b) == FieldCalls(formSelector, a) + FieldCalls(formSelector, b)
    decreases |b|
  {
    if b == [] {
      assert a + b == a;
    } else {
      var b' := b[..|b| - 1];
      assert (a + b)[..|a + b| - 1] == a + b' && (a + b)[|a + b| - 1] == b[|b| - 1];
      FieldCallsAppend(formSelector, a, b');
    }
  }

  /** The first field's steps come first. */
  lemma FieldCallsCons(formSelector: string, fields: Entries)
    requires fields != []
    ensures FieldCalls(formSelector, fields) == FieldSteps(formSelector, fields[0]) + FieldCalls(formSelector, fields[1..])
  {
    FieldCallsAppend(formSelector, [fields[0]], fields[1..]);
    assert [fields[0]] + fields[1..] == fields;
    assert FieldCalls(formSelector, [fields[0]]) == FieldSteps(formSelector, fields[0]) by {
      assert [fields[0]][..0] == [];
    }
  }

  /** Every step of the flow, in the order the code awaits them. */
  function FormPlan(formSelector: string, fields: Entries, submitSelector: Option<string>): seq<Call> {
    [WaitForSelector(formSelector, FormWaitMs)]
    + FieldCalls(formSelector, fields)
    + [SubmitCall(formSelector, submitSelector), WaitForNavigation(NavigationWaitMs)]
  }

  /** cluster.js: one `try` around the whole flow. */
  function AbortingFlow(formSelector: string, fields: Entries, submitSelector: Option<string>,
                        failing: map<Call, Thrown>): Run {
    RunAll(FormPlan(formSelector, fields, submitSelector), failing)
  }

  /** render.js: each field's wait-and-type has its own `try`. */
  function FieldAttempts(formSelector: string, fields: Entries, failing: map<Call, Thrown>): seq<Call>
    decreases |fields|
  {
    if fields == [] then []
    else FieldAttempts(formSelector, fields[..|fields| - 1], failing)
         + RunAll(FieldSteps(formSelector, fields[|fields| - 1]), failing).attempted
  }

  /** render.js: the form wait, then every field (a failure only skips the
      rest of that field), then submission and the navigation wait; the
      outer `try` catches the form wait, the submission and the wait. */
  function SkippingFlow(formSelector: string, fields: Entries, submitSelector: Option<string>,
                        failing: map<Call, Thrown>): Run {
    var found := RunAll([WaitForSelector(formSelector, FormWaitMs)], failing);
    if found.thrown.Some? then found
    else
      var submitted := RunAll([SubmitCall(formSelector, submitSelector), WaitForNavigation(NavigationWaitMs)], failing);
      Run(found.attempted + FieldAttempts(formSelector, fields, failing) + submitted.attempted, submitted.thrown)
  }

  /** cluster.js's field loop on its own: field after field until a step
      throws. */
  function AbortFields(formSelector: string, fields: Entries, failing: map<Call, Thrown>): Run
    decreases |fields|
  {
    if fields == [] then Run([], None)
    else
      var before := AbortFields(formSelector, fields[..|fields| - 1], failing);
      if before.thrown.Some? then before
      else
        var last := RunAll(FieldSteps(formSelector, fields[|fields| - 1]), failing);
        Run(before.attempted + last.attempted, last.thrown)
  }

  /** The field loop is the straight run of all the fields' steps. */
  lemma {:induction false} AbortFieldsIsRun(formSelector: string, fields: Entries, failing: map<Call, Thrown>)
    ensures AbortFields(formSelector, fields, failing) == RunAll(FieldCalls(formSelector, fields), failing)
    decreases |fields|
  {
    if fields != [] {
      var init := fields[..|fields| - 1];
      AbortFieldsIsRun(formSelector, init, failing);
      RunAllAppend(FieldCalls(formSelector, init), FieldSteps(formSelector, fields[|fields| - 1]), failing);
      RunAllStopsAtFirstThrow(FieldCalls(formSelector, init), failing);
    }
  }

  /** cluster.js's field loop, inside the flow's single `try`. */
  method FillFieldsAborting(session: Session, formSelector: string, fields: Entries)
    returns (err: Option<Thrown>)
    modifies session
    ensures session.log == old(session.log) + AbortFields(formSelector, fields, session.oracle.failing).attempted
    ensures err == AbortFields(formSelector, fields, session.oracle.failing).thrown
  {
    ghost var failing := session.oracle.failing;
    err := None;
    var i := 0;
    while i < |fields| && err.None?
      invariant 0 <= i <= |fields|
      invariant session.log == old(session.log) + AbortFields(formSelector, fields[..i], failing).attempted
      invariant err == AbortFields(formSelector, fields[..i], failing).thrown
      invariant err.Some? ==> AbortFields(formSelector, fields, failing) == AbortFields(formSelector, fields[..i], failing)
    {
      var (name, value) := fields[i];
      var selector := FieldSelector(formSelector, name);
      var w, t := WaitForSelector(selector, FieldWaitMs), Type(selector, value);
      ghost var before := AbortFields(formSelector, fields[..i], failing);
      assert AbortFields(formSelector, fields[..i + 1], failing) ==
        if w in failing then Run(before.attempted + [w], Some(failing[w]))
        else if t in failing then Run(before.attempted + [w, t], Some(failing[t]))
        else Run(before.attempted + [w, t], None)
      by {
        assert fields[..i + 1][..i] == fields[..i] && fields[..i + 1][i] == fields[i];
        RunAllCons(w, [t], failing);
        RunAllOne(t, failing);
        assert FieldSteps(formSelector, fields[i]) == [w] + [t] == [w, t];
      }
      err := session.Perform(w);
      if err.None? {
        err := session.Perform(t);
      }
      assert (old(session.log) + before.attempted) + [w] + [t] == old(session.log) + (before.attempted + [w, t]);
      if err.Some? {
        assert AbortFields(formSelector, fields, failing) == AbortFields(formSelector, fields[..i + 1], failing) by {
          AbortFieldsSticky(formSelector, fields, i + 1, failing);
        }
      }
      i := i + 1;
    }
    if err.None? {
      assert fields[..i] == fields;
    }
  }

  /** Once a field step has thrown, the later fields add nothing. */
  lemma {:induction false} AbortFieldsSticky(formSelector: string, fields: Entries, n: int, failing: map<Call, Thrown>)
    requires 0 <= n <= |fields|
    requires AbortFields(formSelector, fields[..n], failing).thrown.Some?
    ensures AbortFields(formSelector, fields, failing) == AbortFields(formSelector, fields[..n], failing)
    decreases |fields| - n
  {
    if n < |fields| {
      assert fields[..|fields| - 1][..n] == fields[..n];
      AbortFieldsSticky(formSelector, fields[..|fields| - 1], n, failing);
    } else {
      assert fields[..n] == fields;
    }
  }

  /** cluster.js's flow, step by step: the form wait, the field loop, the
      submission and the navigation wait, each only if all before completed. */
  lemma AbortingFlowSteps(formSelector: string, fields: Entries, submitSelector: Option<string>, failing: map<Call, Thrown>)
    ensures
      var formWait := WaitForSelector(formSelector, FormWaitMs);
      var submit := SubmitCall(formSelector, submitSelector);
      var navWait := WaitForNavigation(NavigationWaitMs);
      var filled := AbortFields(formSelector, fields, failing);
      AbortingFlow(formSelector, fields, submitSelector, failing) ==
        if formWait in failing then Run([formWait], Some(failing[formWait]))
        else if filled.thrown.Some? then Run([formWait] + filled.attempted, filled.thrown)
        else if submit in failing then Run([formWait] + filled.attempted + [submit], Some(failing[submit]))
        else Run([formWait] + filled.attempted + [submit, navWait], Outcome(failing, navWait))
  {
    var formWait := WaitForSelector(formSelector, FormWaitMs);
    var submit := SubmitCall(formSelector, submitSelector);
    var navWait := WaitForNavigation(NavigationWaitMs);
    var filled := AbortFields(formSelector, fields, failing);
    var fieldCalls := FieldCalls(formSelector, fields);
    assert FormPlan(formSelector, fields, submitSelector) == [formWait] + fieldCalls + [submit, navWait];
    RunAllAround([formWait], fieldCalls, [submit, navWait], failing);
    RunAllOne(formWait, failing);
    RunAllTwo(submit, navWait, failing);
    AbortFieldsIsRun(formSelector, fields, failing);
    RunAllStopsAtFirstThrow(fieldCalls, failing);
  }

  /** The submission, then the wait for the navigation it starts; both
      flows end this way. */
  method SubmitAndWait(session: Session, formSelector: string, submitSelector: Option<string>)
    returns (err: Option<Thrown>)
    modifies session
    ensures var run := RunAll([SubmitCall(formSelector, submitSelector), WaitForNavigation(NavigationWaitMs)], session.oracle.failing);
      session.log == old(session.log) + run.attempted && err == run.thrown
  {
    var navWait := WaitForNavigation(NavigationWaitMs);
    RunAllTwo(SubmitCall(formSelector, submitSelector), navWait, session.oracle.failing);
    if OptTruthy(submitSelector) {
      err := session.Perform(Click(submitSelector.value));
    } else {
      err := session.Perform(SubmitForm(formSelector));
    }
    if err.Some? {
      return;
    }
    err := session.Perform(navWait);
  }

  /** cluster.js's flow: the first step that throws ends it. */
  method FillAborting(session: Session, formSelector: string, fields: Entries, submitSelector: Option<string>)
    returns (err: Option<Thrown>)
    modifies session
    ensures session.log == old(session.log) + AbortingFlow(formSelector, fields, submitSelector, session.oracle.failing).attempted
    ensures err == AbortingFlow(formSelector, fields, submitSelector, session.oracle.failing).thrown
  {
    ghost var failing := session.oracle.failing;
    var formWait := WaitForSelector(formSelector, FormWaitMs);
    var submit := SubmitCall(formSelector, submitSelector);
    var navWait := WaitForNavigation(NavigationWaitMs);
    ghost var filled := AbortFields(formSelector, fields, failing);
    AbortingFlowSteps(formSelector, fields, submitSelector, failing);
    RunAllTwo(submit, navWait, failing);
    err := session.Perform(formWait);
    if err.Some? {
      return;
    }
    err := FillFieldsAborting(session, formSelector, fields);
    if err.Some? {
      assert old(session.log) + [formWait] + filled.attempted == old(session.log) + ([formWait] + filled.attempted);
      return;
    }
    ghost var log1 := session.log;
    err := SubmitAndWait(session, formSelector, submitSelector);
    assert log1 + RunAll([submit, navWait], failing).attempted ==
      old(session.log) + ([formWait] + filled.attempted + RunAll([submit, navWait], failing).attempted);
  }

  /** render.js's field loop: each field's own `try` swallows its failure. */
  method FillFieldsSkipping(session: Session, formSelector: string, fields: Entries)
    modifies session
    ensures session.log == old(session.log) + FieldAttempts(formSelector, fields, session.oracle.failing)
  {
    ghost var failing := session.oracle.failing;
    var i := 0;
    while i < |fields|
      invariant 0 <= i <= |fields|
      invariant session.log == old(session.log) + FieldAttempts(formSelector, fields[..i], failing)
    {
      var (name, value) := fields[i];
      var selector := FieldSelector(formSelector, name);
      RunAllCons(WaitForSelector(selector, FieldWaitMs), [Type(selector, value)], failing);
      RunAllOne(Type(selector, value), failing);
      assert FieldSteps(formSelector, fields[i]) == [WaitForSelector(selector, FieldWaitMs)] + [Type(selector, value)];
      var fieldErr := session.Perform(WaitForSelector(selector, FieldWaitMs));
      if fieldErr.None? {
        fieldErr := session.Perform(Type(selector, value));
      }
      assert fields[..i + 1][..i] == fields[..i] && fields[..i + 1][i] == fields[i];
      i := i + 1;
    }
    assert fields[..i] == fields;
  }

  /** render.js's flow: a field that cannot be waited for or typed into is
      skipped; submission is attempted whenever the form was found. */
  method FillSkipping(session: Session, formSelector: string, fields: Entries, submitSelector: Option<string>)
    returns (err: Option<Thrown>)
    modifies session
    ensures session.log == old(session.log) + SkippingFlow(formSelector, fields, submitSelector, session.oracle.failing).attempted
    ensures err == SkippingFlow(formSelector, fields, submitSelector, session.oracle.failing).thrown
  {
    ghost var failing := session.oracle.failing;
    var formWait := WaitForSelector(formSelector, FormWaitMs);
    var submit := SubmitCall(formSelector, submitSelector);
    var navWait := WaitForNavigation(NavigationWaitMs);
    RunAllOne(formWait, failing);
    err := session.Perform(formWait);
    if err.Some? {
      return;
    }
    FillFieldsSkipping(session, formSelector, fields);
    err := SubmitAndWait(session, formSelector, submitSelector);
  }

  // ---------------------------------------------------------------------
  // Properties of the two flows.

  /** cluster.js: the first step that throws is the last step taken, and
      its exception is what the flow's `catch` receives. */
  lemma AbortingStopsAtFirstFailure(formSelector: string, fields: Entries, submitSelector: Option<string>,
                                    failing: map<Call, Thrown>, k: int)
    requires var plan := FormPlan(formSelector, fields, submitSelector);
      0 <= k < |plan| && plan[k] in failing && forall j :: 0 <= j < k ==> plan[j] !in failing
    ensures var plan := FormPlan(formSelector, fields, submitSelector);
      AbortingFlow(formSelector, fields, submitSelector, failing) == Run(plan[..k + 1], Some(failing[plan[k]]))
  {
    RunAllFirstThrow(FormPlan(formSelector, fields, submitSelector), failing, k);
  }

  /** Exactly one step of the flow submits the form: the second to last,
      a click when `submitSelector` is truthy and the form's own `submit()`
      otherwise. */
  lemma SubmissionExactlyOnce(formSelector: string, fields: Entries, submitSelector: Option<string>)
    ensures var plan := FormPlan(formSelector, fields, submitSelector);
      && |plan| == 2 * |fields| + 3
      && (forall k :: 0 <= k < |plan| ==> (IsSubmission(plan[k]) <==> k == |plan| - 2))
      && (OptTruthy(submitSelector) ==> plan[|plan| - 2] == Click(submitSelector.value))
      && (!OptTruthy(submitSelector) ==> plan[|plan| - 2] == SubmitForm(formSelector))
  {
    var plan := FormPlan(formSelector, fields, submitSelector);
    var calls := FieldCalls(formSelector, fields);
    assert forall k :: 1 <= k < |plan| - 2 ==> plan[k] == calls[k - 1];
  }

  /** Field `i`'s steps are at positions `2i` and `2i + 1`: a 5000 ms
      wait for its selector, then typing its value into it. */
  lemma {:induction false} FieldCallsShape(formSelector: string, fields: Entries)
    ensures |FieldCalls(formSelector, fields)| == 2 * |fields|
    ensures forall i :: 0 <= i < |fields| ==>
      && FieldCalls(formSelector, fields)[2 * i] == WaitForSelector(FieldSelector(formSelector, fields[i].0), FieldWaitMs)
      && FieldCalls(formSelector, fields)[2 * i + 1] == Type(FieldSelector(formSelector, fields[i].0), fields[i].1)
    decreases |fields|
  {
    if fields != [] {
      var init := fields[..|fields| - 1];
      FieldCallsShape(formSelector, init);
      var calls := FieldCalls(formSelector, fields);
      assert calls == FieldCalls(formSelector, init) + FieldSteps(formSelector, fields[|fields| - 1]);
      forall i | 0 <= i < |fields|
        ensures calls[2 * i] == WaitForSelector(FieldSelector(formSelector, fields[i].0), FieldWaitMs)
        ensures calls[2 * i + 1] == Type(FieldSelector(formSelector, fields[i].0), fields[i].1)
      {
        if i < |init| {
          assert fields[i] == init[i];
        }
      }
    }
  }

  /** The attempted field steps are waits and typing as well. */
  lemma {:induction false} FieldAttemptsShape(formSelector: string, fields: Entries, failing: map<Call, Thrown>)
    ensures forall c :: c in FieldAttempts(formSelector, fields, failing) ==> c.WaitForSelector? || c.Type?
    decreases |fields|
  {
    if fields != [] {
      FieldAttemptsShape(formSelector, fields[..|fields| - 1], failing);
      RunAllStopsAtFirstThrow(FieldSteps(formSelector, fields[|fields| - 1]), failing);
    }
  }

  /** cluster.js submits exactly when the form and every field step
      completed. */
  lemma AbortingSubmitsIffFilled(formSelector: string, fields: Entries, submitSelector: Option<string>,
                                 failing: map<Call, Thrown>)
    ensures var fill := [WaitForSelector(formSelector, FormWaitMs)] + FieldCalls(formSelector, fields);
      SubmitCall(formSelector, submitSelector) in AbortingFlow(formSelector, fields, submitSelector, failing).attempted
      <==> forall k :: 0 <= k < |fill| ==> fill[k] !in failing
  {
    var fill := [WaitForSelector(formSelector, FormWaitMs)] + FieldCalls(formSelector, fields);
    var submit := SubmitCall(formSelector, submitSelector);
    assert FormPlan(formSelector, fields, submitSelector) == fill + [submit] + [WaitForNavigation(NavigationWaitMs)];
    assert submit !in fill by {
      assert forall k :: 1 <= k < |fill| ==> fill[k] == FieldCalls(formSelector, fields)[k - 1];
    }
    RunAllReaches(fill, submit, [WaitForNavigation(NavigationWaitMs)], failing);
  }

  /** render.js submits exactly when the form itself was found, whatever
      happened to the fields. */
  lemma SkippingSubmitsIffFormFound(formSelector: string, fields: Entries, submitSelector: Option<string>,
                                    failing: map<Call, Thrown>)
    ensures SubmitCall(formSelector, submitSelector) in SkippingFlow(formSelector, fields, submitSelector, failing).attempted
      <==> WaitForSelector(formSelector, FormWaitMs) !in failing
  {
    var formWait := WaitForSelector(formSelector, FormWaitMs);
    var submit := SubmitCall(formSelector, submitSelector);
    var navWait := WaitForNavigation(NavigationWaitMs);
    RunAllOne(formWait, failing);
    RunAllCons(submit, [navWait], failing);
    FieldAttemptsShape(formSelector, fields, failing);
    if formWait !in failing {
      var attempted := [formWait] + FieldAttempts(formSelector, fields, failing) + RunAll([submit, navWait], failing).attempted;
      assert attempted[|attempted| - |RunAll([submit, navWait], failing).attempted|] == submit;
    }
  }

  /** render.js waits for every field once the form was found, in order:
      a missing field never ends the loop. */
  lemma {:induction false} SkippingVisitsEveryField(formSelector: string, fields: Entries, failing: map<Call, Thrown>, i: int)
    requires 0 <= i < |fields|
    ensures WaitForSelector(FieldSelector(formSelector, fields[i].0), FieldWaitMs) in FieldAttempts(formSelector, fields, failing)
    decreases |fields|
  {
    var last := fields[|fields| - 1];
    var r := RunAll(FieldSteps(formSelector, last), failing);
    RunAllCons(WaitForSelector(FieldSelector(formSelector, last.0), FieldWaitMs),
               [Type(FieldSelector(formSelector, last.0), last.1)], failing);
    assert FieldSteps(formSelector, last) ==
      [WaitForSelector(FieldSelector(formSelector, last.0), FieldWaitMs)] + [Type(FieldSelector(formSelector, last.0), last.1)];
    if i < |fields| - 1 {
      SkippingVisitsEveryField(formSelector, fields[..|fields| - 1], failing, i);
    } else {
      var before := FieldAttempts(formSelector, fields[..|fields| - 1], failing);
      assert FieldAttempts(formSelector, fields, failing)[|before|] == r.attempted[0];
    }
  }

  /** When no field step throws, render.js does what cluster.js does. */
  lemma {:induction false} FieldAttemptsWithoutFailures(formSelector: string, fields: Entries, failing: map<Call, Thrown>)
    requires forall c :: c in FieldCalls(formSelector, fields) ==> c !in failing
    ensures FieldAttempts(formSelector, fields, failing) == FieldCalls(formSelector, fields)
    ensures AbortFields(formSelector, fields, failing) == Run(FieldCalls(formSelector, fields), None)
    decreases |fields|
  {
    if fields != [] {
      var init := fields[..|fields| - 1];
      var steps := FieldSteps(formSelector, fields[|fields| - 1]);
      assert FieldCalls(formSelector, fields) == FieldCalls(formSelector, init) + steps;
      FieldAttemptsWithoutFailures(formSelector, init, failing);
      RunAllStopsAtFirstThrow(steps, failing);
    }
  }

  lemma PoliciesAgreeWithoutFieldFailures(formSelector: string, fields: Entries, submitSelector: Option<string>,
                                          failing: map<Call, Thrown>)
    requires forall c :: c in FieldCalls(formSelector, fields) ==> c !in failing
    ensures SkippingFlow(formSelector, fields, submitSelector, failing) == AbortingFlow(formSelector, fields, submitSelector, failing)
  {
    FieldAttemptsWithoutFailures(formSelector, fields, failing);
    AbortingFlowSteps(formSelector, fields, submitSelector, failing);
    var formWait := WaitForSelector(formSelector, FormWaitMs);
    var submit := SubmitCall(formSelector, submitSelector);
    var navWait := WaitForNavigation(NavigationWaitMs);
    RunAllOne(formWait, failing);
    RunAllCons(submit, [navWait], failing);
    RunAllOne(navWait, failing);
  }

  /** An empty `formData` still waits for the form, submits and waits for
      the navigation, under both policies. */
  lemma EmptyFormStillSubmits(formSelector: string, submitSelector: Option<string>, failing: map<Call, Thrown>)
    ensures var steps := [WaitForSelector(formSelector, FormWaitMs), SubmitCall(formSelector, submitSelector),
                          WaitForNavigation(NavigationWaitMs)];
      && AbortingFlow(formSelector, [], submitSelector, failing) == RunAll(steps, failing)
      && SkippingFlow(formSelector, [], submitSelector, failing) == RunAll(steps, failing)
  {
    var formWait := WaitForSelector(formSelector, FormWaitMs);
    var submit := SubmitCall(formSelector, submitSelector);
    var navWait := WaitForNavigation(NavigationWaitMs);
    assert FormPlan(formSelector, [], submitSelector) == [formWait, submit, navWait];
    PoliciesAgreeWithoutFieldFailures(formSelector, [], submitSelector, failing);
  }
}
