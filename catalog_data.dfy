/**
 * The catalogs behind the job-information step: the ids the validator
 * accepts, taken from whatever the fetching hooks have loaded, and what the
 * step shows while the catalogs load or after one failed.
 */
module CatalogData {
  import opened Wrappers
  import opened ApplicationTypes
  import opened StepValidation
  import opened StepValidationFacts

  /** The ids of a loaded catalog in its order; none before it loads. */
  function IdsOf(c: CatalogState): seq<nat> {
    match c.data
    case None => []
    case Some(items) => seq(|items|, k requires 0 <= k < |items| => items[k].id)
  }

  /** The ids the job-information rules check the three selects against. */
  function ValidationData(employmentTypes: CatalogState, workModalities: CatalogState, availabilities: CatalogState): ValidIds {
    ValidIds(IdsOf(employmentTypes), IdsOf(workModalities), IdsOf(availabilities))
  }

  /** An id is accepted exactly when the loaded catalog has an item with it. */
  lemma IdsOfMembership(c: CatalogState, id: nat)
    ensures id in IdsOf(c) <==> c.data.Some? && exists k :: 0 <= k < |c.data.value| && c.data.value[k].id == id
  {
    if c.data.Some? && exists k :: 0 <= k < |c.data.value| && c.data.value[k].id == id {
      var k :| 0 <= k < |c.data.value| && c.data.value[k].id == id;
      assert IdsOf(c)[k] == id;
    }
  }

  /**
   * Until the employment types load, step 2 rejects every employment type
   * id; the same holds for the other two catalogs.
   */
  lemma UnloadedCatalogRejects(d: Draft, employmentTypes: CatalogState, workModalities: CatalogState,
                               availabilities: CatalogState, syn: Syntax, gate: EndDateGate)
    ensures var vs := Validate(1, d, ValidationData(employmentTypes, workModalities, availabilities), syn, gate);
      && (employmentTypes.data.None? ==> Violation(Field(EmploymentTypeId), OneOf) in vs)
      && (workModalities.data.None? ==> Violation(Field(WorkModalityId), OneOf) in vs)
      && (availabilities.data.None? ==> Violation(Field(AvailabilityId), OneOf) in vs)
  {
    var ids := ValidationData(employmentTypes, workModalities, availabilities);
    JobInfoMembership(d, ids, syn, EmploymentTypeId, OneOf);
    JobInfoMembership(d, ids, syn, WorkModalityId, OneOf);
    JobInfoMembership(d, ids, syn, AvailabilityId, OneOf);
  }

  /** What the job-information step renders. */
  datatype JobStepView = ErrorMessage | LoadingMessage | JobForm

  /** A failed catalog shows the error; otherwise a missing one shows the loading message. */
  function JobStepViewOf(employmentTypes: CatalogState, availabilities: CatalogState, workModalities: CatalogState): JobStepView {
    if employmentTypes.failed || availabilities.failed || workModalities.failed then ErrorMessage
    else if employmentTypes.data.None? || availabilities.data.None? || workModalities.data.None? then LoadingMessage
    else JobForm
  }

  /**
   * The form shows exactly when no catalog failed and all three loaded, and
   * a failure wins over loading. When the form shows, a select holding an
   * id of its catalog passes the membership rule.
   */
  lemma JobStepViewCases(employmentTypes: CatalogState, availabilities: CatalogState, workModalities: CatalogState,
                         d: Draft, syn: Syntax, gate: EndDateGate)
    ensures var view := JobStepViewOf(employmentTypes, availabilities, workModalities);
      && (view == JobForm <==>
            !employmentTypes.failed && !availabilities.failed && !workModalities.failed
            && employmentTypes.data.Some? && availabilities.data.Some? && workModalities.data.Some?)
      && (view == ErrorMessage <==> employmentTypes.failed || availabilities.failed || workModalities.failed)
      && (view == JobForm ==>
            var vs := Validate(1, d, ValidationData(employmentTypes, workModalities, availabilities), syn, gate);
            (Violation(Field(EmploymentTypeId), OneOf) !in vs <==>
               exists k :: 0 <= k < |employmentTypes.data.value| && employmentTypes.data.value[k].id == d.employmentTypeId))
  {
    var ids := ValidationData(employmentTypes, workModalities, availabilities);
    JobInfoMembership(d, ids, syn, EmploymentTypeId, OneOf);
    IdsOfMembership(employmentTypes, d.employmentTypeId);
  }
}
