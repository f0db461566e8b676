/**
 * The three form schemas of the server actions. A form field arrives as `Some(text)` or,
 * when the form did not send it, as `None`. Validation looks only at the form, never at the
 * stored collections.
 */
module Schemas {
  import opened Wrappers
  import opened Records

  /**
   * One validation issue. `InvalidType` and `InvalidEnumValue` stand for the schema library's
   * built-in messages (a missing field; a value outside an enumeration); `TooSmall` carries the
   * custom message of a `min(1)` rule; `Server` is the text stored under `_server` when the
   * store call fails.
   */
  datatype Issue = InvalidType | TooSmall(message: string) | InvalidEnumValue | Server(message: string)

  /** The flattened field errors: for each field with issues, its issues. */
  type FieldErrors = map<string, seq<Issue>>

  const TenantNameRequired := "Tenant name is required."
  const SenderNameRequired := "Sender name is required."
  const TenantRequired := "Please select a tenant."

  /** A field that satisfies `string().min(1)`: present and not empty. */
  predicate IsNonEmptyText(v: Option<string>) {
    v.Some? && |v.value| >= 1
  }

  /** The issues `string().min(1, message)` reports for one field: a missing value stops at the type check. */
  function NonEmptyTextIssues(v: Option<string>, message: string): (issues: seq<Issue>)
    ensures issues == [] <==> IsNonEmptyText(v)
    ensures v.None? ==> issues == [InvalidType]
    ensures v.Some? && !IsNonEmptyText(v) ==> issues == [TooSmall(message)]
  {
    match v
    case None => [InvalidType]
    case Some(s) => if |s| < 1 then [TooSmall(message)] else []
  }

  /** Adds a field's issues to the errors when there are any. */
  function WithIssues(errors: FieldErrors, field: string, issues: seq<Issue>): (r: FieldErrors)
    ensures r.Keys == if issues == [] then errors.Keys else errors.Keys + {field}
    ensures field in r && field !in errors ==> r[field] == issues
    ensures forall k :: k in errors && k != field ==> k in r && r[k] == errors[k]
  {
    if issues == [] then errors else errors[field := issues]
  }

  // tenantSchema

  datatype TenantForm = TenantForm(tenantName: Option<string>)
  datatype TenantFields = TenantFields(tenantName: string)

  function ValidateTenant(form: TenantForm): (r: Result<TenantFields, FieldErrors>)
    ensures r.Success? <==> IsNonEmptyText(form.tenantName)
    ensures r.Success? ==> r.value.tenantName == form.tenantName.value
    ensures r.Failure? ==>
      r.error.Keys == {"tenantName"} &&
      r.error["tenantName"] == NonEmptyTextIssues(form.tenantName, TenantNameRequired)
  {
    var issues := NonEmptyTextIssues(form.tenantName, TenantNameRequired);
    if issues == [] then Success(TenantFields(form.tenantName.value))
    else Failure(map["tenantName" := issues])
  }

  // mappingSchema

  datatype MappingForm = MappingForm(senderName: Option<string>, tenantId: Option<string>)
  datatype MappingFields = MappingFields(senderName: string, tenantId: string)

  /** Both fields are checked, and each failing field reports under its own name. */
  function ValidateMapping(form: MappingForm): (r: Result<MappingFields, FieldErrors>)
    ensures r.Success? <==> IsNonEmptyText(form.senderName) && IsNonEmptyText(form.tenantId)
    ensures r.Success? ==> r.value == MappingFields(form.senderName.value, form.tenantId.value)
    ensures r.Failure? ==>
      r.error.Keys ==
        (if IsNonEmptyText(form.senderName) then {} else {"senderName"}) +
        (if IsNonEmptyText(form.tenantId) then {} else {"tenantId"})
    ensures r.Failure? && "senderName" in r.error ==>
      r.error["senderName"] == NonEmptyTextIssues(form.senderName, SenderNameRequired)
    ensures r.Failure? && "tenantId" in r.error ==>
      r.error["tenantId"] == NonEmptyTextIssues(form.tenantId, TenantRequired)
  {
    var senderIssues := NonEmptyTextIssues(form.senderName, SenderNameRequired);
    var tenantIssues := NonEmptyTextIssues(form.tenantId, TenantRequired);
    if senderIssues == [] && tenantIssues == [] then
      Success(MappingFields(form.senderName.value, form.tenantId.value))
    else
      Failure(WithIssues(WithIssues(map[], "senderName", senderIssues), "tenantId", tenantIssues))
  }

  // checkUpdateSchema

  datatype CheckUpdateForm = CheckUpdateForm(status: Option<string>, mappedTenantId: Option<string>)
  datatype CheckUpdateFields = CheckUpdateFields(status: CheckStatus, mappedTenantId: Option<string>)

  /** `formData.get('mappedTenantId') || null`: a missing or empty tenant id becomes null. */
  function CoerceTenantRef(v: Option<string>): (r: Option<string>)
    ensures r.None? <==> v.None? || v == Some("")
    ensures r.Some? ==> r == v
  {
    match v
    case None => None
    case Some(s) => if s == "" then None else Some(s)
  }

  /**
   * The status must be one of the four names; the tenant id, once coerced, is any string or
   * null, so it never fails and is not checked against the stored tenants.
   */
  function ValidateCheckUpdate(form: CheckUpdateForm): (r: Result<CheckUpdateFields, FieldErrors>)
    ensures r.Success? <==> form.status.Some? && form.status.value in StatusNames
    ensures r.Success? ==>
      StatusName(r.value.status) == form.status.value &&
      r.value.mappedTenantId == CoerceTenantRef(form.mappedTenantId)
    ensures r.Failure? ==> r.error == map["status" := if form.status.None? then [InvalidType] else [InvalidEnumValue]]
  {
    match form.status
    case None => Failure(map["status" := [InvalidType]])
    case Some(name) =>
      match ParseStatus(name)
      case None => Failure(map["status" := [InvalidEnumValue]])
      case Some(s) => Success(CheckUpdateFields(s, CoerceTenantRef(form.mappedTenantId)))
  }

  /** Any non-empty tenant id passes the check-update schema unchanged, whatever the status. */
  lemma AnyTenantIdAccepted(s: CheckStatus, tenantId: string)
    requires tenantId != ""
    ensures ValidateCheckUpdate(CheckUpdateForm(Some(StatusName(s)), Some(tenantId)))
      == Success(CheckUpdateFields(s, Some(tenantId)))
  {
    StatusNameRoundTrip(s);
  }
}
