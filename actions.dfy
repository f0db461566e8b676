/**
 * The server actions over the three collections. Each action validates its form, and on
 * success performs one add, one merge-update or one delete; it never touches another record
 * or another collection.
 *
 * The store is the in-memory `Database`. A failing store call is the flag `storeFails`; an
 * update of a record that does not exist fails as well, while a delete of a missing record
 * succeeds without effect. The id a new record receives is chosen by the store and passed in.
 */
module Actions {
  import opened Wrappers
  import opened Records
  import opened Schemas

  /** What an action returns to its form: `{message}`, `{errors}` or `{error}`. */
  datatype ActionState = Message(message: string) | Errors(errors: FieldErrors) | Error(error: string)

  /** `{errors: {_server: [text]}}`, returned when an add or an update fails in the store. */
  function ServerFailure(text: string): ActionState {
    Errors(map["_server" := [Server(text)]])
  }

  class Database {
    var tenants: map<string, Tenant>
    var mappings: map<string, Mapping>
    var checks: map<string, Check>

    /** Every record is stored under its own id. */
    ghost predicate Valid()
      reads this
    {
      TenantsKeyed(tenants) && MappingsKeyed(mappings) && ChecksKeyed(checks)
    }

    constructor ()
      ensures Valid()
      ensures tenants == map[] && mappings == map[] && checks == map[]
    {
      tenants, mappings, checks := map[], map[], map[];
    }

    method AddTenant(form: TenantForm, newId: string, storeFails: bool) returns (r: ActionState)
      requires Valid() && newId !in tenants
      modifies this
      ensures Valid()
      ensures mappings == old(mappings) && checks == old(checks)
      ensures match ValidateTenant(form)
        case Failure(e) => r == Errors(e) && tenants == old(tenants)
        case Success(d) =>
          if storeFails then r == ServerFailure("Failed to add tenant.") && tenants == old(tenants)
          else r == Message("Tenant added successfully.") &&
               tenants == old(tenants)[newId := Tenant(newId, d.tenantName)]
    {
      var v := ValidateTenant(form);
      if v.Failure? {
        return Errors(v.error);
      }
      if storeFails {
        return ServerFailure("Failed to add tenant.");
      }
      tenants := tenants[newId := Tenant(newId, v.value.tenantName)];
      r := Message("Tenant added successfully.");
    }

    method UpdateTenant(id: string, form: TenantForm, storeFails: bool) returns (r: ActionState)
      requires Valid()
      modifies this
      ensures Valid()
      ensures mappings == old(mappings) && checks == old(checks)
      ensures match ValidateTenant(form)
        case Failure(e) => r == Errors(e) && tenants == old(tenants)
        case Success(d) =>
          if storeFails || id !in old(tenants) then
            r == ServerFailure("Failed to update tenant.") && tenants == old(tenants)
          else
            r == Message("Tenant updated successfully.") &&
            tenants == old(tenants)[id := old(tenants)[id].(tenantName := d.tenantName)]
    {
      var v := ValidateTenant(form);
      if v.Failure? {
        return Errors(v.error);
      }
      if storeFails || id !in tenants {
        return ServerFailure("Failed to update tenant.");
      }
      tenants := tenants[id := tenants[id].(tenantName := v.value.tenantName)];
      r := Message("Tenant updated successfully.");
    }

    /** No check is made for mappings or checks that still refer to the tenant. */
    method DeleteTenant(id: string, storeFails: bool) returns (r: ActionState)
      requires Valid()
      modifies this
      ensures Valid()
      ensures mappings == old(mappings) && checks == old(checks)
      ensures storeFails ==> r == Error("Failed to delete tenant.") && tenants == old(tenants)
      ensures !storeFails ==> r == Message("Tenant deleted successfully.") && tenants == old(tenants) - {id}
    {
      if storeFails {
        return Error("Failed to delete tenant.");
      }
      tenants := tenants - {id};
      r := Message("Tenant deleted successfully.");
    }

    /** The tenant id is stored as given: it is not looked up among the tenants. */
    method AddMapping(form: MappingForm, newId: string, storeFails: bool) returns (r: ActionState)
      requires Valid() && newId !in mappings
      modifies this
      ensures Valid()
      ensures tenants == old(tenants) && checks == old(checks)
      ensures match ValidateMapping(form)
        case Failure(e) => r == Errors(e) && mappings == old(mappings)
        case Success(d) =>
          if storeFails then r == ServerFailure("Failed to add mapping.") && mappings == old(mappings)
          else r == Message("Mapping added successfully.") &&
               mappings == old(mappings)[newId := Mapping(newId, d.senderName, d.tenantId)]
    {
      var v := ValidateMapping(form);
      if v.Failure? {
        return Errors(v.error);
      }
      if storeFails {
        return ServerFailure("Failed to add mapping.");
      }
      mappings := mappings[newId := Mapping(newId, v.value.senderName, v.value.tenantId)];
      r := Message("Mapping added successfully.");
    }

    method UpdateMapping(id: string, form: MappingForm, storeFails: bool) returns (r: ActionState)
      requires Valid()
      modifies this
      ensures Valid()
      ensures tenants == old(tenants) && checks == old(checks)
      ensures match ValidateMapping(form)
        case Failure(e) => r == Errors(e) && mappings == old(mappings)
        case Success(d) =>
          if storeFails || id !in old(mappings) then
            r == ServerFailure("Failed to update mapping.") && mappings == old(mappings)
          else
            r == Message("Mapping updated successfully.") &&
            mappings == old(mappings)[id := old(mappings)[id].(senderName := d.senderName, tenantId := d.tenantId)]
    {
      var v := ValidateMapping(form);
      if v.Failure? {
        return Errors(v.error);
      }
      if storeFails || id !in mappings {
        return ServerFailure("Failed to update mapping.");
      }
      mappings := mappings[id := mappings[id].(senderName := v.value.senderName, tenantId := v.value.tenantId)];
      r := Message("Mapping updated successfully.");
    }

    method DeleteMapping(id: string, storeFails: bool) returns (r: ActionState)
      requires Valid()
      modifies this
      ensures Valid()
      ensures tenants == old(tenants) && checks == old(checks)
      ensures storeFails ==> r == Error("Failed to delete mapping.") && mappings == old(mappings)
      ensures !storeFails ==> r == Message("Mapping deleted successfully.") && mappings == old(mappings) - {id}
    {
      if storeFails {
        return Error("Failed to delete mapping.");
      }
      mappings := mappings - {id};
      r := Message("Mapping deleted successfully.");
    }

    /**
     * A manual review: sets the status and the tenant as given, from any prior status, and
     * clears the suggestion flag. Sender name, check id, suggestion reason, confidence, image
     * and timestamp keep their values.
     */
    method UpdateCheck(id: string, form: CheckUpdateForm, storeFails: bool) returns (r: ActionState)
      requires Valid()
      modifies this
      ensures Valid()
      ensures tenants == old(tenants) && mappings == old(mappings)
      ensures match ValidateCheckUpdate(form)
        case Failure(e) => r == Errors(e) && checks == old(checks)
        case Success(d) =>
          if storeFails || id !in old(checks) then
            r == ServerFailure("Failed to update check.") && checks == old(checks)
          else
            r == Message("Check updated successfully.") &&
            checks == old(checks)[id := old(checks)[id].(status := d.status, mappedTenantId := d.mappedTenantId, isSuggestion := false)]
    {
      var v := ValidateCheckUpdate(form);
      if v.Failure? {
        return Errors(v.error);
      }
      if storeFails || id !in checks {
        return ServerFailure("Failed to update check.");
      }
      checks := checks[id := checks[id].(status := v.value.status, mappedTenantId := v.value.mappedTenantId, isSuggestion := false)];
      r := Message("Check updated successfully.");
    }
  }
}
