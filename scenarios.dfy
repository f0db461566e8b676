/**
 * Client runs of the actions and the upload flow on fixture data (the seed's tenants and
 * aliases), showing what a caller can conclude from the contracts alone.
 */
module Scenarios {
  import opened Wrappers
  import opened Records
  import opened Schemas
  import opened Actions
  import opened UploadCheck

  /** A tenant added and then read back by its id carries that id and the name that was submitted. */
  method TenantAddedThenRead() returns (r: ActionState, tenant: Tenant)
    ensures r == Message("Tenant added successfully.")
    ensures tenant == Tenant("T1", "Stark Industries")
  {
    var db := new Database();
    r := db.AddTenant(TenantForm(Some("Stark Industries")), "T1", false);
    tenant := db.tenants["T1"];
  }

  /** An empty tenant name is refused with the form's message, and no tenant is written. */
  method EmptyTenantNameRefused() returns (r: ActionState, count: nat)
    ensures r == Errors(map["tenantName" := [TooSmall("Tenant name is required.")]])
    ensures count == 0
  {
    var db := new Database();
    r := db.AddTenant(TenantForm(Some("")), "T1", false);
    count := |db.tenants|;
  }

  /** Deleting a tenant leaves the mapping that refers to it, now dangling. */
  method DeleteLeavesDanglingMapping() returns (m: Mapping, tenantIds: set<string>)
    ensures m == Mapping("M1", "Tony Stark", "T1")
    ensures m.tenantId !in tenantIds
  {
    var db := new Database();
    var _ := db.AddTenant(TenantForm(Some("Stark Industries")), "T1", false);
    var _ := db.AddMapping(MappingForm(Some("Tony Stark"), Some("T1")), "M1", false);
    var _ := db.DeleteTenant("T1", false);
    m := db.mappings["M1"];
    tenantIds := db.tenants.Keys;
  }

  /** An uploaded check approved by hand for a tenant: the suggestion flag is off, the token kept. */
  method UploadThenApprove() returns (out: Result<UploadCheckOutput, UploadFault>, r: ActionState, c: Check)
    ensures out == Success(UploadCheckOutput("abcdef"))
    ensures r == Message("Check updated successfully.")
    ensures c.status == Approved && c.mappedTenantId == Some("T1") && !c.isSuggestion
    ensures c.checkId == "uuid-1" && c.senderName == PlaceholderName("abcdef")
  {
    var db := new Database();
    var storage := new BlobStorage();
    out := UploadCheckFlow(db, storage, "QUJD", "uuid-1", "abcdef", 7, "https://blob/1", NoFault);
    var form := CheckUpdateForm(Some(StatusName(Approved)), Some("T1"));
    AnyTenantIdAccepted(Approved, "T1");
    r := db.UpdateCheck("abcdef", form, false);
    c := db.checks["abcdef"];
  }

  /** "Archived" is not a status name, so the check schema reports an enum issue on `status`. */
  lemma ArchivedRefused()
    ensures ValidateCheckUpdate(CheckUpdateForm(Some("Archived"), None)) == Failure(map["status" := [InvalidEnumValue]])
  {
    assert "Archived" != "Incoming" && "Archived" != "Processed";
    assert "Archived" != "Approved" && "Archived" != "Denied";
  }

  /** A status outside the four names is refused and the stored check is left as it was. */
  method UnknownStatusRefused() returns (r: ActionState, before: Check, after: Check)
    ensures r == Errors(map["status" := [InvalidEnumValue]])
    ensures before == after
  {
    var db := new Database();
    var storage := new BlobStorage();
    var _ := UploadCheckFlow(db, storage, "QUJD", "uuid-1", "abcdef", 7, "https://blob/1", NoFault);
    before := db.checks["abcdef"];
    ArchivedRefused();
    r := db.UpdateCheck("abcdef", CheckUpdateForm(Some("Archived"), None), false);
    after := db.checks["abcdef"];
  }

  /** A failed image upload leaves the first record behind, still "Unknown" and without an image. */
  method FailedUploadLeavesRecord() returns (out: Result<UploadCheckOutput, UploadFault>, c: Check, blobCount: nat)
    ensures out == Failure(UploadFails)
    ensures c.senderName == "Unknown" && c.imageUrl.None? && c.status == Incoming
    ensures blobCount == 0
  {
    var db := new Database();
    var storage := new BlobStorage();
    out := UploadCheckFlow(db, storage, "QUJD", "uuid-1", "abcdef", 7, "https://blob/1", UploadFails);
    c := db.checks["abcdef"];
    blobCount := |storage.blobs|;
  }
}
