# Check-mapping review backend, modelled in Dafny

The application lets operators review scanned checks, correct the tenant a check is mapped
to, and keep two lookup collections: `tenants` and `internal_mappings` (a sender name
attributed to a tenant). This project models the server side of it:

- the record types `Tenant`, `Mapping`, `Check` and the four-valued `CheckStatus`
  (`records.dfy`, module `Records`);
- the three form schemas that validate action input (`schemas.dfy`, module `Schemas`);
- the seven server actions `addTenant`, `updateTenant`, `deleteTenant`, `addMapping`,
  `updateMapping`, `deleteMapping`, `updateCheck`, as methods of a `Database` class whose three
  fields are maps from record id to record (`actions.dfy`, module `Actions`);
- the check upload flow: it creates an Incoming record, strips the data-URI header, stores the
  image at `checks/<record id>/<token>.jpg`, and then merges the image URL and a placeholder
  sender name into the record (`upload_check.dfy`, module `UploadCheck`);
- client runs on fixture data, showing what callers can conclude from the contracts
  (`scenarios.dfy`, module `Scenarios`).

A form field is `Option<string>`: `None` stands for a field the form did not send (which
`FormData.get` reports as null). Every add and update action validates its form first. When
validation fails, it returns the flattened field errors and writes nothing. When it succeeds,
the action does one add or one merge-update. The two delete actions take only an id and have
no schema. No action changes any record or collection other than the one it names.

These things are parameters, because the code does not compute them:
- the id the store assigns to a new document, required to be fresh;
- the random token (`randomUUID`);
- the server timestamp;
- the download URL;
- whether a store call fails (`storeFails`, or the `UploadFault` step of the upload flow).

Two facts about the document store are modelled because the code relies on them:
- an update of a document that does not exist fails, and the action returns the same
  `_server` error as for any other store failure;
- a delete of a missing document with a well-formed id succeeds and changes nothing.

The code has none of the following, and neither does the model:
- no tenant id is checked against the stored tenants;
- deleting a tenant never fails because something refers to it;
- a check's status may be set to any of the four values from any status;
- a manual check update keeps `suggestionReason` and `mappingConfidence`;
- there is no sender-name resolution or confidence computation (new records get the sender
  name `"Unknown"`, then a placeholder).

## Model

| member | source | states |
|---|---|---|
| Records.ParseStatus | src/types/index.ts:12 | a status name is accepted exactly when it is one of "Incoming", "Processed", "Approved", "Denied", and the status read is the one with that name |
| Records.StatusName | src/types/index.ts:12 | writes each status under its wire name; its contract is carried by `StatusNameRoundTrip` and `ExactlyFourStatuses` |
| Records.StatusNameRoundTrip | src/types/index.ts:12 | every status has one of the four names, and reading that name gives the status back |
| Records.ExactlyFourStatuses | src/types/index.ts:12 | there are exactly four status names, each the name of a status, and distinct statuses have distinct names |
| Schemas.NonEmptyTextIssues | src/lib/actions.ts:16 | `string().min(1)` reports no issue exactly for a present, non-empty field; a missing field is a type issue; an empty one is a too-small issue carrying the rule's message |
| Schemas.ValidateTenant | src/lib/actions.ts:15-28 | the tenant form passes exactly when `tenantName` is present and non-empty, and then yields that name; otherwise the errors hold only the `tenantName` field, with its issue |
| Schemas.ValidateMapping | src/lib/actions.ts:84-99 | the mapping form passes exactly when both `senderName` and `tenantId` are present and non-empty, and then yields exactly those two strings; otherwise the error keys are exactly the failing fields, each with its own message |
| Schemas.CoerceTenantRef | src/lib/actions.ts:164 | a missing or empty tenant id becomes null; any other value is kept unchanged |
| Schemas.ValidateCheckUpdate | src/lib/actions.ts:152-171 | the check form passes exactly when `status` is one of the four names; it then yields that status and the coerced tenant id; otherwise the errors hold only `status` (type issue if missing, enum issue if unknown) |
| Schemas.AnyTenantIdAccepted | src/lib/actions.ts:154 | any non-empty tenant id, with any valid status, passes the check schema unchanged; no tenant lookup takes part |
| Actions.Database.AddTenant | src/lib/actions.ts:19-41 | invalid form: its field errors, nothing written; store failure: `_server` error, nothing written; otherwise the new id maps to the validated name and the message is returned; mappings and checks unchanged |
| Actions.Database.UpdateTenant | src/lib/actions.ts:43-68 | invalid form: field errors, no write; failure or unknown id: `_server` error, no write; otherwise only that tenant's `tenantName` changes; mappings and checks unchanged |
| Actions.Database.DeleteTenant | src/lib/actions.ts:70-81 | on success only that id leaves `tenants` and mappings and checks that refer to it stay as they are; a failure returns `{error}` and changes nothing |
| Actions.Database.AddMapping | src/lib/actions.ts:89-110 | invalid form: field errors, no write; failure: `_server` error; otherwise the new id maps to exactly the validated sender name and tenant id, whether or not that tenant exists |
| Actions.Database.UpdateMapping | src/lib/actions.ts:112-137 | invalid form: field errors, no write; failure or unknown id: `_server` error; otherwise only that mapping's two fields are replaced by the validated ones |
| Actions.Database.DeleteMapping | src/lib/actions.ts:139-149 | on success only that id leaves `internal_mappings`; a failure returns `{error}` and changes nothing; tenants and checks unchanged |
| Actions.Database.UpdateCheck | src/lib/actions.ts:157-186 | invalid form: field errors, check unchanged; failure or unknown id: `_server` error; otherwise status and tenant are set as given from any prior status, the suggestion flag is cleared, and every other field keeps its value |
| UploadCheck.IndexOf | src/ai/flows/upload-check-flow.ts:54 | the result is -1 exactly when the character is absent; otherwise it is the position of its first occurrence |
| UploadCheck.StripDataUriPrefix | src/ai/flows/upload-check-flow.ts:54 | the payload is a suffix of the URI; with no comma it is the whole URI, otherwise it starts right after the first comma |
| UploadCheck.StripDataUriPrefixRoundTrip | src/ai/flows/upload-check-flow.ts:53-54 | for a header without a comma, stripping `header + "," + payload` gives back exactly the payload |
| UploadCheck.StoragePath | src/ai/flows/upload-check-flow.ts:50 | builds `checks/<record id>/<token>.jpg`; its contract is carried by `StoragePathRoundTrip` and `StoragePathInjective` |
| UploadCheck.ParseStoragePath | src/ai/flows/upload-check-flow.ts:50 | a path that parses is exactly `checks/<id>/<token>.jpg` for the id and token read, and the id has no '/' |
| UploadCheck.StoragePathRoundTrip | src/ai/flows/upload-check-flow.ts:50 | a record id without '/' and its token are read back from the storage path built of them |
| UploadCheck.StoragePathInjective | src/ai/flows/upload-check-flow.ts:50 | two uploads with different record ids or tokens never share a blob path |
| UploadCheck.PlaceholderName | src/ai/flows/upload-check-flow.ts:66 | the name is "Uploaded Check " followed by a prefix of the record id that is four characters long, or the whole id when it is shorter |
| UploadCheck.InitialCheck | src/ai/flows/upload-check-flow.ts:33-42 | the record created before the upload; its contract is carried by `UploadLeavesCheckUnresolved` |
| UploadCheck.WithImage | src/ai/flows/upload-check-flow.ts:64-67 | the merge-update after the upload; its contract is carried by `UploadLeavesCheckUnresolved` |
| UploadCheck.UploadLeavesCheckUnresolved | src/ai/flows/upload-check-flow.ts:33-67 | the first record is Incoming with no tenant, suggestion or confidence; the second write adds only the image URL and the placeholder name, so those stay unset |
| UploadCheck.UploadCheckFlow | src/ai/flows/upload-check-flow.ts:26-70 | success returns the record id, not the stored token; the record is Incoming with the token as `checkId`, the blob is the stripped base64 payload with content type JPEG, and the record gains the URL and placeholder name; a failed step leaves earlier writes in place |
| Scenarios.TenantAddedThenRead | src/lib/actions.ts:30-36 | a tenant added and read back by its id carries that id and the submitted name |
| Scenarios.EmptyTenantNameRefused | src/lib/actions.ts:15-28 | an empty tenant name is refused with "Tenant name is required." and no tenant is written |
| Scenarios.DeleteLeavesDanglingMapping | src/lib/actions.ts:70-73 | after deleting a tenant, a mapping pointing to it remains and refers to no tenant |
| Scenarios.UploadThenApprove | src/lib/actions.ts:174-178 | an uploaded check approved for a tenant has status Approved, that tenant, no suggestion flag, and still its token and placeholder name |
| Scenarios.ArchivedRefused | src/lib/actions.ts:152-171 | the check schema refuses the status "Archived" with exactly one enum issue under `status` |
| Scenarios.UnknownStatusRefused | src/lib/actions.ts:152-171 | the status "Archived" is refused with an enum issue on `status` and the stored check is unchanged |
| Scenarios.FailedUploadLeavesRecord | src/ai/flows/upload-check-flow.ts:44-58 | when the image upload fails, the record remains, Incoming, named "Unknown", without an image, and no blob is stored |

## Left out

- Document-store and blob-store calls (`addDoc`, `updateDoc`, `deleteDoc`, `uploadString`,
  `getDownloadURL`) are foreign I/O. They are replaced by the maps of `Database` and
  `BlobStorage`. Their failures are flags, and their generated ids and URLs are parameters.
- `revalidatePath` and `console.error` have no effect on the stored data and are not modelled.
  A `revalidatePath` failure after a successful write (the write stays, and `_server` is
  returned) is not modelled either: the failure flag fails the store call itself.
- The blob is represented by the base64 text passed to `uploadString`, not by the decoded
  bytes. Base64 validity is not modelled. A payload the store rejects (for example a URI
  without a comma, whose header is passed whole) shows up only as the free `UploadFails`
  choice, which leaves the first record in place.
- Some ids cannot name a document in a collection: the empty id, an id with an even number of
  '/'-separated segments (such as "a/b"), or an id containing "//". For these, the document
  reference is never built, and update and delete throw inside their `try`. The model does
  not derive this from the id; it is covered only by the `storeFails` flag. So a delete of such
  an id returns `{error}` in the code, while the model's delete with `storeFails` false succeeds.
  The store also drops empty path segments, so "T1/" names the document T1. The model keys by
  the raw string, so its delete of "T1/" changes nothing, while the code deletes T1.
- UploadCheckFlow: the four awaited steps (create the record, upload the image, fetch the URL,
  merge the URL and name) are modelled with no other write to the record between the first
  write and the last. The record is visible in `checks` during that window. A concurrent write
  there is not modelled: an operator's check update, which the final merge would keep, or a
  sender name set by another process, which the placeholder name would overwrite.
- `randomUUID` and `serverTimestamp` are nondeterministic and are parameters.
- A form field holding a file instead of text is not modelled. Fields are text or absent.
- The schema library's built-in messages (for a missing field or an unknown enum value) are
  the issue kinds `InvalidType` and `InvalidEnumValue`, not their texts. Custom messages are
  modelled exactly.
- Strings are sequences of Unicode scalar values. JavaScript measures `length` and cuts
  `substring` in UTF-16 code units, which differs only for characters outside the Basic
  Multilingual Plane.
- `mappingConfidence` is a `real`. The code stores it and never computes with it.
- The React components, the page data fetchers (their ordering is done by the store's
  `orderBy`), the seed script and the store initialisation are presentation, query or
  configuration code. They are not part of this model. The `createCheck` action that the
  upload dialog imports is not part of this model.
- There is no sender-name resolution, confidence engine, status-transition rule or
  referential check in the code, so the model has none.
