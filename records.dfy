/** The record types held by the three collections (`tenants`, `internal_mappings`, `checks`). */
module Records {
  import opened Wrappers

  /** A customer organisation. `id` is the key of its document in `tenants`. */
  datatype Tenant = Tenant(id: string, tenantName: string)

  /** An alias: a sender name attributed to a tenant. The tenant is referred to only by its id string. */
  datatype Mapping = Mapping(id: string, senderName: string, tenantId: string)

  /** The four review states of a check. */
  datatype CheckStatus = Incoming | Processed | Approved | Denied

  /** The mapping confidence is stored and shown but never computed with by this code. */
  type Confidence = real

  /** The store's server timestamp, resolved by the store when a record is written. */
  type Timestamp = nat

  /**
   * A scanned check. Besides the fields of the record type, a stored check may hold the
   * image URL and the creation timestamp written by the upload flow.
   */
  datatype Check = Check(
    id: string,
    checkId: string,
    senderName: string,
    status: CheckStatus,
    mappedTenantId: Option<string>,
    isSuggestion: bool,
    suggestionReason: Option<string>,
    mappingConfidence: Option<Confidence>,
    imageUrl: Option<string>,
    createdAt: Option<Timestamp>)

  /** The wire names of the statuses. */
  const StatusNames: set<string> := {"Incoming", "Processed", "Approved", "Denied"}

  function StatusName(s: CheckStatus): string {
    match s
    case Incoming => "Incoming"
    case Processed => "Processed"
    case Approved => "Approved"
    case Denied => "Denied"
  }

  /** Reads a status from its wire name; exactly the four names are accepted. */
  function ParseStatus(name: string): (r: Option<CheckStatus>)
    ensures r.Some? <==> name in StatusNames
    ensures r.Some? ==> StatusName(r.value) == name
  {
    if name == "Incoming" then Some(Incoming)
    else if name == "Processed" then Some(Processed)
    else if name == "Approved" then Some(Approved)
    else if name == "Denied" then Some(Denied)
    else None
  }

  /** Every status is written under its own name, and reading that name gives the status back. */
  lemma StatusNameRoundTrip(s: CheckStatus)
    ensures StatusName(s) in StatusNames
    ensures ParseStatus(StatusName(s)) == Some(s)
  {
  }

  /** There are exactly four statuses: the name map is a bijection onto a four-element set. */
  lemma ExactlyFourStatuses()
    ensures |StatusNames| == 4
    ensures forall name :: name in StatusNames ==> exists s :: StatusName(s) == name
    ensures forall s, t :: StatusName(s) == StatusName(t) ==> s == t
  {
    assert StatusName(Incoming) == "Incoming";
    assert StatusName(Processed) == "Processed";
    assert StatusName(Approved) == "Approved";
    assert StatusName(Denied) == "Denied";
  }

  /** Each collection is keyed by the id its records carry. */
  predicate TenantsKeyed(m: map<string, Tenant>) {
    forall k :: k in m ==> m[k].id == k
  }

  predicate MappingsKeyed(m: map<string, Mapping>) {
    forall k :: k in m ==> m[k].id == k
  }

  predicate ChecksKeyed(m: map<string, Check>) {
    forall k :: k in m ==> m[k].id == k
  }
}
