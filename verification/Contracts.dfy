/** The job events and worker claims that the worker's parts exchange, as their decoders accept them. */
module Contracts {
  import opened Wrappers

  /** A job event; scope and rest stand for fields that are only compared. */
  datatype Event = Event(
    eventId: string, jobId: string, traceId: string, profileVersionId: Option<string>, expectedStateVersion: int,
    scope: int, rest: int)

  /** A worker claim; the lease may be extended between two claims for one event. */
  datatype Claim = Claim(
    jobId: string, traceId: string, profileVersionId: string, leaseId: string, leaseExpiresAt: int,
    stateVersion: int, resume: bool, scope: int, snapshot: int)

  /** Only events of versioned profiles carry a profile version. */
  predicate IsProfileBound(event: Event) {
    event.profileVersionId.Some?
  }

  /** The contract every decoded event satisfies. */
  predicate EventIsValid(event: Event) {
    event.expectedStateVersion >= 1
  }

  /** The contract every claim decoded for an event satisfies. */
  predicate ClaimIsFor(claim: Claim, event: Event) {
    && claim.jobId == event.jobId && claim.traceId == event.traceId
    && claim.stateVersion >= 1 && claim.stateVersion > event.expectedStateVersion
    && (event.profileVersionId.Some? ==> claim.profileVersionId == event.profileVersionId.value)
    && claim.scope == event.scope
  }
}
