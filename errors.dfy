/** The failures the unit of work can raise or let through, as tags only. */
module Errors {

  datatype Failure =
    /** Tracking a (type, id) that is already tracked (AggregateRootIsAlreadyTracked). */
    | AlreadyTracked
    /** The store's expected-version check failed at commit time (OptimisticConcurrencyFailed). */
    | OptimisticConcurrencyFailed
    /** A change carries no event id and no event-id generator was configured. */
    | NoEventIdGenerator
    /** No commit-id generator was configured. */
    | NoCommitIdGenerator
}
