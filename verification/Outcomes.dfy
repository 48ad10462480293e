/** Statuses and error words shared by the two executors, the dispatcher and the ledger. */
module Outcomes {
  datatype Status = Attempted | Succeeded | Failed | Skipped

  /** The fixed error words of the source, and `FreeText` for any other text, such as git's own output. */
  datatype Reason =
    | FreeText(text: string)
    | RepoPathNotADirectory
    | TargetRefRequired | SourceShaRequired | BaseShaRequired | PreMergeShaRequired | PostMergeShaRequired
    | TargetRefDrift | BaseShaMismatch | SourceAlreadyMerged | MergeMadeNoCommit
    | CurrentHeadMismatchPostMerge | RollbackMadeNoCommit
    | MergeNotRequestedOrNotEligible | ExecutionTargetIdentityMissing | ExecutionTargetNotPersisted
    | AlreadyMergedForCandidate
    | RollbackNotRequestedOrNotEligible | RollbackTraceIdRequired | RollbackTraceNotFound
    | MergeExecutionNotSucceeded | MergeExecutionLinkageIncomplete
    | TraceLinkageIncomplete | TraceRepoMismatch | AlreadyRolledBackForTrace
    | RollbackTracePersistenceFailed | RollbackTraceRequired
}
