/** Values shared by the in-memory and the durable Flash delivery models. */
module FlashTypes {

  type JobId = string
  type Token = nat

  // The canonical JSON text of a result: equality of texts is equality of results.
  type ResultJson = string

  // SHA-256 of a claim token, taken to be injective.
  datatype ClaimHash = Sha256(token: Token)

  // Stands for the text "{job}-attempt-{number}".
  datatype AttemptId = AttemptId(job: JobId, number: nat)

  datatype WorkBudget = WorkBudget(wallSeconds: real, maxAttempts: nat) {
    predicate Valid() {
      wallSeconds > 0.0 && maxAttempts >= 1
    }
  }

  // `body` is everything in a work contract that delivery never looks at.
  datatype WorkContract = WorkContract(contractId: string, budget: WorkBudget, body: string)

  datatype Delivery<+A, +L> = Delivery(
    jobId: JobId, contractId: string, attemptId: A, leaseId: L, leaseExpiresAt: real)
}
