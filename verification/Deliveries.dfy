/** The life of a delivery row, as packages/db/src/schema/surface-deliveries.ts has its states. */
module Deliveries {

  datatype Delivery = Queued | Sending | Accepted | Skipped | Rejected | Uncertain | Blocked

  predicate Terminal(d: Delivery) {
    !d.Queued? && !d.Sending?
  }

  type Outcome = d: Delivery | Terminal(d) witness Blocked

  predicate InFlight(d: Delivery) {
    d.Sending? || d.Uncertain?
  }
}
