/** A measured value, as it passes through the queue into the store. */
module Metric {
  datatype Metric = Metric(name: string, timestamp: nat, value: real, tags: string)
}
