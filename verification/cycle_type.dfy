// The state a bus is in during one clock cycle, as every classifier reports it.
module Cycles {
  datatype CycleType = Busy | Free | NoTransaction | Backpressure | NoData | Reset | Unknown
}
