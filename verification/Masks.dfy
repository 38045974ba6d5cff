/** Event masks and the channel's registration index (Channel.h, EPollPoller.cc). */
module Masks {

  /** An event mask, restricted to the five poll bits that the program names. */
  datatype Events = Events(pollIn: bool, pollPri: bool, pollOut: bool, pollErr: bool, pollHup: bool) {
    predicate IsNone() { this == NO_EVENT }
    predicate IsWriting() { pollOut }
    function WithReading(): Events { this.(pollIn := true, pollPri := true) }
    function WithoutReading(): Events { this.(pollIn := false, pollPri := false) }
    function WithWriting(): Events { this.(pollOut := true) }
    function WithoutWriting(): Events { this.(pollOut := false) }
  }

  const NO_EVENT := Events(false, false, false, false, false)

  /** Reading interest is input and urgent data, writing interest is output, and changing one leaves
      every other bit alone. */
  lemma InterestBits(e: Events)
    ensures e.WithReading() == Events(true, true, e.pollOut, e.pollErr, e.pollHup)
    ensures e.WithoutReading() == Events(false, false, e.pollOut, e.pollErr, e.pollHup)
    ensures e.WithWriting() == Events(e.pollIn, e.pollPri, true, e.pollErr, e.pollHup)
    ensures e.WithoutWriting() == Events(e.pollIn, e.pollPri, false, e.pollErr, e.pollHup)
    ensures e.IsWriting() <==> e.pollOut
    ensures e.IsNone() <==> e == Events(false, false, false, false, false)
  {
  }

  /** A report of plain input, and one of plain output. */
  const INPUT := Events(true, false, false, false, false)

  const OUTPUT := Events(false, false, true, false, false)

  /** index_ of a channel: kNew, kAdded or kDeleted. */
  datatype Index = New | Added | Deleted

  /** The index a channel has after its setter ran. */
  function NextIndex(index: Index, events: Events): Index {
    if index == Added && events.IsNone() then Deleted else Added
  }

  /** A report names a registered fd; error and hang-up are reported even when not asked for. */
  predicate Reportable(mask: Events, interest: Events) {
    && (mask.pollIn ==> interest.pollIn)
    && (mask.pollPri ==> interest.pollPri)
    && (mask.pollOut ==> interest.pollOut)
  }
}
