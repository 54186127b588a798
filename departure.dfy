/**
 * A departure record whose four mutable fields each have a setter. Times
 * (`DateTime<Utc>`) are integer timestamps.
 */
module Departures {
  import opened Wrappers

  class Departure {
    var destination: string
    var scheduledTime: int
    var expectedTime: Option<int>
    var callingPoints: seq<string>
    var platform: Option<U8>
    var status: string
    var delayReason: Option<string>
    var operator: string

    function Destination(): string reads this { destination }
    function ScheduledTime(): int reads this { scheduledTime }
    function ExpectedTime(): Option<int> reads this { expectedTime }
    function CallingPoints(): seq<string> reads this { callingPoints }
    function Platform(): Option<U8> reads this { platform }
    function Status(): string reads this { status }
    function DelayReason(): Option<string> reads this { delayReason }
    function Operator(): string reads this { operator }

    /** The fields that have no setter: fixed from construction on. */
    ghost predicate SameFixedFields(destination0: string, scheduledTime0: int, callingPoints0: seq<string>, operator0: string)
      reads this
    {
      Destination() == destination0 && ScheduledTime() == scheduledTime0
      && CallingPoints() == callingPoints0 && Operator() == operator0
    }

    /** `Departure::new`: every getter returns the argument of the same name. */
    constructor (destination: string, scheduledTime: int, expectedTime: Option<int>, callingPoints: seq<string>,
                 platform: Option<U8>, status: string, delayReason: Option<string>, operator: string)
      ensures SameFixedFields(destination, scheduledTime, callingPoints, operator)
      ensures ExpectedTime() == expectedTime && Platform() == platform
      ensures Status() == status && DelayReason() == delayReason
    {
      this.destination := destination;
      this.scheduledTime := scheduledTime;
      this.expectedTime := expectedTime;
      this.callingPoints := callingPoints;
      this.platform := platform;
      this.status := status;
      this.delayReason := delayReason;
      this.operator := operator;
    }

    /** `set_expected_time`: only the expected time changes. */
    method SetExpectedTime(expectedTime: Option<int>)
      modifies this`expectedTime
      ensures ExpectedTime() == expectedTime
      ensures SameFixedFields(old(destination), old(scheduledTime), old(callingPoints), old(operator))
      ensures Platform() == old(platform) && Status() == old(status) && DelayReason() == old(delayReason)
    {
      this.expectedTime := expectedTime;
    }

    /** `set_platform`: only the platform changes. */
    method SetPlatform(platform: Option<U8>)
      modifies this`platform
      ensures Platform() == platform
      ensures SameFixedFields(old(destination), old(scheduledTime), old(callingPoints), old(operator))
      ensures ExpectedTime() == old(expectedTime) && Status() == old(status) && DelayReason() == old(delayReason)
    {
      this.platform := platform;
    }

    /** `set_status`: only the status changes. */
    method SetStatus(status: string)
      modifies this`status
      ensures Status() == status
      ensures SameFixedFields(old(destination), old(scheduledTime), old(callingPoints), old(operator))
      ensures ExpectedTime() == old(expectedTime) && Platform() == old(platform) && DelayReason() == old(delayReason)
    {
      this.status := status;
    }

    /** `set_delay_reason`: only the delay reason changes. */
    method SetDelayReason(delayReason: Option<string>)
      modifies this`delayReason
      ensures DelayReason() == delayReason
      ensures SameFixedFields(old(destination), old(scheduledTime), old(callingPoints), old(operator))
      ensures ExpectedTime() == old(expectedTime) && Platform() == old(platform) && Status() == old(status)
    {
      this.delayReason := delayReason;
    }
  }
}
