/** The event log and the delivery to subscribers taken together. */
module DeliveryTheorems {
  import EventLog
  import EventLogTheorems
  import opened Delivery

  /** With one writer, every callback processes events of consecutive ids, in id order: whatever was put on
      the queue came off a stream opened on any files, however often it was reopened, and the callbacks
      were added, shut down and removed at any time. */
  lemma DeliveryIsInIdOrder(size: nat, files: map<nat, EventLog.Record>, cache: map<nat, seq<EventLog.Record>>,
                            log: seq<EventLog.Label>, ls: seq<Label<EventLog.Record>>, cb: Callback)
    requires EventLog.PossibleRun(EventLog.Opened(size, files, cache), log)
    requires EventLogTheorems.OneWriter(EventLog.Opened(size, files, cache), log)
    requires PossibleRun(Fresh(), ls) && cb in Final(Fresh(), ls).pools
    requires Final(Fresh(), ls).puts <= EventLog.Final(EventLog.Opened(size, files, cache), log).queue
    ensures var p := Final(Fresh(), ls).pools[cb];
            && p.done <= |p.submitted|
            && forall i :: 0 <= i < p.done ==> Processed(p)[i].id == Processed(p)[0].id + i
  {
    hide *;
    EventLogTheorems.OneWriterQueuesInIdOrder(size, files, cache, log);
    SameDeliveryOrder(ls, cb, cb);
    var p, queue := Final(Fresh(), ls).pools[cb], EventLog.Final(EventLog.Opened(size, files, cache), log).queue;
    assert forall i :: 0 <= i < p.done ==> Processed(p)[i] == queue[p.from + i];
  }
}
