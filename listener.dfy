/** The part of a diagnostic listener the emitters rely on: a cheap
    "is anyone listening on this channel" test and a publish operation.
    Subscribers are abstracted to the set of channel names they enable, and
    everything published is recorded, in order, in `log`. */
module Listeners {
  import opened Payloads

  class DiagnosticListener {
    /** The listener's own name, which subscribers see as the event source. */
    const Name: string
    /** Channel names for which at least one subscriber is listening. */
    var enabled: set<string>
    /** Every event written so far, oldest first. */
    var log: seq<Event>

    constructor (name: string, enabled: set<string>)
      ensures Name == name && this.enabled == enabled && log == []
    {
      Name := name;
      this.enabled := enabled;
      log := [];
    }

    /** True when some subscriber listens on `name`. */
    predicate IsEnabled(name: string)
      reads this
    {
      name in enabled
    }

    /** Publishes `value` on channel `name`; writing does not consult `enabled`. */
    method Write(name: string, value: Payload)
      modifies this`log
      ensures log == old(log) + [Event(name, value)]
    {
      log := log + [Event(name, value)];
    }
  }
}
