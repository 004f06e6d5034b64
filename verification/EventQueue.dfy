/** The bounded channel from the host to an instance's dispatcher (host.go:100-125). */
module EventQueue {
  const QUEUE_CAP := 1024

  datatype Outcome<T> = Queued(queue: seq<T>) | Dropped | Overflow

  /**
   enqueue. A shut-down instance may take the event or drop it, as the select pleases (`drop`);
   it never waits, and a full buffer fails an instance that is still up.
   */
  function Enqueue<T>(queue: seq<T>, e: T, down: bool, drop: bool): Outcome<T> {
    if |queue| < QUEUE_CAP && !(down && drop) then Queued(queue + [e]) else if down then Dropped else Overflow
  }
}
