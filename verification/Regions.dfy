/** The atomic regions of the signaling service: every update made under one of
    its two locks and every channel push is one of these functions. They are
    generic in the pointers stored in the tables, so that the interleaved machine
    (whose pointers are numbers) and the classes (whose pointers are objects)
    are made of the very same regions. */
module Regions {

  /** The capacity of every outbound queue. */
  const CAPACITY: nat := 32

  predicate HasRoom<T>(queue: seq<T>) {
    |queue| < CAPACITY
  }

  /** A non-blocking push: the value is dropped when the queue is full. */
  function Offer<T>(queue: seq<T>, x: T): seq<T> {
    if HasRoom(queue) then queue + [x] else queue
  }

  /** presence.register, apart from cancelling the replaced connection. */
  function Registered<C>(conns: map<string, C>, dev: string, conn: C): map<string, C> {
    conns[dev := conn]
  }

  /** presence.unregister: only the connection in the table may take itself out. */
  function Unregistered<C(==)>(conns: map<string, C>, dev: string, conn: C): map<string, C> {
    if dev in conns && conns[dev] == conn then conns - {dev} else conns
  }

  /** The insertion made by sessionBroker.open. */
  function Inserted<S>(table: map<string, S>, id: string, session: S): map<string, S> {
    table[id := session]
  }

  /** The deletion made by sessionBroker.close. */
  function Removed<S>(table: map<string, S>, id: string): map<string, S> {
    table - {id}
  }

  /** The ids collected by sessionBroker.closeByDevice. */
  function Collected<S>(table: map<string, S>, deviceOf: S --> string, dev: string): set<string>
    requires forall id :: id in table ==> deviceOf.requires(table[id])
  {
    set id | id in table && deviceOf(table[id]) == dev
  }
}
