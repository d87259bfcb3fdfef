/** One-shot channels, numbered in the order they are opened, and the requests waiting on them. */
module Channels {

  /** `Dropped` means the receiver went away before anything was sent, `Orphaned` that the sender did. */
  datatype Channel<+T> = Waiting | Holding(response: T) | Received(response: T) | Dropped | Orphaned

  predicate IsWaiting<T>(channels: seq<Channel<T>>, tx: nat) {
    tx < |channels| && channels[tx].Waiting?
  }

  /** What a handler registered; its number is the number of its channel. */
  datatype Registration = Registration(requestId: string, stateKey: string, ttlSeconds: nat)

  /** `tx` names the channel to the waiter: the number of its registration. */
  datatype PendingEntry = PendingEntry(stateKey: string, ttlSeconds: nat, tx: nat)

  type PendingMap = map<string, PendingEntry>

  predicate EntriesOpen<T>(pending: PendingMap, channels: seq<Channel<T>>) {
    forall id :: id in pending ==> pending[id].tx < |channels|
  }

  /** Registering opens the next channel. */
  function WithEntry(pending: PendingMap, r: Registration, tx: nat): PendingMap {
    pending[r.requestId := PendingEntry(r.stateKey, r.ttlSeconds, tx)]
  }

  /** A registration under an id already pending replaces the entry and drops its sender. */
  function WithChannel<T>(pending: PendingMap, channels: seq<Channel<T>>, requestId: string): seq<Channel<T>> {
    (if requestId in pending && IsWaiting(channels, pending[requestId].tx)
     then channels[pending[requestId].tx := Orphaned] else channels) + [Waiting]
  }
}
