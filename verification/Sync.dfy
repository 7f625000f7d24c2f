/** `sync.RWMutex` as seen by the goroutine that holds it. Waiting for a lock is
    the subject of module Scrape; here a lock is taken only when it is free. */
module Sync {
  class RWMutex {
    var readers: nat
    var writer: bool

    constructor ()
      ensures readers == 0 && !writer
    {
      readers, writer := 0, false;
    }

    method Lock()
      requires readers == 0 && !writer
      modifies this
      ensures readers == 0 && writer
    {
      writer := true;
    }

    method Unlock()
      requires readers == 0 && writer
      modifies this
      ensures readers == 0 && !writer
    {
      writer := false;
    }

    method RLock()
      requires !writer
      modifies this
      ensures !writer && readers == old(readers) + 1
    {
      readers := readers + 1;
    }

    method RUnlock()
      requires !writer && readers > 0
      modifies this
      ensures !writer && readers == old(readers) - 1
    {
      readers := readers - 1;
    }
  }
}
