/**
 * Sequential stand-ins for the shared objects the workers of a call use:
 * the process-safe FIFO queues, the events, the shared theme cell and the
 * dictionary of every session's stop event. Each operation is one atomic
 * step; blocking, timeouts and cross-process transport are not modelled.
 */
module Sync {
  import opened Wrappers

  type Byte = bv8
  /** One block of raw 16-bit little-endian PCM bytes. */
  type Chunk = seq<Byte>

  /** A stop signal (`multiprocessing.Event`/`threading.Event`). */
  class Event {
    var isSet: bool

    constructor()
      ensures !isSet
    {
      isSet := false;
    }

    method Set()
      modifies this
      ensures isSet
    {
      isSet := true;
    }
  }

  /** The shared current-theme cell (`Manager().Value('s', ...)`). */
  class SharedTheme {
    var value: string

    constructor(v: string)
      ensures value == v
    {
      value := v;
    }
  }

  /**
   * A FIFO queue (`multiprocessing.Queue`), front first: the audio queue holds
   * chunks from the decoder, the song queue track requests.
   */
  class Queue<T> {
    var items: seq<T>

    constructor()
      ensures items == []
    {
      items := [];
    }

    /** `qsize()`. */
    function Size(): nat
      reads this
    {
      |items|
    }

    /** `put(x)`. */
    method Put(x: T)
      modifies this
      ensures items == old(items) + [x]
    {
      items := items + [x];
    }

    /**
     * `get_nowait()`, or `get(timeout=...)` whose wait ends: the front item,
     * or None where it raises `queue.Empty`.
     */
    method GetNoWait() returns (x: Option<T>)
      modifies this
      ensures old(items) == [] ==> x.None? && items == []
      ensures old(items) != [] ==> x == Some(old(items)[0]) && items == old(items)[1..]
    {
      if items == [] {
        x := None;
      } else {
        x := Some(items[0]);
        items := items[1..];
      }
    }
  }

  /** The audio queue of a call. */
  type FrameQueue = Queue<Chunk>

  /** The song queue of a call. */
  type RequestQueue = Queue<string>

  /** A session id (`uuid.uuid4()`); ids are parameters, and registering an id already present overwrites its entry. */
  type SessionId = nat

  /** `event_manager`: every live session's stop event, by session id. */
  class Registry {
    var events: map<SessionId, Event>

    /** The dictionary literal `{parent_id: stop_event}`. */
    constructor(parent: SessionId, stop: Event)
      ensures events == map[parent := stop]
    {
      events := map[parent := stop];
    }

    /** `event_manager[id] = e`. */
    method Register(id: SessionId, e: Event)
      modifies this
      ensures events == old(events)[id := e]
    {
      events := events[id := e];
    }

    /** `del event_manager[id]`; `removed` is false where it raises KeyError. */
    method Remove(id: SessionId) returns (removed: bool)
      modifies this
      ensures removed == (id in old(events))
      ensures events == old(events) - {id}
    {
      removed := id in events;
      if removed {
        events := events - {id};
      }
    }
  }
}
