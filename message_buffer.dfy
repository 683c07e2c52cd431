/**
 * The debounce buffer: per (chat, user) a window of messages that opens with a first message
 * and takes every message that arrives within `window` clock ticks of that first one, plus the
 * set of keys whose flush is already scheduled. Every operation runs atomically under the
 * buffer's lock, so each is one state change. Time is an integer clock passed in by the caller.
 */
module MessageBuffer {
  import opened Base

  type Key = (int, int)

  datatype BufferedMessage = BufferedMessage(chatId: int, messageId: int, content: string, replyText: Option<string>, createdAt: int)

  /** The buffered windows and the scheduled keys. */
  datatype BufferState = BufferState(buffer: map<Key, seq<BufferedMessage>>, scheduled: set<Key>)

  /** Every stored window holds at least its first message, and every message arrived within
      `window` of that first one. This is a standalone invariant of the operations on values:
      the empty state has it, and `AddedValid` and `CollectedValid` show that `Added` and
      `Collected` keep it. The `Buffer` methods do not carry it in their contracts. */
  predicate Valid(st: BufferState, window: int)
  {
    forall k :: k in st.buffer ==> st.buffer[k] != [] && WithinWindow(st.buffer[k], window)
  }

  predicate WithinWindow(items: seq<BufferedMessage>, window: int)
    requires items != []
  {
    forall i :: 0 <= i < |items| ==> items[i].createdAt - items[0].createdAt <= window
  }

  /** The live window of a key: one whose first message is at most `window` old at `now`. */
  predicate Live(st: BufferState, key: Key, window: int, now: int)
  {
    key in st.buffer && st.buffer[key] != [] && now - st.buffer[key][0].createdAt <= window
  }

  /** Nothing about any key other than `key` changes. */
  ghost predicate OthersKept(st: BufferState, st': BufferState, key: Key)
  {
    (forall k :: k != key ==> (k in st'.buffer <==> k in st.buffer))
    && (forall k :: k != key && k in st.buffer ==> st'.buffer[k] == st.buffer[k])
    && (forall k :: k != key ==> (k in st'.scheduled <==> k in st.scheduled))
  }

  /** `add`: a message joins a live window; an expired window is dropped together with its
      scheduled flag; without a live window the message opens a new one only when `start` is
      set. The result tells whether a new window was opened. */
  function Added(st: BufferState, window: int, key: Key, item: BufferedMessage, start: bool): (r: (bool, BufferState))
    ensures OthersKept(st, r.1, key)
    ensures r.0 <==> start && !Live(st, key, window, item.createdAt)
  {
    var existing := if key in st.buffer then st.buffer[key] else [];
    if existing != [] && item.createdAt - existing[0].createdAt <= window then
      (false, BufferState(st.buffer[key := existing + [item]], st.scheduled))
    else
      var dropped := if existing != [] then BufferState(st.buffer - {key}, st.scheduled - {key}) else st;
      if !start then (false, dropped)
      else (true, BufferState(dropped.buffer[key := [item]], dropped.scheduled))
  }

  /** `collect`: the window's messages in arrival order, with the window and its flag removed. */
  function Collected(st: BufferState, key: Key): (r: (seq<BufferedMessage>, BufferState))
    ensures key !in r.1.buffer && key !in r.1.scheduled
    ensures r.0 == if key in st.buffer then st.buffer[key] else []
    ensures OthersKept(st, r.1, key)
  {
    (if key in st.buffer then st.buffer[key] else [], BufferState(st.buffer - {key}, st.scheduled - {key}))
  }

  /** `mark_scheduled`: true and the key marked, unless it was marked already. */
  function Marked(st: BufferState, key: Key): (r: (bool, BufferState))
    ensures r.0 <==> key !in st.scheduled
    ensures r.1.buffer == st.buffer && r.1.scheduled == st.scheduled + {key}
  {
    if key in st.scheduled then (false, st) else (true, BufferState(st.buffer, st.scheduled + {key}))
  }

  /** Every operation keeps the windows well formed. */
  lemma AddedValid(st: BufferState, window: int, key: Key, item: BufferedMessage, start: bool)
    requires Valid(st, window) && window >= 0
    ensures Valid(Added(st, window, key, item, start).1, window)
  {
    var st' := Added(st, window, key, item, start).1;
    forall k | k in st'.buffer
      ensures st'.buffer[k] != [] && WithinWindow(st'.buffer[k], window)
    {
      if k == key && key in st.buffer && st.buffer[key] != [] && item.createdAt - st.buffer[key][0].createdAt <= window {
        var items := st.buffer[key] + [item];
        assert st'.buffer[k] == items;
        assert items[0] == st.buffer[key][0];
        assert forall i :: 0 <= i < |st.buffer[key]| ==> items[i] == st.buffer[key][i];
      }
    }
  }

  lemma CollectedValid(st: BufferState, window: int, key: Key)
    requires Valid(st, window)
    ensures Valid(Collected(st, key).1, window)
  {
  }

  /** A first message with `start` opens a one-message window. */
  lemma AddOpens(st: BufferState, window: int, key: Key, item: BufferedMessage)
    requires key !in st.buffer
    ensures Added(st, window, key, item, true) == (true, BufferState(st.buffer[key := [item]], st.scheduled))
  {
  }

  /** A message inside a live window joins it at the end, whatever `start` says. */
  lemma AddJoins(st: BufferState, window: int, key: Key, item: BufferedMessage, start: bool)
    requires Live(st, key, window, item.createdAt)
    ensures Added(st, window, key, item, start) == (false, BufferState(st.buffer[key := st.buffer[key] + [item]], st.scheduled))
  {
  }

  /** An expired window is dropped and unscheduled; a new one opens only with `start`. */
  lemma AddAfterExpiry(st: BufferState, window: int, key: Key, item: BufferedMessage, start: bool)
    requires key in st.buffer && st.buffer[key] != [] && !Live(st, key, window, item.createdAt)
    ensures start ==> Added(st, window, key, item, start) == (true, BufferState((st.buffer - {key})[key := [item]], st.scheduled - {key}))
    ensures !start ==> Added(st, window, key, item, start) == (false, BufferState(st.buffer - {key}, st.scheduled - {key}))
  {
  }

  /** Without a window and without `start`, nothing changes. */
  lemma AddIgnored(st: BufferState, window: int, key: Key, item: BufferedMessage)
    requires key !in st.buffer
    ensures Added(st, window, key, item, false) == (false, st)
  {
  }

  /** A key is marked once; marking it again fails until a collect clears the flag. */
  lemma MarkOnce(st: BufferState, key: Key)
    requires key !in st.scheduled
    ensures Marked(st, key).0
    ensures !Marked(Marked(st, key).1, key).0
    ensures Marked(Collected(Marked(st, key).1, key).1, key).0
  {
  }

  /** A second collect finds nothing. */
  lemma CollectTwice(st: BufferState, key: Key)
    ensures Collected(Collected(st, key).1, key).0 == []
  {
  }

  /** Messages come out of a window in the order they arrived. */
  lemma ArrivalOrder(st: BufferState, window: int, key: Key, first: BufferedMessage, second: BufferedMessage, start: bool)
    requires key !in st.buffer
    requires 0 <= second.createdAt - first.createdAt <= window
    ensures var afterFirst := Added(st, window, key, first, true).1;
      var joined := Added(afterFirst, window, key, second, start).1;
      Collected(joined, key).0 == [first, second]
  {
  }

  /** The buffer object: its methods change the two fields as the functions above say. */
  class Buffer {
    const window: int
    var buffer: map<Key, seq<BufferedMessage>>
    var scheduled: set<Key>

    function State(): BufferState
      reads this
    {
      BufferState(buffer, scheduled)
    }

    constructor(window: int)
      ensures this.window == window && buffer == map[] && scheduled == {}
      ensures Valid(State(), window)
    {
      this.window := window;
      buffer := map[];
      scheduled := {};
    }

    /** `add`, with `now` the arrival time of the message. */
    method Add(chatId: int, userId: int, messageId: int, content: string, start: bool, replyText: Option<string>, now: int) returns (started: bool)
      modifies this
      ensures (started, State()) == Added(old(State()), window, (chatId, userId), BufferedMessage(chatId, messageId, content, replyText, now), start)
    {
      var key := (chatId, userId);
      var item := BufferedMessage(chatId, messageId, content, replyText, now);
      var existing := if key in buffer then buffer[key] else [];
      if existing != [] {
        var firstTime := existing[0].createdAt;
        if item.createdAt - firstTime <= window {
          buffer := buffer[key := existing + [item]];
          return false;
        }
        buffer := buffer - {key};
        scheduled := scheduled - {key};
      }
      if !start {
        return false;
      }
      buffer := buffer[key := [item]];
      return true;
    }

    /** `collect`, and `wait_and_collect` once its sleep is over. */
    method Collect(chatId: int, userId: int) returns (items: seq<BufferedMessage>)
      modifies this
      ensures (items, State()) == Collected(old(State()), (chatId, userId))
    {
      var key := (chatId, userId);
      items := if key in buffer then buffer[key] else [];
      buffer := buffer - {key};
      scheduled := scheduled - {key};
    }

    /** `mark_scheduled` */
    method MarkScheduled(chatId: int, userId: int) returns (marked: bool)
      modifies this
      ensures (marked, State()) == Marked(old(State()), (chatId, userId))
    {
      var key := (chatId, userId);
      if key in scheduled {
        return false;
      }
      scheduled := scheduled + {key};
      return true;
    }
  }
}
