/** The browser-side analytics log: every tracked event is appended to a
    stored list that keeps only the most recent entries. */
module EventHistory {
  import opened Wrappers

  /** One stored entry. `data` is the caller's payload object, reduced here
      to string properties. */
  datatype Event = Event(event: string, data: map<string, string>, timestamp: string)

  /** How many events the log keeps. */
  const MaxEvents: nat := 100

  /** `s.slice(-n)` for a positive `n`: the last `n` elements of `s`, or
      all of `s` when it is shorter. */
  function KeepLast<T>(s: seq<T>, n: nat): (r: seq<T>)
    requires n > 0
    ensures |r| == if |s| <= n then |s| else n
    ensures r == s[|s| - |r|..]
  {
    if |s| <= n then s else s[|s| - n..]
  }

  /** The history after appending `e` to `h` and truncating: at most `n`
      entries, `e` last, and before it the most recent entries of `h` in
      their original order; nothing is dropped while `h` is shorter than `n`. */
  lemma AppendThenKeep<T>(h: seq<T>, e: T, n: nat)
    requires n > 0
    ensures var r := KeepLast(h + [e], n);
      && |r| <= n
      && r[|r| - 1] == e
      && r[..|r| - 1] == h[|h| - (|r| - 1)..]
      && (|h| < n ==> r == h + [e] && |r| == |h| + 1)
  {
  }

  /** The stored log, holding the list that local storage would hold. */
  class EventLog {
    var history: seq<Event>

    /** The log holds no more than it keeps. */
    ghost predicate Bounded()
      reads this
    {
      |history| <= MaxEvents
    }

    /** Starts from what storage holds; nothing stored reads as empty. */
    constructor (stored: Option<seq<Event>>)
      ensures history == if stored.Some? then stored.value else []
    {
      history := if stored.Some? then stored.value else [];
    }

    /** Records one event at the given time: append, then keep the last
        hundred. Works from any stored list, and leaves a bounded log. */
    method TrackEvent(eventName: string, data: map<string, string>, timestamp: string)
      modifies this
      ensures history == KeepLast(old(history) + [Event(eventName, data, timestamp)], MaxEvents)
      ensures Bounded()
      ensures history[|history| - 1] == Event(eventName, data, timestamp)
      ensures history[..|history| - 1] == old(history)[|old(history)| - (|history| - 1)..]
      ensures |old(history)| < MaxEvents ==> history == old(history) + [Event(eventName, data, timestamp)]
    {
      var events := history;
      events := events + [Event(eventName, data, timestamp)];
      history := KeepLast(events, MaxEvents);
      AppendThenKeep(old(history), Event(eventName, data, timestamp), MaxEvents);
    }
  }

  /** A full log stays full: tracking one more event drops exactly the
      oldest entry. */
  lemma FullLogDropsOldest<T>(h: seq<T>, e: T)
    requires |h| == MaxEvents
    ensures KeepLast(h + [e], MaxEvents) == h[1..] + [e]
  {
  }
}
