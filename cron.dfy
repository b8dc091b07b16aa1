// The part of the host's cron schedule that the notifier's settings page touches:
// a list of recurring events, each registered under a hook name. Clearing a hook
// (wp_clear_scheduled_hook) drops every event under it; scheduling appends one.

module Cron {

  /** One recurring event: the hook it fires, its first run time and the name of its recurrence. */
  datatype Event = Event(hook: string, start: int, recurrence: string)

  /** The events registered under `hook`, in schedule order. */
  function Scheduled(events: seq<Event>, hook: string): (r: seq<Event>)
    ensures forall e :: e in r <==> e in events && e.hook == hook
    ensures |r| <= |events|
  {
    if events == [] then []
    else if events[0].hook == hook then [events[0]] + Scheduled(events[1..], hook)
    else Scheduled(events[1..], hook)
  }

  /** The schedule after every event under `hook` is cleared; the other events keep their order. */
  function Cleared(events: seq<Event>, hook: string): (r: seq<Event>)
    ensures forall e :: e in r <==> e in events && e.hook != hook
    ensures |r| <= |events|
  {
    if events == [] then []
    else if events[0].hook == hook then Cleared(events[1..], hook)
    else [events[0]] + Cleared(events[1..], hook)
  }

  /** Looking up a hook distributes over concatenation of schedules. */
  lemma {:induction false} ScheduledAppend(s: seq<Event>, t: seq<Event>, hook: string)
    ensures Scheduled(s + t, hook) == Scheduled(s, hook) + Scheduled(t, hook)
  {
    if s == [] {
      assert s + t == t;
    } else {
      assert (s + t)[1..] == s[1..] + t;
      ScheduledAppend(s[1..], t, hook);
    }
  }

  /** Clearing a hook removes exactly its events: what is cleared and what was under the hook
      together make up the old schedule. */
  lemma {:induction false} ClearedPartition(events: seq<Event>, hook: string)
    ensures multiset(events) == multiset(Cleared(events, hook)) + multiset(Scheduled(events, hook))
  {
    if events != [] {
      ClearedPartition(events[1..], hook);
      assert events == [events[0]] + events[1..];
    }
  }

  /** After clearing a hook nothing is left under it. */
  lemma ClearedLeavesNone(events: seq<Event>, hook: string)
    ensures Scheduled(Cleared(events, hook), hook) == []
  {
  }

  /** Clearing distributes over concatenation of schedules. */
  lemma {:induction false} ClearedAppend(s: seq<Event>, t: seq<Event>, hook: string)
    ensures Cleared(s + t, hook) == Cleared(s, hook) + Cleared(t, hook)
  {
    if s == [] {
      assert s + t == t;
    } else {
      assert (s + t)[1..] == s[1..] + t;
      ClearedAppend(s[1..], t, hook);
    }
  }

  /** Clearing a hook twice is the same as clearing it once. */
  lemma {:induction false} ClearedTwice(events: seq<Event>, hook: string)
    ensures Cleared(Cleared(events, hook), hook) == Cleared(events, hook)
  {
    if events != [] {
      ClearedTwice(events[1..], hook);
      if events[0].hook != hook {
        ClearedAppend([events[0]], Cleared(events[1..], hook), hook);
      }
    }
  }

  /** Clearing one hook leaves the events of every other hook exactly as they were, order included. */
  lemma {:induction false} ClearedKeepsOtherHooks(events: seq<Event>, hook: string, other: string)
    requires other != hook
    ensures Scheduled(Cleared(events, hook), other) == Scheduled(events, other)
  {
    if events != [] {
      ClearedKeepsOtherHooks(events[1..], hook, other);
      if events[0].hook != hook {
        assert Cleared(events, hook) == [events[0]] + Cleared(events[1..], hook);
        ScheduledAppend([events[0]], Cleared(events[1..], hook), other);
      }
    }
  }
}
