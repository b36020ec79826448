/** The edge-triggered notification policy of the poll loop, on values: the
    loop's tri-state status, the notifications a sequence of probe outcomes
    produces, and the stream of tick and quit events the loop consumes. */
module Notifications {
  import opened Interfaces

  /** The values of the loop's `currentStatus`. */
  const Unknown: int := -1
  const Down: int := 0
  const Up: int := 1

  function StatusOf(active: bool): (s: int) {
    if active then Up else Down
  }

  /** The status after the loop has handled `outcomes`: unknown before the
      first tick, then the status of the latest outcome. */
  function StatusAfter(outcomes: seq<bool>): (s: int)
    ensures s == Unknown <==> outcomes == []
    ensures outcomes != [] ==> s == Down || s == Up
    ensures outcomes != [] ==> (s == Up <==> outcomes[|outcomes| - 1])
  {
    if outcomes == [] then Unknown else StatusOf(outcomes[|outcomes| - 1])
  }

  /** The status differs from that of `b` exactly when `b` is the first
      outcome or differs from the latest one. */
  lemma StatusAfterDiffers(outcomes: seq<bool>, b: bool)
    ensures StatusAfter(outcomes) != StatusOf(b)
        <==> outcomes == [] || outcomes[|outcomes| - 1] != b
  {
  }

  predicate NoAdjacentRepeats(s: seq<bool>) {
    forall i :: 0 < i < |s| ==> s[i] != s[i - 1]
  }

  /** The notifications delivered for `outcomes`, in order: an outcome is
      delivered when it differs from the outcome before it, and the first
      outcome always is. */
  function Collapse(outcomes: seq<bool>): (r: seq<bool>)
    ensures |r| <= |outcomes|
    ensures r == [] <==> outcomes == []
    ensures r != [] ==> r[0] == outcomes[0]
    ensures r != [] ==> r[|r| - 1] == outcomes[|outcomes| - 1]
  {
    if |outcomes| <= 1 then outcomes
    else
      var prefix := outcomes[..|outcomes| - 1];
      if outcomes[|outcomes| - 1] == prefix[|prefix| - 1] then Collapse(prefix)
      else Collapse(prefix) + [outcomes[|outcomes| - 1]]
  }

  /** An independent reading of the same policy, from the front: one value
      for each maximal run of equal values. */
  function RunValues(s: seq<bool>): (r: seq<bool>) {
    if |s| <= 1 then s
    else if s[0] == s[1] then RunValues(s[1..])
    else [s[0]] + RunValues(s[1..])
  }

  /** One more outcome notifies exactly when it differs from the latest one. */
  lemma CollapseSnoc(s: seq<bool>, b: bool)
    ensures Collapse(s + [b]) == Collapse(s) + (if s == [] || s[|s| - 1] != b then [b] else [])
  {
    assert (s + [b])[..|s|] == s;
  }

  lemma {:induction false} RunValuesSnoc(s: seq<bool>, b: bool)
    ensures RunValues(s + [b]) == RunValues(s) + (if s == [] || s[|s| - 1] != b then [b] else [])
  {
    if |s| > 1 {
      assert (s + [b])[1..] == s[1..] + [b];
      RunValuesSnoc(s[1..], b);
    }
  }

  /** The notification log is the input with every run of equal outcomes
      collapsed to one entry. */
  lemma {:induction false} CollapseIsRunValues(s: seq<bool>)
    ensures Collapse(s) == RunValues(s)
  {
    if s != [] {
      var prefix := s[..|s| - 1];
      CollapseIsRunValues(prefix);
      CollapseSnoc(prefix, s[|s| - 1]);
      RunValuesSnoc(prefix, s[|s| - 1]);
      assert prefix + [s[|s| - 1]] == s;
    }
  }

  /** No two consecutive notifications carry the same value. */
  lemma {:induction false} CollapseHasNoAdjacentRepeats(s: seq<bool>)
    ensures NoAdjacentRepeats(Collapse(s))
  {
    if |s| > 1 {
      CollapseHasNoAdjacentRepeats(s[..|s| - 1]);
    }
  }

  /** Outcomes that already alternate are all delivered. */
  lemma {:induction false} CollapseKeepsAlternating(s: seq<bool>)
    requires NoAdjacentRepeats(s)
    ensures Collapse(s) == s
  {
    if |s| > 1 {
      var prefix := s[..|s| - 1];
      assert NoAdjacentRepeats(prefix) by {
        forall i | 0 < i < |prefix| ensures prefix[i] != prefix[i - 1] {
          assert prefix[i] == s[i] && prefix[i - 1] == s[i - 1];
        }
      }
      CollapseKeepsAlternating(prefix);
      assert prefix + [s[|s| - 1]] == s;
    }
  }

  lemma CollapseIdempotent(s: seq<bool>)
    ensures Collapse(Collapse(s)) == Collapse(s)
  {
    CollapseHasNoAdjacentRepeats(s);
    CollapseKeepsAlternating(Collapse(s));
  }

  /** `n` copies of `b`. */
  function Repeat(b: bool, n: nat): (r: seq<bool>)
    ensures |r| == n
    ensures forall k :: 0 <= k < n ==> r[k] == b
  {
    if n == 0 then [] else Repeat(b, n - 1) + [b]
  }

  /** Debounce: after an outcome `b`, any number of repetitions of `b`
      deliver nothing further. */
  lemma {:induction false} RepeatsAreSilent(s: seq<bool>, b: bool, n: nat)
    requires n >= 1
    ensures Collapse(s + Repeat(b, n)) == Collapse(s + [b])
  {
    if n > 1 {
      RepeatsAreSilent(s, b, n - 1);
      var t := s + Repeat(b, n - 1);
      assert t[|t| - 1] == b;
      assert s + Repeat(b, n) == t + [b];
      CollapseSnoc(t, b);
    } else {
      assert Repeat(b, n) == [b];
    }
  }

  /** A run of identical outcomes from the start delivers exactly one
      notification, the first. */
  lemma ConstantOutcomesNotifyOnce(b: bool, n: nat)
    requires n >= 1
    ensures Collapse(Repeat(b, n)) == [b]
  {
    RepeatsAreSilent([], b, n);
    assert [] + Repeat(b, n) == Repeat(b, n);
    assert [] + [b] == [b];
  }

  /** Dials fail for three ticks and succeed for the next three:
      one "down" notification, then one "up". */
  lemma DownThenUp()
    ensures Collapse([false, false, false, true, true, true]) == [false, true]
  {
    RepeatsAreSilent([], false, 3);
    assert [] + Repeat(false, 3) == [false, false, false];
    RepeatsAreSilent([false, false, false], true, 3);
    assert [false, false, false] + Repeat(true, 3) == [false, false, false, true, true, true];
    CollapseSnoc([false], false);
    CollapseSnoc([false, false], false);
    CollapseSnoc([false, false, false], true);
  }

  /** What the loop's `select` receives: a tick of the ticker, observing the
      network as `net`, or the quit signal. */
  datatype Event = Tick(net: NetState) | Quit

  predicate HasQuit(events: seq<Event>) {
    Quit in events
  }

  /** The ticks the loop handles: those before the first quit, in order. */
  function Handled(events: seq<Event>): (r: seq<NetState>)
    ensures |r| <= |events|
  {
    if events == [] then []
    else match events[0]
      case Quit => []
      case Tick(net) => [net] + Handled(events[1..])
  }

  /** Events after a quit are never handled. */
  lemma {:induction false} HandledAppend(p: seq<Event>, q: seq<Event>)
    ensures Handled(p + q) == if HasQuit(p) then Handled(p) else Handled(p) + Handled(q)
  {
    if p == [] {
      assert p + q == q;
    } else {
      assert (p + q)[0] == p[0];
      assert (p + q)[1..] == p[1..] + q;
      HandledAppend(p[1..], q);
      assert p == [p[0]] + p[1..];
    }
  }

  /** One more event while no quit has arrived. */
  lemma HandledSnoc(p: seq<Event>, e: Event)
    requires !HasQuit(p)
    ensures HasQuit(p + [e]) <==> e.Quit?
    ensures Handled(p + [e]) == Handled(p) + (if e.Tick? then [e.net] else [])
  {
    HandledAppend(p, [e]);
  }

  /** The same, for the event at index `i`. */
  lemma HandledStep(events: seq<Event>, i: nat)
    requires i < |events| && !HasQuit(events[..i])
    ensures HasQuit(events[..i + 1]) <==> events[i].Quit?
    ensures Handled(events[..i + 1]) == Handled(events[..i]) + (if events[i].Tick? then [events[i].net] else [])
  {
    assert events[..i + 1] == events[..i] + [events[i]];
    HandledSnoc(events[..i], events[i]);
  }

  /** The probe outcomes of the handled ticks, one event further. */
  lemma OutcomesStep(events: seq<Event>, i: nat)
    requires i < |events| && !HasQuit(events[..i])
    ensures Outcomes(Handled(events[..i + 1]))
         == Outcomes(Handled(events[..i])) + (if events[i].Tick? then [ProbeSucceeds(events[i].net)] else [])
  {
    HandledStep(events, i);
    if events[i].Tick? {
      OutcomesSnoc(Handled(events[..i]), events[i].net);
    } else {
      var h := Handled(events[..i]);
      assert h + [] == h;
      assert Outcomes(h) + [] == Outcomes(h);
    }
  }

  /** The loop's bookkeeping for event `i`: outcomes `before` that extend
      `start` by those of the ticks among the first `i` events, extended by
      the outcome of event `i` when it is a tick, extend `start` by those of
      the first `i + 1` events. */
  lemma RunStep(start: seq<bool>, events: seq<Event>, i: nat, before: seq<bool>, after: seq<bool>)
    requires i < |events| && !HasQuit(events[..i])
    requires before == start + Outcomes(Handled(events[..i]))
    requires after == before + (if events[i].Tick? then [ProbeSucceeds(events[i].net)] else [])
    ensures HasQuit(events[..i + 1]) <==> events[i].Quit?
    ensures after == start + Outcomes(Handled(events[..i + 1]))
  {
    HandledStep(events, i);
    OutcomesStep(events, i);
  }

  /** The rest of the events, once a quit has arrived. */
  lemma HandledAfterQuit(p: seq<Event>, q: seq<Event>)
    requires HasQuit(p)
    ensures HasQuit(p + q) && Handled(p + q) == Handled(p)
  {
    HandledAppend(p, q);
  }

  /** A quit ends the run: no event after it contributes a tick. */
  lemma QuitEndsTheRun(before: seq<Event>, after: seq<Event>)
    ensures Handled(before + [Quit] + after) == Handled(before)
  {
    assert before + [Quit] + after == before + ([Quit] + after);
    HandledAppend(before, [Quit] + after);
  }
}
