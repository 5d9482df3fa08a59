/** The watcher goroutines of the Build reconciler: the `watchers` sentinel map, the bounded event
    channel and the stream loop (internal/controller/build_controller.go). */
module Watchers {
  import opened ApiServer
  import opened BuildStatuses

  /** Namespaced name of a Build. */
  type Key = string

  const CAPACITY := 64

  // ----- The stream loop -----

  datatype StreamEvent = StatusEvent(phase: Phase) | OtherEvent

  /** The status events after which a build does not move. */
  ghost predicate IsFinal(e: StreamEvent) {
    e.StatusEvent? && e.phase in {Succeeded, Failed, Errored, Aborted}
  }

  predicate Stops(e: StreamEvent) {
    e.StatusEvent? && Terminal(e.phase)
  }

  /** What a watcher goroutine does that others can observe. */
  datatype Effect = Next | Send(key: Key) | Release(key: Key)

  class StreamWatcher {
    const channelSet: bool
    var log: seq<Effect>

    constructor (channelSet: bool)
      ensures this.channelSet == channelSet && log == []
    {
      this.channelSet := channelSet;
      log := [];
    }

    method Enqueue(key: Key)
      modifies this
      ensures log == old(log) + if channelSet then [Send(key)] else []
    {
      if channelSet {
        log := log + [Send(key)];
      }
    }

    /** Reads the stream `events`, which ends with an error or EOF; `None` is a stream that did not open. */
    method WatchBuildEvents(events: Option<seq<StreamEvent>>, key: Key) returns (taken: nat)
      modifies this
      ensures log == old(log) + seq(taken, _ => Next) + if channelSet then [Send(key)] else []
      ensures events.None? ==> taken == 0
      ensures events.Some? ==> 0 < taken <= |events.value| + 1
      ensures events.Some? ==> forall i :: 0 <= i < taken - 1 ==> !IsFinal(events.value[i])
      ensures events.Some? && taken <= |events.value| ==> IsFinal(events.value[taken - 1])
    {
      taken := 0;
      if events.None? {
        Enqueue(key);
        return;
      }
      while true
        invariant taken <= |events.value|
        invariant log == old(log) + seq(taken, _ => Next)
        invariant forall i :: 0 <= i < taken ==> !IsFinal(events.value[i])
        decreases |events.value| - taken
      {
        log := log + [Next];
        taken := taken + 1;
        assert log == old(log) + seq(taken, _ => Next);
        if taken > |events.value| || Stops(events.value[taken - 1]) {
          Enqueue(key);
          return;
        }
      }
    }

    /** The goroutine: the stream loop, then the deferred release of the sentinel. */
    method Run(events: Option<seq<StreamEvent>>, key: Key) returns (taken: nat)
      modifies this
      ensures log == old(log) + seq(taken, _ => Next) + (if channelSet then [Send(key)] else []) + [Release(key)]
      ensures events.None? ==> taken == 0
      ensures events.Some? ==> 0 < taken <= |events.value| + 1
      ensures events.Some? ==> forall i :: 0 <= i < taken - 1 ==> !IsFinal(events.value[i])
      ensures events.Some? && taken <= |events.value| ==> IsFinal(events.value[taken - 1])
    {
      taken := WatchBuildEvents(events, key);
      log := log + [Release(key)];
    }
  }

  // ----- All watchers of the manager -----

  datatype Goroutine = Goroutine(key: Key, buildID: int, sent: bool)

  datatype State = State(
    sentinels: set<Key>,            // the keys of the `watchers` map
    running: map<nat, Goroutine>,   // goroutines between spawn and sentinel release, by spawn number
    started: nat,
    channel: seq<Key>,
    consumed: nat)

  datatype Action =
    | Start(key: Key, buildID: int)  // LoadOrStore and, if the key was absent, go
    | Post(g: nat)                   // the send of the goroutine gets through
    | Take                           // the controller takes the oldest event
    | Finish(g: nat)                 // deferred Delete

  const INITIAL := State({}, map[], 0, [], 0)

  predicate Enabled(s: State, a: Action) {
    match a
    case Start(_, _) => true
    case Post(g) => g in s.running && !s.running[g].sent && |s.channel| < CAPACITY
    case Take => s.channel != []
    case Finish(g) => g in s.running && s.running[g].sent
  }

  function Do(s: State, a: Action): State
    requires Enabled(s, a)
  {
    match a
    case Start(key, buildID) =>
      if key in s.sentinels then s
      else s.(sentinels := s.sentinels + {key},
              running := s.running[s.started := Goroutine(key, buildID, false)],
              started := s.started + 1)
    case Post(g) =>
      s.(running := s.running[g := s.running[g].(sent := true)], channel := s.channel + [s.running[g].key])
    case Take => s.(channel := s.channel[1..], consumed := s.consumed + 1)
    case Finish(g) => s.(sentinels := s.sentinels - {s.running[g].key}, running := s.running - {g})
  }

  function Unsent(s: State): set<nat> {
    set g | g in s.running && !s.running[g].sent
  }

  ghost predicate Watches(s: State, g: nat, key: Key) {
    g in s.running && s.running[g].key == key
  }

  /** A key is in the sentinel map exactly when one goroutine for it runs, and every watcher ever started
      is unsent, or its event is in the channel, or its event was consumed. */
  ghost predicate Inv(s: State) {
    && (forall key :: key in s.sentinels <==> exists g :: Watches(s, g, key))
    && (forall g, g', key :: Watches(s, g, key) && Watches(s, g', key) ==> g == g')
    && (forall g <- s.running :: g < s.started)
    && |s.channel| <= CAPACITY
    && s.started == |Unsent(s)| + |s.channel| + s.consumed
  }

  lemma StartKeepsInv(s: State, key: Key, buildID: int)
    requires Inv(s)
    ensures Inv(Do(s, Start(key, buildID)))
  {
    var s' := Do(s, Start(key, buildID));
    if key !in s.sentinels {
      assert Watches(s', s.started, key);
      assert forall g, k :: Watches(s', g, k) <==> Watches(s, g, k) || (g == s.started && k == key);
      forall k ensures k in s'.sentinels <==> exists g :: Watches(s', g, k) {
        if k in s.sentinels {
          var g :| Watches(s, g, k);
          assert Watches(s', g, k);
        }
      }
      assert Unsent(s') == Unsent(s) + {s.started};
    }
  }

  lemma PostKeepsInv(s: State, g: nat)
    requires Inv(s) && Enabled(s, Post(g))
    ensures Inv(Do(s, Post(g)))
  {
    var s' := Do(s, Post(g));
    assert forall h, k :: Watches(s', h, k) <==> Watches(s, h, k);
    assert Unsent(s) == Unsent(s') + {g};
  }

  lemma FinishKeepsInv(s: State, g: nat)
    requires Inv(s) && Enabled(s, Finish(g))
    ensures Inv(Do(s, Finish(g)))
  {
    var s' := Do(s, Finish(g));
    assert forall h, k :: Watches(s', h, k) <==> h != g && Watches(s, h, k);
    assert Watches(s, g, s.running[g].key);
    forall k ensures k in s'.sentinels <==> exists h :: Watches(s', h, k) {
      if k in s'.sentinels {
        var h :| Watches(s, h, k);
        assert Watches(s', h, k);
      }
    }
    assert Unsent(s') == Unsent(s);
  }

  lemma TakeKeepsInv(s: State)
    requires Inv(s) && s.channel != []
    ensures Inv(Do(s, Take))
  {
    var s' := Do(s, Take);
    assert forall h, k :: Watches(s', h, k) <==> Watches(s, h, k);
    assert Unsent(s') == Unsent(s);
  }

  /** When 64 events wait, the controller can take one, and then the send of each watcher gets through. */
  lemma FullChannelDrains(s: State, g: nat)
    requires Inv(s) && g in s.running && !s.running[g].sent && !Enabled(s, Post(g))
    ensures |s.channel| == 64 && Enabled(s, Take) && Enabled(Do(s, Take), Post(g))
  {}

  lemma StepInv(s: State, a: Action)
    requires Inv(s) && Enabled(s, a)
    ensures Inv(Do(s, a))
  {
    match a
    case Start(key, buildID) => StartKeepsInv(s, key, buildID);
    case Post(g) => PostKeepsInv(s, g);
    case Take => TakeKeepsInv(s);
    case Finish(g) => FinishKeepsInv(s, g);
  }
}
