/** The per-query cache entry (`IocasteQueryCacheClass`): three state fields
    driven by a run that sets `isLoading`, awaits the internal run resolver,
    and then copies the resolver's `{ data, error }` record into the fields.
    The run is split at its `await` into `BeginRun` and `CompleteRun`, so that
    overlapping runs can be described: nothing cancels an earlier run, the
    last completion to arrive wins, and every completion clears `isLoading`. */
module QueryCache {
  import opened JsValues
  import opened QueryConfig

  /** The observable triple of an entry. */
  datatype CacheState = CacheState(isLoading: bool, data: JsValue, error: JsValue)

  /** A fresh entry: not loading, `data` and `error` undefined. */
  const InitialState: CacheState := CacheState(false, Undefined, Undefined)

  /** The two halves of one run: its start, and the arrival of its result. */
  datatype RunEvent = Begin | Complete(result: RunResult)

  /** The effect of one half-run on the triple. */
  function Step(s: CacheState, e: RunEvent): CacheState
  {
    match e
    case Begin => s.(isLoading := true)
    case Complete(r) => CacheState(false, r.data, r.error)
  }

  /** The triple after a history of half-runs, applied in order. */
  function Replay(s: CacheState, evs: seq<RunEvent>): CacheState
  {
    if evs == [] then s else Step(Replay(s, evs[..|evs| - 1]), evs[|evs| - 1])
  }

  /** Runs begun and not yet completed. */
  function Pending(evs: seq<RunEvent>): int
  {
    if evs == [] then 0
    else Pending(evs[..|evs| - 1]) + (if evs[|evs| - 1].Begin? then 1 else -1)
  }

  /** A history the `await` can produce: no result arrives for a run that
      was never begun. */
  ghost predicate Feasible(evs: seq<RunEvent>)
  {
    forall k :: 0 <= k <= |evs| ==> Pending(evs[..k]) >= 0
  }

  /** Index of the last completion in a history, if any. */
  function LastCompletion(evs: seq<RunEvent>): (r: Option<nat>)
    ensures r.Some? ==> r.value < |evs| && evs[r.value].Complete?
    ensures r.Some? ==> forall j :: r.value < j < |evs| ==> evs[j].Begin?
    ensures r.None? ==> forall j :: 0 <= j < |evs| ==> evs[j].Begin?
  {
    if evs == [] then None
    else if evs[|evs| - 1].Complete? then Some(|evs| - 1)
    else LastCompletion(evs[..|evs| - 1])
  }

  /** Whatever the interleaving: `data` and `error` are exactly the record of
      the last completion to arrive (replaced, never merged), and `isLoading`
      holds exactly when some run was begun after that completion. With no
      completion yet, `data` and `error` are untouched. */
  lemma {:induction false} LastCompletionWins(s: CacheState, evs: seq<RunEvent>)
    ensures match LastCompletion(evs)
      case Some(i) => Replay(s, evs) == CacheState(i < |evs| - 1, evs[i].result.data, evs[i].result.error)
      case None => Replay(s, evs) == s.(isLoading := s.isLoading || evs != [])
  {
    if evs != [] {
      LastCompletionWins(s, evs[..|evs| - 1]);
    }
  }

  /** `isLoading` is sound but not complete: when it is set, some run is
      outstanding (the converse fails, see the next lemma). */
  lemma LoadingImpliesOutstanding(evs: seq<RunEvent>)
    requires Feasible(evs)
    ensures Replay(InitialState, evs).isLoading ==> Pending(evs) > 0
  {
    if evs != [] && evs[|evs| - 1].Begin? {
      assert Pending(evs[..|evs| - 1]) >= 0;
    }
  }

  /** Two overlapping runs: the first result to arrive already reports
      not-loading while the other run is still outstanding, and the second
      result then overwrites the first. No run is cancelled. */
  lemma OverlappingRuns(s: CacheState, r1: RunResult, r2: RunResult)
    ensures var evs := [Begin, Begin, Complete(r1)];
      && Feasible(evs) && Pending(evs) == 1
      && Replay(s, evs) == CacheState(false, r1.data, r1.error)
    ensures Replay(s, [Begin, Begin, Complete(r1), Complete(r2)]) == CacheState(false, r2.data, r2.error)
  {
    var evs := [Begin, Begin, Complete(r1)];
    assert evs[..0] == [] && evs[..1] == [Begin] && evs[..2] == [Begin, Begin] && evs[..3] == evs;
    assert [Begin][..0] == [] && [Begin, Begin][..1] == [Begin];
    assert Pending([Begin]) == 1 && Pending([Begin, Begin]) == 2 && Pending(evs) == 1;
    assert [Begin, Begin, Complete(r1), Complete(r2)][..3] == evs;
  }

  lemma ReplayAppend(s: CacheState, evs: seq<RunEvent>, e: RunEvent)
    ensures Replay(s, evs + [e]) == Step(Replay(s, evs), e)
    ensures Pending(evs + [e]) == Pending(evs) + (if e.Begin? then 1 else -1)
  {
    assert (evs + [e])[..|evs|] == evs;
  }

  lemma FeasibleAppend(evs: seq<RunEvent>, e: RunEvent)
    requires Feasible(evs)
    requires e.Complete? ==> Pending(evs) > 0
    ensures Feasible(evs + [e])
  {
    var evs' := evs + [e];
    forall k | 0 <= k <= |evs'|
      ensures Pending(evs'[..k]) >= 0
    {
      if k <= |evs| {
        assert evs'[..k] == evs[..k];
      } else {
        assert evs'[..k] == evs';
        assert evs[..|evs|] == evs;
        ReplayAppend(InitialState, evs, e);
      }
    }
  }

  /** `IocasteQueryCacheClass`. `config` is fixed at construction; the
      resolver is outside the model: its result is the argument of
      `CompleteRun`. `history` records every half-run so far. */
  class QueryCacheEntry {
    var isLoading: bool
    var data: JsValue
    var error: JsValue
    const config: Config
    ghost var history: seq<RunEvent>

    function State(): CacheState
      reads this
    {
      CacheState(isLoading, data, error)
    }

    /** The fields are always the replay of the entry's own history. */
    ghost predicate Valid()
      reads this
    {
      Feasible(history) && State() == Replay(InitialState, history)
    }

    constructor (config: Config)
      ensures Valid() && history == []
      ensures State() == InitialState && this.config == config
    {
      isLoading, data, error := false, Undefined, Undefined;
      this.config := config;
      history := [];
    }

    /** First half of `internalRun`: set `isLoading`, start the resolver. */
    method BeginRun()
      requires Valid()
      modifies this
      ensures Valid() && history == old(history) + [Begin]
      ensures isLoading && data == old(data) && error == old(error)
    {
      FeasibleAppend(history, Begin);
      ReplayAppend(InitialState, history, Begin);
      isLoading := true;
      history := history + [Begin];
    }

    /** Second half of `internalRun`: the awaited result of some outstanding
        run arrives and replaces both fields; `isLoading` is cleared. */
    method CompleteRun(result: RunResult)
      requires Valid() && Pending(history) > 0
      modifies this
      ensures Valid() && history == old(history) + [Complete(result)]
      ensures !isLoading && data == result.data && error == result.error
    {
      FeasibleAppend(history, Complete(result));
      ReplayAppend(InitialState, history, Complete(result));
      data := result.data;
      error := result.error;
      isLoading := false;
      history := history + [Complete(result)];
    }

    /** The mount effect: a run starts exactly when `refetchOnMount` is set. */
    method Mount()
      requires Valid()
      modifies this
      ensures Valid()
      ensures history == old(history) + (if config.refetchOnMount then [Begin] else [])
      ensures State() == if config.refetchOnMount then old(State()).(isLoading := true) else old(State())
    {
      if config.refetchOnMount {
        BeginRun();
      } else {
        assert old(history) + [] == old(history);
      }
    }

    /** The `visibilitychange` handler; `hidden` is `document.hidden`. A run
        starts only when the page is visible and `refetchOnWindowFocus` is
        set; otherwise nothing changes. */
    method HandleWindowFocus(hidden: bool)
      requires Valid()
      modifies this
      ensures Valid()
      ensures var runs := !hidden && config.refetchOnWindowFocus;
        && history == old(history) + (if runs then [Begin] else [])
        && State() == if runs then old(State()).(isLoading := true) else old(State())
    {
      var isVisible := !hidden;
      if isVisible && config.refetchOnWindowFocus {
        BeginRun();
      } else {
        assert old(history) + [] == old(history);
      }
    }

    /** `refetch`: exactly one run, unconditionally. */
    method Refetch()
      requires Valid()
      modifies this
      ensures Valid() && history == old(history) + [Begin]
      ensures State() == old(State()).(isLoading := true)
    {
      BeginRun();
    }
  }
}
