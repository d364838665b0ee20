/** The one-shot mutation command object (`IocasteMutationClass`): an
    internal resolver that turns the mutation function's outcome into a
    `{ data, error }` record, and `mutate`, which sets `isLoading`, awaits that
    record and then assigns `data` and `error` only where the record's field
    is truthy. `mutate` is split at its `await` into `BeginMutate` and
    `CompleteMutate`. */
module Mutation {
  import opened JsValues

  /** `IocasteMutationOptions`: the mutation function (outside the model:
      its outcome is the argument of `CompleteMutate`) and whether the
      optional `onSuccess` / `onError` callbacks were supplied. */
  datatype MutationOptions = MutationOptions(hasOnSuccess: bool, hasOnError: bool)

  /** `iocasteMutationOptions`: a typed identity. */
  function MutationOptionsOf(options: MutationOptions): (r: MutationOptions)
    ensures r == options
  {
    options
  }

  /** `internalRunResolver`: a resolved value `v` becomes `{ data: v }`, a
      thrown `e` becomes `{ error: e }`; the throw is caught, never re-raised
      (the function is total). */
  function RunResolver(outcome: Outcome): (r: RunResult)
    ensures outcome.Resolved? ==> r.data == outcome.value && r.error == Undefined
    ensures outcome.Thrown? ==> r.data == Undefined && r.error == outcome.value
  {
    match outcome
    case Resolved(v) => RunResult(v, Undefined)
    case Thrown(e) => RunResult(Undefined, e)
  }

  /** The record loses exactly one distinction: resolving with `undefined`
      and throwing `undefined` give the same record. */
  lemma RunResolverConflatesOnlyUndefined(a: Outcome, b: Outcome)
    ensures RunResolver(a) == RunResolver(b) <==> a == b || (a.value == Undefined && b.value == Undefined)
  {
  }

  /** What a mutation exposes, with the callback invocations it has made
      (each callback's argument, in call order). */
  datatype MutationState = MutationState(
    isLoading: bool,
    data: JsValue,
    error: JsValue,
    successCalls: seq<JsValue>,
    errorCalls: seq<JsValue>)

  /** A new mutation: not loading, `data` and `error` undefined, no calls. */
  const InitialMutationState: MutationState := MutationState(false, Undefined, Undefined, [], [])

  /** The part of `mutate` after its `await`, given the settled record. */
  function AfterMutate(s: MutationState, options: MutationOptions, r: RunResult): MutationState
  {
    var s1 :=
      if Truthy(r.data) then
        s.(data := r.data,
           successCalls := if options.hasOnSuccess then s.successCalls + [r.data] else s.successCalls)
      else s;
    var s2 :=
      if Truthy(r.error) then
        s1.(error := r.error,
            errorCalls := if options.hasOnError then s1.errorCalls + [r.error] else s1.errorCalls)
      else s1;
    s2.(isLoading := false)
  }

  /** A resolved value replaces `data` only when truthy (a falsy result keeps
      the previous `data`), never touches `error`, and `onSuccess` is called
      with it exactly when `data` is assigned. */
  lemma ResolvedUpdatesDataOnlyIfTruthy(s: MutationState, options: MutationOptions, v: JsValue)
    ensures var t := AfterMutate(s, options, RunResolver(Resolved(v)));
      && t.data == (if Truthy(v) then v else s.data)
      && t.error == s.error && t.errorCalls == s.errorCalls
      && t.successCalls == s.successCalls + (if Truthy(v) && options.hasOnSuccess then [v] else [])
      && !t.isLoading
  {
  }

  /** A thrown value replaces `error` only when truthy, never clears `data`,
      and `onError` is called with it exactly when `error` is assigned. */
  lemma ThrownUpdatesErrorOnlyIfTruthy(s: MutationState, options: MutationOptions, e: JsValue)
    ensures var t := AfterMutate(s, options, RunResolver(Thrown(e)));
      && t.error == (if Truthy(e) then e else s.error)
      && t.data == s.data && t.successCalls == s.successCalls
      && t.errorCalls == s.errorCalls + (if Truthy(e) && options.hasOnError then [e] else [])
      && !t.isLoading
  {
  }

  /** Mutations run one after another, each awaited before the next. */
  function ReplayMutations(s: MutationState, options: MutationOptions, outcomes: seq<Outcome>): MutationState
  {
    if outcomes == [] then s
    else AfterMutate(ReplayMutations(s, options, outcomes[..|outcomes| - 1]), options,
                     RunResolver(outcomes[|outcomes| - 1]))
  }

  /** The truthy resolved values among the outcomes, in order. */
  function SuccessValues(outcomes: seq<Outcome>): (vs: seq<JsValue>)
    ensures forall v :: v in vs ==> Truthy(v) && Resolved(v) in outcomes
  {
    if outcomes == [] then []
    else
      var o := outcomes[|outcomes| - 1];
      SuccessValues(outcomes[..|outcomes| - 1]) + (if o.Resolved? && Truthy(o.value) then [o.value] else [])
  }

  /** The truthy thrown values among the outcomes, in order. */
  function ErrorValues(outcomes: seq<Outcome>): (vs: seq<JsValue>)
    ensures forall v :: v in vs ==> Truthy(v) && Thrown(v) in outcomes
  {
    if outcomes == [] then []
    else
      var o := outcomes[|outcomes| - 1];
      ErrorValues(outcomes[..|outcomes| - 1]) + (if o.Thrown? && Truthy(o.value) then [o.value] else [])
  }

  /** After a series of mutations, `data` is the last truthy resolved value
      (the initial `data` if there was none) and `onSuccess` has been called
      with exactly the truthy resolved values, in order: a failure never
      clears earlier data. `isLoading` is clear after any mutation. */
  lemma {:induction false} ReplayMutationsData(s: MutationState, options: MutationOptions, outcomes: seq<Outcome>)
    ensures var t, ok := ReplayMutations(s, options, outcomes), SuccessValues(outcomes);
      && t.data == (if ok == [] then s.data else ok[|ok| - 1])
      && t.successCalls == s.successCalls + (if options.hasOnSuccess then ok else [])
      && t.isLoading == (s.isLoading && outcomes == [])
  {
    if outcomes != [] {
      var prefix, o := outcomes[..|outcomes| - 1], outcomes[|outcomes| - 1];
      ReplayMutationsData(s, options, prefix);
      var before := ReplayMutations(s, options, prefix);
      assert ReplayMutations(s, options, outcomes) == AfterMutate(before, options, RunResolver(o));
      if o.Resolved? {
        ResolvedUpdatesDataOnlyIfTruthy(before, options, o.value);
      } else {
        ThrownUpdatesErrorOnlyIfTruthy(before, options, o.value);
      }
    }
  }

  /** After a series of mutations, `error` is the last truthy thrown value
      (the initial `error` if there was none) and `onError` has been called
      with exactly the truthy thrown values, in order: a success never
      clears an earlier error. */
  lemma {:induction false} ReplayMutationsError(s: MutationState, options: MutationOptions, outcomes: seq<Outcome>)
    ensures var t, bad := ReplayMutations(s, options, outcomes), ErrorValues(outcomes);
      && t.error == (if bad == [] then s.error else bad[|bad| - 1])
      && t.errorCalls == s.errorCalls + (if options.hasOnError then bad else [])
  {
    if outcomes != [] {
      var prefix, o := outcomes[..|outcomes| - 1], outcomes[|outcomes| - 1];
      ReplayMutationsError(s, options, prefix);
      var before := ReplayMutations(s, options, prefix);
      assert ReplayMutations(s, options, outcomes) == AfterMutate(before, options, RunResolver(o));
      if o.Resolved? {
        ResolvedUpdatesDataOnlyIfTruthy(before, options, o.value);
      } else {
        ThrownUpdatesErrorOnlyIfTruthy(before, options, o.value);
      }
    }
  }

  /** `IocasteMutationClass`. `resolverInputs` records the inputs the
      mutation function was called with; `successCalls` / `errorCalls` the
      arguments of the `onSuccess` / `onError` calls. `outstanding` counts
      mutations begun and not yet settled. */
  class IocasteMutation {
    const options: MutationOptions
    var data: JsValue
    var error: JsValue
    var isLoading: bool
    var resolverInputs: seq<JsValue>
    var successCalls: seq<JsValue>
    var errorCalls: seq<JsValue>
    ghost var outstanding: nat

    function State(): MutationState
      reads this
    {
      MutationState(isLoading, data, error, successCalls, errorCalls)
    }

    constructor (options: MutationOptions)
      ensures this.options == options && State() == InitialMutationState
      ensures resolverInputs == [] && outstanding == 0
    {
      this.options := options;
      data, error, isLoading := Undefined, Undefined, false;
      resolverInputs, successCalls, errorCalls := [], [], [];
      outstanding := 0;
    }

    /** `mutate` up to its `await`: `isLoading` is set and the mutation
        function is called with `input`; nothing else changes. */
    method BeginMutate(input: JsValue)
      modifies this
      ensures State() == old(State()).(isLoading := true)
      ensures resolverInputs == old(resolverInputs) + [input]
      ensures outstanding == old(outstanding) + 1
    {
      isLoading := true;
      resolverInputs := resolverInputs + [input];
      outstanding := outstanding + 1;
    }

    /** `mutate` after its `await`: the outcome of an outstanding call is
        wrapped by the internal resolver and applied; `isLoading` is cleared
        whatever the outcome. */
    method CompleteMutate(outcome: Outcome)
      requires outstanding > 0
      modifies this
      ensures State() == AfterMutate(old(State()), options, RunResolver(outcome))
      ensures resolverInputs == old(resolverInputs)
      ensures outstanding == old(outstanding) - 1
    {
      var r := RunResolver(outcome);
      if Truthy(r.data) {
        if options.hasOnSuccess {
          successCalls := successCalls + [r.data];
        }
        data := r.data;
      }
      if Truthy(r.error) {
        if options.hasOnError {
          errorCalls := errorCalls + [r.error];
        }
        error := r.error;
      }
      isLoading := false;
      outstanding := outstanding - 1;
    }
  }
}
