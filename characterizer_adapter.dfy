/** The adapter from an operator estimator to the characterizer context
    (`OperatorCharacterizerAdapter`). It holds its delegate context and estimator and
    no mutable state; every estimate is a batch estimate by that estimator. The batch
    estimation itself (`OperatorEstimators.apply`) is the `estimator` function. */
module CharacterizerAdapter {

  /** The adapter's two final fields; `C` is the estimator context, `O` the operators
      and `E` their estimates. */
  datatype Adapter<!C, !O(!new), E> = Adapter(delegate: C, estimator: (C, seq<O>) -> map<O, E>)

  /** `estimate(Collection)`: the estimates of `operators` by the adapter's estimator
      in its delegate context. */
  function EstimateAll<C, O(!new), E>(a: Adapter<C, O, E>, operators: seq<O>): (r: map<O, E>)
  {
    a.estimator(a.delegate, operators)
  }

  /** `estimate(Operator...)`: the array is passed on as a list, in order. */
  function EstimateEach<C, O(!new), E>(a: Adapter<C, O, E>, operators: seq<O>): (r: map<O, E>)
    ensures r == EstimateAll(a, operators)
  {
    EstimateAll(a, operators)
  }

  /** The Java assertion of `estimate(Operator)`: the batch estimate of the singleton
      holds an entry for the operator. */
  predicate EstimatesItself<C, O(!new), E>(a: Adapter<C, O, E>, operator: O)
  {
    operator in EstimateAll(a, [operator])
  }

  /** `estimate(Operator)`: the singleton's batch estimate, looked up at the operator. */
  function EstimateOne<C, O(!new), E>(a: Adapter<C, O, E>, operator: O): (r: E)
    requires EstimatesItself(a, operator)
    ensures operator in EstimateAll(a, [operator]) && EstimateAll(a, [operator])[operator] == r
  {
    EstimateAll(a, [operator])[operator]
  }

  /** An estimator that estimates every operator it is given, each on its own: the
      estimate of an operator does not depend on the other operators of the batch. */
  ghost predicate Separable<C, O(!new), E>(a: Adapter<C, O, E>)
  {
    forall operators: seq<O>, o: O | o in operators ::
      && o in a.estimator(a.delegate, operators)
      && o in a.estimator(a.delegate, [o])
      && a.estimator(a.delegate, operators)[o] == a.estimator(a.delegate, [o])[o]
  }

  /** With a separable estimator the assertion of `estimate(Operator)` always holds and
      the single estimate agrees with the operator's entry in any batch containing it. */
  lemma SeparableConsistent<C, O(!new), E>(a: Adapter<C, O, E>, operators: seq<O>, o: O)
    requires Separable(a) && o in operators
    ensures EstimatesItself(a, o)
    ensures o in EstimateAll(a, operators) && EstimateAll(a, operators)[o] == EstimateOne(a, o)
  {
    assert o in [o];
  }
}
