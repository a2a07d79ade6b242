/**
 * `productReducer` (components/reducers/productReducers.js): the product-list
 * slice of the Redux store as a state machine over the actions.
 */
module ProductReducer {
  import opened Wrappers
  import opened ProductConstants

  /** The `error` member: absent (or undefined), `null`, or a message. */
  datatype ErrorField = NoError | NullError | ErrorMessage(message: string)

  /** A state object; `None` is an absent (or undefined) member. */
  datatype State = State(loading: Option<bool>, products: Option<seq<Product>>, productsCount: Option<int>, error: ErrorField)

  const INITIAL: State := State(None, Some([]), None, NoError)

  /** A member holding `undefined` reads like an absent one. */
  function ErrorOf(payload: Option<string>): ErrorField {
    if payload.Some? then ErrorMessage(payload.value) else NoError
  }

  /** `productReducer(state = initialState, action)` */
  function Reduce(state: Option<State>, action: Action): (r: State)
    ensures action.AllProductsRequest? ==> r == State(Some(true), Some([]), None, NoError)
    ensures action.AllProductsSuccess? ==>
      r == State(Some(false), action.data.products, action.data.productCount, NoError)
    ensures action.AllProductsFail? ==> r == State(Some(false), None, None, ErrorOf(action.message))
    ensures action.ClearErrors? ==> r == state.GetOr(INITIAL).(error := NullError)
    ensures !(action.AllProductsRequest? || action.AllProductsSuccess? || action.AllProductsFail? || action.ClearErrors?) ==>
      r == state.GetOr(INITIAL)
  {
    var s := state.GetOr(INITIAL);
    match action
    case AllProductsRequest => State(Some(true), Some([]), None, NoError)
    case AllProductsSuccess(data) => State(Some(false), data.products, data.productCount, NoError)
    case AllProductsFail(payload) => State(Some(false), None, None, ErrorOf(payload))
    case ClearErrors => s.(error := NullError)
    case _ => s
  }

  /** REQUEST forgets everything before it: any error and any count. */
  lemma RequestForgetsState(s1: Option<State>, s2: Option<State>)
    ensures Reduce(s1, AllProductsRequest) == Reduce(s2, AllProductsRequest)
    ensures Reduce(s1, AllProductsRequest).error == NoError && Reduce(s1, AllProductsRequest).productsCount.None?
  {
  }

  /** CLEAR_ERRORS changes only `error`, and twice is once. */
  lemma ClearErrorsIdempotent(s: State)
    ensures Reduce(Some(Reduce(Some(s), ClearErrors)), ClearErrors) == Reduce(Some(s), ClearErrors)
    ensures Reduce(Some(s), ClearErrors).(error := s.error) == s
  {
  }

  /** The actions of the other product thunks leave this slice as it is. */
  lemma OtherActionsIgnored(s: State, a: Action)
    requires !(a.AllProductsRequest? || a.AllProductsSuccess? || a.AllProductsFail? || a.ClearErrors?)
    ensures Reduce(Some(s), a) == s
  {
  }

  /** The state after a sequence of actions, starting from the initial one. */
  function Run(actions: seq<Action>): State {
    if actions == [] then INITIAL else Reduce(Some(Run(actions[..|actions| - 1])), actions[|actions| - 1])
  }

  /**
   * What every reachable state satisfies: while loading the list is empty and
   * there is no message; a message comes with no list and loading false;
   * a count only ever appears next to a finished load.
   */
  predicate Consistent(s: State) {
    && (s.loading == Some(true) ==> s.products == Some([]) && !s.error.ErrorMessage? && s.productsCount.None?)
    && (s.error.ErrorMessage? ==> s.products.None? && s.loading == Some(false))
    && (s.productsCount.Some? ==> s.loading == Some(false))
  }

  lemma {:induction false} ReachableStatesConsistent(actions: seq<Action>)
    ensures Consistent(Run(actions))
  {
    if actions != [] {
      ReachableStatesConsistent(actions[..|actions| - 1]);
    }
  }
}
