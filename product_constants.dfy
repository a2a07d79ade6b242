/**
 * The Redux actions the product thunks dispatch and the product reducer
 * reads. The string values of the action-type constants live in
 * constants/productConstants.js, which is not part of this model; each
 * constant is a constructor here, named after it.
 */
module ProductConstants {
  import opened Wrappers

  datatype Product = Product(id: string, name: string, price: int)

  /** The `data` of an axios response: the server's JSON body, every member possibly absent. */
  datatype Response = Response(
    success: Option<bool>,
    message: Option<string>,
    products: Option<seq<Product>>,
    productCount: Option<int>,
    product: Option<Product>)

  /** The payload of NEW_REVIEW_SUCCESS: `newProduct` sends the whole body, `newReview` its `success` flag. */
  datatype ReviewPayload = WholeBody(data: Response) | SuccessFlag(flag: Option<bool>)

  datatype Action =
    | AllProductsRequest | AllProductsSuccess(data: Response) | AllProductsFail(message: Option<string>)
    | AdminProductsRequest | AdminProductsSuccess(products: Option<seq<Product>>) | AdminProductsFail(message: Option<string>)
    | ProductDetailsRequest | ProductDetailsSuccess(product: Option<Product>) | ProductDetailsFail(message: Option<string>)
    | NewProductRequest | NewProductSuccess(data: Response) | NewProductFail(message: Option<string>) | NewProductReset
    | NewReviewRequest | NewReviewSuccess(payload: ReviewPayload) | NewReviewFail(message: Option<string>) | NewReviewReset
    | ClearErrors
    | Unrecognized(actionType: string)
}
