# BetterBuys product controller — verified model

This project models the part of the BetterBuys product controller that
changes a product document. It covers three handlers:

- **createProductReview** adds a user's review to a product. It rejects a
  second review by the same user with status 400 "Product already reviewed".
  Otherwise it appends the review at the end of the embedded list. It then
  recomputes the two derived fields: `numReviews` becomes the list length
  and `rating` becomes the mean of the ratings. When the product does not
  exist, the handler changes nothing and sends nothing.
- **updateProduct** overwrites the seven descriptive fields of an existing
  product (name, price, description, image, brand, category, countInStock).
  It answers 404 "Resource not found" when the product is missing.
- **createProduct** builds a product owned by the acting user from fixed
  placeholder values and answers 201.

Layout:

- `reviews.dfy` (module `Reviews`): the review list as a value. It holds the
  duplicate scan (`FindByUser`, the `find` call), the rating fold (`Reduce`,
  the `reduce` call), a reference sum and mean (`Total`, `Mean`), and the
  accept-or-reject decision for one submission (`Submit`). It also has
  `Replay` for a series of submissions and the lemmas about all of these.
- `products.dfy` (module `Products`): the product document as a class whose
  fields the handlers assign in place, plus the three handlers as methods.
  `Product.Valid()` is the review invariant: `numReviews == |reviews|`, the
  rating is the mean of a non-empty list, and no user appears twice.
  The store lookup `findById` is represented by its result, a `Product?`
  that is null when nothing was found. Replies are an `Outcome`: `Sent(status)`,
  `Thrown(status, message)` for an error thrown after setting the status, or
  `NoResponse`.

Modelling choices:

- Ratings and the average are `real`, so the model uses exact division,
  not JavaScript floating point. A review's rating is the number produced
  by `Number(rating)`; the coercion itself is not modelled.
- User ids are compared as strings, as the source compares `toString()` forms.
- `find` returns the matching review; the model returns its position. The
  handler only tests whether a match exists, so both give the same behaviour.
- The controller gives no rating for an empty review list. The model's
  invariant leaves `rating` free in that case. A new product gets `rating`
  0.0; the controller does not set it, and the schema default is not part
  of this model.
- A missing product in createProductReview is modelled as written: no
  change and no reply (`NoResponse`). The handler does not answer 404 here.
- The review rating is not checked against the range 1 to 5 in the
  controller. The model accepts any rating. `MeanBounds` shows that the
  mean stays within any range that holds every rating.

## Model

| member | source | states |
|---|---|---|
| `Reviews.FindByUser` | backend/controllers/productController.js:101-103 | The scan finds a match exactly when some review's user equals the acting user's id; the match it reports is the first one in list order. |
| `Reviews.Reduce` | backend/controllers/productController.js:120 | The left fold of `acc + review.rating` starting at `acc` equals `acc` plus the sum of all ratings. |
| `Reviews.Submit` | backend/controllers/productController.js:101-116 | A submission is rejected exactly when the user already has a review; an accepted one keeps every earlier review in place and order and puts the new review last. |
| `Reviews.TotalPermutation` | backend/controllers/productController.js:120 | The sum of ratings is the same for any reordering of the review list. |
| `Reviews.MeanPermutation` | backend/controllers/productController.js:119-121 | The average rating is the same for any reordering of a non-empty review list. |
| `Reviews.MeanBounds` | backend/controllers/productController.js:119-121 | If every rating lies between two bounds (such as 1 and 5), so does the average. |
| `Reviews.MeanSingle` | backend/controllers/productController.js:119-121 | With exactly one review, the average rating is that review's rating. |
| `Reviews.SubmitKeepsDistinct` | backend/controllers/productController.js:101-116 | If no user had two reviews before an accepted submission, none has two afterwards. |
| `Reviews.ReplayKeepsDistinct` | backend/controllers/productController.js:101-116 | Any series of submissions, accepted or rejected, keeps the list free of duplicate users. |
| `Reviews.ReplayFresh` | backend/controllers/productController.js:101-116 | Submissions from distinct users with no earlier review are all accepted, and their reviews follow the existing ones in submission order. |
| `Reviews.ReplayOrderIrrelevant` | backend/controllers/productController.js:116-121 | Starting from no reviews, N submissions from distinct users give N reviews with the same average whatever order they arrive in; only the first order is assumed to come from distinct users. |
| `Reviews.TwoUsersThenDuplicate` | backend/controllers/productController.js:101-121 | Ratings 4 and 5 from two users give an average of 4.5, and a later submission by the first user is rejected and changes nothing. |
| `Products.Product.constructor` | backend/controllers/productController.js:35-45 | A new document holds exactly the given fields, no reviews and rating 0; it meets the review invariant exactly when its `numReviews` is 0. |
| `Products.CreateProduct` | backend/controllers/productController.js:34-47 | The new product belongs to the acting user and has the placeholder name, image, brand, category and description, price 0, countInStock 0, numReviews 0 and no reviews; the reply is 201. |
| `Products.UpdateProduct` | backend/controllers/productController.js:53-74 | A missing product gives 404 "Resource not found". Otherwise the seven descriptive fields equal the request's, reviews, numReviews, rating and owner are unchanged, the reply is 200, and the review invariant is kept. |
| `Products.CreateProductReview` | backend/controllers/productController.js:93-125 | A missing product gives no reply. A user who already reviewed gets 400 "Product already reviewed", with reviews, count, rating and the other fields unchanged. Otherwise the new review, carrying the user's name, the numeric rating, the comment and the user's id (lines 110-115), is appended last, `numReviews` equals the new length (old length plus one) and `rating` equals the mean of all ratings. The outcome agrees with `Submit`, and the review invariant is kept. |

## Left out

- getProducts: a store query with a case-insensitive regular-expression filter; MongoDB regex semantics are outside the model.
- getProductById: only a store lookup and a thrown error; the error's final status depends on error middleware that is not part of this model.
- deleteProduct: only a store call inside a try/catch.
- getTopProducts: entirely a database sort and limit.
- Persistence: `findById` is represented by its result and `save` is not modelled. The model treats a write as taking effect at once.
- Response bodies: the saved product, the created product and the "Review Added" message are not modelled, only status codes and error messages.
- JavaScript floating point and `Number(...)` coercion: ratings are exact reals, so rounding of the average is not modelled.
- Request fields missing from an update body (which become undefined in the source) are not modelled; the request is a record of seven values.
- Access control (which routes need a logged-in user or an admin) belongs to middleware that is not part of this model.
- Concurrent submissions for one product (read, then write, last writer wins) are not modelled; each handler call runs on its own.
