/**
 * The product document and the three handlers of the product controller
 * that change it: create, update, and add a review.
 *
 * The store lookup that precedes update and review is represented by its
 * result: a `Product?` that is null when no product has the requested id.
 * An HTTP reply is represented by an `Outcome` instead of a response object.
 */
module Products {
  import opened Reviews

  /** What a handler sends back: a success status, a thrown error with the
      status set before the throw, or nothing at all. */
  datatype Outcome = Sent(status: nat) | Thrown(status: nat, message: string) | NoResponse

  const AlreadyReviewed := Thrown(400, "Product already reviewed")
  const ResourceNotFound := Thrown(404, "Resource not found")

  /** The seven descriptive fields an update request carries. */
  datatype ProductFields = ProductFields(
    name: string, price: real, description: string, image: string,
    brand: string, category: string, countInStock: int)

  class Product {
    var name: string
    var price: real
    var user: UserId
    var image: string
    var brand: string
    var category: string
    var countInStock: int
    var numReviews: int
    var description: string
    var rating: real
    var reviews: seq<Review>

    /**
     * The review invariant: the count matches the list, the rating is the
     * mean of the list once it is non-empty, and no user reviewed twice.
     */
    ghost predicate Valid()
      reads this
    {
      && numReviews == |reviews|
      && (|reviews| > 0 ==> rating == Mean(reviews))
      && DistinctUsers(reviews)
    }

    /** The descriptive fields as an update request would carry them. */
    function Fields(): ProductFields
      reads this
    {
      ProductFields(name, price, description, image, brand, category, countInStock)
    }

    /** A new document with the given fields, no reviews and a zero rating. */
    constructor (name: string, price: real, user: UserId, image: string, brand: string,
                 category: string, countInStock: int, numReviews: int, description: string)
      ensures this.name == name && this.price == price && this.user == user
      ensures this.image == image && this.brand == brand && this.category == category
      ensures this.countInStock == countInStock && this.numReviews == numReviews
      ensures this.description == description
      ensures reviews == [] && rating == 0.0
      ensures Valid() <==> numReviews == 0
    {
      this.name, this.price, this.user := name, price, user;
      this.image, this.brand, this.category := image, brand, category;
      this.countInStock, this.numReviews, this.description := countInStock, numReviews, description;
      reviews, rating := [], 0.0;
    }
  }

  /**
   * createProduct: a product owned by the acting user, filled with
   * placeholder values, answered with status 201.
   */
  method CreateProduct(actor: Actor) returns (product: Product, reply: Outcome)
    ensures fresh(product) && reply == Sent(201)
    ensures product.user == actor.id
    ensures product.name == "Sample name" && product.price == 0.0
    ensures product.image == "/images/sample.jpg" && product.brand == "Sample Brand"
    ensures product.category == "Sample category" && product.description == "Sample description"
    ensures product.countInStock == 0 && product.numReviews == 0 && product.reviews == []
    ensures product.Valid()
  {
    product := new Product("Sample name", 0.0, actor.id, "/images/sample.jpg", "Sample Brand",
                           "Sample category", 0, 0, "Sample description");
    reply := Sent(201);
  }

  /**
   * updateProduct: overwrite the seven descriptive fields of the product
   * that was found; everything else is left as it was. A missing product
   * is answered with 404 "Resource not found".
   */
  method UpdateProduct(found: Product?, req: ProductFields) returns (reply: Outcome)
    modifies found
    ensures found == null ==> reply == ResourceNotFound
    ensures found != null ==> reply == Sent(200) && found.Fields() == req
    ensures found != null ==>
      && found.reviews == old(found.reviews) && found.numReviews == old(found.numReviews)
      && found.rating == old(found.rating) && found.user == old(found.user)
    ensures found != null && old(found.Valid()) ==> found.Valid()
  {
    if found != null {
      found.name := req.name;
      found.price := req.price;
      found.description := req.description;
      found.image := req.image;
      found.brand := req.brand;
      found.category := req.category;
      found.countInStock := req.countInStock;
      reply := Sent(200);
    } else {
      reply := ResourceNotFound;
    }
  }

  /**
   * createProductReview: reject a second review by the same user with 400;
   * otherwise append the review and recompute the count and the mean
   * rating. When no product was found nothing changes and nothing is sent.
   */
  method CreateProductReview(found: Product?, actor: Actor, rating: real, comment: string)
    returns (reply: Outcome)
    modifies found
    ensures found == null ==> reply == NoResponse
    ensures found != null ==> reply in {Sent(200), AlreadyReviewed}
    ensures found != null ==>
      (reply == AlreadyReviewed <==> ReviewedBy(old(found.reviews), actor.id))
    ensures found != null && reply == AlreadyReviewed ==>
      && found.reviews == old(found.reviews) && found.numReviews == old(found.numReviews)
      && found.rating == old(found.rating)
    ensures found != null && reply == Sent(200) ==>
      && found.reviews == old(found.reviews) + [ReviewOf(Submission(actor, rating, comment))]
      && found.numReviews == |found.reviews| == |old(found.reviews)| + 1
      && found.rating == Mean(found.reviews)
    ensures found != null ==>
      Submit(old(found.reviews), Submission(actor, rating, comment))
        == (if reply == Sent(200) then Some(found.reviews) else None)
    ensures found != null ==> found.Fields() == old(found.Fields()) && found.user == old(found.user)
    ensures found != null && old(found.Valid()) ==> found.Valid()
  {
    if found == null {
      return NoResponse;
    }
    if FindByUser(found.reviews, actor.id).Some? {
      return AlreadyReviewed;
    }
    ghost var before := found.reviews;
    var submission := Submission(actor, rating, comment);
    found.reviews := found.reviews + [ReviewOf(submission)];
    found.numReviews := |found.reviews|;
    found.rating := Reduce(found.reviews, 0.0) / (|found.reviews| as real);
    if DistinctUsers(before) {
      SubmitKeepsDistinct(before, submission);
    }
    reply := Sent(200);
  }
}
