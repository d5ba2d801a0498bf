/**
 * The review list embedded in a product, and the two aggregates derived
 * from it: the number of reviews and their mean rating.
 *
 * Everything here is a value: the duplicate scan, the rating sum and the
 * decision whether a submission is accepted. The class in products.dfy
 * applies these to a product in place.
 */
module Reviews {

  datatype Option<T> = None | Some(value: T)

  /** The string form of a user's identifier (reviews compare `toString()`s). */
  type UserId = string

  /** One embedded review. `rating` is the already-coerced numeric rating. */
  datatype Review = Review(name: string, rating: real, comment: string, user: UserId)

  /** The authenticated user on whose behalf a request is handled. */
  datatype Actor = Actor(id: UserId, name: string)

  /** What a user submits: who, the numeric rating and the comment. */
  datatype Submission = Submission(author: Actor, rating: real, comment: string)

  /** The review record built from a submission. */
  function ReviewOf(sub: Submission): Review
  {
    Review(sub.author.name, sub.rating, sub.comment, sub.author.id)
  }

  /** The reviews built from a list of submissions, in the same order. */
  function ReviewsOf(subs: seq<Submission>): seq<Review>
  {
    seq(|subs|, i requires 0 <= i < |subs| => ReviewOf(subs[i]))
  }

  ghost predicate ReviewedBy(reviews: seq<Review>, id: UserId)
  {
    exists i :: 0 <= i < |reviews| && reviews[i].user == id
  }

  /** At most one review per user. */
  ghost predicate DistinctUsers(reviews: seq<Review>)
  {
    forall i, j :: 0 <= i < j < |reviews| ==> reviews[i].user != reviews[j].user
  }

  /** No two submissions come from the same user. */
  ghost predicate DistinctSubmitters(subs: seq<Submission>)
  {
    forall i, j :: 0 <= i < j < |subs| ==> subs[i].author.id != subs[j].author.id
  }

  /**
   * The duplicate scan: the position of the first review whose user is `id`,
   * scanning in list order, or None when the user has not reviewed.
   */
  function FindByUser(reviews: seq<Review>, id: UserId): (r: Option<nat>)
    ensures r.None? <==> !ReviewedBy(reviews, id)
    ensures r.Some? ==> r.value < |reviews| && reviews[r.value].user == id
    ensures r.Some? ==> forall k :: 0 <= k < r.value ==> reviews[k].user != id
  {
    if reviews == [] then None
    else if reviews[0].user == id then Some(0)
    else
      match FindByUser(reviews[1..], id)
      case None =>
        assert forall i :: 1 <= i < |reviews| ==> reviews[i] == reviews[1..][i - 1];
        None
      case Some(k) => Some(k + 1)
  }

  /** Reference sum of the ratings of a review list. */
  function Total(reviews: seq<Review>): real
  {
    if reviews == [] then 0.0 else reviews[0].rating + Total(reviews[1..])
  }

  /** The mean rating of a non-empty review list. */
  function Mean(reviews: seq<Review>): real
    requires |reviews| > 0
  {
    Total(reviews) / (|reviews| as real)
  }

  /** The left fold `acc + review.rating` over the list, started from `acc`. */
  function Reduce(reviews: seq<Review>, acc: real): (r: real)
    ensures r == acc + Total(reviews)
  {
    if reviews == [] then acc else Reduce(reviews[1..], acc + reviews[0].rating)
  }

  /**
   * A submission against the current review list: rejected (None) when the
   * user already has a review, otherwise the list with the new review
   * appended at the end.
   */
  function Submit(reviews: seq<Review>, sub: Submission): (r: Option<seq<Review>>)
    ensures r.None? <==> ReviewedBy(reviews, sub.author.id)
    ensures r.Some? ==> |r.value| == |reviews| + 1 && r.value[..|reviews|] == reviews
    ensures r.Some? ==> r.value[|reviews|] == ReviewOf(sub)
  {
    if FindByUser(reviews, sub.author.id).Some? then None
    else Some(reviews + [ReviewOf(sub)])
  }

  /**
   * The review list after the submissions are handled one after another;
   * a rejected submission leaves the list as it was.
   */
  function Replay(reviews: seq<Review>, subs: seq<Submission>): seq<Review>
    decreases |subs|
  {
    if subs == [] then reviews
    else
      var prev := Replay(reviews, subs[..|subs| - 1]);
      match Submit(prev, subs[|subs| - 1])
      case None => prev
      case Some(next) => next
  }

  lemma {:induction false} TotalConcat(s: seq<Review>, t: seq<Review>)
    ensures Total(s + t) == Total(s) + Total(t)
  {
    if s == [] {
      assert s + t == t;
    } else {
      assert (s + t)[1..] == s[1..] + t;
      TotalConcat(s[1..], t);
    }
  }

  /** Taking the element at position j out of a list takes it out of its multiset. */
  lemma MultisetRemoveAt<T>(t: seq<T>, j: nat)
    requires j < |t|
    ensures multiset(t[..j] + t[j + 1..]) == multiset(t) - multiset{t[j]}
  {
    var front, back := t[..j], t[j + 1..];
    var rest := multiset(front + back);
    calc {
      multiset(t);
      { assert t == front + ([t[j]] + back); }
      multiset(front + ([t[j]] + back));
      multiset(front) + (multiset{t[j]} + multiset(back));
      rest + multiset{t[j]};
    }
    assert (rest + multiset{t[j]}) - multiset{t[j]} == rest;
  }

  /**
   * In two lists with the same elements, the first element of one occurs at
   * some position j of the other, and what remains on each side again has
   * the same elements.
   */
  lemma MatchFirst<T>(s: seq<T>, t: seq<T>) returns (j: nat)
    requires s != [] && multiset(s) == multiset(t)
    ensures j < |t| && t[j] == s[0]
    ensures multiset(s[1..]) == multiset(t[..j] + t[j + 1..])
  {
    assert s[0] in multiset(t) by { assert s[0] in multiset(s); }
    j := IndexOf(s[0], t);
    calc {
      multiset(s[1..]);
      { assert s[..0] + s[1..] == s[1..]; }
      multiset(s[..0] + s[1..]);
      { MultisetRemoveAt(s, 0); }
      multiset(s) - multiset{s[0]};
      multiset(t) - multiset{t[j]};
      { MultisetRemoveAt(t, j); }
      multiset(t[..j] + t[j + 1..]);
    }
  }

  lemma IndexOf<T>(x: T, t: seq<T>) returns (j: nat)
    requires x in multiset(t)
    ensures j < |t| && t[j] == x
  {
    assert x in t;
    j :| 0 <= j < |t| && t[j] == x;
  }

  /** The sum of the ratings does not depend on the order of the reviews. */
  lemma {:induction false} TotalPermutation(s: seq<Review>, t: seq<Review>)
    requires multiset(s) == multiset(t)
    ensures Total(s) == Total(t)
    decreases |s|
  {
    if s == [] {
      assert |t| == |multiset(t)| == 0;
    } else {
      var j := MatchFirst(s, t);
      var rest := t[..j] + t[j + 1..];
      TotalPermutation(s[1..], rest);
      assert t == t[..j] + [t[j]] + t[j + 1..];
      TotalConcat(t[..j] + [t[j]], t[j + 1..]);
      TotalConcat(t[..j], [t[j]]);
      TotalConcat(t[..j], t[j + 1..]);
      assert Total([t[j]]) == t[j].rating + Total([]);
    }
  }

  /** The mean rating does not depend on the order of the reviews. */
  lemma MeanPermutation(s: seq<Review>, t: seq<Review>)
    requires |s| > 0 && multiset(s) == multiset(t)
    ensures |t| == |s| && Mean(s) == Mean(t)
  {
    assert |s| == |multiset(s)| == |multiset(t)| == |t|;
    TotalPermutation(s, t);
  }

  lemma {:induction false} TotalBounds(s: seq<Review>, lo: real, hi: real)
    requires forall i :: 0 <= i < |s| ==> lo <= s[i].rating <= hi
    ensures lo * (|s| as real) <= Total(s) <= hi * (|s| as real)
  {
    if s != [] {
      TotalBounds(s[1..], lo, hi);
      assert (|s| as real) == 1.0 + (|s[1..]| as real);
    }
  }

  /** The mean lies within any bounds that every rating lies within (e.g. 1 to 5). */
  lemma MeanBounds(s: seq<Review>, lo: real, hi: real)
    requires |s| > 0
    requires forall i :: 0 <= i < |s| ==> lo <= s[i].rating <= hi
    ensures lo <= Mean(s) <= hi
  {
    TotalBounds(s, lo, hi);
    var n := |s| as real;
    assert Total(s) / n >= (lo * n) / n;
    assert Total(s) / n <= (hi * n) / n;
  }

  /** A list with a single review has that review's rating as its mean. */
  lemma MeanSingle(r: Review)
    ensures Mean([r]) == r.rating
  {
    assert Total([r]) == r.rating + Total([]);
  }

  /** An accepted submission never introduces a second review by the same user. */
  lemma SubmitKeepsDistinct(reviews: seq<Review>, sub: Submission)
    requires DistinctUsers(reviews)
    requires Submit(reviews, sub).Some?
    ensures DistinctUsers(Submit(reviews, sub).value)
  {
    var next := Submit(reviews, sub).value;
    forall i, j | 0 <= i < j < |next|
      ensures next[i].user != next[j].user
    {
      if j == |reviews| {
        assert next[i] == reviews[i];
      } else {
        assert next[i] == reviews[i] && next[j] == reviews[j];
      }
    }
  }

  /** However many submissions arrive, the list never holds two reviews by one user. */
  lemma {:induction false} ReplayKeepsDistinct(reviews: seq<Review>, subs: seq<Submission>)
    requires DistinctUsers(reviews)
    ensures DistinctUsers(Replay(reviews, subs))
    decreases |subs|
  {
    if subs != [] {
      var prev := Replay(reviews, subs[..|subs| - 1]);
      ReplayKeepsDistinct(reviews, subs[..|subs| - 1]);
      if Submit(prev, subs[|subs| - 1]).Some? {
        SubmitKeepsDistinct(prev, subs[|subs| - 1]);
      }
    }
  }

  /**
   * Submissions from distinct users who have not reviewed yet are all
   * accepted, and their reviews end up in submission order after the
   * existing ones.
   */
  lemma {:induction false} ReplayFresh(reviews: seq<Review>, subs: seq<Submission>)
    requires DistinctSubmitters(subs)
    requires forall k :: 0 <= k < |subs| ==> !ReviewedBy(reviews, subs[k].author.id)
    ensures Replay(reviews, subs) == reviews + ReviewsOf(subs)
    decreases |subs|
  {
    if subs == [] {
      assert ReviewsOf(subs) == [];
    } else {
      var n := |subs| - 1;
      var init, last := subs[..n], subs[n];
      assert subs == init + [last];
      assert DistinctSubmitters(init) by {
        forall a, b | 0 <= a < b < n
          ensures init[a].author.id != init[b].author.id
        {
          assert init[a] == subs[a] && init[b] == subs[b];
        }
      }
      assert forall k :: 0 <= k < n ==> init[k] == subs[k];
      ReplayFresh(reviews, init);
      var prev := Replay(reviews, init);
      NotYetReviewed(reviews, subs);
      assert Submit(prev, last) == Some(prev + [ReviewOf(last)]);
      ReviewsOfConcat(init, [last]);
      assert ReviewsOf([last]) == [ReviewOf(last)];
    }
  }

  /** The last submitter appears neither in the old list nor among the earlier submitters. */
  lemma NotYetReviewed(reviews: seq<Review>, subs: seq<Submission>)
    requires |subs| > 0 && DistinctSubmitters(subs)
    requires forall k :: 0 <= k < |subs| ==> !ReviewedBy(reviews, subs[k].author.id)
    ensures !ReviewedBy(reviews + ReviewsOf(subs[..|subs| - 1]), subs[|subs| - 1].author.id)
  {
    var n := |subs| - 1;
    var prev := reviews + ReviewsOf(subs[..n]);
    var id := subs[n].author.id;
    forall i | 0 <= i < |prev|
      ensures prev[i].user != id
    {
      if i < |reviews| {
        assert prev[i] == reviews[i];
      } else {
        assert prev[i] == ReviewOf(subs[i - |reviews|]);
      }
    }
  }

  /** Reordering the submissions reorders the reviews built from them. */
  lemma {:induction false} ReviewsOfPermutation(s: seq<Submission>, t: seq<Submission>)
    requires multiset(s) == multiset(t)
    ensures multiset(ReviewsOf(s)) == multiset(ReviewsOf(t))
    decreases |s|
  {
    if s == [] {
      assert |t| == |multiset(t)| == 0;
    } else {
      var j := MatchFirst(s, t);
      var rest := t[..j] + t[j + 1..];
      ReviewsOfPermutation(s[1..], rest);
      ReviewsOfSplit(t, j);
      assert ReviewsOf(s) == [ReviewOf(s[0])] + ReviewsOf(s[1..]);
      var tail := multiset(ReviewsOf(s[1..]));
      assert tail == multiset(ReviewsOf(rest));
      assert multiset(ReviewsOf(s)) == tail + multiset{ReviewOf(s[0])};
      assert multiset(ReviewsOf(t)) == tail + multiset{ReviewOf(t[j])};
    }
  }

  /** Building reviews commutes with taking one submission out of the list. */
  lemma ReviewsOfSplit(t: seq<Submission>, j: nat)
    requires j < |t|
    ensures multiset(ReviewsOf(t))
         == multiset(ReviewsOf(t[..j] + t[j + 1..])) + multiset{ReviewOf(t[j])}
  {
    var front, back := t[..j], t[j + 1..];
    assert t == front + ([t[j]] + back);
    ReviewsOfConcat(front, [t[j]] + back);
    ReviewsOfConcat([t[j]], back);
    ReviewsOfConcat(front, back);
    assert ReviewsOf([t[j]]) == [ReviewOf(t[j])];
  }

  lemma ReviewsOfConcat(s: seq<Submission>, t: seq<Submission>)
    ensures ReviewsOf(s + t) == ReviewsOf(s) + ReviewsOf(t)
  {
    assert forall i :: 0 <= i < |t| ==> (s + t)[|s| + i] == t[i];
  }

  /** Reordering submissions from distinct users keeps them from distinct users. */
  lemma {:induction false} DistinctSubmittersPermutation(s: seq<Submission>, t: seq<Submission>)
    requires multiset(s) == multiset(t) && DistinctSubmitters(s)
    ensures DistinctSubmitters(t)
    decreases |s|
  {
    if s == [] {
      assert |t| == |multiset(t)| == 0;
    } else {
      var j := MatchFirst(s, t);
      var rest := t[..j] + t[j + 1..];
      assert DistinctSubmitters(s[1..]) by {
        forall a, b | 0 <= a < b < |s[1..]|
          ensures s[1..][a].author.id != s[1..][b].author.id
        {
          assert s[1..][a] == s[a + 1] && s[1..][b] == s[b + 1];
        }
      }
      DistinctSubmittersPermutation(s[1..], rest);
      forall k | 0 <= k < |rest|
        ensures rest[k].author.id != t[j].author.id
      {
        assert rest[k] in multiset(s[1..]);
        var m :| 0 <= m < |s[1..]| && s[1..][m] == rest[k];
        assert s[m + 1] == rest[k];
      }
      forall a, b | 0 <= a < b < |t|
        ensures t[a].author.id != t[b].author.id
      {
        if a == j {
          assert t[b] == rest[b - 1];
        } else if b == j {
          assert t[a] == rest[a];
        } else {
          var a', b' := if a < j then a else a - 1, if b < j then b else b - 1;
          assert t[a] == rest[a'] && t[b] == rest[b'];
        }
      }
    }
  }

  /**
   * Starting from no reviews, submissions from N distinct users leave N
   * reviews whose mean rating is the same whatever order they arrived in.
   */
  lemma ReplayOrderIrrelevant(subs1: seq<Submission>, subs2: seq<Submission>)
    requires |subs1| > 0 && DistinctSubmitters(subs1)
    requires multiset(subs1) == multiset(subs2)
    ensures |Replay([], subs1)| == |Replay([], subs2)| == |subs1|
    ensures Mean(Replay([], subs1)) == Mean(Replay([], subs2))
  {
    DistinctSubmittersPermutation(subs1, subs2);
    ReplayFresh([], subs1);
    ReplayFresh([], subs2);
    assert [] + ReviewsOf(subs1) == ReviewsOf(subs1);
    assert [] + ReviewsOf(subs2) == ReviewsOf(subs2);
    ReviewsOfPermutation(subs1, subs2);
    MeanPermutation(ReviewsOf(subs1), ReviewsOf(subs2));
  }

  /**
   * A worked case: ratings 4 and 5 from two users give a mean of 4.5, and a
   * second submission by the first user is rejected without changing it.
   */
  lemma TwoUsersThenDuplicate(u1: Actor, u2: Actor, comment: string)
    requires u1.id != u2.id
    ensures var subs := [Submission(u1, 4.0, comment), Submission(u2, 5.0, comment),
                         Submission(u1, 2.0, comment)];
            && Replay([], subs) == Replay([], subs[..2])
            && |Replay([], subs)| == 2 && Mean(Replay([], subs)) == 4.5
  {
    var s1, s2, s3 := Submission(u1, 4.0, comment), Submission(u2, 5.0, comment),
                      Submission(u1, 2.0, comment);
    var subs := [s1, s2, s3];
    assert subs[..1] == [s1] && subs[..2] == [s1, s2] && [s1][..0] == [];
    var one := Replay([], [s1]);
    assert Replay([], [s1][..0]) == [];
    assert Submit([], s1) == Some([ReviewOf(s1)]);
    assert one == [ReviewOf(s1)];
    var two := Replay([], [s1, s2]);
    assert [s1, s2][..1] == [s1];
    assert two == [ReviewOf(s1), ReviewOf(s2)];
    assert ReviewedBy(two, u1.id) by { assert two[0].user == u1.id; }
    assert Total(two) == 9.0 by {
      assert two[1..] == [ReviewOf(s2)];
      assert Total([ReviewOf(s2)]) == 5.0 + Total([]);
    }
  }
}
