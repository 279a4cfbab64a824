/** The post selection of the Blog section.

    The list shown is the posts of the active category (all of them for the
    pseudo-category "all"), cut to the first `limit` posts when `limit` is
    truthy. `limit` is the component's property: it defaults to 3 when the
    caller passes none, 0 stands for the falsy values (0, null, false), and a
    negative limit follows `Array.prototype.slice`, dropping that many posts
    from the end.
 */
module Blog {
  import opened Input

  type Category = string

  /** The pseudo-category that selects every post */
  const All: Category := "all"

  /** The category buttons, in display order; `setActiveCategory` is only
      ever called with one of these */
  const Categories: seq<Category> := [All, "tax", "business", "regulations"]

  /** A post, without its localised title, excerpt, date and image URL */
  datatype Post = Post(id: nat, category: Category, readTime: nat)

  /** The sample posts the section shows */
  const SamplePosts: seq<Post> := [
    Post(1, "tax", 5),
    Post(2, "regulations", 4),
    Post(3, "tax", 6)
  ]

  /** `limit` when the caller passes no property */
  const DefaultLimit: int := 3

  // ---------------------------------------------------------------------------
  // Reference definitions

  /** The number of posts of category `c` */
  function CountOf(posts: seq<Post>, c: Category): nat
  {
    if |posts| == 0 then 0
    else (if posts[0].category == c then 1 else 0) + CountOf(posts[1..], c)
  }

  /** `sub` is `s` with some elements removed, the rest kept in order */
  predicate IsSubsequence<T(==)>(sub: seq<T>, s: seq<T>)
    decreases |s|
  {
    if |sub| == 0 then true
    else if |s| == 0 then false
    else if sub[0] == s[0] then IsSubsequence(sub[1..], s[1..])
    else IsSubsequence(sub, s[1..])
  }

  // ---------------------------------------------------------------------------
  // Filtering by category

  /** `posts.filter((post) => post.category === c)` */
  function FilterCategory(posts: seq<Post>, c: Category): (r: seq<Post>)
    ensures |r| <= |posts|
    ensures forall i :: 0 <= i < |r| ==> r[i].category == c
  {
    if |posts| == 0 then []
    else
      var rest := FilterCategory(posts[1..], c);
      if posts[0].category == c then [posts[0]] + rest else rest
  }

  /** The filtered list keeps the posts of `c` in their original order. */
  lemma {:induction false} FilterIsSubsequence(posts: seq<Post>, c: Category)
    ensures IsSubsequence(FilterCategory(posts, c), posts)
  {
    if |posts| > 0 {
      FilterIsSubsequence(posts[1..], c);
      var rest := FilterCategory(posts[1..], c);
      if posts[0].category == c {
        assert ([posts[0]] + rest)[1..] == rest;
      } else {
        SubsequenceOfTail(rest, posts);
      }
    }
  }

  /** A subsequence of the tail is a subsequence of the whole. */
  lemma {:induction false} SubsequenceOfTail<T>(sub: seq<T>, s: seq<T>)
    requires |s| > 0 && IsSubsequence(sub, s[1..])
    ensures IsSubsequence(sub, s)
    decreases |s|, 0
  {
    if |sub| > 0 && sub[0] == s[0] {
      // s[1..] starts with sub[0] as well; drop it from both
      SubsequenceDropHead(sub, s[1..]);
    }
  }

  /** When `sub` is a subsequence of `s`, so is its tail. */
  lemma {:induction false} SubsequenceDropHead<T>(sub: seq<T>, s: seq<T>)
    requires |sub| > 0 && IsSubsequence(sub, s)
    ensures IsSubsequence(sub[1..], s)
    decreases |s|, 1
  {
    assert |s| > 0;
    if sub[0] == s[0] {
      if |sub| > 1 {
        SubsequenceOfTail(sub[1..], s);
      }
    } else {
      SubsequenceDropHead(sub, s[1..]);
      if |sub| > 1 {
        SubsequenceOfTail(sub[1..], s);
      }
    }
  }

  /** Exactly the posts of `c` survive the filter, however many there are. */
  lemma {:induction false} FilterCount(posts: seq<Post>, c: Category)
    ensures |FilterCategory(posts, c)| == CountOf(posts, c)
  {
    if |posts| > 0 {
      FilterCount(posts[1..], c);
    }
  }

  /** A post is in the filtered list exactly when it is a post of `c`. */
  lemma {:induction false} FilterMembership(posts: seq<Post>, c: Category, p: Post)
    ensures p in FilterCategory(posts, c) <==> p in posts && p.category == c
  {
    if |posts| > 0 {
      FilterMembership(posts[1..], c, p);
      assert posts == [posts[0]] + posts[1..];
    }
  }

  /** A category no post carries selects nothing. */
  lemma {:induction false} FilterUnmatched(posts: seq<Post>, c: Category)
    requires forall i :: 0 <= i < |posts| ==> posts[i].category != c
    ensures FilterCategory(posts, c) == []
  {
    if |posts| > 0 {
      FilterUnmatched(posts[1..], c);
    }
  }

  /** When every post has category `c`, the filter keeps the list as is. */
  lemma {:induction false} FilterAllMatch(posts: seq<Post>, c: Category)
    requires forall i :: 0 <= i < |posts| ==> posts[i].category == c
    ensures FilterCategory(posts, c) == posts
  {
    if |posts| > 0 {
      FilterAllMatch(posts[1..], c);
      assert posts == [posts[0]] + posts[1..];
    }
  }

  /** Filtering twice by the same category changes nothing. */
  lemma FilterIdempotent(posts: seq<Post>, c: Category)
    ensures FilterCategory(FilterCategory(posts, c), c) == FilterCategory(posts, c)
  {
  }

  /** `filteredPosts`: every post for "all", the posts of the category otherwise. */
  function Filtered(posts: seq<Post>, active: Category): (r: seq<Post>)
    ensures active == All ==> r == posts
    ensures active != All ==> forall i :: 0 <= i < |r| ==> r[i].category == active
    ensures |r| <= |posts|
  {
    if active == All then posts else FilterCategory(posts, active)
  }

  /** The selection for any category is an order-preserving subsequence of
      the posts; for a real category it holds exactly its posts. */
  lemma FilteredSelects(posts: seq<Post>, active: Category)
    ensures IsSubsequence(Filtered(posts, active), posts)
    ensures active != All ==> |Filtered(posts, active)| == CountOf(posts, active)
    ensures active != All ==> forall p :: p in Filtered(posts, active) <==> p in posts && p.category == active
  {
    if active == All {
      SubsequenceReflexive(posts);
    } else {
      FilterIsSubsequence(posts, active);
      FilterCount(posts, active);
      forall p
        ensures p in Filtered(posts, active) <==> p in posts && p.category == active
      {
        FilterMembership(posts, active, p);
      }
    }
  }

  /** Every list is a subsequence of itself. */
  lemma {:induction false} SubsequenceReflexive<T>(s: seq<T>)
    ensures IsSubsequence(s, s)
    decreases |s|
  {
    if |s| > 0 {
      SubsequenceReflexive(s[1..]);
    }
  }

  // ---------------------------------------------------------------------------
  // The limit

  /** The `limit` property as the component sees it: 3 when none is passed */
  function EffectiveLimit(passed: Option<int>): (limit: int)
    ensures passed.None? ==> limit == DefaultLimit
    ensures passed.Some? ==> limit == passed.value
  {
    passed.GetOr(DefaultLimit)
  }

  /** `s.slice(0, end)`: the first `end` elements, or all but the last `-end`
      when `end` is negative, never running past either end of `s`. */
  function SliceTo<T>(s: seq<T>, end: int): (r: seq<T>)
    ensures r <= s
    ensures end >= 0 ==> |r| == if end < |s| then end else |s|
    ensures end < 0 ==> |r| == if |s| + end > 0 then |s| + end else 0
  {
    if end >= 0 then
      (if end < |s| then s[..end] else s)
    else
      (if |s| + end > 0 then s[..|s| + end] else [])
  }

  /** `displayPosts`: the filtered list cut by a truthy limit, or all of it. */
  function Displayed(filtered: seq<Post>, limit: int): (r: seq<Post>)
    ensures r <= filtered
    ensures limit == 0 ==> r == filtered
    ensures limit > 0 ==> |r| == if limit < |filtered| then limit else |filtered|
  {
    if limit != 0 then SliceTo(filtered, limit) else filtered
  }

  /** What the section shows for a category and the `limit` property */
  function Selection(posts: seq<Post>, active: Category, passed: Option<int>): (r: seq<Post>)
    ensures r <= Filtered(posts, active)
    ensures |r| <= |posts|
    ensures passed == Some(0) ==> r == Filtered(posts, active)
    ensures EffectiveLimit(passed) > 0 ==>
              |r| == if EffectiveLimit(passed) < |Filtered(posts, active)| then EffectiveLimit(passed)
                     else |Filtered(posts, active)|
  {
    Displayed(Filtered(posts, active), EffectiveLimit(passed))
  }

  /** The shown posts are taken from the posts in order, all of the active
      category unless it is "all", and never more than a positive limit. */
  lemma SelectionSound(posts: seq<Post>, active: Category, passed: Option<int>)
    ensures IsSubsequence(Selection(posts, active, passed), posts)
    ensures active != All ==> forall p :: p in Selection(posts, active, passed) ==> p.category == active
    ensures EffectiveLimit(passed) > 0 ==> |Selection(posts, active, passed)| <= EffectiveLimit(passed)
    ensures passed.None? ==>
              |Selection(posts, active, passed)|
              == (if DefaultLimit < |Filtered(posts, active)| then DefaultLimit else |Filtered(posts, active)|)
  {
    var f := Filtered(posts, active);
    FilteredSelects(posts, active);
    PrefixIsSubsequence(Selection(posts, active, passed), f);
    SubsequenceTransitive(Selection(posts, active, passed), f, posts);
  }

  /** A prefix is a subsequence. */
  lemma {:induction false} PrefixIsSubsequence<T>(p: seq<T>, s: seq<T>)
    requires p <= s
    ensures IsSubsequence(p, s)
    decreases |s|
  {
    if |p| > 0 {
      assert p[1..] <= s[1..];
      PrefixIsSubsequence(p[1..], s[1..]);
    }
  }

  /** Being a subsequence is transitive. */
  lemma {:induction false} SubsequenceTransitive<T>(a: seq<T>, b: seq<T>, c: seq<T>)
    requires IsSubsequence(a, b) && IsSubsequence(b, c)
    ensures IsSubsequence(a, c)
    decreases |c|
  {
    if |a| > 0 {
      assert |b| > 0 && |c| > 0;
      if b[0] == c[0] {
        if a[0] == b[0] {
          SubsequenceTransitive(a[1..], b[1..], c[1..]);
        } else {
          SubsequenceTransitive(a, b[1..], c[1..]);
          SubsequenceOfTail(a, c);
        }
      } else {
        SubsequenceTransitive(a, b, c[1..]);
        SubsequenceOfTail(a, c);
      }
    }
  }

  /** The sample posts as the home page shows them (no limit passed, so 3). */
  lemma SampleSelections()
    ensures Selection(SamplePosts, All, None) == SamplePosts
    ensures Selection(SamplePosts, "tax", None) == [SamplePosts[0], SamplePosts[2]]
    ensures Selection(SamplePosts, "regulations", None) == [SamplePosts[1]]
    ensures Selection(SamplePosts, "business", None) == []
    ensures Selection(SamplePosts, All, Some(2)) == SamplePosts[..2]
    ensures Selection(SamplePosts, All, Some(-1)) == SamplePosts[..2]
    ensures Selection(SamplePosts, All, Some(0)) == SamplePosts
    ensures forall i :: 0 <= i < |SamplePosts| ==> SamplePosts[i].category in Categories[1..]
  {
  }
}
