/**
 * The blog page: a case-insensitive search over the posts, the featured post,
 * the regular grid (matching posts minus featured ones), the "no articles"
 * message, and the Title Case label of a post's category slug.
 */
module Blog {
  import opened Wrappers

  /** `Array.prototype.filter`: the elements that satisfy `keep`, in their original order. */
  function Filter<T>(s: seq<T>, keep: T -> bool): (r: seq<T>)
    ensures |r| <= |s|
    ensures forall i :: 0 <= i < |r| ==> r[i] in s && keep(r[i])
    ensures forall i :: 0 <= i < |s| && keep(s[i]) ==> s[i] in r
  {
    if s == [] then []
    else if keep(s[0]) then [s[0]] + Filter(s[1..], keep)
    else Filter(s[1..], keep)
  }

  /** `Array.prototype.find`: the first element that satisfies `keep`, if any. */
  function Find<T>(s: seq<T>, keep: T -> bool): (r: Option<T>)
    ensures r.Some? ==> r.value in s && keep(r.value)
    ensures r.None? <==> forall i :: 0 <= i < |s| ==> !keep(s[i])
  {
    if s == [] then None
    else if keep(s[0]) then Some(s[0])
    else Find(s[1..], keep)
  }

  /** `a` is `b` with some elements dropped and the rest in the same order. */
  predicate IsSubsequence<T(==)>(a: seq<T>, b: seq<T>)
  {
    if a == [] then true
    else if b == [] then false
    else if a[0] == b[0] then IsSubsequence(a[1..], b[1..])
    else IsSubsequence(a, b[1..])
  }

  lemma {:induction false} FilterIsSubsequence<T>(s: seq<T>, keep: T -> bool)
    ensures IsSubsequence(Filter(s, keep), s)
  {
    if s != [] {
      FilterIsSubsequence(s[1..], keep);
      var r := Filter(s, keep);
      if keep(s[0]) {
        assert r[0] == s[0] && r[1..] == Filter(s[1..], keep);
      } else if r != [] {
        assert r[0] in r;
        assert r[0] != s[0];
      }
    }
  }

  /** The element `Find` returns is preceded by no element satisfying `keep`. */
  lemma {:induction false} FindIsFirst<T>(s: seq<T>, keep: T -> bool)
    requires Find(s, keep).Some?
    ensures exists i :: 0 <= i < |s| && s[i] == Find(s, keep).value
                        && forall j :: 0 <= j < i ==> !keep(s[j])
  {
    if !keep(s[0]) {
      FindIsFirst(s[1..], keep);
      var i :| 0 <= i < |s[1..]| && s[1..][i] == Find(s, keep).value
               && forall j :: 0 <= j < i ==> !keep(s[1..][j]);
      assert s[i + 1] == Find(s, keep).value;
      assert forall j :: 0 <= j < i + 1 ==> !keep(s[j]) by {
        forall j | 0 <= j < i + 1 ensures !keep(s[j]) {
          if j > 0 {
            assert s[j] == s[1..][j - 1];
          }
        }
      }
    } else {
      assert s[0] == Find(s, keep).value;
    }
  }

  /** `filter` keeps every copy of a kept element and drops every copy of the others. */
  lemma {:induction false} FilterMultiset<T>(s: seq<T>, keep: T -> bool)
    ensures forall x :: multiset(Filter(s, keep))[x] == if keep(x) then multiset(s)[x] else 0
  {
    if s != [] {
      FilterMultiset(s[1..], keep);
      assert s == [s[0]] + s[1..];
      assert multiset(s) == multiset([s[0]]) + multiset(s[1..]);
      if keep(s[0]) {
        assert multiset(Filter(s, keep)) == multiset([s[0]]) + multiset(Filter(s[1..], keep));
      }
    }
  }

  /** Filtering twice is filtering once by the conjunction of both conditions. */
  lemma {:induction false} FilterFusion<T>(s: seq<T>, f: T -> bool, g: T -> bool, both: T -> bool)
    requires forall i :: 0 <= i < |s| ==> both(s[i]) == (f(s[i]) && g(s[i]))
    ensures Filter(Filter(s, f), g) == Filter(s, both)
  {
    if s != [] {
      assert forall i :: 0 <= i < |s[1..]| ==> s[1..][i] == s[i + 1];
      FilterFusion(s[1..], f, g, both);
      if f(s[0]) {
        assert Filter(s, f) == [s[0]] + Filter(s[1..], f);
        assert ([s[0]] + Filter(s[1..], f))[1..] == Filter(s[1..], f);
      }
    }
  }

  /** Filtering by two conditions that agree on every element gives the same list. */
  lemma {:induction false} FilterCongruent<T>(s: seq<T>, f: T -> bool, g: T -> bool)
    requires forall i :: 0 <= i < |s| ==> f(s[i]) == g(s[i])
    ensures Filter(s, f) == Filter(s, g)
  {
    if s != [] {
      assert forall i :: 0 <= i < |s[1..]| ==> s[1..][i] == s[i + 1];
      FilterCongruent(s[1..], f, g);
    }
  }

  /** A condition every element satisfies keeps the whole list. */
  lemma {:induction false} FilterKeepsAll<T>(s: seq<T>, keep: T -> bool)
    requires forall i :: 0 <= i < |s| ==> keep(s[i])
    ensures Filter(s, keep) == s
  {
    if s != [] {
      assert forall i :: 0 <= i < |s[1..]| ==> s[1..][i] == s[i + 1];
      FilterKeepsAll(s[1..], keep);
    }
  }

  // ---------------------------------------------------------------------------
  // Posts and search
  // ---------------------------------------------------------------------------

  datatype Post = Post(id: nat, title: string, excerpt: string, category: string, featured: bool)

  const BlogPosts: seq<Post> := [
    Post(1, "10 Things to Know Before Buying Your First Home",
      "Navigate the home-buying process with confidence. From pre-approval to closing, we'll walk you through everything you need to know.",
      "buying-tips", true),
    Post(2, "Market Update: Spring 2025 Real Estate Trends",
      "The latest insights on market conditions, pricing trends, and what buyers and sellers can expect this season.",
      "market-trends", false),
    Post(3, "Small Space, Big Style: Maximizing Your Apartment",
      "Transform your compact living space into a stylish and functional home with these expert design tips and tricks.",
      "interior-design", false),
    Post(4, "Investment Properties: A Beginner's Guide",
      "Learn the fundamentals of real estate investing, from finding the right property to calculating returns.",
      "investment", false),
    Post(5, "Staging Your Home for a Quick Sale",
      "Professional staging tips that can help your property sell faster and for a better price.",
      "buying-tips", false),
    Post(6, "Understanding Mortgage Rates in 2025",
      "What current rate trends mean for buyers and how to secure the best financing for your purchase.",
      "market-trends", false)
  ]

  /** `toLowerCase` on one character, ASCII letters only. */
  function LowerChar(c: char): char
  {
    if 'A' <= c <= 'Z' then (c as int - 'A' as int + 'a' as int) as char else c
  }

  /** `toUpperCase` on one character, ASCII letters only. */
  function UpperChar(c: char): char
  {
    if 'a' <= c <= 'z' then (c as int - 'a' as int + 'A' as int) as char else c
  }

  function Lower(s: string): (r: string)
    ensures |r| == |s|
  {
    seq(|s|, i requires 0 <= i < |s| => LowerChar(s[i]))
  }

  function Upper(s: string): (r: string)
    ensures |r| == |s|
  {
    seq(|s|, i requires 0 <= i < |s| => UpperChar(s[i]))
  }

  /** `t` occurs in `s` starting at position `i`. */
  predicate OccursAt(s: string, t: string, i: nat)
  {
    i + |t| <= |s| && s[i..i + |t|] == t
  }

  /** `String.prototype.includes`: `t` occurs in `s` at some position. */
  predicate Includes(s: string, t: string)
    ensures t == [] ==> Includes(s, t)
    ensures Includes(s, t) ==> |t| <= |s|
  {
    assert t == [] ==> OccursAt(s, t, 0);
    exists i: nat :: i <= |s| && OccursAt(s, t, i)
  }

  /** The search test of one post: title or excerpt contains the term, compared in lower case. */
  predicate MatchesSearch(post: Post, term: string)
    ensures term == [] ==> MatchesSearch(post, term)
    ensures MatchesSearch(post, term) ==> |term| <= |post.title| || |term| <= |post.excerpt|
  {
    Includes(Lower(post.title), Lower(term)) || Includes(Lower(post.excerpt), Lower(term))
  }

  /** The callback handed to `filter` for a given term. */
  function SearchTest(term: string): Post -> bool
  {
    p => MatchesSearch(p, term)
  }

  predicate NotFeatured(p: Post)
  {
    !p.featured
  }

  /** The posts the search keeps, in the order of `posts`. */
  function FilteredPosts(posts: seq<Post>, term: string): (r: seq<Post>)
    ensures forall p :: p in r <==> p in posts && MatchesSearch(p, term)
    ensures forall p :: multiset(r)[p] == if MatchesSearch(p, term) then multiset(posts)[p] else 0
    ensures IsSubsequence(r, posts)
  {
    FilterMultiset(posts, SearchTest(term));
    FilterIsSubsequence(posts, SearchTest(term));
    Filter(posts, SearchTest(term))
  }

  predicate IsFeatured(p: Post)
  {
    p.featured
  }

  /** The first featured post of all posts; the search term plays no part. */
  function FeaturedPost(posts: seq<Post>): (r: Option<Post>)
    ensures r.Some? ==> r.value in posts && r.value.featured
    ensures r.Some? ==> exists i :: 0 <= i < |posts| && posts[i] == r.value
                                    && forall j :: 0 <= j < i ==> !posts[j].featured
    ensures r.None? <==> forall p :: p in posts ==> !p.featured
  {
    var r := Find(posts, IsFeatured);
    if r.Some? then FindIsFirst(posts, IsFeatured); r else r
  }

  /** The grid: the search results without the featured posts, in the same order. */
  function RegularPosts(filtered: seq<Post>): (r: seq<Post>)
    ensures forall p :: p in r <==> p in filtered && !p.featured
    ensures forall p :: multiset(r)[p] == if p.featured then 0 else multiset(filtered)[p]
    ensures IsSubsequence(r, filtered)
  {
    FilterMultiset(filtered, NotFeatured);
    FilterIsSubsequence(filtered, NotFeatured);
    Filter(filtered, NotFeatured)
  }

  /** The featured block renders when a featured post exists and the search box is empty. */
  predicate ShowsFeatured(posts: seq<Post>, term: string)
    ensures ShowsFeatured(posts, term) <==> term == [] && exists i :: 0 <= i < |posts| && posts[i].featured
  {
    FeaturedPost(posts).Some? && term == ""
  }

  /** The "no articles" message renders when the search results, not the grid, are empty. */
  predicate ShowsNoArticles(posts: seq<Post>, term: string)
    ensures ShowsNoArticles(posts, term) <==> forall i :: 0 <= i < |posts| ==> !MatchesSearch(posts[i], term)
  {
    var r := FilteredPosts(posts, term);
    assert r != [] ==> r[0] in r;
    |r| == 0
  }

  /** An empty search keeps every post. */
  lemma EmptySearchKeepsAll(posts: seq<Post>)
    ensures FilteredPosts(posts, "") == posts
  {
    forall i | 0 <= i < |posts| ensures MatchesSearch(posts[i], "") {
      assert Lower("") == "";
    }
    FilterKeepsAll(posts, SearchTest(""));
  }

  /** Two terms that differ only in the case of ASCII letters. */
  predicate EqualIgnoringCase(t: string, u: string)
  {
    |t| == |u| && forall i :: 0 <= i < |t| ==> LowerChar(t[i]) == LowerChar(u[i])
  }

  /** The search is case-insensitive: re-casing the term does not change the results. */
  lemma SearchIgnoresCase(posts: seq<Post>, t: string, u: string)
    requires EqualIgnoringCase(t, u)
    ensures FilteredPosts(posts, t) == FilteredPosts(posts, u)
  {
    assert Lower(t) == Lower(u);
    FilterCongruent(posts, SearchTest(t), SearchTest(u));
  }

  /** Upper-casing a term is one such re-casing. */
  lemma UpperIsRecasing(t: string)
    ensures EqualIgnoringCase(Upper(t), t)
  {
  }

  /** The grid is exactly the posts that match the search and are not featured, in order. */
  lemma RegularPostsOfSearch(posts: seq<Post>, term: string)
    ensures RegularPosts(FilteredPosts(posts, term)) == Filter(posts, RegularTest(term))
  {
    FilterFusion(posts, SearchTest(term), NotFeatured, RegularTest(term));
  }

  /** A post of the grid: it matches the term and is not featured. */
  function RegularTest(term: string): Post -> bool
  {
    p => MatchesSearch(p, term) && !p.featured
  }

  /** An empty result list means an empty grid, so the message never sits beside grid items. */
  lemma NoArticlesMeansEmptyGrid(posts: seq<Post>, term: string)
    requires ShowsNoArticles(posts, term)
    ensures RegularPosts(FilteredPosts(posts, term)) == []
  {
  }

  /**
   * A non-empty search whose only matches are featured posts shows neither the
   * featured block, nor any grid item, nor the "no articles" message.
   */
  lemma OnlyFeaturedMatchesShowNothing(posts: seq<Post>, term: string)
    requires term != ""
    requires FilteredPosts(posts, term) != []
    requires forall p :: p in FilteredPosts(posts, term) ==> p.featured
    ensures !ShowsFeatured(posts, term)
    ensures !ShowsNoArticles(posts, term)
    ensures RegularPosts(FilteredPosts(posts, term)) == []
  {
  }

  /** On the site's posts the featured post is the first one. */
  lemma FeaturedOfBlogPosts()
    ensures FeaturedPost(BlogPosts) == Some(BlogPosts[0])
  {
  }

  // ---------------------------------------------------------------------------
  // Category label
  // ---------------------------------------------------------------------------

  /** `String.prototype.split` on a one-character separator. */
  function Split(s: string, sep: char): (parts: seq<string>)
    ensures |parts| >= 1
  {
    if s == [] then [""]
    else
      var rest := Split(s[1..], sep);
      if s[0] == sep then [""] + rest else [[s[0]] + rest[0]] + rest[1..]
  }

  /** `Array.prototype.join` with a one-character separator. */
  function Join(parts: seq<string>, sep: char): string
    requires |parts| >= 1
  {
    if |parts| == 1 then parts[0] else parts[0] + [sep] + Join(parts[1..], sep)
  }

  /** `word.charAt(0).toUpperCase() + word.slice(1)`. */
  function Capitalize(word: string): string
  {
    if word == [] then [] else [UpperChar(word[0])] + word[1..]
  }

  function CapitalizeAll(words: seq<string>): (r: seq<string>)
    ensures |r| == |words|
  {
    seq(|words|, i requires 0 <= i < |words| => Capitalize(words[i]))
  }

  /** The category chip: split the slug on '-', capitalize each piece, join with spaces. */
  function CategoryLabel(slug: string): (r: string)
    ensures r == LabelChars(slug, true)
    ensures |r| == |slug|
    ensures '-' !in r
  {
    RenderPartsIsLabelChars(slug, true);
    assert CapitalizeAll(Split(slug, '-'))
        == [Capitalize(Split(slug, '-')[0])] + CapitalizeAll(Split(slug, '-')[1..]);
    LabelCharsNoDash(slug, true);
    Join(CapitalizeAll(Split(slug, '-')), ' ')
  }

  /**
   * The label written character by character: '-' becomes ' ', and a character
   * that starts a piece (at the start, or after a '-') is upper-cased.
   */
  function LabelChars(s: string, atStart: bool): (r: string)
    ensures |r| == |s|
  {
    if s == [] then []
    else if s[0] == '-' then [' '] + LabelChars(s[1..], true)
    else [if atStart then UpperChar(s[0]) else s[0]] + LabelChars(s[1..], false)
  }

  /** The parts of a split slug, rendered with the first part capitalized or not. */
  function RenderParts(parts: seq<string>, capFirst: bool): string
    requires |parts| >= 1
  {
    Join([if capFirst then Capitalize(parts[0]) else parts[0]] + CapitalizeAll(parts[1..]), ' ')
  }

  lemma JoinHead(c: char, w: string, rest: seq<string>, sep: char)
    ensures Join([[c] + w] + rest, sep) == [c] + Join([w] + rest, sep)
  {
    if |rest| > 0 {
      assert ([[c] + w] + rest)[1..] == rest;
      assert ([w] + rest)[1..] == rest;
    }
  }

  /** An empty first piece (the slug starts with '-') renders as a space before the rest. */
  lemma RenderEmptyFirst(rest: seq<string>, capFirst: bool)
    requires |rest| >= 1
    ensures RenderParts([""] + rest, capFirst) == [' '] + RenderParts(rest, true)
  {
    var caps := CapitalizeAll(rest);
    assert CapitalizeAll(([""] + rest)[1..]) == caps;
    assert caps == [Capitalize(rest[0])] + CapitalizeAll(rest[1..]);
    assert ([""] + caps)[1..] == caps;
  }

  /** A first piece starting with `c` renders as `c`, upper-cased when capitalized, before the rest. */
  lemma RenderCharFirst(c: char, rest: seq<string>, capFirst: bool)
    requires |rest| >= 1
    ensures RenderParts([[c] + rest[0]] + rest[1..], capFirst)
         == [if capFirst then UpperChar(c) else c] + RenderParts(rest, false)
  {
    var first := [c] + rest[0];
    var d := if capFirst then UpperChar(c) else c;
    assert (if capFirst then Capitalize(first) else first) == [d] + rest[0];
    assert ([first] + rest[1..])[1..] == rest[1..];
    JoinHead(d, rest[0], CapitalizeAll(rest[1..]), ' ');
  }

  lemma {:induction false} RenderPartsIsLabelChars(s: string, capFirst: bool)
    ensures RenderParts(Split(s, '-'), capFirst) == LabelChars(s, capFirst)
  {
    if s != [] {
      var rest := Split(s[1..], '-');
      RenderPartsIsLabelChars(s[1..], s[0] == '-');
      if s[0] == '-' {
        assert Split(s, '-') == [""] + rest;
        RenderEmptyFirst(rest, capFirst);
      } else {
        assert Split(s, '-') == [[s[0]] + rest[0]] + rest[1..];
        RenderCharFirst(s[0], rest, capFirst);
      }
    }
  }

  /** The character-by-character label never holds a '-'. */
  lemma {:induction false} LabelCharsNoDash(s: string, atStart: bool)
    ensures '-' !in LabelChars(s, atStart)
  {
    if s != [] {
      LabelCharsNoDash(s[1..], s[0] == '-');
    }
  }

  /** Position by position: what the label holds at each index of the slug. */
  lemma {:induction false} LabelCharsAt(s: string, atStart: bool, i: nat)
    requires i < |s|
    ensures LabelChars(s, atStart)[i]
         == if s[i] == '-' then ' '
            else if (i == 0 && atStart) || (0 < i && s[i - 1] == '-') then UpperChar(s[i])
            else s[i]
  {
    if i > 0 {
      LabelCharsAt(s[1..], s[0] == '-', i - 1);
    }
  }

  /** For a slug without spaces, the label has a space exactly where the slug has a '-'. */
  lemma CategoryLabelShape(slug: string)
    requires ' ' !in slug
    ensures forall i :: 0 <= i < |slug| ==> (CategoryLabel(slug)[i] == ' ' <==> slug[i] == '-')
  {
    var chip := CategoryLabel(slug);
    forall i | 0 <= i < |slug|
      ensures chip[i] == ' ' <==> slug[i] == '-'
    {
      LabelCharsAt(slug, true, i);
    }
  }

  /** For a slug without spaces, the label has as many space-separated words as the slug has '-'-separated pieces. */
  lemma {:induction false} LabelKeepsPieceCount(s: string, atStart: bool)
    requires ' ' !in s
    ensures |Split(LabelChars(s, atStart), ' ')| == |Split(s, '-')|
  {
    if s != [] {
      LabelKeepsPieceCount(s[1..], s[0] == '-');
      var l := LabelChars(s, atStart);
      assert l[1..] == LabelChars(s[1..], s[0] == '-');
    }
  }

  // ---------------------------------------------------------------------------
  // The page's one state cell
  // ---------------------------------------------------------------------------

  class BlogPage {
    var searchTerm: string

    constructor ()
      ensures searchTerm == ""
    {
      searchTerm := "";
    }

    /** The search box's change handler. */
    method ChangeSearch(value: string)
      modifies this`searchTerm
      ensures searchTerm == value
    {
      searchTerm := value;
    }

    /** The "View all articles" button under the "no articles" message. */
    method ClearSearch()
      modifies this`searchTerm
      ensures searchTerm == ""
      ensures FilteredPosts(BlogPosts, searchTerm) == BlogPosts
      ensures ShowsFeatured(BlogPosts, searchTerm)
    {
      searchTerm := "";
      EmptySearchKeepsAll(BlogPosts);
      FeaturedOfBlogPosts();
    }
  }
}
