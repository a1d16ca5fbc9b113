/** The profile page's course list: the courses the user owns, merged with
    every catalogue course whose lessons answer 200, each slug once, owned
    ones first and then by title. */
module Perfil {
  import opened Wrappers
  import opened Text
  import Sorting

  /** The local images, by slug (bundled assets). */
  const IMAGE_BY_SLUG: map<string, string> :=
    map["comunicacion" := "/assets/cursos/arbol.jpg",
        "pro-avanzado" := "/assets/cursos/tecnologia.jpg",
        "masterclass" := "/assets/cursos/renovacion.jpg"]

  /** The API base and `new URL(path, base).href` (None when it throws). */
  datatype ThumbEnv = ThumbEnv(apiBase: string, resolveUrl: (string, string) -> Option<string>)

  /** `resolveThumb`: a local image for the slug wins; an empty backend
      thumbnail gives ""; otherwise the absolute URL, or the value as it is
      when it does not parse. */
  function ResolveThumb(env: ThumbEnv, slug: string, backendThumb: string): (r: string)
    ensures slug in IMAGE_BY_SLUG ==> r == IMAGE_BY_SLUG[slug]
    ensures slug !in IMAGE_BY_SLUG && backendThumb == "" ==> r == ""
    ensures slug !in IMAGE_BY_SLUG && backendThumb != "" ==>
      r == env.resolveUrl(backendThumb, env.apiBase).GetOr(backendThumb)
  {
    if slug in IMAGE_BY_SLUG then IMAGE_BY_SLUG[slug]
    else if backendThumb == "" then ""
    else env.resolveUrl(backendThumb, env.apiBase).GetOr(backendThumb)
  }

  // ---------------------------------------------------------------------
  // The responses

  /** An entry of `my.courses`: a bare slug or an object. */
  datatype OwnedRaw = SlugOnly(slug: string) | OwnedObject(slug: string, title: string, thumbnail: string)

  datatype Owned = Owned(slug: string, title: string, thumbnail: string)

  datatype CatalogCourse = CatalogCourse(slug: string, title: string, thumbnail: string, level: string)

  function OwnedOfRaw(raw: OwnedRaw): (o: Owned)
    ensures o.slug == raw.slug
    ensures raw.SlugOnly? ==> o.title == "" && o.thumbnail == ""
  {
    match raw
    case SlugOnly(s) => Owned(s, "", "")
    case OwnedObject(s, t, th) => Owned(s, t, th)
  }

  /** `Array.isArray(my?.courses) ? my.courses : []`, each entry as
      `{ slug, title, thumbnail }`. None stands for anything that is not an
      array (or a failed request). */
  function OwnedList(my: Option<seq<OwnedRaw>>): (r: seq<Owned>)
    ensures my.None? ==> r == []
    ensures my.Some? ==> |r| == |my.value| && forall i | 0 <= i < |r| :: r[i] == OwnedOfRaw(my.value[i])
  {
    if my.None? then [] else seq(|my.value|, i requires 0 <= i < |my.value| => OwnedOfRaw(my.value[i]))
  }

  /** `new Map(catalog.map(c => [c.slug, c]))`: a later course with the
      same slug replaces an earlier one. */
  function CatalogMap(list: seq<CatalogCourse>): (m: map<string, CatalogCourse>)
    ensures forall s | s in m :: m[s].slug == s
    ensures forall i | 0 <= i < |list| :: list[i].slug in m
    ensures forall s | s in m :: exists i | 0 <= i < |list| :: list[i] == m[s]
  {
    if |list| == 0 then map[]
    else
      var m := CatalogMap(list[..|list| - 1]);
      var c := list[|list| - 1];
      assert forall s | s in m :: exists i | 0 <= i < |list| :: list[i] == m[s] by {
        forall s | s in m ensures exists i | 0 <= i < |list| :: list[i] == m[s] {
          var i :| 0 <= i < |list| - 1 && list[..|list| - 1][i] == m[s];
          assert list[i] == m[s];
        }
      }
      m[c.slug := c]
  }

  /** The slugs in the order a `Map` built from `list` yields them: first
      occurrences. */
  function FirstOccurrences(slugs: seq<string>): (r: seq<string>)
    ensures forall i, j | 0 <= i < j < |r| :: r[i] != r[j]
    ensures forall s :: s in r <==> s in slugs
  {
    if |slugs| == 0 then []
    else
      var r := FirstOccurrences(slugs[..|slugs| - 1]);
      if slugs[|slugs| - 1] in r then r else r + [slugs[|slugs| - 1]]
  }

  function Slugs(list: seq<CatalogCourse>): (r: seq<string>)
    ensures |r| == |list| && forall i | 0 <= i < |r| :: r[i] == list[i].slug
  {
    seq(|list|, i requires 0 <= i < |list| => list[i].slug)
  }

  function Filter200(slugs: seq<string>, status: string -> int): (r: seq<string>)
    ensures forall s :: s in r <==> s in slugs && status(s) == 200
    ensures (forall i, j | 0 <= i < j < |slugs| :: slugs[i] != slugs[j]) ==> forall i, j | 0 <= i < j < |r| :: r[i] != r[j]
  {
    if |slugs| == 0 then []
    else
      var r := Filter200(slugs[..|slugs| - 1], status);
      var s := slugs[|slugs| - 1];
      assert forall t | t in slugs[..|slugs| - 1] :: t in slugs;
      if status(s) == 200 then r + [s] else r
  }

  /** `access200`: the catalogue slugs whose lessons request answered 200
      (`status` gives 0 when the request throws), in the catalogue's
      order. */
  function Access200(list: seq<CatalogCourse>, status: string -> int): (r: seq<string>)
    ensures forall i, j | 0 <= i < j < |r| :: r[i] != r[j]
    ensures forall s :: s in r <==> (exists i | 0 <= i < |list| :: list[i].slug == s) && status(s) == 200
  {
    var slugs := Slugs(list);
    assert forall s :: s in slugs <==> exists i | 0 <= i < |list| :: list[i].slug == s;
    Filter200(FirstOccurrences(slugs), status)
  }

  // ---------------------------------------------------------------------
  // The merge

  datatype Card = Card(slug: string, title: string, thumbnail: string, level: string)

  /** `bySlugCatalog.get(slug) || {}`. */
  function Lookup(catalog: map<string, CatalogCourse>, slug: string): CatalogCourse
  {
    if slug in catalog then catalog[slug] else CatalogCourse(slug, "", "", "")
  }

  predicate DistinctSlugs(cards: seq<Card>)
  {
    forall i, j | 0 <= i < j < |cards| :: cards[i].slug != cards[j].slug
  }

  /** Some card has `slug`. */
  predicate Has(cards: seq<Card>, slug: string)
  {
    exists i | 0 <= i < |cards| :: cards[i].slug == slug
  }

  /** Where `slug` sits in the insertion order, `|cards|` when absent. */
  function Find(cards: seq<Card>, slug: string): (k: nat)
    ensures k <= |cards|
    ensures k < |cards| ==> cards[k].slug == slug
    ensures k == |cards| ==> forall i | 0 <= i < |cards| :: cards[i].slug != slug
  {
    if |cards| == 0 then 0
    else if cards[0].slug == slug then 0
    else 1 + Find(cards[1..], slug)
  }

  /** `Map.set` on the cards kept in insertion order: an existing slug is
      overwritten in place, a new one goes to the end. */
  function Put(cards: seq<Card>, c: Card): (r: seq<Card>)
    requires DistinctSlugs(cards)
    ensures |cards| <= |r| <= |cards| + 1
    ensures DistinctSlugs(r)
    ensures forall s :: Has(r, s) <==> Has(cards, s) || s == c.slug
    ensures Find(r, c.slug) < |r| && r[Find(r, c.slug)] == c
    ensures forall i | 0 <= i < |cards| && cards[i].slug != c.slug :: r[i] == cards[i]
  {
    var k := Find(cards, c.slug);
    if k < |cards| then
      var r := cards[k := c];
      assert forall s :: Has(r, s) <==> Has(cards, s) by {
        forall s ensures Has(r, s) <==> Has(cards, s) {
          if Has(cards, s) { var i :| 0 <= i < |cards| && cards[i].slug == s; assert r[i].slug == s; }
          if Has(r, s) { var i :| 0 <= i < |r| && r[i].slug == s; assert cards[i].slug == s; }
        }
      }
      FindFirst(r, k);
      r
    else
      var r := cards + [c];
      assert forall s :: Has(r, s) <==> Has(cards, s) || s == c.slug by {
        forall s ensures Has(r, s) <==> Has(cards, s) || s == c.slug {
          if Has(cards, s) { var i :| 0 <= i < |cards| && cards[i].slug == s; assert r[i].slug == s; }
          if s == c.slug { assert r[|cards|].slug == s; }
          if Has(r, s) { var i :| 0 <= i < |r| && r[i].slug == s; if i < |cards| { assert cards[i].slug == s; } }
        }
      }
      FindFirst(r, |cards|);
      r
  }

  lemma FindFirst(cards: seq<Card>, k: nat)
    requires DistinctSlugs(cards) && k < |cards|
    ensures Find(cards, cards[k].slug) == k
  {
  }

  /** The card the owned pass writes for `o`. */
  function OwnedCard(env: ThumbEnv, catalog: map<string, CatalogCourse>, o: Owned): Card
  {
    var cat := Lookup(catalog, o.slug);
    Card(o.slug, Or(Or(o.title, cat.title), o.slug), ResolveThumb(env, o.slug, Or(o.thumbnail, cat.thumbnail)),
         ToLower(cat.level))
  }

  /** The card the access pass writes for `slug`, given what the owned pass
      left there. */
  function AccessCard(env: ThumbEnv, catalog: map<string, CatalogCourse>, prev: Option<Card>, slug: string): (c: Card)
    ensures c.slug == slug
    ensures prev.Some? && prev.value.title != "" ==> c.title == prev.value.title
    ensures prev.Some? && prev.value.thumbnail != "" ==> c.thumbnail == prev.value.thumbnail
    ensures prev.Some? && prev.value.level != "" ==> c.level == prev.value.level
  {
    var cat := Lookup(catalog, slug);
    match prev
    case None => Card(slug, Or(cat.title, slug), ResolveThumb(env, slug, cat.thumbnail), ToLower(cat.level))
    case Some(p) =>
      Card(slug, Or(Or(p.title, cat.title), slug), Or(p.thumbnail, ResolveThumb(env, slug, cat.thumbnail)),
           Or(p.level, ToLower(cat.level)))
  }

  /** `owned.map(x => x.slug)`. */
  function OwnedSlugs(owned: seq<Owned>): (r: seq<string>)
    ensures |r| == |owned| && forall i | 0 <= i < |owned| :: r[i] == owned[i].slug
  {
    if |owned| == 0 then [] else OwnedSlugs(owned[..|owned| - 1]) + [owned[|owned| - 1].slug]
  }

  /** The first loop over the owned courses. */
  function OwnedPass(env: ThumbEnv, catalog: map<string, CatalogCourse>, owned: seq<Owned>): (r: seq<Card>)
    ensures DistinctSlugs(r)
    ensures forall s :: Has(r, s) <==> s in OwnedSlugs(owned)
  {
    if |owned| == 0 then []
    else Put(OwnedPass(env, catalog, owned[..|owned| - 1]), OwnedCard(env, catalog, owned[|owned| - 1]))
  }

  function AccessStep(env: ThumbEnv, catalog: map<string, CatalogCourse>, cards: seq<Card>, slug: string): (r: seq<Card>)
    requires DistinctSlugs(cards)
    ensures DistinctSlugs(r)
    ensures forall s :: Has(r, s) <==> Has(cards, s) || s == slug
  {
    var k := Find(cards, slug);
    Put(cards, AccessCard(env, catalog, if k < |cards| then Some(cards[k]) else None, slug))
  }

  /** The second loop over the slugs with access. */
  function AccessPass(env: ThumbEnv, catalog: map<string, CatalogCourse>, cards: seq<Card>, access: seq<string>): (r: seq<Card>)
    requires DistinctSlugs(cards)
    ensures DistinctSlugs(r)
    ensures forall s :: Has(r, s) <==> Has(cards, s) || s in access
  {
    if |access| == 0 then cards
    else
      var prefix := access[..|access| - 1];
      assert access == prefix + [access[|access| - 1]];
      AccessStep(env, catalog, AccessPass(env, catalog, cards, prefix), access[|access| - 1])
  }

  /** An access step never empties a title, thumbnail or level already
      there, for its own slug or any other. */
  lemma AccessStepKeeps(env: ThumbEnv, catalog: map<string, CatalogCourse>, cards: seq<Card>, slug: string, i: nat)
    requires DistinctSlugs(cards) && i < |cards|
    ensures var r := AccessStep(env, catalog, cards, slug);
      i < |r| && r[i].slug == cards[i].slug
      && (cards[i].title != "" ==> r[i].title == cards[i].title)
      && (cards[i].thumbnail != "" ==> r[i].thumbnail == cards[i].thumbnail)
      && (cards[i].level != "" ==> r[i].level == cards[i].level)
  {
    var k := Find(cards, slug);
    if cards[i].slug == slug {
      FindFirst(cards, i);
      var c := AccessCard(env, catalog, Some(cards[i]), slug);
      assert AccessStep(env, catalog, cards, slug) == cards[i := c];
    }
  }

  /** For a slug the owned pass already wrote, the access pass keeps its
      earlier title, thumbnail and level. */
  lemma {:induction false} AccessPassKeeps(env: ThumbEnv, catalog: map<string, CatalogCourse>, cards: seq<Card>, access: seq<string>, i: nat)
    requires DistinctSlugs(cards) && i < |cards|
    ensures var r := AccessPass(env, catalog, cards, access);
      i < |r| && r[i].slug == cards[i].slug
      && (cards[i].title != "" ==> r[i].title == cards[i].title)
      && (cards[i].thumbnail != "" ==> r[i].thumbnail == cards[i].thumbnail)
      && (cards[i].level != "" ==> r[i].level == cards[i].level)
  {
    if |access| > 0 {
      var prefix := access[..|access| - 1];
      AccessPassKeeps(env, catalog, cards, prefix, i);
      AccessStepKeeps(env, catalog, AccessPass(env, catalog, cards, prefix), access[|access| - 1], i);
    }
  }

  /** The two loops of `load`, over `Map.set` in insertion order. */
  method Merge(env: ThumbEnv, catalog: map<string, CatalogCourse>, owned: seq<Owned>, access: seq<string>)
    returns (merged: seq<Card>)
    ensures merged == AccessPass(env, catalog, OwnedPass(env, catalog, owned), access)
  {
    merged := [];
    for i := 0 to |owned|
      invariant merged == OwnedPass(env, catalog, owned[..i])
    {
      assert owned[..i + 1][..i] == owned[..i];
      merged := Put(merged, OwnedCard(env, catalog, owned[i]));
    }
    assert owned[..|owned|] == owned;
    ghost var first := merged;
    for j := 0 to |access|
      invariant DistinctSlugs(merged)
      invariant merged == AccessPass(env, catalog, first, access[..j])
    {
      assert access[..j + 1][..j] == access[..j];
      var k := Find(merged, access[j]);
      var prev := if k < |merged| then Some(merged[k]) else None;
      merged := Put(merged, AccessCard(env, catalog, prev, access[j]));
    }
    assert access[..|access|] == access;
  }

  // ---------------------------------------------------------------------
  // The order

  /** The comparator: owned (0) before not owned (1), then `localeCompare`
      on the titles, here the given total order `titleLe`. */
  function CardOrder(ownedSlugs: set<string>, titleLe: (string, string) -> bool): (Card, Card) -> bool
  {
    (a: Card, b: Card) =>
      (a.slug in ownedSlugs && b.slug !in ownedSlugs)
      || ((a.slug in ownedSlugs <==> b.slug in ownedSlugs) && titleLe(a.title, b.title))
  }

  lemma CardOrderTotalPreorder(ownedSlugs: set<string>, titleLe: (string, string) -> bool)
    requires Sorting.TotalPreorder(titleLe)
    ensures Sorting.TotalPreorder(CardOrder(ownedSlugs, titleLe))
  {
    var le := CardOrder(ownedSlugs, titleLe);
    forall a: Card, b: Card ensures le(a, b) || le(b, a) {
      assert titleLe(a.title, b.title) || titleLe(b.title, a.title);
    }
    forall a: Card, b: Card, c: Card | le(a, b) && le(b, c) ensures le(a, c) {
      if (a.slug in ownedSlugs <==> b.slug in ownedSlugs) && (b.slug in ownedSlugs <==> c.slug in ownedSlugs) {
        assert titleLe(a.title, b.title) && titleLe(b.title, c.title);
      }
    }
  }

  /** In a list sorted that way no merely accessible course comes before an
      owned one, and within each group titles are in order. */
  lemma OwnedFirst(cards: seq<Card>, ownedSlugs: set<string>, titleLe: (string, string) -> bool)
    requires Sorting.SortedBy(cards, CardOrder(ownedSlugs, titleLe))
    ensures forall i, j | 0 <= i < j < |cards| && cards[j].slug in ownedSlugs :: cards[i].slug in ownedSlugs
    ensures forall i, j | 0 <= i < j < |cards| && (cards[i].slug in ownedSlugs <==> cards[j].slug in ownedSlugs) ::
      titleLe(cards[i].title, cards[j].title)
  {
    forall i, j | 0 <= i < j < |cards| ensures CardOrder(ownedSlugs, titleLe)(cards[i], cards[j]) {
    }
  }

  /** `load()`. `hasUser` and `token` are the context's user and the stored
      token; `my` and `catalog` the two responses (None when not an array
      or failed); `status` what each lessons request answered. */
  method Load(env: ThumbEnv, hasUser: bool, token: string, my: Option<seq<OwnedRaw>>, catalog: Option<seq<CatalogCourse>>,
              status: string -> int, titleLe: (string, string) -> bool)
    returns (courses: seq<Card>)
    requires Sorting.TotalPreorder(titleLe)
    ensures !hasUser || token == "" ==> courses == []
    ensures hasUser && token != "" ==>
      var owned := OwnedList(my);
      var list := catalog.GetOr([]);
      var merged := AccessPass(env, CatalogMap(list), OwnedPass(env, CatalogMap(list), owned), Access200(list, status));
      multiset(courses) == multiset(merged)
      && Sorting.SortedBy(courses, CardOrder(set i | 0 <= i < |owned| :: owned[i].slug, titleLe))
      && (forall s :: Has(courses, s) <==> s in OwnedSlugs(owned) || s in Access200(list, status))
    ensures DistinctSlugs(courses)
  {
    if !hasUser || token == "" { return []; }
    var owned := OwnedList(my);
    var list := catalog.GetOr([]);
    var bySlug := CatalogMap(list);
    var merged := Merge(env, bySlug, owned, Access200(list, status));
    var ownedSlugs := set i | 0 <= i < |owned| :: owned[i].slug;
    CardOrderTotalPreorder(ownedSlugs, titleLe);
    courses := Sorting.SortBy(merged, CardOrder(ownedSlugs, titleLe));
    SameSlugsDistinct(merged, courses);
    SameHas(merged, courses);
  }

  /** Reordering keeps the slugs present. */
  lemma SameHas(a: seq<Card>, b: seq<Card>)
    requires multiset(a) == multiset(b)
    ensures forall s :: Has(a, s) <==> Has(b, s)
  {
    forall s ensures Has(a, s) <==> Has(b, s) {
      if Has(a, s) {
        var i :| 0 <= i < |a| && a[i].slug == s;
        assert a[i] in multiset(b);
        var j :| 0 <= j < |b| && b[j] == a[i];
      }
      if Has(b, s) {
        var j :| 0 <= j < |b| && b[j].slug == s;
        assert b[j] in multiset(a);
        var i :| 0 <= i < |a| && a[i] == b[j];
      }
    }
  }

  /** Reordering keeps slugs distinct. */
  lemma SameSlugsDistinct(a: seq<Card>, b: seq<Card>)
    requires DistinctSlugs(a) && multiset(a) == multiset(b)
    ensures DistinctSlugs(b)
  {
    forall i, j | 0 <= i < j < |b| ensures b[i].slug != b[j].slug {
      if b[i].slug == b[j].slug {
        assert b[i] in multiset(a) && b[j] in multiset(a);
        var x :| 0 <= x < |a| && a[x] == b[i];
        var y :| 0 <= y < |a| && a[y] == b[j];
        assert x == y;
        TwoCopies(b, i, j);
        CountOne(a, x);
        assert false;
      }
    }
  }

  lemma TwoCopies(b: seq<Card>, i: nat, j: nat)
    requires i < j < |b| && b[i] == b[j]
    ensures multiset(b)[b[i]] >= 2
  {
    assert b == b[..i] + [b[i]] + b[i + 1..j] + [b[j]] + b[j + 1..];
  }

  /** In a list with distinct slugs each card occurs once. */
  lemma CountOne(a: seq<Card>, x: nat)
    requires DistinctSlugs(a) && x < |a|
    ensures multiset(a)[a[x]] == 1
  {
    assert a == a[..x] + [a[x]] + a[x + 1..];
    assert a[x] !in a[..x];
    assert a[x] !in a[x + 1..];
  }
}
