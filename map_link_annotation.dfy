/**
 * A point of interest shown as a marker on the map: an immutable record
 * whose identity is a stable id, not its coordinate, title or link.
 */
module Annotations {

  import opened Wrappers
  import opened Geo

  /** The annotation's identity (a UUID drawn at construction). */
  type AnnotationId = nat

  /** A parsed link; only its host is read by the annotation. */
  datatype Url = Url(scheme: string, host: Option<string>, path: string, fragment: Option<string>)

  /** All fields are fixed at construction. */
  datatype MapLinkAnnotation = MapLinkAnnotation(
    id: AnnotationId,
    title: Option<string>,
    coordinate: Coordinate,
    url: Url)

  /** The text under the title in a callout: the link's host. */
  function Subtitle(a: MapLinkAnnotation): Option<string>
  {
    a.url.host
  }

  /** Swift `==` on annotations: identity only. */
  predicate Equal(a: MapLinkAnnotation, b: MapLinkAnnotation)
  {
    a.id == b.id
  }

  /**
   * Swift `hash(into:)` feeds only the id into the hasher. The hasher is
   * per-process seeded, so it is a parameter here.
   */
  function Hash(a: MapLinkAnnotation, hasher: AnnotationId -> int): int
  {
    hasher(a.id)
  }

  /**
   * Equality ignores title, coordinate and link: replacing any of them on
   * either side never changes the verdict.
   */
  lemma EqualIgnoresData(a: MapLinkAnnotation, b: MapLinkAnnotation,
                         title: Option<string>, coordinate: Coordinate, url: Url)
    ensures Equal(a, b) <==> Equal(a, b.(title := title, coordinate := coordinate, url := url))
    ensures Equal(a, b) <==> Equal(a.(title := title, coordinate := coordinate, url := url), b)
  {
  }

  /**
   * Two annotations are `==` exactly when they would be the same record once
   * one takes over the other's title, coordinate and link.
   */
  lemma EqualIffSameButData(a: MapLinkAnnotation, b: MapLinkAnnotation)
    ensures Equal(a, b) <==> a.(title := b.title, coordinate := b.coordinate, url := b.url) == b
  {
  }

  /** `==` is an equivalence relation. */
  lemma EqualIsEquivalence(a: MapLinkAnnotation, b: MapLinkAnnotation, c: MapLinkAnnotation)
    ensures Equal(a, a)
    ensures Equal(a, b) ==> Equal(b, a)
    ensures Equal(a, b) && Equal(b, c) ==> Equal(a, c)
  {
  }

  /** Equal annotations hash equally, whatever the hasher (the `Hashable` law). */
  lemma EqualImpliesEqualHash(a: MapLinkAnnotation, b: MapLinkAnnotation, hasher: AnnotationId -> int)
    requires Equal(a, b)
    ensures Hash(a, hasher) == Hash(b, hasher)
  {
  }

  /** The subtitle depends on the link alone: title, coordinate and id play no part. */
  lemma SubtitleDependsOnUrlOnly(a: MapLinkAnnotation, b: MapLinkAnnotation)
    requires a.url == b.url
    ensures Subtitle(a) == Subtitle(b)
  {
  }

  /**
   * The source of fresh ids. Each construction draws an id that no earlier
   * construction drew; the ghost set `issued` records every id drawn.
   */
  class AnnotationFactory {
    var nextId: AnnotationId
    ghost var issued: set<AnnotationId>

    ghost predicate Valid()
      reads this
    {
      forall i :: i in issued ==> i < nextId
    }

    constructor ()
      ensures Valid() && issued == {}
    {
      nextId := 0;
      issued := {};
    }

    /** `init(coordinate:title:url:)`: stores the data as given under a fresh id. */
    method Make(coordinate: Coordinate, title: Option<string>, url: Url) returns (a: MapLinkAnnotation)
      requires Valid()
      modifies this
      ensures Valid()
      ensures a.coordinate == coordinate && a.title == title && a.url == url
      ensures a.id !in old(issued) && issued == old(issued) + {a.id}
    {
      a := MapLinkAnnotation(nextId, title, coordinate, url);
      issued := issued + {nextId};
      nextId := nextId + 1;
    }
  }

  /** Two annotations built from identical data are still different annotations. */
  method MakeTwice(f: AnnotationFactory, coordinate: Coordinate, title: Option<string>, url: Url)
    returns (a: MapLinkAnnotation, b: MapLinkAnnotation)
    requires f.Valid()
    modifies f
    ensures f.Valid()
    ensures a.coordinate == b.coordinate && a.title == b.title && a.url == b.url
    ensures !Equal(a, b)
  {
    a := f.Make(coordinate, title, url);
    b := f.Make(coordinate, title, url);
  }
}
