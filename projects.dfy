/**
 * The project catalog: the shape of a project record and the two queries the
 * pages run against the catalog, a first-match lookup by id and an
 * order-preserving filter by project type.
 */
module Projects {
  import opened Wrappers

  /** The `type` field: every record is exactly one of the two kinds. */
  datatype ProjectType = Personal | Professional

  /** The string a record's `type` field holds. */
  function TypeName(t: ProjectType): (name: string)
    ensures name == "personal" <==> t == Personal
    ensures name == "professional" <==> t == Professional
  {
    match t
    case Personal => "personal"
    case Professional => "professional"
  }

  datatype Overview = Overview(
    description: seq<string>,
    engine: string,
    timeframe: string,
    team: string)

  datatype RoleSkills = RoleSkills(
    description: seq<string>,
    badges: seq<string>)

  /** An entry of a section's `images`: a bare path or a `{src, caption}` object. */
  datatype Image = Path(src: string) | Captioned(src: string, caption: string)

  datatype Pillar = Pillar(icon: string, title: string, subtitle: string)

  datatype Subsection = Subsection(
    title: string,
    bullets: Option<seq<string>>,
    pillars: Option<seq<Pillar>>)

  datatype Section = Section(
    title: string,
    id: string,
    content: seq<string>,
    bullets: Option<seq<string>>,
    images: Option<seq<Image>>,
    subsections: Option<seq<Subsection>>)

  datatype Links = Links(playStore: Option<string>, github: Option<string>)

  /** One catalog record; `kind` is the source's `type` field. */
  datatype ProjectData = ProjectData(
    id: string,
    title: string,
    genre: string,
    role: string,
    kind: ProjectType,
    image: string,
    overview: Overview,
    roleSkills: RoleSkills,
    screenshots: seq<string>,
    sections: seq<Section>,
    links: Option<Links>,
    video: Option<string>,
    pdf: Option<string>)

  /** The anchor names the detail page reserves for its fixed blocks. */
  const ReservedAnchors: set<string> := {"overview", "screenshots", "reflection"}

  /**
   * `projects.find(p => p.id === id)`: the first record whose id is `id`, or
   * `None` (the source's `undefined`) when no record has that id.
   */
  function FindById(catalog: seq<ProjectData>, id: string): (r: Option<ProjectData>)
    ensures r.None? <==> forall i :: 0 <= i < |catalog| ==> catalog[i].id != id
    ensures r.Some? ==> exists i :: 0 <= i < |catalog| && catalog[i] == r.value && r.value.id == id
                                  && forall j :: 0 <= j < i ==> catalog[j].id != id
  {
    if catalog == [] then None
    else if catalog[0].id == id then Some(catalog[0])
    else
      var r := FindById(catalog[1..], id);
      assert r.Some? ==> exists i :: 0 <= i < |catalog| && catalog[i] == r.value && r.value.id == id
                                  && forall j :: 0 <= j < i ==> catalog[j].id != id by {
        if r.Some? {
          var i :| 0 <= i < |catalog[1..]| && catalog[1..][i] == r.value && r.value.id == id
                   && forall j :: 0 <= j < i ==> catalog[1..][j].id != id;
          assert forall j :: 0 <= j < i + 1 ==> catalog[j].id != id by {
            forall j | 0 <= j < i + 1 ensures catalog[j].id != id {
              if j > 0 { assert catalog[j] == catalog[1..][j - 1]; }
            }
          }
        }
      }
      r
  }

  /** `a` can be obtained from `b` by deleting elements, keeping the order of the rest. */
  predicate IsSubsequence<T(==)>(a: seq<T>, b: seq<T>)
    decreases |b|
  {
    if a == [] then true
    else if b == [] then false
    else if a[0] == b[0] then IsSubsequence(a[1..], b[1..])
    else IsSubsequence(a, b[1..])
  }

  /**
   * `projects.filter(p => p.type === type)`: the records of kind `t`, each as
   * often as it occurs in the catalog, in catalog order.
   */
  function FilterByType(catalog: seq<ProjectData>, t: ProjectType): (r: seq<ProjectData>)
    ensures forall i :: 0 <= i < |r| ==> r[i].kind == t
    ensures forall x :: x in r <==> x in catalog && x.kind == t
  {
    if catalog == [] then []
    else
      var rest := FilterByType(catalog[1..], t);
      assert catalog == [catalog[0]] + catalog[1..];
      if catalog[0].kind == t then [catalog[0]] + rest else rest
  }

  /** The kind that is not `t`. */
  function Other(t: ProjectType): (u: ProjectType)
    ensures u != t
  {
    if t == Personal then Professional else Personal
  }

  /** No two records share an id. */
  predicate IdsDistinct(catalog: seq<ProjectData>)
  {
    forall i, j :: 0 <= i < j < |catalog| ==> catalog[i].id != catalog[j].id
  }

  /** Every personal record comes before every professional one. */
  predicate PersonalFirst(catalog: seq<ProjectData>)
  {
    forall i, j :: 0 <= i < j < |catalog| && catalog[j].kind == Personal ==> catalog[i].kind == Personal
  }

  /** Within a record, section ids are pairwise distinct and none is a reserved anchor. */
  predicate SectionIdsWellFormed(p: ProjectData)
  {
    && (forall i, j :: 0 <= i < j < |p.sections| ==> p.sections[i].id != p.sections[j].id)
    && (forall i :: 0 <= i < |p.sections| ==> p.sections[i].id !in ReservedAnchors)
  }

  /**
   * The filter keeps each record of kind `t` exactly as many times as the
   * catalog holds it, drops every other record, and keeps catalog order.
   */
  lemma {:induction false} FilterExact(catalog: seq<ProjectData>, t: ProjectType)
    ensures forall x :: multiset(FilterByType(catalog, t))[x] == if x.kind == t then multiset(catalog)[x] else 0
    ensures IsSubsequence(FilterByType(catalog, t), catalog)
  {
    if catalog != [] {
      FilterExact(catalog[1..], t);
      assert catalog == [catalog[0]] + catalog[1..];
    }
  }

  /** With distinct ids, looking up a record's own id finds that record. */
  lemma {:induction false} FindOwnId(catalog: seq<ProjectData>, k: nat)
    requires IdsDistinct(catalog)
    requires k < |catalog|
    ensures FindById(catalog, catalog[k].id) == Some(catalog[k])
  {
    var r := FindById(catalog, catalog[k].id);
    var i :| 0 <= i < |catalog| && catalog[i] == r.value && r.value.id == catalog[k].id
             && forall j :: 0 <= j < i ==> catalog[j].id != catalog[k].id;
    assert i == k;
  }

  /** Filtering distributes over concatenation. */
  lemma {:induction false} FilterAppend(a: seq<ProjectData>, b: seq<ProjectData>, t: ProjectType)
    ensures FilterByType(a + b, t) == FilterByType(a, t) + FilterByType(b, t)
  {
    if a == [] {
      assert a + b == b;
    } else {
      assert (a + b)[1..] == a[1..] + b;
      FilterAppend(a[1..], b, t);
    }
  }

  /** A catalog all of one kind is kept whole by that kind's filter and emptied by the other's. */
  lemma {:induction false} FilterUniform(catalog: seq<ProjectData>, t: ProjectType)
    requires forall i :: 0 <= i < |catalog| ==> catalog[i].kind == t
    ensures FilterByType(catalog, t) == catalog
    ensures FilterByType(catalog, Other(t)) == []
  {
    if catalog != [] {
      var tail := catalog[1..];
      assert forall i :: 0 <= i < |tail| ==> tail[i].kind == t by {
        forall i | 0 <= i < |tail| ensures tail[i].kind == t {
          assert tail[i] == catalog[i + 1];
        }
      }
      FilterUniform(tail, t);
      assert catalog[0].kind == t;
      assert catalog == [catalog[0]] + tail;
      assert FilterByType(catalog, t) == [catalog[0]] + FilterByType(tail, t);
      assert FilterByType(catalog, Other(t)) == FilterByType(tail, Other(t));
    }
  }

  /**
   * When every personal record precedes every professional one, the personal
   * list followed by the professional list is the catalog itself.
   */
  lemma {:induction false} PartitionByType(catalog: seq<ProjectData>)
    requires PersonalFirst(catalog)
    ensures FilterByType(catalog, Personal) + FilterByType(catalog, Professional) == catalog
  {
    if catalog == [] {
    } else if catalog[0].kind == Professional {
      var first := catalog[0];
      assert forall i :: 0 <= i < |catalog| ==> catalog[i].kind == Professional by {
        forall i | 0 <= i < |catalog| ensures catalog[i].kind == Professional {
          assert 0 < i ==> (catalog[i].kind == Personal ==> first.kind == Personal);
        }
      }
      FilterUniform(catalog, Professional);
    } else {
      var tail := catalog[1..];
      assert PersonalFirst(tail) by {
        forall i, j | 0 <= i < j < |tail| && tail[j].kind == Personal
          ensures tail[i].kind == Personal
        {
          assert tail[i] == catalog[i + 1] && tail[j] == catalog[j + 1];
        }
      }
      PartitionByType(tail);
      assert catalog == [catalog[0]] + tail;
      assert FilterByType(catalog, Personal) == [catalog[0]] + FilterByType(tail, Personal);
      assert FilterByType(catalog, Professional) == FilterByType(tail, Professional);
    }
  }

  /** Whatever the order, the two kinds together account for every record exactly once. */
  lemma {:induction false} TypesCoverCatalog(catalog: seq<ProjectData>)
    ensures multiset(FilterByType(catalog, Personal)) + multiset(FilterByType(catalog, Professional))
            == multiset(catalog)
  {
    var a, b := FilterByType(catalog, Personal), FilterByType(catalog, Professional);
    FilterExact(catalog, Personal);
    FilterExact(catalog, Professional);
    forall x ensures (multiset(a) + multiset(b))[x] == multiset(catalog)[x] {
    }
  }
}
