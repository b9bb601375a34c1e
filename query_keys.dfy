/**
 * The React Query cache keys of the CV hooks (frontend/src/hooks/use-cvs.ts)
 * and which cached queries each mutation invalidates. A query is invalidated
 * when the invalidation key is a prefix of its key, element by element.
 */
module QueryKeys {
  import opened Wrappers

  /** The `skip`/`limit` parameters of the list query, or none. */
  datatype ListParams = ListParams(skip: Option<int>, limit: Option<int>)

  /** One element of a key: a word, the list filters (possibly `undefined`), or a CV id. */
  datatype KeyPart = Word(word: string) | Filters(filters: Option<ListParams>) | CvId(id: int)

  type QueryKey = seq<KeyPart>

  const All: QueryKey := [Word("cvs")]

  function Lists(): QueryKey
  {
    All + [Word("list")]
  }

  function List(filters: Option<ListParams>): QueryKey
  {
    Lists() + [Filters(filters)]
  }

  function Details(): QueryKey
  {
    All + [Word("detail")]
  }

  function Detail(id: int): QueryKey
  {
    Details() + [CvId(id)]
  }

  /** `invalidateQueries({ queryKey: prefix })` reaches the query cached under `key`. */
  predicate Reaches(prefix: QueryKey, key: QueryKey)
  {
    |prefix| <= |key| && key[..|prefix|] == prefix
  }

  /** Every key the hooks build starts with "cvs". */
  lemma KeysStartWithCvs(filters: Option<ListParams>, id: int)
    ensures Reaches(All, Lists()) && Reaches(All, List(filters))
    ensures Reaches(All, Details()) && Reaches(All, Detail(id))
  {
    assert List(filters)[..1] == All;
    assert Detail(id)[..1] == All;
  }

  /** `lists()` reaches every list query and `details()` every detail query. */
  lemma FamilyPrefixes(filters: Option<ListParams>, id: int)
    ensures Reaches(Lists(), List(filters))
    ensures Reaches(Details(), Detail(id))
  {
    assert List(filters)[..2] == Lists();
    assert Detail(id)[..2] == Details();
  }

  /** Two detail keys are equal exactly when their ids are. */
  lemma DetailInjective(a: int, b: int)
    ensures Detail(a) == Detail(b) <==> a == b
  {
    if Detail(a) == Detail(b) {
      assert Detail(a)[2] == Detail(b)[2];
    }
  }

  /** List and detail keys differ at index 1, so neither family's invalidation reaches the other's queries. */
  lemma FamiliesDisjoint(filters: Option<ListParams>, id: int)
    ensures List(filters)[1] != Detail(id)[1]
    ensures !Reaches(Lists(), Detail(id)) && !Reaches(Details(), List(filters))
  {
    assert Detail(id)[..2][1] == Word("detail");
    assert List(filters)[..2][1] == Word("list");
  }

  /** A mutation of the CV hooks. */
  datatype Mutation = CreateCv | UpdateCv(id: int) | DeleteCv(id: int)

  /** The keys each mutation's `onSuccess` invalidates. */
  function Invalidates(m: Mutation): (keys: seq<QueryKey>)
    ensures Lists() in keys
    ensures m.UpdateCv? ==> Detail(m.id) in keys
  {
    match m
    case CreateCv => [Lists()]
    case UpdateCv(id) => [Detail(id), Lists()]
    case DeleteCv(_) => [Lists()]
  }

  /** Some key the mutation invalidates reaches the query. */
  predicate Stale(m: Mutation, key: QueryKey)
  {
    exists k | k in Invalidates(m) :: Reaches(k, key)
  }

  /**
   * After any mutation every list query is stale; a detail query is stale
   * only after an update of that same CV, and never after a create or delete.
   */
  lemma StaleQueries(m: Mutation, filters: Option<ListParams>, id: int)
    ensures Stale(m, List(filters))
    ensures Stale(m, Detail(id)) <==> m == UpdateCv(id)
  {
    FamilyPrefixes(filters, id);
    FamiliesDisjoint(filters, id);
    if Stale(m, Detail(id)) {
      var k :| k in Invalidates(m) && Reaches(k, Detail(id));
      if m.UpdateCv? && k == Detail(m.id) {
        assert Detail(id)[..3] == Detail(id);
        DetailInjective(m.id, id);
      }
    }
    if m == UpdateCv(id) {
      assert Detail(id)[..3] == Detail(id);
    }
  }

  /** `useCV`'s `enabled: !!id`: the detail query runs only for a non-zero id. */
  predicate DetailEnabled(id: int)
  {
    id != 0
  }
}
