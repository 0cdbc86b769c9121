/** The tenant keys (DBTypeEnum) and their names. */
module DbTypes {

  /** The three statically known tenant databases. */
  datatype DbType = MAIN | CLIENT_A | CLIENT_B

  /** Enum.name() of a key. */
  function Name(k: DbType): (s: string)
    ensures |s| > 0
  {
    match k
    case MAIN => "MAIN"
    case CLIENT_A => "CLIENT_A"
    case CLIENT_B => "CLIENT_B"
  }

  /** Distinct keys have distinct names, so a map keyed by name has one entry per key. */
  lemma NameInjective(j: DbType, k: DbType)
    ensures Name(j) == Name(k) <==> j == k
  {
  }

  /** The names of all keys. */
  function AllNames(): (names: set<string>)
    ensures forall k :: Name(k) in names
    ensures forall s :: s in names ==> exists k :: Name(k) == s
  {
    {Name(MAIN), Name(CLIENT_A), Name(CLIENT_B)}
  }

  /** The names of the keys in ks. */
  function NamesOf(ks: seq<DbType>): set<string> {
    set k | k in ks :: Name(k)
  }

  /** A hash map iterated in any order yields every name. */
  lemma NamesOfIterationOrder(order: seq<DbType>)
    requires IsIterationOrder(order)
    ensures NamesOf(order) == AllNames()
  {
    assert MAIN in order && CLIENT_A in order && CLIENT_B in order;
  }

  /** Every key, in declaration order (the array used by the routing probe). */
  const AllTypes: seq<DbType> := [MAIN, CLIENT_A, CLIENT_B]

  /**
   * An iteration order over a hash map holding one entry per key: each key
   * exactly once, in an order nobody promises.
   */
  predicate IsIterationOrder(order: seq<DbType>) {
    && |order| == 3
    && (forall k :: k in order)
    && (forall i, j :: 0 <= i < j < |order| ==> order[i] != order[j])
  }

  lemma AllTypesIsIterationOrder()
    ensures IsIterationOrder(AllTypes)
  {
    forall k: DbType ensures k in AllTypes {
      match k
      case MAIN => assert AllTypes[0] == k;
      case CLIENT_A => assert AllTypes[1] == k;
      case CLIENT_B => assert AllTypes[2] == k;
    }
  }
}
