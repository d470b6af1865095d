/**
 * The shape of the `Options` token tables of the Web API layer. Each token is a field of the
 * table object holding an option's wire name, whether it is read as a single value
 * (`Option.create`) or as a list (`ArrayOption.create`), and its declared value type.
 */
module Registry {
  import opened Wrappers
  import opened OptionSets

  datatype Kind = Scalar | Array

  /** A table entry: the field name in the source, the wire name, the kind and the declared value type. */
  datatype Entry = Entry(field: string, name: string, kind: Kind, valueType: string)

  /** No two entries of the table share a wire name. */
  predicate DistinctNames(t: seq<Entry>) {
    forall i, j :: 0 <= i < j < |t| ==> t[i].name != t[j].name
  }

  /** No entry of `a` shares a wire name with an entry of `b`. */
  predicate DisjointNames(a: seq<Entry>, b: seq<Entry>) {
    forall i, j :: 0 <= i < |a| && 0 <= j < |b| ==> a[i].name != b[j].name
  }

  lemma DistinctConcat(a: seq<Entry>, b: seq<Entry>)
    requires DistinctNames(a) && DistinctNames(b) && DisjointNames(a, b)
    ensures DistinctNames(a + b)
  {
    forall i, j | 0 <= i < j < |a + b|
      ensures (a + b)[i].name != (a + b)[j].name
    {
      if j < |a| {
        assert (a + b)[i] == a[i] && (a + b)[j] == a[j];
      } else if i < |a| {
        assert (a + b)[i] == a[i] && (a + b)[j] == b[j - |a|];
      } else {
        assert (a + b)[i] == b[i - |a|] && (a + b)[j] == b[j - |a|];
      }
    }
  }

  lemma DisjointConcat(a: seq<Entry>, b: seq<Entry>, c: seq<Entry>)
    requires DisjointNames(a, c) && DisjointNames(b, c)
    ensures DisjointNames(a + b, c)
  {
    forall i, j | 0 <= i < |a + b| && 0 <= j < |c|
      ensures (a + b)[i].name != c[j].name
    {
      if i < |a| {
        assert (a + b)[i] == a[i];
      } else {
        assert (a + b)[i] == b[i - |a|];
      }
    }
  }

  /** An entry's kind is `Scalar` exactly when its field is one of `fields`. */
  predicate KindsAsListed(t: seq<Entry>, fields: set<string>) {
    forall i :: 0 <= i < |t| ==> (t[i].kind == Scalar <==> t[i].field in fields)
  }

  lemma KindsConcat(a: seq<Entry>, b: seq<Entry>, fields: set<string>)
    requires KindsAsListed(a, fields) && KindsAsListed(b, fields)
    ensures KindsAsListed(a + b, fields)
  {
    forall i | 0 <= i < |a + b|
      ensures ((a + b)[i].kind == Scalar <==> (a + b)[i].field in fields)
    {
      if i < |a| {
        assert (a + b)[i] == a[i];
      } else {
        assert (a + b)[i] == b[i - |a|];
      }
    }
  }

  /** No entry is named `name`. */
  predicate NoneNamed(t: seq<Entry>, name: string) {
    forall i :: 0 <= i < |t| ==> t[i].name != name
  }

  lemma NoneNamedConcat(a: seq<Entry>, b: seq<Entry>, name: string)
    requires NoneNamed(a, name) && NoneNamed(b, name)
    ensures NoneNamed(a + b, name)
  {
    forall i | 0 <= i < |a + b|
      ensures (a + b)[i].name != name
    {
      if i < |a| {
        assert (a + b)[i] == a[i];
      } else {
        assert (a + b)[i] == b[i - |a|];
      }
    }
  }

  /**
   * Two tokens of a table with distinct names never interfere in an option set: a put through one
   * leaves what the other reads unchanged, in both implementations.
   */
  lemma TableTokensIndependent<T(!new), U>(table: seq<Entry>, i: nat, j: nat, m: map<string, Json.Json>,
                                          t: Token<T>, v: T, u: Token<U>)
    requires DistinctNames(table) && i < |table| && j < |table| && i != j
    requires t.name == table[i].name && u.name == table[j].name
    requires Json.RoundTrips(t.codec) && Json.NeverNull(t.codec)
    ensures KotlinGet(KotlinBuild(KotlinPut(m, t, v)), u) == KotlinGet(KotlinBuild(m), u)
    ensures JavaPut(m, Some(t), Some(v)).Success?
    ensures JavaGet(OptionSet(JavaPut(m, Some(t), Some(v)).value), Some(u)) == JavaGet(OptionSet(m), Some(u))
  {
    if i < j {
      assert table[i].name != table[j].name;
    } else {
      assert table[j].name != table[i].name;
    }
    KotlinGetAfterPut(m, t, v, u);
    JavaGetAfterPut(m, t, v, u);
  }
}
