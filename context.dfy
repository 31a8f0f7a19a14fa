/**
 * Mustache::Railstache#to_hash: the values a view-model hands to its
 * template. The instance's methods are given as a table from method name to
 * its visibility and to what calling it with no arguments does (return a
 * value or raise); `baseline` stands for Mustache::Railstache.instance_methods.
 */
module Context {
  import opened Results

  datatype Visibility = Public | Protected | Private

  /** A method's visibility and what `send(m)` does: return a value (Ok) or raise (Err). */
  datatype MethodDef<V, E> = MethodDef(visibility: Visibility, call: Result<V, E>)

  type MethodTable<V, E> = map<string, MethodDef<V, E>>

  /** Listed by Object#methods, which names public and protected methods. */
  predicate Listed<V, E>(table: MethodTable<V, E>, m: string)
  {
    m in table && table[m].visibility != Private
  }

  /** `methods - Mustache::Railstache.instance_methods` */
  function ExposedNames<V, E>(table: MethodTable<V, E>, baseline: set<string>): set<string>
  {
    set m | m in table && Listed(table, m) && m !in baseline
  }

  /** No exposed method raises when called. */
  predicate AllReturn<V, E>(table: MethodTable<V, E>, baseline: set<string>)
  {
    forall m :: m in ExposedNames(table, baseline) ==> table[m].call.Ok?
  }

  /** The hash `to_hash` builds when no exposed method raises. */
  function ExpectedHash<V, E>(table: MethodTable<V, E>, baseline: set<string>): map<string, V>
  {
    map m | m in ExposedNames(table, baseline) && table[m].call.Ok? :: table[m].call.value
  }

  /**
   * `to_hash`: call every exposed method and record name -> result. An error
   * raised by one of them propagates, and the hash is abandoned.
   */
  method ToHash<V, E>(table: MethodTable<V, E>, baseline: set<string>) returns (r: Result<map<string, V>, E>)
    ensures AllReturn(table, baseline) ==> r == Ok(ExpectedHash(table, baseline))
    ensures !AllReturn(table, baseline) ==>
      r.Err? && exists m :: m in ExposedNames(table, baseline) && table[m].call == Err(r.error)
  {
    var exposed := ExposedNames(table, baseline);
    var rv: map<string, V> := map[];
    var pending := exposed;
    while pending != {}
      invariant pending <= exposed
      invariant forall m :: m in exposed - pending ==> table[m].call.Ok?
      invariant rv == map m | m in exposed - pending && table[m].call.Ok? :: table[m].call.value
      decreases pending
    {
      var m :| m in pending;
      match table[m].call {
        case Err(e) =>
          return Err(e);
        case Ok(v) =>
          rv := rv[m := v];
      }
      pending := pending - {m};
    }
    assert exposed - pending == exposed;
    return Ok(rv);
  }

  /**
   * The keys of the context are exactly the listed methods outside the
   * baseline, and each maps to what calling that method returns.
   */
  lemma ContextKeys<V, E>(table: MethodTable<V, E>, baseline: set<string>)
    requires AllReturn(table, baseline)
    ensures forall m :: m in ExpectedHash(table, baseline) <==>
      m in table && table[m].visibility != Private && m !in baseline
    ensures forall m :: m in ExpectedHash(table, baseline) ==>
      table[m].call == Ok(ExpectedHash(table, baseline)[m])
  {
  }

  /** A private method is never in the context, whatever it returns. */
  lemma PrivateHidden<V, E>(table: MethodTable<V, E>, baseline: set<string>, m: string)
    requires m in table && table[m].visibility == Private
    ensures m !in ExposedNames(table, baseline) && m !in ExpectedHash(table, baseline)
  {
  }

  /** A subclass that adds no listed method outside the baseline yields {}. */
  lemma NothingAddedIsEmpty<V, E>(table: MethodTable<V, E>, baseline: set<string>)
    requires forall m :: Listed(table, m) ==> m in baseline
    ensures AllReturn(table, baseline)
    ensures ExpectedHash(table, baseline) == map[]
  {
  }

  /** Two tables that list the same methods, with the same results, outside the baseline. */
  ghost predicate SameOutsideBaseline<V, E>(t1: MethodTable<V, E>, t2: MethodTable<V, E>, baseline: set<string>)
  {
    forall m :: m !in baseline ==>
      (Listed(t1, m) <==> Listed(t2, m)) && (Listed(t1, m) ==> t1[m].call == t2[m].call)
  }

  /**
   * Redefining baseline methods (`init`) or private ones (`initialize`) does
   * not change the context, nor whether building it raises.
   */
  lemma OverridesIgnored<V, E>(t1: MethodTable<V, E>, t2: MethodTable<V, E>, baseline: set<string>)
    requires SameOutsideBaseline(t1, t2, baseline)
    ensures ExposedNames(t1, baseline) == ExposedNames(t2, baseline)
    ensures AllReturn(t1, baseline) <==> AllReturn(t2, baseline)
    ensures ExpectedHash(t1, baseline) == ExpectedHash(t2, baseline)
  {
  }

  /**
   * A subclass defining public `one` -> 1, `two` -> 2 and private
   * `three` -> 3 over a base whose listed methods are all in the baseline
   * yields exactly {one: 1, two: 2}.
   */
  lemma OneTwoNotThree<E>(base: MethodTable<int, E>, baseline: set<string>)
    requires forall m :: Listed(base, m) ==> m in baseline
    requires "one" !in baseline && "two" !in baseline
    ensures var t := base["one" := MethodDef(Public, Ok(1))]
                         ["two" := MethodDef(Public, Ok(2))]
                         ["three" := MethodDef(Private, Ok(3))];
      AllReturn(t, baseline) && ExpectedHash(t, baseline) == map["one" := 1, "two" := 2]
  {
  }
}
