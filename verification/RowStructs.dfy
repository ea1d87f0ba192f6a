/** The row struct functions in the form of the Go code, each call on its own. */
module RowStructs {
  import opened Common
  import opened Sql
  import opened QueryBuilder
  import opened Reflection
  import opened QueryCaches
  import Updates

  type ByFormatter = map<nat, Entry>
  type ByBuilder = map<nat, ByFormatter>
  type ByReflector = map<nat, ByBuilder>

  /** One of the query caches: nested maps, made on demand. */
  class QueryCache {
    var entries: map<nat, ByReflector>

    constructor ()
      ensures forall k :: Find(k) == None
    {
      entries := map[];
    }

    function Find(k: Key): Option<Entry>
      reads this
    {
      if k.typ in entries && k.refl in entries[k.typ] && k.builder in entries[k.typ][k.refl]
         && k.fmtr in entries[k.typ][k.refl][k.builder]
      then Some(entries[k.typ][k.refl][k.builder][k.fmtr])
      else None
    }

    method Store(key: Key, entry: Entry)
      modifies this
      ensures forall k :: Find(k) == if k == key then Some(entry) else old(Find(k))
    {
      if key.typ !in entries {
        entries := entries[key.typ := map[]];
      }
      var byReflector: ByReflector := entries[key.typ];
      if key.refl !in byReflector {
        byReflector := byReflector[key.refl := map[]];
      }
      var byBuilder: ByBuilder := byReflector[key.refl];
      if key.builder !in byBuilder {
        byBuilder := byBuilder[key.builder := map[]];
      }
      var byFormatter: ByFormatter := byBuilder[key.builder];
      byFormatter := byFormatter[key.fmtr := entry];
      byBuilder := byBuilder[key.builder := byFormatter];
      byReflector := byReflector[key.refl := byBuilder];
      entries := entries[key.typ := byReflector];
    }

    method Clear()
      modifies this
      ensures forall k :: Find(k) == None
    {
      entries := map[];
    }

    /** Every entry is what recomputation gives. */
    ghost predicate Valid(w: World, op: Op)
      reads this
    {
      forall k :: Find(k).Some? ==> Recompute(w, op, k) == Ok(Find(k).value)
    }
  }

  /** The values at the indices, as the loop over structFieldIndices reads them. */
  method ReadFields(v: GoValue, indices: seq<seq<nat>>) returns (r: Option<seq<GoValue>>)
    ensures r == ReadAll(v, indices)
  {
    var vals: seq<GoValue> := [];
    for i := 0 to |indices|
      invariant |vals| == i
      invariant forall j :: 0 <= j < i ==> Holds(v, indices[j]) && vals[j] == Get(v, indices[j])
    {
      if !Holds(v, indices[i]) { return None; }
      vals := vals + [Get(v, indices[i])];
    }
    assert ReadAll(v, indices).Some? && ReadAll(v, indices).value == vals;
    return Some(vals);
  }

  method ContainsKey(columns: seq<ColumnInfo>) returns (hasPK: bool)
    ensures hasPK <==> Updates.HasKey(columns)
  {
    for i := 0 to |columns|
      invariant forall j :: 0 <= j < i ==> !columns[j].primaryKey
    {
      if columns[i].primaryKey { return true; }
    }
    return false;
  }

  /** What a call computes for itself: its outcome, and the field indices to remember with the query. */
  method Uncached(w: World, op: Op, key: Key, options: Options, v: GoValue) returns (r: Outcome, indices: seq<seq<nat>>)
    ensures r == Fresh(w, op, key, options, v)
    ensures r.Ran? ==>
              && w.reflects(key.typ, key.refl).Ok?
              && Compute(w, op, key, options, w.reflects(key.typ, key.refl).value) == Ok(Entry(r.query, indices))
  {
    indices := [];
    var reflected := w.reflects(key.typ, key.refl);
    if reflected.Fail? { return Failed(reflected.error), indices; }
    var picked := Picked(op, options, reflected.value);
    var columns := ColumnsOf(picked);
    indices := IndicesOf(picked);
    var read := ReadFields(v, indices);
    if read.None? { return Panicked, indices; }
    var vals := Reflect(w, key.refl, picked, read.value);
    if op.Delete? && |columns| == 0 { return Failed(NoPrimaryKey), indices; }
    var table := w.table(key.typ, key.refl);
    if table.Fail? { return Failed(table.error), indices; }
    if op.Update? || op.Upsert? {
      var hasPK := ContainsKey(columns);
      if !hasPK { return Failed(NoPrimaryKey), indices; }
    }
    var query := w.build(op, key.builder, key.fmtr, table.value, columns);
    if query.Fail? { return Failed(query.error), indices; }
    if op.Update? {
      indices := Updates.ReorderForUpdate(columns, indices);
      vals := Updates.ReorderForUpdate(columns, vals);
    }
    return Ran(query.value, vals), indices;
  }

  /** A call: from the cache if it can, and into the cache if it may. */
  method RowStruct(w: World, op: Op, cache: QueryCache, key: Key, options: Options, v: GoValue) returns (r: Outcome)
    requires cache.Valid(w, op)
    modifies cache
    ensures cache.Valid(w, op)
    ensures match old(cache.Find(key))
            case Some(entry) => r == if options.None? then Hit(entry, v) else Fresh(w, op, key, options, v)
            case None => r == Fresh(w, op, key, options, v)
    ensures options.None? && r.Ran? ==> Recompute(w, op, key).Ok? && cache.Find(key) == Some(Recompute(w, op, key).value)
    ensures forall k :: k != key || options.Some? || !r.Ran? ==> cache.Find(k) == old(cache.Find(k))
  {
    hide Compute, Hit, QueryCache.Find;
    var useCache := options.None?;
    if useCache {
      var cached := cache.Find(key);
      if cached.Some? {
        var vals := ReadFields(v, cached.value.indices);
        HitReads(cached.value, v);
        if vals.None? { return Panicked; }
        return Ran(cached.value.query, Plains(vals.value));
      }
    }
    var indices;
    r, indices := Uncached(w, op, key, options, v);
    if useCache && r.Ran? {
      cache.Store(key, Entry(r.query, indices));
    }
  }

  lemma HitReads(entry: Entry, v: GoValue)
    ensures Hit(entry, v) == match ReadAll(v, entry.indices) case None => Panicked case Some(values) => Ran(entry.query, Plains(values))
  {
  }
}
